/** The string operations of Python that the dispatch layer relies on, over
    `seq<char>`: ASCII `lower()`, `in` on strings, `startswith`/`endswith`,
    `strip()`, `split(sep)` and `join`, and `str()` on a non-negative integer. */
module Text {
  import opened Core

  // ---------------------------------------------------------------------------
  // Case

  /** ASCII case folding; other characters are left alone. */
  function LowerChar(c: char): char {
    if 'A' <= c <= 'Z' then (c as int + 32) as char else c
  }

  function Lower(s: string): (r: string)
    ensures |r| == |s|
    ensures forall i :: 0 <= i < |s| ==> r[i] == LowerChar(s[i])
  {
    if s == [] then [] else [LowerChar(s[0])] + Lower(s[1..])
  }

  lemma LowerIdempotent(s: string)
    ensures Lower(Lower(s)) == Lower(s)
  {
    var l := Lower(s);
    forall i | 0 <= i < |s| ensures Lower(l)[i] == l[i] {
      assert l[i] == LowerChar(s[i]);
    }
  }

  predicate IsLowercase(s: string) {
    forall i :: 0 <= i < |s| ==> !('A' <= s[i] <= 'Z')
  }

  lemma LowerOfLowercase(s: string)
    requires IsLowercase(s)
    ensures Lower(s) == s
  {
  }

  lemma LowerConcat(a: string, b: string)
    ensures Lower(a + b) == Lower(a) + Lower(b)
  {
    var l := Lower(a + b);
    forall i | 0 <= i < |a + b| ensures l[i] == (Lower(a) + Lower(b))[i] {
      if i < |a| { assert (a + b)[i] == a[i]; } else { assert (a + b)[i] == b[i - |a|]; }
    }
  }

  // ---------------------------------------------------------------------------
  // Substrings

  predicate OccursAt(s: string, sub: string, i: nat) {
    i + |sub| <= |s| && s[i..i + |sub|] == sub
  }

  /** The first position at or after `i` where `sub` occurs in `s`. */
  function FindFrom(s: string, sub: string, i: nat): (r: Option<nat>)
    decreases |s| - i
    ensures r.Some? ==> i <= r.value && OccursAt(s, sub, r.value)
    ensures r.Some? ==> forall j: nat :: i <= j < r.value ==> !OccursAt(s, sub, j)
    ensures r.None? ==> forall j: nat :: i <= j ==> !OccursAt(s, sub, j)
  {
    if i + |sub| > |s| then None
    else if s[i..i + |sub|] == sub then Some(i)
    else FindFrom(s, sub, i + 1)
  }

  /** `s.find(sub)`, with `None` for -1. */
  function Find(s: string, sub: string): Option<nat> {
    FindFrom(s, sub, 0)
  }

  /** Python's `sub in s`. */
  predicate Contains(s: string, sub: string) {
    Find(s, sub).Some?
  }

  lemma ContainsIff(s: string, sub: string)
    ensures Contains(s, sub) <==> exists i: nat :: OccursAt(s, sub, i)
  {
    if !Contains(s, sub) {
      forall i: nat ensures !OccursAt(s, sub, i) {
      }
    }
  }

  lemma ContainsWitness(s: string, sub: string, i: nat)
    requires OccursAt(s, sub, i)
    ensures Contains(s, sub)
  {
    ContainsIff(s, sub);
  }

  /** Whatever contains `x + y` contains `y`. */
  lemma ContainsTail(s: string, x: string, y: string)
    requires Contains(s, x + y)
    ensures Contains(s, y)
  {
    var i := Find(s, x + y).value;
    assert s[i..i + |x + y|] == x + y;
    assert s[i + |x|..i + |x| + |y|] == (x + y)[|x|..];
    ContainsWitness(s, y, i + |x|);
  }

  lemma ContainsNeedsRoom(s: string, sub: string)
    requires Contains(s, sub)
    ensures |sub| <= |s|
  {
  }

  /** A hit in a slice of `s` is a hit in `s`. */
  lemma ContainsInSlice(s: string, sub: string, a: nat, b: nat)
    requires a <= b <= |s|
    requires Contains(s[a..b], sub)
    ensures Contains(s, sub)
  {
    var t := s[a..b];
    var i := Find(t, sub).value;
    assert t[i..i + |sub|] == s[a + i..a + i + |sub|];
    ContainsWitness(s, sub, a + i);
  }

  /** A character of `sub` that `s` lacks keeps `sub` out of `s`. */
  lemma MissingChar(s: string, sub: string, k: nat)
    requires k < |sub| && sub[k] !in s
    ensures !Contains(s, sub)
  {
    forall i: nat ensures !OccursAt(s, sub, i) {
      if i + |sub| <= |s| {
        assert s[i..i + |sub|][k] == s[i + k];
        assert s[i + k] in s;
      }
    }
    ContainsIff(s, sub);
  }

  /** No character of `s` is one of `cs`. */
  predicate Avoids(s: string, cs: string) {
    forall k :: 0 <= k < |s| ==> s[k] !in cs
  }

  lemma AvoidsChar(s: string, cs: string, c: char)
    requires Avoids(s, cs) && c in cs
    ensures c !in s
  {
    forall k | 0 <= k < |s| ensures s[k] != c {
    }
  }

  /** A lower-case `sub` found in `s` is found in the lower-cased `s`. */
  lemma LowerContainsAt(s: string, sub: string, i: nat)
    requires IsLowercase(sub) && OccursAt(s, sub, i)
    ensures Contains(Lower(s), sub)
  {
    var l := Lower(s);
    forall k | 0 <= k < |sub| ensures l[i + k] == sub[k] {
      assert s[i..i + |sub|][k] == s[i + k];
    }
    assert l[i..i + |sub|] == sub;
    ContainsWitness(l, sub, i);
  }

  /** A lower-case letter of `sub` that `s` lacks in both cases keeps `sub`
      out of the lower-cased `s`. */
  lemma LowerMissingChar(s: string, sub: string, k: nat)
    requires k < |sub| && 'a' <= sub[k] <= 'z'
    requires sub[k] !in s && (sub[k] as int - 32) as char !in s
    ensures !Contains(Lower(s), sub)
  {
    var l := Lower(s);
    forall j | 0 <= j < |l| ensures l[j] != sub[k] {
      assert s[j] in s;
    }
    MissingChar(l, sub, k);
  }

  /** Python's `any(term in text for term in terms)`. */
  function ContainsAny(text: string, terms: seq<string>): (r: bool)
    ensures r <==> exists j :: 0 <= j < |terms| && Contains(text, terms[j])
  {
    if terms == [] then false
    else Contains(text, terms[0]) || ContainsAny(text, terms[1..])
  }

  /** No term occurs when each term has a character, at position `ks[j]`, that
      the text lacks. */
  lemma NoTermOccurs(text: string, terms: seq<string>, ks: seq<nat>)
    requires |ks| == |terms|
    requires forall j :: 0 <= j < |terms| ==> ks[j] < |terms[j]| && terms[j][ks[j]] !in text
    ensures !ContainsAny(text, terms)
  {
    forall j | 0 <= j < |terms| ensures !Contains(text, terms[j]) {
      MissingChar(text, terms[j], ks[j]);
    }
  }

  predicate StartsWith(s: string, p: string) {
    |p| <= |s| && s[..|p|] == p
  }

  predicate EndsWith(s: string, p: string) {
    |p| <= |s| && s[|s| - |p|..] == p
  }

  /** `s.split(sep)[0]`: the text before the first occurrence of `sep`, which
      holds no occurrence of a non-empty `sep`. */
  function BeforeFirst(s: string, sep: string): (r: string)
    ensures StartsWith(s, r)
    ensures |sep| > 0 ==> !Contains(r, sep)
    ensures !Contains(s, sep) ==> r == s
  {
    match Find(s, sep)
    case Some(i) =>
      PrefixBeforeFirstHasNoHit(s, sep, i);
      s[..i]
    case None => s
  }

  lemma PrefixBeforeFirstHasNoHit(s: string, sep: string, i: nat)
    requires Find(s, sep) == Some(i)
    ensures |sep| > 0 ==> !Contains(s[..i], sep)
  {
    if |sep| > 0 && Contains(s[..i], sep) {
      var t := s[..i];
      var j := Find(t, sep).value;
      assert t[j..j + |sep|] == s[j..j + |sep|];
      assert OccursAt(s, sep, j);
    }
  }

  /** The text after the first occurrence of `sep`. */
  function AfterFirst(s: string, sep: string): (r: string)
    requires Contains(s, sep)
    ensures |r| + |sep| <= |s| && EndsWith(s, r)
  {
    s[Find(s, sep).value + |sep|..]
  }

  /** `s.split(sep)[1]`: the text between the first and the second occurrence
      of `sep` (or the end of `s`). */
  function SecondField(s: string, sep: string): string
    requires Contains(s, sep)
  {
    BeforeFirst(AfterFirst(s, sep), sep)
  }

  // ---------------------------------------------------------------------------
  // Whitespace

  /** What Python's `str.isspace` accepts among ASCII characters. */
  predicate IsSpace(c: char) {
    c == ' ' || ('\t' <= c <= '\r') || ('\U{1C}' <= c <= '\U{1F}')
  }

  function TrimLeft(s: string): (r: string)
    ensures |r| <= |s| && r == s[|s| - |r|..]
    ensures forall j :: 0 <= j < |s| - |r| ==> IsSpace(s[j])
    ensures r != [] ==> !IsSpace(r[0])
  {
    if s != [] && IsSpace(s[0]) then TrimLeft(s[1..]) else s
  }

  function TrimRight(s: string): (r: string)
    ensures |r| <= |s| && r == s[..|r|]
    ensures forall j :: |r| <= j < |s| ==> IsSpace(s[j])
    ensures r != [] ==> !IsSpace(r[|r| - 1])
  {
    if s != [] && IsSpace(s[|s| - 1]) then TrimRight(s[..|s| - 1]) else s
  }

  /** Python's `s.strip()`. */
  function Strip(s: string): (r: string)
    ensures r != [] ==> !IsSpace(r[0]) && !IsSpace(r[|r| - 1])
  {
    TrimRight(TrimLeft(s))
  }

  /** Where `strip()` starts cutting: the length of the leading whitespace. */
  function StripStart(s: string): nat {
    |s| - |TrimLeft(s)|
  }

  /** `strip()` keeps a slice of its input: the one that starts at
      `StripStart(s)`. */
  lemma StripIsSlice(s: string)
    ensures StripStart(s) + |Strip(s)| <= |s|
    ensures Strip(s) == s[StripStart(s)..StripStart(s) + |Strip(s)|]
  {
    var l := TrimLeft(s);
    PrefixOfSuffix(s, |s| - |l|, TrimRight(l));
  }

  /** A prefix of a suffix is a slice. */
  lemma PrefixOfSuffix(s: string, a: nat, r: string)
    requires a <= |s| && |r| <= |s| - a && r == s[a..][..|r|]
    ensures r == s[a..a + |r|]
  {
  }

  /** `strip()` removes only whitespace: everything of the input around the
      kept slice is whitespace. */
  lemma StripCutsOnlyWhitespace(s: string)
    ensures forall j :: 0 <= j < StripStart(s) ==> IsSpace(s[j])
    ensures forall j :: StripStart(s) + |Strip(s)| <= j < |s| ==> IsSpace(s[j])
  {
    var l := TrimLeft(s);
    var a := |s| - |l|;
    var r := TrimRight(l);
    assert l == s[a..];
    forall j | a + |r| <= j < |s| ensures IsSpace(s[j]) {
      assert s[j] == l[j - a];
    }
  }

  /** Stripping twice is stripping once. */
  lemma StripIdempotent(s: string)
    ensures Strip(Strip(s)) == Strip(s)
  {
    var r := Strip(s);
    assert TrimLeft(r) == r;
    assert TrimRight(r) == r;
  }

  /** `strip()` adds no character. */
  lemma StripKeepsAbsent(s: string, c: char)
    requires c !in s
    ensures c !in Strip(s)
  {
    StripIsSlice(s);
    var a := StripStart(s);
    forall k | 0 <= k < |Strip(s)| ensures Strip(s)[k] != c {
      assert Strip(s)[k] == s[a + k];
    }
  }

  // ---------------------------------------------------------------------------
  // Split and join

  /** `sep.join(parts)`. */
  function Join(parts: seq<string>, sep: string): string {
    if |parts| == 0 then ""
    else if |parts| == 1 then parts[0]
    else parts[0] + sep + Join(parts[1..], sep)
  }

  function FirstIndex(s: string, c: char): (r: nat)
    requires c in s
    ensures r < |s| && s[r] == c && c !in s[..r]
  {
    if s[0] == c then 0 else 1 + FirstIndex(s[1..], c)
  }

  lemma {:induction false} FirstIndexAt(s: string, c: char, k: nat)
    requires k < |s| && s[k] == c && c !in s[..k]
    ensures FirstIndex(s, c) == k
  {
    if k > 0 {
      assert s[0] in s[..k];
      assert s[1..][..k - 1] == s[..k][1..];
      FirstIndexAt(s[1..], c, k - 1);
    }
  }

  /** `s.split(sep)` for a one-character separator: always at least one piece,
      no piece holds the separator, and joining the pieces gives `s` back. */
  function Split(s: string, sep: char): (r: seq<string>)
    decreases |s|
    ensures |r| >= 1
    ensures forall i :: 0 <= i < |r| ==> sep !in r[i]
    ensures Join(r, [sep]) == s
  {
    if sep !in s then [s]
    else
      var i := FirstIndex(s, sep);
      var rest := Split(s[i + 1..], sep);
      assert ([s[..i]] + rest)[1..] == rest;
      assert s == s[..i] + [sep] + s[i + 1..];
      [s[..i]] + rest
  }

  /** Splitting inverts joining when no part holds the separator. */
  lemma {:induction false} SplitOfJoin(parts: seq<string>, sep: char)
    requires |parts| >= 1
    requires forall i :: 0 <= i < |parts| ==> sep !in parts[i]
    ensures Split(Join(parts, [sep]), sep) == parts
  {
    if |parts| == 1 {
      assert Join(parts, [sep]) == parts[0];
    } else {
      var tail := Join(parts[1..], [sep]);
      var s := parts[0] + [sep] + tail;
      assert Join(parts, [sep]) == s;
      assert s[|parts[0]|] == sep;
      assert sep in s;
      FirstIndexAt(s, sep, |parts[0]|);
      var i := |parts[0]|;
      assert s[..i] == parts[0];
      assert s[i + 1..] == tail;
      SplitOfJoin(parts[1..], sep);
      assert Split(s, sep) == [parts[0]] + parts[1..];
    }
  }

  /** What `pick` yields along the lines, in line order. */
  function Picked(lines: seq<string>, pick: string -> Option<string>): (r: seq<string>)
    ensures |r| <= |lines|
  {
    if lines == [] then []
    else
      var b := pick(lines[0]);
      (if b.Some? then [b.value] else []) + Picked(lines[1..], pick)
  }

  /** What two runs of lines yield is what the first yields, then what the
      second does: the order of the lines is kept. */
  lemma {:induction false} PickedAppend(a: seq<string>, b: seq<string>, pick: string -> Option<string>)
    ensures Picked(a + b, pick) == Picked(a, pick) + Picked(b, pick)
  {
    if a == [] {
      assert a + b == b;
    } else {
      var x := if pick(a[0]).Some? then [pick(a[0]).value] else [];
      assert (a + b)[0] == a[0];
      assert (a + b)[1..] == a[1..] + b;
      assert Picked(a + b, pick) == x + Picked(a[1..] + b, pick);
      assert Picked(a, pick) == x + Picked(a[1..], pick);
      PickedAppend(a[1..], b, pick);
    }
  }

  /** A text is yielded exactly when some line yields it. */
  lemma {:induction false} PickedFromLines(lines: seq<string>, pick: string -> Option<string>, q: string)
    ensures q in Picked(lines, pick) <==> exists j :: 0 <= j < |lines| && pick(lines[j]) == Some(q)
  {
    if lines != [] {
      PickedFromLines(lines[1..], pick, q);
      if q in Picked(lines[1..], pick) {
        var j :| 0 <= j < |lines[1..]| && pick(lines[1..][j]) == Some(q);
        assert lines[j + 1] == lines[1..][j];
      }
      if exists j :: 0 <= j < |lines| && pick(lines[j]) == Some(q) {
        var j :| 0 <= j < |lines| && pick(lines[j]) == Some(q);
        if j > 0 {
          assert lines[1..][j - 1] == lines[j];
        }
      }
    }
  }

  /** `s.split("\n")`. */
  function Lines(s: string): seq<string> {
    Split(s, '\n')
  }

  // ---------------------------------------------------------------------------
  // Decimal rendering

  predicate IsDigit(c: char) {
    '0' <= c <= '9'
  }

  predicate AllDigits(s: string) {
    forall i :: 0 <= i < |s| ==> IsDigit(s[i])
  }

  function DigitChar(d: nat): (c: char)
    requires d < 10
    ensures IsDigit(c)
  {
    ('0' as int + d) as char
  }

  function DigitValue(c: char): (d: nat)
    requires IsDigit(c)
    ensures d < 10
  {
    c as int - '0' as int
  }

  /** `str(n)` for a non-negative integer: decimal digits, no leading zero. */
  function NatToString(n: nat): (r: string)
    ensures |r| >= 1 && AllDigits(r)
    ensures r[0] == '0' ==> n == 0
  {
    if n < 10 then [DigitChar(n)] else NatToString(n / 10) + [DigitChar(n % 10)]
  }

  /** `int(s)` for a string of decimal digits. */
  function ParseNat(s: string): nat
    requires AllDigits(s)
  {
    if s == [] then 0 else 10 * ParseNat(s[..|s| - 1]) + DigitValue(s[|s| - 1])
  }

  lemma {:induction false} ParseNatToString(n: nat)
    ensures ParseNat(NatToString(n)) == n
  {
    var s := NatToString(n);
    if n >= 10 {
      ParseNatToString(n / 10);
      assert s[..|s| - 1] == NatToString(n / 10);
    }
  }

  lemma NatToStringInjective(a: nat, b: nat)
    ensures NatToString(a) == NatToString(b) ==> a == b
  {
    ParseNatToString(a);
    ParseNatToString(b);
  }

  /** A digit string followed by a non-digit separator can be split back
      unambiguously. */
  lemma DigitsBefore(a: string, x: string, b: string, y: string, c: char)
    requires AllDigits(a) && AllDigits(b) && !IsDigit(c) && a + [c] + x == b + [c] + y
    ensures a == b && x == y
  {
    var s := a + [c] + x;
    assert s[..|a|] == a && s[..|b|] == b;
    assert s == b + [c] + y;
    FirstIndexAt(s, c, |a|);
    FirstIndexAt(s, c, |b|);
    assert a == s[..|a|] == b;
    assert x == s[|a| + 1..] == y;
  }
}
