/** The newer Streamlit client (`doctor-app/app/new_main.py`): one request to
    the server's analysis endpoint, the patient-data block it appends to a
    follow-up prompt, the extraction of follow-up questions from the answer,
    and the symptom buttons that add to the text box. */
module NewClient {
  import opened Core
  import opened Text
  import opened ClientCommon

  // ---------------------------------------------------------------------------
  // The request

  /** The server endpoint, called with the prompt and a 120 s timeout,
      answered by a reply or by an exception. */
  type Post = string -> Reply

  const StatusErrorPrefix: string := "Error: API request failed with status code "
  // Written as two literals so the verifier indexes the shorter pieces more cheaply.
  const ExceptionPrefix: string := "An error occurred while " + "analyzing your symptoms. Please try again. Error: "

  /** The text returned for a reply other than 200. */
  function StatusError(code: nat, body: string): string {
    StatusErrorPrefix + NatToString(code) + ": " + body
  }

  /** `analyze_symptoms_direct`: the result of a 200 reply (or the default
      text), an error naming the status and the body otherwise, and the
      exception's message when the call raises. */
  function AnalyzeDirect(prompt: string, post: Post): string {
    match post(prompt)
    case Response(status, result, body) =>
      if status == 200 then ResultOrDefault(result) else StatusError(status, body)
    case Raised(message) => ExceptionPrefix + message
  }

  /** A status error gives back its status and body: two of them are equal
      only when both agree. */
  lemma StatusErrorInjective(c1: nat, b1: string, c2: nat, b2: string)
    requires StatusError(c1, b1) == StatusError(c2, b2)
    ensures c1 == c2 && b1 == b2
  {
    var p := StatusErrorPrefix;
    var x1, x2 := NatToString(c1) + ": " + b1, NatToString(c2) + ": " + b2;
    assert StatusError(c1, b1) == p + x1;
    assert StatusError(c2, b2) == p + x2;
    assert x1 == (p + x1)[|p|..] == (p + x2)[|p|..] == x2;
    assert x1 == NatToString(c1) + [':'] + (" " + b1);
    assert x2 == NatToString(c2) + [':'] + (" " + b2);
    DigitsBefore(NatToString(c1), " " + b1, NatToString(c2), " " + b2, ':');
    NatToStringInjective(c1, c2);
    assert b1 == (" " + b1)[1..] == (" " + b2)[1..] == b2;
  }

  /** The answer to one request: the server's text on 200, else a status
      error carrying the status, else the exception text; the two error
      forms never coincide. */
  lemma AnalyzeDirectCases(prompt: string, post: Post)
    ensures post(prompt).Response? && post(prompt).status == 200 ==>
      AnalyzeDirect(prompt, post) == post(prompt).result.GetOr(NoResultText)
    ensures post(prompt).Response? && post(prompt).status != 200 ==>
      StartsWith(AnalyzeDirect(prompt, post), StatusErrorPrefix) &&
      AnalyzeDirect(prompt, post) == StatusError(post(prompt).status, post(prompt).body)
    ensures post(prompt).Raised? ==>
      StartsWith(AnalyzeDirect(prompt, post), ExceptionPrefix) &&
      !StartsWith(AnalyzeDirect(prompt, post), StatusErrorPrefix)
  {
    var r := AnalyzeDirect(prompt, post);
    if post(prompt).Response? && post(prompt).status != 200 {
      assert r[..|StatusErrorPrefix|] == StatusErrorPrefix;
    }
    if post(prompt).Raised? {
      assert r[..|ExceptionPrefix|] == ExceptionPrefix;
      assert ExceptionPrefix[0] == 'A' && StatusErrorPrefix[0] == 'E';
      assert r[0] == ExceptionPrefix[0];
    }
  }

  // ---------------------------------------------------------------------------
  // The patient-data block

  /** One `"{key}: {value}\n"` line per entry, in order. */
  function EntryLines(data: PatientData): string {
    if data == [] then "" else data[0].0 + ": " + data[0].1 + "\n" + EntryLines(data[1..])
  }

  const OpenTag: string := "[PATIENT_DATA]"
  const CloseTag: string := "[/PATIENT_DATA]"

  /** The bracketed block appended to a follow-up prompt. */
  function PatientSection(data: PatientData): string {
    OpenTag + "\n" + EntryLines(data) + CloseTag
  }

  /** The prompt sent: a follow-up with patient data gets the block after a
      blank line, anything else goes out unchanged. */
  function FullPrompt(prompt: string, isFollowUp: bool, data: PatientData): string {
    if isFollowUp && data != [] then prompt + "\n\n" + PatientSection(data) else prompt
  }

  /** The entry lines followed by `tail` are the rendered entries joined by
      newlines, with `tail` as the last piece. */
  lemma {:induction false} EntryLinesJoin(data: PatientData, tail: string)
    ensures Join(Pairs(data) + [tail], "\n") == EntryLines(data) + tail
  {
    if data != [] {
      var ps := Pairs(data) + [tail];
      assert ps[1..] == Pairs(data[1..]) + [tail];
      EntryLinesJoin(data[1..], tail);
    } else {
      assert Pairs(data) + [tail] == [tail];
    }
  }

  /** Appending an entry appends its line. */
  lemma {:induction false} EntryLinesSnoc(data: PatientData, e: (string, string))
    ensures EntryLines(data + [e]) == EntryLines(data) + e.0 + ": " + e.1 + "\n"
  {
    if data == [] {
      assert data + [e] == [e];
    } else {
      assert (data + [e])[1..] == data[1..] + [e];
      EntryLinesSnoc(data[1..], e);
    }
  }

  /** When no entry spans a line break, the block reads back line by line as
      the opening tag, one `key: value` line per entry in order, and the
      closing tag. */
  lemma PatientSectionLines(data: PatientData)
    requires forall i :: 0 <= i < |data| ==> '\n' !in data[i].0 && '\n' !in data[i].1
    ensures Lines(PatientSection(data)) == [OpenTag] + Pairs(data) + [CloseTag]
  {
    TagsOneLine(OpenTag, CloseTag);
    AvoidsChar(OpenTag, "\n", '\n');
    AvoidsChar(CloseTag, "\n", '\n');
    TaggedLines(OpenTag, data, CloseTag);
  }

  lemma TagsOneLine(open: string, close: string)
    requires open == OpenTag && close == CloseTag
    ensures Avoids(open, "\n") && Avoids(close, "\n")
  {
  }

  /** An entry block between two one-line tags splits into its lines. */
  lemma TaggedLines(open: string, data: PatientData, close: string)
    requires '\n' !in open && '\n' !in close
    requires forall i :: 0 <= i < |data| ==> '\n' !in data[i].0 && '\n' !in data[i].1
    ensures Lines(open + "\n" + EntryLines(data) + close) == [open] + Pairs(data) + [close]
  {
    TaggedJoin(open, data, close);
    TaggedPartsOneLine(open, data, close);
    SplitOfJoin([open] + Pairs(data) + [close], '\n');
  }

  lemma TaggedJoin(open: string, data: PatientData, close: string)
    ensures open + "\n" + EntryLines(data) + close == Join([open] + Pairs(data) + [close], "\n")
  {
    var rest := Pairs(data) + [close];
    EntryLinesJoin(data, close);
    JoinCons(open, rest, "\n");
    assert [open] + rest == [open] + Pairs(data) + [close];
  }

  lemma TaggedPartsOneLine(open: string, data: PatientData, close: string)
    requires '\n' !in open && '\n' !in close
    requires forall i :: 0 <= i < |data| ==> '\n' !in data[i].0 && '\n' !in data[i].1
    ensures forall i :: 0 <= i < |[open] + Pairs(data) + [close]| ==> '\n' !in ([open] + Pairs(data) + [close])[i]
  {
    NoBreakInPairs(data);
    var parts := [open] + Pairs(data) + [close];
    forall i | 0 <= i < |parts| ensures '\n' !in parts[i] {
      if 0 < i < |parts| - 1 {
        assert parts[i] == Pairs(data)[i - 1];
      }
    }
  }

  lemma JoinCons(x: string, rest: seq<string>, sep: string)
    requires |rest| >= 1
    ensures Join([x] + rest, sep) == x + sep + Join(rest, sep)
  {
    assert ([x] + rest)[1..] == rest;
  }

  lemma NoBreakInPairs(data: PatientData)
    requires forall i :: 0 <= i < |data| ==> '\n' !in data[i].0 && '\n' !in data[i].1
    ensures forall i :: 0 <= i < |Pairs(data)| ==> '\n' !in Pairs(data)[i]
  {
    forall i | 0 <= i < |data| ensures '\n' !in Pairs(data)[i] {
      NoBreakInPair(data[i]);
    }
  }

  lemma NoBreakInPair(e: (string, string))
    requires '\n' !in e.0 && '\n' !in e.1
    ensures '\n' !in e.0 + ": " + e.1
  {
  }

  /** A follow-up with data keeps the prompt in front and ends with the
      closing tag; otherwise the prompt goes out as typed. */
  lemma FullPromptShape(prompt: string, isFollowUp: bool, data: PatientData)
    ensures StartsWith(FullPrompt(prompt, isFollowUp, data), prompt)
    ensures isFollowUp && data != [] ==> EndsWith(FullPrompt(prompt, isFollowUp, data), CloseTag)
    ensures !isFollowUp || data == [] ==> FullPrompt(prompt, isFollowUp, data) == prompt
  {
    var f := FullPrompt(prompt, isFollowUp, data);
    assert f[..|prompt|] == prompt;
    if isFollowUp && data != [] {
      assert f[|f| - |CloseTag|..] == CloseTag;
    }
  }

  /** The loop that builds the block entry by entry. */
  method BuildPatientSection(data: PatientData) returns (section: string)
    ensures section == PatientSection(data)
  {
    section := OpenTag + "\n";
    var i := 0;
    while i < |data|
      invariant 0 <= i <= |data|
      invariant section == OpenTag + "\n" + EntryLines(data[..i])
    {
      EntryLinesSnoc(data[..i], data[i]);
      PrefixSnoc(data, i);
      section := section + data[i].0 + ": " + data[i].1 + "\n";
      i := i + 1;
    }
    assert data[..i] == data;
    section := section + CloseTag;
  }

  // ---------------------------------------------------------------------------
  // Follow-up questions

  const H2: string := "## Follow-up Questions"
  const H3: string := "### Follow-up Questions"

  /** The level-three header holds the level-two one, so any answer with
      either header has the level-two header. */
  lemma H3HoldsH2(r: string)
    requires Contains(r, H3)
    ensures Contains(r, H2)
  {
    assert H3 == "#" + H2;
    ContainsTail(r, "#", H2);
  }

  /** The part of the answer the questions are taken from: after the first
      header, cut at the next "##". */
  function FollowUpSection(r: string): string
    requires Contains(r, H2) || Contains(r, H3)
  {
    var section := if Contains(r, H2) then SecondField(r, H2) else SecondField(r, H3);
    if Contains(section, "##") then BeforeFirst(section, "##") else section
  }

  /** The question on a bullet line: a stripped line opening with "-" or
      "*", the bullet dropped and the rest stripped, kept when longer than
      ten characters. */
  function BulletQuestion(line: string): (q: Option<string>)
    ensures q.Some? ==> |q.value| > 10
  {
    var t := Strip(line);
    if StartsWith(t, "-") || StartsWith(t, "*") then
      var q := Strip(t[1..]);
      if q != "" && |q| > 10 then Some(q) else None
    else None
  }

  /** The bullet questions of the lines, in line order. */
  function Bullets(lines: seq<string>): seq<string> {
    Picked(lines, BulletQuestion)
  }

  /** `extract_follow_up_questions`. */
  function ExtractFollowUps(r: string): seq<string> {
    if Contains(r, H2) || Contains(r, H3) then Bullets(Lines(FollowUpSection(r))) else []
  }

  /** The `else` branch that splits at the level-three header is never taken:
      any answer with a header has its section after the first level-two
      header, and an answer without a header has no questions. */
  lemma SectionFollowsH2(r: string)
    ensures Contains(r, H2) || Contains(r, H3) <==> Contains(r, H2)
    ensures Contains(r, H2) ==>
      ExtractFollowUps(r) == Bullets(Lines(BeforeFirst(SecondField(r, H2), "##")))
    ensures !Contains(r, H2) ==> ExtractFollowUps(r) == []
  {
    if Contains(r, H3) {
      H3HoldsH2(r);
    }
  }

  /** A question is a stripped slice of its line, so it has no surrounding
      whitespace and no line break. */
  lemma BulletQuestionShape(line: string)
    requires BulletQuestion(line).Some?
    ensures Strip(BulletQuestion(line).value) == BulletQuestion(line).value
    ensures '\n' !in line ==> '\n' !in BulletQuestion(line).value
  {
    var t := Strip(line);
    assert BulletQuestion(line).value == Strip(t[1..]);
    StripIdempotent(t[1..]);
    if '\n' !in line {
      StripKeepsAbsent(line, '\n');
      assert '\n' !in t[1..];
      StripKeepsAbsent(t[1..], '\n');
    }
  }

  /** A text some line yields as its bullet question is longer than ten
      characters, stripped, and on one line. */
  lemma QuestionShape(lines: seq<string>, q: string)
    requires forall j :: 0 <= j < |lines| ==> '\n' !in lines[j]
    requires exists j :: 0 <= j < |lines| && BulletQuestion(lines[j]) == Some(q)
    ensures |q| > 10 && Strip(q) == q && '\n' !in q
  {
    var j :| 0 <= j < |lines| && BulletQuestion(lines[j]) == Some(q);
    BulletQuestionShape(lines[j]);
  }

  lemma BulletsFromLines(lines: seq<string>, q: string)
    ensures q in Bullets(lines) <==> exists j :: 0 <= j < |lines| && BulletQuestion(lines[j]) == Some(q)
  {
    PickedFromLines(lines, BulletQuestion, q);
  }

  /** Every extracted question is longer than ten characters, stripped, on
      one line, and comes from a bullet line of the section after the
      level-two header. */
  lemma ExtractedQuestionsShape(r: string, q: string)
    requires q in ExtractFollowUps(r)
    ensures |q| > 10 && Strip(q) == q && '\n' !in q
    ensures Contains(r, H2)
  {
    SectionFollowsH2(r);
    var lines := Lines(FollowUpSection(r));
    assert q in Bullets(lines);
    BulletsFromLines(lines, q);
    QuestionShape(lines, q);
  }

  /** `extract_follow_up_questions`: the header test and the cut, then the
      loop over the section's lines. */
  method ExtractFollowUpQuestions(response: string) returns (questions: seq<string>)
    ensures questions == ExtractFollowUps(response)
  {
    questions := [];
    if Contains(response, H2) || Contains(response, H3) {
      var section: string;
      if Contains(response, H2) {
        section := SecondField(response, H2);
      } else {
        section := SecondField(response, H3);
      }
      if Contains(section, "##") {
        section := BeforeFirst(section, "##");
      }
      questions := CollectPicked(Lines(section), BulletQuestion);
    }
  }

  /** The loop over the lines of the section: each line's `pick` result, when
      there is one, is appended. */
  method CollectPicked(lines: seq<string>, pick: string -> Option<string>) returns (questions: seq<string>)
    ensures questions == Picked(lines, pick)
  {
    questions := [];
    var i := 0;
    while i < |lines|
      invariant 0 <= i <= |lines|
      invariant questions == Picked(lines[..i], pick)
    {
      PickedAppend(lines[..i], [lines[i]], pick);
      PrefixSnoc(lines, i);
      var q := pick(lines[i]);
      if q.Some? {
        questions := questions + [q.value];
      }
      i := i + 1;
    }
    assert lines[..i] == lines;
  }

  // ---------------------------------------------------------------------------
  // One query

  /** The follow-up part of the session state. */
  datatype Session = Session(patientData: PatientData, awaiting: bool, followUps: seq<string>)

  /** `process_medical_query`: the answer to the full prompt, and the session
      now awaiting a follow-up exactly when the answer lists questions. */
  function Process(ss: Session, prompt: string, isFollowUp: bool, post: Post): (string, Session) {
    var advice := AnalyzeDirect(FullPrompt(prompt, isFollowUp, ss.patientData), post);
    var questions := ExtractFollowUps(advice);
    (advice, ss.(awaiting := questions != [], followUps := questions))
  }

  /** The session awaits a follow-up only after an answer with the header,
      and then holds that answer's questions; the patient data is kept. */
  lemma ProcessAwaitsOnlyAfterHeader(ss: Session, prompt: string, isFollowUp: bool, post: Post)
    ensures Process(ss, prompt, isFollowUp, post).1.awaiting ==> Contains(Process(ss, prompt, isFollowUp, post).0, H2)
    ensures Process(ss, prompt, isFollowUp, post).1.awaiting <==> Process(ss, prompt, isFollowUp, post).1.followUps != []
    ensures Process(ss, prompt, isFollowUp, post).1.patientData == ss.patientData
    ensures forall q :: q in Process(ss, prompt, isFollowUp, post).1.followUps ==> |q| > 10
  {
    var advice := Process(ss, prompt, isFollowUp, post).0;
    SectionFollowsH2(advice);
    forall q | q in ExtractFollowUps(advice) ensures |q| > 10 {
      ExtractedQuestionsShape(advice, q);
    }
  }

  /** The session state the query updates. */
  class QuerySession {
    var patientData: PatientData
    var awaiting: bool
    var followUps: seq<string>

    function State(): Session
      reads this
    {
      Session(patientData, awaiting, followUps)
    }

    constructor ()
      ensures State() == Session([], false, [])
    {
      patientData := [];
      awaiting := false;
      followUps := [];
    }

    method ProcessMedicalQuery(prompt: string, isFollowUp: bool, post: Post) returns (advice: string)
      modifies this
      ensures (advice, State()) == Process(old(State()), prompt, isFollowUp, post)
    {
      var full := prompt;
      if isFollowUp && patientData != [] {
        var section := BuildPatientSection(patientData);
        full := prompt + "\n\n" + section;
      }
      advice := AnalyzeDirect(full, post);
      var questions := ExtractFollowUpQuestions(advice);
      if questions != [] {
        followUps := questions;
        awaiting := true;
      } else {
        awaiting := false;
        followUps := [];
      }
    }
  }

  // ---------------------------------------------------------------------------
  // The symptom buttons

  /** The text box and the per-symptom click flags. */
  datatype Panel = Panel(text: string, flags: map<string, bool>)

  predicate Clicked(flags: map<string, bool>, name: string) {
    name in flags && flags[name]
  }

  /** One symptom of the loop: when its flag is set, append it and reset the
      flag. */
  function Visit(p: Panel, name: string): Panel {
    if Clicked(p.flags, name) then Panel(AppendSymptom(p.text, name), p.flags[name := false]) else p
  }

  /** The loop over the symptoms, in order. */
  function VisitAll(p: Panel, names: seq<string>): Panel
    decreases |names|
  {
    if names == [] then p else VisitAll(Visit(p, names[0]), names[1..])
  }

  /** The panel the page starts from: the stored text, or none when a new
      check was requested, and then every clicked symptom taken in. */
  function CollectClicks(p: Panel, clearAll: bool): Panel {
    VisitAll(Panel(if clearAll then "" else p.text, p.flags), CommonSymptoms)
  }

  /** The loop keeps the old text as a prefix, leaves the flag keys alone,
      resets the flag of every visited symptom, keeps the other flags, and
      changes nothing when no flag is set. */
  lemma {:induction false} VisitAllEffect(p: Panel, names: seq<string>)
    ensures StartsWith(VisitAll(p, names).text, p.text)
    ensures VisitAll(p, names).flags.Keys == p.flags.Keys
    ensures forall n :: n in names ==> !Clicked(VisitAll(p, names).flags, n)
    ensures forall k :: k in p.flags && k !in names ==> VisitAll(p, names).flags[k] == p.flags[k]
    ensures (forall n :: n in names ==> !Clicked(p.flags, n)) ==> VisitAll(p, names) == p
    decreases |names|
  {
    if names != [] {
      var q := Visit(p, names[0]);
      VisitAllEffect(q, names[1..]);
      AppendSymptomShape(p.text, names[0]);
      var r := VisitAll(q, names[1..]);
      assert r == VisitAll(p, names);
      assert StartsWith(q.text, p.text);
      assert r.text[..|p.text|] == q.text[..|q.text|][..|p.text|];
      forall n | n in names ensures !Clicked(r.flags, n) {
        if n !in names[1..] {
          assert n == names[0];
          assert !Clicked(q.flags, n);
        }
      }
    }
  }

  /** After a page run no symptom flag is left set, the text box starts with
      what it held (or is built from scratch for a new check), and with no
      click the text is the stored one. */
  lemma CollectClicksEffect(p: Panel, clearAll: bool)
    ensures forall n :: n in CommonSymptoms ==> !Clicked(CollectClicks(p, clearAll).flags, n)
    ensures !clearAll ==> StartsWith(CollectClicks(p, clearAll).text, p.text)
    ensures (forall n :: n in CommonSymptoms ==> !Clicked(p.flags, n)) ==>
      CollectClicks(p, clearAll).text == (if clearAll then "" else p.text)
  {
    VisitAllEffect(Panel(if clearAll then "" else p.text, p.flags), CommonSymptoms);
  }

  /** The symptom panel of the page. */
  class SymptomPanel {
    var text: string
    var flags: map<string, bool>

    function State(): Panel
      reads this
    {
      Panel(text, flags)
    }

    constructor (stored: string, clicked: map<string, bool>)
      ensures State() == Panel(stored, clicked)
    {
      text := stored;
      flags := clicked;
    }

    /** The button pass of the page. */
    method Collect(clearAll: bool)
      modifies this
      ensures State() == CollectClicks(old(State()), clearAll)
    {
      if clearAll {
        text := "";
      }
      VisitNames(CommonSymptoms);
    }

    /** The loop over the symptom buttons. */
    method VisitNames(names: seq<string>)
      modifies this
      ensures State() == VisitAll(old(State()), names)
    {
      ghost var start := State();
      var i := 0;
      while i < |names|
        invariant 0 <= i <= |names|
        invariant VisitAll(start, names) == VisitAll(State(), names[i..])
      {
        assert names[i..][1..] == names[i + 1..];
        ghost var before := State();
        var name := names[i];
        if name in flags && flags[name] {
          var current := text;
          if current != "" && !EndsWith(current, " ") {
            current := current + " ";
          }
          assert current == before.text + Separator(before.text);
          text := current + Lower(name);
          flags := flags[name := false];
        }
        assert State() == Visit(before, name);
        i := i + 1;
      }
    }
  }
}
