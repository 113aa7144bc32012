/** The sequential fallback executor shared by both `doctor_tool.py` servers:
    the working copy of the model list with a requested model moved to the
    front, the attempt-in-order rule, and the swap that promotes the model that
    answered in the global list. */
module Ladder {
  import opened Core
  import opened Text

  /** Per-attempt settings: the request timeout in seconds, the token budget
      and the sampling temperature. */
  datatype Params = Params(timeout: real, maxTokens: nat, temperature: real)

  /** What one attempt sends to the backend: the model, its settings, which
      prompt variant was chosen, and the symptoms the prompt embeds. */
  datatype Request = Request(model: string, params: Params, claudePrompt: bool, symptoms: string)

  /** The attempt that answered: its position in the candidate list and the text. */
  datatype Hit = Hit(index: nat, text: string)

  /** The first attempt at or after `k` that answers, trying strictly in order. */
  function FirstSuccessFrom(reqs: seq<Request>, call: Request -> Option<string>, k: nat): (r: Option<Hit>)
    requires k <= |reqs|
    decreases |reqs| - k
    ensures r.Some? ==> k <= r.value.index < |reqs| && call(reqs[r.value.index]) == Some(r.value.text)
    ensures r.Some? ==> forall j :: k <= j < r.value.index ==> call(reqs[j]).None?
    ensures r.None? <==> forall j :: k <= j < |reqs| ==> call(reqs[j]).None?
  {
    if k == |reqs| then None
    else
      match call(reqs[k])
      case Some(t) => Some(Hit(k, t))
      case None => FirstSuccessFrom(reqs, call, k + 1)
  }

  function FirstSuccess(reqs: seq<Request>, call: Request -> Option<string>): Option<Hit> {
    FirstSuccessFrom(reqs, call, 0)
  }

  /** The attempt loop itself: try each request in order and stop at the
      first that answers. */
  method TryInOrder(reqs: seq<Request>, call: Request -> Option<string>) returns (hit: Option<Hit>)
    ensures hit == FirstSuccess(reqs, call)
  {
    var i := 0;
    while i < |reqs|
      invariant 0 <= i <= |reqs|
      invariant FirstSuccessFrom(reqs, call, i) == FirstSuccess(reqs, call)
    {
      var reply := call(reqs[i]);
      if reply.Some? {
        return Some(Hit(i, reply.value));
      }
      i := i + 1;
    }
    return None;
  }

  /** The first attempt that answers is the one reported, whatever the later
      attempts would have said. */
  lemma {:induction false} FirstSuccessIsEarliest(reqs: seq<Request>, call: Request -> Option<string>, i: nat)
    requires i < |reqs| && call(reqs[i]).Some?
    requires forall j :: 0 <= j < i ==> call(reqs[j]).None?
    ensures FirstSuccess(reqs, call) == Some(Hit(i, call(reqs[i]).value))
  {
    var k := 0;
    while k < i
      invariant k <= i
      invariant FirstSuccessFrom(reqs, call, k) == FirstSuccess(reqs, call)
    {
      k := k + 1;
    }
  }

  // ---------------------------------------------------------------------------
  // The working copy

  function IndexOf(s: seq<string>, x: string): (k: nat)
    requires x in s
    ensures k < |s| && s[k] == x && x !in s[..k]
  {
    if s[0] == x then 0 else 1 + IndexOf(s[1..], x)
  }

  /** Python's `list.remove(x)`: drop the first occurrence. */
  function Remove(s: seq<string>, x: string): (r: seq<string>)
    requires x in s
    ensures |r| == |s| - 1
    ensures multiset(r) == multiset(s) - multiset{x}
    ensures forall j :: 0 <= j < IndexOf(s, x) ==> r[j] == s[j]
    ensures forall j :: IndexOf(s, x) <= j < |r| ==> r[j] == s[j + 1]
  {
    var k := IndexOf(s, x);
    assert s == s[..k] + [x] + s[k + 1..];
    s[..k] + s[k + 1..]
  }

  /** `models_to_try = MODELS_TO_TRY.copy()`, then, for a requested model that
      is in the list, `remove` followed by `insert(0, model)`. */
  function Reorder(models: seq<string>, requested: Option<string>): (r: seq<string>)
    ensures |r| == |models|
  {
    if Truthy(requested) && requested.value in models then [requested.value] + Remove(models, requested.value)
    else models
  }

  /** The working copy holds exactly the models of the global list. */
  lemma ReorderIsPermutation(models: seq<string>, requested: Option<string>)
    ensures multiset(Reorder(models, requested)) == multiset(models)
  {
    if Truthy(requested) && requested.value in models {
      var x := requested.value;
      var k := IndexOf(models, x);
      assert models == models[..k] + [x] + models[k + 1..];
      assert multiset(models) == multiset(models[..k]) + multiset{x} + multiset(models[k + 1..]);
    }
  }

  /** A requested model that is in the list comes first and every other model
      keeps its relative order: position `j + 1` of the copy holds the `j`-th
      model of the global list once the requested one is skipped. */
  lemma ReorderMovesRequestedToFront(models: seq<string>, x: string)
    requires x != "" && x in models
    ensures Reorder(models, Some(x))[0] == x
    ensures forall j :: 0 <= j < IndexOf(models, x) ==> Reorder(models, Some(x))[j + 1] == models[j]
    ensures forall j :: IndexOf(models, x) < j < |models| ==> Reorder(models, Some(x))[j] == models[j]
  {
    var k := IndexOf(models, x);
    var rest := models[..k] + models[k + 1..];
    assert Reorder(models, Some(x)) == [x] + rest;
    forall j | 0 <= j < k ensures ([x] + rest)[j + 1] == models[j] {
      assert rest[j] == models[j];
    }
    forall j | k < j < |models| ensures ([x] + rest)[j] == models[j] {
      assert rest[j - 1] == models[j];
    }
  }

  /** No request, an empty name, or a name not in the list: the copy is the list. */
  lemma ReorderIgnoresUnknown(models: seq<string>, requested: Option<string>)
    requires !Truthy(requested) || requested.value !in models
    ensures Reorder(models, requested) == models
  {
  }

  predicate Distinct(s: seq<string>) {
    forall i, j :: 0 <= i < j < |s| ==> s[i] != s[j]
  }

  lemma {:induction false} DistinctCountsOnce(s: seq<string>, x: string)
    requires Distinct(s)
    ensures multiset(s)[x] <= 1
  {
    if s != [] {
      var t := s[1..];
      assert s == [s[0]] + t;
      assert Distinct(t) by {
        forall i, j | 0 <= i < j < |t| ensures t[i] != t[j] {
          assert t[i] == s[i + 1] && t[j] == s[j + 1];
        }
      }
      DistinctCountsOnce(t, x);
      assert s[0] !in t by {
        forall k | 0 <= k < |t| ensures t[k] != s[0] {
          assert t[k] == s[k + 1];
        }
      }
      assert multiset(s) == multiset{s[0]} + multiset(t);
    }
  }

  lemma RepeatCountsTwice(s: seq<string>, i: nat, j: nat)
    requires i < j < |s|
    ensures s[i] == s[j] ==> multiset(s)[s[i]] >= 2
  {
    assert s == s[..i] + [s[i]] + s[i + 1..j] + [s[j]] + s[j + 1..];
    assert multiset(s) == multiset(s[..i]) + multiset{s[i]} + multiset(s[i + 1..j]) + multiset{s[j]} + multiset(s[j + 1..]);
  }

  /** A rearrangement of a list of distinct names has distinct names. */
  lemma DistinctPermutation(a: seq<string>, b: seq<string>)
    requires Distinct(a) && multiset(a) == multiset(b)
    ensures Distinct(b)
  {
    forall i, j | 0 <= i < j < |b| ensures b[i] != b[j] {
      DistinctCountsOnce(a, b[i]);
      RepeatCountsTwice(b, i, j);
    }
  }

  // ---------------------------------------------------------------------------
  // Promotion

  /** `MODELS_TO_TRY[0], MODELS_TO_TRY[i] = MODELS_TO_TRY[i], MODELS_TO_TRY[0]`. */
  function SwapFront(s: seq<string>, i: nat): (r: seq<string>)
    requires i < |s|
    ensures |r| == |s| && r[0] == s[i] && r[i] == s[0]
    ensures forall j :: 0 < j < |s| && j != i ==> r[j] == s[j]
  {
    s[0 := s[i]][i := s[0]]
  }

  /** The swap keeps the global list a permutation. */
  lemma SwapFrontIsPermutation(s: seq<string>, i: nat)
    requires i < |s|
    ensures multiset(SwapFront(s, i)) == multiset(s)
  {
    var t := s[0 := s[i]];
    assert multiset(t) == multiset(s) - multiset{s[0]} + multiset{s[i]};
    assert t[i] == s[i];
    assert multiset(t[i := s[0]]) == multiset(t) - multiset{s[i]} + multiset{s[0]};
  }

  /** The swap uses the position in the working copy but is applied to the
      global list. Without a request the two agree and the model that answered
      is promoted. With a requested model at global position `k`, an answer
      from copy position `i` with `0 < i <= k` came from global position
      `i - 1`, but global position `i` is what moves to the front. */
  lemma {:induction false} PromotionAfterReorder(models: seq<string>, requested: Option<string>, i: nat)
    requires i < |models|
    ensures !Truthy(requested) || requested.value !in models ==>
      SwapFront(models, i)[0] == Reorder(models, requested)[i]
    ensures Truthy(requested) && requested.value in models && 0 < i <= IndexOf(models, requested.value) ==>
      Reorder(models, requested)[i] == models[i - 1] && SwapFront(models, i)[0] == models[i]
    ensures Truthy(requested) && requested.value in models && i > IndexOf(models, requested.value) ==>
      SwapFront(models, i)[0] == Reorder(models, requested)[i]
  {
    if Truthy(requested) && requested.value in models {
      ReorderMovesRequestedToFront(models, requested.value);
      if 0 < i <= IndexOf(models, requested.value) {
        assert Reorder(models, requested)[(i - 1) + 1] == models[i - 1];
      }
    }
  }

  /** A concrete instance: the global list is `[a, b, c]`, `c` is requested,
      so the copy is `[c, a, b]`; `c` fails and `a` answers at copy position 1,
      and the swap puts `b`, a model that was not even tried, at the front. */
  lemma PromotionPicksUntriedModel()
    ensures Reorder(["a", "b", "c"], Some("c")) == ["c", "a", "b"]
    ensures SwapFront(["a", "b", "c"], 1) == ["b", "a", "c"]
  {
    var g := ["a", "b", "c"];
    assert IndexOf(g, "c") == 2;
    assert Remove(g, "c") == ["a", "b"];
  }

  // ---------------------------------------------------------------------------
  // One call of the tool

  /** The two globals the tool updates: `MODELS_TO_TRY` and `CURRENT_MODEL`. */
  datatype ToolState = ToolState(modelsToTry: seq<string>, currentModel: string)

  /** The global list is a rearrangement of the declared list `base` and the
      current model is one of its models. */
  ghost predicate ValidState(st: ToolState, base: seq<string>) {
    |base| > 0 && |st.modelsToTry| == |base| && multiset(st.modelsToTry) == multiset(base)
    && st.currentModel in st.modelsToTry
  }

  /** The prompt variant follows `CURRENT_MODEL`, the model that answered the
      previous call, not the model each request goes to. */
  predicate ClaudePrompt(currentModel: string) {
    Contains(Lower(currentModel), "claude")
  }

  /** The requests of one call, one per candidate, with the settings that
      `table` assigns to each model. */
  function Attempts(cands: seq<string>, table: string -> Params, claude: bool, symptoms: string): (r: seq<Request>)
    ensures |r| == |cands|
    ensures forall i :: 0 <= i < |cands| ==> r[i] == Request(cands[i], table(cands[i]), claude, symptoms)
  {
    seq(|cands|, i requires 0 <= i < |cands| => Request(cands[i], table(cands[i]), claude, symptoms))
  }

  /** How the ladder of one call ends. */
  datatype Outcome =
    | Answered(text: string, after: ToolState)
    | Exhausted
    | NoCandidates

  /** The ladder of one call: the working copy, one attempt per candidate in
      order, and on the first answer the new `CURRENT_MODEL` and the swap. */
  function RunLadder(st: ToolState, requested: Option<string>, table: string -> Params, symptoms: string,
                     call: Request -> Option<string>): Outcome
  {
    var cands := Reorder(st.modelsToTry, requested);
    if |cands| == 0 then NoCandidates
    else
      match FirstSuccess(Attempts(cands, table, ClaudePrompt(st.currentModel), symptoms), call)
      case Some(h) => Answered(h.text, ToolState(SwapFront(st.modelsToTry, h.index), cands[h.index]))
      case None => Exhausted
  }

  /** The request sent to working position `i` in a call from state `st`. */
  function AttemptAt(st: ToolState, requested: Option<string>, table: string -> Params, symptoms: string, i: nat): Request
    requires i < |st.modelsToTry|
  {
    var cands := Reorder(st.modelsToTry, requested);
    Request(cands[i], table(cands[i]), ClaudePrompt(st.currentModel), symptoms)
  }

  /** The first candidate that answers decides the text, becomes the current
      model and is swapped, by its position in the working copy, to the front
      of the global list. */
  lemma FirstAnswerWins(st: ToolState, requested: Option<string>, table: string -> Params, symptoms: string,
                        call: Request -> Option<string>, i: nat)
    requires i < |st.modelsToTry|
    requires call(AttemptAt(st, requested, table, symptoms, i)).Some?
    requires forall j :: 0 <= j < i ==> call(AttemptAt(st, requested, table, symptoms, j)).None?
    ensures RunLadder(st, requested, table, symptoms, call) ==
      Answered(call(AttemptAt(st, requested, table, symptoms, i)).value,
               ToolState(SwapFront(st.modelsToTry, i), Reorder(st.modelsToTry, requested)[i]))
  {
    var reqs := Attempts(Reorder(st.modelsToTry, requested), table, ClaudePrompt(st.currentModel), symptoms);
    assert forall j :: 0 <= j <= i ==> reqs[j] == AttemptAt(st, requested, table, symptoms, j);
    FirstSuccessIsEarliest(reqs, call, i);
  }

  /** When no model of the list answers, the ladder is exhausted and nothing
      changes. */
  lemma AllFailedExhausts(st: ToolState, requested: Option<string>, table: string -> Params, symptoms: string,
                          call: Request -> Option<string>)
    requires |st.modelsToTry| > 0
    requires forall m :: m in st.modelsToTry ==>
      call(Request(m, table(m), ClaudePrompt(st.currentModel), symptoms)).None?
    ensures RunLadder(st, requested, table, symptoms, call) == Exhausted
  {
    var cands := Reorder(st.modelsToTry, requested);
    ReorderIsPermutation(st.modelsToTry, requested);
    forall j | 0 <= j < |cands| ensures call(Attempts(cands, table, ClaudePrompt(st.currentModel), symptoms)[j]).None? {
      assert cands[j] in multiset(cands);
    }
  }

  /** A valid state has candidates, and every call leaves the state valid. */
  lemma LadderKeepsValid(st: ToolState, base: seq<string>, requested: Option<string>, table: string -> Params,
                         symptoms: string, call: Request -> Option<string>)
    requires ValidState(st, base)
    ensures !RunLadder(st, requested, table, symptoms, call).NoCandidates?
    ensures RunLadder(st, requested, table, symptoms, call).Answered? ==>
      ValidState(RunLadder(st, requested, table, symptoms, call).after, base)
  {
    var cands := Reorder(st.modelsToTry, requested);
    match FirstSuccess(Attempts(cands, table, ClaudePrompt(st.currentModel), symptoms), call)
    case Some(h) => PromoteKeepsValid(st, base, requested, h.index);
    case None =>
  }

  lemma PromoteKeepsValid(st: ToolState, base: seq<string>, requested: Option<string>, i: nat)
    requires ValidState(st, base) && i < |st.modelsToTry|
    ensures ValidState(ToolState(SwapFront(st.modelsToTry, i), Reorder(st.modelsToTry, requested)[i]), base)
  {
    var cands := Reorder(st.modelsToTry, requested);
    ReorderIsPermutation(st.modelsToTry, requested);
    SwapFrontIsPermutation(st.modelsToTry, i);
    assert cands[i] in multiset(cands);
    assert cands[i] in multiset(SwapFront(st.modelsToTry, i));
  }

  /** Without a requested model the model that answered is moved to the front
      of the global list, so it is tried first next time. */
  lemma AnswerPromotedWithoutRequest(st: ToolState, table: string -> Params, symptoms: string,
                                     call: Request -> Option<string>)
    ensures RunLadder(st, None, table, symptoms, call).Answered? ==>
      RunLadder(st, None, table, symptoms, call).after.modelsToTry[0] ==
      RunLadder(st, None, table, symptoms, call).after.currentModel
  {
    if |st.modelsToTry| > 0 {
      match FirstSuccess(Attempts(st.modelsToTry, table, ClaudePrompt(st.currentModel), symptoms), call)
      case Some(h) => PromotionAfterReorder(st.modelsToTry, None, h.index);
      case None =>
    }
  }

  /** With a requested model at global position `k`, an answer from working
      position `i` with `0 < i <= k` came from global position `i - 1`, while
      global position `i` is moved to the front: with distinct names, the
      promoted model is not the model that answered. */
  lemma RequestedModelSkewsPromotion(st: ToolState, x: string, table: string -> Params, symptoms: string,
                                     call: Request -> Option<string>, i: nat)
    requires Distinct(st.modelsToTry)
    requires x != "" && x in st.modelsToTry && 0 < i <= IndexOf(st.modelsToTry, x)
    requires call(AttemptAt(st, Some(x), table, symptoms, i)).Some?
    requires forall j :: 0 <= j < i ==> call(AttemptAt(st, Some(x), table, symptoms, j)).None?
    ensures RunLadder(st, Some(x), table, symptoms, call).Answered?
    ensures RunLadder(st, Some(x), table, symptoms, call).after.currentModel == st.modelsToTry[i - 1]
    ensures RunLadder(st, Some(x), table, symptoms, call).after.modelsToTry[0] == st.modelsToTry[i]
    ensures RunLadder(st, Some(x), table, symptoms, call).after.modelsToTry[0] !=
            RunLadder(st, Some(x), table, symptoms, call).after.currentModel
  {
    FirstAnswerWins(st, Some(x), table, symptoms, call, i);
    PromotionAfterReorder(st.modelsToTry, Some(x), i);
  }
}
