/** Vocabulary shared by every part of the dispatch layer: optional values, the
    outcome of one HTTP exchange with a backend server, and the fixed texts that
    several components return. */
module Core {

  datatype Option<+T> = None | Some(value: T) {
    function GetOr(default: T): T {
      match this
      case Some(v) => v
      case None => default
    }
  }

  /** Python truthiness of an optional string: `None` and `""` are both false. */
  predicate Truthy(s: Option<string>) {
    s.Some? && s.value != ""
  }

  /** One HTTP exchange as the caller sees it: either a response with a status
      code, the `result` field of its JSON body (absent or present) and its raw
      body text, or an exception (a timeout, a transport error). */
  datatype Reply =
    | Response(status: nat, result: Option<string>, body: string)
    | Raised(message: string)

  /** The fixed "Medical Analysis Temporarily Unavailable" markdown answer; its
      body is opaque here. */
  const UnavailableText: string := "## Medical Analysis Temporarily Unavailable"

  /** The default of `result.get("result", ...)` when a 200 response has no result. */
  const NoResultText: string := "No result returned from the API."

  /** Returned by the executors when the candidate list is empty. */
  const NoModelsText: string := "Error: No models were able to process your request."

  /** A prefix one longer is the prefix with the next element appended. */
  lemma PrefixSnoc<T>(s: seq<T>, i: nat)
    requires i < |s|
    ensures s[..i + 1] == s[..i] + [s[i]]
  {
  }

  /** The position Python's `min` picks over a non-empty list of scores: a
      minimum, and the earliest one, because a later score replaces the
      current best only when it is strictly smaller. */
  function FirstMinIndex(scores: seq<real>): (k: nat)
    requires |scores| > 0
    ensures k < |scores|
    ensures forall j :: 0 <= j < |scores| ==> scores[k] <= scores[j]
    ensures forall j :: 0 <= j < k ==> scores[j] > scores[k]
  {
    if |scores| == 1 then 0
    else
      var k := FirstMinIndex(scores[..|scores| - 1]);
      if scores[|scores| - 1] < scores[k] then |scores| - 1 else k
  }

  /** The loop behind `min(..., key=...)`: keep the first strictly smaller score. */
  method FirstMinimum(scores: seq<real>) returns (best: nat)
    requires |scores| > 0
    ensures best == FirstMinIndex(scores)
  {
    best := 0;
    var j := 1;
    while j < |scores|
      invariant 1 <= j <= |scores|
      invariant best == FirstMinIndex(scores[..j])
    {
      assert scores[..j + 1][..j] == scores[..j];
      if scores[j] < scores[best] {
        best := j;
      }
      j := j + 1;
    }
    assert scores[..j] == scores;
  }
}
