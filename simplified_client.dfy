/** The simplified Streamlit client (`app/simplified_main.py`): it walks the
    model list in two tiers, each model with a timeout fixed by its name, and
    takes the first model the server answers with 200; when all eight fail it
    makes one last call without naming a model. */
module SimplifiedClient {
  import opened Core
  import opened Text
  import opened ClientCommon
  import ServerDoctorTool

  /** One request of the schedule: the model named in it and its timeout in
      seconds. */
  datatype Attempt = Attempt(model: string, timeout: real)

  /** The timeout of a fast-tier model: 15 s for a name marked "7b" or
      "haiku" (the server's small size class), else the base 20 s. */
  function FastTimeout(m: string): (t: real)
    ensures t == 15.0 <==> ServerDoctorTool.IsSmall(m)
    ensures t == 15.0 || t == 20.0
  {
    if ServerDoctorTool.IsSmall(m) then 15.0 else 20.0
  }

  /** The timeout of a medium-tier model: 25 s for a name marked "32b" or
      "24b", else 30 s. */
  function MediumTimeout(m: string): (t: real)
    ensures t == 25.0 <==> ServerDoctorTool.IsMedium(m)
    ensures t == 25.0 || t == 30.0
  {
    if ServerDoctorTool.IsMedium(m) then 25.0 else 30.0
  }

  function FastAttempts(models: seq<string>): (r: seq<Attempt>)
    ensures |r| == |models|
    ensures forall i :: 0 <= i < |models| ==> r[i] == Attempt(models[i], FastTimeout(models[i]))
  {
    if models == [] then [] else [Attempt(models[0], FastTimeout(models[0]))] + FastAttempts(models[1..])
  }

  function MediumAttempts(models: seq<string>): (r: seq<Attempt>)
    ensures |r| == |models|
    ensures forall i :: 0 <= i < |models| ==> r[i] == Attempt(models[i], MediumTimeout(models[i]))
  {
    if models == [] then [] else [Attempt(models[0], MediumTimeout(models[0]))] + MediumAttempts(models[1..])
  }

  /** The four first models of `models` with the fast timeouts, then the
      rest with the medium ones. */
  function ScheduleOf(models: seq<string>): seq<Attempt>
    requires |models| >= 4
  {
    FastAttempts(models[..4]) + MediumAttempts(models[4..])
  }

  /** The schedule of the configured models. */
  function Schedule(): seq<Attempt> {
    ScheduleOf(ClientModels)
  }

  /** The server endpoint: the request text, the model named in the request
      (None when the request names none) and the client's timeout, answered
      by a reply or by an exception (a timeout among them). */
  type Post = (string, Option<string>, real) -> Reply

  /** A reply the client accepts: status 200. */
  predicate Accepted(r: Reply) {
    r.Response? && r.status == 200
  }

  /** The text of the first accepted reply along the attempts, if any. */
  function FirstAccepted(attempts: seq<Attempt>, text: string, post: Post): (r: Option<string>)
    ensures r.None? <==> forall i :: 0 <= i < |attempts| ==> !Accepted(post(text, Some(attempts[i].model), attempts[i].timeout))
  {
    if attempts == [] then None
    else
      var reply := post(text, Some(attempts[0].model), attempts[0].timeout);
      if Accepted(reply) then Some(ResultOrDefault(reply.result))
      else FirstAccepted(attempts[1..], text, post)
  }

  /** The final request names no model and waits 30 s; anything but a 200
      gives the "temporarily unavailable" page. */
  function LastResort(text: string, post: Post): string {
    var reply := post(text, None, 30.0);
    if Accepted(reply) then ResultOrDefault(reply.result) else UnavailableText
  }

  /** `analyze_symptoms_direct` over a model list. */
  function AnalyzeOver(models: seq<string>, symptoms: string, data: PatientData, post: Post): string
    requires |models| >= 4
  {
    var text := WithPatientInfo(symptoms, data);
    match FirstAccepted(ScheduleOf(models), text, post)
    case Some(answer) => answer
    case None => LastResort(text, post)
  }

  /** `analyze_symptoms_direct` over the configured models. */
  function AnalyzeDirect(symptoms: string, data: PatientData, post: Post): string {
    AnalyzeOver(ClientModels, symptoms, data, post)
  }

  // ---------------------------------------------------------------------------
  // Properties of the schedule

  /** The timeout the client gives the model at position `i`. */
  function TimeoutAt(models: seq<string>, i: nat): real
    requires i < |models|
  {
    if i < 4 then FastTimeout(models[i]) else MediumTimeout(models[i])
  }

  /** The schedule tries every model once, in list order, the first four
      with the fast timeouts and the rest with the medium ones. */
  lemma ScheduleFollowsModels(models: seq<string>)
    requires |models| >= 4
    ensures |ScheduleOf(models)| == |models|
    ensures forall i :: 0 <= i < |models| ==> ScheduleOf(models)[i] == Attempt(models[i], TimeoutAt(models, i))
  {
    var f, m := FastAttempts(models[..4]), MediumAttempts(models[4..]);
    assert ScheduleOf(models) == f + m;
    forall i | 4 <= i < |models| ensures ScheduleOf(models)[i] == m[i - 4] {
    }
  }

  /** `m` is spelled `a + b + c`: the marker `b` sits at offset `|a|`. */
  lemma Spelled(m: string, a: string, b: string, c: string)
    requires m == a + b + c
    ensures OccursAt(m, b, |a|)
  {
    assert (a + b + c)[|a|..|a| + |b|] == b;
  }

  /** With the configured names the timeouts come out as 15 s for every fast
      model, 25 s for the three medium models marked "24b" or "32b", and 30 s
      for the DeepSeek chat model, which carries no size marker. */
  lemma ScheduleTimeouts()
    ensures FastTimeout(ClientModels[0]) == 15.0 && FastTimeout(ClientModels[1]) == 15.0
    ensures FastTimeout(ClientModels[2]) == 15.0 && FastTimeout(ClientModels[3]) == 15.0
    ensures MediumTimeout(ClientModels[4]) == 25.0 && MediumTimeout(ClientModels[5]) == 30.0
    ensures MediumTimeout(ClientModels[6]) == 25.0 && MediumTimeout(ClientModels[7]) == 25.0
  {
    Model0Timeout();
    Model1Timeout();
    Model2Timeout();
    Model3Timeout();
    Model4Timeout();
    Model6Timeout();
    Model7Timeout();
    Model5Timeout();
  }

  lemma Model0Timeout()
    ensures FastTimeout(ClientModels[0]) == 15.0
  {
    FastMarked(ClientModels[0], "mistralai/mistral-", "7b", "-instruct:free");
  }

  lemma Model1Timeout()
    ensures FastTimeout(ClientModels[1]) == 15.0
  {
    FastMarked(ClientModels[1], "qwen/qwen1.5-", "7b", "-chat:free");
  }

  lemma Model2Timeout()
    ensures FastTimeout(ClientModels[2]) == 15.0
  {
    FastMarked(ClientModels[2], "anthropic/claude-3-", "haiku", "-20240307:free");
  }

  lemma Model3Timeout()
    ensures FastTimeout(ClientModels[3]) == 15.0
  {
    FastMarked(ClientModels[3], "google/gemma-", "7b", "-it:free");
  }

  lemma Model4Timeout()
    ensures MediumTimeout(ClientModels[4]) == 25.0
  {
    MediumMarked(ClientModels[4], "mistralai/mistral-small-3.1-", "24b", "-instruct:free");
  }

  lemma Model6Timeout()
    ensures MediumTimeout(ClientModels[6]) == 25.0
  {
    MediumMarked(ClientModels[6], "qwen/qwen2.5-vl-", "32b", "-instruct:free");
  }

  lemma Model7Timeout()
    ensures MediumTimeout(ClientModels[7]) == 25.0
  {
    MediumMarked(ClientModels[7], "cognitivecomputations/dolphin3.0-r1-mistral-", "24b", ":free");
  }

  lemma Model5Timeout()
    ensures MediumTimeout(ClientModels[5]) == 30.0
  {
    ServerDoctorTool.DeepseekChatSpelling(ClientModels[5]);
    ServerDoctorTool.DeepseekChatMarkers(ClientModels[5]);
  }

  /** A name spelled around a small-model marker gets the 15 s timeout. */
  lemma FastMarked(m: string, a: string, b: string, c: string)
    requires m == a + b + c && (b == "7b" || b == "haiku")
    ensures FastTimeout(m) == 15.0
  {
    Spelled(m, a, b, c);
    LowerContainsAt(m, b, |a|);
  }

  /** A name spelled around a medium-model marker gets the 25 s timeout. */
  lemma MediumMarked(m: string, a: string, b: string, c: string)
    requires m == a + b + c && (b == "32b" || b == "24b")
    ensures MediumTimeout(m) == 25.0
  {
    Spelled(m, a, b, c);
    LowerContainsAt(m, b, |a|);
  }

  /** Searching a concatenation finishes the first part before the second. */
  lemma {:induction false} FirstAcceptedAppend(a: seq<Attempt>, b: seq<Attempt>, text: string, post: Post)
    ensures FirstAccepted(a + b, text, post) ==
      if FirstAccepted(a, text, post).Some? then FirstAccepted(a, text, post) else FirstAccepted(b, text, post)
  {
    if a != [] {
      assert (a + b)[1..] == a[1..] + b;
      FirstAcceptedAppend(a[1..], b, text, post);
    } else {
      assert a + b == b;
    }
  }

  /** The answer to an accepted attempt is returned exactly when every
      earlier attempt was refused. */
  lemma {:induction false} FirstAcceptedIsEarliest(attempts: seq<Attempt>, text: string, post: Post, i: nat)
    requires i < |attempts|
    requires Accepted(post(text, Some(attempts[i].model), attempts[i].timeout))
    requires forall j :: 0 <= j < i ==> !Accepted(post(text, Some(attempts[j].model), attempts[j].timeout))
    ensures FirstAccepted(attempts, text, post) ==
      Some(ResultOrDefault(post(text, Some(attempts[i].model), attempts[i].timeout).result))
  {
    if i > 0 {
      FirstAcceptedIsEarliest(attempts[1..], text, post, i - 1);
    }
  }

  /** The first model the server accepts decides the answer: with every
      earlier model refused, the client returns that model's result, or the
      default text when the reply carries none. */
  lemma FirstAcceptedModelWins(models: seq<string>, symptoms: string, data: PatientData, post: Post, i: nat)
    requires 4 <= |models| && i < |models|
    requires Accepted(post(WithPatientInfo(symptoms, data), Some(models[i]), TimeoutAt(models, i)))
    requires forall j :: 0 <= j < i ==>
      !Accepted(post(WithPatientInfo(symptoms, data), Some(models[j]), TimeoutAt(models, j)))
    ensures AnalyzeOver(models, symptoms, data, post) ==
      post(WithPatientInfo(symptoms, data), Some(models[i]), TimeoutAt(models, i)).result.GetOr(NoResultText)
  {
    ScheduleFollowsModels(models);
    FirstAcceptedIsEarliest(ScheduleOf(models), WithPatientInfo(symptoms, data), post, i);
  }

  /** With every model refused the answer comes from the model-less request:
      its result when accepted, the unavailable page otherwise. */
  lemma AllRefusedFallsBack(models: seq<string>, symptoms: string, data: PatientData, post: Post)
    requires 4 <= |models|
    requires forall j :: 0 <= j < |models| ==>
      !Accepted(post(WithPatientInfo(symptoms, data), Some(models[j]), TimeoutAt(models, j)))
    ensures Accepted(post(WithPatientInfo(symptoms, data), None, 30.0)) ==>
      AnalyzeOver(models, symptoms, data, post) == post(WithPatientInfo(symptoms, data), None, 30.0).result.GetOr(NoResultText)
    ensures !Accepted(post(WithPatientInfo(symptoms, data), None, 30.0)) ==>
      AnalyzeOver(models, symptoms, data, post) == UnavailableText
  {
    ScheduleFollowsModels(models);
  }

  // ---------------------------------------------------------------------------
  // The client, one request after the other

  /** Tries `models` in order, with the medium or the fast timeouts, and
      returns the first accepted text. */
  method TryTier(models: seq<string>, medium: bool, text: string, post: Post) returns (answer: Option<string>)
    ensures answer == FirstAccepted(if medium then MediumAttempts(models) else FastAttempts(models), text, post)
  {
    var tier := if medium then MediumAttempts(models) else FastAttempts(models);
    var i := 0;
    while i < |models|
      invariant 0 <= i <= |models|
      invariant FirstAccepted(tier, text, post) == FirstAccepted(tier[i..], text, post)
    {
      var timeout := if medium then MediumTimeout(models[i]) else FastTimeout(models[i]);
      assert tier[i..][0] == Attempt(models[i], timeout);
      assert tier[i..][1..] == tier[i + 1..];
      var reply := post(text, Some(models[i]), timeout);
      if reply.Response? && reply.status == 200 {
        return Some(ResultOrDefault(reply.result));
      }
      i := i + 1;
    }
    return None;
  }

  /** `analyze_symptoms_direct`: the fast tier, the medium tier, then the
      model-less request. */
  method AnalyzeSymptomsDirect(symptoms: string, data: PatientData, post: Post) returns (answer: string)
    ensures answer == AnalyzeDirect(symptoms, data, post)
  {
    var text := symptoms;
    if data != [] {
      text := text + "\n\nPatient information: " + PatientInfo(data);
    }
    FirstAcceptedAppend(FastAttempts(ClientModels[..4]), MediumAttempts(ClientModels[4..]), text, post);
    var fast := TryTier(ClientModels[..4], false, text, post);
    if fast.Some? {
      return fast.value;
    }
    var med := TryTier(ClientModels[4..], true, text, post);
    if med.Some? {
      return med.value;
    }
    var reply := post(text, None, 30.0);
    if reply.Response? && reply.status == 200 {
      answer := ResultOrDefault(reply.result);
    } else {
      answer := UnavailableText;
    }
  }

  // ---------------------------------------------------------------------------
  // The symptom text box

  /** The text box under the common-symptom buttons. */
  class SymptomBox {
    var text: string

    constructor ()
      ensures text == ""
    {
      text := "";
    }

    /** A click on button `i` appends its symptom, lower-cased, after a
        single space when the text needs one. */
    method Click(i: nat)
      requires i < |CommonSymptoms|
      modifies this
      ensures text == AppendSymptom(old(text), CommonSymptoms[i])
      ensures StartsWith(text, old(text)) && EndsWith(text, Lower(CommonSymptoms[i]))
    {
      AppendSymptomShape(text, CommonSymptoms[i]);
      var current := text;
      if current != "" && !EndsWith(current, " ") {
        current := current + " ";
      }
      text := current + Lower(CommonSymptoms[i]);
    }
  }
}
