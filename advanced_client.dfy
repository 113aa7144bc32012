/** The client of `doctor-app/app/advanced_main.py`: an MCP client that keeps
    the server's performance figures (refreshed at most once a minute), picks a
    model from them, and cascades through the primary server, the fallback
    server and a race of both; and the symptom check that stores the answer
    and scans it for follow-up questions. */
module AdvancedClient {
  import opened Core
  import opened Text
  import opened ClientCommon
  import AdvancedServer

  type Perf = AdvancedServer.Perf

  // ---------------------------------------------------------------------------
  // Performance figures

  /** The client's copy of the server's figures and when it was last fetched. */
  datatype ClientState = ClientState(perf: map<string, Perf>, lastUpdate: real)

  /** `get_model_performance`: within a minute of the last successful fetch the
      stored figures are kept; otherwise the server is asked, and only a 200
      reply (`fetched` present) replaces them and moves the timestamp. */
  function Refresh(cs: ClientState, now: real, fetched: Option<map<string, Perf>>): (r: ClientState)
    ensures now - cs.lastUpdate < 60.0 ==> r == cs
    ensures r != cs ==> fetched.Some? && r == ClientState(fetched.value, now)
  {
    if now - cs.lastUpdate < 60.0 then cs
    else match fetched
      case Some(p) => ClientState(p, now)
      case None => cs
  }

  /** Once a minute has passed, a 200 reply always replaces the figures and a
      failed fetch never does. */
  lemma RefreshAfterAMinute(cs: ClientState, now: real, fetched: Option<map<string, Perf>>)
    requires now - cs.lastUpdate >= 60.0
    ensures fetched.Some? ==> Refresh(cs, now, fetched) == ClientState(fetched.value, now)
    ensures fetched.None? ==> Refresh(cs, now, fetched) == cs
  {
  }

  // ---------------------------------------------------------------------------
  // Selection

  /** The score of one listed model: 20.0 without figures, otherwise
      `avg_time / success_rate ** 2`; `None` is the division by a zero rate,
      which raises. */
  function ClientScore(perf: map<string, Perf>, model: string): Option<real> {
    if model !in perf then Some(20.0)
    else if perf[model].successRate == 0.0 then None
    else Some(perf[model].avgTime / (perf[model].successRate * perf[model].successRate))
  }

  /** The scores of `models` in list order, or `None` if one of them raises. */
  function ClientScores(perf: map<string, Perf>, models: seq<string>): (r: Option<seq<real>>)
    ensures r.None? <==> exists k :: 0 <= k < |models| && ClientScore(perf, models[k]).None?
    ensures r.Some? ==> |r.value| == |models|
    ensures r.Some? ==> forall k :: 0 <= k < |models| ==> ClientScore(perf, models[k]) == Some(r.value[k])
  {
    if models == [] then Some([])
    else
      var init := ClientScores(perf, models[..|models| - 1]);
      var last := ClientScore(perf, models[|models| - 1]);
      if init.None? then
        assert forall k :: 0 <= k < |models| - 1 ==> models[..|models| - 1][k] == models[k];
        None
      else if last.None? then None
      else
        assert forall k :: 0 <= k < |models| - 1 ==> models[..|models| - 1][k] == models[k];
        Some(init.value + [last.value])
  }

  datatype Choice = Chosen(model: string) | DivisionByZero

  /** `select_best_model` on the figures it obtained: the first model without
      any figures at all, otherwise the first model of minimal score. */
  function ChooseModel(perf: map<string, Perf>): Choice {
    if |perf| == 0 then Chosen(ClientModels[0])
    else match ClientScores(perf, ClientModels)
      case None => DivisionByZero
      case Some(s) => Chosen(ClientModels[FirstMinIndex(s)])
  }

  /** The chosen model is the earliest listed model of minimal score. */
  lemma ChooseModelIsFirstMinimum(perf: map<string, Perf>)
    requires |perf| > 0 && ClientScores(perf, ClientModels).Some?
    ensures var s := ClientScores(perf, ClientModels).value;
      exists k :: 0 <= k < |ClientModels| && ChooseModel(perf) == Chosen(ClientModels[k]) &&
                  (forall j :: 0 <= j < |ClientModels| ==> s[k] <= s[j]) &&
                  (forall j :: 0 <= j < k ==> s[j] > s[k])
  {
    var s := ClientScores(perf, ClientModels).value;
    var k := FirstMinIndex(s);
    assert ChooseModel(perf) == Chosen(ClientModels[k]);
  }

  /** Selection raises exactly when figures exist and a listed model has a
      zero success rate. */
  lemma ChooseModelRaisesOnZeroRate(perf: map<string, Perf>)
    ensures ChooseModel(perf) == DivisionByZero <==>
      |perf| > 0 && exists k :: 0 <= k < |ClientModels| && ClientModels[k] in perf &&
                                perf[ClientModels[k]].successRate == 0.0
  {
    if |perf| > 0 && ClientScores(perf, ClientModels).None? {
      var k :| 0 <= k < |ClientModels| && ClientScore(perf, ClientModels[k]).None?;
      assert ClientModels[k] in perf;
    }
  }

  /** Figures that name none of the listed models give every model the
      default 20.0, and the tie goes to the first model. */
  lemma ChooseModelUnlistedFigures(perf: map<string, Perf>)
    requires forall k :: 0 <= k < |ClientModels| ==> ClientModels[k] !in perf
    ensures ChooseModel(perf) == Chosen(ClientModels[0])
  {
    if |perf| > 0 {
      var s := ClientScores(perf, ClientModels).value;
      assert forall j :: 0 <= j < |s| ==> s[j] == 20.0;
      var k := FirstMinIndex(s);
      assert s[0] == 20.0 && s[k] == 20.0;
    }
  }

  // ---------------------------------------------------------------------------
  // The cascade

  /** `_call_primary_server` / `_call_fallback_server` on the reply: the
      `result` field of a 200 reply, nothing otherwise. */
  function ResultOf(reply: Reply): Option<string> {
    if reply.Response? && reply.status == 200 then reply.result else None
  }

  /** The first truthy result among the finished calls of the race. */
  function FirstTruthy(done: seq<Reply>): (r: Option<string>)
    ensures r.None? <==> forall j :: 0 <= j < |done| ==> !Truthy(ResultOf(done[j]))
    ensures r.Some? ==> exists j :: 0 <= j < |done| && ResultOf(done[j]) == r && r.value != "" &&
                                   (forall i :: 0 <= i < j ==> !Truthy(ResultOf(done[i])))
  {
    if done == [] then None
    else if Truthy(ResultOf(done[0])) then ResultOf(done[0])
    else
      var r := FirstTruthy(done[1..]);
      assert forall j :: 1 <= j < |done| ==> done[1..][j - 1] == done[j];
      r
  }

  /** The two servers: `primary` and `fallback` answer one POST with the
      symptoms and a model; `race` gives the replies of the calls that finished
      first when both are raced with the first listed model. */
  datatype ClientBackends = ClientBackends(primary: (string, string) -> Reply,
                                           fallback: (string, string) -> Reply,
                                           race: string -> seq<Reply>)

  datatype Analysis = Answer(text: string) | Crashed

  /** `MCPClient.analyze_symptoms`: the answer (or the division error raised
      by the selection) and the client's new figures. */
  function Analyze(cs: ClientState, symptoms: string, data: PatientData, now: real,
                   fetched: Option<map<string, Perf>>, be: ClientBackends): (Analysis, ClientState)
  {
    var formatted := WithPatientInfo(symptoms, data);
    var cs1 := Refresh(cs, now, fetched);
    match ChooseModel(cs1.perf)
    case DivisionByZero => (Crashed, cs1)
    case Chosen(m) =>
      var first := ResultOf(be.primary(formatted, m));
      if Truthy(first) then (Answer(first.value), cs1)
      else
        var second := ResultOf(be.fallback(formatted, m));
        if Truthy(second) then (Answer(second.value), cs1)
        else (Answer(FirstTruthy(be.race(formatted)).GetOr(UnavailableText)), cs1)
  }

  /** Both servers get the same formatted text and the same selected model; the
      primary's truthy result wins, then the fallback's, then the race's, and
      the fixed unavailable text ends the cascade. */
  lemma CascadeOrder(cs: ClientState, symptoms: string, data: PatientData, now: real,
                     fetched: Option<map<string, Perf>>, be: ClientBackends)
    requires ChooseModel(Refresh(cs, now, fetched).perf).Chosen?
    ensures var m := ChooseModel(Refresh(cs, now, fetched).perf).model;
      var f := WithPatientInfo(symptoms, data);
      var a := Analyze(cs, symptoms, data, now, fetched, be).0;
      var p := ResultOf(be.primary(f, m));
      var b := ResultOf(be.fallback(f, m));
      var r := FirstTruthy(be.race(f));
      (Truthy(p) ==> a == Answer(p.value)) &&
      (!Truthy(p) && Truthy(b) ==> a == Answer(b.value)) &&
      (!Truthy(p) && !Truthy(b) && r.Some? ==> a == Answer(r.value)) &&
      (!Truthy(p) && !Truthy(b) && r.None? ==> a == Answer(UnavailableText))
  {
  }

  /** Whatever the servers answer, an answer is never empty: only truthy
      results are passed on. */
  lemma AnswerNeverEmpty(cs: ClientState, symptoms: string, data: PatientData, now: real,
                         fetched: Option<map<string, Perf>>, be: ClientBackends)
    ensures Analyze(cs, symptoms, data, now, fetched, be).0.Answer? ==>
      Analyze(cs, symptoms, data, now, fetched, be).0.text != ""
  {
  }

  // ---------------------------------------------------------------------------
  // Follow-up heuristic

  /** The answer invites follow-up questions. */
  predicate MentionsFollowUp(result: string) {
    Contains(Lower(result), "follow-up question") || Contains(Lower(result), "additional information")
  }

  /** A line the heuristic takes as a question: it holds a "?" and is shorter
      than 100 characters (before stripping). */
  predicate QuestionLine(line: string) {
    '?' in line && |line| < 100
  }

  /** The stripped question lines, in order. */
  function Questions(lines: seq<string>): (r: seq<string>)
    ensures |r| <= |lines|
  {
    if lines == [] then []
    else (if QuestionLine(lines[0]) then [Strip(lines[0])] else []) + Questions(lines[1..])
  }

  /** A text is among the questions exactly when it is the stripped form of a
      question line. */
  lemma {:induction false} QuestionsAreStrippedQuestionLines(lines: seq<string>, q: string)
    ensures q in Questions(lines) <==> exists j :: 0 <= j < |lines| && QuestionLine(lines[j]) && q == Strip(lines[j])
  {
    if lines != [] {
      QuestionsAreStrippedQuestionLines(lines[1..], q);
      if q in Questions(lines[1..]) {
        var j :| 0 <= j < |lines[1..]| && QuestionLine(lines[1..][j]) && q == Strip(lines[1..][j]);
        assert lines[j + 1] == lines[1..][j];
      }
      if exists j :: 0 <= j < |lines| && QuestionLine(lines[j]) && q == Strip(lines[j]) {
        var j :| 0 <= j < |lines| && QuestionLine(lines[j]) && q == Strip(lines[j]);
        if j > 0 {
          assert lines[1..][j - 1] == lines[j];
        }
      }
    }
  }

  /** The loop of the heuristic over the answer's lines. */
  method CollectQuestions(lines: seq<string>) returns (questions: seq<string>)
    ensures questions == Questions(lines)
  {
    questions := [];
    var i := 0;
    while i < |lines|
      invariant 0 <= i <= |lines|
      invariant questions + Questions(lines[i..]) == Questions(lines)
    {
      assert lines[i..][1..] == lines[i + 1..];
      if QuestionLine(lines[i]) {
        questions := questions + [Strip(lines[i])];
      }
      i := i + 1;
    }
  }

  /** The message of the division error caught by `process_symptom_check`. */
  const DivisionErrorText: string := "An error occurred while analyzing your symptoms: float division by zero"

  /** The session-state entries the symptom check touches. */
  datatype Session = Session(patientData: PatientData, awaiting: bool, followUps: seq<string>,
                             currentResult: Option<string>)

  /** The follow-up part of `process_symptom_check`: the flag is raised when
      the answer mentions follow-up, and the stored questions are replaced
      only when some were found. */
  function AfterAnswer(ss: Session, result: string): (r: Session)
    ensures r.patientData == ss.patientData && r.currentResult == ss.currentResult
  {
    if MentionsFollowUp(result) then
      var qs := Questions(Lines(result));
      ss.(awaiting := true, followUps := if qs != [] then qs else ss.followUps)
    else ss
  }

  /** `process_symptom_check`: the text shown, the new session and the
      client's new figures. */
  function Check(ss: Session, cs: ClientState, input: string, duration: string, now: real,
                 fetched: Option<map<string, Perf>>, be: ClientBackends): (string, Session, ClientState)
  {
    var data := if duration != "Select duration" then SetEntry(ss.patientData, "Duration", duration) else ss.patientData;
    var (out, cs1) := Analyze(cs, input, data, now, fetched, be);
    match out
    case Crashed => (DivisionErrorText, ss.(patientData := data), cs1)
    case Answer(result) => (result, AfterAnswer(ss.(patientData := data, currentResult := Some(result)), result), cs1)
  }

  /** The follow-up flag and the stored questions change only for an answer
      that mentions follow-up; when they do, the flag is set, and the list is
      replaced only by a non-empty list of questions drawn from the answer. */
  lemma FollowUpOnlyOnMention(ss: Session, result: string)
    ensures !MentionsFollowUp(result) ==> AfterAnswer(ss, result) == ss
    ensures MentionsFollowUp(result) ==> AfterAnswer(ss, result).awaiting
    ensures AfterAnswer(ss, result).followUps != ss.followUps ==>
      MentionsFollowUp(result) && AfterAnswer(ss, result).followUps == Questions(Lines(result)) != []
  {
  }

  /** A chosen duration is recorded even when the analysis raises; the result
      is stored only when there is one. */
  lemma CheckRecordsDuration(ss: Session, cs: ClientState, input: string, duration: string, now: real,
                             fetched: Option<map<string, Perf>>, be: ClientBackends)
    ensures var data := if duration != "Select duration" then SetEntry(ss.patientData, "Duration", duration) else ss.patientData;
      var out := Analyze(cs, input, data, now, fetched, be).0;
      var c := Check(ss, cs, input, duration, now, fetched, be);
      c.1.patientData == data &&
      (out.Crashed? ==> c.0 == DivisionErrorText && c.1.currentResult == ss.currentResult && c.1.followUps == ss.followUps) &&
      (out.Answer? ==> c.0 == out.text && c.1.currentResult == Some(out.text))
  {
    var data := if duration != "Select duration" then SetEntry(ss.patientData, "Duration", duration) else ss.patientData;
    var out := Analyze(cs, input, data, now, fetched, be).0;
    if out.Answer? {
      var ss1 := ss.(patientData := data, currentResult := Some(out.text));
      assert Check(ss, cs, input, duration, now, fetched, be).1 == AfterAnswer(ss1, out.text);
    }
  }

  // ---------------------------------------------------------------------------
  // Objects

  class MCPClient {
    var perf: map<string, Perf>
    var lastUpdate: real

    function State(): ClientState
      reads this
    {
      ClientState(perf, lastUpdate)
    }

    constructor ()
      ensures perf == map[] && lastUpdate == 0.0
    {
      perf := map[];
      lastUpdate := 0.0;
    }

    method GetModelPerformance(now: real, fetched: Option<map<string, Perf>>) returns (result: map<string, Perf>)
      modifies this
      ensures State() == Refresh(old(State()), now, fetched) && result == perf
    {
      if now - lastUpdate < 60.0 {
        return perf;
      }
      if fetched.Some? {
        perf := fetched.value;
        lastUpdate := now;
      }
      return perf;
    }

    method SelectBestModel(now: real, fetched: Option<map<string, Perf>>) returns (choice: Choice)
      modifies this
      ensures State() == Refresh(old(State()), now, fetched)
      ensures choice == ChooseModel(perf)
    {
      var performance := GetModelPerformance(now, fetched);
      if |performance| == 0 {
        return Chosen(ClientModels[0]);
      }
      var scores := ScoreLoop(performance, ClientModels);
      if scores.None? {
        return DivisionByZero;
      }
      var best := FirstMinimum(scores.value);
      return Chosen(ClientModels[best]);
    }

    /** The loop that fills `scores`, stopping at the first division by zero. */
    static method ScoreLoop(performance: map<string, Perf>, models: seq<string>) returns (scores: Option<seq<real>>)
      ensures scores == ClientScores(performance, models)
    {
      var acc: seq<real> := [];
      var i := 0;
      while i < |models|
        invariant 0 <= i <= |models|
        invariant ClientScores(performance, models[..i]) == Some(acc)
      {
        assert models[..i + 1][..i] == models[..i];
        var s := ClientScore(performance, models[i]);
        if s.None? {
          assert ClientScores(performance, models[..i + 1]).None?;
          ScoresPrefixFails(performance, models, i + 1);
          return None;
        }
        acc := acc + [s.value];
        i := i + 1;
      }
      assert models[..i] == models;
      return Some(acc);
    }

    static lemma ScoresPrefixFails(performance: map<string, Perf>, models: seq<string>, n: nat)
      requires n <= |models| && ClientScores(performance, models[..n]).None?
      ensures ClientScores(performance, models).None?
    {
      var k :| 0 <= k < n && ClientScore(performance, models[..n][k]).None?;
      assert models[..n][k] == models[k];
    }

    method AnalyzeSymptoms(symptoms: string, data: PatientData, now: real,
                           fetched: Option<map<string, Perf>>, be: ClientBackends) returns (out: Analysis)
      modifies this
      ensures (out, State()) == Analyze(old(State()), symptoms, data, now, fetched, be)
    {
      var formatted := WithPatientInfo(symptoms, data);
      var choice := SelectBestModel(now, fetched);
      if choice.DivisionByZero? {
        return Crashed;
      }
      var result := ResultOf(be.primary(formatted, choice.model));
      if Truthy(result) {
        return Answer(result.value);
      }
      result := ResultOf(be.fallback(formatted, choice.model));
      if Truthy(result) {
        return Answer(result.value);
      }
      var done := be.race(formatted);
      var i := 0;
      while i < |done|
        invariant 0 <= i <= |done|
        invariant FirstTruthy(done) == FirstTruthy(done[i..])
      {
        if Truthy(ResultOf(done[i])) {
          return Answer(ResultOf(done[i]).value);
        }
        assert done[i..][1..] == done[i + 1..];
        i := i + 1;
      }
      return Answer(UnavailableText);
    }
  }

  class SymptomCheck {
    var patientData: PatientData
    var awaiting: bool
    var followUps: seq<string>
    var currentResult: Option<string>
    var isProcessing: bool

    function State(): Session
      reads this
    {
      Session(patientData, awaiting, followUps, currentResult)
    }

    constructor ()
      ensures State() == Session([], false, [], None) && !isProcessing
    {
      patientData := [];
      awaiting := false;
      followUps := [];
      currentResult := None;
      isProcessing := false;
    }

    method ProcessSymptomCheck(client: MCPClient, input: string, duration: string, now: real,
                               fetched: Option<map<string, Perf>>, be: ClientBackends) returns (text: string)
      modifies this, client
      ensures (text, State(), client.State()) == Check(old(State()), old(client.State()), input, duration, now, fetched, be)
      ensures !isProcessing
    {
      isProcessing := true;
      if duration != "Select duration" {
        patientData := SetEntry(patientData, "Duration", duration);
      }
      var out := client.AnalyzeSymptoms(input, patientData, now, fetched, be);
      if out.Crashed? {
        isProcessing := false;
        return DivisionErrorText;
      }
      var result := out.text;
      currentResult := Some(result);
      if MentionsFollowUp(result) {
        awaiting := true;
        var questions := CollectQuestions(Lines(result));
        if questions != [] {
          followUps := questions;
        }
      }
      isProcessing := false;
      return result;
    }
  }
}
