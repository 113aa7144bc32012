/** The analysis tool of the MCP server under `doctor-app/mcp_server`: keyword
    fallback answers when no usable API key is configured, and otherwise a
    sequential ladder over seven free models with per-model parameters and
    promotion of the model that answered. */
module AppDoctorTool {
  import opened Core
  import opened Text
  import opened Ladder

  const Qwen32b: string := "qwen/qwen2.5-vl-32b-instruct:free"
  const MistralSmall: string := "mistralai/mistral-small-3.1-24b-instruct:free"
  const DeepseekChat: string := "deepseek/deepseek-chat-v3-0324:free"
  const DeepseekDistill: string := "deepseek/deepseek-r1-distill-qwen-32b:free"
  const Dolphin: string := "cognitivecomputations/dolphin3.0-r1-mistral-24b:free"
  const Qwq: string := "qwen/qwq-32b-preview:free"
  const Qwen72b: string := "qwen/qwen2.5-vl-72b-instruct:free"

  /** `MODELS_TO_TRY` as the module defines it, in order of preference. */
  const InitialModels: seq<string> := [Qwen32b, MistralSmall, DeepseekChat, DeepseekDistill, Dolphin, Qwq, Qwen72b]

  lemma InitialModelsDistinct()
    ensures Distinct(InitialModels)
  {
    assert Qwen32b[16] != Qwen72b[16];
  }

  // ---------------------------------------------------------------------------
  // Keyword fallback

  datatype Category = Headache | Fever | Respiratory | Digestive | General

  const HeadacheTerms: seq<string> := ["headache", "migraine", "head pain", "head ache"]
  const FeverTerms: seq<string> := ["fever", "temperature", "hot", "chills", "sweating"]
  const CoughTerms: seq<string> := ["cough", "coughing", "throat", "phlegm", "mucus"]
  const DigestiveTerms: seq<string> := ["stomach", "nausea", "vomit", "diarrhea", "constipation", "abdominal", "digestive", "gut"]

  /** The first category, in the order headache, fever, cough, digestive,
      whose terms occur anywhere in the lower-cased symptoms. */
  function Classify(symptoms: string): Category {
    var text := Lower(symptoms);
    if ContainsAny(text, HeadacheTerms) then Headache
    else if ContainsAny(text, FeverTerms) then Fever
    else if ContainsAny(text, CoughTerms) then Respiratory
    else if ContainsAny(text, DigestiveTerms) then Digestive
    else General
  }

  /** The name under which each canned answer is kept; the markdown bodies of
      the answers are not modelled, only which one is returned. */
  function CategoryName(c: Category): string {
    match c
    case Headache => "headache"
    case Fever => "fever"
    case Respiratory => "respiratory"
    case Digestive => "digestive"
    case General => "general"
  }

  function CannedAdvice(c: Category): string {
    "[canned advice: " + CategoryName(c) + "]"
  }

  /** `get_fallback_response`. */
  function FallbackResponse(symptoms: string): string {
    CannedAdvice(Classify(symptoms))
  }

  /** Different categories give different canned answers, so a fallback answer
      tells which branch of the classifier was taken. */
  lemma CannedAdviceInjective(c: Category, d: Category)
    ensures CannedAdvice(c) == CannedAdvice(d) ==> c == d
  {
    if CannedAdvice(c) == CannedAdvice(d) {
      assert |CategoryName(c)| == |CannedAdvice(c)| - 17;
      assert |CategoryName(d)| == |CannedAdvice(d)| - 17;
    }
  }

  /** Classification ignores ASCII case. */
  lemma ClassifyIgnoresCase(symptoms: string)
    ensures Classify(Lower(symptoms)) == Classify(symptoms)
  {
    LowerIdempotent(symptoms);
  }

  /** The categories are tried in a fixed order: a term of a category decides
      the answer whenever no term of an earlier category occurs, whatever terms
      of later categories also occur. */
  lemma ClassifyByFirstMatchingCategory(symptoms: string, term: string)
    ensures term in HeadacheTerms && Contains(Lower(symptoms), term) ==> Classify(symptoms) == Headache
    ensures term in FeverTerms && Contains(Lower(symptoms), term) && !ContainsAny(Lower(symptoms), HeadacheTerms)
      ==> Classify(symptoms) == Fever
    ensures term in CoughTerms && Contains(Lower(symptoms), term)
      && !ContainsAny(Lower(symptoms), HeadacheTerms) && !ContainsAny(Lower(symptoms), FeverTerms)
      ==> Classify(symptoms) == Respiratory
    ensures term in DigestiveTerms && Contains(Lower(symptoms), term)
      && !ContainsAny(Lower(symptoms), HeadacheTerms) && !ContainsAny(Lower(symptoms), FeverTerms)
      && !ContainsAny(Lower(symptoms), CoughTerms)
      ==> Classify(symptoms) == Digestive
    ensures Classify(symptoms) == General <==>
      !ContainsAny(Lower(symptoms), HeadacheTerms + FeverTerms + CoughTerms + DigestiveTerms)
  {
    var all := HeadacheTerms + FeverTerms + CoughTerms + DigestiveTerms;
    var text := Lower(symptoms);
    if ContainsAny(text, all) {
      var j :| 0 <= j < |all| && Contains(text, all[j]);
      if j < 4 { assert all[j] == HeadacheTerms[j]; }
      else if j < 9 { assert all[j] == FeverTerms[j - 4]; }
      else if j < 14 { assert all[j] == CoughTerms[j - 9]; }
      else { assert all[j] == DigestiveTerms[j - 14]; }
    } else {
      assert forall j :: 0 <= j < |HeadacheTerms| ==> HeadacheTerms[j] == all[j];
      assert forall j :: 0 <= j < |FeverTerms| ==> FeverTerms[j] == all[j + 4];
      assert forall j :: 0 <= j < |CoughTerms| ==> CoughTerms[j] == all[j + 9];
      assert forall j :: 0 <= j < |DigestiveTerms| ==> DigestiveTerms[j] == all[j + 14];
    }
  }

  lemma HeadacheTermsAreLowercase(term: string)
    requires term in HeadacheTerms
    ensures IsLowercase(term)
  {
  }

  /** A headache term anywhere in the text, in any case, selects the headache
      answer, whatever surrounds it. */
  lemma HeadacheTermAnywhere(before: string, term: string, after: string)
    requires term in HeadacheTerms
    ensures Classify(before + term + after) == Headache
  {
    HeadacheTermsAreLowercase(term);
    LowerOfLowercase(term);
    LowerConcat(before + term, after);
    LowerConcat(before, term);
    var text := Lower(before + term + after);
    assert text == Lower(before) + term + Lower(after);
    assert text[|before|..|before| + |term|] == term;
    ContainsWitness(text, term, |before|);
    ClassifyByFirstMatchingCategory(before + term + after, term);
  }

  /** Matching is on substrings, not words: "hot" inside "shot" selects the
      fever answer. */
  lemma ShotIsFever(s: string)
    requires s == "i took a shot"
    ensures Classify(s) == Fever
  {
    ShotSpelling(s);
    AvoidsChar(s, "em", 'e');
    AvoidsChar(s, "em", 'm');
    ShotMarkers(s);
  }

  lemma ShotSpelling(s: string)
    requires s == "i took a shot"
    ensures Lower(s) == s && OccursAt(s, "hot", 10) && Avoids(s, "em")
  {
    LowerOfLowercase(s);
    var a, b := "i took a s", "hot";
    assert s == a + b;
    assert (a + b)[|a|..|a| + |b|] == b;
  }

  /** A text with "hot" in it and neither 'e' nor 'm' has no headache term and
      a fever term. */
  lemma ShotMarkers(t: string)
    requires OccursAt(t, "hot", 10) && 'e' !in t && 'm' !in t
    ensures !ContainsAny(t, HeadacheTerms) && ContainsAny(t, FeverTerms)
  {
    NoTermOccurs(t, HeadacheTerms, [1, 0, 1, 1]);
    ContainsWitness(t, "hot", 10);
    assert FeverTerms[2] == "hot";
  }

  /** Headache wins over fever when both are mentioned. */
  lemma HeadacheBeforeFever(s: string)
    requires s == "i have a headache and fever"
    ensures Classify(s) == Headache
  {
    var a, b, c := "i have a ", "headache", " and fever";
    assert s == a + b + c;
    assert (a + b + c)[|a|..|a| + |b|] == b;
    LowerContainsAt(s, b, 9);
    assert HeadacheTerms[0] == b;
  }

  // ---------------------------------------------------------------------------
  // Per-model parameters

  /** The parameter table of the attempt loop, with its default row. */
  function ModelParams(m: string): Params {
    if m == Qwen32b then Params(15.0, 800, 0.4)
    else if m == DeepseekChat then Params(15.0, 800, 0.35)
    else if m == MistralSmall then Params(15.0, 800, 0.3)
    else if m == Dolphin then Params(15.0, 800, 0.35)
    else if m == Qwen72b then Params(20.0, 1000, 0.4)
    else if m == DeepseekDistill then Params(15.0, 800, 0.35)
    else if m == Qwq then Params(15.0, 800, 0.4)
    else Params(20.0, 1000, 0.4)
  }

  /** Only the 72b model and models outside the table get the long budget
      (20 s, 1000 tokens); every other listed model gets 15 s and 800 tokens;
      temperatures lie between 0.3 and 0.4. */
  lemma ModelParamsBudget(m: string)
    ensures (ModelParams(m).timeout == 20.0) <==> (m == Qwen72b || m !in InitialModels)
    ensures ModelParams(m).timeout == 20.0 ==> ModelParams(m).maxTokens == 1000
    ensures ModelParams(m).timeout != 20.0 ==> ModelParams(m).timeout == 15.0 && ModelParams(m).maxTokens == 800
    ensures 0.3 <= ModelParams(m).temperature <= 0.4
  {
    assert Qwen32b[16] != Qwen72b[16];
  }

  // ---------------------------------------------------------------------------
  // The attempt ladder

  /** Configuration fixed at import time: whether fallback answers are forced. */
  datatype Config = Config(useFallback: bool)

  /** `USE_FALLBACK` after the module has loaded: forced when the key is
      missing, when the client cannot be constructed, or when the key fails
      validation (which is only attempted with a key and a client). */
  function LoadConfig(keyPresent: bool, clientOk: bool, keyValid: bool): (c: Config)
    ensures !c.useFallback <==> keyPresent && clientOk && keyValid
  {
    if !keyPresent then Config(true)
    else if !clientOk then Config(true)
    else Config(!keyValid)
  }

  const InitialState: ToolState := ToolState(InitialModels, Qwen32b)

  /** The answer of one call and the globals after it. */
  datatype Answer = Answer(text: string, after: ToolState)

  /** `analyze_symptoms`: `call` is what the backend answers to one request
      (`None` for any exception, including a missing or null `content`). With
      fallback forced, or when every model fails, the keyword answer. */
  function Analyze(cfg: Config, st: ToolState, symptoms: string, requested: Option<string>,
                   call: Request -> Option<string>): Answer
  {
    if cfg.useFallback then Answer(FallbackResponse(symptoms), st)
    else
      match RunLadder(st, requested, ModelParams, symptoms, call)
      case Answered(t, after) => Answer(t, after)
      case Exhausted => Answer(FallbackResponse(symptoms), st)
      case NoCandidates => Answer(NoModelsText, st)
  }

  /** With fallback forced the answer is the keyword answer, no backend is
      consulted and nothing changes. */
  lemma FallbackModeIsLocal(st: ToolState, symptoms: string, requested: Option<string>,
                            call: Request -> Option<string>, other: Request -> Option<string>)
    ensures Analyze(Config(true), st, symptoms, requested, call) == Answer(FallbackResponse(symptoms), st)
    ensures Analyze(Config(true), st, symptoms, requested, call) == Analyze(Config(true), st, symptoms, requested, other)
  {
  }

  /** The first model that answers decides the text, becomes the current model
      and is swapped, by its working position, to the front of the list. */
  lemma FirstAnswerIsReturned(st: ToolState, symptoms: string, requested: Option<string>,
                              call: Request -> Option<string>, i: nat)
    requires i < |st.modelsToTry|
    requires call(AttemptAt(st, requested, ModelParams, symptoms, i)).Some?
    requires forall j :: 0 <= j < i ==> call(AttemptAt(st, requested, ModelParams, symptoms, j)).None?
    ensures Analyze(Config(false), st, symptoms, requested, call) ==
      Answer(call(AttemptAt(st, requested, ModelParams, symptoms, i)).value,
             ToolState(SwapFront(st.modelsToTry, i), Reorder(st.modelsToTry, requested)[i]))
  {
    FirstAnswerWins(st, requested, ModelParams, symptoms, call, i);
  }

  /** When every model fails the keyword answer is returned and the globals
      are left as they were. */
  lemma AllFailedFallsBack(st: ToolState, symptoms: string, requested: Option<string>,
                           call: Request -> Option<string>)
    requires |st.modelsToTry| > 0
    requires forall m :: m in st.modelsToTry ==>
      call(Request(m, ModelParams(m), ClaudePrompt(st.currentModel), symptoms)).None?
    ensures Analyze(Config(false), st, symptoms, requested, call) == Answer(FallbackResponse(symptoms), st)
  {
    AllFailedExhausts(st, requested, ModelParams, symptoms, call);
  }

  /** Every call keeps the globals valid, and from a valid state the "no
      models" branch is never taken. */
  lemma AnalyzeKeepsValid(cfg: Config, st: ToolState, base: seq<string>, symptoms: string,
                          requested: Option<string>, call: Request -> Option<string>)
    requires ValidState(st, base)
    ensures ValidState(Analyze(cfg, st, symptoms, requested, call).after, base)
    ensures !cfg.useFallback ==> !RunLadder(st, requested, ModelParams, symptoms, call).NoCandidates?
  {
    LadderKeepsValid(st, base, requested, ModelParams, symptoms, call);
  }

  /** In a valid state the list holds seven distinct models, so when a
      requested model shifts the others the promoted model is not the one that
      answered. */
  lemma PromotionSkewedByRequest(st: ToolState, symptoms: string, x: string,
                                 call: Request -> Option<string>, i: nat)
    requires ValidState(st, InitialModels)
    requires x != "" && x in st.modelsToTry && 0 < i <= IndexOf(st.modelsToTry, x)
    requires call(AttemptAt(st, Some(x), ModelParams, symptoms, i)).Some?
    requires forall j :: 0 <= j < i ==> call(AttemptAt(st, Some(x), ModelParams, symptoms, j)).None?
    ensures Analyze(Config(false), st, symptoms, Some(x), call).after.currentModel == st.modelsToTry[i - 1]
    ensures Analyze(Config(false), st, symptoms, Some(x), call).after.modelsToTry[0] == st.modelsToTry[i]
    ensures Analyze(Config(false), st, symptoms, Some(x), call).after.modelsToTry[0] !=
            Analyze(Config(false), st, symptoms, Some(x), call).after.currentModel
  {
    InitialModelsDistinct();
    DistinctPermutation(InitialModels, st.modelsToTry);
    RequestedModelSkewsPromotion(st, x, ModelParams, symptoms, call, i);
  }

  /** The tool object: the import-time configuration and the two globals that
      `analyze_symptoms` updates. */
  class DoctorTool {
    const cfg: Config
    /** The list as declared; the global list is always a rearrangement of it. */
    ghost const declared: seq<string>
    var modelsToTry: seq<string>
    var currentModel: string

    function State(): ToolState
      reads this
    {
      ToolState(modelsToTry, currentModel)
    }

    ghost predicate Valid()
      reads this
    {
      ValidState(State(), declared)
    }

    /** Module load: the key check, client construction and key validation
        decide `USE_FALLBACK`; the list starts in its declared order. */
    constructor (keyPresent: bool, clientOk: bool, keyValid: bool)
      ensures cfg == LoadConfig(keyPresent, clientOk, keyValid)
      ensures State() == InitialState && declared == InitialModels
      ensures Valid()
    {
      cfg := LoadConfig(keyPresent, clientOk, keyValid);
      declared := InitialModels;
      modelsToTry := InitialModels;
      currentModel := Qwen32b;
    }

    method AnalyzeSymptoms(symptoms: string, requested: Option<string>, call: Request -> Option<string>)
      returns (text: string)
      requires Valid()
      modifies this
      ensures Answer(text, State()) == Analyze(cfg, old(State()), symptoms, requested, call)
      ensures Valid()
    {
      AnalyzeKeepsValid(cfg, State(), declared, symptoms, requested, call);
      if cfg.useFallback {
        return FallbackResponse(symptoms);
      }
      var cands := Reorder(modelsToTry, requested);
      if |cands| == 0 {
        return NoModelsText;
      }
      var hit := TryInOrder(Attempts(cands, ModelParams, ClaudePrompt(currentModel), symptoms), call);
      match hit
      case None =>
        text := FallbackResponse(symptoms);
      case Some(h) =>
        currentModel := cands[h.index];
        if h.index > 0 {
          modelsToTry := modelsToTry[0 := modelsToTry[h.index]][h.index := modelsToTry[0]];
        } else {
          assert SwapFront(modelsToTry, 0) == modelsToTry;
        }
        text := h.text;
    }
  }
}
