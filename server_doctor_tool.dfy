/** The analysis tool of the top-level MCP server under `mcp_server`: the same
    sequential ladder as the tool under `doctor-app`, over eleven models, with
    settings derived from substrings of the model name, no keyword fallback,
    and the "temporarily unavailable" answer when every model fails. */
module ServerDoctorTool {
  import opened Core
  import opened Text
  import opened Ladder

  const Mistral7b: string := "mistralai/mistral-7b-instruct:free"
  const Qwen7b: string := "qwen/qwen1.5-7b-chat:free"
  const ClaudeHaiku: string := "anthropic/claude-3-haiku-20240307:free"
  const Gemma7b: string := "google/gemma-7b-it:free"
  const MistralSmall: string := "mistralai/mistral-small-3.1-24b-instruct:free"
  const DeepseekChat: string := "deepseek/deepseek-chat-v3-0324:free"
  const Qwen32b: string := "qwen/qwen2.5-vl-32b-instruct:free"
  const Dolphin: string := "cognitivecomputations/dolphin3.0-r1-mistral-24b:free"
  const Qwen72b: string := "qwen/qwen2.5-vl-72b-instruct:free"
  const DeepseekDistill: string := "deepseek/deepseek-r1-distill-qwen-32b:free"
  const Qwq: string := "qwen/qwq-32b-preview:free"

  /** `MODELS_TO_TRY` as declared when an API key is present: small models
      first, then medium, then large. */
  const InitialModels: seq<string> :=
    [Mistral7b, Qwen7b, ClaudeHaiku, Gemma7b, MistralSmall, DeepseekChat, Qwen32b, Dolphin,
     Qwen72b, DeepseekDistill, Qwq]

  /** Returned when the client could not be constructed. */
  const ClientErrorText: string := "Error: LLM client is not configured properly. Cannot provide medical analysis."

  // ---------------------------------------------------------------------------
  // Settings from the model name

  predicate IsSmall(m: string) {
    Contains(Lower(m), "7b") || Contains(Lower(m), "haiku")
  }

  predicate IsMedium(m: string) {
    Contains(Lower(m), "32b") || Contains(Lower(m), "24b")
  }

  /** The size class decides the timeout and the token budget; the family
      decides the temperature, Claude first, then Gemma or Mistral. */
  function ModelParams(m: string): Params {
    var temperature :=
      if Contains(Lower(m), "claude") then 0.4
      else if Contains(Lower(m), "gemma") || Contains(Lower(m), "mistral") then 0.2
      else 0.3;
    if IsSmall(m) then Params(15.0, 1000, temperature)
    else if IsMedium(m) then Params(25.0, 1200, temperature)
    else Params(30.0, 1500, temperature)
  }

  /** Timeout and token budget rise together over the three size classes; a
      small-model marker wins over a medium one; Claude's temperature wins
      over the Gemma and Mistral one. */
  lemma ModelParamsClasses(m: string)
    ensures ModelParams(m).timeout == 15.0 <==> IsSmall(m)
    ensures ModelParams(m).timeout == 25.0 <==> !IsSmall(m) && IsMedium(m)
    ensures ModelParams(m).timeout == 30.0 <==> !IsSmall(m) && !IsMedium(m)
    ensures ModelParams(m).maxTokens == if IsSmall(m) then 1000 else if IsMedium(m) then 1200 else 1500
    ensures Contains(Lower(m), "claude") ==> ModelParams(m).temperature == 0.4
    ensures 0.2 <= ModelParams(m).temperature <= 0.4
  {
  }

  /** The Mistral 7b model is small and gets the low temperature. */
  lemma Mistral7bSettings(m: string)
    requires m == Mistral7b
    ensures ModelParams(m) == Params(15.0, 1000, 0.2)
  {
    Mistral7bSpelling(m);
    Mistral7bMarkers(m);
  }

  lemma Mistral7bSpelling(m: string)
    requires m == Mistral7b
    ensures OccursAt(m, "7b", 18) && OccursAt(m, "mistral", 0) && 'd' !in m && 'D' !in m
  {
  }

  lemma Mistral7bMarkers(m: string)
    requires OccursAt(m, "7b", 18) && OccursAt(m, "mistral", 0) && 'd' !in m && 'D' !in m
    ensures Contains(Lower(m), "7b") && Contains(Lower(m), "mistral") && !Contains(Lower(m), "claude")
  {
    LowerContainsAt(m, "7b", 18);
    LowerContainsAt(m, "mistral", 0);
    LowerMissingChar(m, "claude", 4);
  }

  /** The Claude model is small (by "haiku") and gets the Claude temperature. */
  lemma ClaudeHaikuSettings(m: string)
    requires m == ClaudeHaiku
    ensures ModelParams(m) == Params(15.0, 1000, 0.4)
    ensures ClaudePrompt(m)
  {
    ClaudeHaikuSpelling(m);
    ClaudeHaikuMarkers(m);
  }

  lemma ClaudeHaikuSpelling(m: string)
    requires m == ClaudeHaiku
    ensures OccursAt(m, "haiku", 19) && OccursAt(m, "claude", 10)
  {
    var a, b, c, d, e := "anthropic/", "claude", "-3-", "haiku", "-20240307:free";
    assert m == a + b + c + d + e;
    assert (a + b + c + d + e)[|a|..|a| + |b|] == b;
    assert (a + b + c + d + e)[|a + b + c|..|a + b + c| + |d|] == d;
  }

  lemma ClaudeHaikuMarkers(m: string)
    requires OccursAt(m, "haiku", 19) && OccursAt(m, "claude", 10)
    ensures Contains(Lower(m), "haiku") && Contains(Lower(m), "claude")
  {
    LowerContainsAt(m, "haiku", 19);
    LowerContainsAt(m, "claude", 10);
  }

  /** "deepseek-chat-v3-0324" carries none of the size markers, so this model
      gets the large-model budget although it is listed among the medium ones. */
  lemma DeepseekChatSettings(m: string)
    requires m == DeepseekChat
    ensures ModelParams(m) == Params(30.0, 1500, 0.3)
  {
    DeepseekChatSpelling(m);
    DeepseekChatMarkers(m);
  }

  lemma DeepseekChatSpelling(m: string)
    requires m == DeepseekChat
    ensures 'b' !in m && 'B' !in m && 'i' !in m && 'I' !in m
    ensures 'l' !in m && 'L' !in m && 'g' !in m && 'G' !in m
    ensures 'm' !in m && 'M' !in m
  {
    DeepseekChatLetters(m);
    AvoidsLetters(m);
  }

  lemma DeepseekChatLetters(m: string)
    requires m == DeepseekChat
    ensures Avoids(m, "bBiIlLgGmM")
  {
  }

  lemma AvoidsLetters(m: string)
    requires Avoids(m, "bBiIlLgGmM")
    ensures 'b' !in m && 'B' !in m && 'i' !in m && 'I' !in m
    ensures 'l' !in m && 'L' !in m && 'g' !in m && 'G' !in m
    ensures 'm' !in m && 'M' !in m
  {
    var cs := "bBiIlLgGmM";
    AvoidsChar(m, cs, 'b');
    AvoidsChar(m, cs, 'B');
    AvoidsChar(m, cs, 'i');
    AvoidsChar(m, cs, 'I');
    AvoidsChar(m, cs, 'l');
    AvoidsChar(m, cs, 'L');
    AvoidsChar(m, cs, 'g');
    AvoidsChar(m, cs, 'G');
    AvoidsChar(m, cs, 'm');
    AvoidsChar(m, cs, 'M');
  }

  lemma DeepseekChatMarkers(m: string)
    requires 'b' !in m && 'B' !in m && 'i' !in m && 'I' !in m
    requires 'l' !in m && 'L' !in m && 'g' !in m && 'G' !in m
    requires 'm' !in m && 'M' !in m
    ensures !IsSmall(m) && !IsMedium(m)
    ensures !Contains(Lower(m), "claude") && !Contains(Lower(m), "gemma") && !Contains(Lower(m), "mistral")
  {
    LowerMissingChar(m, "7b", 1);
    LowerMissingChar(m, "haiku", 2);
    LowerMissingChar(m, "32b", 2);
    LowerMissingChar(m, "24b", 2);
    LowerMissingChar(m, "claude", 1);
    LowerMissingChar(m, "gemma", 0);
    LowerMissingChar(m, "mistral", 0);
  }

  // ---------------------------------------------------------------------------
  // One call

  /** What module load leaves behind: whether a client was constructed, and
      whether `MODELS_TO_TRY` was defined at all (only with an API key). */
  datatype Config = Config(clientReady: bool, modelsDefined: bool)

  function LoadConfig(keyPresent: bool, clientOk: bool): (c: Config)
    ensures c.clientReady == clientOk && c.modelsDefined == keyPresent
  {
    Config(clientOk, keyPresent)
  }

  datatype Answer = Answer(text: string, after: ToolState)

  /** `analyze_symptoms`. Without a client, the configuration error. Without
      a key the list is undefined: the lookup raises, the outer handler
      answers that analysis is unavailable. Otherwise the ladder, ending in the
      same unavailable answer when every model fails. */
  function Analyze(cfg: Config, st: ToolState, symptoms: string, requested: Option<string>,
                   call: Request -> Option<string>): Answer
  {
    if !cfg.clientReady then Answer(ClientErrorText, st)
    else if !cfg.modelsDefined then Answer(UnavailableText, st)
    else
      match RunLadder(st, requested, ModelParams, symptoms, call)
      case Answered(t, after) => Answer(t, after)
      case Exhausted => Answer(UnavailableText, st)
      case NoCandidates => Answer(NoModelsText, st)
  }

  /** What module load decides: a failed client construction always yields
      the configuration error, a missing key always the unavailable answer, and
      only a client with a key reaches the model ladder. */
  lemma LoadSelectsPath(keyPresent: bool, clientOk: bool, st: ToolState, symptoms: string,
                        requested: Option<string>, call: Request -> Option<string>)
    ensures !clientOk ==>
      Analyze(LoadConfig(keyPresent, clientOk), st, symptoms, requested, call) == Answer(ClientErrorText, st)
    ensures clientOk && !keyPresent ==>
      Analyze(LoadConfig(keyPresent, clientOk), st, symptoms, requested, call) == Answer(UnavailableText, st)
    ensures clientOk && keyPresent ==>
      Analyze(LoadConfig(keyPresent, clientOk), st, symptoms, requested, call) ==
      Analyze(Config(true, true), st, symptoms, requested, call)
  {
  }

  /** Without a client or without a key no backend is consulted and nothing
      changes. */
  lemma MisconfiguredIsLocal(cfg: Config, st: ToolState, symptoms: string, requested: Option<string>,
                             call: Request -> Option<string>, other: Request -> Option<string>)
    requires !cfg.clientReady || !cfg.modelsDefined
    ensures Analyze(cfg, st, symptoms, requested, call) == Analyze(cfg, st, symptoms, requested, other)
    ensures Analyze(cfg, st, symptoms, requested, call).after == st
    ensures Analyze(cfg, st, symptoms, requested, call).text ==
      if !cfg.clientReady then ClientErrorText else UnavailableText
  {
  }

  /** The first model that answers decides the text, becomes the current model
      and is swapped, by its working position, to the front of the list. */
  lemma FirstAnswerIsReturned(st: ToolState, symptoms: string, requested: Option<string>,
                              call: Request -> Option<string>, i: nat)
    requires i < |st.modelsToTry|
    requires call(AttemptAt(st, requested, ModelParams, symptoms, i)).Some?
    requires forall j :: 0 <= j < i ==> call(AttemptAt(st, requested, ModelParams, symptoms, j)).None?
    ensures Analyze(Config(true, true), st, symptoms, requested, call) ==
      Answer(call(AttemptAt(st, requested, ModelParams, symptoms, i)).value,
             ToolState(SwapFront(st.modelsToTry, i), Reorder(st.modelsToTry, requested)[i]))
  {
    FirstAnswerWins(st, requested, ModelParams, symptoms, call, i);
  }

  /** When every model fails the unavailable answer is returned and the globals
      are left as they were. */
  lemma AllFailedIsUnavailable(st: ToolState, symptoms: string, requested: Option<string>,
                               call: Request -> Option<string>)
    requires |st.modelsToTry| > 0
    requires forall m :: m in st.modelsToTry ==>
      call(Request(m, ModelParams(m), ClaudePrompt(st.currentModel), symptoms)).None?
    ensures Analyze(Config(true, true), st, symptoms, requested, call) == Answer(UnavailableText, st)
  {
    AllFailedExhausts(st, requested, ModelParams, symptoms, call);
  }

  lemma AnalyzeKeepsValid(cfg: Config, st: ToolState, base: seq<string>, symptoms: string,
                          requested: Option<string>, call: Request -> Option<string>)
    requires ValidState(st, base)
    ensures ValidState(Analyze(cfg, st, symptoms, requested, call).after, base)
    ensures cfg.clientReady && cfg.modelsDefined ==> !RunLadder(st, requested, ModelParams, symptoms, call).NoCandidates?
  {
    LadderKeepsValid(st, base, requested, ModelParams, symptoms, call);
  }

  /** Once the Claude model has answered, the next call sends the Claude prompt
      to every model it tries. */
  lemma ClaudeAnswerSwitchesPrompt(st: ToolState, symptoms: string, requested: Option<string>, i: nat)
    requires st.currentModel == ClaudeHaiku && i < |st.modelsToTry|
    ensures AttemptAt(st, requested, ModelParams, symptoms, i).claudePrompt
  {
    ClaudeHaikuSettings(st.currentModel);
  }

  /** The tool object: what module load decided, and the two globals that
      `analyze_symptoms` updates. */
  class DoctorTool {
    const cfg: Config
    /** The list as declared; the global list is always a rearrangement of it. */
    ghost const declared: seq<string>
    var modelsToTry: seq<string>
    var currentModel: string

    function State(): ToolState
      reads this
    {
      ToolState(modelsToTry, currentModel)
    }

    ghost predicate Valid()
      reads this
    {
      ValidState(State(), declared)
    }

    /** Module load. With a key the list is declared and its first model is
        current; without one only `CURRENT_MODEL` is set, the list is kept here
        but never read because `cfg.modelsDefined` is false. */
    constructor (keyPresent: bool, clientOk: bool)
      ensures cfg == LoadConfig(keyPresent, clientOk)
      ensures modelsToTry == InitialModels && declared == InitialModels
      ensures currentModel == if keyPresent then Mistral7b else Qwen32b
      ensures Valid()
    {
      cfg := LoadConfig(keyPresent, clientOk);
      declared := InitialModels;
      modelsToTry := InitialModels;
      currentModel := if keyPresent then Mistral7b else Qwen32b;
    }

    method AnalyzeSymptoms(symptoms: string, requested: Option<string>, call: Request -> Option<string>)
      returns (text: string)
      requires Valid()
      modifies this
      ensures Answer(text, State()) == Analyze(cfg, old(State()), symptoms, requested, call)
      ensures Valid()
    {
      AnalyzeKeepsValid(cfg, State(), declared, symptoms, requested, call);
      if !cfg.clientReady {
        return ClientErrorText;
      }
      if !cfg.modelsDefined {
        return UnavailableText;
      }
      var cands := Reorder(modelsToTry, requested);
      if |cands| == 0 {
        return NoModelsText;
      }
      var hit := TryInOrder(Attempts(cands, ModelParams, ClaudePrompt(currentModel), symptoms), call);
      match hit
      case None =>
        text := UnavailableText;
      case Some(h) =>
        currentModel := cands[h.index];
        if h.index > 0 {
          modelsToTry := modelsToTry[0 := modelsToTry[h.index]][h.index := modelsToTry[0]];
        } else {
          assert SwapFront(modelsToTry, 0) == modelsToTry;
        }
        text := h.text;
    }
  }
}
