# Dr. Arogya AI backend dispatch, modelled in Dafny

This project models the backend-dispatch layer of the Dr. Arogya AI symptom
checker. This layer decides which free language model on OpenRouter
answers a patient's symptom description. It also decides what happens when
the models fail. The layer has six parts:

- **The adaptive MCP server** (`doctor-app/advanced_mcp_server.py`). It has
  four pieces:
  - a per-model scoreboard of moving averages;
  - a selector that picks the lowest score;
  - a response cache with a one-hour lazy expiry;
  - the cascade `doctor_tool_impl`: cache, best model, a parallel race over
    the four fastest models, then the sequential tool.
- **The two sequential analysis tools**, `doctor-app/mcp_server/doctor_tool.py`
  and `mcp_server/doctor_tool.py`.
  - Each keeps a working copy of the global model list and moves a
    requested model to its front.
  - It tries the models strictly in order, each with per-model settings.
  - It promotes the model that answered by swapping it into the global
    list.
  - It falls back to either a keyword classifier or a fixed
    "temporarily unavailable" page.
- **The three Streamlit clients.**
  - `doctor-app/app/advanced_main.py`: throttled performance refresh, a
    client-side selector, a primary/fallback/race cascade and a follow-up
    heuristic.
  - `app/simplified_main.py`: a two-tier model ladder with timeouts taken
    from the model names, then a last request that names no model.
  - `doctor-app/app/new_main.py`: a patient-data block, extraction of
    follow-up questions from markdown, and the symptom-button loop.

How it is modelled:

- Every remote call is a function-typed parameter, an "oracle".
  - An LLM attempt is `Request -> Option<string>`, where `None` stands for
    any exception.
  - An HTTP exchange is a `Reply`: a status, an optional `result` and a
    body, or a raised exception.
  - Each race is given as the results of the attempts that finished first,
    in the order they are examined.
- Clock readings are `real` parameters.
- Python's salted `hash` is an uninterpreted `string -> int`.
- Global and session state that the source updates in place becomes a
  class. Examples are `MODELS_TO_TRY`/`CURRENT_MODEL`, the scoreboard and
  cache dicts, the `MCPClient` fields and the Streamlit session entries.
  - Each class method is proved equal to a pure function of the old state.
  - The properties are lemmas about those functions.
- Loops in the source are Dafny `while` loops with invariants. Examples are
  the attempt loop, the score loops, `min`, and the question and
  patient-data loops.

Modules: `Core` (shared vocabulary), `Text` (ASCII lower-casing, substring
search, strip, split/join, decimal rendering), `Ladder` (the executor shared
by both `doctor_tool.py` files), `ClientCommon` (the clients' model list,
patient-info join and click rule), and one module per source file:
`AdvancedServer`, `AppDoctorTool`, `ServerDoctorTool`, `AdvancedClient`,
`SimplifiedClient` and `NewClient`.

Behaviour the model keeps:

- An unknown requested model is ignored: the working copy stays the global
  list.
- Only `doctor_tool_impl` updates the scoreboard; the sequential tools never
  do.
- The race returns after the first batch of finished attempts; slower
  attempts are not examined.
- `mcp_server/doctor_tool.py` ends in the fixed unavailable page when every
  model fails.

## Model

| member | source | states |
|---|---|---|
| Core.FirstMinIndex | doctor-app/advanced_mcp_server.py:140 | the index `min(..., key=...)` returns is a minimum and every earlier score is strictly larger (ties go to the earliest) |
| Core.FirstMinimum | doctor-app/app/advanced_main.py:85 | the loop of `min` over the scores returns exactly the first-minimum index |
| AdvancedServer.InitialPerf | doctor-app/advanced_mcp_server.py:124 | every configured model, and only those, starts at 15 s and rate 0.9 |
| AdvancedServer.UpdatePerf | doctor-app/advanced_mcp_server.py:143-156 | an update adds at most the updated model's key and leaves every other record untouched |
| AdvancedServer.UpdateUnknownModel | doctor-app/advanced_mcp_server.py:145-147 | a model without a record gets `(t, 1.0 or 0.0)` from this one observation |
| AdvancedServer.UpdateKnownModel | doctor-app/advanced_mcp_server.py:149-156 | a known record moves to `0.8·avg + 0.2·t` and `0.9·rate + 0.1·success` |
| AdvancedServer.InitialPerfHealthy | doctor-app/advanced_mcp_server.py:124 | the seeded scoreboard has rates in [0,1], non-negative times, and every model selectable |
| AdvancedServer.UpdateKeepsHealthy | doctor-app/advanced_mcp_server.py:150-156 | any update keeps every rate in [0,1] and keeps every configured model's rate positive, so the score's division stays defined |
| AdvancedServer.UpdateKeepsTimesNonNegative | doctor-app/advanced_mcp_server.py:149-151 | non-negative observed times keep every average time non-negative |
| AdvancedServer.Complexity | doctor-app/advanced_mcp_server.py:130 | `min(1, len/500)`: in [0,1], 1 from 500 characters on, otherwise `len/500` exactly |
| AdvancedServer.ScoreMonotoneInTime | doctor-app/advanced_mcp_server.py:137 | at equal rate a slower record never scores better |
| AdvancedServer.ScoreAntitoneInRate | doctor-app/advanced_mcp_server.py:137 | at equal non-negative time a less reliable record never scores better |
| AdvancedServer.Scores | doctor-app/advanced_mcp_server.py:133-137 | one score per configured model, in list order, each the weighted formula of its record |
| AdvancedServer.BestIndexIsFirstMinimum | doctor-app/advanced_mcp_server.py:127-140 | the selected model has a minimal score among all configured models and every earlier model scores strictly worse |
| AdvancedServer.CacheKey | doctor-app/advanced_mcp_server.py:198-204 | a cache key is never empty |
| AdvancedServer.NoModelKeyIsReducedHash | doctor-app/advanced_mcp_server.py:201-204 | a key without a model is all digits and parses back to `hash % 10000`, below 10000 |
| AdvancedServer.KeySpacesDisjoint | doctor-app/advanced_mcp_server.py:202-204 | a key without a model never equals a key with one |
| AdvancedServer.ModelKeysSeparate | doctor-app/advanced_mcp_server.py:201-203 | two keys with models are equal only if reduced hashes and models both agree |
| AdvancedServer.CollidingSymptomsShareKey | doctor-app/advanced_mcp_server.py:201 | inputs whose hashes agree modulo 10000 share a cache slot |
| AdvancedServer.Lookup | doctor-app/advanced_mcp_server.py:206-215 | an entry is returned iff its key is present and it is less than 3600 s old, and then it is the stored response |
| AdvancedServer.Store | doctor-app/advanced_mcp_server.py:217-224 | a store overwrites one key and leaves every other entry as it was |
| AdvancedServer.StoreThenLookup | doctor-app/advanced_mcp_server.py:206-224 | put-then-get returns the response before expiry, nothing after it, and other keys read as before |
| AdvancedServer.RaceWinner | doctor-app/advanced_mcp_server.py:179-189 | the race yields nothing iff no finished attempt is usable, otherwise the first usable one (truthy and not starting with "Error:") |
| AdvancedServer.ConfiguredModelsNamed | doctor-app/advanced_mcp_server.py:54-66 | every configured model name is non-empty |
| AdvancedServer.CacheHitShortCircuits | doctor-app/advanced_mcp_server.py:231-234 | a live, truthy cache entry is returned with scoreboard and cache unchanged |
| AdvancedServer.PrimarySuccessCachedUnderSelectedModel | doctor-app/advanced_mcp_server.py:236-260 | without a requested model the best model's answer is returned, recorded as a success and cached under that model's key; the no-model entry a later request reads is untouched |
| AdvancedServer.PrimaryFailureFallsBack | doctor-app/advanced_mcp_server.py:262-278 | a failed primary is recorded as a failure; a usable race answer is returned and cached under the no-model key, and otherwise the direct tool answers with the cache unchanged |
| AdvancedServer.DispatchKeepsHealthy | doctor-app/advanced_mcp_server.py:227-278 | the cascade keeps the scoreboard healthy |
| AdvancedServer.Server.constructor | doctor-app/advanced_mcp_server.py:124 | the server starts with the seeded scoreboard and an empty cache |
| AdvancedServer.Server.SelectBestModel | doctor-app/advanced_mcp_server.py:127-140 | the loop-and-min selector returns the first-minimum configured model |
| AdvancedServer.Server.ScoreAll | doctor-app/advanced_mcp_server.py:133-137 | the loop filling `scores` computes `Scores` |
| AdvancedServer.Server.UpdateModelPerformance | doctor-app/advanced_mcp_server.py:143-156 | the scoreboard becomes `UpdatePerf` of the old one, the cache is untouched, and health is kept |
| AdvancedServer.Server.GetCachedResponse | doctor-app/advanced_mcp_server.py:206-215 | returns `Lookup` of the derived key |
| AdvancedServer.Server.CacheResponse | doctor-app/advanced_mcp_server.py:217-224 | the cache becomes `Store` of the old cache and the scoreboard is untouched |
| AdvancedServer.Server.FirstUsable | doctor-app/advanced_mcp_server.py:179-186 | the loop over the finished attempts returns `RaceWinner` |
| AdvancedServer.Server.DoctorToolImpl | doctor-app/advanced_mcp_server.py:227-278 | answer and new state equal `Dispatch` of the old state, and health is kept |
| Ladder.FirstSuccessFrom | doctor-app/mcp_server/doctor_tool.py:524-658 | the reported attempt answered, every earlier one failed, and nothing is reported iff every attempt failed |
| Ladder.TryInOrder | doctor-app/mcp_server/doctor_tool.py:524-658 | the attempt loop returns exactly the first success |
| Ladder.FirstSuccessIsEarliest | doctor-app/mcp_server/doctor_tool.py:524-636 | whatever later attempts would do, the first answering attempt is the one reported |
| Ladder.IndexOf | doctor-app/mcp_server/doctor_tool.py:519 | the position `remove` uses is the first occurrence |
| Ladder.Remove | doctor-app/mcp_server/doctor_tool.py:519 | `list.remove` drops exactly one copy of the model, its first occurrence: earlier entries stay in place, later ones move up by one |
| Ladder.Reorder | doctor-app/mcp_server/doctor_tool.py:516-520 | the working copy has the length of the global list |
| Ladder.ReorderIsPermutation | doctor-app/mcp_server/doctor_tool.py:516-520 | the working copy is a permutation of the global list |
| Ladder.ReorderMovesRequestedToFront | doctor-app/mcp_server/doctor_tool.py:517-520 | a requested listed model comes first and every other model keeps its relative order |
| Ladder.ReorderIgnoresUnknown | doctor-app/mcp_server/doctor_tool.py:517 | no request, an empty name or an unlisted name leaves the copy equal to the list |
| Ladder.DistinctPermutation | doctor-app/mcp_server/doctor_tool.py:630-632 | a rearrangement of distinct names stays distinct |
| Ladder.SwapFront | doctor-app/mcp_server/doctor_tool.py:630-632 | the swap exchanges positions 0 and i and fixes every other position |
| Ladder.SwapFrontIsPermutation | doctor-app/mcp_server/doctor_tool.py:630-632 | the swapped global list is a permutation of the old one |
| Ladder.PromotionAfterReorder | doctor-app/mcp_server/doctor_tool.py:630-632 | the swap uses the working-copy index on the global list: without a request, or past the requested model's old slot, the answering model is promoted; at copy position `0 < i <= k` the answer came from global position `i - 1` while global position `i` moves to the front |
| Ladder.PromotionPicksUntriedModel | doctor-app/mcp_server/doctor_tool.py:630-632 | concretely, with `[a,b,c]` and `c` requested, an answer from `a` promotes `b` |
| Ladder.Attempts | doctor-app/mcp_server/doctor_tool.py:524-584 | one request per candidate, in order, with the table's settings and the prompt variant fixed before the loop |
| Ladder.FirstAnswerWins | doctor-app/mcp_server/doctor_tool.py:626-636 | the first answer is returned, its model becomes current and the global list is swapped at its working index |
| Ladder.AllFailedExhausts | doctor-app/mcp_server/doctor_tool.py:637-654 | when every listed model fails the ladder is exhausted |
| Ladder.LadderKeepsValid | doctor-app/mcp_server/doctor_tool.py:626-661 | from a valid state the no-candidates branch is unreachable and an answer leaves a valid state |
| Ladder.PromoteKeepsValid | doctor-app/mcp_server/doctor_tool.py:630-632 | the swap and the new current model keep the state valid (the list a permutation of the declared one, the current model in it) |
| Ladder.AnswerPromotedWithoutRequest | doctor-app/mcp_server/doctor_tool.py:626-632 | without a request the answering model becomes both current and first |
| Ladder.RequestedModelSkewsPromotion | doctor-app/mcp_server/doctor_tool.py:626-632 | with a request, an answer before the requested slot makes the current model and the promoted first model differ |
| AppDoctorTool.InitialModelsDistinct | doctor-app/mcp_server/doctor_tool.py:35-44 | the declared seven models are distinct |
| AppDoctorTool.ClassifyIgnoresCase | doctor-app/mcp_server/doctor_tool.py:86 | classification does not depend on ASCII case |
| AppDoctorTool.ClassifyByFirstMatchingCategory | doctor-app/mcp_server/doctor_tool.py:88-346 | a term of a category decides whenever no earlier category's term occurs (headache, fever, cough, digestive), and the generic answer comes iff no term occurs |
| AppDoctorTool.HeadacheTermsAreLowercase | doctor-app/mcp_server/doctor_tool.py:89 | the headache terms are lower-case, so they match the lowered text |
| AppDoctorTool.HeadacheTermAnywhere | doctor-app/mcp_server/doctor_tool.py:86-89 | a headache term anywhere in the text selects the headache answer |
| AppDoctorTool.ShotIsFever | doctor-app/mcp_server/doctor_tool.py:150 | matching is by substring: "i took a shot" selects the fever answer via "hot" |
| AppDoctorTool.HeadacheBeforeFever | doctor-app/mcp_server/doctor_tool.py:89-150 | "i have a headache and fever" gets the headache answer |
| AppDoctorTool.ModelParamsBudget | doctor-app/mcp_server/doctor_tool.py:530-570 | 20 s / 1000 tokens iff the 72b model or an unlisted model, otherwise 15 s / 800; temperatures in [0.3, 0.4] |
| AppDoctorTool.LoadConfig | doctor-app/mcp_server/doctor_tool.py:399-418 | fallback mode is off iff a key is present, the client was built and the key validated |
| AppDoctorTool.FallbackModeIsLocal | doctor-app/mcp_server/doctor_tool.py:435-438 | in fallback mode the keyword answer is returned, no backend can influence it and the globals are unchanged |
| AppDoctorTool.FirstAnswerIsReturned | doctor-app/mcp_server/doctor_tool.py:626-636 | the first answering model's text is returned with the swap and the new current model |
| AppDoctorTool.AllFailedFallsBack | doctor-app/mcp_server/doctor_tool.py:641-654 | when every model fails the keyword answer is returned and the globals are unchanged |
| AppDoctorTool.AnalyzeKeepsValid | doctor-app/mcp_server/doctor_tool.py:626-661 | every call keeps the globals valid and never reaches the no-models text |
| AppDoctorTool.PromotionSkewedByRequest | doctor-app/mcp_server/doctor_tool.py:630-632 | with a requested model, an earlier answer promotes the model before it, not the one that answered |
| AppDoctorTool.DoctorTool.constructor | doctor-app/mcp_server/doctor_tool.py:18-48 | module load sets the fallback flag by `LoadConfig` and the declared list with its first model current |
| AppDoctorTool.DoctorTool.AnalyzeSymptoms | doctor-app/mcp_server/doctor_tool.py:421-681 | text and new globals equal `Analyze` of the old globals, and validity is kept |
| ServerDoctorTool.ModelParamsClasses | mcp_server/doctor_tool.py:218-239 | 15/25/30 s exactly for small/medium(not small)/other, tokens 1000/1200/1500 alike, Claude gets 0.4, temperatures in [0.2, 0.4] |
| ServerDoctorTool.Mistral7bSettings | mcp_server/doctor_tool.py:219-239 | the Mistral 7b model gets 15 s, 1000 tokens, 0.2 |
| ServerDoctorTool.ClaudeHaikuSettings | mcp_server/doctor_tool.py:219-236 | the Claude Haiku model gets 15 s, 1000 tokens, 0.4, and selects the Claude prompt |
| ServerDoctorTool.DeepseekChatSettings | mcp_server/doctor_tool.py:223-233 | the DeepSeek chat model carries no size marker and gets the large budget 30 s / 1500 / 0.3 |
| ServerDoctorTool.LoadSelectsPath | mcp_server/doctor_tool.py:19-95 | after module load, a failed client construction always gives the configuration error, a missing key (no `MODELS_TO_TRY`) always the unavailable page with the globals unchanged, and only a client with a key reaches the model ladder |
| ServerDoctorTool.MisconfiguredIsLocal | mcp_server/doctor_tool.py:113-114 | without a client the configuration error is returned, without a key the unavailable page; no backend is consulted and nothing changes |
| ServerDoctorTool.FirstAnswerIsReturned | mcp_server/doctor_tool.py:262-271 | the first answering model's text is returned with the swap and the new current model |
| ServerDoctorTool.AllFailedIsUnavailable | mcp_server/doctor_tool.py:277-297 | when every model fails the unavailable page is returned and the globals are unchanged |
| ServerDoctorTool.AnalyzeKeepsValid | mcp_server/doctor_tool.py:262-268 | every call keeps the globals valid and, when configured, never reaches the no-models text |
| ServerDoctorTool.ClaudeAnswerSwitchesPrompt | mcp_server/doctor_tool.py:119 | once Claude has answered, every attempt of the next call uses the Claude prompt |
| ServerDoctorTool.DoctorTool.constructor | mcp_server/doctor_tool.py:19-55 | module load: the declared list, the first model current with a key, the 32b default without |
| ServerDoctorTool.DoctorTool.AnalyzeSymptoms | mcp_server/doctor_tool.py:98-324 | text and new globals equal `Analyze` of the old globals, and validity is kept |
| ClientCommon.Pairs | doctor-app/app/advanced_main.py:93 | one `"k: v"` rendering per entry, in order |
| ClientCommon.WithPatientInfoExtends | app/simplified_main.py:37-41 | without data the text is unchanged; with data it keeps the symptoms as prefix and appends the joined entries |
| ClientCommon.SetEntry | doctor-app/app/advanced_main.py:613-614 | an existing key keeps its slot and takes the new value with every other entry unchanged; a new key is appended last |
| ClientCommon.SetEntryStores | doctor-app/app/advanced_main.py:613-614 | after setting, the key's first entry holds the new value |
| ClientCommon.Separator | doctor-app/app/advanced_main.py:245-246 | a single space is inserted iff the text is non-empty and does not end in a space |
| ClientCommon.AppendSymptomShape | doctor-app/app/advanced_main.py:243-247 | the old text stays a prefix, the lower-cased symptom is the suffix, at most one character between |
| ClientCommon.AppendSymptomSpacing | doctor-app/app/advanced_main.py:245-247 | after non-empty text the symptom follows exactly one space; empty text gets none |
| AdvancedClient.Refresh | doctor-app/app/advanced_main.py:46-63 | within a minute the figures are kept; any change is a 200 fetch with the timestamp moved to now |
| AdvancedClient.RefreshAfterAMinute | doctor-app/app/advanced_main.py:53-63 | after a minute a 200 reply replaces the figures and a failed fetch keeps them |
| AdvancedClient.ClientScores | doctor-app/app/advanced_main.py:74-82 | scores in list order, 20.0 without figures; the loop fails iff some listed model has a zero rate |
| AdvancedClient.ChooseModelIsFirstMinimum | doctor-app/app/advanced_main.py:65-85 | the chosen model has a minimal score and every earlier model scores strictly worse |
| AdvancedClient.ChooseModelRaisesOnZeroRate | doctor-app/app/advanced_main.py:69-79 | selection raises iff figures exist and a listed model has success rate 0 |
| AdvancedClient.ChooseModelUnlistedFigures | doctor-app/app/advanced_main.py:80-85 | figures for no listed model give every model 20.0 and the first model wins |
| AdvancedClient.FirstTruthy | doctor-app/app/advanced_main.py:184-190 | nothing iff no finished call has a truthy result, otherwise the first truthy one |
| AdvancedClient.CascadeOrder | doctor-app/app/advanced_main.py:87-117 | primary's truthy result, then fallback's, then the race's, then the unavailable page, with one formatted text and one selected model |
| AdvancedClient.AnswerNeverEmpty | doctor-app/app/advanced_main.py:101-207 | an answer of the cascade is never the empty text |
| AdvancedClient.Questions | doctor-app/app/advanced_main.py:627-631 | at most one question per line |
| AdvancedClient.QuestionsAreStrippedQuestionLines | doctor-app/app/advanced_main.py:627-631 | a text is a question iff it is the stripped form of a line with "?" shorter than 100 |
| AdvancedClient.CollectQuestions | doctor-app/app/advanced_main.py:627-631 | the loop collects exactly `Questions` |
| AdvancedClient.AfterAnswer | doctor-app/app/advanced_main.py:622-633 | the follow-up step keeps the patient data and the stored result |
| AdvancedClient.FollowUpOnlyOnMention | doctor-app/app/advanced_main.py:624-633 | no mention leaves the session unchanged; a mention sets the flag; the list changes only to a non-empty question list of that answer |
| AdvancedClient.CheckRecordsDuration | doctor-app/app/advanced_main.py:606-641 | a chosen duration is stored even if selection raises; a raise gives the error text and keeps result and questions, an answer is stored |
| AdvancedClient.MCPClient.constructor | doctor-app/app/advanced_main.py:40-44 | a new client has no figures and timestamp 0 |
| AdvancedClient.MCPClient.GetModelPerformance | doctor-app/app/advanced_main.py:46-63 | the client state becomes `Refresh` of the old one and the returned figures are the stored ones |
| AdvancedClient.MCPClient.SelectBestModel | doctor-app/app/advanced_main.py:65-85 | the state is refreshed and the choice is `ChooseModel` of the refreshed figures |
| AdvancedClient.MCPClient.ScoreLoop | doctor-app/app/advanced_main.py:74-82 | the loop filling `scores` computes `ClientScores`, stopping at a division by zero |
| AdvancedClient.MCPClient.AnalyzeSymptoms | doctor-app/app/advanced_main.py:87-207 | outcome and new state equal `Analyze` of the old state |
| AdvancedClient.SymptomCheck.constructor | doctor-app/app/advanced_main.py:227-236 | empty patient data, no follow-up, no questions, no result, not processing |
| AdvancedClient.SymptomCheck.ProcessSymptomCheck | doctor-app/app/advanced_main.py:606-641 | text, session and client state equal `Check` of the old ones; the processing flag ends cleared |
| SimplifiedClient.FastTimeout | app/simplified_main.py:54-57 | 15 s iff the name is marked "7b" or "haiku", else 20 s |
| SimplifiedClient.MediumTimeout | app/simplified_main.py:96-99 | 25 s iff the name is marked "32b" or "24b", else 30 s |
| SimplifiedClient.FastAttempts | app/simplified_main.py:51-57 | one fast-tier attempt per model, in order, with its fast timeout |
| SimplifiedClient.MediumAttempts | app/simplified_main.py:93-99 | one medium-tier attempt per model, in order, with its medium timeout |
| SimplifiedClient.FirstAccepted | app/simplified_main.py:51-132 | no answer iff no attempt gets a 200 reply |
| SimplifiedClient.ScheduleFollowsModels | app/simplified_main.py:47-51 | every model is tried once in list order, the first four with the fast rule and the rest with the medium rule |
| SimplifiedClient.ScheduleTimeouts | app/simplified_main.py:18-30 | with the configured names: 15 s for all fast models, 25 s for the marked medium ones, 30 s for the DeepSeek chat model |
| SimplifiedClient.FastMarked | app/simplified_main.py:54-55 | any name spelled around "7b" or "haiku" gets 15 s |
| SimplifiedClient.MediumMarked | app/simplified_main.py:96-97 | any name spelled around "32b" or "24b" gets 25 s |
| SimplifiedClient.FirstAcceptedAppend | app/simplified_main.py:51-93 | the medium tier is consulted only when the fast tier found nothing |
| SimplifiedClient.FirstAcceptedIsEarliest | app/simplified_main.py:76-90 | an accepted attempt preceded only by refusals gives its result or the default text |
| SimplifiedClient.FirstAcceptedModelWins | app/simplified_main.py:33-132 | the first model with a 200 reply decides the answer: its result, or the default text when it has none |
| SimplifiedClient.AllRefusedFallsBack | app/simplified_main.py:134-182 | with every model refused the model-less 30 s call answers: its result on 200, else the unavailable page |
| SimplifiedClient.TryTier | app/simplified_main.py:51-90 | a tier loop returns the first accepted result of that tier |
| SimplifiedClient.AnalyzeSymptomsDirect | app/simplified_main.py:33-182 | the two tier loops and the last call return `AnalyzeDirect` |
| SimplifiedClient.SymptomBox.constructor | app/simplified_main.py:211-212 | the text box starts empty |
| SimplifiedClient.SymptomBox.Click | app/simplified_main.py:418-424 | a click appends the lower-cased symptom by the space rule, keeping the old text as prefix |
| NewClient.StatusErrorInjective | doctor-app/app/new_main.py:37-40 | a status error determines its status and body |
| NewClient.AnalyzeDirectCases | doctor-app/app/new_main.py:18-43 | 200 gives the result or the default text, another status the status error, an exception the exception text; the two error forms never coincide |
| NewClient.EntryLinesJoin | doctor-app/app/new_main.py:579-580 | the entry lines are the rendered entries joined by newlines |
| NewClient.EntryLinesSnoc | doctor-app/app/new_main.py:579-580 | appending an entry appends exactly its line |
| NewClient.PatientSectionLines | doctor-app/app/new_main.py:578-581 | when no entry holds a line break, the block reads back as opening tag, one `k: v` line per entry, closing tag |
| NewClient.FullPromptShape | doctor-app/app/new_main.py:576-586 | the prompt stays a prefix; only a follow-up with data gets the block, ending in the closing tag; otherwise unchanged |
| NewClient.BuildPatientSection | doctor-app/app/new_main.py:578-581 | the `+=` loop builds exactly the patient block |
| NewClient.H3HoldsH2 | doctor-app/app/new_main.py:549-555 | an answer with the level-three header contains the level-two header |
| NewClient.BulletQuestion | doctor-app/app/new_main.py:563-565 | a kept question is longer than ten characters |
| NewClient.SectionFollowsH2 | doctor-app/app/new_main.py:549-559 | the `else` branch is dead: with either header the section is after the first "## Follow-up Questions", cut at "##"; with none the result is empty |
| NewClient.BulletQuestionShape | doctor-app/app/new_main.py:563-564 | a question is already stripped and has no line break when its line has none |
| NewClient.QuestionShape | doctor-app/app/new_main.py:562-566 | a question taken from a line is longer than ten characters, stripped and on one line |
| NewClient.BulletsFromLines | doctor-app/app/new_main.py:562-566 | a text is among the questions iff some line yields it as its bullet question |
| NewClient.ExtractedQuestionsShape | doctor-app/app/new_main.py:546-570 | every extracted question is longer than ten characters, stripped, on one line, and the answer had the level-two header |
| NewClient.ExtractFollowUpQuestions | doctor-app/app/new_main.py:546-570 | the header test, cut and loop return `ExtractFollowUps` |
| NewClient.CollectPicked | doctor-app/app/new_main.py:562-566 | the line loop appends exactly the picked questions, in line order |
| NewClient.ProcessAwaitsOnlyAfterHeader | doctor-app/app/new_main.py:589-598 | awaiting iff questions were found, only after the header, each question longer than ten characters; patient data kept |
| NewClient.QuerySession.constructor | doctor-app/app/new_main.py:60-69 | empty patient data, no follow-up, no questions |
| NewClient.QuerySession.ProcessMedicalQuery | doctor-app/app/new_main.py:573-603 | advice and new session equal `Process` of the old session |
| NewClient.VisitAllEffect | doctor-app/app/new_main.py:640-648 | the old text stays a prefix, keys stay, visited flags are reset, other flags kept, and no click changes nothing |
| NewClient.CollectClicksEffect | doctor-app/app/new_main.py:631-648 | after the pass no symptom flag is set, the stored text is a prefix unless cleared, and with no click the text is the stored (or cleared) one |
| NewClient.SymptomPanel.constructor | doctor-app/app/new_main.py:631-633 | the panel holds the stored text and flags |
| NewClient.SymptomPanel.Collect | doctor-app/app/new_main.py:631-648 | the page pass yields `CollectClicks` of the old panel |
| NewClient.SymptomPanel.VisitNames | doctor-app/app/new_main.py:640-648 | the button loop yields `VisitAll` of the old panel |

## Left out

- Network calls are oracles. This covers `requests.post`, the `httpx`
  clients, the OpenAI client and the pydantic-ai agent. Their headers,
  payloads and JSON parsing are not modelled. A 200 reply whose JSON lacks
  `result` is modelled as `result` absent. JSON `null` and malformed JSON are
  not distinguished from other failures.
- Timeouts are not enforced. A timed-out call is one the oracle answers
  with a failure. The timeout values are recorded in the requests
  (`Ladder.Params`, `SimplifiedClient.Attempt`).
- The `asyncio.wait` races in `try_models_parallel` and
  `_try_direct_api_calls` are given as the results of the attempts that
  finished first. Concurrency, cancellation, the race's timeout and the
  order of completion are not modelled. The race texts for "all failed" and
  "timed out" are never returned by `doctor_tool_impl`, so only their
  failure is kept.
- Floating-point latencies, rates, scores and temperatures are exact
  `real` values. No claim is made about IEEE rounding.
- `lower()` and `strip()` are ASCII only. There is no Unicode case folding
  and no Unicode whitespace.
- Python's salted `hash()` is an uninterpreted function parameter.
  Decimal keys are rendered for non-negative values only. Python's `%`
  already gives a result in [0, 10000), which Dafny's `%` matches.
- Prompt texts and the markdown bodies of the canned answers are opaque.
  - `Core.UnavailableText` is the unavailable page's heading only.
  - `AppDoctorTool.CannedAdvice` is a tag naming the category.
  - The prompt variant is tracked as a boolean on each request.
- AdvancedServer.Dispatch: the direct `analyze_symptoms` it falls back to
  is an oracle. The agent's model assignment is folded into the agent
  oracle.
- AdvancedClient.Refresh: a 200 reply's JSON is assumed to hold
  `avg_time` and `success_rate` for every model it names. A malformed
  figure, which would raise a `KeyError` in the selector, is not modelled.
- AdvancedClient.Check: the only exception modelled is the division by a
  zero success rate. It is modelled with its fixed message; the other
  exceptions of the cascade are caught inside the servers' calls.
- ServerDoctorTool.Analyze: without an API key `MODELS_TO_TRY` is never
  defined and the lookup raises. This is modelled by the configuration
  flag that leads to the outer handler's unavailable page. The list kept in
  the class is then never read.
- Two outer `except` handlers cannot be reached once remote calls are
  oracles, so they are not modelled. One is in `analyze_symptoms` of both
  tools (except that missing list); the other is in `process_medical_query`
  of `doctor-app/app/new_main.py`.
- NewClient.Panel: the session flags are keyed by symptom name instead of
  `"add_symptom_" + name`. Appending the prefix is a bijection, so nothing
  is lost.
- NewClient.ExtractedQuestionsShape: it does not state which line of the
  section a question comes from. `NewClient.BulletsFromLines` states that
  for the section's lines.
- Left out entirely:
  - the Streamlit UI, CSS/HTML, the progress-bar sleep loops and chat history;
  - `doctor-app/sse_server.py`, `app/main.py` and `doctor-app/app/models.py`;
  - logging, `load_dotenv`, API-key masking and the GET of
    `validate_api_key`, whose outcome is the `keyValid` parameter of
    `AppDoctorTool.LoadConfig`.
