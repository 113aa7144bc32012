/** The adaptive MCP server of `doctor-app/advanced_mcp_server.py`: a
    per-model performance scoreboard kept by moving averages, a selector that
    picks the model with the lowest score, a response cache with a one-hour
    lazy expiry, and the cascade that ties them together (cache, best model,
    parallel fallback over the four fastest models, direct analysis). */
module AdvancedServer {
  import opened Core
  import opened Text

  const ModelsToTry: seq<string> := [
    "mistralai/mistral-7b-instruct:free",
    "qwen/qwen1.5-7b-chat:free",
    "anthropic/claude-3-haiku-20240307:free",
    "google/gemma-7b-it:free",
    "mistralai/mistral-small-3.1-24b-instruct:free",
    "deepseek/deepseek-chat-v3-0324:free",
    "qwen/qwen2.5-vl-32b-instruct:free",
    "cognitivecomputations/dolphin3.0-r1-mistral-24b:free"
  ]

  // ---------------------------------------------------------------------------
  // Scoreboard

  /** One record of `model_performance`; times in seconds, rates in [0, 1]. */
  datatype Perf = Perf(avgTime: real, successRate: real)

  /** Every configured model starts at 15 s and a 90% success rate. */
  function InitialPerf(): (r: map<string, Perf>)
    ensures r.Keys == set m | m in ModelsToTry
    ensures forall m :: m in r ==> r[m] == Perf(15.0, 0.9)
  {
    map m | m in ModelsToTry :: Perf(15.0, 0.9)
  }

  /** `update_model_performance`: a model without a record gets one made from
      this single observation; a known model moves 20% of the way to the new
      time and 10% of the way to the new outcome. */
  function UpdatePerf(perf: map<string, Perf>, model: string, t: real, success: bool): (r: map<string, Perf>)
    ensures r.Keys == perf.Keys + {model}
    ensures forall m :: m in perf && m != model ==> r[m] == perf[m]
  {
    var outcome := if success then 1.0 else 0.0;
    if model !in perf then perf[model := Perf(t, outcome)]
    else
      var p := perf[model];
      perf[model := Perf(p.avgTime * 0.8 + t * 0.2, p.successRate * 0.9 + outcome * 0.1)]
  }

  lemma UpdateUnknownModel(perf: map<string, Perf>, model: string, t: real, success: bool)
    requires model !in perf
    ensures UpdatePerf(perf, model, t, success)[model] == Perf(t, if success then 1.0 else 0.0)
  {
  }

  lemma UpdateKnownModel(perf: map<string, Perf>, model: string, t: real, success: bool)
    requires model in perf
    ensures UpdatePerf(perf, model, t, success)[model].avgTime == 0.8 * perf[model].avgTime + 0.2 * t
    ensures UpdatePerf(perf, model, t, success)[model].successRate ==
      0.9 * perf[model].successRate + (if success then 0.1 else 0.0)
  {
  }

  /** Every rate lies in [0, 1]. */
  ghost predicate RatesInUnit(perf: map<string, Perf>) {
    forall m :: m in perf ==> 0.0 <= perf[m].successRate <= 1.0
  }

  /** Every average time is non-negative. */
  ghost predicate TimesNonNegative(perf: map<string, Perf>) {
    forall m :: m in perf ==> perf[m].avgTime >= 0.0
  }

  /** The selector can score every configured model: each has a record and a
      positive success rate, so the division by the squared rate is defined. */
  ghost predicate Selectable(perf: map<string, Perf>) {
    forall m :: m in ModelsToTry ==> m in perf && perf[m].successRate > 0.0
  }

  /** The scoreboard invariant of the running server. */
  ghost predicate Healthy(perf: map<string, Perf>) {
    RatesInUnit(perf) && Selectable(perf)
  }

  lemma InitialPerfHealthy()
    ensures Healthy(InitialPerf()) && TimesNonNegative(InitialPerf())
  {
  }

  /** Updates keep rates in [0, 1] whatever the time observed, and keep every
      configured model selectable: a positive rate decays to no less than 90%
      of itself, so records seeded at 0.9 never reach 0. */
  lemma UpdateKeepsHealthy(perf: map<string, Perf>, model: string, t: real, success: bool)
    requires Healthy(perf)
    ensures Healthy(UpdatePerf(perf, model, t, success))
  {
    var r := UpdatePerf(perf, model, t, success);
    forall m | m in r ensures 0.0 <= r[m].successRate <= 1.0 {
      if m == model && model in perf {
        assert r[m].successRate == perf[m].successRate * 0.9 + (if success then 1.0 else 0.0) * 0.1;
      }
    }
    forall m | m in ModelsToTry ensures m in r && r[m].successRate > 0.0 {
      if m == model {
        assert r[m].successRate >= perf[m].successRate * 0.9;
      }
    }
  }

  /** Non-negative observed times keep every average time non-negative. */
  lemma UpdateKeepsTimesNonNegative(perf: map<string, Perf>, model: string, t: real, success: bool)
    requires TimesNonNegative(perf) && t >= 0.0
    ensures TimesNonNegative(UpdatePerf(perf, model, t, success))
  {
  }

  // ---------------------------------------------------------------------------
  // Selection

  /** `min(1.0, len(symptoms) / 500)`. */
  function Complexity(symptoms: string): (c: real)
    ensures 0.0 <= c <= 1.0
    ensures |symptoms| >= 500 ==> c == 1.0
    ensures |symptoms| < 500 ==> c * 500.0 == |symptoms| as real
  {
    var ratio := |symptoms| as real / 500.0;
    if ratio < 1.0 then ratio else 1.0
  }

  /** Lower is better: time weighted by complexity, penalised by the square of
      the success rate. */
  function Score(p: Perf, complexity: real): real
    requires p.successRate != 0.0
  {
    Weighted(p.avgTime, p.successRate, complexity)
  }

  /** `avg_time * (0.5 + 0.5 * complexity) / success_rate ** 2`. */
  function Weighted(avgTime: real, rate: real, complexity: real): real
    requires rate != 0.0
  {
    (avgTime * (0.5 + 0.5 * complexity)) / (rate * rate)
  }

  /** A slower record never scores better. */
  lemma ScoreMonotoneInTime(p: Perf, q: Perf, c: real)
    requires 0.0 <= c && p.successRate == q.successRate && p.successRate != 0.0 && p.avgTime <= q.avgTime
    ensures Score(p, c) <= Score(q, c)
  {
    WeightedMonotoneInTime(p.avgTime, q.avgTime, p.successRate, c);
  }

  /** A less reliable record never scores better (for a non-negative time). */
  lemma ScoreAntitoneInRate(p: Perf, q: Perf, c: real)
    requires 0.0 <= c && p.avgTime == q.avgTime && p.avgTime >= 0.0 && 0.0 < p.successRate <= q.successRate
    ensures Score(p, c) >= Score(q, c)
  {
    WeightedAntitoneInRate(p.avgTime, p.successRate, q.successRate, c);
  }

  // The arithmetic below keeps every product as a product of two parameters;
  // naming a square by a variable defeats the solver's arithmetic.

  lemma WeightedMonotoneInTime(t1: real, t2: real, r: real, c: real)
    requires 0.0 <= c && r != 0.0 && t1 <= t2
    ensures Weighted(t1, r, c) <= Weighted(t2, r, c)
  {
    ProductPositive(r, r);
    WeightMonotone(t1, t2, c);
    DivideMonotone(t1 * (0.5 + 0.5 * c), t2 * (0.5 + 0.5 * c), r, r);
  }

  lemma WeightedAntitoneInRate(t: real, a: real, b: real, c: real)
    requires 0.0 <= c && t >= 0.0 && 0.0 < a <= b
    ensures Weighted(t, a, c) >= Weighted(t, b, c)
  {
    WeightMonotone(0.0, t, c);
    ProductMonotone(a, a, b, b);
    DivideAntitone(t * (0.5 + 0.5 * c), a, a, b, b);
  }

  lemma ProductPositive(a1: real, a2: real)
    requires (a1 > 0.0 && a2 > 0.0) || (a1 < 0.0 && a2 < 0.0)
    ensures a1 * a2 > 0.0
  {
  }

  lemma ProductMonotone(a1: real, a2: real, b1: real, b2: real)
    requires 0.0 < a1 <= b1 && 0.0 < a2 <= b2
    ensures 0.0 < a1 * a2 <= b1 * b2
  {
    assert a1 * a2 <= b1 * a2;
    assert b1 * a2 <= b1 * b2;
  }

  lemma DivideMonotone(a: real, b: real, d1: real, d2: real)
    requires a <= b && d1 * d2 > 0.0
    ensures a / (d1 * d2) <= b / (d1 * d2)
  {
  }

  lemma DivideAntitone(n: real, d1: real, d2: real, e1: real, e2: real)
    requires n >= 0.0 && 0.0 < d1 * d2 <= e1 * e2
    ensures n / (d1 * d2) >= n / (e1 * e2)
  {
  }

  lemma WeightMonotone(a: real, b: real, c: real)
    requires a <= b && 0.0 <= c
    ensures a * (0.5 + 0.5 * c) <= b * (0.5 + 0.5 * c)
  {
  }

  /** The scores of `models` in list order, as the selector's loop fills them. */
  function Scores(perf: map<string, Perf>, models: seq<string>, complexity: real): (r: seq<real>)
    requires forall m :: m in models ==> m in perf && perf[m].successRate != 0.0
    ensures |r| == |models|
    ensures forall k :: 0 <= k < |models| ==> r[k] == Score(perf[models[k]], complexity)
  {
    if models == [] then []
    else Scores(perf, models[..|models| - 1], complexity) + [Score(perf[models[|models| - 1]], complexity)]
  }

  /** `select_best_model`: the position of the model `min(scores, key=...)`
      returns; the scores dictionary is filled in list order, so ties go to
      the earlier model. */
  function BestIndex(perf: map<string, Perf>, symptoms: string): (k: nat)
    requires Selectable(perf)
    ensures k < |ModelsToTry|
  {
    FirstMinIndex(Scores(perf, ModelsToTry, Complexity(symptoms)))
  }

  /** The chosen model has a minimal score, every earlier model scores strictly
      worse, and the choice is one of the configured models. */
  lemma BestIndexIsFirstMinimum(perf: map<string, Perf>, symptoms: string)
    requires Selectable(perf)
    ensures var c := Complexity(symptoms);
      var k := BestIndex(perf, symptoms);
      (forall j :: 0 <= j < |ModelsToTry| ==>
         Score(perf[ModelsToTry[k]], c) <= Score(perf[ModelsToTry[j]], c)) &&
      (forall j :: 0 <= j < k ==>
         Score(perf[ModelsToTry[j]], c) > Score(perf[ModelsToTry[k]], c))
  {
    var s := Scores(perf, ModelsToTry, Complexity(symptoms));
    var k := FirstMinIndex(s);
    assert forall j :: 0 <= j < |s| ==> s[k] <= s[j];
  }

  // ---------------------------------------------------------------------------
  // Cache

  /** `get_cache_key`: `str(h)` for the symptom hash `h` reduced modulo 10000,
      followed by `_` and the model when a (non-empty) model is given. */
  function CacheKey(hash: string -> int, symptoms: string, model: Option<string>): (k: string)
    ensures |k| >= 1
  {
    var h := NatToString(hash(symptoms) % 10000);
    if Truthy(model) then h + "_" + model.value else h
  }

  /** A key without a model is the decimal form of a number below 10000: it
      parses back to the reduced hash. */
  lemma NoModelKeyIsReducedHash(hash: string -> int, symptoms: string)
    ensures AllDigits(CacheKey(hash, symptoms, None))
    ensures ParseNat(CacheKey(hash, symptoms, None)) == hash(symptoms) % 10000 < 10000
  {
    ParseNatToString(hash(symptoms) % 10000);
  }

  /** Keys with a model and keys without one never collide. */
  lemma KeySpacesDisjoint(hash: string -> int, a: string, b: string, model: string)
    requires model != ""
    ensures CacheKey(hash, a, None) != CacheKey(hash, b, Some(model))
  {
    var ka := CacheKey(hash, a, None);
    var hb := NatToString(hash(b) % 10000);
    var kb := CacheKey(hash, b, Some(model));
    assert !IsDigit(kb[|hb|]);
    assert |ka| == |kb| ==> IsDigit(ka[|hb|]);
  }

  /** Two keys with models are equal only when the reduced hashes and the
      models are. */
  lemma ModelKeysSeparate(hash: string -> int, a: string, b: string, ma: string, mb: string)
    requires ma != "" && mb != ""
    requires CacheKey(hash, a, Some(ma)) == CacheKey(hash, b, Some(mb))
    ensures hash(a) % 10000 == hash(b) % 10000 && ma == mb
  {
    var ha := NatToString(hash(a) % 10000);
    var hb := NatToString(hash(b) % 10000);
    DigitsBefore(ha, ma, hb, mb, '_');
    NatToStringInjective(hash(a) % 10000, hash(b) % 10000);
  }

  /** Different symptoms whose hashes agree modulo 10000 share one cache slot,
      so a lookup can return another input's answer. */
  lemma CollidingSymptomsShareKey(hash: string -> int, a: string, b: string, model: Option<string>)
    requires hash(a) % 10000 == hash(b) % 10000
    ensures CacheKey(hash, a, model) == CacheKey(hash, b, model)
  {
  }

  datatype Entry = Entry(response: string, timestamp: real)

  /** `get_cached_response`: an entry answers only while it is less than an
      hour old. */
  function Lookup(cache: map<string, Entry>, key: string, now: real): (r: Option<string>)
    ensures r.Some? <==> key in cache && now - cache[key].timestamp < 3600.0
    ensures r.Some? ==> r.value == cache[key].response
  {
    if key in cache && now - cache[key].timestamp < 3600.0 then Some(cache[key].response) else None
  }

  /** `cache_response`: overwrite unconditionally and stamp the time. */
  function Store(cache: map<string, Entry>, key: string, response: string, now: real): (r: map<string, Entry>)
    ensures r.Keys == cache.Keys + {key}
    ensures forall k :: k in cache && k != key ==> r[k] == cache[k]
  {
    cache[key := Entry(response, now)]
  }

  /** A stored response is found again until an hour has passed, and then no
      more; lookups of other keys are unaffected. */
  lemma StoreThenLookup(cache: map<string, Entry>, key: string, response: string, stamp: real, now: real, other: string)
    requires other != key
    ensures now - stamp < 3600.0 ==> Lookup(Store(cache, key, response, stamp), key, now) == Some(response)
    ensures now - stamp >= 3600.0 ==> Lookup(Store(cache, key, response, stamp), key, now) == None
    ensures Lookup(Store(cache, key, response, stamp), other, now) == Lookup(cache, other, now)
  {
  }

  // ---------------------------------------------------------------------------
  // Cascade

  /** The clock readings of one request: the cache lookup time, the elapsed
      time charged to the model, and the time stamped on a new cache entry. */
  datatype Clock = Clock(lookup: real, elapsed: real, stamp: real)

  datatype ServerState = ServerState(perf: map<string, Perf>, cache: map<string, Entry>)

  /** A parallel attempt counts when its text is non-empty and does not start
      with "Error:". */
  predicate Usable(r: Option<string>) {
    Truthy(r) && !StartsWith(r.value, "Error:")
  }

  /** The answer `try_models_parallel` accepts from the attempts that finished
      first, examined in the order given: the first usable one. */
  function RaceWinner(done: seq<Option<string>>): (r: Option<string>)
    ensures r.None? <==> forall j :: 0 <= j < |done| ==> !Usable(done[j])
    ensures r.Some? ==> exists j :: 0 <= j < |done| && done[j] == r && Usable(done[j]) &&
                                   (forall i :: 0 <= i < j ==> !Usable(done[i]))
  {
    if done == [] then None
    else if Usable(done[0]) then done[0]
    else
      var r := RaceWinner(done[1..]);
      assert forall j :: 1 <= j < |done| ==> done[1..][j - 1] == done[j];
      r
  }

  /** The external collaborators of one request: `agent` runs the selected
      model (`None` is an exception), `race` gives the attempts of the
      parallel fallback that finished first, `direct` is the sequential
      analysis tool of last resort. */
  datatype Backends = Backends(agent: string -> Option<string>,
                               race: seq<string> -> seq<Option<string>>,
                               direct: string -> string)

  /** `doctor_tool_impl`: the answer and the new scoreboard and cache. */
  function Dispatch(st: ServerState, symptoms: string, model: Option<string>, hash: string -> int,
                    clock: Clock, be: Backends): (string, ServerState)
    requires Selectable(st.perf)
  {
    var hit := Lookup(st.cache, CacheKey(hash, symptoms, model), clock.lookup);
    if Truthy(hit) then (hit.value, st)
    else
      var chosen := if Truthy(model) then model.value else ModelsToTry[BestIndex(st.perf, symptoms)];
      match be.agent(chosen)
      case Some(r) =>
        (r, ServerState(UpdatePerf(st.perf, chosen, clock.elapsed, true),
                        Store(st.cache, CacheKey(hash, symptoms, Some(chosen)), r, clock.stamp)))
      case None =>
        var perf := UpdatePerf(st.perf, chosen, clock.elapsed, false);
        match RaceWinner(be.race(ModelsToTry[..4]))
        case Some(r) => (r, ServerState(perf, Store(st.cache, CacheKey(hash, symptoms, None), r, clock.stamp)))
        case None => (be.direct(symptoms), ServerState(perf, st.cache))
  }

  /** A live cache entry with a non-empty text answers at once and nothing
      changes. */
  lemma CacheHitShortCircuits(st: ServerState, symptoms: string, model: Option<string>, hash: string -> int,
                              clock: Clock, be: Backends)
    requires Selectable(st.perf)
    requires Truthy(Lookup(st.cache, CacheKey(hash, symptoms, model), clock.lookup))
    ensures Dispatch(st, symptoms, model, hash, clock, be) ==
      (st.cache[CacheKey(hash, symptoms, model)].response, st)
  {
  }

  /** Without a request the best model is tried; its answer is returned,
      recorded as a success and cached under that model's key. That key is
      never the one a later request without a model looks up, so the entry
      without a model is untouched. */
  lemma PrimarySuccessCachedUnderSelectedModel(st: ServerState, symptoms: string, hash: string -> int,
                                               clock: Clock, be: Backends)
    requires Selectable(st.perf)
    requires !Truthy(Lookup(st.cache, CacheKey(hash, symptoms, None), clock.lookup))
    requires be.agent(ModelsToTry[BestIndex(st.perf, symptoms)]).Some?
    ensures var m := ModelsToTry[BestIndex(st.perf, symptoms)];
      var out := Dispatch(st, symptoms, None, hash, clock, be);
      out.0 == be.agent(m).value &&
      out.1.perf == UpdatePerf(st.perf, m, clock.elapsed, true) &&
      out.1.cache == Store(st.cache, CacheKey(hash, symptoms, Some(m)), out.0, clock.stamp) &&
      Lookup(out.1.cache, CacheKey(hash, symptoms, None), clock.stamp) ==
        Lookup(st.cache, CacheKey(hash, symptoms, None), clock.stamp)
  {
    var m := ModelsToTry[BestIndex(st.perf, symptoms)];
    ConfiguredModelsNamed();
    KeySpacesDisjoint(hash, symptoms, symptoms, m);
  }

  lemma ConfiguredModelsNamed()
    ensures forall k :: 0 <= k < |ModelsToTry| ==> |ModelsToTry[k]| > 0
  {
  }

  /** A failing primary model is recorded as a failure; a usable parallel
      answer is then returned and cached under the key without a model, and
      otherwise the direct analysis answers and the cache is unchanged. */
  lemma PrimaryFailureFallsBack(st: ServerState, symptoms: string, model: Option<string>, hash: string -> int,
                                clock: Clock, be: Backends)
    requires Selectable(st.perf)
    requires !Truthy(Lookup(st.cache, CacheKey(hash, symptoms, model), clock.lookup))
    requires var chosen := if Truthy(model) then model.value else ModelsToTry[BestIndex(st.perf, symptoms)];
      be.agent(chosen).None?
    ensures var chosen := if Truthy(model) then model.value else ModelsToTry[BestIndex(st.perf, symptoms)];
      var (text, after) := Dispatch(st, symptoms, model, hash, clock, be);
      var won := RaceWinner(be.race(ModelsToTry[..4]));
      after.perf == UpdatePerf(st.perf, chosen, clock.elapsed, false) &&
      (won.Some? ==> (text == won.value &&
                      after.cache == Store(st.cache, CacheKey(hash, symptoms, None), text, clock.stamp))) &&
      (won.None? ==> text == be.direct(symptoms) && after.cache == st.cache)
  {
  }

  /** The cascade keeps the scoreboard healthy. */
  lemma DispatchKeepsHealthy(st: ServerState, symptoms: string, model: Option<string>, hash: string -> int,
                             clock: Clock, be: Backends)
    requires Healthy(st.perf)
    ensures Healthy(Dispatch(st, symptoms, model, hash, clock, be).1.perf)
  {
    var chosen := if Truthy(model) then model.value else ModelsToTry[BestIndex(st.perf, symptoms)];
    UpdateKeepsHealthy(st.perf, chosen, clock.elapsed, true);
    UpdateKeepsHealthy(st.perf, chosen, clock.elapsed, false);
  }

  // ---------------------------------------------------------------------------
  // The server's module-level state

  class Server {
    var perf: map<string, Perf>
    var cache: map<string, Entry>

    function State(): ServerState
      reads this
    {
      ServerState(perf, cache)
    }

    ghost predicate Valid()
      reads this
    {
      Healthy(perf)
    }

    constructor ()
      ensures Valid()
      ensures perf == InitialPerf() && cache == map[]
    {
      perf := InitialPerf();
      cache := map[];
      InitialPerfHealthy();
    }

    /** `select_best_model`: fill the scores in list order, then keep the
        first strictly smaller one. */
    method SelectBestModel(symptoms: string) returns (model: string)
      requires Valid()
      ensures model == ModelsToTry[BestIndex(perf, symptoms)]
    {
      var scores := ScoreAll(perf, ModelsToTry, Complexity(symptoms));
      var best := FirstMinimum(scores);
      model := ModelsToTry[best];
    }

    /** The loop that fills the `scores` dictionary. */
    static method ScoreAll(perf: map<string, Perf>, models: seq<string>, c: real) returns (scores: seq<real>)
      requires forall m :: m in models ==> m in perf && perf[m].successRate != 0.0
      ensures scores == Scores(perf, models, c)
    {
      scores := [];
      var i := 0;
      while i < |models|
        invariant 0 <= i <= |models|
        invariant scores == Scores(perf, models[..i], c)
      {
        assert models[..i + 1][..i] == models[..i];
        scores := scores + [Score(perf[models[i]], c)];
        i := i + 1;
      }
      assert models[..i] == models;
    }

    method UpdateModelPerformance(model: string, t: real, success: bool)
      requires Valid()
      modifies this
      ensures Valid()
      ensures perf == UpdatePerf(old(perf), model, t, success) && cache == old(cache)
    {
      UpdateKeepsHealthy(perf, model, t, success);
      var outcome := if success then 1.0 else 0.0;
      if model !in perf {
        perf := perf[model := Perf(t, outcome)];
        return;
      }
      var current := perf[model];
      perf := perf[model := Perf(current.avgTime * 0.8 + t * 0.2, current.successRate * 0.9 + outcome * 0.1)];
    }

    method GetCachedResponse(hash: string -> int, symptoms: string, model: Option<string>, now: real)
      returns (r: Option<string>)
      ensures r == Lookup(cache, CacheKey(hash, symptoms, model), now)
    {
      var key := CacheKey(hash, symptoms, model);
      r := None;
      if key in cache {
        var entry := cache[key];
        if now - entry.timestamp < 3600.0 {
          r := Some(entry.response);
        }
      }
    }

    method CacheResponse(hash: string -> int, symptoms: string, response: string, model: Option<string>, now: real)
      modifies this
      ensures cache == Store(old(cache), CacheKey(hash, symptoms, model), response, now) && perf == old(perf)
    {
      cache := cache[CacheKey(hash, symptoms, model) := Entry(response, now)];
    }

    /** The loop of `try_models_parallel` over the attempts that finished. */
    static method FirstUsable(done: seq<Option<string>>) returns (r: Option<string>)
      ensures r == RaceWinner(done)
    {
      var i := 0;
      while i < |done|
        invariant 0 <= i <= |done|
        invariant RaceWinner(done) == RaceWinner(done[i..])
      {
        if Usable(done[i]) {
          return done[i];
        }
        assert done[i..][1..] == done[i + 1..];
        i := i + 1;
      }
      return None;
    }

    /** `doctor_tool_impl`. */
    method DoctorToolImpl(symptoms: string, model: Option<string>, hash: string -> int, clock: Clock, be: Backends)
      returns (text: string)
      requires Valid()
      modifies this
      ensures Valid()
      ensures (text, State()) == Dispatch(old(State()), symptoms, model, hash, clock, be)
    {
      DispatchKeepsHealthy(State(), symptoms, model, hash, clock, be);
      var cached := GetCachedResponse(hash, symptoms, model, clock.lookup);
      if Truthy(cached) {
        return cached.value;
      }
      var chosen: string;
      if Truthy(model) {
        chosen := model.value;
      } else {
        chosen := SelectBestModel(symptoms);
      }
      var response := be.agent(chosen);
      if response.Some? {
        UpdateModelPerformance(chosen, clock.elapsed, true);
        CacheResponse(hash, symptoms, response.value, Some(chosen), clock.stamp);
        return response.value;
      }
      UpdateModelPerformance(chosen, clock.elapsed, false);
      var won := FirstUsable(be.race(ModelsToTry[..4]));
      if won.Some? {
        CacheResponse(hash, symptoms, won.value, None, clock.stamp);
        return won.value;
      }
      text := be.direct(symptoms);
    }
  }
}
