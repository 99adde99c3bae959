/** What the default routing chain decides: which models survive its filters,
    stated on sets of models without any loop, and which of them can win. */
module RoutingTheorems {
  import opened Routing

  function Models(cs: seq<Candidate>): set<Model> {
    set c | c in cs :: c.model
  }

  lemma ModelsAppend(cs: seq<Candidate>, c: Candidate)
    ensures Models(cs + [c]) == Models(cs) + {c.model}
  {
    forall d | d in cs ensures d.model in Models(cs + [c]) {
      assert d in cs + [c];
    }
    assert c in cs + [c];
  }

  lemma NoModels(cs: seq<Candidate>)
    ensures Models(cs) == {} <==> cs == []
  {
    if cs != [] { assert cs[0].model in Models(cs); }
  }

  // ---------- the survivors, as sets ----------

  predicate IsPreferred(ctx: Context, m: Model) {
    m.id in ctx.preferred
  }

  predicate KnownUnhealthy(ctx: Context, m: Model) {
    m.provider in ctx.health && !ctx.health[m.provider]
  }

  /** The capabilities that the flags of a request ask for; chat is always asked for. */
  predicate HasRequired(ctx: Context, m: Model) {
    && "chat" in m.capabilities
    && (ctx.stream ==> "stream" in m.capabilities)
    && (ctx.tools ==> "tools" in m.capabilities)
    && (ctx.vision ==> "vision" in m.capabilities)
    && (ctx.json ==> "json_mode" in m.capabilities)
  }

  predicate AsksForWindow(ctx: Context) {
    ctx.estimatedTokens != 0 || ctx.minContextWindow != 0
  }

  /** Room for the estimated tokens with a buffer for the answer, and for what the
      request says itself. */
  predicate LargeEnough(ctx: Context, m: Model) {
    m.window >= ctx.estimatedTokens + 4096 && m.window >= ctx.minContextWindow
  }

  ghost function Preferable(ctx: Context, s: set<Model>): set<Model> {
    if exists m :: m in s && IsPreferred(ctx, m) then set m | m in s && IsPreferred(ctx, m) else s
  }

  ghost function Healthy(ctx: Context, s: set<Model>): set<Model> {
    if exists m :: m in s && !KnownUnhealthy(ctx, m) then set m | m in s && !KnownUnhealthy(ctx, m) else s
  }

  /** Those that have every required capability. */
  ghost function Able(ctx: Context, s: set<Model>): set<Model> {
    set m | m in s && HasRequired(ctx, m)
  }

  /** Those that fit; if none does, those with the largest window, which must not
      be negative. */
  ghost function Roomy(ctx: Context, s: set<Model>): set<Model> {
    if !AsksForWindow(ctx) then s
    else if exists m :: m in s && LargeEnough(ctx, m) then set m | m in s && LargeEnough(ctx, m)
    else set m | m in s && m.window >= 0 && forall n :: n in s ==> n.window <= m.window
  }

  ghost function Survivors(ctx: Context, s: set<Model>): set<Model> {
    Roomy(ctx, Able(ctx, Healthy(ctx, Preferable(ctx, s))))
  }

  // ---------- the tests of the filters ----------

  /** The capabilities required are those that the flags ask for. */
  lemma RequiredExactly(ctx: Context, c: string)
    ensures c in RequiredCapabilities(ctx) <==>
      c == "chat" || (ctx.stream && c == "stream") || (ctx.tools && c == "tools")
      || (ctx.vision && c == "vision") || (ctx.json && c == "json_mode")
  {
  }

  lemma CapableIff(ctx: Context, m: Model)
    ensures Capable(RequiredCapabilities(ctx)).Passes(m) <==> HasRequired(ctx, m)
  {
    forall c: string { RequiredExactly(ctx, c); }
  }

  lemma FitsIff(ctx: Context, m: Model)
    ensures NoContextNeeded(ctx) <==> !AsksForWindow(ctx)
    ensures Fits(RequiredWindow(ctx)).Passes(m) <==> LargeEnough(ctx, m)
  {
  }

  function Passing(t: Test, s: set<Model>): set<Model> {
    set m | m in s && t.Passes(m)
  }

  // ---------- the filters' loops compute them ----------

  lemma PassingAppend(t: Test, s: set<Model>, m: Model)
    ensures Passing(t, s + {m}) == Passing(t, s) + if t.Passes(m) then {m} else {}
  {
  }

  lemma {:induction false} KeepModels(t: Test, cs: seq<Candidate>)
    ensures Models(Keep(t, cs)) == Passing(t, Models(cs))
    decreases |cs|
  {
    if cs != [] {
      var front, last := cs[..|cs| - 1], cs[|cs| - 1];
      KeepModels(t, front);
      assert cs == front + [last];
      ModelsAppend(front, last);
      ModelsAppend(Keep(t, front), last);
      PassingAppend(t, Models(front), last.model);
      assert Keep(t, front) + [] == Keep(t, front);
    }
  }

  lemma {:induction false} MaxWindowIs(cs: seq<Candidate>)
    ensures MaxWindow(cs) >= 0
    ensures forall m :: m in Models(cs) ==> m.window <= MaxWindow(cs)
    ensures MaxWindow(cs) == 0 || exists m :: m in Models(cs) && m.window == MaxWindow(cs)
    decreases |cs|
  {
    if cs != [] {
      var front, last := cs[..|cs| - 1], cs[|cs| - 1];
      MaxWindowIs(front);
      assert cs == front + [last];
      ModelsAppend(front, last);
      assert last.model in Models(cs);
    }
  }

  lemma PreferenceStage(ctx: Context, cs: seq<Candidate>)
    ensures Models(FilterSpec(UserPreference, ctx, cs)) == Preferable(ctx, Models(cs))
  {
    KeepModels(Preferred(ctx.preferred), cs);
    NoModels(Keep(Preferred(ctx.preferred), cs));
    assert forall m: Model :: Preferred(ctx.preferred).Passes(m) <==> IsPreferred(ctx, m);
    var kept := Passing(Preferred(ctx.preferred), Models(cs));
    assert kept == set m | m in Models(cs) && IsPreferred(ctx, m);
    assert kept != {} <==> exists m :: m in Models(cs) && IsPreferred(ctx, m) by {
      if m :| m in Models(cs) && IsPreferred(ctx, m) { assert m in kept; }
      if m :| m in kept { assert IsPreferred(ctx, m); }
    }
  }

  lemma HealthStage(ctx: Context, cs: seq<Candidate>)
    ensures Models(FilterSpec(HealthFilter, ctx, cs)) == Healthy(ctx, Models(cs))
  {
    KeepModels(NotUnhealthy(ctx.health), cs);
    NoModels(Keep(NotUnhealthy(ctx.health), cs));
    assert forall m: Model :: NotUnhealthy(ctx.health).Passes(m) <==> !KnownUnhealthy(ctx, m);
    var kept := Passing(NotUnhealthy(ctx.health), Models(cs));
    assert kept == set m | m in Models(cs) && !KnownUnhealthy(ctx, m);
    assert kept != {} <==> exists m :: m in Models(cs) && !KnownUnhealthy(ctx, m) by {
      if m :| m in Models(cs) && !KnownUnhealthy(ctx, m) { assert m in kept; }
      if m :| m in kept { assert !KnownUnhealthy(ctx, m); }
    }
  }

  lemma CapabilityStage(ctx: Context, cs: seq<Candidate>)
    ensures Models(FilterSpec(CapabilityFilter, ctx, cs)) == Able(ctx, Models(cs))
  {
    KeepModels(Capable(RequiredCapabilities(ctx)), cs);
    forall m: Model { CapableIff(ctx, m); }
  }

  lemma ContextStage(ctx: Context, cs: seq<Candidate>)
    ensures Models(FilterSpec(ContextWindow, ctx, cs)) == Roomy(ctx, Models(cs))
  {
    KeepModels(Fits(RequiredWindow(ctx)), cs);
    NoModels(Keep(Fits(RequiredWindow(ctx)), cs));
    KeepModels(HasWindow(MaxWindow(cs)), cs);
    MaxWindowIs(cs);
    forall m: Model { FitsIff(ctx, m); }
    assert Passing(Fits(RequiredWindow(ctx)), Models(cs)) == set m | m in Models(cs) && LargeEnough(ctx, m);
  }

  lemma ScoredModels(s: Strategy, k: nat, ctx: Context, cs: seq<Candidate>, jitter: Jitter)
    ensures Models(ScoreSpec(s, k, ctx, cs, jitter)) == Models(cs)
    ensures |ScoreSpec(s, k, ctx, cs, jitter)| == |cs|
  {
    var r := ScoreSpec(s, k, ctx, cs, jitter);
    forall m | m in Models(cs) ensures m in Models(r) {
      var i :| 0 <= i < |cs| && cs[i].model == m;
      assert r[i] in r;
    }
    forall m | m in Models(r) ensures m in Models(cs) {
      var i :| 0 <= i < |r| && r[i].model == m;
      assert cs[i] in cs;
    }
  }

  // ---------- scores ----------

  ghost predicate LargestWindow(s: set<Model>, w: int) {
    w >= 0 && (forall m :: m in s ==> m.window <= w) && (w == 0 || exists m :: m in s && m.window == w)
  }

  ghost predicate SmallestCost(s: set<Model>, x: real) {
    (forall m :: m in s ==> x <= m.inputCost + m.outputCost) && exists m :: m in s && m.inputCost + m.outputCost == x
  }

  function PreferencePart(ctx: Context, m: Model): real {
    PreferenceOrder(ctx.preferred, m.id) as real * 10.0
  }

  function WindowPart(ctx: Context, m: Model, largest: int): real {
    if !AsksForWindow(ctx) || largest == 0 then 0.0 else WindowBonus(m.window, largest)
  }

  function CostPart(ctx: Context, m: Model, smallest: real): real {
    if ctx.optimize != "cost" || smallest <= 0.0 || Cost(m) <= 0.0 then 0.0 else CostBonus(Cost(m), smallest)
  }

  lemma {:induction false} MinCostIs(cs: seq<Candidate>)
    requires cs != [] && forall m :: m in Models(cs) ==> Cost(m) >= 0.0
    ensures SmallestCost(Models(cs), MinCost(cs))
    decreases |cs|
  {
    var front, last := cs[..|cs| - 1], cs[|cs| - 1];
    assert cs == front + [last];
    ModelsAppend(front, last);
    assert last.model in Models(cs);
    if front != [] {
      MinCostIs(front);
    }
  }

  lemma {:induction false} OrderZeroIff(preferred: seq<string>, id: string)
    ensures PreferenceOrder(preferred, id) > 0 <==> id in preferred
    ensures PreferenceOrder(preferred, id) <= |preferred|
    decreases |preferred|
  {
    if preferred != [] {
      OrderZeroIff(preferred[1..], id);
      assert preferred == [preferred[0]] + preferred[1..];
    }
  }

  /** The order is the distance of the last occurrence from the end of the list. */
  lemma {:induction false} OrderIsLastPosition(preferred: seq<string>, id: string, i: nat)
    requires i < |preferred| && preferred[i] == id && id !in preferred[i + 1..]
    ensures PreferenceOrder(preferred, id) == |preferred| - i
    decreases i
  {
    if i > 0 {
      assert preferred[1..][i - 1] == id;
      assert preferred[1..][i..] == preferred[i + 1..];
      OrderIsLastPosition(preferred[1..], id, i - 1);
    }
  }

  ghost predicate Scored(ctx: Context, c: Candidate, largest: int, smallest: real, jitter: real) {
    c.score == PreferencePart(ctx, c.model) + WindowPart(ctx, c.model, largest)
               + CostPart(ctx, c.model, smallest) + jitter
  }

  ghost predicate ScoredAll(ctx: Context, cs: seq<Candidate>, largest: int, smallest: real, jitter: Jitter) {
    forall i: nat :: i < |cs| ==> Scored(ctx, cs[i], largest, smallest, jitter(5, i))
  }

  lemma PreferenceScores(ctx: Context, cs: seq<Candidate>, jitter: Jitter)
    requires forall c :: c in cs ==> c.score == 0.0
    ensures forall c :: c in ScoreSpec(UserPreference, 0, ctx, cs, jitter) ==> c.score == PreferencePart(ctx, c.model)
  {
    forall c | c in ScoreSpec(UserPreference, 0, ctx, cs, jitter) ensures c.score == PreferencePart(ctx, c.model) {
      var i :| 0 <= i < |cs| && c == ScoreOne(UserPreference, 0, ctx, cs, jitter, i, cs[i]);
      assert cs[i] in cs;
      OrderZeroIff(ctx.preferred, c.model.id);
    }
  }

  lemma FiltersKeep(s: Strategy, ctx: Context, cs: seq<Candidate>)
    ensures forall c :: c in FilterSpec(s, ctx, cs) ==> c in cs
  {
    forall t: Test { KeepSome(t, cs); }
  }

  lemma QuietScore(s: Strategy, k: nat, ctx: Context, cs: seq<Candidate>, jitter: Jitter)
    requires s.HealthFilter? || s.CapabilityFilter?
    ensures ScoreSpec(s, k, ctx, cs, jitter) == cs
  {
  }

  lemma WindowScores(ctx: Context, k: nat, cs: seq<Candidate>, jitter: Jitter, i: nat)
    requires i < |cs|
    ensures var a := ScoreSpec(ContextWindow, k, ctx, cs, jitter);
      a[i].model == cs[i].model && a[i].score == cs[i].score + WindowPart(ctx, cs[i].model, MaxWindow(cs))
  {
  }

  lemma CostScores(ctx: Context, k: nat, cs: seq<Candidate>, jitter: Jitter, i: nat)
    requires i < |cs|
    ensures var a := ScoreSpec(CostOptimization, k, ctx, cs, jitter);
      a[i].model == cs[i].model && a[i].score == cs[i].score + CostPart(ctx, cs[i].model, MinCost(cs))
  {
  }

  lemma JitterScores(ctx: Context, k: nat, cs: seq<Candidate>, jitter: Jitter, i: nat)
    requires i < |cs|
    ensures var a := ScoreSpec(LoadBalancing, k, ctx, cs, jitter);
      a[i].model == cs[i].model && a[i].score == cs[i].score + jitter(k, i)
  {
  }

  lemma LastScoreAt(ctx: Context, cs: seq<Candidate>, a: seq<Candidate>, b: seq<Candidate>, d: seq<Candidate>,
                    jitter: Jitter, i: nat)
    requires a == ScoreSpec(ContextWindow, 3, ctx, cs, jitter)
    requires b == ScoreSpec(CostOptimization, 4, ctx, a, jitter)
    requires d == ScoreSpec(LoadBalancing, 5, ctx, b, jitter)
    requires i < |cs| && cs[i].score == PreferencePart(ctx, cs[i].model)
    ensures |d| == |cs| && Scored(ctx, d[i], MaxWindow(cs), MinCost(a), jitter(5, i))
  {
    WindowScores(ctx, 3, cs, jitter, i);
    CostScores(ctx, 4, a, jitter, i);
    JitterScores(ctx, 5, b, jitter, i);
  }

  /** The last three scores, from the candidates that have passed all filters. */
  lemma LastScores(ctx: Context, cs: seq<Candidate>, a: seq<Candidate>, b: seq<Candidate>, d: seq<Candidate>,
                   jitter: Jitter)
    requires a == ScoreSpec(ContextWindow, 3, ctx, cs, jitter)
    requires b == ScoreSpec(CostOptimization, 4, ctx, a, jitter)
    requires d == ScoreSpec(LoadBalancing, 5, ctx, b, jitter)
    requires cs != [] && forall c :: c in cs ==> c.score == PreferencePart(ctx, c.model)
    requires forall m :: m in Models(cs) ==> Cost(m) >= 0.0
    ensures LargestWindow(Models(cs), MaxWindow(cs)) && SmallestCost(Models(cs), MinCost(a))
    ensures Models(d) == Models(cs) && d != []
    ensures ScoredAll(ctx, d, MaxWindow(cs), MinCost(a), jitter)
  {
    ScoredModels(ContextWindow, 3, ctx, cs, jitter);
    ScoredModels(CostOptimization, 4, ctx, a, jitter);
    ScoredModels(LoadBalancing, 5, ctx, b, jitter);
    MaxWindowIs(cs);
    MinCostIs(a);
    forall i: nat | i < |d| ensures Scored(ctx, d[i], MaxWindow(cs), MinCost(a), jitter(5, i)) {
      LastScoreAt(ctx, cs, a, b, d, jitter, i);
    }
  }

  /** The candidates that reach the context window filter. */
  function AbleCandidates(ctx: Context, cs: seq<Candidate>, jitter: Jitter): seq<Candidate> {
    var preferred := ScoreSpec(UserPreference, 0, ctx, FilterSpec(UserPreference, ctx, cs), jitter);
    FilterSpec(CapabilityFilter, ctx, FilterSpec(HealthFilter, ctx, preferred))
  }

  lemma FirstStages(ctx: Context, cs: seq<Candidate>, jitter: Jitter)
    requires forall c :: c in cs ==> c.score == 0.0
    ensures var able := AbleCandidates(ctx, cs, jitter);
      && Models(able) == Able(ctx, Healthy(ctx, Preferable(ctx, Models(cs))))
      && forall c :: c in able ==> c.score == PreferencePart(ctx, c.model)
  {
    var kept := FilterSpec(UserPreference, ctx, cs);
    PreferenceStage(ctx, cs);
    FiltersKeep(UserPreference, ctx, cs);
    PreferenceScores(ctx, kept, jitter);
    ScoredModels(UserPreference, 0, ctx, kept, jitter);
    var scored := ScoreSpec(UserPreference, 0, ctx, kept, jitter);
    HealthStage(ctx, scored);
    FiltersKeep(HealthFilter, ctx, scored);
    CapabilityStage(ctx, FilterSpec(HealthFilter, ctx, scored));
    FiltersKeep(CapabilityFilter, ctx, FilterSpec(HealthFilter, ctx, scored));
  }

  /** The run of the default chain, stage by stage. */
  lemma DefaultRun(ctx: Context, cs: seq<Candidate>, jitter: Jitter)
    requires cs != [] && forall c :: c in cs ==> c.score == 0.0
    ensures var able := AbleCandidates(ctx, cs, jitter);
      var roomy := FilterSpec(ContextWindow, ctx, able);
      RunSpec(DEFAULT, 0, ctx, cs, jitter) ==
        if able == [] then NoneAfter("capability_filter")
        else if roomy == [] then NoneAfter("context_window")
        else Ranked(ScoreSpec(LoadBalancing, 5, ctx,
                      ScoreSpec(CostOptimization, 4, ctx,
                        ScoreSpec(ContextWindow, 3, ctx, roomy, jitter), jitter), jitter))
  {
    var kept := FilterSpec(UserPreference, ctx, cs);
    var scored := ScoreSpec(UserPreference, 0, ctx, kept, jitter);
    var healthy := FilterSpec(HealthFilter, ctx, scored);
    var able := FilterSpec(CapabilityFilter, ctx, healthy);
    PreferenceStage(ctx, cs);
    HealthStage(ctx, scored);
    ScoredModels(UserPreference, 0, ctx, kept, jitter);
    NoModels(cs);
    NoModels(kept);
    NoModels(healthy);
    QuietScore(HealthFilter, 1, ctx, healthy, jitter);
    QuietScore(CapabilityFilter, 2, ctx, able, jitter);
    assert RunSpec(DEFAULT, 0, ctx, cs, jitter) == RunSpec(DEFAULT, 1, ctx, scored, jitter);
    assert RunSpec(DEFAULT, 1, ctx, scored, jitter) == RunSpec(DEFAULT, 2, ctx, healthy, jitter);
    if able != [] {
      assert RunSpec(DEFAULT, 2, ctx, healthy, jitter) == RunSpec(DEFAULT, 3, ctx, able, jitter);
      var roomy := FilterSpec(ContextWindow, ctx, able);
      if roomy != [] {
        LastRun(ctx, roomy, ScoreSpec(ContextWindow, 3, ctx, roomy, jitter), jitter);
      }
    }
  }

  lemma LastRun(ctx: Context, roomy: seq<Candidate>, a: seq<Candidate>, jitter: Jitter)
    requires roomy != [] && a == ScoreSpec(ContextWindow, 3, ctx, roomy, jitter)
    ensures RunSpec(DEFAULT, 4, ctx, a, jitter)
         == Ranked(ScoreSpec(LoadBalancing, 5, ctx, ScoreSpec(CostOptimization, 4, ctx, a, jitter), jitter))
  {
    var b := ScoreSpec(CostOptimization, 4, ctx, a, jitter);
    assert RunSpec(DEFAULT, 4, ctx, a, jitter) == RunSpec(DEFAULT, 5, ctx, b, jitter);
    assert RunSpec(DEFAULT, 5, ctx, b, jitter)
        == RunSpec(DEFAULT, 6, ctx, ScoreSpec(LoadBalancing, 5, ctx, b, jitter), jitter);
  }
}
