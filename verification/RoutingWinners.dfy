/** Who wins the default routing chain, whatever the random draws and however ties
    are ordered. */
module RoutingWinners {
  import opened Routing
  import opened RoutingTheorems

  ghost function Elements(ms: seq<Model>): set<Model> {
    set m | m in ms
  }

  ghost function Route(ctx: Context, ms: seq<Model>, jitter: Jitter): Outcome {
    ExecuteSpec(DEFAULT, ctx, Fresh(ms), jitter)
  }

  lemma FreshModels(ms: seq<Model>)
    ensures Models(Fresh(ms)) == Elements(ms)
    ensures forall c :: c in Fresh(ms) ==> c.score == 0.0
  {
    forall m | m in ms ensures m in Models(Fresh(ms)) {
      var i :| 0 <= i < |ms| && ms[i] == m;
      assert Fresh(ms)[i] in Fresh(ms);
    }
  }

  lemma {:induction false} LargestExists(s: set<Model>)
    requires s != {}
    ensures exists m :: m in s && forall n :: n in s ==> n.window <= m.window
    decreases |s|
  {
    var m :| m in s;
    if s != {m} {
      LargestExists(s - {m});
      var n :| n in s - {m} && forall o :: o in s - {m} ==> o.window <= n.window;
      assert if m.window <= n.window then forall o :: o in s ==> o.window <= n.window
             else forall o :: o in s ==> o.window <= m.window;
    } else {
      assert forall n :: n in s ==> n == m;
    }
  }

  /** The context filter leaves nobody only if a window is asked for, none fits, and
      all windows are negative. */
  lemma NobodyRoomyIff(ctx: Context, s: set<Model>)
    ensures Roomy(ctx, s) == {} <==>
      s == {} || (AsksForWindow(ctx) && forall m :: m in s ==> !LargeEnough(ctx, m) && m.window < 0)
  {
    if s != {} {
      LargestExists(s);
      var m :| m in s && forall n :: n in s ==> n.window <= m.window;
      assert m in Roomy(ctx, s) || m.window < 0 || Roomy(ctx, s) != {};
    }
  }

  /** Routing succeeds exactly if a model survives the filters, and then ranks
      exactly the survivors; a failure names the filter that left nobody. */
  lemma RoutingOutcome(ctx: Context, ms: seq<Model>, jitter: Jitter)
    ensures var out := Route(ctx, ms, jitter);
      var able := Able(ctx, Healthy(ctx, Preferable(ctx, Elements(ms))));
      && (out == NoCandidates <==> ms == [])
      && (out == NoneAfter("capability_filter") <==> ms != [] && able == {})
      && (out == NoneAfter("context_window") <==> able != {} && Survivors(ctx, Elements(ms)) == {})
      && (out.Ranked? <==> Survivors(ctx, Elements(ms)) != {})
      && (out.Ranked? ==> Models(out.candidates) == Survivors(ctx, Elements(ms)))
  {
    var cs := Fresh(ms);
    FreshModels(ms);
    NoModels(cs);
    FirstStages(ctx, cs, jitter);
    var able := AbleCandidates(ctx, cs, jitter);
    NoModels(able);
    if ms != [] {
      DefaultRun(ctx, cs, jitter);
      var roomy := FilterSpec(ContextWindow, ctx, able);
      ContextStage(ctx, able);
      NoModels(roomy);
      RankedModels(ctx, roomy, jitter);
    }
    NobodyRoomyIff(ctx, {});
  }

  lemma RankedModels(ctx: Context, roomy: seq<Candidate>, jitter: Jitter)
    ensures Models(ScoreSpec(LoadBalancing, 5, ctx,
                     ScoreSpec(CostOptimization, 4, ctx,
                       ScoreSpec(ContextWindow, 3, ctx, roomy, jitter), jitter), jitter)) == Models(roomy)
  {
    var a := ScoreSpec(ContextWindow, 3, ctx, roomy, jitter);
    var b := ScoreSpec(CostOptimization, 4, ctx, a, jitter);
    ScoredModels(ContextWindow, 3, ctx, roomy, jitter);
    ScoredModels(CostOptimization, 4, ctx, a, jitter);
    ScoredModels(LoadBalancing, 5, ctx, b, jitter);
  }

  /** With windows that are not negative, routing fails exactly if nobody that is
      left after the preference and health filters has all required capabilities. */
  lemma SucceedsIffSomebodyIsAble(ctx: Context, ms: seq<Model>, jitter: Jitter)
    requires ms != [] && forall m :: m in ms ==> m.window >= 0
    ensures Route(ctx, ms, jitter).Ranked? <==>
      exists m :: m in Healthy(ctx, Preferable(ctx, Elements(ms)))
        && "chat" in m.capabilities && (ctx.stream ==> "stream" in m.capabilities)
        && (ctx.tools ==> "tools" in m.capabilities) && (ctx.vision ==> "vision" in m.capabilities)
        && (ctx.json ==> "json_mode" in m.capabilities)
  {
    RoutingOutcome(ctx, ms, jitter);
    var healthy := Healthy(ctx, Preferable(ctx, Elements(ms)));
    NobodyRoomyIff(ctx, Able(ctx, healthy));
    forall m | m in healthy ensures m in Able(ctx, healthy) <==> HasRequired(ctx, m) {
    }
  }

  /** What every possible winner is like: a preferred candidate if there is one, not
      known to be unhealthy unless all such candidates are, able, and large enough
      for the context; if no able one is, then with the largest window of them. */
  lemma WinnerIsSound(ctx: Context, ms: seq<Model>, jitter: Jitter, w: Candidate)
    requires Route(ctx, ms, jitter).Ranked? && Winner(Route(ctx, ms, jitter).candidates, w)
    ensures w.model in ms && "chat" in w.model.capabilities
    ensures (ctx.stream ==> "stream" in w.model.capabilities) && (ctx.tools ==> "tools" in w.model.capabilities)
    ensures (ctx.vision ==> "vision" in w.model.capabilities) && (ctx.json ==> "json_mode" in w.model.capabilities)
    ensures (exists m :: m in ms && m.id in ctx.preferred) ==> w.model.id in ctx.preferred
    ensures KnownUnhealthy(ctx, w.model) ==>
      forall m :: m in Preferable(ctx, Elements(ms)) ==> KnownUnhealthy(ctx, m)
    ensures var able := Able(ctx, Healthy(ctx, Preferable(ctx, Elements(ms))));
      AsksForWindow(ctx) && !LargeEnough(ctx, w.model) ==>
        forall m :: m in able ==> !LargeEnough(ctx, m) && m.window <= w.model.window
  {
    RoutingOutcome(ctx, ms, jitter);
    assert w.model in Models(Route(ctx, ms, jitter).candidates);
    var preferable := Preferable(ctx, Elements(ms));
    var healthy := Healthy(ctx, preferable);
    var able := Able(ctx, healthy);
    assert w.model in able;
    if exists m :: m in ms && m.id in ctx.preferred {
      var m :| m in ms && m.id in ctx.preferred;
      assert m in Elements(ms) && IsPreferred(ctx, m);
    }
    forall m | m in preferable && KnownUnhealthy(ctx, w.model) ensures KnownUnhealthy(ctx, m) {
      assert w.model in healthy;
    }
  }

  // ---------- scores decide ----------

  ghost predicate Sane(ms: seq<Model>) {
    forall m :: m in ms ==> m.window >= 0 && Cost(m) >= 0.0
  }

  /** Each final score is the preference, window and cost bonus plus a draw, where
      windows and costs are compared among the survivors. */
  lemma FinalScores(ctx: Context, ms: seq<Model>, jitter: Jitter) returns (largest: int, smallest: real)
    requires Sane(ms) && Random(jitter) && Route(ctx, ms, jitter).Ranked?
    ensures var s := Survivors(ctx, Elements(ms)); var ranked := Route(ctx, ms, jitter).candidates;
      && LargestWindow(s, largest) && SmallestCost(s, smallest) && ScoredAll(ctx, ranked, largest, smallest, jitter)
  {
    var cs := Fresh(ms);
    FreshModels(ms);
    NoModels(cs);
    RoutingOutcome(ctx, ms, jitter);
    FirstStages(ctx, cs, jitter);
    DefaultRun(ctx, cs, jitter);
    var able := AbleCandidates(ctx, cs, jitter);
    var roomy := FilterSpec(ContextWindow, ctx, able);
    ContextStage(ctx, able);
    FiltersKeep(ContextWindow, ctx, able);
    var a := ScoreSpec(ContextWindow, 3, ctx, roomy, jitter);
    var b := ScoreSpec(CostOptimization, 4, ctx, a, jitter);
    LastScores(ctx, roomy, a, b, ScoreSpec(LoadBalancing, 5, ctx, b, jitter), jitter);
    largest, smallest := MaxWindow(roomy), MinCost(a);
  }

  lemma Ratio(x: real, y: real)
    requires 0.0 <= x <= y && y > 0.0
    ensures 0.0 <= x / y <= 1.0
  {
  }

  /** The bonuses other than the preference. */
  lemma BonusBounds(ctx: Context, s: set<Model>, m: Model, largest: int, smallest: real)
    requires m in s && LargestWindow(s, largest) && SmallestCost(s, smallest)
    requires forall n :: n in s ==> n.window >= 0 && Cost(n) >= 0.0
    ensures 0.0 <= WindowPart(ctx, m, largest) <= 5.0
    ensures 0.0 <= CostPart(ctx, m, smallest) <= 20.0
    ensures ctx.optimize != "cost" ==> CostPart(ctx, m, smallest) == 0.0
  {
    if largest > 0 { Ratio(m.window as real, largest as real); }
    if smallest > 0.0 { Ratio(smallest, Cost(m)); }
  }

  /** A winner scores at least as much as the candidate of any surviving model. */
  lemma WinnerAgainst(ctx: Context, ms: seq<Model>, jitter: Jitter, w: Candidate, m: Model)
    returns (largest: int, smallest: real, c: Candidate, j: real, k: real)
    requires Sane(ms) && Random(jitter)
    requires Route(ctx, ms, jitter).Ranked? && Winner(Route(ctx, ms, jitter).candidates, w)
    requires m in Survivors(ctx, Elements(ms))
    ensures w.model in Survivors(ctx, Elements(ms)) && c.model == m && c.score <= w.score
    ensures LargestWindow(Survivors(ctx, Elements(ms)), largest) && SmallestCost(Survivors(ctx, Elements(ms)), smallest)
    ensures Scored(ctx, c, largest, smallest, j) && Scored(ctx, w, largest, smallest, k)
    ensures 0.0 <= j < 0.1 && 0.0 <= k < 0.1
  {
    largest, smallest := FinalScores(ctx, ms, jitter);
    RoutingOutcome(ctx, ms, jitter);
    var ranked := Route(ctx, ms, jitter).candidates;
    assert m in Models(ranked) && w.model in Models(ranked);
    c :| c in ranked && c.model == m;
    var i: nat :| i < |ranked| && ranked[i] == c;
    var n: nat :| n < |ranked| && ranked[n] == w;
    j, k := jitter(5, i), jitter(5, n);
  }

  /** Preference dominates: without cost optimisation the winner has the best rank of
      all survivors; with it, no survivor is three or more ranks better. */
  lemma PreferenceDominates(ctx: Context, ms: seq<Model>, jitter: Jitter, w: Candidate, m: Model)
    requires Sane(ms) && Random(jitter)
    requires Route(ctx, ms, jitter).Ranked? && Winner(Route(ctx, ms, jitter).candidates, w)
    requires m in Survivors(ctx, Elements(ms))
    ensures PreferenceOrder(ctx.preferred, m.id)
         <= PreferenceOrder(ctx.preferred, w.model.id) + if ctx.optimize == "cost" then 2 else 0
  {
    var largest, smallest, c, j, k := WinnerAgainst(ctx, ms, jitter, w, m);
    var s := Survivors(ctx, Elements(ms));
    BonusBounds(ctx, s, m, largest, smallest);
    BonusBounds(ctx, s, w.model, largest, smallest);
    RanksFromScores(PreferenceOrder(ctx.preferred, m.id), PreferenceOrder(ctx.preferred, w.model.id),
                    if ctx.optimize == "cost" then 20.0 else 0.0);
  }

  lemma RanksFromScores(m: nat, w: nat, cost: real)
    requires m as real * 10.0 < w as real * 10.0 + 5.0 + cost + 0.1 && (cost == 0.0 || cost == 20.0)
    ensures m <= w + if cost == 0.0 then 0 else 2
  {
    if m > w {
      assert (m - w) as real * 10.0 < 5.0 + cost + 0.1;
    }
  }

  const CHAT := ["chat"]
  const SMALL := Model("small", "p", CHAT, 5000, 1000.0, 0.0)
  const LARGE := Model("large", "p", CHAT, 5000000, 1.0, 0.0)
  const CHEAPEST := Context(1, 0, false, false, false, false, "cost", ["small", "other", "large"], map[])

  lemma TwoRanksApart()
    ensures PreferenceOrder(CHEAPEST.preferred, "small") == 3
    ensures PreferenceOrder(CHEAPEST.preferred, "large") == 1
  {
    OrderIsLastPosition(CHEAPEST.preferred, "small", 0);
    OrderIsLastPosition(CHEAPEST.preferred, "large", 2);
  }

  lemma LargeScoresMore(x: Candidate, y: Candidate, j: real, k: real)
    requires x.model == SMALL && Scored(CHEAPEST, x, 5000000, 1.0, j) && j < 0.1
    requires y.model == LARGE && Scored(CHEAPEST, y, 5000000, 1.0, k) && k >= 0.0
    ensures x.score < y.score
  {
    TwoRanksApart();
    assert WindowPart(CHEAPEST, SMALL, 5000000) == 0.005;
    assert CostPart(CHEAPEST, SMALL, 1.0) == 0.02;
    assert WindowPart(CHEAPEST, LARGE, 5000000) == 5.0;
    assert CostPart(CHEAPEST, LARGE, 1.0) == 20.0;
  }

  /** With cost optimisation a gap of two ranks is not enough: here the model that is
      preferred by two ranks survives and loses, whatever the draws. */
  lemma TwoRanksCanLose(jitter: Jitter, w: Candidate)
    requires Random(jitter)
    ensures PreferenceOrder(CHEAPEST.preferred, "small") == PreferenceOrder(CHEAPEST.preferred, "large") + 2
    ensures SMALL in Survivors(CHEAPEST, Elements([SMALL, LARGE]))
    ensures var out := Route(CHEAPEST, [SMALL, LARGE], jitter);
      out.Ranked? && (Winner(out.candidates, w) ==> w.model == LARGE)
  {
    TwoRanksApart();
    var s := BothSurvive();
    assert LARGE in s && SMALL in s;
    RoutingOutcome(CHEAPEST, [SMALL, LARGE], jitter);
    if Winner(Route(CHEAPEST, [SMALL, LARGE], jitter).candidates, w) {
      LargeWins(jitter, w);
    }
  }

  lemma LargeWins(jitter: Jitter, w: Candidate)
    requires Random(jitter) && Route(CHEAPEST, [SMALL, LARGE], jitter).Ranked?
    requires Winner(Route(CHEAPEST, [SMALL, LARGE], jitter).candidates, w)
    ensures w.model == LARGE
  {
    var s := BothSurvive();
    assert LARGE in s;
    var largest, smallest, c, j, k := WinnerAgainst(CHEAPEST, [SMALL, LARGE], jitter, w, LARGE);
    assert largest == 5000000 && smallest == 1.0;
    if w.model == SMALL {
      LargeScoresMore(w, c, k, j);
    }
  }

  lemma BothSurvive() returns (s: set<Model>)
    ensures s == Survivors(CHEAPEST, Elements([SMALL, LARGE])) == {SMALL, LARGE}
  {
    var all := {SMALL, LARGE};
    assert Elements([SMALL, LARGE]) == all;
    assert forall m :: m in all ==> m == SMALL || m == LARGE;
    assert SMALL in all && IsPreferred(CHEAPEST, SMALL) && IsPreferred(CHEAPEST, LARGE);
    assert Preferable(CHEAPEST, all) == all;
    assert !KnownUnhealthy(CHEAPEST, SMALL) && Healthy(CHEAPEST, all) == all;
    assert HasRequired(CHEAPEST, SMALL) && HasRequired(CHEAPEST, LARGE) && Able(CHEAPEST, all) == all;
    assert LargeEnough(CHEAPEST, SMALL) && Roomy(CHEAPEST, all) == all;
    s := all;
  }

  // ---------- cost ----------

  predicate CostOnly(ctx: Context) {
    ctx.optimize == "cost" && ctx.preferred == [] && !AsksForWindow(ctx)
  }

  lemma CostFromScores(smallest: real, cost: real)
    requires 0.0 < smallest <= cost
    requires CostBonus(smallest, smallest) < CostBonus(cost, smallest) + 0.1
    ensures 199.0 * cost < 200.0 * smallest
  {
    assert smallest / smallest == 1.0;
    var r := smallest / cost;
    assert r > 0.995;
    RatioAbove(smallest, cost, r);
  }

  lemma RatioAbove(smallest: real, cost: real, r: real)
    requires cost > 0.0 && r > 0.995 && r == smallest / cost
    ensures 199.0 * cost < 200.0 * smallest
  {
    assert smallest == r * cost;
    assert (r - 0.995) * cost > 0.0;
    assert (r - 0.995) * cost == r * cost - 0.995 * cost;
  }

  /** Without preferences and context requirements, cost optimisation chooses a model
      whose cost is below 200/199 of the smallest surviving cost. */
  lemma NearOptimalCost(ctx: Context, ms: seq<Model>, jitter: Jitter, w: Candidate, cheapest: Model)
    requires Sane(ms) && Random(jitter) && CostOnly(ctx)
    requires forall n :: n in ms ==> Cost(n) > 0.0
    requires Route(ctx, ms, jitter).Ranked? && Winner(Route(ctx, ms, jitter).candidates, w)
    requires cheapest in Survivors(ctx, Elements(ms)) && SmallestCost(Survivors(ctx, Elements(ms)), Cost(cheapest))
    ensures 199.0 * (w.model.inputCost + w.model.outputCost) < 200.0 * (cheapest.inputCost + cheapest.outputCost)
  {
    var largest, smallest, c, j, k := WinnerAgainst(ctx, ms, jitter, w, cheapest);
    assert smallest == Cost(cheapest);
    CostFromScores(smallest, Cost(w.model));
  }

  // The bound is sharp: every larger cost below it can win.

  const ANY := Context(0, 0, false, false, false, false, "cost", [], map[])

  function Priced(id: string, cost: real): Model {
    Model(id, "p", CHAT, 0, cost, 0.0)
  }

  function Second(draw: real): Jitter {
    (k: nat, i: nat) => if i == 1 then draw else 0.0
  }

  lemma {:induction false} KeepAll(t: Test, cs: seq<Candidate>)
    requires forall c :: c in cs ==> t.Passes(c.model)
    ensures Keep(t, cs) == cs
    decreases |cs|
  {
    if cs != [] {
      var front, last := cs[..|cs| - 1], cs[|cs| - 1];
      assert cs == front + [last] && last in cs;
      KeepAll(t, front);
    }
  }

  lemma AnyFiltersNobody(cs: seq<Candidate>, jitter: Jitter)
    requires forall c :: c in cs ==> c.model.capabilities == CHAT
    ensures FilterSpec(ContextWindow, ANY, AbleCandidates(ANY, cs, jitter)) == cs
  {
    assert RequiredCapabilities(ANY) == CHAT;
    KeepAll(Capable(CHAT), cs);
    AnyScoresNobody(cs, jitter);
    assert FilterSpec(UserPreference, ANY, cs) == cs && FilterSpec(HealthFilter, ANY, cs) == cs;
    assert FilterSpec(CapabilityFilter, ANY, cs) == cs;
    assert AbleCandidates(ANY, cs, jitter) == cs;
  }

  lemma AnyScoresNobody(cs: seq<Candidate>, jitter: Jitter)
    ensures ScoreSpec(UserPreference, 0, ANY, cs, jitter) == cs
  {
  }

  lemma RatioBetween(lo: real, hi: real, r: real)
    requires hi > 0.0 && lo == r * hi && lo < hi && 199.0 * hi < 200.0 * lo
    ensures 0.995 < r < 1.0
  {
    assert (1.0 - r) * hi == hi - lo;
    Positive(1.0 - r, hi, hi - lo);
    var above := lo - 0.995 * hi;
    assert above > 0.0;
    assert (r - 0.995) * hi == above;
    Positive(r - 0.995, hi, above);
  }

  lemma Positive(x: real, y: real, product: real)
    requires x * y == product && product > 0.0 && y > 0.0
    ensures x > 0.0
  {
  }

  lemma DrawFor(lo: real, hi: real)
    requires 0.0 < lo < hi && 199.0 * hi < 200.0 * lo
    ensures 0.0 <= 20.0 - CostBonus(hi, lo) < 0.1
  {
    RatioBetween(lo, hi, lo / hi);
  }

  lemma TwoPriced(cs: seq<Candidate>, lo: real, hi: real)
    requires 0.0 < lo < hi && cs == Fresh([Priced("a", lo), Priced("b", hi)])
    ensures MinCost(cs) == lo
  {
    assert cs[..1] == [cs[0]] && cs[..1][..0] == [];
    assert MinCost(cs[..1]) == lo;
  }

  lemma AnyRun(cs: seq<Candidate>, d: seq<Candidate>, jitter: Jitter)
    requires cs != [] && forall c :: c in cs ==> c.model.capabilities == CHAT && c.score == 0.0
    requires d == ScoreSpec(LoadBalancing, 5, ANY, ScoreSpec(CostOptimization, 4, ANY, cs, jitter), jitter)
    ensures RunSpec(DEFAULT, 0, ANY, cs, jitter) == Ranked(d)
    ensures ScoreSpec(ContextWindow, 3, ANY, cs, jitter) == cs
  {
    AnyFiltersNobody(cs, jitter);
    DefaultRun(ANY, cs, jitter);
    assert ScoreSpec(ContextWindow, 3, ANY, cs, jitter) == cs;
    assert AbleCandidates(ANY, cs, jitter) == cs;
  }

  lemma DearerScores(cs: seq<Candidate>, d: seq<Candidate>, lo: real, hi: real, jitter: Jitter)
    requires 0.0 < lo < hi && cs == Fresh([Priced("a", lo), Priced("b", hi)])
    requires jitter(5, 0) == 0.0 && jitter(5, 1) == 20.0 - CostBonus(hi, lo)
    requires d == ScoreSpec(LoadBalancing, 5, ANY, ScoreSpec(CostOptimization, 4, ANY, cs, jitter), jitter)
    ensures d[0].score == d[1].score == 20.0 && d[1].model == Priced("b", hi)
  {
    var b := ScoreSpec(CostOptimization, 4, ANY, cs, jitter);
    TwoPriced(cs, lo, hi);
    CostScores(ANY, 4, cs, jitter, 0);
    CostScores(ANY, 4, cs, jitter, 1);
    JitterScores(ANY, 5, b, jitter, 0);
    JitterScores(ANY, 5, b, jitter, 1);
    assert CostBonus(lo, lo) == 20.0 by { assert lo / lo == 1.0; }
  }

  lemma DearerCanWin(lo: real, hi: real) returns (jitter: Jitter, w: Candidate)
    requires 0.0 < lo < hi && 199.0 * hi < 200.0 * lo
    ensures Random(jitter) && w.model == Priced("b", hi)
    ensures var out := Route(ANY, [Priced("a", lo), Priced("b", hi)], jitter);
      out.Ranked? && Winner(out.candidates, w)
  {
    DrawFor(lo, hi);
    jitter := Second(20.0 - CostBonus(hi, lo));
    var cs := Fresh([Priced("a", lo), Priced("b", hi)]);
    var d := ScoreSpec(LoadBalancing, 5, ANY, ScoreSpec(CostOptimization, 4, ANY, cs, jitter), jitter);
    AnyRun(cs, d, jitter);
    DearerScores(cs, d, lo, hi, jitter);
    w := d[1];
  }
}
