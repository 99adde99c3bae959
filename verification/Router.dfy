/** The strategy chain run on candidate objects: filters append to result slices,
    scorers update candidates in place, and the result is sorted by score. */
module Router {
  import opened Routing
  import opened StrategyChain

  class ScoredCandidate {
    const model: Model
    var score: real
    var breakdown: map<string, real>
    var reasons: seq<string>

    function View(): Candidate
      reads this
    {
      Candidate(model, score, breakdown, reasons)
    }

    constructor (model: Model)
      ensures View() == Candidate(model, 0.0, map[], [])
    {
      this.model := model;
      score, breakdown, reasons := 0.0, map[], [];
    }

    method AddScore(strategy: string, bonus: real, reason: string)
      modifies this
      ensures View() == Add(old(View()), strategy, bonus, reason)
      ensures score == old(score) + bonus && breakdown == old(breakdown)[strategy := bonus]
      ensures reasons == if reason == "" then old(reasons) else old(reasons) + [reason]
    {
      score := score + bonus;
      breakdown := breakdown[strategy := bonus];
      if reason != "" {
        reasons := reasons + [reason];
      }
    }
  }

  function Views(cs: seq<ScoredCandidate>): seq<Candidate>
    reads cs
  {
    if cs == [] then [] else Views(cs[..|cs| - 1]) + [cs[|cs| - 1].View()]
  }

  lemma {:induction false} ViewsAt(cs: seq<ScoredCandidate>)
    ensures |Views(cs)| == |cs| && forall i :: 0 <= i < |cs| ==> Views(cs)[i] == cs[i].View()
    decreases |cs|
  {
    if cs != [] {
      ViewsAt(cs[..|cs| - 1]);
    }
  }

  lemma ViewsAppend(cs: seq<ScoredCandidate>, c: ScoredCandidate)
    ensures Views(cs + [c]) == Views(cs) + [c.View()]
  {
    assert (cs + [c])[..|cs|] == cs;
  }

  lemma Front<T>(cs: seq<T>, i: nat)
    requires i < |cs|
    ensures cs[..i + 1][..i] == cs[..i] && |cs[..i + 1]| == i + 1 && cs[..i + 1][i] == cs[i]
  {
  }

  /** Different positions hold different objects. */
  ghost predicate Apart(cs: seq<ScoredCandidate>) {
    forall i, j :: 0 <= i < j < |cs| ==> cs[i] != cs[j]
  }

  // ---------- filters ----------

  lemma KeepNext(t: Test, cs: seq<Candidate>, i: nat)
    requires i < |cs|
    ensures Keep(t, cs[..i + 1]) == Keep(t, cs[..i]) + if t.Passes(cs[i].model) then [cs[i]] else []
  {
    Front(cs, i);
  }

  lemma StillApart(candidates: seq<ScoredCandidate>, i: nat, result: seq<ScoredCandidate>)
    requires Apart(candidates) && i < |candidates|
    requires Apart(result) && forall c :: c in result ==> c in candidates[..i]
    ensures Apart(result + [candidates[i]])
  {
    assert candidates[i] !in candidates[..i];
  }

  /** `result` is what the loop of Select has kept of the first `i` candidates. */
  ghost predicate KeptSoFar(t: Test, candidates: seq<ScoredCandidate>, i: nat, result: seq<ScoredCandidate>)
    requires i <= |candidates|
    reads candidates, result
  {
    && |Views(candidates)| == |candidates|
    && Views(result) == Keep(t, Views(candidates)[..i])
    && Apart(result) && forall c :: c in result ==> c in candidates[..i]
  }

  lemma SelectNext(t: Test, candidates: seq<ScoredCandidate>, i: nat, result: seq<ScoredCandidate>)
    requires Apart(candidates) && i < |candidates| && KeptSoFar(t, candidates, i, result)
    ensures var c := candidates[i];
      KeptSoFar(t, candidates, i + 1, if t.Passes(c.model) then result + [c] else result)
  {
    ViewsAt(candidates);
    KeepNext(t, Views(candidates), i);
    Front(candidates, i);
    ViewsAppend(result, candidates[i]);
    StillApart(candidates, i, result);
  }

  /** The loop that appends what passes a test. */
  method Select(t: Test, candidates: seq<ScoredCandidate>) returns (result: seq<ScoredCandidate>)
    requires Apart(candidates)
    ensures Views(result) == Keep(t, Views(candidates)) && Apart(result)
    ensures forall c :: c in result ==> c in candidates
  {
    ViewsAt(candidates);
    result := [];
    var i := 0;
    while i < |candidates|
      invariant 0 <= i <= |candidates| && KeptSoFar(t, candidates, i, result)
    {
      SelectNext(t, candidates, i, result);
      if t.Passes(candidates[i].model) {
        result := result + [candidates[i]];
      }
      i := i + 1;
    }
    assert Views(candidates)[..i] == Views(candidates);
  }

  method LargestWindow(candidates: seq<ScoredCandidate>) returns (max: int)
    ensures max == MaxWindow(Views(candidates))
  {
    ghost var views := Views(candidates);
    ViewsAt(candidates);
    max := 0;
    var i := 0;
    while i < |candidates|
      invariant 0 <= i <= |candidates| && max == MaxWindow(views[..i])
    {
      Front(views, i);
      if candidates[i].model.window > max {
        max := candidates[i].model.window;
      }
      i := i + 1;
    }
    assert views[..|views|] == views;
  }

  lemma NoViews(cs: seq<ScoredCandidate>)
    ensures Views(cs) == [] <==> cs == []
  {
  }

  method SelectOrAll(t: Test, candidates: seq<ScoredCandidate>) returns (result: seq<ScoredCandidate>)
    requires Apart(candidates)
    ensures Views(result) == KeepOrAll(t, Views(candidates)) && Apart(result)
    ensures forall c :: c in result ==> c in candidates
  {
    result := Select(t, candidates);
    NoViews(result);
    if |result| == 0 {
      result := candidates;
    }
  }

  method SelectLargest(candidates: seq<ScoredCandidate>) returns (result: seq<ScoredCandidate>)
    requires Apart(candidates)
    ensures Views(result) == Keep(HasWindow(MaxWindow(Views(candidates))), Views(candidates)) && Apart(result)
    ensures forall c :: c in result ==> c in candidates
  {
    var max := LargestWindow(candidates);
    result := Select(HasWindow(max), candidates);
  }

  lemma RoomySpec(ctx: Context, cs: seq<Candidate>)
    ensures NoContextNeeded(ctx) ==> FilterSpec(ContextWindow, ctx, cs) == cs
    ensures !NoContextNeeded(ctx) ==>
      var fitting := Keep(Fits(RequiredWindow(ctx)), cs);
      FilterSpec(ContextWindow, ctx, cs) == if fitting != [] then fitting else Keep(HasWindow(MaxWindow(cs)), cs)
  {
  }

  method SelectRoomy(ctx: Context, candidates: seq<ScoredCandidate>) returns (result: seq<ScoredCandidate>)
    requires Apart(candidates)
    ensures Views(result) == FilterSpec(ContextWindow, ctx, Views(candidates)) && Apart(result)
    ensures forall c :: c in result ==> c in candidates
  {
    RoomySpec(ctx, Views(candidates));
    if ctx.estimatedTokens == 0 && ctx.minContextWindow == 0 {
      return candidates;
    }
    var required := ctx.estimatedTokens + RESPONSE_BUFFER;
    if ctx.minContextWindow > required {
      required := ctx.minContextWindow;
    }
    result := Select(Fits(required), candidates);
    NoViews(result);
    if |result| == 0 {
      result := SelectLargest(candidates);
    }
  }

  method Filter(s: Strategy, ctx: Context, candidates: seq<ScoredCandidate>) returns (result: seq<ScoredCandidate>)
    requires Apart(candidates)
    ensures Views(result) == FilterSpec(s, ctx, Views(candidates)) && Apart(result)
    ensures forall c :: c in result ==> c in candidates
  {
    match s
    case UserPreference =>
      if |ctx.preferred| == 0 { return candidates; }
      result := SelectOrAll(Preferred(ctx.preferred), candidates);
    case HealthFilter =>
      if |ctx.health| == 0 { return candidates; }
      result := SelectOrAll(NotUnhealthy(ctx.health), candidates);
    case CapabilityFilter => result := Select(Capable(RequiredCapabilities(ctx)), candidates);
    case ContextWindow => result := SelectRoomy(ctx, candidates);
    case Custom(_, _, keep, _, _) => result := Select(Chosen(keep), candidates);
    case _ => result := candidates;
  }

  // ---------- scores ----------

  lemma {:induction false} OrderAppend(preferred: seq<string>, x: string, id: string)
    ensures PreferenceOrder(preferred + [x], id) ==
      if id == x then 1 else if id in preferred then PreferenceOrder(preferred, id) + 1 else 0
    decreases |preferred|
  {
    if preferred == [] {
      assert [] + [x] == [x];
    } else {
      assert (preferred + [x])[1..] == preferred[1..] + [x];
      assert preferred == [preferred[0]] + preferred[1..];
      OrderAppend(preferred[1..], x, id);
    }
  }

  method PreferenceOrders(preferred: seq<string>) returns (orders: map<string, int>)
    ensures forall id :: id in orders <==> id in preferred
    ensures forall id :: id in preferred ==> orders[id] == PreferenceOrder(preferred, id)
  {
    orders := map[];
    var i := 0;
    while i < |preferred|
      invariant 0 <= i <= |preferred|
      invariant forall id :: id in orders <==> id in preferred[..i]
      invariant forall id :: id in orders ==> orders[id] == PreferenceOrder(preferred[..i], id) + |preferred| - i
    {
      assert preferred[..i + 1] == preferred[..i] + [preferred[i]];
      forall id: string { OrderAppend(preferred[..i], preferred[i], id); }
      orders := orders[preferred[i] := |preferred| - i];
      i := i + 1;
    }
    assert preferred[..|preferred|] == preferred;
  }

  method SmallestCost(candidates: seq<ScoredCandidate>) returns (min: real)
    ensures min == MinCost(Views(candidates))
  {
    ghost var views := Views(candidates);
    ViewsAt(candidates);
    min := -1.0;
    var i := 0;
    while i < |candidates|
      invariant 0 <= i <= |candidates| && min == MinCost(views[..i])
    {
      Front(views, i);
      var cost := candidates[i].model.inputCost + candidates[i].model.outputCost;
      if min < 0.0 || cost < min {
        min := cost;
      }
      i := i + 1;
    }
    assert views[..|views|] == views;
  }

  lemma NoPreferences(k: nat, ctx: Context, cs: seq<Candidate>, jitter: Jitter)
    requires ctx.preferred == []
    ensures ScoreSpec(UserPreference, k, ctx, cs, jitter) == cs
  {
  }

  lemma NoWindows(k: nat, ctx: Context, cs: seq<Candidate>, jitter: Jitter)
    requires NoContextNeeded(ctx) || MaxWindow(cs) == 0
    ensures ScoreSpec(ContextWindow, k, ctx, cs, jitter) == cs
  {
  }

  lemma NoCosts(k: nat, ctx: Context, cs: seq<Candidate>, jitter: Jitter)
    requires ctx.optimize != "cost" || MinCost(cs) <= 0.0
    ensures ScoreSpec(CostOptimization, k, ctx, cs, jitter) == cs
  {
  }

  /** A scoring loop has treated the first `i` candidates. */
  ghost predicate Progress(s: Strategy, k: nat, ctx: Context, jitter: Jitter, before: seq<Candidate>,
                           cs: seq<ScoredCandidate>, i: nat)
    reads cs
  {
    && |before| == |cs|
    && (forall n :: 0 <= n < |cs| && n < i ==> cs[n].View() == ScoreOne(s, k, ctx, before, jitter, n, before[n]))
    && (forall n :: i <= n < |cs| ==> cs[n].View() == before[n])
  }

  lemma Started(s: Strategy, k: nat, ctx: Context, jitter: Jitter, cs: seq<ScoredCandidate>)
    ensures Progress(s, k, ctx, jitter, Views(cs), cs, 0)
  {
    ViewsAt(cs);
  }

  lemma Finished(s: Strategy, k: nat, ctx: Context, jitter: Jitter, before: seq<Candidate>, cs: seq<ScoredCandidate>)
    requires Progress(s, k, ctx, jitter, before, cs, |cs|)
    ensures Views(cs) == ScoreSpec(s, k, ctx, before, jitter)
  {
    ViewsAt(cs);
  }

  /** AddScore on one candidate of a list leaves the others alone. */
  method AddTo(s: Strategy, ghost k: nat, ghost ctx: Context, ghost jitter: Jitter, ghost before: seq<Candidate>,
               candidates: seq<ScoredCandidate>, i: nat, bonus: real, reason: string)
    requires Apart(candidates) && i < |candidates| && Progress(s, k, ctx, jitter, before, candidates, i)
    requires ScoreOne(s, k, ctx, before, jitter, i, before[i]) == Add(before[i], s.Name(), bonus, reason)
    modifies candidates[i]
    ensures Progress(s, k, ctx, jitter, before, candidates, i + 1)
  {
    candidates[i].AddScore(s.Name(), bonus, reason);
  }

  ghost predicate OrdersOf(ctx: Context, orders: map<string, int>) {
    && (forall id :: id in orders <==> id in ctx.preferred)
    && (forall id :: id in ctx.preferred ==> orders[id] == PreferenceOrder(ctx.preferred, id))
  }

  lemma PreferenceOne(k: nat, ctx: Context, cs: seq<Candidate>, jitter: Jitter, i: nat)
    requires i < |cs|
    ensures var id := cs[i].model.id;
      ScoreOne(UserPreference, k, ctx, cs, jitter, i, cs[i]) ==
        if id in ctx.preferred
        then Add(cs[i], UserPreference.Name(), PreferenceOrder(ctx.preferred, id) as real * 10.0, "user preference")
        else cs[i]
  {
  }

  method AddPreferenceBonus(ghost k: nat, ghost ctx: Context, ghost jitter: Jitter, ghost before: seq<Candidate>,
                            candidates: seq<ScoredCandidate>, i: nat, orders: map<string, int>)
    requires Apart(candidates) && i < |candidates| && OrdersOf(ctx, orders)
    requires Progress(UserPreference, k, ctx, jitter, before, candidates, i)
    modifies candidates[i]
    ensures Progress(UserPreference, k, ctx, jitter, before, candidates, i + 1)
  {
    var id := candidates[i].model.id;
    PreferenceOne(k, ctx, before, jitter, i);
    assert candidates[i].View() == before[i];
    if id in orders {
      AddTo(UserPreference, k, ctx, jitter, before, candidates, i, orders[id] as real * 10.0, "user preference");
    }
  }

  method AddPreferenceBonuses(ctx: Context, candidates: seq<ScoredCandidate>, orders: map<string, int>,
                              ghost k: nat, ghost jitter: Jitter)
    requires Apart(candidates) && OrdersOf(ctx, orders)
    modifies candidates
    ensures Views(candidates) == ScoreSpec(UserPreference, k, ctx, old(Views(candidates)), jitter)
  {
    ghost var before := Views(candidates);
    Started(UserPreference, k, ctx, jitter, candidates);
    var i := 0;
    while i < |candidates|
      invariant 0 <= i <= |candidates| && Progress(UserPreference, k, ctx, jitter, before, candidates, i)
    {
      AddPreferenceBonus(k, ctx, jitter, before, candidates, i, orders);
      i := i + 1;
    }
    Finished(UserPreference, k, ctx, jitter, before, candidates);
  }

  method ScorePreference(ctx: Context, candidates: seq<ScoredCandidate>, ghost k: nat, ghost jitter: Jitter)
    requires Apart(candidates)
    modifies candidates
    ensures Views(candidates) == ScoreSpec(UserPreference, k, ctx, old(Views(candidates)), jitter)
  {
    ghost var before := Views(candidates);
    if |ctx.preferred| == 0 {
      NoPreferences(k, ctx, before, jitter);
      return;
    }
    var orders := PreferenceOrders(ctx.preferred);
    AddPreferenceBonuses(ctx, candidates, orders, k, jitter);
  }

  method AddWindowBonuses(ctx: Context, candidates: seq<ScoredCandidate>, max: int, ghost k: nat, ghost jitter: Jitter)
    requires Apart(candidates) && max == MaxWindow(Views(candidates)) != 0 && !NoContextNeeded(ctx)
    modifies candidates
    ensures Views(candidates) == ScoreSpec(ContextWindow, k, ctx, old(Views(candidates)), jitter)
  {
    ghost var before := Views(candidates);
    Started(ContextWindow, k, ctx, jitter, candidates);
    var i := 0;
    while i < |candidates|
      invariant 0 <= i <= |candidates| && Progress(ContextWindow, k, ctx, jitter, before, candidates, i)
    {
      var c := candidates[i];
      AddTo(ContextWindow, k, ctx, jitter, before, candidates, i, WindowBonus(c.model.window, max), "context window");
      i := i + 1;
    }
    Finished(ContextWindow, k, ctx, jitter, before, candidates);
  }

  method ScoreWindow(ctx: Context, candidates: seq<ScoredCandidate>, ghost k: nat, ghost jitter: Jitter)
    requires Apart(candidates)
    modifies candidates
    ensures Views(candidates) == ScoreSpec(ContextWindow, k, ctx, old(Views(candidates)), jitter)
  {
    ghost var before := Views(candidates);
    if ctx.estimatedTokens == 0 && ctx.minContextWindow == 0 {
      NoWindows(k, ctx, before, jitter);
      return;
    }
    var max := LargestWindow(candidates);
    if max == 0 {
      NoWindows(k, ctx, before, jitter);
      return;
    }
    AddWindowBonuses(ctx, candidates, max, k, jitter);
  }

  lemma CostOne(k: nat, ctx: Context, cs: seq<Candidate>, jitter: Jitter, i: nat)
    requires i < |cs| && MinCost(cs) > 0.0 && ctx.optimize == "cost"
    ensures ScoreOne(CostOptimization, k, ctx, cs, jitter, i, cs[i]) ==
      if Cost(cs[i].model) > 0.0
      then Add(cs[i], CostOptimization.Name(), CostBonus(Cost(cs[i].model), MinCost(cs)), "cost optimization")
      else cs[i]
  {
  }

  method AddCostBonus(ghost k: nat, ghost ctx: Context, ghost jitter: Jitter, ghost before: seq<Candidate>,
                      candidates: seq<ScoredCandidate>, i: nat, min: real)
    requires Apart(candidates) && i < |candidates|
    requires Progress(CostOptimization, k, ctx, jitter, before, candidates, i)
    requires min == MinCost(before) > 0.0 && ctx.optimize == "cost"
    modifies candidates[i]
    ensures Progress(CostOptimization, k, ctx, jitter, before, candidates, i + 1)
  {
    var c := candidates[i];
    var cost := c.model.inputCost + c.model.outputCost;
    CostOne(k, ctx, before, jitter, i);
    assert c.View() == before[i];
    if cost > 0.0 {
      AddTo(CostOptimization, k, ctx, jitter, before, candidates, i, CostBonus(cost, min), "cost optimization");
    }
  }

  method AddCostBonuses(ctx: Context, candidates: seq<ScoredCandidate>, min: real, ghost k: nat, ghost jitter: Jitter)
    requires Apart(candidates) && min == MinCost(Views(candidates)) > 0.0 && ctx.optimize == "cost"
    modifies candidates
    ensures Views(candidates) == ScoreSpec(CostOptimization, k, ctx, old(Views(candidates)), jitter)
  {
    ghost var before := Views(candidates);
    Started(CostOptimization, k, ctx, jitter, candidates);
    var i := 0;
    while i < |candidates|
      invariant 0 <= i <= |candidates| && Progress(CostOptimization, k, ctx, jitter, before, candidates, i)
    {
      AddCostBonus(k, ctx, jitter, before, candidates, i, min);
      i := i + 1;
    }
    Finished(CostOptimization, k, ctx, jitter, before, candidates);
  }

  method ScoreCost(ctx: Context, candidates: seq<ScoredCandidate>, ghost k: nat, ghost jitter: Jitter)
    requires Apart(candidates)
    modifies candidates
    ensures Views(candidates) == ScoreSpec(CostOptimization, k, ctx, old(Views(candidates)), jitter)
  {
    ghost var before := Views(candidates);
    if ctx.optimize != "cost" {
      NoCosts(k, ctx, before, jitter);
      return;
    }
    var min := SmallestCost(candidates);
    if min <= 0.0 {
      NoCosts(k, ctx, before, jitter);
      return;
    }
    AddCostBonuses(ctx, candidates, min, k, jitter);
  }

  method ScoreJitter(ctx: Context, candidates: seq<ScoredCandidate>, ghost k: nat, ghost jitter: Jitter,
                     draws: nat -> real)
    requires Apart(candidates) && forall i :: draws(i) == jitter(k, i)
    modifies candidates
    ensures Views(candidates) == ScoreSpec(LoadBalancing, k, ctx, old(Views(candidates)), jitter)
  {
    ghost var before := Views(candidates);
    Started(LoadBalancing, k, ctx, jitter, candidates);
    var i := 0;
    while i < |candidates|
      invariant 0 <= i <= |candidates| && Progress(LoadBalancing, k, ctx, jitter, before, candidates, i)
    {
      var c := candidates[i];
      AddTo(LoadBalancing, k, ctx, jitter, before, candidates, i, draws(i), "load balancing");
      i := i + 1;
    }
    Finished(LoadBalancing, k, ctx, jitter, before, candidates);
  }

  method ScoreCustom(s: Strategy, ctx: Context, candidates: seq<ScoredCandidate>, ghost k: nat, ghost jitter: Jitter)
    requires Apart(candidates) && s.Custom?
    modifies candidates
    ensures Views(candidates) == ScoreSpec(s, k, ctx, old(Views(candidates)), jitter)
  {
    ghost var before := Views(candidates);
    Started(s, k, ctx, jitter, candidates);
    var i := 0;
    while i < |candidates|
      invariant 0 <= i <= |candidates| && Progress(s, k, ctx, jitter, before, candidates, i)
    {
      var c := candidates[i];
      AddTo(s, k, ctx, jitter, before, candidates, i, s.bonus(c.model), s.reason);
      i := i + 1;
    }
    Finished(s, k, ctx, jitter, before, candidates);
  }

  method Score(s: Strategy, ctx: Context, candidates: seq<ScoredCandidate>, ghost k: nat, ghost jitter: Jitter,
               draws: nat -> real)
    requires Apart(candidates) && forall i :: draws(i) == jitter(k, i)
    modifies candidates
    ensures Views(candidates) == ScoreSpec(s, k, ctx, old(Views(candidates)), jitter)
  {
    match s
    case UserPreference => ScorePreference(ctx, candidates, k, jitter);
    case ContextWindow => ScoreWindow(ctx, candidates, k, jitter);
    case CostOptimization => ScoreCost(ctx, candidates, k, jitter);
    case LoadBalancing => ScoreJitter(ctx, candidates, k, jitter, draws);
    case Custom(_, _, _, _, _) => ScoreCustom(s, ctx, candidates, k, jitter);
    case _ => assert ScoreSpec(s, k, ctx, Views(candidates), jitter) == Views(candidates);
  }

  // ---------- sorting and execution ----------

  ghost predicate DescendingScores(cs: seq<ScoredCandidate>)
    reads cs
  {
    forall i, j :: 0 <= i < j < |cs| ==> cs[i].score >= cs[j].score
  }

  lemma InsertedByScore(r: seq<ScoredCandidate>, n: nat, c: ScoredCandidate)
    requires DescendingScores(r) && n <= |r|
    requires forall m :: 0 <= m < n ==> r[m].score >= c.score
    requires n < |r| ==> r[n].score < c.score
    ensures var t := r[..n] + [c] + r[n..]; DescendingScores(t) && forall d :: d in t <==> d in r + [c]
  {
    assert r == r[..n] + r[n..];
  }

  /** A sort by descending score; callers may rely only on what any such sort
      ensures, so ties may come out in any order. */
  method SortByScore(cs: seq<ScoredCandidate>) returns (r: seq<ScoredCandidate>)
    ensures DescendingScores(r) && |r| == |cs| && forall c :: c in r <==> c in cs
  {
    r := [];
    var i := 0;
    while i < |cs|
      invariant 0 <= i == |r| <= |cs|
      invariant DescendingScores(r) && forall c :: c in r <==> c in cs[..i]
    {
      var n := 0;
      while n < |r| && r[n].score >= cs[i].score
        invariant 0 <= n <= |r|
        invariant forall m :: 0 <= m < n ==> r[m].score >= cs[i].score
      {
        n := n + 1;
      }
      InsertedByScore(r, n, cs[i]);
      assert cs[..i + 1] == cs[..i] + [cs[i]];
      r := r[..n] + [cs[i]] + r[n..];
      i := i + 1;
    }
  }

  function Join(reasons: seq<string>): string {
    if reasons == [] then "" else
    if |reasons| == 1 then reasons[0] else
    reasons[0] + "; " + Join(reasons[1..])
  }

  datatype Result = Failed(filter: string) | NoneGiven | Routed(model: Model, score: real, reason: string)

  /** The result reports some winner, and fails as the specification does. */
  ghost predicate Reports(out: Outcome, r: Result) {
    match out
    case NoCandidates => r == NoneGiven
    case NoneAfter(filter) => r == Failed(filter)
    case Ranked(cs) => exists w :: Winner(cs, w) && r == Routed(w.model, w.score, Join(w.reasons))
  }

  lemma InsertedOnce<T>(r: seq<T>, n: nat, s: T)
    requires n <= |r|
    ensures multiset(r[..n] + [s] + r[n..]) == multiset(r) + multiset{s}
  {
    assert r == r[..n] + r[n..];
  }

  lemma InsertedInOrder(r: seq<Strategy>, n: nat, s: Strategy)
    requires Descending(r) && n <= |r|
    requires forall m :: 0 <= m < n ==> r[m].Priority() >= s.Priority()
    requires n < |r| ==> r[n].Priority() < s.Priority()
    ensures Descending(r[..n] + [s] + r[n..])
  {
  }

  lemma Inserted(ss: seq<Strategy>, r: seq<Strategy>, n: nat, s: Strategy)
    requires Sorted(ss, r) && n <= |r|
    requires forall m :: 0 <= m < n ==> r[m].Priority() >= s.Priority()
    requires n < |r| ==> r[n].Priority() < s.Priority()
    ensures Sorted(ss + [s], r[..n] + [s] + r[n..])
  {
    InsertedOnce(r, n, s);
    InsertedInOrder(r, n, s);
  }

  method Place(s: Strategy, r: seq<Strategy>) returns (n: nat)
    ensures n <= |r| && forall m :: 0 <= m < n ==> r[m].Priority() >= s.Priority()
    ensures n < |r| ==> r[n].Priority() < s.Priority()
  {
    n := 0;
    while n < |r| && r[n].Priority() >= s.Priority()
      invariant n <= |r|
      invariant forall m :: 0 <= m < n ==> r[m].Priority() >= s.Priority()
    {
      n := n + 1;
    }
  }

  method SortStrategies(ss: seq<Strategy>) returns (r: seq<Strategy>)
    ensures Sorted(ss, r)
  {
    r := [];
    var i := 0;
    while i < |ss|
      invariant 0 <= i <= |ss|
      invariant Sorted(ss[..i], r)
    {
      var n := Place(ss[i], r);
      Inserted(ss[..i], r, n, ss[i]);
      assert ss[..i + 1] == ss[..i] + [ss[i]];
      r := r[..n] + [ss[i]] + r[n..];
      i := i + 1;
    }
    assert ss[..|ss|] == ss;
  }

  lemma FirstWins(cs: seq<ScoredCandidate>, sorted: seq<ScoredCandidate>)
    requires sorted != [] && DescendingScores(sorted) && forall c :: c in sorted <==> c in cs
    ensures Winner(Views(cs), sorted[0].View())
  {
    ViewsAt(cs);
    assert sorted[0] in cs;
    forall v | v in Views(cs) ensures v.score <= sorted[0].View().score {
      var i :| 0 <= i < |cs| && v == cs[i].View();
      assert cs[i] in sorted;
    }
  }

  lemma RunStep(ss: seq<Strategy>, k: nat, ctx: Context, cs: seq<Candidate>, jitter: Jitter)
    requires k < |ss|
    ensures var kept := FilterSpec(ss[k], ctx, cs);
      RunSpec(ss, k, ctx, cs, jitter) ==
        if kept == [] then NoneAfter(ss[k].Name())
        else RunSpec(ss, k + 1, ctx, ScoreSpec(ss[k], k, ctx, kept, jitter), jitter)
  {
  }

  /** One turn of Execute's loop; it ends the loop if nothing is left. */
  method Apply(ss: seq<Strategy>, k: nat, ctx: Context, candidates: seq<ScoredCandidate>, jitter: Jitter)
    returns (result: seq<ScoredCandidate>)
    requires Apart(candidates) && k < |ss|
    modifies candidates
    ensures Apart(result) && forall c :: c in result ==> c in candidates
    ensures RunSpec(ss, k, ctx, old(Views(candidates)), jitter)
         == if result == [] then NoneAfter(ss[k].Name()) else RunSpec(ss, k + 1, ctx, Views(result), jitter)
  {
    RunStep(ss, k, ctx, Views(candidates), jitter);
    result := Filter(ss[k], ctx, candidates);
    NoViews(result);
    assert forall i :: 0 <= i < |result| ==> result[i] in candidates;
    Score(ss[k], ctx, result, k, jitter, (i: nat) => jitter(k, i));
  }

  /** The loop of Execute: what is left, or the number of the strategy that left
      nothing. */
  method RunAll(ss: seq<Strategy>, ctx: Context, candidates: seq<ScoredCandidate>, jitter: Jitter)
    returns (result: seq<ScoredCandidate>, k: nat)
    requires Apart(candidates) && candidates != []
    modifies candidates
    ensures if result == [] then k < |ss| else k == |ss|
    ensures RunSpec(ss, 0, ctx, old(Views(candidates)), jitter)
         == if result == [] then NoneAfter(ss[k].Name()) else Ranked(Views(result))
  {
    ghost var spec := RunSpec(ss, 0, ctx, Views(candidates), jitter);
    result, k := candidates, 0;
    while k < |ss|
      invariant k <= |ss| && result != [] && Apart(result)
      invariant forall c :: c in result ==> c in candidates
      invariant RunSpec(ss, k, ctx, Views(result), jitter) == spec
    {
      assert forall i :: 0 <= i < |result| ==> result[i] in candidates;
      result := Apply(ss, k, ctx, result, jitter);
      if |result| == 0 {
        return;
      }
      k := k + 1;
    }
  }

  method Best(result: seq<ScoredCandidate>) returns (r: Result)
    requires result != []
    ensures Reports(Ranked(Views(result)), r)
  {
    var sorted := SortByScore(result);
    var best := sorted[0];
    FirstWins(result, sorted);
    r := Routed(best.model, best.score, Join(best.reasons));
  }

  class Chain {
    var strategies: seq<Strategy>

    constructor (ss: seq<Strategy>)
      ensures Sorted(ss, strategies)
    {
      var sorted := SortStrategies(ss);
      strategies := sorted;
    }

    method AddStrategy(s: Strategy)
      modifies this
      ensures Sorted(old(strategies) + [s], strategies)
    {
      strategies := SortStrategies(strategies + [s]);
    }

    method Execute(ctx: Context, candidates: seq<ScoredCandidate>, jitter: Jitter) returns (r: Result)
      requires Apart(candidates)
      modifies candidates
      ensures Reports(ExecuteSpec(strategies, ctx, old(Views(candidates)), jitter), r)
    {
      NoViews(candidates);
      if |candidates| == 0 {
        return NoneGiven;
      }
      var result, k := RunAll(strategies, ctx, candidates, jitter);
      if |result| == 0 {
        return Failed(strategies[k].Name());
      }
      r := Best(result);
    }
  }
}
