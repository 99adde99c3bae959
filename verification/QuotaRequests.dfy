/** The daily request limit: who is admitted, and how many requests of a day can succeed. */
module QuotaRequests {
  import opened Options
  import opened Quota
  import opened QuotaTheorems

  /** CheckQuota's verdict, told by the subscription, the limits and the counts read. */
  lemma VerdictIff(a: Account, month: Calendar, now: Time, r: Reads)
    ensures var v := CheckSpec(a, month, now, r);
      && (v == QuotaExceeded <==> a.sub.None? || !(a.sub.value.status.Active? || a.sub.value.status.Trialing?))
      && (v != QuotaExceeded ==>
            var used, today := TokensUsed(a, month, now, r.tokens, r.onlySuccess), RequestsToday(a, now, r.requests);
            var plan := a.sub.value.plan;
            var tokensLeft := plan.monthlyTokens == -1 || used < plan.monthlyTokens;
            var requestsLeft := plan.dailyRequests == -1 || today < plan.dailyRequests;
            && (v == TokenLimitReached <==> !tokensLeft)
            && (v == RequestLimitReached <==> tokensLeft && !requestsLeft)
            && (v == Admitted <==> tokensLeft && requestsLeft))
  {
  }

  lemma {:induction false} FailedRequestsCount(records: seq<Usage>, day: int)
    ensures RequestsOn(records, day, true) <= RequestsOn(records, day, false)
    decreases |records|
  {
    if records != [] {
      FailedRequestsCount(records[..|records| - 1], day);
    }
  }

  /** Which reads are sound: the counter and the database are never below the number of
      the day's successful requests; if both fail the read is, unless there are none. */
  lemma SoundRequestRead(a: Account, now: Time, source: Source)
    requires RequestsInv(a)
    ensures RequestsToday(a, now, source) >= RequestsOn(a.records, Day(now), true) <==>
      source != Nowhere || RequestsOn(a.records, Day(now), true) == 0
  {
    WithinDay(now);
    FailedRequestsCount(a.records, Day(now));
  }

  /** The clock does not run backwards, checks read the cache or the database, at most
      `m` requests are in flight, each record belongs to one of them, and the plan stays
      `plan`. A request may be checked on one day and recorded on a later one. */
  ghost predicate Allowed(s: System, clock: Time, plan: Plan, m: nat, step: Step) {
    match step
    case Check(now, answers) => now >= clock && s.inFlight < m && answers.requests != Nowhere
    case Do(Record(now, _, _, _)) => now >= clock && s.inFlight > 0
    case Do(Subscribe(_, _, offer, _, _)) => offer.Found? ==> offer.value.plan == plan
    case Do(Cancel(_, free, _)) => free == plan
    case Do(Sync(_, _, _, _)) => true
  }

  function Clock(clock: Time, step: Step): Time {
    match step
    case Check(now, _) => now
    case Do(Record(now, _, _, _)) => now
    case _ => clock
  }

  ghost predicate Paced(s: System, clock: Time, month: Calendar, plan: Plan, m: nat, steps: seq<Step>)
    decreases |steps|
  {
    steps == []
    || (Allowed(s, clock, plan, m, steps[0])
        && Paced(Advance(s, month, steps[0]), Clock(clock, steps[0]), month, plan, m, steps[1..]))
  }

  ghost predicate NoneAfter(records: seq<Usage>, clock: Time) {
    forall i :: 0 <= i < |records| ==> records[i].at <= clock
  }

  lemma {:induction false} NoneOn(records: seq<Usage>, clock: Time, day: int)
    requires NoneAfter(records, clock) && day > Day(clock)
    ensures RequestsOn(records, day, true) == 0
    decreases |records|
  {
    if records != [] {
      NoneOn(records[..|records| - 1], clock, day);
    }
  }

  predicate WithinLimit(n: int, plan: Plan, m: nat) {
    n == 0 || n < plan.dailyRequests + m
  }

  /** Each day is within the limit plus `m`, and today so together with the requests in
      flight; there are such only under a limit that lets somebody in. */
  ghost predicate Bounded(s: System, clock: Time, plan: Plan, m: nat) {
    && RequestsInv(s.account) && NoneAfter(s.account.records, clock)
    && (s.account.sub.Some? ==> s.account.sub.value.plan == plan)
    && s.inFlight <= m && (s.inFlight > 0 ==> s.account.sub.Some? && plan.dailyRequests > 0)
    && (forall d: int :: WithinLimit(RequestsOn(s.account.records, d, true), plan, m))
    && WithinLimit(RequestsOn(s.account.records, Day(clock), true) + s.inFlight, plan, m)
  }

  lemma LaterDay(t: Time, u: Time)
    requires t <= u
    ensures Day(t) <= Day(u)
  {
  }

  /** Time passes, perhaps over midnight. */
  lemma Tick(s: System, clock: Time, now: Time, plan: Plan, m: nat)
    requires Bounded(s, clock, plan, m) && now >= clock
    ensures Bounded(s, now, plan, m)
  {
    LaterDay(clock, now);
    if Day(now) > Day(clock) {
      NoneOn(s.account.records, clock, Day(now));
    }
  }

  lemma CheckKeeps(s: System, month: Calendar, plan: Plan, m: nat, now: Time, r: Reads)
    requires Bounded(s, now, plan, m) && s.inFlight < m && r.requests != Nowhere && plan.dailyRequests != -1
    ensures Bounded(Advance(s, month, Check(now, r)), now, plan, m)
  {
    VerdictIff(s.account, month, now, r);
    SoundRequestRead(s.account, now, r.requests);
  }

  lemma RecordKeeps(s: System, month: Calendar, plan: Plan, m: nat, e: Event)
    requires e.Record? && Bounded(s, e.now, plan, m) && s.inFlight > 0
    ensures Bounded(Advance(s, month, Do(e)), e.now, plan, m)
  {
    RequestsStep(s.account, month, e);
    var u := Usage(e.now, e.tokens, e.success);
    forall d: int { RequestsAppend(s.account.records, u, d, true); }
    if e.create {
      assert Next(s.account, month, e).records == s.account.records + [u];
    }
  }

  lemma OtherKeeps(s: System, month: Calendar, clock: Time, plan: Plan, m: nat, e: Event)
    requires !e.Record? && Bounded(s, clock, plan, m) && Allowed(s, clock, plan, m, Do(e))
    ensures Bounded(Advance(s, month, Do(e)), clock, plan, m)
  {
    RequestsStep(s.account, month, e);
  }

  lemma BoundStep(s: System, clock: Time, month: Calendar, plan: Plan, m: nat, step: Step)
    requires Bounded(s, clock, plan, m) && Allowed(s, clock, plan, m, step) && plan.dailyRequests != -1
    ensures Bounded(Advance(s, month, step), Clock(clock, step), plan, m)
  {
    match step
    case Check(now, r) =>
      Tick(s, clock, now, plan, m);
      CheckKeeps(s, month, plan, m, now, r);
    case Do(e) =>
      if e.Record? {
        Tick(s, clock, e.now, plan, m);
        RecordKeeps(s, month, plan, m, e);
      } else {
        OtherKeeps(s, month, clock, plan, m, e);
      }
  }

  lemma {:induction false} BoundRun(s: System, clock: Time, month: Calendar, plan: Plan, m: nat, steps: seq<Step>)
    requires Bounded(s, clock, plan, m) && Paced(s, clock, month, plan, m, steps) && plan.dailyRequests != -1
    ensures forall d: int ::
      WithinLimit(RequestsOn(RunSteps(s, month, steps).account.records, d, true), plan, m)
    decreases |steps|
  {
    if steps != [] {
      BoundStep(s, clock, month, plan, m, steps[0]);
      BoundRun(Advance(s, month, steps[0]), Clock(clock, steps[0]), month, plan, m, steps[1..]);
    }
  }

  /** If every record is admitted first and at most `m` requests are in flight at a time,
      the successful requests of each day are none or fewer than the daily limit plus `m`,
      wherever midnight falls between checks and records. */
  lemma AdmissionBoundsRequests(clock: Time, month: Calendar, plan: Plan, m: nat, steps: seq<Step>, day: int)
    requires Paced(System(NEW_USER, 0), clock, month, plan, m, steps) && plan.dailyRequests != -1
    ensures var n := RequestsOn(RunSteps(System(NEW_USER, 0), month, steps).account.records, day, true);
      n == 0 || n < plan.dailyRequests + m
  {
    BoundRun(System(NEW_USER, 0), clock, month, plan, m, steps);
  }

  // ---------- the bound is reached, and needs sound reads ----------

  const CHECK := Check(0, Reads(Cache, Cache, true))
  const BLIND := Check(0, Reads(Cache, Nowhere, true))
  const SERVE := Do(Record(0, 0, true, true))

  /** An active subscription without a token limit, `n` successful requests on day 0 and
      `k` in flight. */
  ghost predicate Serving(s: System, plan: Plan, n: nat, k: nat) {
    && s.account.sub.Some? && s.account.sub.value.status.Active? && s.account.sub.value.plan == plan
    && plan.monthlyTokens == -1 && RequestsInv(s.account)
    && RequestsOn(s.account.records, 0, true) == n && s.inFlight == k
  }

  lemma CheckAdmits(s: System, month: Calendar, plan: Plan, n: nat, k: nat)
    requires Serving(s, plan, n, k) && n < plan.dailyRequests
    ensures Serving(Advance(s, month, CHECK), plan, n, k + 1)
  {
    VerdictIff(s.account, month, 0, CHECK.answers);
    WithinDay(0);
  }

  lemma BlindAdmits(s: System, month: Calendar, plan: Plan, n: nat, k: nat)
    requires Serving(s, plan, n, k) && plan.dailyRequests > 0
    ensures Serving(Advance(s, month, BLIND), plan, n, k + 1)
  {
    VerdictIff(s.account, month, 0, BLIND.answers);
  }

  lemma ServeCounts(s: System, month: Calendar, plan: Plan, n: nat, k: nat)
    requires Serving(s, plan, n, k) && k > 0
    ensures Serving(Advance(s, month, SERVE), plan, n + 1, k - 1)
  {
    RequestsStep(s.account, month, SERVE.event);
    RequestsAppend(s.account.records, Usage(0, 0, true), 0, true);
  }

  /** `a` checks, then `b` records. */
  function Wave(a: nat, b: nat): seq<Step> {
    if a > 0 then [CHECK] + Wave(a - 1, b) else if b > 0 then [SERVE] + Wave(0, b - 1) else []
  }

  /** `k` requests one after the other, then `m` at once. */
  function Burst(k: nat, m: nat): seq<Step> {
    if k > 0 then [CHECK] + ([SERVE] + Burst(k - 1, m)) else Wave(m, m)
  }

  /** The run is paced and ends with `n` successful requests on day 0. */
  ghost predicate Ends(s: System, month: Calendar, plan: Plan, m: nat, steps: seq<Step>, n: nat) {
    Paced(s, 0, month, plan, m, steps) && RequestsOn(RunSteps(s, month, steps).account.records, 0, true) == n
  }

  lemma EndsFrom(s: System, month: Calendar, plan: Plan, m: nat, step: Step, steps: seq<Step>, n: nat)
    requires Allowed(s, 0, plan, m, step) && Clock(0, step) == 0
    requires Ends(Advance(s, month, step), month, plan, m, steps, n)
    ensures Ends(s, month, plan, m, [step] + steps, n)
  {
    assert ([step] + steps)[1..] == steps;
  }

  lemma {:induction false} WaveEnds(s: System, month: Calendar, plan: Plan, m: nat, n: nat, k: nat, a: nat, b: nat)
    requires Serving(s, plan, n, k) && (a > 0 ==> n < plan.dailyRequests) && k + a <= m && b <= k + a
    ensures Ends(s, month, plan, m, Wave(a, b), n + b)
    decreases a, b
  {
    if a > 0 {
      CheckAdmits(s, month, plan, n, k);
      WaveEnds(Advance(s, month, CHECK), month, plan, m, n, k + 1, a - 1, b);
      EndsFrom(s, month, plan, m, CHECK, Wave(a - 1, b), n + b);
    } else if b > 0 {
      ServeCounts(s, month, plan, n, k);
      WaveEnds(Advance(s, month, SERVE), month, plan, m, n + 1, k - 1, 0, b - 1);
      EndsFrom(s, month, plan, m, SERVE, Wave(0, b - 1), n + b);
    }
  }

  lemma {:induction false} BurstEnds(s: System, month: Calendar, plan: Plan, m: nat, n: nat, k: nat)
    requires Serving(s, plan, n, 0) && n + k < plan.dailyRequests && m > 0
    ensures Ends(s, month, plan, m, Burst(k, m), n + k + m)
    decreases k
  {
    if k == 0 {
      WaveEnds(s, month, plan, m, n, 0, m, m);
    } else {
      CheckAdmits(s, month, plan, n, 0);
      var s1 := Advance(s, month, CHECK);
      ServeCounts(s1, month, plan, n, 1);
      BurstEnds(Advance(s1, month, SERVE), month, plan, m, n + 1, k - 1);
      EndsFrom(s1, month, plan, m, SERVE, Burst(k - 1, m), n + k + m);
      EndsFrom(s, month, plan, m, CHECK, [SERVE] + Burst(k - 1, m), n + k + m);
    }
  }

  /** The bound is sharp: under every positive daily limit, one request less than the
      limit plus `m` can succeed on a day. */
  lemma RequestBoundIsReached(s: System, month: Calendar, plan: Plan, m: nat)
    requires Serving(s, plan, 0, 0) && plan.dailyRequests > 0 && m > 0
    ensures Ends(s, month, plan, m, Burst(plan.dailyRequests - 1, m), plan.dailyRequests + m - 1)
  {
    BurstEnds(s, month, plan, m, 0, plan.dailyRequests - 1);
  }

  function Blindly(n: nat): seq<Step> {
    if n == 0 then [] else [BLIND] + ([SERVE] + Blindly(n - 1))
  }

  lemma RunsFrom(s: System, month: Calendar, step: Step, steps: seq<Step>)
    ensures RunSteps(s, month, [step] + steps) == RunSteps(Advance(s, month, step), month, steps)
  {
    assert ([step] + steps)[1..] == steps;
  }

  /** It does not hold without sound reads: while cache and database both fail, any
      number of requests is admitted, one at a time. */
  lemma {:induction false} BlindChecksLiftTheBound(s: System, month: Calendar, plan: Plan, served: nat, n: nat)
    requires Serving(s, plan, served, 0) && plan.dailyRequests > 0
    ensures RequestsOn(RunSteps(s, month, Blindly(n)).account.records, 0, true) == served + n
    decreases n
  {
    if n > 0 {
      BlindAdmits(s, month, plan, served, 0);
      var s1 := Advance(s, month, BLIND);
      ServeCounts(s1, month, plan, served, 1);
      BlindChecksLiftTheBound(Advance(s1, month, SERVE), month, plan, served + 1, n - 1);
      RunsFrom(s, month, BLIND, [SERVE] + Blindly(n - 1));
      RunsFrom(s1, month, SERVE, Blindly(n - 1));
    }
  }
}
