/** Requests that overlap: an account is chosen in one step, and the outcome is recorded
    in a later one, with other requests in between. */
module AccountOverlap {
  import opened Options
  import opened AccountPool

  /** `inFlight` has one entry per request that holds an account's key. */
  datatype System = System(pool: Pool, inFlight: multiset<AccountId>)

  datatype Step =
    | Begin(provider: string, found: seq<AccountId>, queryOk: bool, decrypts: bool)
    | End(id: AccountId, result: Result, ok: bool)
    | Admin(event: Event)

  function Served(p: Pool, s: Step): Option<AccountId>
    requires s.Begin? && forall id :: id in s.found ==> id in p.accounts
  {
    Chosen(p, s.found, s.queryOk, s.decrypts)
  }

  /** An account never has more than `m` requests in flight. */
  ghost predicate Allowed(y: System, m: nat, s: Step) {
    match s
    case Begin(provider, found, _, _) =>
      Answers(y.pool, provider, found)
      && (Served(y.pool, s).Some? ==> y.inFlight[Served(y.pool, s).value] < m)
    case End(id, _, _) => id in y.inFlight
    case Admin(e) => !e.Request? && Enabled(y.pool, e)
  }

  ghost function Advance(y: System, m: nat, resets: bool, s: Step): System
    requires Allowed(y, m, s)
  {
    match s
    case Begin(_, _, _, _) =>
      if Served(y.pool, s).None? then y else y.(inFlight := y.inFlight + multiset{Served(y.pool, s).value})
    case End(id, result, ok) =>
      System(
        (match result
         case Failed => FailureSpec(y.pool, id, ok)
         case Succeeded(tokens) => SuccessSpec(y.pool, resets, id, tokens, ok)
         case Unrecorded => y.pool),
        y.inFlight - multiset{id})
    case Admin(e) => y.(pool := Next(y.pool, resets, e))
  }

  ghost predicate Paced(y: System, m: nat, resets: bool, ss: seq<Step>)
    decreases |ss|
  {
    ss == [] || (Allowed(y, m, ss[0]) && Paced(Advance(y, m, resets, ss[0]), m, resets, ss[1..]))
  }

  ghost function RunSteps(y: System, m: nat, resets: bool, ss: seq<Step>): System
    requires Paced(y, m, resets, ss)
    decreases |ss|
  {
    if ss == [] then y else RunSteps(Advance(y, m, resets, ss[0]), m, resets, ss[1..])
  }

  // ---------- the account of failures ----------

  ghost predicate Fails(s: Step, id: AccountId) {
    s.End? && s.id == id && s.result.Failed?
  }

  function Failing(ss: seq<Step>, id: AccountId): nat {
    if ss == [] then 0 else
    (if ss[0].End? && ss[0].id == id && ss[0].result.Failed? then 1 else 0) + Failing(ss[1..], id)
  }

  function Lost(ss: seq<Step>, id: AccountId): nat {
    if ss == [] then 0 else
    (if ss[0].End? && ss[0].id == id && ss[0].result.Failed? && !ss[0].ok then 1 else 0) + Lost(ss[1..], id)
  }

  function ErasedAt(y: System, resets: bool, s: Step, id: AccountId): int {
    if id !in y.pool.accounts then 0
    else if s.Admin? && s.event.Reset? && s.event.id == id && s.event.ok then y.pool.accounts[id].failures
    else if s.End? && s.id == id && resets && s.result.Succeeded? && s.ok then y.pool.accounts[id].failures
    else 0
  }

  ghost function Erased(y: System, m: nat, resets: bool, ss: seq<Step>, id: AccountId): int
    requires Paced(y, m, resets, ss)
    decreases |ss|
  {
    if ss == [] then 0 else
    ErasedAt(y, resets, ss[0], id) + Erased(Advance(y, m, resets, ss[0]), m, resets, ss[1..], id)
  }

  /** Stored health follows the stored count, and the count together with the requests in
      flight stays below the threshold plus `m`: only an account with a count below the
      threshold gets another request. */
  ghost predicate OverlapInv(y: System, m: nat) {
    && (forall id :: id in y.pool.accounts ==>
          && y.pool.accounts[id].failures >= 0
          && y.pool.accounts[id].health == Threshold(y.pool.accounts[id].failures)
          && y.pool.accounts[id].failures + y.inFlight[id] < FAILURES_TO_UNHEALTHY + m)
    && (forall id :: id in y.inFlight ==> id in y.pool.accounts)
  }

  lemma OverlapStep(y: System, m: nat, resets: bool, s: Step)
    requires OverlapInv(y, m) && Allowed(y, m, s) && m > 0
    ensures OverlapInv(Advance(y, m, resets, s), m)
  {
    match s
    case Begin(provider, found, _, _) =>
      if Served(y.pool, s).Some? {
        assert Available(y.pool, provider, Served(y.pool, s).value);
      }
    case End(id, result, ok) => EndStep(y, m, resets, id, result, ok);
    case Admin(e) =>
  }

  lemma EndStep(y: System, m: nat, resets: bool, id: AccountId, result: Result, ok: bool)
    requires OverlapInv(y, m) && id in y.inFlight && m > 0
    ensures OverlapInv(Advance(y, m, resets, End(id, result, ok)), m)
  {
  }

  lemma EndCount(y: System, m: nat, resets: bool, x: AccountId, result: Result, ok: bool, id: AccountId)
    requires OverlapInv(y, m) && x in y.inFlight && id in y.pool.accounts
    ensures var y' := Advance(y, m, resets, End(x, result, ok)); var a := y.pool.accounts[id];
      && id in y'.pool.accounts
      && y'.pool.accounts[id].failures ==
           if x != id || !ok then a.failures
           else if result.Failed? then a.failures + 1
           else if result.Succeeded? && resets then 0
           else a.failures
  {
  }

  lemma AdminCount(y: System, m: nat, resets: bool, e: Event, id: AccountId)
    requires OverlapInv(y, m) && Allowed(y, m, Admin(e)) && id in y.pool.accounts
    ensures var y' := Advance(y, m, resets, Admin(e)); var a := y.pool.accounts[id];
      && id in y'.pool.accounts
      && y'.pool.accounts[id].failures == if e.Reset? && e.id == id && e.ok then 0 else a.failures
  {
  }

  lemma CountStep(y: System, m: nat, resets: bool, s: Step, id: AccountId)
    requires OverlapInv(y, m) && Allowed(y, m, s) && id in y.pool.accounts
    ensures var y' := Advance(y, m, resets, s);
      && id in y'.pool.accounts
      && y'.pool.accounts[id].failures ==
           y.pool.accounts[id].failures - ErasedAt(y, resets, s, id) + if Fails(s, id) && s.ok then 1 else 0
  {
    match s
    case Begin(_, _, _, _) =>
    case End(x, result, ok) => EndCount(y, m, resets, x, result, ok, id);
    case Admin(e) => AdminCount(y, m, resets, e, id);
  }

  /** With up to `m` requests of an account in flight at a time, at most four plus `m`
      of its requests fail in a stretch in which no count is erased or lost, less the
      count that the stretch starts with. In general every failing request is in the
      stored count, erased or lost. */
  lemma {:induction false} OverlappingFailures(y: System, m: nat, resets: bool, ss: seq<Step>, id: AccountId)
    requires OverlapInv(y, m) && m > 0 && Paced(y, m, resets, ss) && id in y.pool.accounts
    ensures var y' := RunSteps(y, m, resets, ss);
      && OverlapInv(y', m) && id in y'.pool.accounts
      && Failing(ss, id) == y'.pool.accounts[id].failures - y.pool.accounts[id].failures
                            + Erased(y, m, resets, ss, id) + Lost(ss, id)
      && (Erased(y, m, resets, ss, id) == 0 && Lost(ss, id) == 0 ==>
            Failing(ss, id) < FAILURES_TO_UNHEALTHY + m - y.pool.accounts[id].failures)
    decreases |ss|
  {
    if ss != [] {
      CountStep(y, m, resets, ss[0], id);
      OverlapStep(y, m, resets, ss[0]);
      OverlappingFailures(Advance(y, m, resets, ss[0]), m, resets, ss[1..], id);
    }
  }

  // ---------- the bound is reached ----------

  const CHOOSE := Begin("p", [0], true, true)
  const FAIL := End(0, Failed, true)

  /** `a` requests begin, then `b` of those in flight fail. */
  function Wave(a: nat, b: nat): seq<Step> {
    if a > 0 then [CHOOSE] + Wave(a - 1, b)
    else if b > 0 then [FAIL] + Wave(0, b - 1)
    else []
  }

  /** `k` requests fail one after the other, then `m` at once. */
  function Burst(k: nat, m: nat): seq<Step> {
    if k > 0 then [CHOOSE, FAIL] + Burst(k - 1, m) else Wave(m, m)
  }

  /** One account, which has failed `failures` times and has `n` requests in flight. */
  ghost predicate One(y: System, failures: int, n: nat) {
    && y.pool.accounts.Keys == {0} && y.inFlight == multiset{}[0 := n]
    && y.pool.accounts[0].provider == "p" && y.pool.accounts[0].active
    && y.pool.accounts[0].failures == failures >= 0 && y.pool.accounts[0].health == Threshold(failures)
  }

  lemma ChooseStep(y: System, m: nat, resets: bool, failures: int, n: nat)
    requires One(y, failures, n) && failures < FAILURES_TO_UNHEALTHY && n < m
    ensures Allowed(y, m, CHOOSE) && One(Advance(y, m, resets, CHOOSE), failures, n + 1)
  {
    assert Available(y.pool, "p", 0);
    assert BestOf(y.pool, [0]) == 0;
    assert Served(y.pool, CHOOSE) == Some(0);
  }

  lemma FailStep(y: System, m: nat, resets: bool, failures: int, n: nat)
    requires One(y, failures, n) && n > 0
    ensures Allowed(y, m, FAIL) && One(Advance(y, m, resets, FAIL), failures + 1, n - 1)
    ensures ErasedAt(y, resets, FAIL, 0) == 0
  {
  }

  /** The run is possible, erases nothing, and has `fails` failing requests. */
  ghost predicate AllFail(y: System, m: nat, resets: bool, ss: seq<Step>, fails: nat) {
    Paced(y, m, resets, ss) && Erased(y, m, resets, ss, 0) == 0 && Lost(ss, 0) == 0 && Failing(ss, 0) == fails
  }

  lemma AllFailFrom(y: System, m: nat, resets: bool, s: Step, ss: seq<Step>, fails: nat)
    requires Allowed(y, m, s) && !s.Admin? && ErasedAt(y, resets, s, 0) == 0 && (s.End? ==> s.ok)
    requires AllFail(Advance(y, m, resets, s), m, resets, ss, fails)
    ensures AllFail(y, m, resets, [s] + ss, fails + if Fails(s, 0) then 1 else 0)
  {
    assert ([s] + ss)[1..] == ss;
  }

  lemma {:induction false} WaveFails(y: System, m: nat, resets: bool, failures: int, n: nat, a: nat, b: nat)
    requires One(y, failures, n) && (a > 0 ==> failures < FAILURES_TO_UNHEALTHY) && n + a <= m && b <= n + a
    ensures AllFail(y, m, resets, Wave(a, b), b)
    decreases a, b
  {
    if a > 0 {
      ChooseStep(y, m, resets, failures, n);
      WaveFails(Advance(y, m, resets, CHOOSE), m, resets, failures, n + 1, a - 1, b);
      AllFailFrom(y, m, resets, CHOOSE, Wave(a - 1, b), b);
    } else if b > 0 {
      FailStep(y, m, resets, failures, n);
      WaveFails(Advance(y, m, resets, FAIL), m, resets, failures + 1, n - 1, 0, b - 1);
      AllFailFrom(y, m, resets, FAIL, Wave(0, b - 1), b - 1);
    }
  }

  lemma {:induction false} BurstFails(y: System, m: nat, resets: bool, failures: int, k: nat)
    requires One(y, failures, 0) && failures + k < FAILURES_TO_UNHEALTHY && m > 0
    ensures AllFail(y, m, resets, Burst(k, m), k + m)
    decreases k
  {
    if k == 0 {
      WaveFails(y, m, resets, failures, 0, m, m);
    } else {
      ChooseStep(y, m, resets, failures, 0);
      var y1 := Advance(y, m, resets, CHOOSE);
      FailStep(y1, m, resets, failures, 1);
      BurstFails(Advance(y1, m, resets, FAIL), m, resets, failures + 1, k - 1);
      AllFailFrom(y1, m, resets, FAIL, Burst(k - 1, m), k - 1 + m);
      AllFailFrom(y, m, resets, CHOOSE, [FAIL] + Burst(k - 1, m), k + m);
      assert [CHOOSE] + ([FAIL] + Burst(k - 1, m)) == Burst(k, m);
    }
  }

  /** The bound of OverlappingFailures is sharp: an account that starts at zero can let
      four plus `m` requests fail. */
  lemma BoundIsReached(y: System, m: nat, resets: bool)
    requires One(y, 0, 0) && m > 0
    ensures AllFail(y, m, resets, Burst(4, m), FAILURES_TO_UNHEALTHY + m - 1)
  {
    BurstFails(y, m, resets, 0, 4);
  }
}
