/** The pool of provider accounts (internal/domain/ai/domain.go): which account a
    request gets, and how its outcome changes the account's health. A request and
    the recording of its outcome are one step. */
module AccountPool {
  import opened Options

  type AccountId = nat

  datatype Health = Healthy | Degraded | Unhealthy
  {
    predicate CanServeRequests() {
      Healthy? || Degraded?
    }
  }

  const FAILURES_TO_DEGRADE := 2
  const FAILURES_TO_UNHEALTHY := 5

  datatype Account = Account(
    provider: string, priority: int, active: bool, secret: string,
    health: Health, failures: int, requests: int, tokens: int)

  /** `cache` is the in-memory map of account health. */
  datatype Pool = Pool(accounts: map<AccountId, Account>, cache: map<AccountId, Health>)

  predicate Available(p: Pool, provider: string, id: AccountId) {
    && id in p.accounts && p.accounts[id].provider == provider
    && p.accounts[id].active && p.accounts[id].health.CanServeRequests()
  }

  /** `found` is what FindAvailableByProvider may answer. */
  ghost predicate Answers(p: Pool, provider: string, found: seq<AccountId>) {
    && (forall id :: id in found <==> Available(p, provider, id))
    && (forall i, j :: 0 <= i < j < |found| ==> found[i] != found[j])
  }

  // ---------- choosing an account ----------

  function BestOf(p: Pool, ids: seq<AccountId>): (best: AccountId)
    requires ids != [] && forall id :: id in ids ==> id in p.accounts
    ensures best in ids
  {
    if |ids| == 1 then ids[0] else
    var best := BestOf(p, ids[..|ids| - 1]);
    var last := ids[|ids| - 1];
    if p.accounts[last].priority > p.accounts[best].priority then last else best
  }

  /** The chosen account is the first one of maximal priority. */
  lemma {:induction false} BestIsFirstMaximum(p: Pool, ids: seq<AccountId>) returns (k: nat)
    requires ids != [] && forall id :: id in ids ==> id in p.accounts
    ensures k < |ids| && ids[k] == BestOf(p, ids)
    ensures forall i :: 0 <= i < |ids| ==> p.accounts[ids[i]].priority <= p.accounts[ids[k]].priority
    ensures forall i :: 0 <= i < k ==> p.accounts[ids[i]].priority < p.accounts[ids[k]].priority
    decreases |ids|
  {
    if |ids| == 1 {
      k := 0;
    } else {
      var front := ids[..|ids| - 1];
      k := BestIsFirstMaximum(p, front);
      assert forall i :: 0 <= i < |front| ==> ids[i] == front[i];
      if p.accounts[ids[|ids| - 1]].priority > p.accounts[front[k]].priority {
        k := |ids| - 1;
      }
    }
  }

  /** The account that serves a request, if any does: otherwise the provider's own
      key is used. */
  function Chosen(p: Pool, found: seq<AccountId>, queryOk: bool, decrypts: bool): Option<AccountId>
    requires forall id :: id in found ==> id in p.accounts
  {
    if queryOk && found != [] && decrypts then Some(BestOf(p, found)) else None
  }

  // ---------- outcomes ----------

  function Threshold(failures: int): Health {
    if failures >= FAILURES_TO_UNHEALTHY then Unhealthy
    else if failures >= FAILURES_TO_DEGRADE then Degraded
    else Healthy
  }

  function SetHealth(p: Pool, id: AccountId, health: Health, failures: int, ok: bool): Pool {
    if ok && id in p.accounts
    then p.(accounts := p.accounts[id := p.accounts[id].(health := health, failures := failures)])
    else p
  }

  function FailureSpec(p: Pool, id: AccountId, ok: bool): Pool {
    if id !in p.accounts then p else
    var a := p.accounts[id];
    var status := if a.failures + 1 >= FAILURES_TO_DEGRADE then Threshold(a.failures + 1) else a.health;
    SetHealth(p, id, status, a.failures + 1, ok).(cache := p.cache[id := status])
  }

  /** `resets`: IncrementUsage also clears the failure count and sets the health to
      healthy, as the PostgreSQL adapter does; otherwise it only counts. */
  function SuccessSpec(p: Pool, resets: bool, id: AccountId, tokens: int, ok: bool): Pool {
    var stored :=
      if !ok || id !in p.accounts then p.accounts else
      var a := p.accounts[id];
      var counted := a.(requests := a.requests + 1, tokens := a.tokens + tokens);
      p.accounts[id := if resets then counted.(health := Healthy, failures := 0) else counted];
    Pool(stored, p.cache[id := Healthy])
  }

  class Domain {
    var accounts: map<AccountId, Account>
    var cache: map<AccountId, Health>
    const resets: bool

    function View(): Pool
      reads this
    {
      Pool(accounts, cache)
    }

    constructor (resets: bool)
      ensures View() == Pool(map[], map[]) && this.resets == resets
    {
      accounts, cache, this.resets := map[], map[], resets;
    }

    method SelectAccount(ids: seq<AccountId>) returns (best: Option<AccountId>)
      requires forall id :: id in ids ==> id in accounts
      ensures best == if ids == [] then None else Some(BestOf(View(), ids))
    {
      best := None;
      var i := 0;
      while i < |ids|
        invariant 0 <= i <= |ids|
        invariant best == if i == 0 then None else Some(BestOf(View(), ids[..i]))
      {
        assert ids[..i + 1][..i] == ids[..i];
        if best.None? || accounts[ids[i]].priority > accounts[best.value].priority {
          best := Some(ids[i]);
        }
        i := i + 1;
      }
      assert ids[..|ids|] == ids;
    }

    method ResolveAPIKey(providerKey: string, found: seq<AccountId>, queryOk: bool, decrypt: string -> Option<string>)
      returns (account: Option<AccountId>, key: string)
      requires forall id :: id in found ==> id in accounts
      ensures var decrypts := found != [] && decrypt(accounts[BestOf(View(), found)].secret).Some?;
        account == Chosen(View(), found, queryOk, decrypts)
      ensures account.Some? ==>
        && queryOk && account.value in found
        && forall id :: id in found ==> accounts[id].priority <= accounts[account.value].priority
      ensures account.None? ==> key == providerKey
      ensures account.Some? ==> Some(key) == decrypt(accounts[account.value].secret)
    {
      if queryOk && |found| > 0 {
        var best := SelectAccount(found);
        if best.Some? {
          ghost var k := BestIsFirstMaximum(View(), found);
          var decrypted := decrypt(accounts[best.value].secret);
          if decrypted.Some? {
            return best, decrypted.value;
          }
        }
      }
      return None, providerKey;
    }

    method UpdateHealth(id: AccountId, health: Health, failures: int, ok: bool)
      modifies this`accounts
      ensures View() == SetHealth(old(View()), id, health, failures, ok)
    {
      if ok && id in accounts {
        accounts := accounts[id := accounts[id].(health := health, failures := failures)];
      }
    }

    method MarkRequestFailure(id: AccountId, ok: bool)
      modifies this
      ensures View() == FailureSpec(old(View()), id, ok)
      ensures id in old(accounts) ==>
        var a := old(accounts)[id]; var n := a.failures + 1;
        var health := if n >= 5 then Unhealthy else if n >= 2 then Degraded else a.health;
        && cache == old(cache)[id := health]
        && accounts == if ok then old(accounts)[id := a.(failures := n, health := health)] else old(accounts)
    {
      if id !in accounts {
        return;
      }
      var failures := accounts[id].failures + 1;
      var status := accounts[id].health;
      if failures >= FAILURES_TO_UNHEALTHY {
        status := Unhealthy;
      } else if failures >= FAILURES_TO_DEGRADE {
        status := Degraded;
      }
      UpdateHealth(id, status, failures, ok);
      cache := cache[id := status];
    }

    method MarkRequestSuccess(id: AccountId, tokens: int, ok: bool)
      modifies this
      ensures View() == SuccessSpec(old(View()), resets, id, tokens, ok)
      ensures cache == old(cache)[id := Healthy]
      ensures id in old(accounts) && ok ==>
        var a := old(accounts)[id]; var n := a.(requests := a.requests + 1, tokens := a.tokens + tokens);
        accounts == old(accounts)[id := if resets then n.(health := Healthy, failures := 0) else n]
    {
      if ok && id in accounts {
        var a := accounts[id];
        a := a.(requests := a.requests + 1, tokens := a.tokens + tokens);
        if resets {
          a := a.(health := Healthy, failures := 0);
        }
        accounts := accounts[id := a];
      }
      cache := cache[id := Healthy];
    }

    method ResetAccountHealth(id: AccountId, ok: bool)
      modifies this`accounts
      ensures View() == SetHealth(old(View()), id, Healthy, 0, ok)
      ensures accounts == if id in old(accounts) && ok
                          then old(accounts)[id := old(accounts)[id].(health := Healthy, failures := 0)]
                          else old(accounts)
    {
      UpdateHealth(id, Healthy, 0, ok);
    }
  }

  // ---------- runs ----------

  datatype Result = Failed | Succeeded(tokens: int) | Unrecorded

  datatype Event =
    | Request(provider: string, found: seq<AccountId>, queryOk: bool, decrypts: bool, result: Result, ok: bool)
    | Reset(id: AccountId, ok: bool)
    | Edit(id: AccountId, priority: int, active: bool)
    | Create(id: AccountId, provider: string, priority: int, active: bool, secret: string)

  ghost predicate Enabled(p: Pool, e: Event) {
    match e
    case Request(provider, found, _, _, _, _) => Answers(p, provider, found)
    case Create(id, _, _, _, _) => id !in p.accounts
    case _ => true
  }

  ghost function Served(p: Pool, e: Event): Option<AccountId>
    requires Enabled(p, e)
  {
    if e.Request? then Chosen(p, e.found, e.queryOk, e.decrypts) else None
  }

  ghost function Next(p: Pool, resets: bool, e: Event): Pool
    requires Enabled(p, e)
  {
    match e
    case Request(_, _, _, _, result, ok) =>
      if Served(p, e).None? then p else
      (match result
       case Failed => FailureSpec(p, Served(p, e).value, ok)
       case Succeeded(tokens) => SuccessSpec(p, resets, Served(p, e).value, tokens, ok)
       case Unrecorded => p)
    case Reset(id, ok) => SetHealth(p, id, Healthy, 0, ok)
    case Edit(id, priority, active) =>
      if id in p.accounts
      then p.(accounts := p.accounts[id := p.accounts[id].(priority := priority, active := active)])
      else p
    case Create(id, provider, priority, active, secret) =>
      p.(accounts := p.accounts[id := Account(provider, priority, active, secret, Healthy, 0, 0, 0)])
  }

  ghost predicate Legal(p: Pool, resets: bool, es: seq<Event>)
    decreases |es|
  {
    es == [] || (Enabled(p, es[0]) && Legal(Next(p, resets, es[0]), resets, es[1..]))
  }

  ghost function Run(p: Pool, resets: bool, es: seq<Event>): Pool
    requires Legal(p, resets, es)
    decreases |es|
  {
    if es == [] then p else Run(Next(p, resets, es[0]), resets, es[1..])
  }

  /** Stored health is the threshold function of the stored count, which never
      passes the threshold for unhealthy. */
  ghost predicate Inv(p: Pool) {
    forall id :: id in p.accounts ==>
      && 0 <= p.accounts[id].failures <= FAILURES_TO_UNHEALTHY
      && p.accounts[id].health == Threshold(p.accounts[id].failures)
  }

  lemma InvStep(p: Pool, resets: bool, e: Event)
    requires Inv(p) && Enabled(p, e)
    ensures Inv(Next(p, resets, e))
  {
    if Served(p, e).Some? {
      assert Available(p, e.provider, Served(p, e).value);
    }
  }

  lemma {:induction false} HealthIsThreshold(p: Pool, resets: bool, es: seq<Event>)
    requires Inv(p) && Legal(p, resets, es)
    ensures Inv(Run(p, resets, es))
    ensures forall id :: id in Run(p, resets, es).accounts ==>
      var a := Run(p, resets, es).accounts[id];
      && 0 <= a.failures <= 5
      && a.health == if a.failures >= 5 then Unhealthy else if a.failures >= 2 then Degraded else Healthy
    decreases |es|
  {
    if es != [] {
      InvStep(p, resets, es[0]);
      HealthIsThreshold(Next(p, resets, es[0]), resets, es[1..]);
    }
  }

  /** The pool hands out only active accounts that are not unhealthy, and of those
      the ones of highest priority. */
  lemma ServedIsBest(p: Pool, e: Event, other: AccountId)
    requires Enabled(p, e) && Served(p, e).Some? && Available(p, e.provider, other)
    ensures Available(p, e.provider, Served(p, e).value)
    ensures p.accounts[other].priority <= p.accounts[Served(p, e).value].priority
  {
    var k := BestIsFirstMaximum(p, e.found);
    var i :| 0 <= i < |e.found| && e.found[i] == other;
  }

  // ---------- the bound on failing requests ----------

  ghost predicate FailsAt(p: Pool, e: Event, id: AccountId)
    requires Enabled(p, e)
  {
    Served(p, e) == Some(id) && e.result.Failed?
  }

  /** How many failing requests of a run the pool gives to `id`. */
  ghost function Failing(p: Pool, resets: bool, es: seq<Event>, id: AccountId): nat
    requires Legal(p, resets, es)
    decreases |es|
  {
    if es == [] then 0 else
    (if FailsAt(p, es[0], id) then 1 else 0) + Failing(Next(p, resets, es[0]), resets, es[1..], id)
  }

  /** What a step takes off the stored count of `id`: a reset, or a success of its own
      if successes reset. */
  ghost function ErasedAt(p: Pool, resets: bool, e: Event, id: AccountId): int
    requires Enabled(p, e)
  {
    if id !in p.accounts then 0
    else if e.Reset? && e.id == id && e.ok then p.accounts[id].failures
    else if resets && Served(p, e) == Some(id) && e.result.Succeeded? && e.ok then p.accounts[id].failures
    else 0
  }

  ghost function Erased(p: Pool, resets: bool, es: seq<Event>, id: AccountId): int
    requires Legal(p, resets, es)
    decreases |es|
  {
    if es == [] then 0 else
    ErasedAt(p, resets, es[0], id) + Erased(Next(p, resets, es[0]), resets, es[1..], id)
  }

  /** Failing requests whose count could not be written. */
  ghost function Lost(p: Pool, resets: bool, es: seq<Event>, id: AccountId): nat
    requires Legal(p, resets, es)
    decreases |es|
  {
    if es == [] then 0 else
    (if FailsAt(p, es[0], id) && !es[0].ok then 1 else 0) + Lost(Next(p, resets, es[0]), resets, es[1..], id)
  }

  lemma CountStep(p: Pool, resets: bool, e: Event, id: AccountId)
    requires Enabled(p, e) && id in p.accounts
    ensures var p' := Next(p, resets, e);
      && id in p'.accounts
      && p'.accounts[id].failures ==
           p.accounts[id].failures - ErasedAt(p, resets, e, id) + if FailsAt(p, e, id) && e.ok then 1 else 0
  {
  }

  /** Every failing request of a run is accounted for: it is in the stored count, has
      been erased from it, or was not recorded. */
  lemma {:induction false} FailuresAddUp(p: Pool, resets: bool, es: seq<Event>, id: AccountId)
    requires Legal(p, resets, es) && id in p.accounts
    ensures var p' := Run(p, resets, es);
      && id in p'.accounts
      && Failing(p, resets, es, id)
         == p'.accounts[id].failures - p.accounts[id].failures
            + Erased(p, resets, es, id) + Lost(p, resets, es, id)
    decreases |es|
  {
    if es != [] {
      CountStep(p, resets, es[0], id);
      FailuresAddUp(Next(p, resets, es[0]), resets, es[1..], id);
    }
  }

  /** Of an account that starts with some count, the pool lets no more requests fail than
      are left up to five, exactly if no more counts have been erased or lost than the
      final count leaves room for. In particular the limit holds whenever nothing is
      erased and nothing lost, and the account is then unhealthy exactly after the last
      of them. */
  lemma AtMostFiveFailures(p: Pool, resets: bool, es: seq<Event>, id: AccountId)
    requires Inv(p) && Legal(p, resets, es) && id in p.accounts
    ensures var n := Failing(p, resets, es, id); var left := FAILURES_TO_UNHEALTHY - p.accounts[id].failures;
      var gone := Erased(p, resets, es, id) + Lost(p, resets, es, id); var p' := Run(p, resets, es);
      && id in p'.accounts
      && (n <= left <==> gone <= FAILURES_TO_UNHEALTHY - p'.accounts[id].failures)
      && (gone == 0 ==> n <= left && (n == left <==> p'.accounts[id].health.Unhealthy?))
  {
    FailuresAddUp(p, resets, es, id);
    HealthIsThreshold(p, resets, es);
  }

  /** With the wired IncrementUsage the bound does not survive successes: a run that
      alternates failing and successful requests gives one account any number of
      failing ones, and never resets it. */
  function Alternating(n: nat): seq<Event> {
    if n == 0 then [] else
    [Request("p", [0], true, true, Failed, true), Request("p", [0], true, true, Succeeded(1), true)]
    + Alternating(n - 1)
  }

  ghost predicate OneGood(p: Pool) {
    p.accounts.Keys == {0} && Available(p, "p", 0) && p.accounts[0].failures == 0 && p.accounts[0].health.Healthy?
  }

  lemma AlternatingStep(p: Pool)
    requires OneGood(p)
    ensures var fails := Request("p", [0], true, true, Failed, true);
      Enabled(p, fails) && FailsAt(p, fails, 0)
    ensures var p1 := Next(p, true, Request("p", [0], true, true, Failed, true));
      var succeeds := Request("p", [0], true, true, Succeeded(1), true);
      Enabled(p1, succeeds) && !FailsAt(p1, succeeds, 0) && OneGood(Next(p1, true, succeeds))
  {
  }

  lemma {:induction false} SuccessesLiftTheBound(p: Pool, n: nat)
    requires OneGood(p)
    ensures Legal(p, true, Alternating(n)) && Failing(p, true, Alternating(n), 0) == n
    ensures forall e :: e in Alternating(n) ==> !e.Reset?
    decreases n
  {
    if n > 0 {
      var es := Alternating(n);
      AlternatingStep(p);
      var p1 := Next(p, true, es[0]);
      var p2 := Next(p1, true, es[1]);
      SuccessesLiftTheBound(p2, n - 1);
      assert es[1..] == [es[1]] + Alternating(n - 1);
      assert es[1..][1..] == Alternating(n - 1);
    }
  }

  // ---------- the in-memory health ----------

  ghost predicate CacheAgrees(p: Pool) {
    forall id :: id in p.cache ==> id in p.accounts && p.cache[id] == p.accounts[id].health
  }

  predicate Recorded(e: Event) {
    !e.Reset? && (e.Request? ==> e.ok)
  }

  /** With the wired IncrementUsage the in-memory health of an account is the stored
      one as long as writes succeed and nobody resets it. */
  lemma {:induction false} CacheTracksStore(p: Pool, es: seq<Event>)
    requires CacheAgrees(p) && Legal(p, true, es) && forall i :: 0 <= i < |es| ==> Recorded(es[i])
    ensures CacheAgrees(Run(p, true, es))
    decreases |es|
  {
    if es != [] {
      assert Recorded(es[0]);
      CacheStep(p, es[0]);
      CacheTracksStore(Next(p, true, es[0]), es[1..]);
    }
  }

  lemma CacheStep(p: Pool, e: Event)
    requires CacheAgrees(p) && Enabled(p, e) && Recorded(e)
    ensures CacheAgrees(Next(p, true, e))
  {
  }

  /** A reset leaves the in-memory health as it was. */
  lemma ResetIsNotCached(p: Pool, id: AccountId)
    requires Inv(p) && CacheAgrees(p) && id in p.cache
    ensures CacheAgrees(SetHealth(p, id, Healthy, 0, true)) <==> p.cache[id].Healthy?
  {
    var p' := SetHealth(p, id, Healthy, 0, true);
    assert id in p'.cache && p'.accounts[id].health == Healthy;
  }
}
