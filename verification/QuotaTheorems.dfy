/** The quota counters over whole runs: they agree with the usage records, and
    admission by CheckQuota bounds the usage. */
module QuotaTheorems {
  import opened Options
  import opened Quota

  datatype Event =
    | Record(now: Time, tokens: int, success: bool, create: bool)
    | Sync(status: Status, start: Time, end: Time, ok: bool)
    | Subscribe(now: Time, end: Time, offer: Lookup<Offer>, readOk: bool, ok: bool)
    | Cancel(immediately: bool, free: Plan, ok: bool)

  const CACHED := Writes(true, true, true)

  ghost predicate After(records: seq<Usage>, t: Time) {
    forall i :: 0 <= i < |records| ==> records[i].at < t
  }

  /** The clock increases, cache writes succeed, a new period starts after every
      earlier record and no later than the next one, and no successful record meets
      a token counter that has expired. */
  ghost predicate Enabled(a: Account, month: Calendar, e: Event) {
    match e
    case Record(now, _, success, _) =>
      && After(a.records, now)
      && (a.sub.Some? ==> now >= a.sub.value.start)
      && (a.sub.Some? && success ==> !Expired(a, month, now))
    case Sync(_, start, _, _) =>
      a.sub.Some? && start != a.sub.value.start ==> start > a.sub.value.start && After(a.records, start)
    case Subscribe(now, _, _, _, _) => After(a.records, now)
    case Cancel(_, _, _) => true
  }

  /** The token counter of the current period exists, but its time is over. */
  predicate Expired(a: Account, month: Calendar, now: Time)
    requires a.sub.Some?
  {
    var key := month(a.sub.value.start);
    key in a.tokens && !a.tokens[key].Live(now)
  }

  ghost function Next(a: Account, month: Calendar, e: Event): Account {
    match e
    case Record(now, tokens, success, create) =>
      RecordSpec(a, month, now, tokens, success, CACHED.(create := create))
    case Sync(status, start, end, ok) => SyncSpec(a, month, status, start, end, ok, true)
    case Subscribe(now, end, offer, readOk, ok) => SubscribeSpec(a, now, end, offer, readOk, ok).0
    case Cancel(immediately, free, ok) => CancelSpec(a, immediately, free, ok)
  }

  ghost predicate Legal(a: Account, month: Calendar, es: seq<Event>)
    decreases |es|
  {
    es == [] || (Enabled(a, month, es[0]) && Legal(Next(a, month, es[0]), month, es[1..]))
  }

  ghost function Run(a: Account, month: Calendar, es: seq<Event>): Account
    decreases |es|
  {
    if es == [] then a else Run(Next(a, month, es[0]), month, es[1..])
  }

  const NEW_USER := Account(None, [], map[], map[])

  // ---------- sums over records ----------

  lemma TokensAppend(records: seq<Usage>, r: Usage, start: Time, onlySuccess: bool)
    ensures TokensSince(records + [r], start, onlySuccess)
         == TokensSince(records, start, onlySuccess)
            + if r.at >= start && (r.success || !onlySuccess) then r.tokens else 0
  {
    assert (records + [r])[..|records|] == records;
  }

  lemma {:induction false} NothingSince(records: seq<Usage>, start: Time, onlySuccess: bool)
    requires After(records, start)
    ensures TokensSince(records, start, onlySuccess) == 0
    decreases |records|
  {
    if records != [] {
      NothingSince(records[..|records| - 1], start, onlySuccess);
    }
  }

  // ---------- tokens ----------

  /** Only the counter of the current period is stored; it holds the sum of the
      successful records since the period's start, and if it is missing that sum is
      zero. */
  ghost predicate TokensInv(a: Account, month: Calendar) {
    match a.sub
    case None => a.tokens == map[]
    case Some(s) =>
      && (forall k :: k in a.tokens ==> k == month(s.start))
      && (var total := TokensSince(a.records, s.start, true);
          if month(s.start) in a.tokens then a.tokens[month(s.start)].value == total else total == 0)
  }

  lemma TokensStep(a: Account, month: Calendar, e: Event)
    requires TokensInv(a, month) && Enabled(a, month, e)
    ensures TokensInv(Next(a, month, e), month)
  {
    match e
    case Record(now, tokens, success, create) =>
      if a.sub.Some? {
        TokensAppend(a.records, Usage(now, tokens, success), a.sub.value.start, true);
      }
    case Sync(status, start, end, ok) =>
      if a.sub.Some? && start != a.sub.value.start {
        NothingSince(a.records, start, true);
      }
    case Subscribe(now, _, _, _, _) => NothingSince(a.records, now, true);
    case Cancel(_, _, _) =>
  }

  lemma {:induction false} TokensInvRun(a: Account, month: Calendar, es: seq<Event>)
    requires TokensInv(a, month) && Legal(a, month, es)
    ensures TokensInv(Run(a, month, es), month)
    decreases |es|
  {
    if es != [] {
      TokensStep(a, month, es[0]);
      TokensInvRun(Next(a, month, es[0]), month, es[1..]);
    }
  }

  /** The fast counter refines the sum: over every legal run, whatever months the
      periods fall into, the cached token count of the current period equals the sum
      of its successful records exactly if the counter has not expired or there is
      nothing to count. */
  lemma CachedTokensAreTheSum(month: Calendar, es: seq<Event>, now: Time)
    requires Legal(NEW_USER, month, es) && Run(NEW_USER, month, es).sub.Some?
    ensures var a := Run(NEW_USER, month, es);
      var total := TokensSince(a.records, a.sub.value.start, true);
      TokensUsed(a, month, now, Cache, true) == total <==> (!Expired(a, month, now) || total == 0)
  {
    TokensInvRun(NEW_USER, month, es);
  }

  /** The last expiry that was set: an increment sets it to a day after the end of the
      period, so until then every read finds the sum. */
  lemma ExpiryAfterRecord(a: Account, month: Calendar, now: Time, tokens: int, later: Time)
    requires a.sub.Some? && now < a.sub.value.end + DAY
    ensures var a' := RecordSpec(a, month, now, tokens, true, CACHED);
      a'.sub == a.sub && (Expired(a', month, later) <==> later >= a.sub.value.end + DAY)
  {
  }

  /** Once the counter has expired, the next successful record starts from zero: what
      was used before in the period is no longer counted. */
  lemma ExpiredCounterForgets(a: Account, month: Calendar, now: Time, tokens: int)
    requires TokensInv(a, month) && a.sub.Some? && Expired(a, month, now) && now >= a.sub.value.start
    ensures var a' := RecordSpec(a, month, now, tokens, true, CACHED);
      var before := TokensSince(a.records, a.sub.value.start, true);
      TokensSince(a'.records, a.sub.value.start, true) == TokensUsed(a', month, now, Cache, true) + before
  {
    TokensAppend(a.records, Usage(now, tokens, true), a.sub.value.start, true);
  }

  // ---------- requests ----------

  lemma RequestsAppend(records: seq<Usage>, r: Usage, day: int, onlySuccess: bool)
    ensures RequestsOn(records + [r], day, onlySuccess)
         == RequestsOn(records, day, onlySuccess)
            + if Day(r.at) == day && (r.success || !onlySuccess) then 1 else 0
  {
    assert (records + [r])[..|records|] == records;
  }

  /** The counter of a day holds the number of its successful records and lives until
      the day is over. */
  ghost predicate RequestsInv(a: Account) {
    forall d: int ::
      if d in a.requests
      then a.requests[d] == Counter(RequestsOn(a.records, d, true), Some((d + 1) * DAY))
      else RequestsOn(a.records, d, true) == 0
  }

  lemma WithinDay(t: Time)
    ensures Day(t) * DAY <= t < (Day(t) + 1) * DAY
  {
  }

  lemma RequestsStep(a: Account, month: Calendar, e: Event)
    requires RequestsInv(a) && (e.Record? && e.success ==> a.sub.Some?)
    ensures RequestsInv(Next(a, month, e))
  {
    var a' := Next(a, month, e);
    if e.Record? && e.create {
      WithinDay(e.now);
      forall d: int
        ensures if d in a'.requests
                then a'.requests[d] == Counter(RequestsOn(a'.records, d, true), Some((d + 1) * DAY))
                else RequestsOn(a'.records, d, true) == 0
      {
        RequestsAppend(a.records, Usage(e.now, e.tokens, e.success), d, true);
      }
    }
  }

  /** No successful record comes while there is no subscription. */
  ghost predicate Subscribed(a: Account, month: Calendar, es: seq<Event>)
    decreases |es|
  {
    es == [] || (
      && (es[0].Record? && es[0].success ==> a.sub.Some?)
      && Subscribed(Next(a, month, es[0]), month, es[1..]))
  }

  lemma {:induction false} RequestsInvRun(a: Account, month: Calendar, es: seq<Event>)
    requires RequestsInv(a) && Subscribed(a, month, es)
    ensures RequestsInv(Run(a, month, es))
    decreases |es|
  {
    if es != [] {
      RequestsStep(a, month, es[0]);
      RequestsInvRun(Next(a, month, es[0]), month, es[1..]);
    }
  }

  /** The cached request count of the day is the number of the day's successful
      records, whatever renewals come between. */
  lemma CachedRequestsAreTheCount(month: Calendar, es: seq<Event>, now: Time)
    requires Subscribed(NEW_USER, month, es)
    ensures var a := Run(NEW_USER, month, es);
      RequestsToday(a, now, Cache) == RequestsOn(a.records, Day(now), true)
  {
    RequestsInvRun(NEW_USER, month, es);
    WithinDay(now);
  }

  // ---------- the fallback query ----------

  /** Tokens of failed records. */
  function FailedTokens(records: seq<Usage>, start: Time): int {
    if records == [] then 0 else
    var last := records[|records| - 1];
    FailedTokens(records[..|records| - 1], start) + if last.at >= start && !last.success then last.tokens else 0
  }

  /** The query of the wired adapter (internal/adapter/outbound/postgres/usage_record.go)
      does not ask for success: it exceeds what the counter stands for by the tokens
      of the failed records. */
  lemma {:induction false} FallbackCountsFailures(records: seq<Usage>, start: Time)
    ensures TokensSince(records, start, false) == TokensSince(records, start, true) + FailedTokens(records, start)
    decreases |records|
  {
    if records != [] {
      FallbackCountsFailures(records[..|records| - 1], start);
    }
  }

  ghost predicate NonNegative(records: seq<Usage>) {
    forall i :: 0 <= i < |records| ==> records[i].tokens >= 0
  }

  lemma {:induction false} SumsAreNonNegative(records: seq<Usage>, start: Time)
    requires NonNegative(records)
    ensures TokensSince(records, start, true) >= 0 && FailedTokens(records, start) >= 0
    decreases |records|
  {
    if records != [] {
      SumsAreNonNegative(records[..|records| - 1], start);
    }
  }

  // ---------- admission bounds usage ----------

  /** A request is checked, and later recorded. */
  datatype Step = Check(now: Time, answers: Reads) | Do(event: Event)

  /** `inFlight`: admitted requests that are not yet recorded. */
  datatype System = System(account: Account, inFlight: nat)

  /** The read of a check is not below the true sum: it is answered by the database,
      or by a counter that has not expired. */
  predicate SoundRead(a: Account, month: Calendar, now: Time, r: Reads) {
    r.tokens.Database? || (r.tokens.Cache? && (a.sub.Some? ==> !Expired(a, month, now)))
  }

  /** At most `m` requests are in flight, every record belongs to one of them and has
      at most `k` tokens, and the plan stays `plan`. */
  ghost predicate Allowed(s: System, month: Calendar, plan: Plan, m: nat, k: nat, step: Step) {
    match step
    case Check(now, answers) => s.inFlight < m && SoundRead(s.account, month, now, answers)
    case Do(e) =>
      && Enabled(s.account, month, e)
      && (e.Record? ==> s.inFlight > 0 && 0 <= e.tokens <= k)
      && (e.Subscribe? && e.offer.Found? ==> e.offer.value.plan == plan)
      && (e.Cancel? ==> e.free == plan)
  }

  ghost function Advance(s: System, month: Calendar, step: Step): System {
    match step
    case Check(now, answers) =>
      if CheckSpec(s.account, month, now, answers).Admitted? then s.(inFlight := s.inFlight + 1) else s
    case Do(e) =>
      System(Next(s.account, month, e), if e.Record? && s.inFlight > 0 then s.inFlight - 1 else s.inFlight)
  }

  ghost predicate Paced(s: System, month: Calendar, plan: Plan, m: nat, k: nat, steps: seq<Step>)
    decreases |steps|
  {
    steps == []
    || (Allowed(s, month, plan, m, k, steps[0]) && Paced(Advance(s, month, steps[0]), month, plan, m, k, steps[1..]))
  }

  ghost function RunSteps(s: System, month: Calendar, steps: seq<Step>): System
    decreases |steps|
  {
    if steps == [] then s else RunSteps(Advance(s, month, steps[0]), month, steps[1..])
  }

  function Used(a: Account): int {
    if a.sub.Some? then TokensSince(a.records, a.sub.value.start, true) else 0
  }

  /** What is used, together with what the requests in flight may still use, stays
      below the limit plus `m` requests. */
  ghost predicate Bounded(s: System, month: Calendar, plan: Plan, m: nat, k: nat) {
    && TokensInv(s.account, month) && NonNegative(s.account.records)
    && (s.account.sub.Some? ==> s.account.sub.value.plan == plan)
    && ((s.inFlight == 0 && Used(s.account) == 0)
        || Used(s.account) + s.inFlight * k < plan.monthlyTokens + m * k)
  }

  lemma Fewer(n: nat, m: nat, k: nat)
    requires n <= m
    ensures n * k <= m * k && (n > 0 ==> (n - 1) * k == n * k - k)
  {
  }

  lemma CheckBound(s: System, month: Calendar, plan: Plan, m: nat, k: nat, now: Time, r: Reads)
    requires Bounded(s, month, plan, m, k) && s.inFlight < m && SoundRead(s.account, month, now, r)
    requires plan.monthlyTokens != -1
    ensures Bounded(Advance(s, month, Check(now, r)), month, plan, m, k)
  {
    if CheckSpec(s.account, month, now, r).Admitted? {
      var start := s.account.sub.value.start;
      FallbackCountsFailures(s.account.records, start);
      SumsAreNonNegative(s.account.records, start);
      assert Used(s.account) <= TokensUsed(s.account, month, now, r.tokens, r.onlySuccess);
      Fewer(s.inFlight + 1, m, k);
    }
  }

  lemma RecordBound(s: System, month: Calendar, plan: Plan, m: nat, k: nat, e: Event)
    requires Bounded(s, month, plan, m, k) && Allowed(s, month, plan, m, k, Do(e)) && e.Record?
    ensures Bounded(Advance(s, month, Do(e)), month, plan, m, k)
  {
    TokensStep(s.account, month, e);
    Fewer(s.inFlight, s.inFlight, k);
    if s.account.sub.Some? {
      TokensAppend(s.account.records, Usage(e.now, e.tokens, e.success), s.account.sub.value.start, true);
    }
  }

  lemma OtherBound(s: System, month: Calendar, plan: Plan, m: nat, k: nat, e: Event)
    requires Bounded(s, month, plan, m, k) && Allowed(s, month, plan, m, k, Do(e)) && !e.Record?
    ensures Bounded(Advance(s, month, Do(e)), month, plan, m, k)
  {
    TokensStep(s.account, month, e);
    if s.account.sub.Some? {
      SumsAreNonNegative(s.account.records, s.account.sub.value.start);
    }
    if e.Sync? && s.account.sub.Some? && e.start != s.account.sub.value.start {
      NothingSince(s.account.records, e.start, true);
    }
    if e.Subscribe? {
      NothingSince(s.account.records, e.now, true);
    }
  }

  lemma {:induction false} BoundedRun(s: System, month: Calendar, plan: Plan, m: nat, k: nat, steps: seq<Step>)
    requires Bounded(s, month, plan, m, k) && Paced(s, month, plan, m, k, steps) && plan.monthlyTokens != -1
    ensures Bounded(RunSteps(s, month, steps), month, plan, m, k)
    decreases |steps|
  {
    if steps != [] {
      match steps[0]
      case Check(now, r) => CheckBound(s, month, plan, m, k, now, r);
      case Do(e) =>
        if e.Record? { RecordBound(s, month, plan, m, k, e); } else { OtherBound(s, month, plan, m, k, e); }
    }
    if steps != [] {
      BoundedRun(Advance(s, month, steps[0]), month, plan, m, k, steps[1..]);
    }
  }

  /** If every record is admitted first, uses at most `k` tokens, and at most `m`
      requests are in flight at a time, the usage of a period is zero or below the
      limit plus `m * k`; with one request at a time, below the limit plus `k`. */
  lemma AdmissionBoundsUsage(month: Calendar, plan: Plan, m: nat, k: nat, steps: seq<Step>)
    requires Paced(System(NEW_USER, 0), month, plan, m, k, steps) && plan.monthlyTokens != -1
    ensures var used := Used(RunSteps(System(NEW_USER, 0), month, steps).account);
      used == 0 || used < plan.monthlyTokens + m * k
  {
    BoundedRun(System(NEW_USER, 0), month, plan, m, k, steps);
  }
}
