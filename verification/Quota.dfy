/** Quota counters against usage records, for one user
    (internal/domain/billing/domain.go). The counters live in a cache whose keys
    are the month of the period start and the day, and expire
    (internal/adapter/outbound/redis/quota_cache.go). The clock, and how each port
    answers, are parameters. */
module Quota {
  import opened Options

  type Time = int   // nanoseconds

  const DAY := 86_400_000_000_000

  function Day(t: Time): int {
    t / DAY
  }

  /** The month in which a time falls, as written into a cache key. */
  type Calendar = Time -> int

  datatype Status = Active | Trialing | PastDue | Canceled | Incomplete
  {
    predicate IsActive() {
      Active? || Trialing?
    }
  }

  /** -1 is unlimited. */
  datatype Plan = Plan(monthlyTokens: int, dailyRequests: int)

  datatype Subscription = Subscription(status: Status, start: Time, end: Time, plan: Plan)

  datatype Usage = Usage(at: Time, tokens: int, success: bool)

  datatype Counter = Counter(value: int, expires: Option<Time>)
  {
    predicate Live(now: Time) {
      expires.None? || now < expires.value
    }
  }

  datatype Account = Account(
    sub: Option<Subscription>, records: seq<Usage>,
    tokens: map<int, Counter>, requests: map<int, Counter>)

  // ---------- the cache ----------

  function Read(m: map<int, Counter>, key: int, now: Time): int {
    if key in m && m[key].Live(now) then m[key].value else 0
  }

  /** Increment, then set the expiry if it lies ahead. */
  function Bump(m: map<int, Counter>, key: int, delta: int, now: Time, expires: Time): map<int, Counter> {
    var base := if key in m && m[key].Live(now) then m[key] else Counter(0, None);
    m[key := Counter(base.value + delta, if expires > now then Some(expires) else base.expires)]
  }

  // ---------- the database ----------

  /** Tokens of the records since `start`; of the successful ones only, or of all. */
  function TokensSince(records: seq<Usage>, start: Time, onlySuccess: bool): int {
    if records == [] then 0 else
    var last := records[|records| - 1];
    TokensSince(records[..|records| - 1], start, onlySuccess)
      + if last.at >= start && (last.success || !onlySuccess) then last.tokens else 0
  }

  function RequestsOn(records: seq<Usage>, day: int, onlySuccess: bool): nat {
    if records == [] then 0 else
    var last := records[|records| - 1];
    RequestsOn(records[..|records| - 1], day, onlySuccess)
      + if Day(last.at) == day && (last.success || !onlySuccess) then 1 else 0
  }

  // ---------- the operations ----------

  /** Where a read is answered: the database is asked if the cache fails, and a
      failure of both counts as zero. */
  datatype Source = Cache | Database | Nowhere

  /** `onlySuccess`: the fallback query sums successful records only. */
  function TokensUsed(a: Account, month: Calendar, now: Time, source: Source, onlySuccess: bool): int
    requires a.sub.Some?
  {
    match source
    case Cache => Read(a.tokens, month(a.sub.value.start), now)
    case Database => TokensSince(a.records, a.sub.value.start, onlySuccess)
    case Nowhere => 0
  }

  function RequestsToday(a: Account, now: Time, source: Source): int {
    match source
    case Cache => Read(a.requests, Day(now), now)
    case Database => RequestsOn(a.records, Day(now), false)
    case Nowhere => 0
  }

  datatype Verdict = Admitted | QuotaExceeded | TokenLimitReached | RequestLimitReached

  datatype Reads = Reads(tokens: Source, requests: Source, onlySuccess: bool)

  function CheckSpec(a: Account, month: Calendar, now: Time, r: Reads): Verdict {
    if a.sub.None? || !a.sub.value.status.IsActive() then QuotaExceeded
    else
      var plan := a.sub.value.plan;
      if plan.monthlyTokens != -1 && TokensUsed(a, month, now, r.tokens, r.onlySuccess) >= plan.monthlyTokens
      then TokenLimitReached
      else if plan.dailyRequests != -1 && RequestsToday(a, now, r.requests) >= plan.dailyRequests
      then RequestLimitReached
      else Admitted
  }

  datatype QuotaStatus = QuotaStatus(
    tokensUsed: int, tokensLimit: int, tokensRemaining: int, requestsToday: int, requestsLimit: int, resetAt: Time)

  /** How the stores answer the writes of RecordUsage. */
  datatype Writes = Writes(create: bool, tokens: bool, requests: bool)

  function ConsumeSpec(a: Account, month: Calendar, now: Time, tokens: int, w: Writes): Account {
    if a.sub.None? then a else
    var s := a.sub.value;
    a.(tokens := if w.tokens then Bump(a.tokens, month(s.start), tokens, now, s.end + DAY) else a.tokens,
       requests := if w.requests then Bump(a.requests, Day(now), 1, now, (Day(now) + 1) * DAY) else a.requests)
  }

  function RecordSpec(a: Account, month: Calendar, now: Time, tokens: int, success: bool, w: Writes): Account {
    if !w.create then a else
    var a1 := a.(records := a.records + [Usage(now, tokens, success)]);
    if success then ConsumeSpec(a1, month, now, tokens, w) else a1
  }

  /** A webhook with the subscription's status and period. */
  function SyncSpec(a: Account, month: Calendar, status: Status, start: Time, end: Time, ok: bool, resetOk: bool)
    : Account
  {
    if a.sub.None? || !ok then a else
    var s := a.sub.value;
    var a1 := a.(sub := Some(s.(status := status, start := start, end := end)));
    if start > s.start && resetOk then a1.(tokens := a1.tokens - {month(s.start)}) else a1
  }

  /** A plan as the query for it answers. */
  datatype Offer = Offer(plan: Plan, active: bool)

  datatype Reply = Created | AlreadySubscribed | PlanUnreadable | PlanNotFound | PlanNotActive | CreateFailed

  /** If the look-up of an existing subscription fails (`!readOk`), the store still
      refuses a second one of the user. */
  function SubscribeSpec(a: Account, now: Time, end: Time, offer: Lookup<Offer>, readOk: bool, ok: bool)
    : (Account, Reply)
  {
    if readOk && a.sub.Some? then (a, AlreadySubscribed)
    else
      match offer
      case Unreadable => (a, PlanUnreadable)
      case Missing => (a, PlanNotFound)
      case Found(o) =>
        if !o.active then (a, PlanNotActive)
        else if a.sub.Some? || !ok then (a, CreateFailed)
        else (a.(sub := Some(Subscription(Active, now, end, o.plan))), Created)
  }

  /** Immediate cancellation also downgrades to the free plan. */
  function CancelSpec(a: Account, immediately: bool, free: Plan, ok: bool): Account {
    if a.sub.None? || a.sub.value.status.Canceled? || !immediately || !ok then a
    else a.(sub := Some(a.sub.value.(status := Canceled, plan := free)))
  }

  // ---------- the operations as methods ----------

  class QuotaCache {
    var tokens: map<int, Counter>
    var requests: map<int, Counter>
    const month: Calendar

    constructor (month: Calendar)
      ensures tokens == map[] && requests == map[] && this.month == month
    {
      tokens, requests, this.month := map[], map[], month;
    }

    method GetTokensUsed(now: Time, start: Time) returns (n: int)
      ensures n == Read(tokens, month(start), now)
    {
      var key := month(start);
      if key !in tokens || !tokens[key].Live(now) {
        return 0;
      }
      n := tokens[key].value;
    }

    method GetRequestsToday(now: Time) returns (n: int)
      ensures n == Read(requests, Day(now), now)
    {
      var key := Day(now);
      if key !in requests || !requests[key].Live(now) {
        return 0;
      }
      n := requests[key].value;
    }

    method IncrementTokens(now: Time, start: Time, end: Time, n: int, ok: bool)
      modifies this`tokens
      ensures tokens == if ok then Bump(old(tokens), month(start), n, now, end + DAY) else old(tokens)
    {
      if !ok {
        return;
      }
      var key := month(start);
      var base := if key in tokens && tokens[key].Live(now) then tokens[key] else Counter(0, None);
      var counter := base.(value := base.value + n);
      var ttl := end - now + DAY;
      if ttl > 0 {
        counter := counter.(expires := Some(now + ttl));
      }
      tokens := tokens[key := counter];
    }

    method IncrementRequests(now: Time, ok: bool)
      modifies this`requests
      ensures requests == if ok then Bump(old(requests), Day(now), 1, now, (Day(now) + 1) * DAY) else old(requests)
    {
      if !ok {
        return;
      }
      var key := Day(now);
      var base := if key in requests && requests[key].Live(now) then requests[key] else Counter(0, None);
      var counter := base.(value := base.value + 1);
      var ttl := (key + 1) * DAY - now;
      if ttl > 0 {
        counter := counter.(expires := Some(now + ttl));
      }
      requests := requests[key := counter];
    }

    method ResetTokens(start: Time, ok: bool)
      modifies this`tokens
      ensures tokens == if ok then old(tokens) - {month(start)} else old(tokens)
    {
      if ok {
        tokens := tokens - {month(start)};
      }
    }
  }

  class UsageDB {
    var records: seq<Usage>

    constructor ()
      ensures records == []
    {
      records := [];
    }

    method Create(r: Usage, ok: bool)
      modifies this
      ensures records == if ok then old(records) + [r] else old(records)
    {
      if ok {
        records := records + [r];
      }
    }
  }

  class BillingDomain {
    var sub: Option<Subscription>
    const cache: QuotaCache
    const usage: UsageDB

    function View(): Account
      reads this, cache, usage
    {
      Account(sub, usage.records, cache.tokens, cache.requests)
    }

    constructor (cache: QuotaCache, usage: UsageDB)
      ensures this.cache == cache && this.usage == usage && sub == None
    {
      this.cache, this.usage, sub := cache, usage, None;
    }

    method ReadTokens(now: Time, start: Time, source: Source, onlySuccess: bool) returns (n: int)
      requires sub.Some? && start == sub.value.start
      ensures n == TokensUsed(View(), cache.month, now, source, onlySuccess)
    {
      match source
      case Cache => n := cache.GetTokensUsed(now, start);
      case Database => n := TokensSince(usage.records, start, onlySuccess);
      case Nowhere => n := 0;
    }

    method ReadRequests(now: Time, source: Source) returns (n: int)
      ensures n == RequestsToday(View(), now, source)
    {
      match source
      case Cache => n := cache.GetRequestsToday(now);
      case Database => n := RequestsOn(usage.records, Day(now), false);
      case Nowhere => n := 0;
    }

    method CheckQuota(now: Time, r: Reads) returns (v: Verdict)
      ensures v == CheckSpec(View(), cache.month, now, r)
      ensures v == QuotaExceeded <==> sub.None? || !(sub.value.status.Active? || sub.value.status.Trialing?)
      ensures v != QuotaExceeded ==>
        var used := TokensUsed(View(), cache.month, now, r.tokens, r.onlySuccess);
        var today, plan := RequestsToday(View(), now, r.requests), sub.value.plan;
        && (v == TokenLimitReached <==> plan.monthlyTokens != -1 && used >= plan.monthlyTokens)
        && (v == RequestLimitReached <==>
              && (plan.monthlyTokens == -1 || used < plan.monthlyTokens)
              && plan.dailyRequests != -1 && today >= plan.dailyRequests)
        && (v == Admitted <==>
              && (plan.monthlyTokens == -1 || used < plan.monthlyTokens)
              && (plan.dailyRequests == -1 || today < plan.dailyRequests))
    {
      if sub.None? {
        return QuotaExceeded;
      }
      var s := sub.value;
      if !s.status.IsActive() {
        return QuotaExceeded;
      }
      if s.plan.monthlyTokens != -1 {
        var used := ReadTokens(now, s.start, r.tokens, r.onlySuccess);
        if used >= s.plan.monthlyTokens {
          return TokenLimitReached;
        }
      }
      if s.plan.dailyRequests != -1 {
        var today := ReadRequests(now, r.requests);
        if today >= s.plan.dailyRequests {
          return RequestLimitReached;
        }
      }
      v := Admitted;
    }

    /** What remains is never negative, and zero exactly if CheckQuota would find the
        token limit reached; -1 stands for unlimited. */
    method GetQuotaStatus(now: Time, r: Reads) returns (status: Option<QuotaStatus>)
      ensures status.None? <==> sub.None?
      ensures status.Some? ==>
        var q := status.value; var plan := sub.value.plan;
        && q.tokensUsed == TokensUsed(View(), cache.month, now, r.tokens, r.onlySuccess)
        && q.requestsToday == RequestsToday(View(), now, r.requests)
        && q.tokensLimit == plan.monthlyTokens && q.requestsLimit == plan.dailyRequests && q.resetAt == sub.value.end
        && (plan.monthlyTokens == -1 <==> q.tokensRemaining == -1)
        && (plan.monthlyTokens != -1 ==>
              && q.tokensRemaining >= 0
              && (q.tokensRemaining == 0 <==> q.tokensUsed >= plan.monthlyTokens)
              && (q.tokensRemaining > 0 ==> q.tokensUsed + q.tokensRemaining == plan.monthlyTokens))
    {
      if sub.None? {
        return None;
      }
      var plan := sub.value.plan;
      var used := ReadTokens(now, sub.value.start, r.tokens, r.onlySuccess);
      var today := ReadRequests(now, r.requests);
      var remaining := plan.monthlyTokens - used;
      if plan.monthlyTokens == -1 {
        remaining := -1;
      } else if remaining < 0 {
        remaining := 0;
      }
      status := Some(QuotaStatus(used, plan.monthlyTokens, remaining, today, plan.dailyRequests, sub.value.end));
    }

    method ConsumeQuota(now: Time, tokens: int, w: Writes)
      modifies cache
      ensures View() == ConsumeSpec(old(View()), cache.month, now, tokens, w)
      ensures sub.Some? && w.tokens ==>
        && cache.month(sub.value.start) in cache.tokens
        && Read(cache.tokens, cache.month(sub.value.start), now) ==
             Read(old(cache.tokens), cache.month(sub.value.start), now)
             + if cache.tokens[cache.month(sub.value.start)].Live(now) then tokens else 0
      ensures sub.Some? && w.requests ==>
        Read(cache.requests, Day(now), now) == Read(old(cache.requests), Day(now), now) + 1
    {
      if sub.None? {
        return;
      }
      cache.IncrementTokens(now, sub.value.start, sub.value.end, tokens, w.tokens);
      cache.IncrementRequests(now, w.requests);
    }

    method RecordUsage(now: Time, inputTokens: int, outputTokens: int, success: bool, w: Writes)
      modifies cache, usage
      ensures View() == RecordSpec(old(View()), cache.month, now, inputTokens + outputTokens, success, w)
      ensures usage.records ==
        old(usage.records) + if w.create then [Usage(now, inputTokens + outputTokens, success)] else []
      ensures !w.create || !success ==> cache.tokens == old(cache.tokens) && cache.requests == old(cache.requests)
    {
      var record := Usage(now, inputTokens + outputTokens, success);
      usage.Create(record, w.create);
      if w.create && success {
        ConsumeQuota(now, record.tokens, w);
      }
    }

    method UpdateSubscriptionFromStripe(status: Status, start: Time, end: Time, ok: bool, resetOk: bool)
      modifies this, cache
      ensures View() == SyncSpec(old(View()), cache.month, status, start, end, ok, resetOk)
      ensures sub == if old(sub).Some? && ok then Some(Subscription(status, start, end, old(sub).value.plan))
                     else old(sub)
      ensures cache.tokens ==
        if old(sub).Some? && ok && start > old(sub).value.start && resetOk
        then old(cache.tokens) - {cache.month(old(sub).value.start)} else old(cache.tokens)
    {
      if sub.None? || !ok {
        return;
      }
      var oldStart := sub.value.start;
      sub := Some(sub.value.(status := status, start := start, end := end));
      if start > oldStart {
        cache.ResetTokens(oldStart, resetOk);
      }
    }

    method CreateSubscription(now: Time, end: Time, offer: Lookup<Offer>, readOk: bool, ok: bool)
      returns (r: Reply)
      modifies this
      ensures (View(), r) == SubscribeSpec(old(View()), now, end, offer, readOk, ok)
      ensures r == Created <==> old(sub).None? && offer.Found? && offer.value.active && ok
      ensures sub == if r == Created then Some(Subscription(Active, now, end, offer.value.plan)) else old(sub)
      ensures r == AlreadySubscribed <==> readOk && old(sub).Some?
    {
      if readOk && sub.Some? {
        return AlreadySubscribed;
      }
      if offer.Unreadable? {
        return PlanUnreadable;
      }
      if offer.Missing? {
        return PlanNotFound;
      }
      if !offer.value.active {
        return PlanNotActive;
      }
      if sub.Some? || !ok {
        return CreateFailed;
      }
      sub := Some(Subscription(Active, now, end, offer.value.plan));
      r := Created;
    }

    method CancelSubscription(immediately: bool, free: Plan, ok: bool)
      modifies this
      ensures View() == CancelSpec(old(View()), immediately, free, ok)
      ensures var cancels := old(sub).Some? && !old(sub).value.status.Canceled? && immediately && ok;
        sub == if cancels then Some(old(sub).value.(status := Canceled, plan := free)) else old(sub)
    {
      if sub.Some? && !sub.value.status.Canceled? && immediately && ok {
        sub := Some(sub.value.(status := Canceled, plan := free));
      }
    }
  }
}
