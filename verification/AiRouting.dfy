/** Route and getCandidates (internal/domain/ai/domain.go): from the tables of models
    and providers to the routed model and the key to call it with. */
module AiRouting {
  import opened Options
  import opened Routing
  import opened RoutingTheorems
  import opened RoutingWinners
  import opened StrategyChain
  import opened Router
  import AccountPool

  datatype ModelRow = ModelRow(model: Model, enabled: bool)

  datatype ProviderRow = ProviderRow(enabled: bool, key: string)

  /** What the queries for single rows find; one that fails counts as a missing row. */
  datatype Tables = Tables(
    models: map<string, ModelRow>, providers: map<string, ProviderRow>, groups: map<string, seq<string>>)

  /** The model is enabled, and so is its provider. */
  predicate Usable(t: Tables, id: string) {
    && id in t.models && t.models[id].enabled
    && t.models[id].model.provider in t.providers && t.providers[t.models[id].model.provider].enabled
  }

  function UsableModels(t: Tables, ids: seq<string>): seq<Model> {
    if ids == [] then [] else
    var last := ids[|ids| - 1];
    UsableModels(t, ids[..|ids| - 1]) + if Usable(t, last) then [t.models[last].model] else []
  }

  /** Row `id` is model `m`, and both it and its provider are enabled. */
  predicate Offers(t: Tables, id: string, m: Model) {
    && id in t.models && t.models[id].enabled && t.models[id].model == m
    && m.provider in t.providers && t.providers[m.provider].enabled
  }

  lemma {:induction false} UsableExactly(t: Tables, ids: seq<string>)
    ensures forall m :: m in UsableModels(t, ids) <==> exists id :: id in ids && Offers(t, id, m)
    decreases |ids|
  {
    if ids != [] {
      var front, last := ids[..|ids| - 1], ids[|ids| - 1];
      UsableExactly(t, front);
      assert ids == front + [last];
      assert Usable(t, last) <==> last in t.models && Offers(t, last, t.models[last].model);
      forall m ensures m in UsableModels(t, ids) <==> exists id :: id in ids && Offers(t, id, m) {
        if Offers(t, last, m) { assert m in UsableModels(t, ids); }
        if id :| id in front && Offers(t, id, m) { assert m in UsableModels(t, front); }
      }
    }
  }

  /** What FindByCapabilities may answer: the enabled models with all required
      capabilities. */
  ghost predicate Answers(t: Tables, ctx: Context, listed: seq<string>) {
    forall id :: id in listed <==>
      id in t.models && t.models[id].enabled && HasRequired(ctx, t.models[id].model)
  }

  /** With a routed model come the key and, if the key is an account's, the account. */
  datatype Decision =
    | QueryFailed | NoGroup | NoModels
    | Refused(result: Result)
    | Granted(result: Result, account: Option<AccountPool.AccountId>, key: string)
  {
    predicate Tried() {
      Refused? || Granted?
    }
  }

  function ProviderKey(t: Tables, provider: string): string {
    if provider in t.providers then t.providers[provider].key else ""
  }

  /** The query for the accounts of a provider: its answer, and whether it succeeds. */
  datatype Accounts = Accounts(found: string -> seq<AccountPool.AccountId>, ok: bool)

  /** What the health monitor knows overrides what the context says. */
  function WithHealth(ctx: Context, known: map<string, bool>): Context {
    ctx.(health := ctx.health + known)
  }

  class AiDomain {
    var tables: Tables
    var healthStatus: map<string, bool>
    const chain: Chain
    const pool: AccountPool.Domain

    constructor (tables: Tables, chain: Chain, pool: AccountPool.Domain)
      ensures this.tables == tables && healthStatus == map[] && this.chain == chain && this.pool == pool
    {
      this.tables, healthStatus, this.chain, this.pool := tables, map[], chain, pool;
    }

    /** One fresh candidate for each usable model, in the order listed. */
    method BuildCandidates(ids: seq<string>) returns (candidates: seq<ScoredCandidate>)
      ensures Views(candidates) == Fresh(UsableModels(tables, ids))
      ensures Apart(candidates) && fresh(set c | c in candidates)
    {
      candidates := [];
      var i := 0;
      while i < |ids|
        invariant 0 <= i <= |ids|
        invariant Views(candidates) == Fresh(UsableModels(tables, ids[..i]))
        invariant Apart(candidates) && fresh(set c | c in candidates)
      {
        Front(ids, i);
        if ids[i] in tables.models && tables.models[ids[i]].enabled {
          var model := tables.models[ids[i]].model;
          if model.provider in tables.providers && tables.providers[model.provider].enabled {
            var c := new ScoredCandidate(model);
            ViewsAppend(candidates, c);
            FreshAppend(UsableModels(tables, ids[..i]), model);
            candidates := candidates + [c];
          }
        }
        i := i + 1;
      }
      assert ids[..|ids|] == ids;
    }

    /** `queryOk`: the query for the group, or for the list of models, succeeds. */
    method Route(ctx: Context, group: Option<string>, queryOk: bool, listed: seq<string>, jitter: Jitter,
                 accounts: Accounts, decrypt: string -> Option<string>) returns (r: Decision)
      requires forall p, id :: id in accounts.found(p) ==> id in pool.accounts
      ensures r.QueryFailed? <==> !queryOk
      ensures r.NoGroup? <==> queryOk && group.Some? && group.value !in tables.groups
      ensures queryOk && !r.NoGroup? ==>
        var models := UsableModels(tables, if group.Some? then tables.groups[group.value] else listed);
        && (r.NoModels? <==> models == [])
        && (r.Tried() ==>
              Reports(ExecuteSpec(chain.strategies, WithHealth(ctx, healthStatus), Fresh(models), jitter), r.result))
      ensures r.Tried() ==> (r.Granted? <==> r.result.Routed?)
      ensures r.Granted? ==>
        exists id :: id in (if group.Some? then tables.groups[group.value] else listed)
                     && Offers(tables, id, r.result.model)
      ensures r.Granted? ==>
        var found, view := accounts.found(r.result.model.provider), pool.View();
        var decrypts := found != [] && decrypt(pool.accounts[AccountPool.BestOf(view, found)].secret).Some?;
        && r.account == AccountPool.Chosen(view, found, accounts.ok, decrypts)
        && (r.account.None? ==>
              r.result.model.provider in tables.providers && r.key == tables.providers[r.result.model.provider].key)
        && (r.account.Some? ==> Some(r.key) == decrypt(pool.accounts[r.account.value].secret))
    {
      if !queryOk {
        return QueryFailed;
      }
      var ids := listed;
      if group.Some? {
        if group.value !in tables.groups {
          return NoGroup;
        }
        ids := tables.groups[group.value];
      }
      var candidates := BuildCandidates(ids);
      ViewsAt(candidates);
      if |candidates| == 0 {
        return NoModels;
      }
      var result := chain.Execute(ctx.(health := ctx.health + healthStatus), candidates, jitter);
      if !result.Routed? {
        return Refused(result);
      }
      ResultIsGiven(chain.strategies, WithHealth(ctx, healthStatus), UsableModels(tables, ids), jitter, result);
      UsableExactly(tables, ids);
      var provider := result.model.provider;
      var own, found := ProviderKey(tables, provider), accounts.found(provider);
      var account, key := pool.ResolveAPIKey(own, found, accounts.ok, decrypt);
      r := Granted(result, account, key);
    }
  }

  lemma {:induction false} RunModels(ss: seq<Strategy>, k: nat, ctx: Context, cs: seq<Candidate>, jitter: Jitter)
    requires k <= |ss|
    ensures var out := RunSpec(ss, k, ctx, cs, jitter); out.Ranked? ==> Models(out.candidates) <= Models(cs)
    decreases |ss| - k
  {
    if k < |ss| {
      var kept := FilterSpec(ss[k], ctx, cs);
      FiltersKeep(ss[k], ctx, cs);
      ScoredModels(ss[k], k, ctx, kept, jitter);
      RunModels(ss, k + 1, ctx, ScoreSpec(ss[k], k, ctx, kept, jitter), jitter);
    }
  }

  /** Whatever the strategies, the routed model is one of those given. */
  lemma ResultIsGiven(ss: seq<Strategy>, ctx: Context, ms: seq<Model>, jitter: Jitter, r: Result)
    requires Reports(ExecuteSpec(ss, ctx, Fresh(ms), jitter), r) && r.Routed?
    ensures r.model in ms
  {
    FreshModels(ms);
    RunModels(ss, 0, ctx, Fresh(ms), jitter);
    var cs := ExecuteSpec(ss, ctx, Fresh(ms), jitter).candidates;
    var w :| Winner(cs, w) && r == Routed(w.model, w.score, Join(w.reasons));
    assert w.model in Models(cs);
  }

  /** A key from the pool belongs to an active account of the routed model's provider
      that is not unhealthy, and no other such account has a higher priority. */
  lemma RoutedAccountIsBest(p: AccountPool.Pool, provider: string, found: seq<AccountPool.AccountId>, ok: bool,
                            decrypts: bool, other: AccountPool.AccountId)
    requires AccountPool.Answers(p, provider, found) && AccountPool.Available(p, provider, other)
    requires AccountPool.Chosen(p, found, ok, decrypts).Some?
    ensures var id := AccountPool.Chosen(p, found, ok, decrypts).value;
      AccountPool.Available(p, provider, id) && p.accounts[other].priority <= p.accounts[id].priority
  {
    AccountPool.ServedIsBest(
      p, AccountPool.Request(provider, found, ok, decrypts, AccountPool.Unrecorded, true), other);
  }

  lemma FreshAppend(ms: seq<Model>, m: Model)
    ensures Fresh(ms + [m]) == Fresh(ms) + [Candidate(m, 0.0, map[], [])]
  {
  }

  /** The model that Route reports with the default chain is a usable one of those
      listed and has all required capabilities; it is known to be unhealthy only if
      all models of its stage are. */
  lemma RoutedIsUsable(t: Tables, ids: seq<string>, ctx: Context, known: map<string, bool>, jitter: Jitter, r: Result)
    requires Reports(Route(WithHealth(ctx, known), UsableModels(t, ids), jitter), r) && r.Routed?
    ensures exists id :: id in ids && Offers(t, id, r.model)
    ensures "chat" in r.model.capabilities
    ensures (ctx.stream ==> "stream" in r.model.capabilities) && (ctx.tools ==> "tools" in r.model.capabilities)
    ensures (ctx.vision ==> "vision" in r.model.capabilities) && (ctx.json ==> "json_mode" in r.model.capabilities)
    ensures ReportedDown(ctx, known, r.model) ==>
      forall m :: m in Preferable(ctx, Elements(UsableModels(t, ids))) ==> ReportedDown(ctx, known, m)
  {
    var ms, ctx' := UsableModels(t, ids), WithHealth(ctx, known);
    var w :| Winner(Route(ctx', ms, jitter).candidates, w) && r == Routed(w.model, w.score, Join(w.reasons));
    WinnerIsSound(ctx', ms, jitter, w);
    UsableExactly(t, ids);
    forall m: Model ensures KnownUnhealthy(ctx', m) <==> ReportedDown(ctx, known, m) {}
    SamePreferences(ctx, ctx', Elements(ms));
  }

  /** The monitor says that the provider is down, or does not know it and the request
      says so. */
  predicate ReportedDown(ctx: Context, known: map<string, bool>, m: Model) {
    if m.provider in known then !known[m.provider]
    else m.provider in ctx.health && !ctx.health[m.provider]
  }

  lemma SamePreferences(ctx: Context, ctx': Context, s: set<Model>)
    requires ctx'.preferred == ctx.preferred
    ensures Preferable(ctx', s) == Preferable(ctx, s)
  {
    assert forall m: Model :: IsPreferred(ctx', m) <==> IsPreferred(ctx, m);
  }

  /** Without a group, and with windows that are not negative, routing fails only for
      want of usable models: the query has asked for the capabilities already. */
  lemma UngroupedRoutes(t: Tables, ctx: Context, listed: seq<string>, known: map<string, bool>, jitter: Jitter)
    requires Answers(t, ctx, listed) && UsableModels(t, listed) != []
    requires forall m :: m in UsableModels(t, listed) ==> m.window >= 0
    ensures Route(WithHealth(ctx, known), UsableModels(t, listed), jitter).Ranked?
  {
    var ms, ctx' := UsableModels(t, listed), WithHealth(ctx, known);
    UsableExactly(t, listed);
    SomebodyHealthy(ctx', ms);
    var m :| m in Healthy(ctx', Preferable(ctx', Elements(ms)));
    assert m in ms && HasRequired(ctx, m);
    SucceedsIffSomebodyIsAble(ctx', ms, jitter);
  }

  lemma SomebodyHealthy(ctx: Context, ms: seq<Model>)
    requires ms != []
    ensures Healthy(ctx, Preferable(ctx, Elements(ms))) != {}
  {
    assert ms[0] in Elements(ms);
    var preferable := Preferable(ctx, Elements(ms));
    assert preferable != {} by {
      if m :| m in Elements(ms) && IsPreferred(ctx, m) { assert m in preferable; }
    }
    if m :| m in preferable && !KnownUnhealthy(ctx, m) { assert m in Healthy(ctx, preferable); }
  }
}
