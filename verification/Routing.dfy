/** The routing strategies of internal/domain/ai/strategy.go as functions on
    sequences of candidates, with float64 as real. The random draws of the load
    balancer are a parameter: `jitter(k, i)` is added by strategy number `k` of a
    chain to candidate number `i`. */
module Routing {
  datatype Model = Model(
    id: string, provider: string, capabilities: seq<string>, window: int,
    inputCost: real, outputCost: real)

  function Cost(m: Model): real {
    m.inputCost + m.outputCost
  }

  datatype Context = Context(
    estimatedTokens: int, minContextWindow: int,
    stream: bool, tools: bool, vision: bool, json: bool,
    optimize: string, preferred: seq<string>, health: map<string, bool>)

  datatype Candidate = Candidate(
    model: Model, score: real, breakdown: map<string, real>, reasons: seq<string>)

  type Jitter = (nat, nat) -> real

  ghost predicate Random(jitter: Jitter) {
    forall k, i :: 0.0 <= jitter(k, i) < 0.1
  }

  function Add(c: Candidate, name: string, bonus: real, reason: string): Candidate {
    Candidate(c.model, c.score + bonus, c.breakdown[name := bonus],
              if reason != "" then c.reasons + [reason] else c.reasons)
  }

  /** The built-in strategies, and any other strategy that keeps candidates one by
      one and adds at most one score to each. */
  datatype Strategy =
    | UserPreference | HealthFilter | CapabilityFilter | ContextWindow | CostOptimization | LoadBalancing
    | Custom(name: string, priority: int, keep: Model -> bool, bonus: Model -> real, reason: string)
  {
    function Name(): string {
      match this
      case UserPreference => "user_preference"
      case HealthFilter => "health_filter"
      case CapabilityFilter => "capability_filter"
      case ContextWindow => "context_window"
      case CostOptimization => "cost_optimization"
      case LoadBalancing => "load_balancing"
      case Custom(name, _, _, _, _) => name
    }

    function Priority(): int {
      match this
      case UserPreference => 100
      case HealthFilter => 90
      case CapabilityFilter => 80
      case ContextWindow => 70
      case CostOptimization => 50
      case LoadBalancing => 10
      case Custom(_, priority, _, _, _) => priority
    }
  }

  // ---------- filters ----------

  /** What a filter asks of one model. */
  datatype Test =
    | Preferred(models: seq<string>)
    | NotUnhealthy(health: map<string, bool>)
    | Capable(needed: seq<string>)
    | Fits(window: int)
    | HasWindow(window: int)
    | Chosen(keep: Model -> bool)
  {
    predicate Passes(m: Model) {
      match this
      case Preferred(models) => m.id in models
      case NotUnhealthy(health) => m.provider in health ==> health[m.provider]
      case Capable(needed) => forall c :: c in needed ==> c in m.capabilities
      case Fits(window) => m.window >= window
      case HasWindow(window) => m.window == window
      case Chosen(keep) => keep(m)
    }
  }

  function Keep(t: Test, cs: seq<Candidate>): seq<Candidate> {
    if cs == [] then [] else
    var last := cs[|cs| - 1];
    Keep(t, cs[..|cs| - 1]) + if t.Passes(last.model) then [last] else []
  }

  lemma {:induction false} KeepSome(t: Test, cs: seq<Candidate>)
    ensures forall c :: c in Keep(t, cs) ==> c in cs
    decreases |cs|
  {
    if cs != [] {
      KeepSome(t, cs[..|cs| - 1]);
    }
  }

  /** The soft filters give everything back rather than nothing. */
  function KeepOrAll(t: Test, cs: seq<Candidate>): seq<Candidate> {
    if Keep(t, cs) == [] then cs else Keep(t, cs)
  }

  function RequiredCapabilities(ctx: Context): seq<string> {
    ["chat"]
    + (if ctx.stream then ["stream"] else [])
    + (if ctx.tools then ["tools"] else [])
    + (if ctx.vision then ["vision"] else [])
    + (if ctx.json then ["json_mode"] else [])
  }

  const RESPONSE_BUFFER := 4096

  predicate NoContextNeeded(ctx: Context) {
    ctx.estimatedTokens == 0 && ctx.minContextWindow == 0
  }

  function RequiredWindow(ctx: Context): int {
    if ctx.minContextWindow > ctx.estimatedTokens + RESPONSE_BUFFER
    then ctx.minContextWindow
    else ctx.estimatedTokens + RESPONSE_BUFFER
  }

  function MaxWindow(cs: seq<Candidate>): int {
    if cs == [] then 0 else
    var m := MaxWindow(cs[..|cs| - 1]);
    var w := cs[|cs| - 1].model.window;
    if w > m then w else m
  }

  function FilterSpec(s: Strategy, ctx: Context, cs: seq<Candidate>): seq<Candidate> {
    match s
    case UserPreference => if ctx.preferred == [] then cs else KeepOrAll(Preferred(ctx.preferred), cs)
    case HealthFilter => if ctx.health == map[] then cs else KeepOrAll(NotUnhealthy(ctx.health), cs)
    case CapabilityFilter => Keep(Capable(RequiredCapabilities(ctx)), cs)
    case ContextWindow =>
      if NoContextNeeded(ctx) then cs
      else if Keep(Fits(RequiredWindow(ctx)), cs) != [] then Keep(Fits(RequiredWindow(ctx)), cs)
      else Keep(HasWindow(MaxWindow(cs)), cs)
    case Custom(_, _, keep, _, _) => Keep(Chosen(keep), cs)
    case _ => cs
  }

  // ---------- scores ----------

  /** The last position counts: the number of entries from there to the end. */
  function PreferenceOrder(preferred: seq<string>, id: string): nat {
    if preferred == [] then 0
    else if id in preferred[1..] then PreferenceOrder(preferred[1..], id)
    else if preferred[0] == id then |preferred|
    else 0
  }

  function MinCost(cs: seq<Candidate>): real {
    if cs == [] then -1.0 else
    var m := MinCost(cs[..|cs| - 1]);
    var cost := Cost(cs[|cs| - 1].model);
    if m < 0.0 || cost < m then cost else m
  }

  function WindowBonus(window: int, max: int): real
    requires max != 0
  {
    window as real / max as real * 5.0
  }

  function CostBonus(cost: real, min: real): real
    requires cost != 0.0
  {
    min / cost * 20.0
  }

  /** Candidate `c` after scoring, as number `i` of `cs`, by strategy number `k`. */
  function ScoreOne(s: Strategy, k: nat, ctx: Context, cs: seq<Candidate>, jitter: Jitter, i: nat, c: Candidate)
    : Candidate
  {
    match s
    case UserPreference =>
      if c.model.id in ctx.preferred
      then Add(c, s.Name(), PreferenceOrder(ctx.preferred, c.model.id) as real * 10.0, "user preference")
      else c
    case ContextWindow =>
      if NoContextNeeded(ctx) || MaxWindow(cs) == 0 then c
      else Add(c, s.Name(), WindowBonus(c.model.window, MaxWindow(cs)), "context window")
    case CostOptimization =>
      if ctx.optimize != "cost" || MinCost(cs) <= 0.0 || Cost(c.model) <= 0.0 then c
      else Add(c, s.Name(), CostBonus(Cost(c.model), MinCost(cs)), "cost optimization")
    case LoadBalancing => Add(c, s.Name(), jitter(k, i), "load balancing")
    case Custom(_, _, _, bonus, reason) => Add(c, s.Name(), bonus(c.model), reason)
    case _ => c
  }

  function ScoreSpec(s: Strategy, k: nat, ctx: Context, cs: seq<Candidate>, jitter: Jitter): seq<Candidate> {
    seq(|cs|, i requires 0 <= i < |cs| => ScoreOne(s, k, ctx, cs, jitter, i, cs[i]))
  }

  // ---------- chains ----------

  datatype Outcome = NoCandidates | NoneAfter(filter: string) | Ranked(candidates: seq<Candidate>)

  /** The loop of Execute from strategy number `k` on. */
  function RunSpec(ss: seq<Strategy>, k: nat, ctx: Context, cs: seq<Candidate>, jitter: Jitter): Outcome
    requires k <= |ss|
    decreases |ss| - k
  {
    if k == |ss| then Ranked(cs) else
    var kept := FilterSpec(ss[k], ctx, cs);
    if kept == [] then NoneAfter(ss[k].Name())
    else RunSpec(ss, k + 1, ctx, ScoreSpec(ss[k], k, ctx, kept, jitter), jitter)
  }

  function ExecuteSpec(ss: seq<Strategy>, ctx: Context, cs: seq<Candidate>, jitter: Jitter): Outcome {
    if cs == [] then NoCandidates else RunSpec(ss, 0, ctx, cs, jitter)
  }

  /** What sorting by descending score can put first. */
  ghost predicate Winner(cs: seq<Candidate>, w: Candidate) {
    w in cs && forall c :: c in cs ==> c.score <= w.score
  }

  const DEFAULT := [UserPreference, HealthFilter, CapabilityFilter, ContextWindow, CostOptimization, LoadBalancing]

  function Fresh(ms: seq<Model>): seq<Candidate> {
    seq(|ms|, i requires 0 <= i < |ms| => Candidate(ms[i], 0.0, map[], []))
  }
}
