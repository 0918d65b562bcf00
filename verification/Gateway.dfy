/** One request through the AI gateway's policy chain (ai/gateway.py), as a function on values whose
    state remembers everything: every hit, every charge, every put, every provider call.
    `AIGateway.dfy` runs the same chain over the forgetful objects and is proved against this. */
module Gateway {
  import opened Wrappers
  import opened AiTypes
  import opened Windows
  import opened Governance
  import opened RateLimiter
  import opened ResponseCache
  import Pricing
  import opened Routing

  datatype RateKey = RateKey(principal: string, task: TaskType)

  function KeyOf(request: Request): RateKey {
    var principal := request.principal;
    RateKey(if principal.None? || principal.value == "" then "anonymous" else principal.value, request.task)
  }

  datatype Settings = Settings(
    aiEnabled: bool,
    allowUnpriced: bool,
    hasRecorder: bool,
    limits: RateLimits,
    budget: Budget,
    rates: Pricing.Rates,
    defaultTtl: int,
    registry: Registry,
    providers: set<string>)

  datatype Stats = Stats(
    requests: int, succeeded: int, failed: int, blockedRateLimit: int, blockedBudget: int,
    cacheHits: int, escalations: int, localCalls: int, frontierCalls: int)

  const NO_STATS := Stats(0, 0, 0, 0, 0, 0, 0, 0, 0)

  /** One call to a provider. */
  datatype Call = Call(provider: string, model: string, tier: Tier)

  datatype State = State(
    stats: Stats,
    hits: map<RateKey, seq<int>>,
    spend: seq<Entry>,
    puts: seq<Put>,
    inFlight: set<Fingerprint>,
    audit: seq<Response>,
    calls: seq<Call>)

  const IDLE := State(NO_STATS, map[], [], [], {}, [], [])

  /** The clock as each step of one invocation reads it. */
  datatype Clock = Clock(
    rateCheck: int, cacheGet: int, preRoute: int, budgetCheck: int, rateRecord: int, charge: int, cachePut: int)

  ghost predicate Forward(clock: Clock, latest: int) {
    latest <= clock.rateCheck <= clock.cacheGet <= clock.preRoute <= clock.budgetCheck
    <= clock.rateRecord <= clock.charge <= clock.cachePut
  }

  /** What a provider may do with one attempt. */
  datatype Outcome = Answers(response: Response) | Fails(kind: ErrorKind)

  predicate Retryable(kind: ErrorKind) {
    kind == ProviderUnavailable || kind == InvalidResponse
  }

  function HitsOf(hits: map<RateKey, seq<int>>, key: RateKey): seq<int> {
    if key in hits then hits[key] else []
  }

  function Audited(settings: Settings, audit: seq<Response>, response: Response): seq<Response> {
    if settings.hasRecorder then audit + [response] else audit
  }

  /** The failure exit: counted once, audited once, never carrying text. */
  function Fail(settings: Settings, s: State, request: Request, kind: ErrorKind): (State, Response) {
    var response := Unavailable(request.requestId, kind, "none", "none", None);
    (s.(stats := s.stats.(failed := s.stats.failed + 1), audit := Audited(settings, s.audit, response)), response)
  }

  /** A step inside the chain that may raise; the state carries what happened before it did. */
  datatype Chained = Returned(state: State, response: Response) | Raised(state: State, kind: ErrorKind)

  /** How many of the attempts are made, and how they end. */
  datatype Attempts = Attempts(made: nat, outcome: Outcome)

  function Try(provider: nat -> Outcome, attempt: nat, maxAttempts: nat): Attempts
    requires 1 <= attempt <= maxAttempts
    decreases maxAttempts - attempt
  {
    var outcome := provider(attempt);
    if outcome.Fails? && Retryable(outcome.kind) && attempt < maxAttempts then Try(provider, attempt + 1, maxAttempts)
    else Attempts(attempt, outcome)
  }

  function Repeat(call: Call, n: nat): seq<Call> {
    seq(n, _ => call)
  }

  /** Calls the one routed provider and model, at most as often as the policy allows. */
  function CallProvider(
    settings: Settings, s: State, request: Request, decision: Decision, provider: nat -> Outcome)
    : Chained
  {
    if decision.provider !in settings.providers then Raised(s, NoRoute)
    else
      var attempts := Try(provider, 1, request.policy.maxAttempts);
      var called := s.(calls := s.calls
        + Repeat(Call(decision.provider, decision.model, decision.tier), attempts.made));
      match attempts.outcome
      case Fails(kind) => Raised(called, kind)
      case Answers(response) =>
        Returned(called, response.(routing := Some(decision), retryCount := attempts.made - 1))
  }

  /** Pricing, charging, caching, counting and auditing an answer. */
  function Account(settings: Settings, s: State, request: Request, decision: Decision, answer: Response, clock: Clock)
    : (State, Response)
  {
    var response: Response := answer.(cost := Pricing.Estimate(settings.rates, answer.model, answer.usage));
    var stats := s.stats.(
      succeeded := s.stats.succeeded + 1,
      escalations := s.stats.escalations + if decision.escalated then 1 else 0,
      localCalls := s.stats.localCalls + if decision.tier == Local then 1 else 0,
      frontierCalls := s.stats.frontierCalls + if decision.tier == Local then 0 else 1);
    (s.(stats := stats,
        spend := Governance.Charge(s.spend, response.cost, clock.charge),
        puts := Store(s.puts, request.FingerprintOf(), response, TaskTtl(request.task), clock.cachePut),
        audit := Audited(settings, s.audit, response)),
     response)
  }

  function Routed(settings: Settings, s: State, request: Request, provider: nat -> Outcome, clock: Clock): Chained {
    var degraded := CheckBudget(settings.budget, s.spend, None, clock.preRoute).state == Warning;
    var routed := Route(settings.registry, request, degraded);
    if routed.None? then Raised(s, NoRoute)
    else
      var decision := routed.value;
      var projected := Pricing.Project(
        settings.rates, decision.model, request.ContextSize(), request.policy.maxOutputTokens);
      var verdict := CheckBudget(settings.budget, s.spend, projected, clock.budgetCheck);
      if projected.None? && !settings.allowUnpriced then Raised(s, BudgetExceeded)
      else if verdict.state == Exceeded then
        var blocked := Unavailable(
          request.requestId, BudgetExceeded, decision.provider, decision.model, Some(decision));
        Raised(
          s.(stats := s.stats.(blockedBudget := s.stats.blockedBudget + 1),
            audit := Audited(settings, s.audit, blocked)),
          BudgetExceeded)
      else
        var key := KeyOf(request);
        var recorded := s.(hits := s.hits[key := HitsOf(s.hits, key) + [clock.rateRecord]]);
        var called := CallProvider(settings, recorded, request, decision, provider);
        match called
        case Raised(_, _) => called
        case Returned(after, answer) =>
          var (final, response) := Account(settings, after, request, decision, answer, clock);
          Returned(final, response)
  }

  /** The part under the in-flight claim: refused when the claim is taken, released however it ends. */
  function CoalescedInvoke(settings: Settings, s: State, request: Request, provider: nat -> Outcome, clock: Clock)
    : (State, Response)
  {
    var fingerprint := request.FingerprintOf();
    if fingerprint in s.inFlight then Fail(settings, s, request, ProviderUnavailable)
    else
      var chained := Routed(settings, s.(inFlight := s.inFlight + {fingerprint}), request, provider, clock);
      var released := chained.state.(inFlight := chained.state.inFlight - {fingerprint});
      match chained
      case Returned(_, response) => (released, response)
      case Raised(_, kind) => Fail(settings, released, request, kind)
  }

  function Invoke(settings: Settings, before: State, request: Request, provider: nat -> Outcome, clock: Clock)
    : (State, Response)
  {
    var s := before.(stats := before.stats.(requests := before.stats.requests + 1));
    var fingerprint := request.FingerprintOf();
    if !settings.aiEnabled then Fail(settings, s, request, ProviderUnavailable)
    else if !CheckRate(settings.limits, HitsOf(s.hits, KeyOf(request)), clock.rateCheck).allowed then
      Fail(settings, s.(stats := s.stats.(blockedRateLimit := s.stats.blockedRateLimit + 1)), request,
        RateLimitExceeded)
    else
      var cached := Lookup(s.puts, fingerprint, clock.cacheGet);
      if cached.Some? then
        (s.(stats := s.stats.(cacheHits := s.stats.cacheHits + 1)), AsCached(cached.value, request.requestId))
      else CoalescedInvoke(settings, s, request, provider, clock)
  }

  // ----- runs -----

  /** One invocation: what was asked, what the provider would do, and when. */
  datatype Invocation = Invocation(request: Request, provider: nat -> Outcome, clock: Clock)

  function AfterAll(settings: Settings, invocations: seq<Invocation>): State {
    if invocations == [] then IDLE else
      var last := invocations[|invocations| - 1];
      Invoke(settings, AfterAll(settings, invocations[..|invocations| - 1]), last.request, last.provider, last.clock).0
  }
}
