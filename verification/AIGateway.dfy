/** The gateway as the source runs it: counters incremented in place, a limiter, a ledger and a cache
    that forget, a retry loop, and an in-flight claim released on every exit. Proved to answer and to
    account exactly as `Gateway.Invoke` does with perfect memory. */
module AIGateway {
  import opened Wrappers
  import opened AiTypes
  import opened Windows
  import opened Governance
  import opened RateLimiter
  import opened ResponseCache
  import opened Routing
  import opened Gateway
  import GatewayLaws

  class Gatekeeper {
    const settings: Settings
    const limiter: Limiter<RateKey>
    const budget: BudgetLedger
    const cache: Cache
    var stats: Stats
    var audit: seq<Response>
    ghost var calls: seq<Call>

    /** Each part is sound, configured as the gateway is, and has heard of no clock reading after `latest`
        and of none out of order. */
    ghost predicate LimiterReady(latest: int)
      reads limiter
    {
      limiter.Valid() && limiter.limits == settings.limits
      && forall key :: OnTime(limiter.LogOf(key), limiter.PoppedOf(key), latest)
    }

    ghost predicate BudgetReady(latest: int)
      reads budget, budget.windows
    {
      budget.Valid() && budget.budget == settings.budget
      && Punctual(settings.budget.rules, budget.log, budget.Counts(), latest)
    }

    ghost predicate CacheReady(latest: int)
      reads cache`entries, cache`log
    {
      cache.Valid() && cache.defaultTtl == settings.defaultTtl && Current(cache.entries, cache.log, latest)
    }

    ghost predicate Valid(latest: int)
      reads limiter, budget, budget.windows, cache`entries, cache`log
    {
      LimiterReady(latest) && BudgetReady(latest) && CacheReady(latest)
    }

    /** Everything that ever happened, as the ghost logs remember it. */
    ghost function Contents(): State
      reads this, limiter, budget, cache
    {
      State(stats, limiter.log, budget.log, cache.log, cache.inFlight, audit, calls)
    }

    constructor (
      settings: Settings, limiter: Limiter<RateKey>, budget: BudgetLedger, cache: Cache, ghost latest: int)
      requires limiter.Valid() && limiter.limits == settings.limits && limiter.log == map[] && limiter.popped == map[]
      requires budget.Valid() && budget.budget == settings.budget && budget.log == []
      requires forall i | 0 <= i < |budget.windows| :: budget.Counts()[i] == 0
      requires forall i | 0 <= i < |settings.budget.rules| :: WellFormed(settings.budget.rules[i].span)
      requires cache.Valid() && cache.defaultTtl == settings.defaultTtl
      requires cache.log == [] && cache.entries == map[] && cache.inFlight == {}
      ensures Valid(latest) && Contents() == IDLE
      ensures this.limiter == limiter && this.budget == budget && this.cache == cache && this.settings == settings
    {
      this.settings, this.limiter, this.budget, this.cache := settings, limiter, budget, cache;
      stats, audit, calls := NO_STATS, [], [];
    }

    /** Readiness lasts: later readings only come later. */
    lemma StaysReady(rates: int, charges: int, answers: int, now: int)
      requires LimiterReady(rates) && BudgetReady(charges) && CacheReady(answers)
      requires rates <= now && charges <= now && answers <= now
      ensures Valid(now)
    {
      hide Limiter.Valid, BudgetLedger.Valid, Cache.Valid, Gone, WellFormed, LastPut;
      PunctualLater(settings.budget.rules, budget.log, budget.Counts(), charges, now);
    }

    /** The rate verdict, which is the one the full history gives. */
    method CheckRates(key: RateKey, now: int, ghost latest: int) returns (verdict: RateVerdict)
      requires LimiterReady(latest) && latest <= now
      modifies limiter`hits, limiter`popped
      ensures LimiterReady(now) && verdict == CheckRate(settings.limits, HitsOf(limiter.log, key), now)
    {
      hide CheckLeft, CheckRate, Limiter.Valid;
      ghost var counts := limiter.popped;
      forall other ensures var (exact, after) := CheckLeft(
        settings.limits, limiter.LogOf(other), limiter.PoppedOf(other), now);
        && exact == CheckRate(settings.limits, limiter.LogOf(other), now) && OnTime(limiter.LogOf(other), after, now)
        && OnTime(limiter.LogOf(other), limiter.PoppedOf(other), now)
      {
        LeftCheckIsExact(settings.limits, limiter.LogOf(other), limiter.PoppedOf(other), latest, now);
      }
      verdict := limiter.Check(key, now);
    }

    method RecordHit(key: RateKey, now: int, ghost latest: int)
      requires LimiterReady(latest) && latest <= now
      modifies limiter
      ensures LimiterReady(now)
      ensures limiter.log == old(limiter.log)[key := HitsOf(old(limiter.log), key) + [now]]
    {
      hide Limiter.Valid, OnTime;
      forall other
        ensures OnTime(limiter.LogOf(other), limiter.PoppedOf(other), now)
        ensures OnTime(limiter.LogOf(other) + [now], limiter.PoppedOf(other), now)
      {
        RecordedOnTime(limiter.LogOf(other), limiter.PoppedOf(other), latest, now);
      }
      limiter.Record(key, now);
    }

    /** The budget verdict, which is the one the full history gives. */
    method CheckSpending(projected: Cost, now: int, ghost latest: int) returns (verdict: BudgetVerdict)
      requires BudgetReady(latest) && latest <= now
      modifies budget.windows
      ensures BudgetReady(now) && verdict == CheckBudget(settings.budget, budget.log, projected, now)
    {
      hide CheckPruned, CheckBudget, Punctual, BudgetLedger.Valid;
      PrunedCheckIsExact(settings.budget, budget.log, budget.Counts(), projected, latest, now);
      verdict := budget.Check(projected, now);
    }

    method ChargeFor(cost: Cost, now: int, ghost latest: int)
      requires BudgetReady(latest) && latest <= now
      modifies budget`log, budget.windows
      ensures BudgetReady(now) && budget.log == Governance.Charge(old(budget.log), cost, now)
    {
      hide Punctual, BudgetLedger.Valid, Governance.Charge;
      ChargeIsPunctual(settings.budget.rules, budget.log, budget.Counts(), cost, latest, now);
      budget.Record(cost, now);
    }

    /** The cached answer, which is the one a cache that never deleted would give. */
    method CachedAnswer(fingerprint: Fingerprint, now: int, ghost latest: int) returns (found: Option<Response>)
      requires CacheReady(latest) && latest <= now
      modifies cache`entries
      ensures CacheReady(now) && found == Lookup(cache.log, fingerprint, now)
    {
      hide Current, Lookup, GetFrom, Cache.Valid;
      GetIsExact(cache.entries, cache.log, fingerprint, latest, now);
      found := cache.Get(fingerprint, now);
    }

    method StoreAnswer(fingerprint: Fingerprint, response: Response, ttlSeconds: int, now: int, ghost latest: int)
      requires CacheReady(latest) && latest <= now
      modifies cache`entries, cache`log
      ensures CacheReady(now) && cache.log == Store(old(cache.log), fingerprint, response, ttlSeconds, now)
    {
      hide LastPut, Store, PutInto;
      PutIsLogged(cache.entries, cache.log, fingerprint, response, ttlSeconds, latest, now);
      cache.PutResponse(fingerprint, response, Some(ttlSeconds), now);
    }

    method RecordAudit(response: Response)
      modifies this`audit
      ensures audit == Audited(settings, old(audit), response)
    {
      if settings.hasRecorder {
        audit := audit + [response];
      }
    }

    method FailWith(request: Request, kind: ErrorKind) returns (response: Response)
      modifies this`stats, this`audit
      ensures (Contents(), response) == Fail(settings, old(Contents()), request, kind)
    {
      stats := stats.(failed := stats.failed + 1);
      response := Unavailable(request.requestId, kind, "none", "none", None);
      RecordAudit(response);
    }

    /** Retries inside the routed tier only. */
    method Call(request: Request, decision: Decision, provider: nat -> Outcome)
      returns (failure: Option<ErrorKind>, answer: Response)
      modifies this`calls
      ensures var spec := CallProvider(settings, old(Contents()), request, decision, provider);
        && Contents() == spec.state
        && (if spec.Raised? then failure == Some(spec.kind) else failure == None && answer == spec.response)
    {
      answer := Unavailable(request.requestId, InternalError, "none", "none", None);
      if decision.provider !in settings.providers {
        return Some(NoRoute), answer;
      }
      ghost var call := Gateway.Call(decision.provider, decision.model, decision.tier);
      var attempts := request.policy.maxAttempts;
      var attempt := 1;
      while attempt <= attempts
        invariant 1 <= attempt <= attempts
        invariant calls == old(calls) + Repeat(call, attempt - 1)
        invariant Try(provider, 1, attempts) == Try(provider, attempt, attempts)
        decreases attempts - attempt
      {
        var outcome := provider(attempt);
        calls := calls + [call];
        assert Repeat(call, attempt) == Repeat(call, attempt - 1) + [call];
        if outcome.Answers? {
          answer := outcome.response.(routing := Some(decision), retryCount := attempt - 1);
          return None, answer;
        }
        if !Retryable(outcome.kind) || attempt == attempts {
          return Some(outcome.kind), answer;
        }
        attempt := attempt + 1;
      }
      assert false;
    }

    method AccountFor(request: Request, decision: Decision, answer: Response, clock: Clock) returns (response: Response)
      requires Valid(clock.rateRecord) && clock.rateRecord <= clock.charge <= clock.cachePut
      modifies this`stats, this`audit, budget`log, budget.windows, cache`entries, cache`log
      ensures Valid(clock.cachePut)
      ensures (Contents(), response) == Account(settings, old(Contents()), request, decision, answer, clock)
    {
      hide Gatekeeper.LimiterReady, Gatekeeper.BudgetReady, Gatekeeper.CacheReady;
      hide Store, Pricing.Estimate, Governance.Charge, Audited, TaskTtl;
      var cost := Pricing.EstimateStepwise(settings.rates, answer.model, answer.usage);
      response := answer.(cost := cost);
      ChargeFor(cost, clock.charge, clock.rateRecord);
      StoreAnswer(request.FingerprintOf(), response, TaskTtl(request.task), clock.cachePut, clock.rateRecord);
      if decision.escalated {
        stats := stats.(escalations := stats.escalations + 1);
      }
      if decision.tier == Local {
        stats := stats.(localCalls := stats.localCalls + 1);
      } else {
        stats := stats.(frontierCalls := stats.frontierCalls + 1);
      }
      stats := stats.(succeeded := stats.succeeded + 1);
      RecordAudit(response);
      StaysReady(clock.rateRecord, clock.charge, clock.cachePut, clock.cachePut);
    }

    /** Route, budget, invoke, account. */
    method RoutedInvoke(request: Request, provider: nat -> Outcome, clock: Clock)
      returns (failure: Option<ErrorKind>, response: Response)
      requires Valid(clock.cacheGet) && Forward(clock, clock.rateCheck)
      modifies this, limiter, budget, budget.windows, cache`entries, cache`log
      ensures Valid(clock.cachePut)
      ensures var spec := Routed(settings, old(Contents()), request, provider, clock);
        && Contents() == spec.state
        && (if spec.Raised? then failure == Some(spec.kind) else failure == None && response == spec.response)
    {
      hide Gatekeeper.LimiterReady, Gatekeeper.BudgetReady, Gatekeeper.CacheReady;
      hide Route, CheckBudget, Pricing.Project, Try, Account;
      response := Unavailable(request.requestId, InternalError, "none", "none", None);
      var pressure := CheckSpending(None, clock.preRoute, clock.cacheGet);
      var routed := RouteStepwise(settings.registry, request, pressure.state == Warning);
      if routed.None? {
        StaysReady(clock.cacheGet, clock.preRoute, clock.cacheGet, clock.cachePut);
        return Some(NoRoute), response;
      }
      var decision := routed.value;
      var projected := Pricing.Project(
        settings.rates, decision.model, request.ContextSize(), request.policy.maxOutputTokens);
      if projected.None? && !settings.allowUnpriced {
        StaysReady(clock.cacheGet, clock.preRoute, clock.cacheGet, clock.cachePut);
        return Some(BudgetExceeded), response;
      }
      var verdict := CheckSpending(projected, clock.budgetCheck, clock.preRoute);
      if verdict.state == Exceeded {
        stats := stats.(blockedBudget := stats.blockedBudget + 1);
        RecordAudit(Unavailable(request.requestId, BudgetExceeded, decision.provider, decision.model, Some(decision)));
        StaysReady(clock.cacheGet, clock.budgetCheck, clock.cacheGet, clock.cachePut);
        return Some(BudgetExceeded), response;
      }
      RecordHit(KeyOf(request), clock.rateRecord, clock.cacheGet);
      ghost var recorded := Contents();
      failure, response := Call(request, decision, provider);
      StaysReady(clock.rateRecord, clock.budgetCheck, clock.cacheGet, clock.rateRecord);
      if failure.None? {
        assert CallProvider(settings, recorded, request, decision, provider) == Returned(Contents(), response);
        response := AccountFor(request, decision, response, clock);
      } else {
        StaysReady(clock.rateRecord, clock.rateRecord, clock.rateRecord, clock.cachePut);
      }
    }

    /** One request through the whole chain: never raises, and always releases its claim. */
    method Invoke(
      request: Request, provider: nat -> Outcome, clock: Clock, ghost latest: int)
      returns (response: Response)
      requires Valid(latest) && Forward(clock, latest)
      modifies this, limiter, budget, budget.windows, cache
      ensures Valid(clock.cachePut)
      ensures (Contents(), response) == Gateway.Invoke(settings, old(Contents()), request, provider, clock)
    {
      hide Gatekeeper.LimiterReady, Gatekeeper.BudgetReady, Gatekeeper.CacheReady;
      hide CoalescedInvoke, CheckRate, Lookup;
      stats := stats.(requests := stats.requests + 1);
      if !settings.aiEnabled {
        response := FailWith(request, ProviderUnavailable);
        StaysReady(latest, latest, latest, clock.cachePut);
        return;
      }
      var verdict := CheckRates(KeyOf(request), clock.rateCheck, latest);
      if !verdict.allowed {
        stats := stats.(blockedRateLimit := stats.blockedRateLimit + 1);
        response := FailWith(request, RateLimitExceeded);
        StaysReady(clock.rateCheck, latest, latest, clock.cachePut);
        return;
      }
      var fingerprint := request.FingerprintOf();
      var cached := CachedAnswer(fingerprint, clock.cacheGet, latest);
      StaysReady(clock.rateCheck, latest, clock.cacheGet, clock.cacheGet);
      if cached.Some? {
        stats := stats.(cacheHits := stats.cacheHits + 1);
        StaysReady(clock.cacheGet, clock.cacheGet, clock.cacheGet, clock.cachePut);
        return AsCached(cached.value, request.requestId);
      }
      response := Coalesced(request, provider, clock);
    }

    /** Claims the fingerprint, runs the rest of the chain, and releases the claim whatever happened. */
    method Coalesced(request: Request, provider: nat -> Outcome, clock: Clock) returns (response: Response)
      requires Valid(clock.cacheGet) && Forward(clock, clock.rateCheck)
      modifies this, limiter, budget, budget.windows, cache
      ensures Valid(clock.cachePut)
      ensures (Contents(), response) == CoalescedInvoke(settings, old(Contents()), request, provider, clock)
    {
      hide Gatekeeper.LimiterReady, Gatekeeper.BudgetReady, Gatekeeper.CacheReady;
      hide Routed;
      var fingerprint := request.FingerprintOf();
      var claimed := cache.Begin(fingerprint);
      if !claimed {
        response := FailWith(request, ProviderUnavailable);
        StaysReady(clock.cacheGet, clock.cacheGet, clock.cacheGet, clock.cachePut);
        return;
      }
      var failure;
      failure, response := RoutedInvoke(request, provider, clock);
      cache.End(fingerprint);
      if failure.Some? {
        response := FailWith(request, failure.value);
      }
    }
  }

  /** A gateway whose parts are built from its settings: the limiter, the ledger and the cache it has when it is
      given none. */
  method FromSettings(
    aiEnabled: bool, allowUnpriced: bool, hasRecorder: bool, limits: RateLimits,
    perRequest: real, perHour: real, perDay: real, perMonth: real, warnRatio: real, monthOf: int -> int,
    rates: Pricing.Rates, defaultTtl: int, registry: Registry, providers: set<string>, ghost latest: int)
    returns (gateway: Gatekeeper)
    requires WellFormed(CalendarMonth(monthOf))
    ensures fresh(gateway) && gateway.Valid(latest) && gateway.Contents() == IDLE
    ensures gateway.settings == Settings(
              aiEnabled, allowUnpriced, hasRecorder, limits,
              Configure(perRequest, perHour, perDay, perMonth, warnRatio, monthOf), rates, defaultTtl, registry,
                providers)
    ensures GatewayLaws.SoundBudget(gateway.settings.budget)
  {
    hide Configure, WellFormed, Limiter.Valid, BudgetLedger.Valid, Cache.Valid, Gatekeeper.Valid, LastPut, Inside;
    var limiter := new Limiter(limits);
    var cache := new Cache(defaultTtl);
    var budget := new BudgetLedger(perRequest, perHour, perDay, perMonth, warnRatio, monthOf);
    ConfiguredWell(perRequest, perHour, perDay, perMonth, warnRatio, monthOf);
    var settings := Settings(
      aiEnabled, allowUnpriced, hasRecorder, limits, budget.budget, rates, defaultTtl, registry, providers);
    gateway := new Gatekeeper(settings, limiter, budget, cache, latest);
  }
}
