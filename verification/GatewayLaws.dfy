/** What holds over any sequence of invocations of the gateway. */
module GatewayLaws {
  import opened Wrappers
  import opened AiTypes
  import opened Windows
  import opened Governance
  import opened RateLimiter
  import opened ResponseCache
  import Pricing
  import opened Routing
  import opened Gateway

  // ----- counters and audit rows -----

  /** The books balance between invocations, and nothing is left in flight. */
  ghost predicate Balanced(settings: Settings, s: State) {
    var n := s.stats;
    && n.requests == n.succeeded + n.failed + n.cacheHits
    && n.succeeded == n.localCalls + n.frontierCalls
    && 0 <= n.blockedRateLimit && 0 <= n.blockedBudget && n.blockedRateLimit + n.blockedBudget <= n.failed
    && 0 <= n.escalations <= n.succeeded && 0 <= n.localCalls && 0 <= n.frontierCalls && 0 <= n.cacheHits
    && |s.audit| == (if settings.hasRecorder then n.succeeded + n.failed + n.blockedBudget else 0)
    && s.inFlight == {}
  }

  /** What the routed part does to the counters: one success with its audit row, or nothing but, for a
      request the budget blocks, that count and its audit row. */
  lemma RoutedCounts(settings: Settings, s: State, request: Request, provider: nat -> Outcome, clock: Clock)
    ensures var chained := Routed(settings, s, request, provider, clock);
      var n, m := s.stats, chained.state.stats;
      var rows := |chained.state.audit| - |s.audit|;
      && chained.state.inFlight == s.inFlight
      && (chained.Returned? ==>
            && m == n.(succeeded := n.succeeded + 1, escalations := m.escalations,
                       localCalls := m.localCalls, frontierCalls := m.frontierCalls)
            && n.escalations <= m.escalations <= n.escalations + 1
            && n.localCalls <= m.localCalls && n.frontierCalls <= m.frontierCalls
            && m.localCalls + m.frontierCalls == n.localCalls + n.frontierCalls + 1
            && rows == if settings.hasRecorder then 1 else 0)
      && (chained.Raised? ==>
            && m == n.(blockedBudget := m.blockedBudget) && n.blockedBudget <= m.blockedBudget <= n.blockedBudget + 1
            && rows == if settings.hasRecorder then m.blockedBudget - n.blockedBudget else 0)
  {
    hide Route, CheckBudget, Pricing.Project, Pricing.Estimate, Try, Store, Governance.Charge, HitsOf, Repeat;
  }

  lemma InvokeKeepsBalance(settings: Settings, before: State, request: Request, provider: nat -> Outcome, clock: Clock)
    requires Balanced(settings, before)
    ensures Balanced(settings, Invoke(settings, before, request, provider, clock).0)
  {
    hide CheckRate, Lookup, Routed, HitsOf;
    var s := before.(stats := before.stats.(requests := before.stats.requests + 1));
    var claimed := s.(inFlight := s.inFlight + {request.FingerprintOf()});
    RoutedCounts(settings, claimed, request, provider, clock);
  }

  /** Every request is answered, refused or served from the cache, exactly once; every answer came from
      one tier; and there is one audit row per answer and per failure, plus one more for each request
      the budget blocked -- blocked requests are audited twice, cache hits not at all. */
  lemma {:induction false} CountersBalance(settings: Settings, invocations: seq<Invocation>)
    ensures Balanced(settings, AfterAll(settings, invocations))
    ensures AfterAll(settings, invocations).stats.requests == |invocations|
  {
    hide Invoke;
    if invocations != [] {
      var front, last := invocations[..|invocations| - 1], invocations[|invocations| - 1];
      CountersBalance(settings, front);
      InvokeKeepsBalance(settings, AfterAll(settings, front), last.request, last.provider, last.clock);
      InvokeCountsOnce(settings, AfterAll(settings, front), last.request, last.provider, last.clock);
    }
  }

  lemma InvokeCountsOnce(settings: Settings, before: State, request: Request, provider: nat -> Outcome, clock: Clock)
    ensures Invoke(settings, before, request, provider, clock).0.stats.requests == before.stats.requests + 1
  {
    hide CheckRate, Lookup, Routed, HitsOf;
    var s := before.(stats := before.stats.(requests := before.stats.requests + 1));
    RoutedCounts(settings, s.(inFlight := s.inFlight + {request.FingerprintOf()}), request, provider, clock);
  }

  // ----- provider calls -----

  /** Retries stop at the first outcome that is not a retryable failure, or when attempts run out. */
  lemma {:induction false} TryStopsAtFirst(provider: nat -> Outcome, attempt: nat, maxAttempts: nat)
    requires 1 <= attempt <= maxAttempts
    ensures var t := Try(provider, attempt, maxAttempts);
      && attempt <= t.made <= maxAttempts
      && t.outcome == provider(t.made)
      && (forall i: nat | attempt <= i < t.made ::
            provider(i).Fails? && provider(i).kind in {ProviderUnavailable, InvalidResponse})
      && (t.made == maxAttempts || t.outcome.Answers? || t.outcome.kind !in {ProviderUnavailable, InvalidResponse})
    decreases maxAttempts - attempt
  {
    var outcome := provider(attempt);
    if outcome.Fails? && Retryable(outcome.kind) && attempt < maxAttempts {
      TryStopsAtFirst(provider, attempt + 1, maxAttempts);
    }
  }

  /** The pre-route budget check is made with an unknown cost, so it never reports pressure. */
  lemma NeverDegraded(settings: Settings, s: State, clock: Clock)
    ensures CheckBudget(settings.budget, s.spend, None, clock.preRoute).state == Healthy
  {
  }

  /** n calls were added, every one of them of the routed provider and model. */
  ghost predicate CalledTimes(before: seq<Call>, after: seq<Call>, decision: Option<Decision>, n: nat) {
    if n == 0 then after == before
    else
      && decision.Some?
      && after == before + Repeat(Call(decision.value.provider, decision.value.model, decision.value.tier), n)
  }

  /** An invocation makes at most `maxAttempts` provider calls, all of the one provider and model its
      request routes to -- a failure never escalates -- and a request that forbids the frontier reaches
      the local tier only. */
  lemma CallsGoToTheRoutedModel(
    settings: Settings, before: State, request: Request, provider: nat -> Outcome, clock: Clock)
    ensures var after := Invoke(settings, before, request, provider, clock).0;
      exists n: nat :: n <= request.policy.maxAttempts
                       && CalledTimes(before.calls, after.calls, Route(settings.registry, request, false), n)
    ensures var decision := Route(settings.registry, request, false);
      decision.Some? && !request.policy.allowFrontier ==> decision.value.tier == Local
  {
    hide Route, CheckRate, Pricing.Project, Pricing.Estimate, Lookup, Store, FirstOver;
    var after := Invoke(settings, before, request, provider, clock).0;
    var decision := Route(settings.registry, request, false);
    TryStopsAtFirst(provider, 1, request.policy.maxAttempts);
    var made := Try(provider, 1, request.policy.maxAttempts).made;
    assert CalledTimes(before.calls, after.calls, decision, 0)
      || CalledTimes(before.calls, after.calls, decision, made);
    if !request.policy.allowFrontier {
      ForbiddenFrontierRoutesLocal(settings.registry, request);
    }
  }

  lemma ForbiddenFrontierRoutesLocal(registry: Registry, request: Request)
    requires !request.policy.allowFrontier
    ensures Route(registry, request, false).Some? ==> Route(registry, request, false).value.tier == Local
  {
  }

  // ----- budget pressure never moves a request -----

  /** A response on record went where one of the requests routes without pressure; if its tier was lowered,
      that request forbids the frontier. */
  ghost predicate Unpressed(settings: Settings, response: Response, invocations: seq<Invocation>) {
    response.routing.Some? ==>
      exists j :: 0 <= j < |invocations| && RoutedFreely(settings, response.routing.value, invocations[j].request)
  }

  ghost predicate RoutedFreely(settings: Settings, decision: Decision, request: Request) {
    && Route(settings.registry, request, false) == Some(decision)
    && (decision.downgraded ==> decision.tier == Local && !request.policy.allowFrontier)
  }

  lemma RouteIsFree(settings: Settings, request: Request)
    ensures Route(settings.registry, request, false).Some? ==>
              RoutedFreely(settings, Route(settings.registry, request, false).value, request)
  {
  }

  /** What one invocation adds to the audit was routed without pressure, if it was routed at all. */
  lemma AuditOfInvoke(settings: Settings, before: State, invocation: Invocation)
    ensures var after := Invoke(settings, before, invocation.request, invocation.provider, invocation.clock).0;
      && before.audit <= after.audit
      && forall i | |before.audit| <= i < |after.audit| ::
           after.audit[i].routing.None? || after.audit[i].routing == Route(settings.registry, invocation.request, false)
  {
    NeverDegraded(settings, before, invocation.clock);
    hide CheckBudget;
    hide Route, CheckRate, Pricing.Project, Pricing.Estimate, Try, Lookup, FirstOver, HitsOf, Repeat, Store,
      Governance.Charge;
  }

  /** Over every sequence of invocations, however close to its ceilings the budget comes, every answer and
      every audit row that names a route names one that some request has without any pressure: the pressure
      the router is built to react to never reaches it, and only a forbidden frontier lowers a tier. */
  lemma {:induction false} PressureNeverDowngrades(settings: Settings, invocations: seq<Invocation>)
    ensures var s := AfterAll(settings, invocations);
      && (forall i | 0 <= i < |s.audit| :: Unpressed(settings, s.audit[i], invocations))
      && (forall i | 0 <= i < |s.puts| :: Unpressed(settings, s.puts[i].entry.response, invocations))
  {
    hide Invoke, Route, RoutedFreely, Unpressed;
    if invocations != [] {
      var front, last := invocations[..|invocations| - 1], invocations[|invocations| - 1];
      PressureNeverDowngrades(settings, front);
      assert forall i | 0 <= i < |AfterAll(settings, front).audit| ::
        Unpressed(settings, AfterAll(settings, front).audit[i], front);
      assert forall i | 0 <= i < |AfterAll(settings, front).puts| ::
        Unpressed(settings, AfterAll(settings, front).puts[i].entry.response, front);
      AuditOfInvoke(settings, AfterAll(settings, front), last);
      PutsOfInvoke(settings, AfterAll(settings, front), last);
      assert invocations == front + [last];
      var before, after := AfterAll(settings, front), AfterAll(settings, invocations);
      forall i | 0 <= i < |after.audit| ensures Unpressed(settings, after.audit[i], invocations) {
        if i < |before.audit| {
          assert after.audit[i] == before.audit[i];
          assert Unpressed(settings, before.audit[i], front);
          UnpressedLater(settings, before.audit[i], front, last);
        } else {
          UnpressedNow(settings, after.audit[i], front, last);
        }
      }
      forall i | 0 <= i < |after.puts| ensures Unpressed(settings, after.puts[i].entry.response, invocations) {
        if i < |before.puts| {
          assert before.puts[i] == after.puts[i];
          assert Unpressed(settings, before.puts[i].entry.response, front);
          UnpressedLater(settings, before.puts[i].entry.response, front, last);
        } else {
          UnpressedNow(settings, after.puts[i].entry.response, front, last);
        }
      }
    }
  }

  lemma UnpressedLater(settings: Settings, response: Response, front: seq<Invocation>, last: Invocation)
    requires Unpressed(settings, response, front)
    ensures Unpressed(settings, response, front + [last])
  {
    hide RoutedFreely;
    if response.routing.Some? {
      var j :| 0 <= j < |front| && RoutedFreely(settings, response.routing.value, front[j].request);
      assert (front + [last])[j] == front[j];
    }
  }

  lemma UnpressedNow(settings: Settings, response: Response, front: seq<Invocation>, last: Invocation)
    requires response.routing.None? || response.routing == Route(settings.registry, last.request, false)
    ensures Unpressed(settings, response, front + [last])
  {
    RouteIsFree(settings, last.request);
    hide RoutedFreely, Route;
    assert (front + [last])[|front|] == last;
  }

  // ----- answers and the cache -----

  /** Only successful answers are ever stored, so only they are ever served; and serving one calls nobody
      and charges nothing. */
  ghost predicate OnlySuccessesStored(s: State) {
    forall i | 0 <= i < |s.puts| :: s.puts[i].entry.response.success
  }

  lemma InvokeStoresSuccesses(
    settings: Settings, before: State, request: Request, provider: nat -> Outcome, clock: Clock)
    requires OnlySuccessesStored(before)
    ensures var (after, response) := Invoke(settings, before, request, provider, clock);
      && OnlySuccessesStored(after)
      && (response.cached && after.stats.cacheHits == before.stats.cacheHits + 1 ==>
            response.success && response.cost == Some(0.0) && response.requestId == request.requestId
            && after.calls == before.calls && after.spend == before.spend && after.puts == before.puts
            && after.hits == before.hits && after.audit == before.audit)
  {
    hide Route, CheckRate, CheckBudget, Pricing.Project, Pricing.Estimate, Try, LastPut;
    var fingerprint := request.FingerprintOf();
    if Lookup(before.puts, fingerprint, clock.cacheGet).Some? {
      HitMeansLivePut(before.puts, fingerprint, clock.cacheGet);
    }
  }

  lemma {:induction false} StoredAnswersSucceeded(settings: Settings, invocations: seq<Invocation>)
    ensures OnlySuccessesStored(AfterAll(settings, invocations))
  {
    hide Invoke;
    if invocations != [] {
      var front, last := invocations[..|invocations| - 1], invocations[|invocations| - 1];
      StoredAnswersSucceeded(settings, front);
      InvokeStoresSuccesses(settings, AfterAll(settings, front), last.request, last.provider, last.clock);
    }
  }

  // ----- whose answer a cached answer is -----

  /** The put is what an earlier request was answered, routed as that request was, for as long as its task's
      answers last. */
  ghost predicate AnsweredFor(settings: Settings, put: Put, invocations: seq<Invocation>, j: int) {
    && 0 <= j < |invocations|
    && var asked := invocations[j];
       var before := AfterAll(settings, invocations[..j]);
       var given := Invoke(settings, before, asked.request, asked.provider, asked.clock).1;
       && given.success && given.routing == Route(settings.registry, asked.request, false)
       && put == Put(asked.request.FingerprintOf(),
                     CacheEntry(given, asked.clock.cachePut + TaskTtl(asked.request.task) * SECOND))
  }

  lemma PutsOfInvoke(settings: Settings, before: State, invocation: Invocation)
    ensures var (after, response) := Invoke(
      settings, before, invocation.request, invocation.provider, invocation.clock);
      var request, clock := invocation.request, invocation.clock;
      || after.puts == before.puts
      || (&& after.puts == before.puts + [Put(request.FingerprintOf(),
                                              CacheEntry(response, clock.cachePut + TaskTtl(request.task) * SECOND))]
          && response.success && response.routing == Route(settings.registry, request, false))
  {
    NeverDegraded(settings, before, invocation.clock);
    hide CheckBudget;
    hide Route, CheckRate, Pricing.Project, Pricing.Estimate, Try, Lookup, FirstOver, HitsOf, Repeat;
  }

  /** Every stored answer was given to some earlier request, under whose question it is stored, and was routed by that
      request's policy. The policy is no part of the fingerprint, so this is the only say it has. */
  lemma {:induction false} StoredAnswersWereRouted(
    settings: Settings, invocations: seq<Invocation>, i: int)
    returns (j: int)
    requires 0 <= i < |AfterAll(settings, invocations).puts|
    ensures AnsweredFor(settings, AfterAll(settings, invocations).puts[i], invocations, j)
  {
    hide Invoke, Route;
    var front, last := invocations[..|invocations| - 1], invocations[|invocations| - 1];
    var before := AfterAll(settings, front);
    PutsOfInvoke(settings, before, last);
    if i < |before.puts| {
      j := StoredAnswersWereRouted(settings, front, i);
      assert AfterAll(settings, invocations).puts[i] == before.puts[i];
      assert invocations[j] == front[j] && invocations[..j] == front[..j];
    } else {
      j := |invocations| - 1;
    }
  }

  /** The gateway is on and the rate check lets the request through. */
  predicate IsAdmitted(settings: Settings, state: State, invocation: Invocation) {
    && settings.aiEnabled
    && CheckRate(settings.limits, HitsOf(state.hits, KeyOf(invocation.request)), invocation.clock.rateCheck).allowed
  }

  /** A request is served the answer another was given exactly when it is admitted and that is alive, whatever
      its own policy allows: a request that may not leave the machine can be handed a frontier model's answer,
      and is whenever the earlier asker's route was to the frontier. Nothing leaves the machine then: no
      provider is called. */
  lemma SecondAskerSharesTheAnswer(settings: Settings, before: State, first: Invocation, second: Invocation)
    requires SameQuestion(second.request, first.request)
    requires Invoke(settings, before, first.request, first.provider, first.clock).0.puts != before.puts
    ensures var (after, given) := Invoke(settings, before, first.request, first.provider, first.clock);
      var (final, served) := Invoke(settings, after, second.request, second.provider, second.clock);
      var seconds := match first.request.task case ThesisReview => 300 case ResearchSynthesis => 600 case _ => 3600;
      var alive := second.clock.cacheGet < first.clock.cachePut + seconds * 1000000;
      && (final.stats.cacheHits > after.stats.cacheHits <==> IsAdmitted(settings, after, second) && alive)
      && (IsAdmitted(settings, after, second) && alive ==>
            && served == given.(requestId := second.request.requestId, cached := true, cost := Some(0.0))
            && given.routing == Route(settings.registry, first.request, false)
            && served.success && final.calls == after.calls)
  {
    hide Invoke, Route, LastPut, IsAdmitted, Request.FingerprintOf;
    FingerprintsTellQuestionsApart(second.request, first.request);
    PutsOfInvoke(settings, before, first);
    var (after, given) := Invoke(settings, before, first.request, first.provider, first.clock);
    InvokeCountsHits(settings, after, second);
    LastPutSnoc(before.puts, after.puts[|before.puts|], first.request.FingerprintOf());
  }

  lemma InvokeCountsHits(settings: Settings, before: State, invocation: Invocation)
    ensures var request, clock := invocation.request, invocation.clock;
      var (after, served) := Invoke(settings, before, request, invocation.provider, clock);
      var cached := Lookup(before.puts, request.FingerprintOf(), clock.cacheGet);
      && (after.stats.cacheHits > before.stats.cacheHits <==> IsAdmitted(settings, before, invocation) && cached.Some?)
      && (IsAdmitted(settings, before, invocation) && cached.Some? ==>
            served == AsCached(cached.value, request.requestId) && after.calls == before.calls)
  {
    hide Lookup, Routed, CheckRate;
    var s := before.(stats := before.stats.(requests := before.stats.requests + 1));
    RoutedCounts(settings, s.(inFlight := s.inFlight + {invocation.request.FingerprintOf()}), invocation.request,
                 invocation.provider, invocation.clock);
  }

  // ----- limits over whole sequential runs -----

  ghost predicate ForwardRun(invocations: seq<Invocation>) {
    if invocations == [] then true else
      var front, last := invocations[..|invocations| - 1], invocations[|invocations| - 1];
      ForwardRun(front) && Forward(last.clock, Latest(front))
  }

  function Latest(invocations: seq<Invocation>): int {
    if invocations == [] then 0 else invocations[|invocations| - 1].clock.cachePut
  }

  function RateTerms(width: nat, limit: int): Terms {
    Terms(Trailing(width), limit as real, 1, 1.0)
  }

  ghost predicate RatesKept(settings: Settings, s: State, latest: int) {
    forall key: RateKey ::
      && InOrder(HitsOf(s.hits, key), latest)
      && (settings.limits.perHour > 0 ==>
            Within(RateTerms(HOUR, settings.limits.perHour), Pool(Ones(HitsOf(s.hits, key)), map[], latest)))
      && (settings.limits.perMinute > 0 ==>
            Within(RateTerms(MINUTE, settings.limits.perMinute), Pool(Ones(HitsOf(s.hits, key)), map[], latest)))
  }

  /** One request of the windowed protocol from check to record, with the clock moving on in between. */
  lemma OnePassWithin(
    terms: Terms, log: seq<Entry>, latest: int, checked: int, recorded: int, now: int, amount: real, actual: real)
    requires ValidTerms(terms) && latest <= checked <= recorded <= now
    requires Within(terms, Pool(log, map[], latest))
    requires 0.0 <= actual <= amount <= terms.largest && Spend(terms.span, log, checked) + amount <= terms.limit
    ensures Within(terms, Pool(log + [Entry(recorded, actual)], map[], now))
  {
    hide Within, Spend;
    var pool := Pool(log, map[], latest);
    EventKeeps(terms, pool, Tick(checked));
    var atCheck := pool.(now := checked);
    EventKeeps(terms, atCheck, Admit(0, amount));
    var admitted := Apply(terms, atCheck, Admit(0, amount));
    EventKeeps(terms, admitted, Tick(recorded));
    var atRecord := admitted.(now := recorded);
    EventKeeps(terms, atRecord, ReadClock(0));
    var stamped := Apply(terms, atRecord, ReadClock(0));
    EventKeeps(terms, stamped, Record(0, actual));
    var done := Apply(terms, stamped, Record(0, actual));
    EventKeeps(terms, done, Tick(now));
    assert done.(now := now) == Pool(log + [Entry(recorded, actual)], map[], now);
  }

  lemma HitWithin(width: nat, limit: int, log: seq<int>, latest: int, checked: int, recorded: int, now: int)
    requires limit > 0 && latest <= checked <= recorded <= now
    requires Within(RateTerms(width, limit), Pool(Ones(log), map[], latest))
    requires Spend(Trailing(width), Ones(log), checked) + 1.0 <= limit as real
    ensures Within(RateTerms(width, limit), Pool(Ones(log + [recorded]), map[], now))
  {
    hide Within, Spend;
    OnePassWithin(RateTerms(width, limit), Ones(log), latest, checked, recorded, now, 1.0, 1.0);
    assert Ones(log + [recorded]) == Ones(log) + [Entry(recorded, 1.0)];
  }

  lemma QuietWithin(width: nat, limit: int, log: seq<int>, latest: int, now: int)
    requires limit > 0 && latest <= now && Within(RateTerms(width, limit), Pool(Ones(log), map[], latest))
    ensures Within(RateTerms(width, limit), Pool(Ones(log), map[], now))
  {
    TickKeeps(RateTerms(width, limit), Pool(Ones(log), map[], latest), now);
  }

  /** The hits an invocation adds: none, or one, after a check that allowed it. */
  lemma HitsOfInvoke(settings: Settings, before: State, request: Request, provider: nat -> Outcome, clock: Clock)
    ensures var after := Invoke(settings, before, request, provider, clock).0;
      var key := KeyOf(request);
      || after.hits == before.hits
      || (after.hits == before.hits[key := HitsOf(before.hits, key) + [clock.rateRecord]]
          && CheckRate(settings.limits, HitsOf(before.hits, key), clock.rateCheck).allowed)
  {
    hide Route, CheckRate, CheckBudget, Pricing.Project, Pricing.Estimate, Try, Lookup, Store;
  }

  lemma InvokeKeepsRates(
    settings: Settings, before: State, request: Request, provider: nat -> Outcome, clock: Clock, latest: int)
    requires RatesKept(settings, before, latest) && Forward(clock, latest)
    ensures RatesKept(settings, Invoke(settings, before, request, provider, clock).0, clock.cachePut)
  {
    hide Invoke, Within, Spend, CheckRate, Since;
    HitsOfInvoke(settings, before, request, provider, clock);
    var after := Invoke(settings, before, request, provider, clock).0;
    var now := clock.cachePut;
    forall key: RateKey ensures
      && InOrder(HitsOf(after.hits, key), now)
      && (settings.limits.perHour > 0 ==>
            Within(RateTerms(HOUR, settings.limits.perHour), Pool(Ones(HitsOf(after.hits, key)), map[], now)))
      && (settings.limits.perMinute > 0 ==>
            Within(RateTerms(MINUTE, settings.limits.perMinute), Pool(Ones(HitsOf(after.hits, key)), map[], now)))
    {
      var log := HitsOf(before.hits, key);
      if HitsOf(after.hits, key) == log {
        if settings.limits.perHour > 0 { QuietWithin(HOUR, settings.limits.perHour, log, latest, now); }
        if settings.limits.perMinute > 0 { QuietWithin(MINUTE, settings.limits.perMinute, log, latest, now); }
      } else {
        AdmittedMeansRoomInBothWindows(settings.limits, log, clock.rateCheck);
        if settings.limits.perHour > 0 {
          HitWithin(HOUR, settings.limits.perHour, log, latest, clock.rateCheck, clock.rateRecord, now);
        }
        if settings.limits.perMinute > 0 {
          HitWithin(MINUTE, settings.limits.perMinute, log, latest, clock.rateCheck, clock.rateRecord, now);
        }
      }
    }
  }

  lemma {:induction false} RunKeepsRates(settings: Settings, invocations: seq<Invocation>)
    requires ForwardRun(invocations)
    ensures RatesKept(settings, AfterAll(settings, invocations), Latest(invocations))
  {
    if invocations == [] {
      if settings.limits.perHour > 0 { InitialPoolWithin(RateTerms(HOUR, settings.limits.perHour), 0); }
      if settings.limits.perMinute > 0 { InitialPoolWithin(RateTerms(MINUTE, settings.limits.perMinute), 0); }
      forall key: RateKey ensures HitsOf(IDLE.hits, key) == [] && Ones([]) == [] {}
    } else {
      hide RatesKept, Invoke;
      var front, last := invocations[..|invocations| - 1], invocations[|invocations| - 1];
      RunKeepsRates(settings, front);
      InvokeKeepsRates(settings, AfterAll(settings, front), last.request, last.provider, last.clock, Latest(front));
    }
  }

  /** Sequential rate safety: in any closed minute and any closed hour, past or to come, no caller's task
      has more recorded hits than its limit. */
  lemma RateLimitsHold(settings: Settings, invocations: seq<Invocation>, key: RateKey, end: int)
    requires ForwardRun(invocations)
    ensures var hits := Ones(HitsOf(AfterAll(settings, invocations).hits, key));
      && (settings.limits.perHour > 0 ==> Spend(Trailing(3600 * 1000000), hits, end) <= settings.limits.perHour as real)
      && (settings.limits.perMinute > 0 ==>
           Spend(Trailing(60 * 1000000), hits, end) <= settings.limits.perMinute as real)
  {
    hide AfterAll, Invoke, Spend;
    RunKeepsRates(settings, invocations);
    var s := AfterAll(settings, invocations);
    assert InOrder(HitsOf(s.hits, key), Latest(invocations));
    var pool := Pool(Ones(HitsOf(s.hits, key)), map[], Latest(invocations));
    if settings.limits.perHour > 0 { WithinMeans(RateTerms(HOUR, settings.limits.perHour), pool); }
    if settings.limits.perMinute > 0 { WithinMeans(RateTerms(MINUTE, settings.limits.perMinute), pool); }
  }

  // ----- budgets over whole sequential runs -----

  /** The provider keeps to the projection: it answers as the model it was asked for, and reports usage
      the projection covers. */
  ghost predicate Honest(settings: Settings, invocation: Invocation) {
    var request := invocation.request;
    var decision := Route(settings.registry, request, false);
    decision.Some? ==> forall n: nat ::
      var outcome := invocation.provider(n);
      outcome.Answers? ==>
        && outcome.response.model == decision.value.model
        && Pricing.CoveredBy(outcome.response.usage, request.ContextSize(), request.policy.maxOutputTokens)
  }

  ghost predicate SoundBudget(budget: Budget) {
    forall i | 0 <= i < |budget.rules| :: budget.rules[i].limit >= 0.0 && WellFormed(budget.rules[i].span)
  }

  function BudgetTerms(rule: WindowRule): Terms {
    Terms(rule.span, rule.limit, 1, rule.limit)
  }

  ghost predicate BudgetsKept(settings: Settings, s: State, latest: int) {
    forall i | 0 <= i < |settings.budget.rules| ::
      Within(BudgetTerms(settings.budget.rules[i]), Pool(s.spend, map[], latest))
  }

  /** What an invocation charges: nothing, or a known cost for an answer whose projection was allowed. */
  lemma ChargeOfInvoke(settings: Settings, before: State, invocation: Invocation)
    ensures var after := Invoke(settings, before, invocation.request, invocation.provider, invocation.clock).0;
      || after.spend == before.spend
      || exists n: nat, cost: real :: ChargedFor(settings, before, invocation, n, cost)
           && after.spend == before.spend + [Entry(invocation.clock.charge, cost)]
  {
    hide Route, CheckRate, CheckBudget, Pricing.Project, Pricing.Estimate, Lookup, Store;
    var after := Invoke(settings, before, invocation.request, invocation.provider, invocation.clock).0;
    TryStopsAtFirst(invocation.provider, 1, invocation.request.policy.maxAttempts);
    var attempts := Try(invocation.provider, 1, invocation.request.policy.maxAttempts);
    NeverDegraded(settings, before, invocation.clock);
    if after.spend != before.spend {
      var cost := after.spend[|before.spend|].amount;
      assert ChargedFor(settings, before, invocation, attempts.made, cost);
    }
  }

  ghost predicate ChargedFor(settings: Settings, before: State, invocation: Invocation, n: nat, cost: real) {
    var request, outcome := invocation.request, invocation.provider(n);
    var decision := Route(settings.registry, request, false);
    && decision.Some? && outcome.Answers?
    && Pricing.Estimate(settings.rates, outcome.response.model, outcome.response.usage) == Some(cost)
    && var projected := Pricing.Project(
         settings.rates, decision.value.model, request.ContextSize(), request.policy.maxOutputTokens);
       CheckBudget(settings.budget, before.spend, projected, invocation.clock.budgetCheck).state != Exceeded
  }

  lemma ChargeWithin(rule: WindowRule, spend: seq<Entry>, latest: int, clock: Clock, projected: real, cost: real)
    requires rule.limit >= 0.0 && WellFormed(rule.span) && Forward(clock, latest)
    requires Within(BudgetTerms(rule), Pool(spend, map[], latest))
    requires 0.0 <= cost <= projected && Spend(rule.span, spend, clock.budgetCheck) + projected <= rule.limit
    ensures Within(BudgetTerms(rule), Pool(spend + [Entry(clock.charge, cost)], map[], clock.cachePut))
  {
    SpendSigns(rule.span, spend, clock.budgetCheck);
    hide Within, Spend;
    OnePassWithin(BudgetTerms(rule), spend, latest, clock.budgetCheck, clock.charge, clock.cachePut, projected, cost);
  }

  lemma InvokeKeepsBudgets(settings: Settings, before: State, invocation: Invocation, latest: int)
    requires SoundBudget(settings.budget) && Pricing.NonNegativeRates(settings.rates)
    requires BudgetsKept(settings, before, latest) && Forward(invocation.clock, latest) && Honest(settings, invocation)
    ensures BudgetsKept(settings, Invoke(settings, before, invocation.request, invocation.provider, invocation.clock).0,
                        invocation.clock.cachePut)
  {
    hide Invoke, Within, Spend, Route, Pricing.Project, Pricing.Estimate, CheckBudget;
    var clock := invocation.clock;
    var after := Invoke(settings, before, invocation.request, invocation.provider, clock).0;
    ChargeOfInvoke(settings, before, invocation);
    forall i | 0 <= i < |settings.budget.rules|
      ensures Within(BudgetTerms(settings.budget.rules[i]), Pool(after.spend, map[], clock.cachePut))
    {
      var rule := settings.budget.rules[i];
      if after.spend == before.spend {
        TickKeeps(BudgetTerms(rule), Pool(before.spend, map[], latest), clock.cachePut);
      } else {
        var n: nat, cost :| ChargedFor(settings, before, invocation, n, cost)
                            && after.spend == before.spend + [Entry(clock.charge, cost)];
        var request, usage := invocation.request, invocation.provider(n).response.usage;
        var model := Route(settings.registry, request, false).value.model;
        Pricing.ProjectionCovers(settings.rates, model, usage, request.ContextSize(), request.policy.maxOutputTokens);
        var projected := Pricing.Project(settings.rates, model, request.ContextSize(), request.policy.maxOutputTokens);
        AllowedMeansEveryWindowFits(settings.budget, before.spend, projected, clock.budgetCheck);
        ChargeWithin(rule, before.spend, latest, clock, projected.value, cost);
      }
    }
  }

  lemma {:induction false} RunKeepsBudgets(settings: Settings, invocations: seq<Invocation>)
    requires SoundBudget(settings.budget) && Pricing.NonNegativeRates(settings.rates)
    requires ForwardRun(invocations) && forall i | 0 <= i < |invocations| :: Honest(settings, invocations[i])
    ensures BudgetsKept(settings, AfterAll(settings, invocations), Latest(invocations))
  {
    hide Honest, Invoke;
    if invocations == [] {
      forall i | 0 <= i < |settings.budget.rules|
        ensures Within(BudgetTerms(settings.budget.rules[i]), Pool([], map[], 0))
      {
        InitialPoolWithin(BudgetTerms(settings.budget.rules[i]), 0);
      }
    } else {
      hide BudgetsKept;
      var front, last := invocations[..|invocations| - 1], invocations[|invocations| - 1];
      RunKeepsBudgets(settings, front);
      InvokeKeepsBudgets(settings, AfterAll(settings, front), last, Latest(front));
    }
  }

  /** Budget safety: while providers keep to their projections, no trailing hour, no trailing day and no
      calendar month -- past, present or to come -- ever holds more recorded spend than its limit. */
  lemma BudgetsHold(settings: Settings, invocations: seq<Invocation>, i: int, end: int)
    requires SoundBudget(settings.budget) && Pricing.NonNegativeRates(settings.rates)
    requires ForwardRun(invocations) && forall k | 0 <= k < |invocations| :: Honest(settings, invocations[k])
    requires 0 <= i < |settings.budget.rules|
    ensures var rule := settings.budget.rules[i];
      Spend(rule.span, AfterAll(settings, invocations).spend, end) <= rule.limit
  {
    hide AfterAll, Spend, Honest, Within;
    RunKeepsBudgets(settings, invocations);
    WithinMeans(BudgetTerms(settings.budget.rules[i]),
      Pool(AfterAll(settings, invocations).spend, map[], Latest(invocations)));
  }
}
