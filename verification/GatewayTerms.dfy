/** The gateway in its callers' terms: budgets as they are configured, answers by the question asked, limits by the
    caller, and what each way an invocation can end says and counts (ai/gateway.py, ai/governance.py,
    ai/schemas.py). */
module GatewayTerms {
  import opened Wrappers
  import opened AiTypes
  import opened Windows
  import opened Governance
  import opened RateLimiter
  import opened ResponseCache
  import opened Routing
  import opened Gateway
  import opened GatewayLaws
  import opened Interleaving
  import Uninterrupted

  // ----- budgets from the settings -----

  /** Budget safety in the terms of the settings: while providers keep to their projections, no closed hour holds
      more recorded spend than the hourly ceiling, no closed day more than the daily one and no calendar month more
      than the monthly one, each if it is set. */
  lemma ConfiguredBudgetsHold(
    settings: Settings, perRequest: real, perHour: real, perDay: real, perMonth: real, warnRatio: real,
    monthOf: int -> int, invocations: seq<Invocation>, end: int)
    requires settings.budget == Configure(perRequest, perHour, perDay, perMonth, warnRatio, monthOf)
    requires WellFormed(CalendarMonth(monthOf)) && Pricing.NonNegativeRates(settings.rates)
    requires ForwardRun(invocations) && forall k | 0 <= k < |invocations| :: Honest(settings, invocations[k])
    ensures var spend := AfterAll(settings, invocations).spend;
      && (perHour > 0.0 ==> Spend(Trailing(3600 * 1000000), spend, end) <= perHour)
      && (perDay > 0.0 ==> Spend(Trailing(86400 * 1000000), spend, end) <= perDay)
      && (perMonth > 0.0 ==> Spend(CalendarMonth(monthOf), spend, end) <= perMonth)
  {
    hide AfterAll, Spend, Honest, Configure, ForwardRun;
    ConfiguredWindows(perRequest, perHour, perDay, perMonth, warnRatio, monthOf);
    ConfiguredWell(perRequest, perHour, perDay, perMonth, warnRatio, monthOf);
    forall i | 0 <= i < |settings.budget.rules|
      ensures Spend(settings.budget.rules[i].span, AfterAll(settings, invocations).spend, end)
        <= settings.budget.rules[i].limit
    {
      BudgetsHold(settings, invocations, i, end);
    }
  }

  // ----- answers by the question -----

  /** Over every sequence of invocations, whatever is served from the cache was given, successfully, to an earlier
      request for the same question no longer ago than such answers last, and is that answer under the new
      request's id and at no cost. */
  lemma CachedAnswerIsToThisQuestion(
    settings: Settings, invocations: seq<Invocation>, asking: Invocation)
    returns (j: nat)
    requires var before := AfterAll(settings, invocations);
      Invoke(settings, before, asking.request, asking.provider, asking.clock).0.stats.cacheHits > before.stats.cacheHits
    ensures j < |invocations| && SameQuestion(invocations[j].request, asking.request)
    ensures var asked := invocations[j];
      var given := Invoke(settings, AfterAll(settings, invocations[..j]), asked.request, asked.provider, asked.clock).1;
      var served := Invoke(settings, AfterAll(settings, invocations), asking.request, asking.provider, asking.clock).1;
      var seconds := match asking.request.task case ThesisReview => 300 case ResearchSynthesis => 600 case _ => 3600;
      && given.success && given.routing == Route(settings.registry, asked.request, false)
      && served == given.(requestId := asking.request.requestId, cached := true, cost := Some(0.0))
      && asking.clock.cacheGet < asked.clock.cachePut + seconds * 1000000
  {
    hide Invoke, AfterAll, Route, IsAdmitted, Request.FingerprintOf;
    var before, fingerprint := AfterAll(settings, invocations), asking.request.FingerprintOf();
    InvokeCountsHits(settings, before, asking);
    HitMeansLivePut(before.puts, fingerprint, asking.clock.cacheGet);
    var i :| LatestFor(before.puts, fingerprint, i) && asking.clock.cacheGet < before.puts[i].entry.expiresAt;
    j := StoredAnswersWereRouted(settings, invocations, i);
    FingerprintsTellQuestionsApart(invocations[j].request, asking.request);
  }

  /** Move k of the run stored this answer, for the question its request asked. */
  ghost predicate StoredAt(settings: Settings, moves: seq<Move>, k: int, put: Put) {
    && 0 <= k < |moves| && moves[k].StoreAnswer? && InPhase(TakeAll(settings, EMPTY, moves[..k]), moves[k])
    && var job := TakeAll(settings, EMPTY, moves[..k]).jobs[moves[k].id];
       put.fingerprint == job.request.FingerprintOf() && put.entry.response == job.phase.response
       && put.entry.expiresAt == job.stamp.value + TaskTtl(job.request.task) * SECOND
  }

  lemma {:induction false} LegalFront(settings: Settings, w: World, moves: seq<Move>)
    requires Uninterrupted.Legal(settings, w, moves) && moves != []
    ensures var front := moves[..|moves| - 1];
      && Uninterrupted.Legal(settings, w, front) && InPhase(TakeAll(settings, w, front), moves[|moves| - 1])
      && TakeAll(settings, w, moves) == Take(settings, TakeAll(settings, w, front), moves[|moves| - 1])
    decreases |moves|
  {
    hide Take;
    var front, last := moves[..|moves| - 1], moves[|moves| - 1];
    if |moves| == 1 {
      assert front == [] && moves[1..] == [];
    } else {
      LegalFront(settings, Take(settings, w, moves[0]), moves[1..]);
      assert moves[1..][..|moves| - 2] == front[1..];
    }
  }

  lemma PutsOfMove(settings: Settings, w: World, move: Move)
    requires InPhase(w, move)
    ensures var after := Take(settings, w, move).puts;
      || after == w.puts
      || (&& move.StoreAnswer? && |after| == |w.puts| + 1 && w.puts <= after
          && var job, put := w.jobs[move.id], after[|w.puts|];
             put.fingerprint == job.request.FingerprintOf() && put.entry.response == job.phase.response
             && put.entry.expiresAt == job.stamp.value + TaskTtl(job.request.task) * SECOND)
  {
    hide CheckLeft, GetFrom, Clearance, Pricing.Estimate, PutInto;
  }

  lemma {:induction false} PutsWereStored(settings: Settings, moves: seq<Move>, i: int) returns (k: int)
    requires Uninterrupted.Legal(settings, EMPTY, moves) && 0 <= i < |TakeAll(settings, EMPTY, moves).puts|
    ensures StoredAt(settings, moves, k, TakeAll(settings, EMPTY, moves).puts[i])
    decreases |moves|
  {
    hide Take, Uninterrupted.Legal;
    if moves == [] {
      NothingPut(settings);
    } else {
      var front, last := moves[..|moves| - 1], moves[|moves| - 1];
      LegalFront(settings, EMPTY, moves);
      var w := TakeAll(settings, EMPTY, front);
      PutsOfMove(settings, w, last);
      if i < |w.puts| {
        k := PutsWereStored(settings, front, i);
        StoredEarlier(settings, front, last, k, w.puts[i]);
        assert moves == front + [last];
      } else {
        k := |front|;
      }
    }
  }

  lemma NothingPut(settings: Settings)
    ensures TakeAll(settings, EMPTY, []).puts == []
  {
  }

  lemma StoredEarlier(settings: Settings, front: seq<Move>, last: Move, k: int, put: Put)
    requires StoredAt(settings, front, k, put)
    ensures StoredAt(settings, front + [last], k, put)
  {
    hide TakeAll;
    assert (front + [last])[..k] == front[..k];
  }

  /** Over every interleaving, whatever a look-up serves was stored by an earlier request for the same question: it
      is a success, the latest put for that question, and alive at the reading of the look-up. */
  lemma ServedAnswerIsToThisQuestion(settings: Settings, moves: seq<Move>, id: int) returns (k: int)
    requires Uninterrupted.Legal(settings, EMPTY, moves) && InPhase(TakeAll(settings, EMPTY, moves), LookUp(id))
    requires Take(settings, TakeAll(settings, EMPTY, moves), LookUp(id)).jobs[id].phase.Finished?
    ensures 0 <= k < |moves| && moves[k].StoreAnswer? && InPhase(TakeAll(settings, EMPTY, moves[..k]), moves[k])
    ensures var w := TakeAll(settings, EMPTY, moves);
      var asking, served := w.jobs[id], Take(settings, w, LookUp(id)).jobs[id].phase.served;
      var asked := TakeAll(settings, EMPTY, moves[..k]).jobs[moves[k].id];
      var seconds := match asked.request.task case ThesisReview => 300 case ResearchSynthesis => 600 case _ => 3600;
      && SameQuestion(asked.request, asking.request) && served == Some(asked.phase.response) && served.value.success
      && asking.stamp.value < asked.stamp.value + seconds * 1000000
  {
    hide TakeAll, Uninterrupted.Legal, Request.FingerprintOf, Clearance, CheckLeft, GetFrom;
    ServedAnswersWereGiven(settings, moves, id);
    var w := TakeAll(settings, EMPTY, moves);
    var job, served := w.jobs[id], Take(settings, w, LookUp(id)).jobs[id].phase.served;
    var i :| LatestFor(w.puts, job.request.FingerprintOf(), i)
      && w.puts[i].entry.response == served.value && job.stamp.value < w.puts[i].entry.expiresAt;
    k := PutsWereStored(settings, moves, i);
    FingerprintsTellQuestionsApart(TakeAll(settings, EMPTY, moves[..k]).jobs[moves[k].id].request, job.request);
  }

  // ----- limits by the caller -----

  predicate Anonymous(request: Request) {
    request.principal in {None, Some(""), Some("anonymous")}
  }

  /** Two requests count against the same limit exactly when they are of one task and one caller, all nameless
      callers being one. */
  lemma KeysTellCallersApart(a: Request, b: Request)
    ensures KeyOf(a) == KeyOf(b) <==>
            a.task == b.task && (a.principal == b.principal || (Anonymous(a) && Anonymous(b)))
  {
  }

  /** How many of the invocations are of this request's task and caller. */
  function OfOneKey(invocations: seq<Invocation>, request: Request): nat {
    if invocations == [] then 0 else
      OfOneKey(invocations[..|invocations| - 1], request)
      + if KeyOf(invocations[|invocations| - 1].request) == KeyOf(request) then 1 else 0
  }

  /** Nobody spends another's allowance: over every sequence the hits on record for a request's key are at most the
      invocations of its own task and caller. */
  lemma {:induction false} HitsAreOnesOwn(settings: Settings, invocations: seq<Invocation>, request: Request)
    ensures |HitsOf(AfterAll(settings, invocations).hits, KeyOf(request))| <= OfOneKey(invocations, request)
  {
    hide Invoke, KeyOf;
    if invocations != [] {
      var front, last := invocations[..|invocations| - 1], invocations[|invocations| - 1];
      HitsAreOnesOwn(settings, front, request);
      HitsOfInvoke(settings, AfterAll(settings, front), last.request, last.provider, last.clock);
    }
  }

  // ----- how an invocation ends -----

  /** What the counters gain, one request aside. */
  ghost predicate Gains(
    before: Stats, after: Stats, succeeded: int, failed: int, rate: int, budget: int, hits: int, escalations: int,
    localCalls: int, frontierCalls: int)
  {
    after == Stats(
      before.requests + 1, before.succeeded + succeeded, before.failed + failed, before.blockedRateLimit + rate,
      before.blockedBudget + budget, before.cacheHits + hits, before.escalations + escalations,
      before.localCalls + localCalls, before.frontierCalls + frontierCalls)
  }

  ghost predicate Refuses(before: Stats, after: Stats, response: Response, kind: ErrorKind, rate: int, budget: int) {
    !response.success && response.errorKind == Some(kind) && response.text == ""
    && Gains(before, after, 0, 1, rate, budget, 0, 0, 0, 0)
  }

  /** The ways an invocation ends before a provider is asked, each with what it says and what it counts. */
  lemma RefusalsSayWhy(settings: Settings, before: State, asking: Invocation)
    ensures var request, clock := asking.request, asking.clock;
      var (after, response) := Invoke(settings, before, request, asking.provider, clock);
      var cached := Lookup(before.puts, request.FingerprintOf(), clock.cacheGet);
      var decision := Route(settings.registry, request, false);
      var missed := IsAdmitted(settings, before, asking) && cached.None?;
      var free := missed && request.FingerprintOf() !in before.inFlight;
      && (!settings.aiEnabled ==> Refuses(before.stats, after.stats, response, ProviderUnavailable, 0, 0))
      && (settings.aiEnabled && !IsAdmitted(settings, before, asking) ==>
            Refuses(before.stats, after.stats, response, RateLimitExceeded, 1, 0))
      && (IsAdmitted(settings, before, asking) && cached.Some? ==>
            response.cached && Gains(before.stats, after.stats, 0, 0, 0, 0, 1, 0, 0, 0))
      && (missed && request.FingerprintOf() in before.inFlight ==>
            Refuses(before.stats, after.stats, response, ProviderUnavailable, 0, 0))
      && (free && decision.None? ==> Refuses(before.stats, after.stats, response, NoRoute, 0, 0))
  {
    hide CheckRate, Lookup, Route, CheckBudget, Pricing.Project, CallProvider, Account, HitsOf, Request.FingerprintOf;
    NeverDegraded(settings, before, asking.clock);
  }

  /** The ways it ends once it is routed: unpriced, over budget, or as the routed provider's attempts end -- a success
      counted for the tier it was routed to. */
  lemma RoutedEndsSayWhy(settings: Settings, before: State, asking: Invocation)
    requires IsAdmitted(settings, before, asking) && asking.request.FingerprintOf() !in before.inFlight
    requires Lookup(before.puts, asking.request.FingerprintOf(), asking.clock.cacheGet).None?
    requires Route(settings.registry, asking.request, false).Some?
    ensures var request, clock := asking.request, asking.clock;
      var (after, response) := Invoke(settings, before, request, asking.provider, clock);
      var decision := Route(settings.registry, request, false).value;
      var projected := Pricing.Project(
        settings.rates, decision.model, request.ContextSize(), request.policy.maxOutputTokens);
      var over := CheckBudget(settings.budget, before.spend, projected, clock.budgetCheck).state == Exceeded;
      var tried := Try(asking.provider, 1, request.policy.maxAttempts);
      if projected.None? && !settings.allowUnpriced then
        Refuses(before.stats, after.stats, response, BudgetExceeded, 0, 0)
      else if over then Refuses(before.stats, after.stats, response, BudgetExceeded, 0, 1)
      else if decision.provider !in settings.providers then
        Refuses(before.stats, after.stats, response, NoRoute, 0, 0)
      else if tried.outcome.Fails? then
        Refuses(before.stats, after.stats, response, tried.outcome.kind, 0, 0)
      else
        var answer := tried.outcome.response;
        && response == answer.(routing := Some(decision), retryCount := tried.made - 1,
                               cost := Pricing.Estimate(settings.rates, answer.model, answer.usage))
        && Gains(before.stats, after.stats, 1, 0, 0, 0, 0, if decision.escalated then 1 else 0,
                 if decision.tier == Local then 1 else 0, if decision.tier == Local then 0 else 1)
  {
    hide CheckRate, Lookup, Route, CheckBudget, Pricing.Project, Pricing.Estimate, Try, HitsOf, Store, Repeat;
    hide Governance.Charge, Request.FingerprintOf;
    NeverDegraded(settings, before, asking.clock);
  }

  /** The invocation is admitted, misses the cache, is routed, and its projection is let through. */
  ghost predicate Reaches(settings: Settings, before: State, asking: Invocation) {
    var request, clock := asking.request, asking.clock;
    var decision := Route(settings.registry, request, false);
    && IsAdmitted(settings, before, asking)
    && Lookup(before.puts, request.FingerprintOf(), clock.cacheGet).None? && decision.Some?
    && var projected := Pricing.Project(settings.rates, decision.value.model, request.ContextSize(),
                                        request.policy.maxOutputTokens);
       && (projected.Some? || settings.allowUnpriced)
       && CheckBudget(settings.budget, before.spend, projected, clock.budgetCheck).state != Exceeded
  }

  /** An invocation that ends before its provider is reached leaves no hit, call, charge or answer on record. */
  lemma EarlyEndsLeaveNothing(settings: Settings, before: State, asking: Invocation)
    requires !Reaches(settings, before, asking) && before.inFlight == {}
    ensures var after := Invoke(settings, before, asking.request, asking.provider, asking.clock).0;
      && after.hits == before.hits && after.calls == before.calls && after.spend == before.spend
      && after.puts == before.puts && after.inFlight == {}
  {
    hide CheckRate, Lookup, Route, CheckBudget, Pricing.Project, CallProvider, Account, HitsOf;
    hide Request.FingerprintOf, KeyOf;
    NeverDegraded(settings, before, asking.clock);
  }

  /** One that reaches it leaves a hit for its key and the calls it made, all to the routed model; and, of an answer,
      the charge if its cost is known and the answer for its lifetime -- of a failure neither. */
  lemma ReachingLeavesItsRecords(settings: Settings, before: State, asking: Invocation)
    requires Reaches(settings, before, asking) && before.inFlight == {}
    ensures var request, clock := asking.request, asking.clock;
      var (after, response) := Invoke(settings, before, request, asking.provider, clock);
      var key, decision := KeyOf(request), Route(settings.registry, request, false).value;
      var tried := Try(asking.provider, 1, request.policy.maxAttempts);
      && after.hits == before.hits[key := HitsOf(before.hits, key) + [clock.rateRecord]] && after.inFlight == {}
      && after.calls == before.calls + (if decision.provider in settings.providers
                                        then Repeat(Call(decision.provider, decision.model, decision.tier), tried.made)
                                          else [])
      && (if decision.provider in settings.providers && tried.outcome.Answers? then
            && after.spend == before.spend
                 + (if response.cost.Some? then [Entry(clock.charge, response.cost.value)] else [])
            && after.puts == before.puts + (if response.success then
                 [Put(request.FingerprintOf(), CacheEntry(response, clock.cachePut + TaskTtl(request.task) * SECOND))]
                   else [])
          else after.spend == before.spend && after.puts == before.puts)
  {
    hide CheckRate, Lookup, Route, CheckBudget, Pricing.Project, Pricing.Estimate, Try, HitsOf, Repeat;
    hide Request.FingerprintOf, KeyOf;
    NeverDegraded(settings, before, asking.clock);
  }
}
