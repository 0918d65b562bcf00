/** The two models of the gateway are one: a request whose atomic steps run without interruption does to
    the shared limiter, ledger, cache and in-flight set exactly what one invocation does. */
module Uninterrupted {
  import opened Wrappers
  import opened AiTypes
  import opened Windows
  import opened Governance
  import opened RateLimiter
  import opened ResponseCache
  import Pricing
  import opened Routing
  import opened Gateway
  import opened Interleaving
  import GatewayLaws

  /** What the requests share, as one invocation sees it. */
  function Shared(w: World): State {
    State(NO_STATS, w.hits, w.spend, w.puts, w.inFlight, [], [])
  }

  ghost predicate Same(w: World, s: State) {
    w.hits == s.hits && w.spend == s.spend && w.puts == s.puts && w.inFlight == s.inFlight
  }

  /** Every move is legal where it is taken. */
  predicate Legal(settings: Settings, w: World, moves: seq<Move>)
    decreases moves
  {
    moves == [] || (InPhase(w, moves[0]) && Legal(settings, Take(settings, w, moves[0]), moves[1..]))
  }

  /** Only this request moves; everything else stands still. */
  ghost predicate Alone(moves: seq<Move>, id: int) {
    forall i | 0 <= i < |moves| :: moves[i].Pass? || moves[i].id == id
  }

  ghost predicate Reaches(settings: Settings, w: World, moves: seq<Move>, id: int, goal: World) {
    Alone(moves, id) && Legal(settings, w, moves) && TakeAll(settings, w, moves) == goal
  }

  lemma {:induction false} OneMoreMove(settings: Settings, w: World, moves: seq<Move>, move: Move)
    requires Legal(settings, w, moves) && InPhase(TakeAll(settings, w, moves), move)
    ensures Legal(settings, w, moves + [move])
    ensures TakeAll(settings, w, moves + [move]) == Take(settings, TakeAll(settings, w, moves), move)
    decreases moves
  {
    hide Take;
    if moves == [] {
      assert [move][1..] == [] && moves + [move] == [move];
    } else {
      OneMoreMove(settings, Take(settings, w, moves[0]), moves[1..], move);
      assert (moves + [move])[1..] == moves[1..] + [move];
    }
  }

  lemma Continue(
    settings: Settings, w: World, moves: seq<Move>, id: int, goal: World, move: Move)
    returns (longer: seq<Move>)
    requires Reaches(settings, w, moves, id, goal) && InPhase(goal, move) && (move.Pass? || move.id == id)
    ensures Reaches(settings, w, longer, id, Take(settings, goal, move))
  {
    hide Take, Legal, TakeAll;
    OneMoreMove(settings, w, moves, move);
    longer := moves + [move];
  }

  lemma Reached(settings: Settings, w: World, moves: seq<Move>, id: int, goal: World)
    requires Reaches(settings, w, moves, id, goal)
    ensures Alone(moves, id) && Legal(settings, w, moves) && TakeAll(settings, w, moves) == goal
  {
  }

  /** The provider's replies, attempt by attempt, end where the retry loop ends. */
  lemma {:induction false} Replies(
    settings: Settings, w: World, moves: seq<Move>, id: int, goal: World, provider: nat -> Outcome)
    returns (longer: seq<Move>)
    requires Reaches(settings, w, moves, id, goal) && id in goal.jobs && goal.jobs[id].phase.Calling?
    requires goal.jobs[id].phase.attempt <= goal.jobs[id].request.policy.maxAttempts
    ensures var job := goal.jobs[id];
      var tried := Try(provider, job.phase.attempt, job.request.policy.maxAttempts);
      Reaches(settings, w, longer, id, Goto(goal, id,
        match tried.outcome
        case Answers(response) =>
          Answered(job.phase.projected, response.(routing := Some(job.phase.decision), retryCount := tried.made - 1))
        case Fails(_) => Releasing))
    decreases goal.jobs[id].request.policy.maxAttempts - goal.jobs[id].phase.attempt
  {
    var job := goal.jobs[id];
    var outcome := provider(job.phase.attempt);
    longer := Continue(settings, w, moves, id, goal, Reply(id, outcome));
    if outcome.Fails? && Retryable(outcome.kind) && job.phase.attempt < job.request.policy.maxAttempts {
      var next := Take(settings, goal, Reply(id, outcome));
      longer := Replies(settings, w, longer, id, next, provider);
      SamePlaceTwice(goal, id, job.phase.(attempt := job.phase.attempt + 1));
    }
  }

  lemma SamePlaceTwice(w: World, id: int, between: Phase)
    requires id in w.jobs
    ensures forall phase: Phase :: Goto(Goto(w, id, between), id, phase) == Goto(w, id, phase)
  {
    forall phase: Phase ensures Goto(Goto(w, id, between), id, phase) == Goto(w, id, phase) {
      assert Goto(Goto(w, id, between), id, phase).jobs == Goto(w, id, phase).jobs;
    }
  }

  /** The world with this request in a phase, at an instant. */
  function At(w: World, id: int, request: Request, now: int, phase: Phase, stamp: Option<int>): World {
    w.(now := now, jobs := w.jobs[id := Job(request, phase, stamp)])
  }

  lemma Overwrite(base: World, id: int, request: Request, now: int, before: Phase, stamp: Option<int>, after: Phase)
    ensures Goto(At(base, id, request, now, before, stamp), id, after) == At(base, id, request, now, after, None)
  {
    assert base.jobs[id := Job(request, before, stamp)][id := Job(request, after, None)]
           == base.jobs[id := Job(request, after, None)];
  }

  /** Time passes and the request reads its clock for the next operation. */
  lemma ReadNow(
    settings: Settings, w: World, moves: seq<Move>, id: int, base: World, request: Request, before: int, now: int,
    phase: Phase)
    returns (longer: seq<Move>)
    requires Reaches(settings, w, moves, id, At(base, id, request, before, phase, None)) && before <= now
      && Timed(phase)
    ensures Reaches(settings, w, longer, id, At(base, id, request, now, phase, Some(now)))
  {
    hide Reaches;
    longer := Continue(settings, w, moves, id, At(base, id, request, before, phase, None), Pass(now));
    var passed := At(base, id, request, now, phase, None);
    longer := Continue(settings, w, longer, id, passed, Move.ReadClock(id));
    assert passed.jobs[id := passed.jobs[id].(stamp := Some(now))] == base.jobs[id := Job(request, phase, Some(now))];
  }

  // ----- readings in order -----

  /** The shared parts have heard of no reading after `now` and of none out of order: what they have
      forgotten makes no difference. */
  ghost predicate Orderly(settings: Settings, w: World, now: int) {
    && (forall key: RateKey :: OnTime(HitsOf(w.hits, key), PoppedOf(w, key), now))
    && Punctual(settings.budget.rules, w.spend, Counts(settings, w), now)
    && Current(w.entries, w.puts, now)
  }

  lemma StaysOrderly(settings: Settings, w: World, now: int, later: int)
    requires Orderly(settings, w, now) && now <= later
    ensures Orderly(settings, w, later)
  {
    hide Gone, WellFormed, LastPut;
    PunctualLater(settings.budget.rules, w.spend, Counts(settings, w), now, later);
  }

  /** Each operation, on orderly parts and with a reading in order, answers as the full history does and
      leaves the parts orderly. */
  lemma CheckLimitsOrderly(settings: Settings, w: World, key: RateKey, before: int, now: int)
    requires Orderly(settings, w, before) && before <= now
    ensures var (verdict, popped) := CheckLeft(settings.limits, HitsOf(w.hits, key), PoppedOf(w, key), now);
      && verdict == CheckRate(settings.limits, HitsOf(w.hits, key), now)
      && Orderly(settings, w.(poppedHits := w.poppedHits[key := popped]), now)
  {
    hide CheckLeft, CheckRate, Gone, WellFormed, LastPut, OnTime, Punctual, Current;
    StaysOrderly(settings, w, before, now);
    LeftCheckIsExact(settings.limits, HitsOf(w.hits, key), PoppedOf(w, key), before, now);
    var popped := CheckLeft(settings.limits, HitsOf(w.hits, key), PoppedOf(w, key), now).1;
    assert Counts(settings, w.(poppedHits := w.poppedHits[key := popped])) == Counts(settings, w);
  }

  lemma LookUpOrderly(settings: Settings, w: World, fingerprint: Fingerprint, before: int, now: int)
    requires Orderly(settings, w, before) && before <= now
    ensures var (found, entries) := GetFrom(w.entries, fingerprint, now);
      found == Lookup(w.puts, fingerprint, now) && Orderly(settings, w.(entries := entries), now)
  {
    hide GetFrom, Lookup, OnTime, Punctual, Current;
    StaysOrderly(settings, w, before, now);
    GetIsExact(w.entries, w.puts, fingerprint, before, now);
    assert Counts(settings, w.(entries := GetFrom(w.entries, fingerprint, now).1)) == Counts(settings, w);
  }

  lemma ClearOrderly(settings: Settings, w: World, request: Request, before: int, now: int)
    requires Orderly(settings, w, before) && before <= now
    ensures var (phase, popped) := Clearance(settings, w, request, now);
      && Orderly(settings, w.(popped := popped), now)
      && var routed := Route(settings.registry, request, false);
         if routed.None? then phase.Releasing?
         else
           var projected := Pricing.Project(
             settings.rates, routed.value.model, request.ContextSize(), request.policy.maxOutputTokens);
           if (projected.None? && !settings.allowUnpriced)
              || CheckBudget(settings.budget, w.spend, projected, now).state == Exceeded then phase.Releasing?
           else phase == Cleared(routed.value, projected)
  {
    hide CheckPruned, CheckBudget, OnTime, Punctual, Current, Route, Pricing.Project;
    StaysOrderly(settings, w, before, now);
    var routed := Route(settings.registry, request, false);
    if routed.Some? {
      var projected := Pricing.Project(
        settings.rates, routed.value.model, request.ContextSize(), request.policy.maxOutputTokens);
      PrunedCheckIsExact(settings.budget, w.spend, Counts(settings, w), projected, before, now);
    }
    var popped := Clearance(settings, w, request, now).1;
    assert Counts(settings, w.(popped := popped)) == popped;
  }

  lemma RecordHitOrderly(settings: Settings, w: World, key: RateKey, before: int, now: int)
    requires Orderly(settings, w, before) && before <= now
    ensures Orderly(settings, w.(hits := w.hits[key := HitsOf(w.hits, key) + [now]]), now)
  {
    hide Punctual, Current;
    StaysOrderly(settings, w, before, now);
    var after := w.(hits := w.hits[key := HitsOf(w.hits, key) + [now]]);
    assert Counts(settings, after) == Counts(settings, w);
    forall k: RateKey ensures OnTime(HitsOf(after.hits, k), PoppedOf(after, k), now) {
      assert OnTime(HitsOf(w.hits, k), PoppedOf(w, k), now);
      assert HitsOf(after.hits, k) == if k == key then HitsOf(w.hits, key) + [now] else HitsOf(w.hits, k);
    }
  }

  lemma ChargeOrderly(settings: Settings, w: World, cost: Cost, before: int, now: int)
    requires Orderly(settings, w, before) && before <= now
    ensures Orderly(settings, w.(spend := Governance.Charge(w.spend, cost, now)), now)
  {
    hide OnTime, Current, Punctual, Governance.Charge;
    StaysOrderly(settings, w, before, now);
    ChargeIsPunctual(settings.budget.rules, w.spend, Counts(settings, w), cost, before, now);
    assert Counts(settings, w.(spend := Governance.Charge(w.spend, cost, now))) == Counts(settings, w);
  }

  lemma StoreOrderly(
    settings: Settings, w: World, fingerprint: Fingerprint, response: Response, ttl: int, before: int, now: int)
    requires Orderly(settings, w, before) && before <= now
    ensures Orderly(settings, w.(puts := Store(w.puts, fingerprint, response, ttl, now),
                                 entries := PutInto(w.entries, fingerprint, response, ttl, now)), now)
  {
    hide OnTime, Punctual, Store, PutInto, LastPut;
    StaysOrderly(settings, w, before, now);
    PutIsLogged(w.entries, w.puts, fingerprint, response, ttl, before, now);
    assert Counts(settings, w.(puts := Store(w.puts, fingerprint, response, ttl, now),
                               entries := PutInto(w.entries, fingerprint, response, ttl, now))) == Counts(settings, w);
  }

  // ----- one invocation, step by step -----

  lemma Started(settings: Settings, w: World, id: int, request: Request, now: int) returns (moves: seq<Move>)
    requires id !in w.jobs && w.now <= now
    ensures Reaches(settings, w, moves, id, At(w, id, request, now, Arrived, Some(now)))
  {
    moves := Continue(settings, w, [], id, w, Arrive(id, request));
    moves := ReadNow(settings, w, moves, id, w, request, w.now, now, Arrived);
  }

  /** From an answer to the release: charge, store. */
  lemma AccountReaches(
    settings: Settings, w: World, moves: seq<Move>, id: int, base: World, request: Request, now: int,
    projected: Cost, decision: Decision, answer: Response, clock: Clock)
    returns (longer: seq<Move>, end: World)
    requires Reaches(settings, w, moves, id, At(base, id, request, now, Answered(projected, answer), None))
    requires now <= clock.charge <= clock.cachePut && Orderly(settings, base, now)
    ensures Same(end, Account(settings, Shared(base), request, decision, answer, clock).0)
    ensures end.jobs == base.jobs && Orderly(settings, end, clock.cachePut)
    ensures Reaches(settings, w, longer, id, At(end, id, request, clock.cachePut, Releasing, None))
  {
    hide Reaches, Store, PutInto, Pricing.Estimate, Governance.Charge, Orderly;
    var cost := Pricing.Estimate(settings.rates, answer.model, answer.usage);
    var answered := Answered(projected, answer);
    longer := ReadNow(settings, w, moves, id, base, request, now, clock.charge, answered);
    longer := Continue(settings, w, longer, id, At(base, id, request, clock.charge, answered, Some(clock.charge)),
      ChargeCost(id));
    var charged := base.(spend := Governance.Charge(base.spend, cost, clock.charge));
    ChargeOrderly(settings, base, cost, now, clock.charge);
    var response := answer.(cost := cost);
    Overwrite(base, id, request, clock.charge, answered, Some(clock.charge), Charged(response));
    longer := ReadNow(settings, w, longer, id, charged, request, clock.charge, clock.cachePut, Charged(response));
    longer := Continue(
      settings, w, longer, id, At(charged, id, request, clock.cachePut, Charged(response), Some(clock.cachePut)),
        StoreAnswer(id));
    Overwrite(charged, id, request, clock.cachePut, Charged(response), Some(clock.cachePut), Releasing);
    var fingerprint, ttl := request.FingerprintOf(), TaskTtl(request.task);
    StoreOrderly(settings, charged, fingerprint, response, ttl, clock.charge, clock.cachePut);
    end := charged.(puts := Store(charged.puts, fingerprint, response, ttl, clock.cachePut),
                    entries := PutInto(charged.entries, fingerprint, response, ttl, clock.cachePut));
  }

  /** Accounting for an answer reads nothing of the shared state but the charges and the cache. */
  lemma AccountDependsOn(
    settings: Settings, a: State, b: State, request: Request, decision: Decision, answer: Response, clock: Clock)
    requires a.spend == b.spend && a.puts == b.puts
    ensures var x := Account(settings, a, request, decision, answer, clock).0;
      var y := Account(settings, b, request, decision, answer, clock).0;
      && x.spend == y.spend && x.puts == y.puts
      && x.hits == a.hits && x.inFlight == a.inFlight && y.hits == b.hits && y.inFlight == b.inFlight
  {
    hide Store, Pricing.Estimate, Governance.Charge;
  }

  /** From the provider's last reply to the release: account for an answer, or give up. */
  lemma RepliedReaches(
    settings: Settings, w: World, moves: seq<Move>, id: int, hit: World, request: Request, now: int,
    decision: Decision, projected: Cost, tried: Attempts, clock: Clock)
    returns (longer: seq<Move>, end: World, at: int)
    requires var phase := match tried.outcome
        case Answers(response) => Answered(
          projected, response.(routing := Some(decision), retryCount := tried.made - 1))
        case Fails(_) => Releasing;
      Reaches(settings, w, moves, id, At(hit, id, request, now, phase, None))
    requires now <= clock.charge <= clock.cachePut && Orderly(settings, hit, now)
    ensures tried.outcome.Fails? ==> Same(end, Shared(hit))
    ensures tried.outcome.Answers? ==>
              var answer := tried.outcome.response.(routing := Some(decision), retryCount := tried.made - 1);
              Same(end, Account(settings, Shared(hit), request, decision, answer, clock).0)
    ensures end.jobs == hit.jobs && now <= at <= clock.cachePut && Orderly(settings, end, at)
    ensures Reaches(settings, w, longer, id, At(end, id, request, at, Releasing, None))
  {
    hide Reaches, Account, Orderly;
    longer, end, at := moves, hit, now;
    if tried.outcome.Answers? {
      var answer := tried.outcome.response.(routing := Some(decision), retryCount := tried.made - 1);
      longer, end := AccountReaches(settings, w, moves, id, hit, request, now, projected, decision, answer, clock);
      at := clock.cachePut;
    }
  }

  /** From the provider to the release: replies, account. */
  lemma CalledReaches(
    settings: Settings, w: World, moves: seq<Move>, id: int, hit: World, request: Request, now: int,
    decision: Decision, projected: Cost, provider: nat -> Outcome, clock: Clock)
    returns (longer: seq<Move>, end: World, at: int)
    requires Reaches(settings, w, moves, id, At(hit, id, request, now, Calling(decision, projected, 1), None))
    requires now <= clock.charge <= clock.cachePut && Orderly(settings, hit, now)
    requires decision.provider in settings.providers
    ensures var called := CallProvider(settings, Shared(hit), request, decision, provider);
      Same(end, if called.Raised? then called.state
                else Account(settings, called.state, request, decision, called.response, clock).0)
    ensures end.jobs == hit.jobs && now <= at <= clock.cachePut && Orderly(settings, end, at)
    ensures Reaches(settings, w, longer, id, At(end, id, request, at, Releasing, None))
  {
    hide Reaches, Try, Account, Orderly, Repeat;
    var calling := Calling(decision, projected, 1);
    longer := Replies(settings, w, moves, id, At(hit, id, request, now, calling, None), provider);
    var tried := Try(provider, 1, request.policy.maxAttempts);
    forall phase: Phase
      ensures Goto(At(hit, id, request, now, calling, None), id, phase) == At(hit, id, request, now, phase, None)
    {
      Overwrite(hit, id, request, now, calling, None, phase);
    }
    longer, end, at := RepliedReaches(settings, w, longer, id, hit, request, now, decision, projected, tried, clock);
    if tried.outcome.Answers? {
      var answer := tried.outcome.response.(routing := Some(decision), retryCount := tried.made - 1);
      AccountDependsOn(settings, Shared(hit), CallProvider(settings, Shared(hit), request, decision, provider).state,
                       request, decision, answer, clock);
    }
  }

  /** From an approval to the release: hit, provider, account. */
  lemma ApprovedReaches(
    settings: Settings, w: World, moves: seq<Move>, id: int, base: World, request: Request, now: int,
    decision: Decision, projected: Cost, provider: nat -> Outcome, clock: Clock)
    returns (longer: seq<Move>, end: World, at: int)
    requires Reaches(settings, w, moves, id, At(base, id, request, now, Cleared(decision, projected), None))
    requires now <= clock.rateRecord <= clock.charge <= clock.cachePut && Orderly(settings, base, now)
    ensures var key := KeyOf(request);
      var recorded := Shared(base).(hits := base.hits[key := HitsOf(base.hits, key) + [clock.rateRecord]]);
      var called := CallProvider(settings, recorded, request, decision, provider);
      Same(end, if called.Raised? then called.state
                else Account(settings, called.state, request, decision, called.response, clock).0)
    ensures end.jobs == base.jobs && now <= at <= clock.cachePut && Orderly(settings, end, at)
    ensures Reaches(settings, w, longer, id, At(end, id, request, at, Releasing, None))
  {
    hide Reaches, HitsOf, Account, Orderly, Try, Repeat;
    var cleared, key := Cleared(decision, projected), KeyOf(request);
    at := clock.rateRecord;
    longer := ReadNow(settings, w, moves, id, base, request, now, at, cleared);
    longer := Continue(settings, w, longer, id, At(base, id, request, at, cleared, Some(at)), RecordHit(id));
    var hit := base.(hits := base.hits[key := HitsOf(base.hits, key) + [at]]);
    RecordHitOrderly(settings, base, key, now, at);
    end := hit;
    if decision.provider !in settings.providers {
      Overwrite(hit, id, request, at, cleared, Some(at), Releasing);
    } else {
      Overwrite(hit, id, request, at, cleared, Some(at), Calling(decision, projected, 1));
      longer, end, at := CalledReaches(settings, w, longer, id, hit, request, at, decision, projected, provider, clock);
    }
  }

  /** From the claim to the release: route, budget, and the rest -- or an early way out. */
  lemma RoutedReaches(
    settings: Settings, w: World, moves: seq<Move>, id: int, base: World, request: Request, now: int,
    provider: nat -> Outcome, clock: Clock)
    returns (longer: seq<Move>, end: World, at: int)
    requires Reaches(settings, w, moves, id, At(base, id, request, now, Claimed, None)) && Orderly(settings, base, now)
    requires now <= clock.budgetCheck <= clock.rateRecord <= clock.charge <= clock.cachePut
    ensures Same(end, Routed(settings, Shared(base), request, provider, clock).state)
    ensures end.jobs == base.jobs && now <= at <= clock.cachePut && Orderly(settings, end, at)
    ensures Reaches(settings, w, longer, id, At(end, id, request, at, Releasing, None))
  {
    hide Reaches, Pricing.Project, Route, CheckBudget, HitsOf, Account, CallProvider, Orderly, Clearance, Audited;
    NeverDegradedHere(settings, base.spend, clock.preRoute);
    at := clock.budgetCheck;
    longer := ReadNow(settings, w, moves, id, base, request, now, at, Claimed);
    var claimed := At(base, id, request, at, Claimed, Some(at));
    longer := Continue(settings, w, longer, id, claimed, Clear(id));
    SameClearance(settings, base, claimed, request, at);
    ClearOrderly(settings, base, request, now, at);
    var (phase, popped) := Clearance(settings, base, request, at);
    end := base.(popped := popped);
    Overwrite(end, id, request, at, Claimed, Some(at), phase);
    if phase.Cleared? {
      longer, end, at := ApprovedReaches(
        settings, w, longer, id, end, request, at, phase.decision, phase.projected, provider, clock);
    }
  }

  /** The budget check sees the shared parts only. */
  lemma SameClearance(settings: Settings, a: World, b: World, request: Request, now: int)
    requires a.spend == b.spend && a.popped == b.popped
    ensures Clearance(settings, a, request, now) == Clearance(settings, b, request, now)
  {
    assert Counts(settings, a) == Counts(settings, b);
  }

  lemma NeverDegradedHere(settings: Settings, spend: seq<Entry>, now: int)
    ensures CheckBudget(settings.budget, spend, None, now).state != Warning
  {
  }

  /** The counters of an invocation have no say in what it does to the shared parts. */
  lemma RoutedIgnoresCounters(
    settings: Settings, a: State, b: State, request: Request, provider: nat -> Outcome, clock: Clock)
    requires a.hits == b.hits && a.spend == b.spend && a.puts == b.puts && a.inFlight == b.inFlight
    ensures var x, y := Routed(settings, a, request, provider, clock), Routed(settings, b, request, provider, clock);
      && x.state.hits == y.state.hits && x.state.spend == y.state.spend && x.state.puts == y.state.puts
      && x.state.inFlight == y.state.inFlight && x.Returned? == y.Returned?
      && x.state.stats.cacheHits == a.stats.cacheHits
  {
    hide Store, Pricing.Estimate, Pricing.Project, Governance.Charge, Route, CheckBudget, Try, HitsOf, Repeat;
  }

  lemma CoalescedIgnoresCounters(
    settings: Settings, a: State, b: State, request: Request, provider: nat -> Outcome, clock: Clock)
    requires a.hits == b.hits && a.spend == b.spend && a.puts == b.puts && a.inFlight == b.inFlight
    ensures var x := CoalescedInvoke(settings, a, request, provider, clock).0;
      var y := CoalescedInvoke(settings, b, request, provider, clock).0;
      && x.hits == y.hits && x.spend == y.spend && x.puts == y.puts && x.inFlight == y.inFlight
      && x.stats.cacheHits == a.stats.cacheHits
  {
    hide Routed;
    var f := request.FingerprintOf();
    RoutedIgnoresCounters(settings, a.(inFlight := a.inFlight + {f}), b.(inFlight := b.inFlight + {f}), request,
      provider, clock);
  }

  /** From a cache miss to the end. */
  lemma CoalescedReaches(
    settings: Settings, w: World, moves: seq<Move>, id: int, base: World, request: Request, now: int,
    provider: nat -> Outcome, clock: Clock)
    returns (longer: seq<Move>, end: World, at: int)
    requires Reaches(settings, w, moves, id, At(base, id, request, now, Missed, None)) && Orderly(settings, base, now)
    requires now <= clock.budgetCheck <= clock.rateRecord <= clock.charge <= clock.cachePut
    ensures Same(end, CoalescedInvoke(settings, Shared(base), request, provider, clock).0)
    ensures end.jobs == base.jobs && now <= at <= clock.cachePut && Orderly(settings, end, at)
    ensures Reaches(settings, w, longer, id, At(end, id, request, at, Finished(None), None))
  {
    hide Reaches, Routed, Orderly;
    var fingerprint := request.FingerprintOf();
    longer := Continue(settings, w, moves, id, At(base, id, request, now, Missed, None), Begin(id));
    at, end := now, base;
    if fingerprint in base.inFlight {
      Overwrite(base, id, request, at, Missed, None, Finished(None));
    } else {
      var claimed := base.(inFlight := base.inFlight + {fingerprint});
      Overwrite(claimed, id, request, at, Missed, None, Claimed);
      SameOrder(settings, base, claimed, now);
      longer, end, at := RoutedReaches(settings, w, longer, id, claimed, request, at, provider, clock);
      longer := Continue(settings, w, longer, id, At(end, id, request, at, Releasing, None), Release(id));
      var released := end.(inFlight := end.inFlight - {fingerprint});
      SameOrder(settings, end, released, at);
      end := released;
      Overwrite(end, id, request, at, Releasing, None, Finished(None));
    }
  }

  lemma SameOrder(settings: Settings, a: World, b: World, now: int)
    requires Orderly(settings, a, now) && b == a.(inFlight := b.inFlight, jobs := b.jobs, now := b.now)
    ensures Orderly(settings, b, now)
  {
    hide OnTime, Punctual, Current;
    assert Counts(settings, a) == Counts(settings, b);
    assert forall key: RateKey :: PoppedOf(a, key) == PoppedOf(b, key);
  }

  /** From admission to the end. */
  lemma AdmittedReaches(
    settings: Settings, w: World, moves: seq<Move>, id: int, base: World, request: Request, now: int,
    provider: nat -> Outcome, clock: Clock)
    returns (longer: seq<Move>, end: World, at: int, phase: Phase)
    requires Reaches(settings, w, moves, id, At(base, id, request, now, Admitted, None)) && Orderly(settings, base, now)
    requires now <= clock.cacheGet <= clock.budgetCheck <= clock.rateRecord <= clock.charge <= clock.cachePut
    ensures var cached := Lookup(base.puts, request.FingerprintOf(), clock.cacheGet);
      && phase == Finished(cached)
      && Same(end, if cached.Some? then Shared(base)
           else CoalescedInvoke(settings, Shared(base), request, provider, clock).0)
    ensures end.jobs == base.jobs && now <= at <= clock.cachePut && Orderly(settings, end, at)
    ensures Reaches(settings, w, longer, id, At(end, id, request, at, phase, None))
  {
    hide Reaches, Lookup, GetFrom, CoalescedInvoke, Orderly;
    at := clock.cacheGet;
    longer := ReadNow(settings, w, moves, id, base, request, now, at, Admitted);
    LookUpOrderly(settings, base, request.FingerprintOf(), now, at);
    longer := Continue(settings, w, longer, id, At(base, id, request, at, Admitted, Some(at)), LookUp(id));
    end := base.(entries := GetFrom(base.entries, request.FingerprintOf(), at).1);
    var cached := Lookup(base.puts, request.FingerprintOf(), at);
    phase := Finished(cached);
    if cached.Some? {
      Overwrite(end, id, request, at, Admitted, Some(at), phase);
    } else {
      Overwrite(end, id, request, at, Admitted, Some(at), Missed);
      longer, end, at := CoalescedReaches(settings, w, longer, id, end, request, at, provider, clock);
    }
  }

  /** From arrival through the rate check. */
  lemma CheckedReaches(settings: Settings, w: World, id: int, request: Request, now: int)
    returns (moves: seq<Move>, end: World)
    requires id !in w.jobs && w.now <= now && Orderly(settings, w, w.now)
    ensures Shared(end) == Shared(w) && end.jobs == w.jobs && Orderly(settings, end, now)
    ensures var allowed := CheckRate(settings.limits, HitsOf(w.hits, KeyOf(request)), now).allowed;
      Reaches(settings, w, moves, id, At(end, id, request, now, if allowed then Admitted else Finished(None), None))
  {
    hide Reaches, CheckRate, CheckLeft, HitsOf, Orderly;
    var key := KeyOf(request);
    moves := Started(settings, w, id, request, now);
    moves := Continue(settings, w, moves, id, At(w, id, request, now, Arrived, Some(now)), CheckLimits(id));
    CheckLimitsOrderly(settings, w, key, w.now, now);
    var (verdict, popped) := CheckLeft(settings.limits, HitsOf(w.hits, key), PoppedOf(w, key), now);
    end := w.(poppedHits := w.poppedHits[key := popped]);
    Overwrite(end, id, request, now, Arrived, Some(now), if verdict.allowed then Admitted else Finished(None));
  }

  /** An uninterrupted request is an invocation: from any orderly world, with the clock read where one
      invocation reads it, some schedule of this request's own steps ends it with the limiter, the ledger, the
      cache and the in-flight set exactly as one invocation leaves them, served from the cache exactly when
      that invocation is, every other request where it was, and the world orderly again. */
  lemma InvokeIsASchedule(
    settings: Settings, w: World, id: int, request: Request, provider: nat -> Outcome, clock: Clock)
    returns (moves: seq<Move>)
    requires settings.aiEnabled && id !in w.jobs && Forward(clock, w.now) && Orderly(settings, w, w.now)
    ensures Alone(moves, id) && Legal(settings, w, moves)
    ensures var after, (final, response) := TakeAll(settings, w, moves),
      Invoke(settings, Shared(w), request, provider, clock);
      && Same(after, final)
      && id in after.jobs && after.jobs[id].phase.Finished?
      && after.jobs == w.jobs[id := after.jobs[id]]
      && (after.jobs[id].phase.served.Some? <==> final.stats.cacheHits == 1)
      && w.now <= after.now <= clock.cachePut && Orderly(settings, after, after.now)
  {
    hide Reaches, CheckRate, Lookup, CoalescedInvoke, HitsOf, Legal, TakeAll, Alone, Orderly;
    var end, at, phase := w, clock.rateCheck, Finished(None);
    moves, end := CheckedReaches(settings, w, id, request, at);
    if CheckRate(settings.limits, HitsOf(w.hits, KeyOf(request)), at).allowed {
      CoalescedIgnoresCounters(
        settings, Shared(w).(stats := NO_STATS.(requests := 1)), Shared(w), request, provider, clock);
      moves, end, at, phase := AdmittedReaches(settings, w, moves, id, end, request, at, provider, clock);
    }
    Reached(settings, w, moves, id, At(end, id, request, at, phase, None));
    SameOrder(settings, end, At(end, id, request, at, phase, None), at);
  }

  // ----- whole runs -----

  lemma EmptyIsOrderly(settings: Settings, now: int)
    requires forall i | 0 <= i < |settings.budget.rules| :: WellFormed(settings.budget.rules[i].span)
    ensures Orderly(settings, EMPTY, now)
  {
    hide WellFormed;
  }

  lemma {:induction false} Concatenated(settings: Settings, w: World, first: seq<Move>, second: seq<Move>)
    requires Legal(settings, w, first) && Legal(settings, TakeAll(settings, w, first), second)
    ensures Legal(settings, w, first + second)
    ensures TakeAll(settings, w, first + second) == TakeAll(settings, TakeAll(settings, w, first), second)
    decreases first
  {
    hide Take;
    if first == [] {
      assert first + second == second;
    } else {
      Concatenated(settings, Take(settings, w, first[0]), first[1..], second);
      assert (first + second)[1..] == first[1..] + second;
    }
  }

  /** Every sequence of invocations with a forward clock is a schedule of atomic steps: what holds over all
      interleavings holds of it. */
  lemma {:induction false} RunIsASchedule(settings: Settings, invocations: seq<Invocation>) returns (moves: seq<Move>)
    requires settings.aiEnabled && GatewayLaws.ForwardRun(invocations)
    requires forall i | 0 <= i < |settings.budget.rules| :: WellFormed(settings.budget.rules[i].span)
    ensures Legal(settings, EMPTY, moves) && Same(TakeAll(settings, EMPTY, moves), AfterAll(settings, invocations))
    ensures var after := TakeAll(settings, EMPTY, moves);
      && after.now <= GatewayLaws.Latest(invocations) && Orderly(settings, after, after.now)
      && forall id | id in after.jobs :: 0 <= id < |invocations|
  {
    hide Invoke, Orderly, Take, TakeAll, Legal, Alone;
    if invocations == [] {
      moves := [];
      EmptyIsOrderly(settings, 0);
      NoMoves(settings);
    } else {
      var front, last := invocations[..|invocations| - 1], invocations[|invocations| - 1];
      var before := RunIsASchedule(settings, front);
      var w := TakeAll(settings, EMPTY, before);
      var more := InvokeIsASchedule(settings, w, |front|, last.request, last.provider, last.clock);
      Concatenated(settings, EMPTY, before, more);
      moves := before + more;
      InvokeIgnoresCounters(settings, AfterAll(settings, front), Shared(w), last);
    }
  }

  lemma NoMoves(settings: Settings)
    ensures Legal(settings, EMPTY, []) && TakeAll(settings, EMPTY, []) == EMPTY && Same(EMPTY, IDLE)
  {
  }

  /** What an invocation does to the shared parts depends on the shared parts alone. */
  lemma InvokeIgnoresCounters(settings: Settings, a: State, b: State, invocation: Invocation)
    requires a.hits == b.hits && a.spend == b.spend && a.puts == b.puts && a.inFlight == b.inFlight
    ensures var x := Invoke(settings, a, invocation.request, invocation.provider, invocation.clock).0;
      var y := Invoke(settings, b, invocation.request, invocation.provider, invocation.clock).0;
      x.hits == y.hits && x.spend == y.spend && x.puts == y.puts && x.inFlight == y.inFlight
  {
    hide CoalescedInvoke, CheckRate, Lookup, HitsOf;
    var x := a.(stats := a.stats.(requests := a.stats.requests + 1));
    var y := b.(stats := b.stats.(requests := b.stats.requests + 1));
    CoalescedIgnoresCounters(settings, x, y, invocation.request, invocation.provider, invocation.clock);
  }
}
