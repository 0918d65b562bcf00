/** The limits under every interleaving: how far concurrency can push past them, and no further. Each is
    proved by showing that the steps of the gateway are steps of the windowed check-then-record protocol. */
module InterleavingLimits {
  import opened Wrappers
  import opened Rounding
  import opened AiTypes
  import opened Windows
  import opened Governance
  import opened RateLimiter
  import opened ResponseCache
  import Pricing
  import opened Routing
  import opened Gateway
  import opened Interleaving
  import GatewayLaws

  /** Clock readings are past readings. */
  ghost predicate StampsPast(w: World) {
    forall id | id in w.jobs && w.jobs[id].stamp.Some? :: w.jobs[id].stamp.value <= w.now
  }

  lemma MoveKeepsStamps(settings: Settings, w: World, move: Move)
    requires StampsPast(w) && InPhase(w, move)
    ensures StampsPast(Take(settings, w, move))
  {
    hide CheckLeft, GetFrom, CheckPruned, Route, Pricing.Project, Pricing.Estimate, Store, PutInto, Governance.Charge;
  }

  // ----- rate limits -----

  /** Past the rate check, hit not yet recorded. */
  predicate Between(phase: Phase) {
    phase.Admitted? || phase.Missed? || phase.Claimed? || phase.Cleared?
  }

  /** The clock reading that matters is the one the hit will be recorded with. */
  function HitHold(job: Job): Hold {
    Hold(1.0, if job.phase.Cleared? then job.stamp else None)
  }

  function RateHeld(jobs: map<int, Job>, key: RateKey): map<int, Hold> {
    map id | id in jobs && Between(jobs[id].phase) && KeyOf(jobs[id].request) == key :: HitHold(jobs[id])
  }

  function RatePool(w: World, key: RateKey): Pool {
    Pool(Ones(HitsOf(w.hits, key)), RateHeld(w.jobs, key), w.now)
  }

  function CrowdTerms(width: nat, limit: int, crowd: nat): Terms {
    Terms(Trailing(width), limit as real, crowd, 1.0)
  }

  lemma RateHeldAfter(jobs: map<int, Job>, id: int, job: Job, key: RateKey)
    requires id in jobs && job.request == jobs[id].request
    ensures var held, after := RateHeld(jobs, key), RateHeld(jobs[id := job], key);
      after == if KeyOf(job.request) != key then held
               else if Between(job.phase) then held[id := HitHold(job)] else held - {id}
    ensures id in RateHeld(jobs, key) <==> Between(jobs[id].phase) && KeyOf(jobs[id].request) == key
    ensures id in RateHeld(jobs, key) ==> RateHeld(jobs, key)[id] == HitHold(jobs[id])
  {
  }

  lemma AddedSize(held: map<int, Hold>, id: int, hold: Hold)
    requires id !in held
    ensures |held[id := hold]| == |held| + 1
  {
    assert held[id := hold].Keys == held.Keys + {id};
  }

  /** A step of one request that records no hit: it enters the crowd, reads its clock, stays, or leaves. */
  lemma CrowdChange(terms: Terms, w: World, after: World, id: int, key: RateKey)
    requires ValidTerms(terms) && terms.largest == 1.0 && Within(terms, RatePool(w, key))
    requires id in w.jobs && id in after.jobs && after.jobs == w.jobs[id := after.jobs[id]]
    requires after.jobs[id].request == w.jobs[id].request && after.hits == w.hits && after.now == w.now
    requires |RateHeld(after.jobs, key)| <= terms.capacity
    requires var was, becomes := w.jobs[id], after.jobs[id];
      Between(was.phase) && Between(becomes.phase) ==>
        HitHold(becomes) == HitHold(was) || (HitHold(was).stamp.None? && HitHold(becomes).stamp == Some(w.now))
    requires Between(after.jobs[id].phase) && !Between(w.jobs[id].phase) ==> after.jobs[id].stamp.None?
    requires Between(after.jobs[id].phase) && !Between(w.jobs[id].phase) && KeyOf(w.jobs[id].request) == key ==>
               Spend(terms.span, Ones(HitsOf(w.hits, key)), w.now) + 1.0 <= terms.limit
    ensures Within(terms, RatePool(after, key))
  {
    hide Within, Spend, RateHeld, Ones;
    var pool := RatePool(w, key);
    RateHeldAfter(w.jobs, id, after.jobs[id], key);
    if KeyOf(w.jobs[id].request) != key {
      assert RatePool(after, key) == pool;
    } else if Between(after.jobs[id].phase) {
      if !Between(w.jobs[id].phase) {
        AddedSize(pool.held, id, Hold(1.0, None));
        EventKeeps(terms, pool, Admit(id, 1.0));
        assert RatePool(after, key) == Apply(terms, pool, Admit(id, 1.0));
      } else if HitHold(after.jobs[id]) == HitHold(w.jobs[id]) {
        assert pool.held[id := pool.held[id]] == pool.held;
        assert RatePool(after, key) == pool;
      } else {
        EventKeeps(terms, pool, Windows.ReadClock(id));
        assert RatePool(after, key) == Apply(terms, pool, Windows.ReadClock(id));
      }
    } else if Between(w.jobs[id].phase) {
      EventKeeps(terms, pool, GiveUp(id));
    } else {
      assert pool.held - {id} == pool.held;
    }
  }

  lemma HitKeeps(terms: Terms, settings: Settings, w: World, id: int, key: RateKey)
    requires ValidTerms(terms) && terms.largest == 1.0 && Within(terms, RatePool(w, key))
    requires InPhase(w, RecordHit(id))
    ensures Within(terms, RatePool(Take(settings, w, RecordHit(id)), key))
  {
    hide Within, RateHeld;
    var after, pool := Take(settings, w, RecordHit(id)), RatePool(w, key);
    RateHeldAfter(w.jobs, id, after.jobs[id], key);
    if KeyOf(w.jobs[id].request) == key {
      EventKeeps(terms, pool, Record(id, 1.0));
      var log, stamp := HitsOf(w.hits, key), w.jobs[id].stamp.value;
      assert Ones(log + [stamp]) == Ones(log) + [Entry(stamp, 1.0)];
      assert RatePool(after, key) == Apply(terms, pool, Record(id, 1.0));
    } else {
      assert RatePool(after, key) == pool;
    }
  }

  /** What a key's deque has popped is more than an hour old. */
  ghost predicate HitsGone(log: seq<int>, popped: nat, now: int) {
    popped <= |log| && forall i | 0 <= i < popped :: log[i] < now - HOUR
  }

  /** A deque that has lost only old hits, counted from a cutoff no later than the window's own, counts at
      least what the window holds. */
  lemma {:induction false} SpendOfLeft(log: seq<int>, cut: nat, width: nat, cutoff: int, now: int)
    requires cut <= |log| && cutoff <= now - width && forall i | 0 <= i < cut :: log[i] < now - width
    ensures Spend(Trailing(width), Ones(log), now) <= |Since(log[cut..], cutoff)| as real
  {
    if log != [] {
      var front, last := log[..|log| - 1], log[|log| - 1];
      assert Ones(log) == Ones(front) + [Entry(last, 1.0)];
      SpendSnoc(Trailing(width), Ones(front), Entry(last, 1.0), now);
      if cut == |log| {
        SpendOfLeft(front, |front|, width, cutoff, now);
        assert front[|front|..] == [] && log[cut..] == [];
      } else {
        SpendOfLeft(front, cut, width, cutoff, now);
        assert log[cut..] == front[cut..] + [last];
        SinceSnoc(front[cut..], last, cutoff);
      }
    }
  }

  lemma {:induction false} SinceShorter(log: seq<int>, cutoff: int)
    ensures |Since(log, cutoff)| <= |log|
  {
    if log != [] {
      SinceShorter(log[..|log| - 1], cutoff);
    }
  }

  /** An admission made with an old reading is no laxer than one made now. */
  lemma AdmittedHasRoom(limits: RateLimits, log: seq<int>, popped: nat, stamp: int, now: int)
    requires HitsGone(log, popped, now) && stamp <= now
    ensures var (verdict, after) := CheckLeft(limits, log, popped, stamp);
      && HitsGone(log, after, now)
      && (verdict.allowed ==>
            && (limits.perHour > 0 ==> Spend(Trailing(HOUR), Ones(log), now) + 1.0 <= limits.perHour as real)
            && (limits.perMinute > 0 ==> Spend(Trailing(MINUTE), Ones(log), now) + 1.0 <= limits.perMinute as real))
  {
    hide Since, Spend;
    if limits.perMinute > 0 || limits.perHour > 0 {
      PoppedHitsShape(log, popped, stamp - HOUR);
      var after := PoppedHits(log, popped, stamp - HOUR);
      SpendOfLeft(log, after, HOUR, stamp - HOUR, now);
      SinceShorter(log[after..], stamp - HOUR);
      SpendOfLeft(log, after, MINUTE, stamp - MINUTE, now);
    }
  }

  /** Both rate windows of one key, at a crowd of at most `crowd` requests between check and record. */
  ghost predicate RateWithin(settings: Settings, w: World, key: RateKey, crowd: nat) {
    && StampsPast(w) && HitsGone(HitsOf(w.hits, key), PoppedOf(w, key), w.now)
    && (settings.limits.perHour > 0 ==> Within(CrowdTerms(HOUR, settings.limits.perHour, crowd), RatePool(w, key)))
    && (settings.limits.perMinute > 0 ==>
         Within(CrowdTerms(MINUTE, settings.limits.perMinute, crowd), RatePool(w, key)))
  }

  lemma TimeKeepsRates(settings: Settings, w: World, now: int, key: RateKey, crowd: nat)
    requires crowd >= 1 && now >= w.now && RateWithin(settings, w, key, crowd)
    ensures RateWithin(settings, w.(now := now), key, crowd)
  {
    hide Within;
    if settings.limits.perHour > 0 {
      EventKeeps(CrowdTerms(HOUR, settings.limits.perHour, crowd), RatePool(w, key), Tick(now));
    }
    if settings.limits.perMinute > 0 {
      EventKeeps(CrowdTerms(MINUTE, settings.limits.perMinute, crowd), RatePool(w, key), Tick(now));
    }
  }

  /** What a step of one request that records no hit does to a key's crowd. */
  lemma StepShape(settings: Settings, w: World, move: Move, key: RateKey)
    requires InPhase(w, move) && !move.Pass? && !move.Arrive? && !move.RecordHit?
    ensures var after, id := Take(settings, w, move), move.id;
      && id in w.jobs && id in after.jobs && after.jobs == w.jobs[id := after.jobs[id]]
      && after.jobs[id].request == w.jobs[id].request && after.hits == w.hits && after.now == w.now
      && (!move.CheckLimits? ==> after.poppedHits == w.poppedHits)
      && (move.CheckLimits? ==>
            var (verdict, popped) := CheckLeft(settings.limits, HitsOf(w.hits, KeyOf(w.jobs[id].request)),
                                               PoppedOf(w, KeyOf(w.jobs[id].request)), w.jobs[id].stamp.value);
            && (Between(after.jobs[id].phase) <==> verdict.allowed)
            && after.poppedHits == w.poppedHits[KeyOf(w.jobs[id].request) := popped])
      && (Between(w.jobs[id].phase) && Between(after.jobs[id].phase) ==>
            HitHold(after.jobs[id]) == HitHold(w.jobs[id])
            || (HitHold(w.jobs[id]).stamp.None? && HitHold(after.jobs[id]).stamp == Some(w.now)))
      && (Between(after.jobs[id].phase) && !Between(w.jobs[id].phase) ==>
           move.CheckLimits? && after.jobs[id].stamp.None?)
  {
    hide CheckLeft, GetFrom, CheckPruned, Route, Pricing.Project, Pricing.Estimate, Store, PutInto, Governance.Charge;
  }

  lemma StepKeepsRates(settings: Settings, w: World, move: Move, key: RateKey, crowd: nat)
    requires crowd >= 1 && RateWithin(settings, w, key, crowd) && InPhase(w, move)
    requires !move.Pass? && !move.Arrive? && !move.RecordHit?
    requires |RateHeld(Take(settings, w, move).jobs, key)| <= crowd
    ensures RateWithin(settings, Take(settings, w, move), key, crowd)
  {
    MoveKeepsStamps(settings, w, move);
    StepShape(settings, w, move, key);
    hide Take, Within, Spend, RateHeld, CheckLeft, StampsPast, HitsGone;
    var after, id := Take(settings, w, move), move.id;
    if move.CheckLimits? && KeyOf(w.jobs[id].request) == key {
      StampIsPast(w, id);
      AdmittedHasRoom(settings.limits, HitsOf(w.hits, key), PoppedOf(w, key), w.jobs[id].stamp.value, w.now);
    }
    if settings.limits.perHour > 0 {
      CrowdChange(CrowdTerms(HOUR, settings.limits.perHour, crowd), w, after, id, key);
    }
    if settings.limits.perMinute > 0 {
      CrowdChange(CrowdTerms(MINUTE, settings.limits.perMinute, crowd), w, after, id, key);
    }
  }

  lemma StampIsPast(w: World, id: int)
    requires StampsPast(w) && id in w.jobs && w.jobs[id].stamp.Some?
    ensures w.jobs[id].stamp.value <= w.now
  {
  }

  lemma HitKeepsRates(settings: Settings, w: World, id: int, key: RateKey, crowd: nat)
    requires crowd >= 1 && RateWithin(settings, w, key, crowd) && InPhase(w, RecordHit(id))
    ensures RateWithin(settings, Take(settings, w, RecordHit(id)), key, crowd)
  {
    hide Within;
    MoveKeepsStamps(settings, w, RecordHit(id));
    if settings.limits.perHour > 0 {
      HitKeeps(CrowdTerms(HOUR, settings.limits.perHour, crowd), settings, w, id, key);
    }
    if settings.limits.perMinute > 0 {
      HitKeeps(CrowdTerms(MINUTE, settings.limits.perMinute, crowd), settings, w, id, key);
    }
  }

  lemma ArrivalKeepsRates(settings: Settings, w: World, id: int, request: Request, key: RateKey, crowd: nat)
    requires RateWithin(settings, w, key, crowd) && id !in w.jobs
    ensures RateWithin(settings, Take(settings, w, Arrive(id, request)), key, crowd)
  {
    hide Within;
    assert RateHeld(w.jobs[id := Job(request, Arrived, None)], key) == RateHeld(w.jobs, key);
  }

  lemma MoveKeepsRates(settings: Settings, w: World, move: Move, key: RateKey, crowd: nat)
    requires crowd >= 1 && RateWithin(settings, w, key, crowd) && InPhase(w, move)
    requires |RateHeld(Take(settings, w, move).jobs, key)| <= crowd
    ensures RateWithin(settings, Take(settings, w, move), key, crowd)
  {
    match move
    case Pass(now) => TimeKeepsRates(settings, w, now, key, crowd);
    case Arrive(id, request) => ArrivalKeepsRates(settings, w, id, request, key, crowd);
    case RecordHit(id) => HitKeepsRates(settings, w, id, key, crowd);
    case _ => StepKeepsRates(settings, w, move, key, crowd);
  }

  // ----- budgets -----

  /** What a request has had approved and not yet been charged. */
  function Approved(phase: Phase): Cost {
    match phase
    case Cleared(_, projected) => projected
    case Calling(_, projected, _) => projected
    case Answered(projected, _) => projected
    case _ => None
  }

  function ApprovalHold(job: Job): Hold
    requires Approved(job.phase).Some?
  {
    Hold(Approved(job.phase).value, if job.phase.Answered? then job.stamp else None)
  }

  function BudgetHeld(jobs: map<int, Job>): map<int, Hold> {
    map id | id in jobs && Approved(jobs[id].phase).Some? :: ApprovalHold(jobs[id])
  }

  function BudgetPool(w: World): Pool {
    Pool(w.spend, BudgetHeld(w.jobs), w.now)
  }

  function SpendTerms(rule: WindowRule, crowd: nat, largest: real): Terms {
    Terms(rule.span, rule.limit, crowd, largest)
  }

  lemma BudgetHeldAfter(jobs: map<int, Job>, id: int, job: Job)
    requires id in jobs
    ensures BudgetHeld(jobs[id := job]) ==
            if Approved(job.phase).Some? then BudgetHeld(jobs)[id := ApprovalHold(job)] else BudgetHeld(jobs) - {id}
    ensures id in BudgetHeld(jobs) <==> Approved(jobs[id].phase).Some?
    ensures Approved(jobs[id].phase).Some? ==> BudgetHeld(jobs)[id] == ApprovalHold(jobs[id])
  {
  }

  /** What a phase remembers is what was decided: approvals are projections of the routed model, and an
      answer is covered by the projection it was approved under. */
  ghost predicate Remembers(settings: Settings, job: Job) {
    match job.phase
    case Cleared(decision, projected) =>
      projected == Pricing.Project(
        settings.rates, decision.model, job.request.ContextSize(), job.request.policy.maxOutputTokens)
    case Calling(decision, projected, _) =>
      projected == Pricing.Project(
        settings.rates, decision.model, job.request.ContextSize(), job.request.policy.maxOutputTokens)
    case Answered(projected, response) =>
      var actual := Pricing.Estimate(settings.rates, response.model, response.usage);
      (projected.Some? <==> actual.Some?) && (actual.Some? ==> 0.0 <= actual.value <= projected.value)
    case _ => true
  }

  /** The provider answers as the model it was asked for and reports usage the projection covers. */
  ghost predicate HonestReply(w: World, move: Move)
    requires InPhase(w, move)
  {
    move.Reply? && move.outcome.Answers? ==>
      var job, response := w.jobs[move.id], move.outcome.response;
      && response.model == job.phase.decision.model
      && Pricing.CoveredBy(response.usage, job.request.ContextSize(), job.request.policy.maxOutputTokens)
  }

  lemma MoveRemembers(settings: Settings, w: World, move: Move)
    requires Pricing.NonNegativeRates(settings.rates)
    requires InPhase(w, move) && HonestReply(w, move)
    requires forall id | id in w.jobs :: Remembers(settings, w.jobs[id])
    ensures forall id | id in Take(settings, w, move).jobs :: Remembers(settings, Take(settings, w, move).jobs[id])
  {
    if !move.Pass? {
      hide Take, Remembers, HonestReply;
      JobRemembers(settings, w, move);
    }
  }

  lemma JobRemembers(settings: Settings, w: World, move: Move)
    requires Pricing.NonNegativeRates(settings.rates) && !move.Pass?
    requires InPhase(w, move) && HonestReply(w, move)
    requires move.id in w.jobs ==> Remembers(settings, w.jobs[move.id])
    ensures var after := Take(settings, w, move);
      && move.id in after.jobs && after.jobs == w.jobs[move.id := after.jobs[move.id]]
      && Remembers(settings, after.jobs[move.id])
  {
    hide Pricing.Project, Pricing.Estimate, Pricing.CoveredBy, Route, CheckLeft, CheckPruned, GetFrom, Store, PutInto,
      Governance.Charge;
    if move.Reply? {
      AnswersRemember(settings, w, move);
    }
  }

  lemma AnswersRemember(settings: Settings, w: World, move: Move)
    requires Pricing.NonNegativeRates(settings.rates) && move.Reply?
    requires InPhase(w, move) && HonestReply(w, move) && Remembers(settings, w.jobs[move.id])
    ensures Remembers(settings, Take(settings, w, move).jobs[move.id])
  {
    hide Pricing.Project, Pricing.Estimate, Pricing.CoveredBy;
    if move.outcome.Answers? {
      var job := w.jobs[move.id];
      Pricing.ProjectionCovers(settings.rates, job.phase.decision.model, move.outcome.response.usage,
                               job.request.ContextSize(), job.request.policy.maxOutputTokens);
    }
  }

  /** A step of one request that charges nothing: an approval is added, stamped, kept or dropped. */
  lemma ApprovalChange(terms: Terms, w: World, after: World, id: int)
    requires ValidTerms(terms) && Within(terms, BudgetPool(w))
    requires id in w.jobs && id in after.jobs && after.jobs == w.jobs[id := after.jobs[id]]
    requires after.spend == w.spend && after.now == w.now
    requires |BudgetHeld(after.jobs)| <= terms.capacity
    requires var was, becomes := w.jobs[id], after.jobs[id];
      Approved(was.phase).Some? && Approved(becomes.phase).Some? ==>
        || ApprovalHold(becomes) == ApprovalHold(was)
        || (ApprovalHold(was).stamp.None? && ApprovalHold(becomes) == ApprovalHold(was).(stamp := Some(w.now)))
    requires var cost := Approved(after.jobs[id].phase);
      Approved(w.jobs[id].phase).None? && cost.Some? ==>
        && 0.0 <= cost.value <= terms.largest && ApprovalHold(after.jobs[id]).stamp.None?
        && Spend(terms.span, w.spend, w.now) + cost.value <= terms.limit
    ensures Within(terms, BudgetPool(after))
  {
    hide Within, Spend, BudgetHeld, WellFormed;
    var pool := BudgetPool(w);
    BudgetHeldAfter(w.jobs, id, after.jobs[id]);
    var was, becomes := Approved(w.jobs[id].phase), Approved(after.jobs[id].phase);
    if was.None? && becomes.Some? {
      AddedSize(pool.held, id, ApprovalHold(after.jobs[id]));
      EventKeeps(terms, pool, Admit(id, becomes.value));
      assert BudgetPool(after) == Apply(terms, pool, Admit(id, becomes.value));
    } else if was.Some? && becomes.None? {
      EventKeeps(terms, pool, GiveUp(id));
    } else if was.Some? {
      if ApprovalHold(after.jobs[id]) == ApprovalHold(w.jobs[id]) {
        assert pool.held[id := pool.held[id]] == pool.held;
      } else {
        EventKeeps(terms, pool, Windows.ReadClock(id));
        assert BudgetPool(after) == Apply(terms, pool, Windows.ReadClock(id));
      }
    } else {
      assert pool.held - {id} == pool.held;
    }
  }

  lemma ChargeKeeps(terms: Terms, settings: Settings, w: World, id: int)
    requires ValidTerms(terms) && Within(terms, BudgetPool(w))
    requires InPhase(w, ChargeCost(id)) && Remembers(settings, w.jobs[id])
    ensures Within(terms, BudgetPool(Take(settings, w, ChargeCost(id))))
  {
    hide Within, BudgetHeld, Pricing.Estimate, WellFormed;
    var after, pool, phase := Take(settings, w, ChargeCost(id)), BudgetPool(w), w.jobs[id].phase;
    BudgetHeldAfter(w.jobs, id, after.jobs[id]);
    var actual := Pricing.Estimate(settings.rates, phase.response.model, phase.response.usage);
    if actual.Some? {
      EventKeeps(terms, pool, Record(id, actual.value));
      assert BudgetPool(after) == Apply(terms, pool, Record(id, actual.value));
    } else {
      assert pool.held - {id} == pool.held;
      assert BudgetPool(after) == pool;
    }
  }

  /** What window i has popped is outside the window that contains this moment. */
  ghost predicate WindowGone(settings: Settings, w: World, i: int)
    requires 0 <= i < |settings.budget.rules|
  {
    Gone(settings.budget.rules[i].span, w.spend, Counts(settings, w)[i], w.now)
  }

  /** The step pops nothing that window i still counts at the moment the step is taken. */
  ghost predicate DropsOnlyPast(settings: Settings, w: World, move: Move, i: int)
    requires InPhase(w, move) && 0 <= i < |settings.budget.rules|
  {
    move.Clear? ==>
      Gone(settings.budget.rules[i].span, w.spend,
           Clearance(settings, w, w.jobs[move.id].request, w.jobs[move.id].stamp.value).1[i], w.now)
  }

  lemma ClearanceShape(settings: Settings, w: World, request: Request, stamp: int, i: int)
    requires 0 <= i < |settings.budget.rules|
    ensures var (phase, popped) := Clearance(settings, w, request, stamp);
      var before, cost := Counts(settings, w)[i], Approved(phase);
      && |popped| == |settings.budget.rules| && (phase.Releasing? || phase.Cleared?)
      && (popped[i] == before || popped[i] == Popped(settings.budget.rules[i].span, w.spend, before, stamp))
      && (cost.Some? ==> Total(Kept(w.spend, popped[i])) + cost.value <= settings.budget.rules[i].limit)
      && (Pricing.NonNegativeRates(settings.rates) && cost.Some? ==> cost.value >= 0.0)
  {
    hide Pricing.Project, Pricing.Estimate, Route, CheckPruned, Popped, Kept, Total;
    var routed := Route(settings.registry, request, false);
    if routed.Some? {
      var model := routed.value.model;
      var projected := Pricing.Project(settings.rates, model, request.ContextSize(), request.policy.maxOutputTokens);
      CheckPrunedShape(settings.budget, w.spend, Counts(settings, w), projected, stamp, i);
      if Pricing.NonNegativeRates(settings.rates) {
        ProjectionNonNegative(settings.rates, model, request.ContextSize(), request.policy.maxOutputTokens);
      }
    }
  }

  lemma ProjectionNonNegative(rates: Pricing.Rates, model: string, inputChars: nat, maxOutputTokens: int)
    requires Pricing.NonNegativeRates(rates) && maxOutputTokens >= 0
    ensures var projected := Pricing.Project(rates, model, inputChars, maxOutputTokens);
      projected.Some? ==> projected.value >= 0.0
  {
    hide Times, Round6;
    var usage := Usage(Some(Pricing.ProjectedInput(inputChars)), Some(maxOutputTokens), None, None);
    Pricing.ProjectionCovers(rates, model, usage, inputChars, maxOutputTokens);
  }

  /** A trailing window never loses what it counts, however old the readings. */
  lemma TrailingDropsOnlyPast(settings: Settings, w: World, move: Move, i: int)
    requires 0 <= i < |settings.budget.rules| && settings.budget.rules[i].span.Trailing?
    requires StampsPast(w) && WindowGone(settings, w, i) && InPhase(w, move)
    ensures DropsOnlyPast(settings, w, move, i)
  {
    if move.Clear? {
      hide Clearance, Popped;
      var stamp := w.jobs[move.id].stamp.value;
      ClearanceShape(settings, w, w.jobs[move.id].request, stamp, i);
      TrailingPopsOnlyPast(settings.budget.rules[i].span, w.spend, Counts(settings, w)[i], stamp, w.now);
    }
  }

  /** A monthly window loses nothing to a check whose reading is of the month it is used in. */
  lemma SameMonthDropsOnlyPast(settings: Settings, w: World, move: Move, i: int)
    requires 0 <= i < |settings.budget.rules| && settings.budget.rules[i].span.CalendarMonth?
    requires WindowGone(settings, w, i) && InPhase(w, move)
    requires var monthOf := settings.budget.rules[i].span.monthOf;
      move.Clear? ==> monthOf(w.jobs[move.id].stamp.value) == monthOf(w.now)
    ensures DropsOnlyPast(settings, w, move, i)
  {
    if move.Clear? {
      hide Clearance, Popped;
      var stamp := w.jobs[move.id].stamp.value;
      ClearanceShape(settings, w, w.jobs[move.id].request, stamp, i);
      SameMonthPopsOnlyPast(settings.budget.rules[i].span, w.spend, Counts(settings, w)[i], stamp, w.now);
    }
  }

  /** No approval outstanding is larger than `largest`, and at most `crowd` are outstanding. */
  ghost predicate ModestApprovals(jobs: map<int, Job>, crowd: nat, largest: real) {
    |BudgetHeld(jobs)| <= crowd && forall id | id in BudgetHeld(jobs) :: BudgetHeld(jobs)[id].amount <= largest
  }

  /** What a step of one request that charges nothing does to its approval. */
  lemma ApprovalShape(settings: Settings, w: World, move: Move)
    requires InPhase(w, move) && !move.Pass? && !move.Arrive? && !move.ChargeCost?
    ensures var after, id := Take(settings, w, move), move.id;
      && id in w.jobs && id in after.jobs && after.jobs == w.jobs[id := after.jobs[id]]
      && after.spend == w.spend && after.now == w.now
      && (move.Clear? ==>
            var (phase, popped) := Clearance(settings, w, w.jobs[id].request, w.jobs[id].stamp.value);
            after.jobs[id].phase == phase && after.jobs[id].stamp.None? && after.popped == popped)
      && (!move.Clear? ==> after.popped == w.popped)
      && (Approved(w.jobs[id].phase).None? && Approved(after.jobs[id].phase).Some? ==> move.Clear?)
      && (Approved(w.jobs[id].phase).Some? && Approved(after.jobs[id].phase).Some? ==>
            var was, becomes := ApprovalHold(w.jobs[id]), ApprovalHold(after.jobs[id]);
            becomes == was || (was.stamp.None? && becomes == was.(stamp := Some(w.now))))
  {
    hide CheckLeft, GetFrom, Pricing.Estimate, Store, PutInto, Clearance;
  }

  lemma StepKeepsBudget(settings: Settings, w: World, move: Move, i: int, crowd: nat, largest: real)
    requires GatewayLaws.SoundBudget(settings.budget) && Pricing.NonNegativeRates(settings.rates)
    requires crowd >= 1 && largest >= 0.0 && 0 <= i < |settings.budget.rules| && InPhase(w, move)
    requires !move.Pass? && !move.Arrive? && !move.ChargeCost?
    requires WindowGone(settings, w, i) && DropsOnlyPast(settings, w, move, i)
    requires Within(SpendTerms(settings.budget.rules[i], crowd, largest), BudgetPool(w))
    requires ModestApprovals(Take(settings, w, move).jobs, crowd, largest)
    ensures Within(SpendTerms(settings.budget.rules[i], crowd, largest), BudgetPool(Take(settings, w, move)))
    ensures WindowGone(settings, Take(settings, w, move), i)
  {
    var after, id := Take(settings, w, move), move.id;
    var rule := settings.budget.rules[i];
    ApprovalShape(settings, w, move);
    if move.Clear? {
      ClearanceShape(settings, w, w.jobs[id].request, w.jobs[id].stamp.value, i);
      assert Counts(settings, after)[i] == after.popped[i];
      if Approved(after.jobs[id].phase).Some? {
        CountedIsKept(rule, w.spend, after.popped[i], w.now, BudgetPool(w), crowd, largest);
        ApprovalIsHeld(after.jobs, id);
      }
    } else {
      assert Counts(settings, after) == Counts(settings, w);
    }
    hide Within, Spend, BudgetHeld, Take, Clearance, Gone;
    ApprovalChange(SpendTerms(rule, crowd, largest), w, after, id);
  }

  lemma CountedIsKept(rule: WindowRule, spend: seq<Entry>, popped: nat, now: int, pool: Pool, crowd: nat, largest: real)
    requires Within(SpendTerms(rule, crowd, largest), pool) && pool.log == spend && Gone(rule.span, spend, popped, now)
    ensures Spend(rule.span, spend, now) <= Total(Kept(spend, popped))
  {
    SpendOfKept(rule.span, spend, popped, now);
  }

  lemma ApprovalIsHeld(jobs: map<int, Job>, id: int)
    requires id in jobs && Approved(jobs[id].phase).Some?
    ensures id in BudgetHeld(jobs) && BudgetHeld(jobs)[id].amount == Approved(jobs[id].phase).value
  {
  }

  /** One window, with what it takes to keep it within its ceiling step by step. */
  ghost predicate BudgetWithin(settings: Settings, w: World, i: int, crowd: nat, largest: real)
    requires 0 <= i < |settings.budget.rules|
  {
    && Within(SpendTerms(settings.budget.rules[i], crowd, largest), BudgetPool(w))
    && WindowGone(settings, w, i) && StampsPast(w)
    && forall id | id in w.jobs :: Remembers(settings, w.jobs[id])
  }

  lemma MoveKeepsBudget(settings: Settings, w: World, move: Move, i: int, crowd: nat, largest: real)
    requires GatewayLaws.SoundBudget(settings.budget) && Pricing.NonNegativeRates(settings.rates)
    requires crowd >= 1 && largest >= 0.0 && 0 <= i < |settings.budget.rules| && InPhase(w, move)
    requires BudgetWithin(settings, w, i, crowd, largest) && HonestReply(w, move)
    requires DropsOnlyPast(settings, w, move, i) && ModestApprovals(Take(settings, w, move).jobs, crowd, largest)
    ensures BudgetWithin(settings, Take(settings, w, move), i, crowd, largest)
  {
    MoveRemembers(settings, w, move);
    MoveKeepsStamps(settings, w, move);
    hide Within, WindowGone, Remembers, StampsPast, DropsOnlyPast, ModestApprovals, HonestReply, Take;
    match move
    case Pass(_) => PassKeepsBudget(settings, w, move, i, crowd, largest);
    case Arrive(_, _) => ArrivalKeepsBudget(settings, w, move, i, crowd, largest);
    case ChargeCost(id) =>
      ChargeKeeps(SpendTerms(settings.budget.rules[i], crowd, largest), settings, w, id);
      ChargeKeepsGone(settings, w, id, i);
    case _ => StepKeepsBudget(settings, w, move, i, crowd, largest);
  }

  lemma PassKeepsBudget(settings: Settings, w: World, move: Move, i: int, crowd: nat, largest: real)
    requires GatewayLaws.SoundBudget(settings.budget) && crowd >= 1 && largest >= 0.0
    requires 0 <= i < |settings.budget.rules| && move.Pass? && InPhase(w, move)
    requires Within(SpendTerms(settings.budget.rules[i], crowd, largest), BudgetPool(w)) && WindowGone(settings, w, i)
    ensures Within(SpendTerms(settings.budget.rules[i], crowd, largest), BudgetPool(Take(settings, w, move)))
    ensures WindowGone(settings, Take(settings, w, move), i)
  {
    var terms := SpendTerms(settings.budget.rules[i], crowd, largest);
    assert Counts(settings, w.(now := move.now)) == Counts(settings, w);
    GoneLater(settings.budget.rules[i].span, w.spend, Counts(settings, w)[i], w.now, move.now);
    EventKeeps(terms, BudgetPool(w), Tick(move.now));
  }

  lemma ArrivalKeepsBudget(settings: Settings, w: World, move: Move, i: int, crowd: nat, largest: real)
    requires 0 <= i < |settings.budget.rules| && move.Arrive? && InPhase(w, move)
    requires Within(SpendTerms(settings.budget.rules[i], crowd, largest), BudgetPool(w)) && WindowGone(settings, w, i)
    ensures Within(SpendTerms(settings.budget.rules[i], crowd, largest), BudgetPool(Take(settings, w, move)))
    ensures WindowGone(settings, Take(settings, w, move), i)
  {
    hide Within;
    assert BudgetHeld(w.jobs[move.id := Job(move.request, Arrived, None)]) == BudgetHeld(w.jobs);
    assert Counts(settings, Take(settings, w, move)) == Counts(settings, w);
  }

  lemma ChargeKeepsGone(settings: Settings, w: World, id: int, i: int)
    requires InPhase(w, ChargeCost(id)) && 0 <= i < |settings.budget.rules| && WindowGone(settings, w, i)
    ensures WindowGone(settings, Take(settings, w, ChargeCost(id)), i)
  {
    hide Pricing.Estimate;
    assert Counts(settings, Take(settings, w, ChargeCost(id))) == Counts(settings, w);
  }

  // ----- whole runs -----

  /** A run in which at most `crowd` requests of the key sit between check and record at once. */
  ghost predicate CrowdedRun(settings: Settings, w: World, moves: seq<Move>, key: RateKey, crowd: nat)
    decreases moves
  {
    moves == [] ||
    (&& InPhase(w, moves[0])
     && |RateHeld(Take(settings, w, moves[0]).jobs, key)| <= crowd
     && CrowdedRun(settings, Take(settings, w, moves[0]), moves[1..], key, crowd))
  }

  /** A run with an honest provider in which at most `crowd` approvals, none above `largest`, are outstanding. */
  ghost predicate ApprovedRun(settings: Settings, w: World, moves: seq<Move>, crowd: nat, largest: real)
    decreases moves
  {
    moves == [] ||
    (&& InPhase(w, moves[0]) && HonestReply(w, moves[0])
     && ModestApprovals(Take(settings, w, moves[0]).jobs, crowd, largest)
     && ApprovedRun(settings, Take(settings, w, moves[0]), moves[1..], crowd, largest))
  }

  /** A run in which no budget check pops from window i what the window still counts at that moment. In a
      month it is enough that every check takes its lock in the month it read its clock in. */
  ghost predicate DropsOnlyPastRun(settings: Settings, w: World, moves: seq<Move>, i: int)
    requires 0 <= i < |settings.budget.rules|
    decreases moves
  {
    moves == [] ||
    (&& InPhase(w, moves[0]) && DropsOnlyPast(settings, w, moves[0], i)
     && DropsOnlyPastRun(settings, Take(settings, w, moves[0]), moves[1..], i))
  }

  lemma {:induction false} RunKeepsRates(settings: Settings, w: World, moves: seq<Move>, key: RateKey, crowd: nat)
    requires crowd >= 1 && RateWithin(settings, w, key, crowd) && CrowdedRun(settings, w, moves, key, crowd)
    ensures RateWithin(settings, TakeAll(settings, w, moves), key, crowd)
    decreases moves
  {
    hide RateWithin, Take, RateHeld;
    if moves != [] {
      MoveKeepsRates(settings, w, moves[0], key, crowd);
      RunKeepsRates(settings, Take(settings, w, moves[0]), moves[1..], key, crowd);
    }
  }

  lemma {:induction false} RunKeepsBudget(
    settings: Settings, w: World, moves: seq<Move>, i: int, crowd: nat, largest: real)
    requires GatewayLaws.SoundBudget(settings.budget) && Pricing.NonNegativeRates(settings.rates)
    requires crowd >= 1 && largest >= 0.0 && 0 <= i < |settings.budget.rules|
    requires BudgetWithin(settings, w, i, crowd, largest) && ApprovedRun(settings, w, moves, crowd, largest)
    requires settings.budget.rules[i].span.Trailing? || DropsOnlyPastRun(settings, w, moves, i)
    ensures BudgetWithin(settings, TakeAll(settings, w, moves), i, crowd, largest)
    decreases moves
  {
    hide Within, Remembers, Take, ModestApprovals, HonestReply, DropsOnlyPast, WindowGone, StampsPast;
    if moves != [] {
      if settings.budget.rules[i].span.Trailing? {
        TrailingDropsOnlyPast(settings, w, moves[0], i);
      }
      MoveKeepsBudget(settings, w, moves[0], i, crowd, largest);
      RunKeepsBudget(settings, Take(settings, w, moves[0]), moves[1..], i, crowd, largest);
    }
  }

  /** Rate limits over every interleaving, with clock readings as old as one likes: with at most `crowd`
      requests of a key between check and record, no closed minute or hour, past or to come, holds more than
      limit + crowd - 1 of its hits. One request at a time meets the limit exactly. */
  lemma RatesUnderConcurrency(settings: Settings, moves: seq<Move>, key: RateKey, crowd: nat, end: int)
    requires crowd >= 1 && CrowdedRun(settings, EMPTY, moves, key, crowd)
    ensures var hits := Ones(HitsOf(TakeAll(settings, EMPTY, moves).hits, key));
      && (settings.limits.perHour > 0 ==>
           Spend(Trailing(HOUR), hits, end) <= (settings.limits.perHour + crowd - 1) as real)
      && (settings.limits.perMinute > 0 ==>
           Spend(Trailing(MINUTE), hits, end) <= (settings.limits.perMinute + crowd - 1) as real)
  {
    hide TakeAll, Take, Spend, CrowdedRun, RateHeld, Within;
    EmptyRatesWithin(settings, key, crowd);
    RunKeepsRates(settings, EMPTY, moves, key, crowd);
    assert Times((crowd - 1) as real, 1.0) == (crowd - 1) as real;
    var pool := RatePool(TakeAll(settings, EMPTY, moves), key);
    if settings.limits.perHour > 0 { WithinMeans(CrowdTerms(HOUR, settings.limits.perHour, crowd), pool); }
    if settings.limits.perMinute > 0 { WithinMeans(CrowdTerms(MINUTE, settings.limits.perMinute, crowd), pool); }
  }

  lemma EmptyRatesWithin(settings: Settings, key: RateKey, crowd: nat)
    requires crowd >= 1
    ensures RateWithin(settings, EMPTY, key, crowd)
  {
    hide Within;
    assert Ones([]) == [] && RateHeld(map[], key) == map[];
    if settings.limits.perHour > 0 {
      InitialPoolWithin(CrowdTerms(HOUR, settings.limits.perHour, crowd), 0);
    }
    if settings.limits.perMinute > 0 {
      InitialPoolWithin(CrowdTerms(MINUTE, settings.limits.perMinute, crowd), 0);
    }
  }

  /** Budgets over every interleaving, with clock readings as old as one likes: with at most `crowd` approvals
      of at most `largest` outstanding, no trailing hour or day holds more than limit + (crowd - 1) * largest;
      and neither does a calendar month, so long as no check pops what the month still counts. */
  lemma BudgetsUnderConcurrency(settings: Settings, moves: seq<Move>, i: int, crowd: nat, largest: real, end: int)
    requires GatewayLaws.SoundBudget(settings.budget) && Pricing.NonNegativeRates(settings.rates)
    requires crowd >= 1 && largest >= 0.0 && 0 <= i < |settings.budget.rules|
    requires ApprovedRun(settings, EMPTY, moves, crowd, largest)
    requires settings.budget.rules[i].span.CalendarMonth? ==> DropsOnlyPastRun(settings, EMPTY, moves, i)
    ensures var rule := settings.budget.rules[i];
      Spend(rule.span, TakeAll(settings, EMPTY, moves).spend, end) <= rule.limit + Times((crowd - 1) as real, largest)
  {
    hide TakeAll, Take, Spend, ApprovedRun, DropsOnlyPastRun, Within;
    var terms := SpendTerms(settings.budget.rules[i], crowd, largest);
    assert BudgetHeld(map[]) == map[];
    InitialPoolWithin(terms, 0);
    RunKeepsBudget(settings, EMPTY, moves, i, crowd, largest);
    WithinMeans(terms, BudgetPool(TakeAll(settings, EMPTY, moves)));
  }

  // ----- the condition on a month that a caller can check -----

  /** A budget check takes its lock in the month it read its clock in. */
  ghost predicate Prompt(settings: Settings, w: World, move: Move, i: int)
    requires InPhase(w, move) && 0 <= i < |settings.budget.rules| && settings.budget.rules[i].span.CalendarMonth?
  {
    var monthOf := settings.budget.rules[i].span.monthOf;
    move.Clear? ==> monthOf(w.jobs[move.id].stamp.value) == monthOf(w.now)
  }

  ghost predicate PromptRun(settings: Settings, w: World, moves: seq<Move>, i: int)
    requires 0 <= i < |settings.budget.rules| && settings.budget.rules[i].span.CalendarMonth?
    decreases moves
  {
    moves == [] ||
    (&& InPhase(w, moves[0]) && Prompt(settings, w, moves[0], i)
     && PromptRun(settings, Take(settings, w, moves[0]), moves[1..], i))
  }

  lemma MoveKeepsGone(settings: Settings, w: World, move: Move, i: int)
    requires 0 <= i < |settings.budget.rules| && WellFormed(settings.budget.rules[i].span)
    requires StampsPast(w) && NotLater(w.spend, w.now) && WindowGone(settings, w, i)
    requires InPhase(w, move) && DropsOnlyPast(settings, w, move, i)
    ensures WindowGone(settings, Take(settings, w, move), i)
    ensures NotLater(Take(settings, w, move).spend, Take(settings, w, move).now)
  {
    hide CheckLeft, GetFrom, Clearance, Pricing.Estimate, Store, PutInto;
    var after := Take(settings, w, move);
    if move.Clear? {
      assert Counts(settings, after)[i] == after.popped[i];
    } else {
      assert Counts(settings, after) == Counts(settings, w);
      if move.Pass? {
        GoneLater(settings.budget.rules[i].span, w.spend, Counts(settings, w)[i], w.now, move.now);
      }
    }
  }

  lemma {:induction false} PromptRunDropsOnlyPast(settings: Settings, w: World, moves: seq<Move>, i: int)
    requires 0 <= i < |settings.budget.rules| && settings.budget.rules[i].span.CalendarMonth?
    requires WellFormed(settings.budget.rules[i].span)
    requires StampsPast(w) && NotLater(w.spend, w.now) && WindowGone(settings, w, i) && PromptRun(settings, w, moves, i)
    ensures DropsOnlyPastRun(settings, w, moves, i)
    decreases moves
  {
    hide Take, StampsPast, WindowGone, DropsOnlyPast, NotLater, WellFormed;
    if moves != [] {
      SameMonthDropsOnlyPast(settings, w, moves[0], i);
      MoveKeepsStamps(settings, w, moves[0]);
      MoveKeepsGone(settings, w, moves[0], i);
      PromptRunDropsOnlyPast(settings, Take(settings, w, moves[0]), moves[1..], i);
    }
  }

  /** A calendar month keeps its bound whenever every budget check takes its lock in the month it read its
      clock in. */
  lemma MonthsHoldWhenChecksArePrompt(settings: Settings, moves: seq<Move>, i: int, crowd: nat, largest: real, end: int)
    requires GatewayLaws.SoundBudget(settings.budget) && Pricing.NonNegativeRates(settings.rates)
    requires crowd >= 1 && largest >= 0.0 && 0 <= i < |settings.budget.rules|
    requires settings.budget.rules[i].span.CalendarMonth?
    requires ApprovedRun(settings, EMPTY, moves, crowd, largest) && PromptRun(settings, EMPTY, moves, i)
    ensures var rule := settings.budget.rules[i];
      Spend(rule.span, TakeAll(settings, EMPTY, moves).spend, end) <= rule.limit + Times((crowd - 1) as real, largest)
  {
    hide TakeAll, Spend, ApprovedRun, DropsOnlyPastRun, PromptRun, WellFormed;
    PromptRunDropsOnlyPast(settings, EMPTY, moves, i);
    BudgetsUnderConcurrency(settings, moves, i, crowd, largest, end);
  }
}
