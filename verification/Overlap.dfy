/** Schedules that show the limits under concurrency are exact: requests that overlap between check and
    record fill a rate window to its ceiling, and a budget check that waits for its lock across the turn of a
    month lets that month's budget be spent twice (ai/governance.py, ai/gateway.py). */
module Overlap {
  import opened Wrappers
  import opened Rounding
  import opened AiTypes
  import opened Windows
  import opened Governance
  import opened RateLimiter
  import opened ResponseCache
  import opened Routing
  import opened Gateway
  import opened Interleaving
  import opened InterleavingLimits
  import opened Uninterrupted

  /** How crowded a run may get: requests of the key between check and record, approvals outstanding, and the
      largest of them. */
  datatype Bounds = Bounds(key: RateKey, waiting: nat, crowd: nat, largest: real)

  ghost predicate Modest(jobs: map<int, Job>, b: Bounds) {
    |RateHeld(jobs, b.key)| <= b.waiting && ModestApprovals(jobs, b.crowd, b.largest)
  }

  /** A run within the bounds, with an honest provider, that ends in `goal`. */
  ghost predicate Leads(settings: Settings, moves: seq<Move>, b: Bounds, goal: World) {
    && CrowdedRun(settings, EMPTY, moves, b.key, b.waiting)
    && ApprovedRun(settings, EMPTY, moves, b.crowd, b.largest)
    && TakeAll(settings, EMPTY, moves) == goal
  }

  lemma {:induction false} OneMoreCrowded(settings: Settings, w: World, moves: seq<Move>, move: Move, b: Bounds)
    requires CrowdedRun(settings, w, moves, b.key, b.waiting) && ApprovedRun(settings, w, moves, b.crowd, b.largest)
    requires InPhase(TakeAll(settings, w, moves), move) && HonestReply(TakeAll(settings, w, moves), move)
    requires Modest(Take(settings, TakeAll(settings, w, moves), move).jobs, b)
    ensures CrowdedRun(settings, w, moves + [move], b.key, b.waiting)
    ensures ApprovedRun(settings, w, moves + [move], b.crowd, b.largest)
    ensures TakeAll(settings, w, moves + [move]) == Take(settings, TakeAll(settings, w, moves), move)
    decreases moves
  {
    hide Take, RateHeld, ModestApprovals, HonestReply, InPhase;
    if moves == [] {
      assert [move][1..] == [] && moves + [move] == [move];
    } else {
      OneMoreCrowded(settings, Take(settings, w, moves[0]), moves[1..], move, b);
      assert (moves + [move])[1..] == moves[1..] + [move];
    }
  }

  lemma Go(settings: Settings, moves: seq<Move>, b: Bounds, goal: World, move: Move) returns (longer: seq<Move>)
    requires Leads(settings, moves, b, goal) && InPhase(goal, move) && HonestReply(goal, move)
    requires Modest(Take(settings, goal, move).jobs, b)
    ensures Leads(settings, longer, b, Take(settings, goal, move))
  {
    hide Take, TakeAll, CrowdedRun, ApprovedRun, Modest;
    OneMoreCrowded(settings, EMPTY, moves, move, b);
    longer := moves + [move];
  }

  // ----- one request up to its budget check -----

  /** A phase with nothing approved, or the one approval the bounds leave room for. */
  predicate Fitted(jobs: map<int, Job>, phase: Phase, b: Bounds) {
    Approved(phase).None? || (b.crowd >= 1 && BudgetHeld(jobs) == map[] && Approved(phase).value == b.largest)
  }

  /** Beside these jobs there is room for one more request. */
  ghost predicate RoomFor(jobs: map<int, Job>, id: int, request: Request, b: Bounds) {
    forall phase: Phase, stamp: Option<int> | Fitted(jobs, phase, b) ::
      Modest(jobs[id := Job(request, phase, stamp)], b)
  }

  lemma RoomForOne(jobs: map<int, Job>, id: int, request: Request, b: Bounds)
    requires id !in jobs && |RateHeld(jobs, b.key)| < b.waiting && ModestApprovals(jobs, b.crowd, b.largest)
    ensures RoomFor(jobs, id, request, b)
  {
    forall phase: Phase, stamp: Option<int> | Fitted(jobs, phase, b)
      ensures Modest(jobs[id := Job(request, phase, stamp)], b)
    {
      var job := Job(request, phase, stamp);
      OneMoreApproval(jobs, id, job, b);
      OneMoreWaiting(jobs, id, job, b);
    }
  }

  lemma OneMoreApproval(jobs: map<int, Job>, id: int, job: Job, b: Bounds)
    requires id !in jobs && ModestApprovals(jobs, b.crowd, b.largest) && Fitted(jobs, job.phase, b)
    ensures ModestApprovals(jobs[id := job], b.crowd, b.largest)
  {
    if Approved(job.phase).None? {
      assert BudgetHeld(jobs[id := job]) == BudgetHeld(jobs);
    } else {
      assert BudgetHeld(jobs[id := job]) == map[id := ApprovalHold(job)];
    }
  }

  lemma OneMoreWaiting(jobs: map<int, Job>, id: int, job: Job, b: Bounds)
    requires id !in jobs && |RateHeld(jobs, b.key)| < b.waiting
    ensures |RateHeld(jobs[id := job], b.key)| <= b.waiting
  {
    if Between(job.phase) && KeyOf(job.request) == b.key {
      AddedSize(RateHeld(jobs, b.key), id, HitHold(job));
      assert RateHeld(jobs[id := job], b.key) == RateHeld(jobs, b.key)[id := HitHold(job)];
    } else {
      assert RateHeld(jobs[id := job], b.key) == RateHeld(jobs, b.key);
    }
  }

  /** One more step of this request, which leaves it in the phase and with the stamp named. */
  lemma Step(
    settings: Settings, moves: seq<Move>, b: Bounds, from: World, base: World, id: int, request: Request, phase: Phase,
    stamp: Option<int>, move: Move)
    returns (longer: seq<Move>)
    requires Leads(settings, moves, b, from) && InPhase(from, move) && HonestReply(from, move)
    requires Take(settings, from, move) == At(base, id, request, base.now, phase, stamp)
    requires RoomFor(base.jobs, id, request, b) && Fitted(base.jobs, phase, b)
    ensures Leads(settings, longer, b, At(base, id, request, base.now, phase, stamp))
  {
    hide Take, Leads, Modest, InPhase, HonestReply, Fitted;
    assert Modest(base.jobs[id := Job(request, phase, stamp)], b);
    longer := Go(settings, moves, b, from, move);
  }

  lemma StepReads(
    settings: Settings, moves: seq<Move>, b: Bounds, base: World, id: int, request: Request, phase: Phase)
    returns (longer: seq<Move>)
    requires Leads(settings, moves, b, At(base, id, request, base.now, phase, None)) && Timed(phase)
    requires RoomFor(base.jobs, id, request, b) && Fitted(base.jobs, phase, b)
    ensures Leads(settings, longer, b, At(base, id, request, base.now, phase, Some(base.now)))
  {
    hide Leads, RoomFor, Fitted;
    var from := At(base, id, request, base.now, phase, None);
    assert from.jobs[id := Job(request, phase, Some(base.now))] == base.jobs[id := Job(request, phase, Some(base.now))];
    longer := Step(settings, moves, b, from, base, id, request, phase, Some(base.now), Move.ReadClock(id));
  }

  function Admittance(base: World, key: RateKey): World {
    base.(poppedHits := base.poppedHits[key := PoppedOf(base, key)])
  }

  function Claim(base: World, request: Request): World {
    Admittance(base, KeyOf(request)).(inFlight := base.inFlight + {request.FingerprintOf()})
  }

  /** Arrival and the rate check. */
  lemma ToAdmitted(settings: Settings, moves: seq<Move>, b: Bounds, base: World, id: int, request: Request)
    returns (longer: seq<Move>)
    requires Leads(settings, moves, b, base) && id !in base.jobs && RoomFor(base.jobs, id, request, b)
    requires var key := KeyOf(request);
      CheckLeft(settings.limits, HitsOf(base.hits, key), PoppedOf(base, key), base.now) ==
        (ALLOWED, PoppedOf(base, key))
    ensures Leads(settings, longer, b, At(Admittance(base, KeyOf(request)), id, request, base.now, Admitted, None))
  {
    hide Leads, RoomFor, CheckLeft;
    longer := Step(settings, moves, b, base, base, id, request, Arrived, None, Arrive(id, request));
    longer := StepReads(settings, longer, b, base, id, request, Arrived);
    var from := At(base, id, request, base.now, Arrived, Some(base.now));
    var next := Admittance(base, KeyOf(request));
    Overwrite(base, id, request, base.now, Arrived, Some(base.now), Admitted);
    assert PoppedOf(from, KeyOf(request)) == PoppedOf(base, KeyOf(request));
    longer := Step(settings, longer, b, from, next, id, request, Admitted, None, CheckLimits(id));
  }

  /** The cache look-up, the claim, and the clock reading for the budget check. */
  lemma ToClaimed(settings: Settings, moves: seq<Move>, b: Bounds, base: World, id: int, request: Request)
    returns (longer: seq<Move>)
    requires Leads(settings, moves, b, At(base, id, request, base.now, Admitted, None))
      && RoomFor(base.jobs, id, request, b)
    requires request.FingerprintOf() !in base.inFlight && base.entries == map[]
    ensures var claimed := base.(inFlight := base.inFlight + {request.FingerprintOf()});
      Leads(settings, longer, b, At(claimed, id, request, base.now, Claimed, Some(base.now)))
  {
    hide Leads, RoomFor;
    longer := StepReads(settings, moves, b, base, id, request, Admitted);
    var from := At(base, id, request, base.now, Admitted, Some(base.now));
    Overwrite(base, id, request, base.now, Admitted, Some(base.now), Missed);
    longer := Step(settings, longer, b, from, base, id, request, Missed, None, LookUp(id));
    from := At(base, id, request, base.now, Missed, None);
    Overwrite(base, id, request, base.now, Missed, None, Claimed);
    var next := base.(inFlight := base.inFlight + {request.FingerprintOf()});
    longer := Step(settings, longer, b, from, next, id, request, Claimed, None, Begin(id));
    longer := StepReads(settings, longer, b, next, id, request, Claimed);
  }

  // ----- a gateway with one model -----

  const KEY := RateKey("anonymous", Summarization)
  const DECISION := Decision(Local, "p", "m", false, false)

  function Site(limits: RateLimits, budget: Budget, rates: Pricing.Rates, room: nat): Settings {
    Settings(true, true, false, limits, budget, rates, 3600, [AIModel("m", "p", Local, room, true)], {"p"})
  }

  /** Questions that differ in their context only; one output token each. */
  function Ask(i: nat): Request {
    Request("r", None, Summarization, "", seq(i, _ => 'x'), "q", None, false, 0.5,
            PolicyFields(Normal, MediumRisk, 1, true, true, [], None, 1))
  }

  lemma AsksDiffer(i: nat, j: nat)
    requires i != j
    ensures Ask(i).FingerprintOf() != Ask(j).FingerprintOf()
  {
    assert |Ask(i).FingerprintOf().staticPrefix| != |Ask(j).FingerprintOf().staticPrefix|;
  }

  lemma AskKey(i: nat)
    ensures KeyOf(Ask(i)) == KEY
  {
  }

  lemma AskIsRouted(limits: RateLimits, budget: Budget, rates: Pricing.Rates, room: nat, i: nat)
    requires i < room
    ensures Route(Site(limits, budget, rates, room).registry, Ask(i), false) == Some(DECISION)
  {
    var model := AIModel("m", "p", Local, room, true);
    assert Filter([model], OfTier(Local)) == [model];
    assert Filter([model], Fits(Ask(i))) == [model];
  }

  // ----- rate windows are filled to the ceiling -----

  function OneWindow(hourly: bool, limit: int): RateLimits {
    if hourly then RateLimits(0, limit) else RateLimits(limit, 0)
  }

  function OpenSettings(hourly: bool, limit: int, room: nat): Settings {
    Site(OneWindow(hourly, limit), Budget(0.0, 0.8, []), map[], room)
  }

  /** So many hits at one instant. */
  function Together(n: nat, at: int): seq<int> {
    seq(n, _ => at)
  }

  function Crowd(crowd: nat): Bounds {
    Bounds(KEY, crowd, 0, 0.0)
  }

  /** `hits` questions are with the provider, `waiting` more have passed both checks and read the clock for
      their hit, all at one instant. */
  ghost predicate Staged(w: World, hits: nat, waiting: nat) {
    && HitsOf(w.hits, KEY) == Together(hits, w.now) && PoppedOf(w, KEY) == 0
    && w.entries == map[] && w.spend == [] && w.popped == []
    && (forall id :: id in w.jobs <==> 0 <= id < hits + waiting)
    && (forall id | 0 <= id < hits :: w.jobs[id].phase.Calling? && w.jobs[id].phase.projected.None?)
    && (forall id | hits <= id < hits + waiting :: w.jobs[id] == Job(Ask(id), Cleared(DECISION, None), Some(w.now)))
    && (forall f | f in w.inFlight :: exists id: nat :: id < hits + waiting && f == Ask(id).FingerprintOf())
  }

  lemma {:induction false} RangeSize(s: set<int>, lo: int, hi: int)
    requires lo <= hi && forall x | x in s :: lo <= x < hi
    ensures |s| <= hi - lo
    decreases hi - lo
  {
    if lo < hi {
      RangeSize(s - {lo}, lo + 1, hi);
    }
  }

  lemma StagedIsModest(w: World, hits: nat, waiting: nat)
    requires Staged(w, hits, waiting)
    ensures |RateHeld(w.jobs, KEY)| <= waiting && BudgetHeld(w.jobs) == map[]
  {
    assert forall id | id in w.jobs :: Approved(w.jobs[id].phase).None?;
    RangeSize(RateHeld(w.jobs, KEY).Keys, hits, hits + waiting);
    assert |RateHeld(w.jobs, KEY)| == |RateHeld(w.jobs, KEY).Keys|;
  }

  lemma {:induction false} AllSince(n: nat, at: int, cutoff: int)
    requires at >= cutoff
    ensures Since(Together(n, at), cutoff) == Together(n, at)
  {
    if n > 0 {
      AllSince(n - 1, at, cutoff);
      assert Together(n, at) == Together(n - 1, at) + [at];
      SinceSnoc(Together(n - 1, at), at, cutoff);
    }
  }

  lemma RoomAdmits(hourly: bool, limit: int, hits: nat, now: int)
    requires hits < limit
    ensures CheckLeft(OneWindow(hourly, limit), Together(hits, now), 0, now) == (ALLOWED, 0)
  {
    var limits, log := OneWindow(hourly, limit), Together(hits, now);
    AllSince(hits, now, now - MINUTE);
    hide Since, Together;
    assert |log| == hits && forall i | 0 <= i < hits :: log[i] == now by { TogetherAll(hits, now); }
    assert PoppedHits(log, 0, now - HOUR) == 0;
    assert Left(log, 0) == log;
    assert Verdict(limits, log, log, now) == ALLOWED;
  }

  lemma TogetherAll(n: nat, at: int)
    ensures |Together(n, at)| == n && forall i | 0 <= i < n :: Together(n, at)[i] == at
  {
  }

  /** One more request passes both checks while the window has room. */
  lemma CheckOne(hourly: bool, limit: int, room: nat, crowd: nat, moves: seq<Move>, w: World, hits: nat, waiting: nat)
    returns (longer: seq<Move>, after: World)
    requires Leads(OpenSettings(hourly, limit, room), moves, Crowd(crowd), w) && Staged(w, hits, waiting)
    requires hits < limit && waiting < crowd && hits + waiting < room
    ensures Leads(OpenSettings(hourly, limit, room), longer, Crowd(crowd), after) && Staged(after, hits, waiting + 1)
    ensures after.now == w.now
  {
    hide Leads, CheckLeft, RoomFor, Route, Ask, Staged, Request.FingerprintOf, Together, HitsOf, PoppedOf;
    var settings, b := OpenSettings(hourly, limit, room), Crowd(crowd);
    var id, request := hits + waiting, Ask(hits + waiting);
    BeforeCheck(w, hits, waiting, b);
    AskKey(id);
    RoomAdmits(hourly, limit, hits, w.now);
    longer := ToAdmitted(settings, moves, b, w, id, request);
    var admitted := Admittance(w, KEY);
    longer := ToClaimed(settings, longer, b, admitted, id, request);
    var base := Claim(w, request);
    var from := At(base, id, request, w.now, Claimed, Some(w.now));
    AskIsRouted(settings.limits, settings.budget, settings.rates, room, id);
    Overwrite(base, id, request, w.now, Claimed, Some(w.now), Cleared(DECISION, None));
    NoWindowsToPop(settings, base);
    longer := Step(settings, longer, b, from, base, id, request, Cleared(DECISION, None), None, Clear(id));
    longer := StepReads(settings, longer, b, base, id, request, Cleared(DECISION, None));
    after := At(base, id, request, w.now, Cleared(DECISION, None), Some(w.now));
    AfterCheck(w, hits, waiting);
  }

  lemma BeforeCheck(w: World, hits: nat, waiting: nat, b: Bounds)
    requires Staged(w, hits, waiting) && b.key == KEY && waiting < b.waiting && b.largest >= 0.0
    ensures var id, request := hits + waiting, Ask(hits + waiting);
      && id !in w.jobs && RoomFor(w.jobs, id, request, b) && request.FingerprintOf() !in w.inFlight
      && HitsOf(w.hits, KEY) == Together(hits, w.now) && PoppedOf(w, KEY) == 0 && w.entries == map[] && w.popped == []
  {
    hide RoomFor, Ask, Request.FingerprintOf, RateHeld, BudgetHeld, Together;
    StagedIsModest(w, hits, waiting);
    RoomForOne(w.jobs, hits + waiting, Ask(hits + waiting), b);
    FreshQuestion(w, hits, waiting);
  }

  lemma FreshQuestion(w: World, hits: nat, waiting: nat)
    requires Staged(w, hits, waiting)
    ensures Ask(hits + waiting).FingerprintOf() !in w.inFlight
  {
    hide Ask, Request.FingerprintOf, Together;
    forall id: nat | id < hits + waiting ensures Ask(id).FingerprintOf() != Ask(hits + waiting).FingerprintOf() {
      AsksDiffer(id, hits + waiting);
    }
  }

  lemma AfterCheck(w: World, hits: nat, waiting: nat)
    requires Staged(w, hits, waiting)
    ensures var id, request := hits + waiting, Ask(hits + waiting);
      Staged(At(Claim(w, request), id, request, w.now, Cleared(DECISION, None), Some(w.now)), hits, waiting + 1)
  {
    hide Ask, Request.FingerprintOf;
    AskKey(hits + waiting);
  }

  lemma NoWindowsToPop(settings: Settings, w: World)
    requires settings.budget.rules == [] && w.popped == []
    ensures Counts(settings, w) == w.popped
  {
  }

  /** The first of those waiting records its hit, whatever the window holds by now. */
  lemma RecordOne(hourly: bool, limit: int, room: nat, crowd: nat, moves: seq<Move>, w: World, hits: nat, waiting: nat)
    returns (longer: seq<Move>, after: World)
    requires Leads(OpenSettings(hourly, limit, room), moves, Crowd(crowd), w) && Staged(w, hits, waiting)
    requires 0 < waiting <= crowd
    ensures Leads(OpenSettings(hourly, limit, room), longer, Crowd(crowd), after)
      && Staged(after, hits + 1, waiting - 1)
    ensures after.now == w.now
  {
    hide Leads, RateHeld, BudgetHeld, Take, Staged;
    var settings := OpenSettings(hourly, limit, room);
    AfterRecord(settings, w, hits, waiting);
    after := Take(settings, w, RecordHit(hits));
    StagedIsModest(after, hits + 1, waiting - 1);
    longer := Go(settings, moves, Crowd(crowd), w, RecordHit(hits));
  }

  lemma AfterRecord(settings: Settings, w: World, hits: nat, waiting: nat)
    requires settings.providers == {"p"} && waiting > 0 && Staged(w, hits, waiting)
    ensures InPhase(w, RecordHit(hits)) && Staged(Take(settings, w, RecordHit(hits)), hits + 1, waiting - 1)
    ensures Take(settings, w, RecordHit(hits)).now == w.now
  {
    hide Ask, Request.FingerprintOf;
    AskKey(hits);
    assert Together(hits, w.now) + [w.now] == Together(hits + 1, w.now);
  }

  /** limit - 1 requests one after the other, then `crowd` requests whose checks all come before any of their
      records: the window holds limit + crowd - 1 hits, which is the ceiling proved for every run. The requests
      ask different questions, all of them are routed and none is blocked. */
  lemma OverlapReachesTheCeiling(
    hourly: bool, limit: int, crowd: nat, at: int)
    returns (settings: Settings, moves: seq<Move>)
    requires limit >= 1 && crowd >= 1 && at >= 0
    ensures settings.limits == OneWindow(hourly, limit)
    ensures CrowdedRun(settings, EMPTY, moves, KEY, crowd)
    ensures var hits := Ones(HitsOf(TakeAll(settings, EMPTY, moves).hits, KEY));
      Spend(Trailing(if hourly then HOUR else MINUTE), hits, at) == (limit + crowd - 1) as real
  {
    hide Staged, Leads, Spend;
    var room := limit + crowd;
    settings := OpenSettings(hourly, limit, room);
    var w := EMPTY.(now := at);
    moves := FirstInstant(settings, crowd, at);
    var hits, waiting := 0, 0;
    while hits < limit - 1
      invariant 0 <= hits <= limit - 1 && w.now == at
      invariant Leads(settings, moves, Crowd(crowd), w) && Staged(w, hits, 0)
    {
      moves, w := CheckOne(hourly, limit, room, crowd, moves, w, hits, 0);
      moves, w := RecordOne(hourly, limit, room, crowd, moves, w, hits, 1);
      hits := hits + 1;
    }
    while waiting < crowd
      invariant 0 <= waiting <= crowd && w.now == at
      invariant Leads(settings, moves, Crowd(crowd), w) && Staged(w, hits, waiting)
    {
      moves, w := CheckOne(hourly, limit, room, crowd, moves, w, hits, waiting);
      waiting := waiting + 1;
    }
    while waiting > 0
      invariant 0 <= waiting <= crowd && w.now == at && hits + waiting == limit - 1 + crowd
      invariant Leads(settings, moves, Crowd(crowd), w) && Staged(w, hits, waiting)
    {
      moves, w := RecordOne(hourly, limit, room, crowd, moves, w, hits, waiting);
      hits, waiting := hits + 1, waiting - 1;
    }
    StagedCounts(settings, moves, crowd, w, hits, if hourly then HOUR else MINUTE);
  }

  lemma FirstInstant(settings: Settings, crowd: nat, at: int) returns (moves: seq<Move>)
    requires at >= 0
    ensures Leads(settings, moves, Crowd(crowd), EMPTY.(now := at)) && Staged(EMPTY.(now := at), 0, 0)
  {
    assert RateHeld(map[], KEY) == map[] && BudgetHeld(map[]) == map[];
    moves := Go(settings, [], Crowd(crowd), EMPTY, Pass(at));
  }

  lemma StagedCounts(settings: Settings, moves: seq<Move>, crowd: nat, w: World, hits: nat, width: nat)
    requires Leads(settings, moves, Crowd(crowd), w) && Staged(w, hits, 0)
    ensures CrowdedRun(settings, EMPTY, moves, KEY, crowd)
    ensures Spend(Trailing(width), Ones(HitsOf(TakeAll(settings, EMPTY, moves).hits, KEY)), w.now) == hits as real
  {
    hide CrowdedRun, ApprovedRun, TakeAll, Together, Ones;
    TogetherCount(hits, w.now, width);
  }

  lemma TogetherCount(n: nat, at: int, width: nat)
    ensures Spend(Trailing(width), Ones(Together(n, at)), at) == n as real
  {
    AllSince(n, at, at - width);
    hide Since;
    CountIsSpend(Together(n, at), width, at);
  }

  // ----- a month that turns while checks wait for the lock -----

  const MILLION := 1000000.0

  function MonthSettings(monthOf: int -> int, limit: real, room: nat): Settings {
    Site(RateLimits(0, 0), Budget(0.0, 0.8, [WindowRule("month", CalendarMonth(monthOf), limit)]),
         map["m" := Pricing.ModelPricing(0.0, Times(limit, MILLION), None, None)], room)
  }

  /** One approval at a time, for the whole month's budget. */
  function OneBig(waiting: nat, limit: real): Bounds {
    Bounds(KEY, waiting, 1, limit)
  }

  function Charges(n: nat, at: int, amount: real): seq<Entry> {
    seq(n, _ => Entry(at, amount))
  }

  /** `count` questions hold their claims with clock readings of one instant for the budget check; the first
      `done` of them have since been approved, answered and charged, all at this instant. */
  ghost predicate Stalled(settings: Settings, w: World, stamp: int, count: nat, done: nat, limit: real) {
    && done <= count && w.entries == map[] && w.spend == Charges(done, w.now, limit)
    && (|w.popped| == 0 || (|w.popped| == 1 && w.popped[0] <= done))
    && (forall id :: id in w.jobs <==> 0 <= id < count)
    && (forall id | 0 <= id < done :: w.jobs[id].phase.Charged?)
    && (forall id | done <= id < count :: w.jobs[id] == Job(Ask(id), Claimed, Some(stamp)))
    && (forall f | f in w.inFlight :: exists id: nat :: id < count && f == Ask(id).FingerprintOf())
  }

  lemma StalledIsModest(settings: Settings, w: World, stamp: int, count: nat, done: nat, limit: real, b: Bounds)
    requires Stalled(settings, w, stamp, count, done, limit) && b == OneBig(b.waiting, limit) && count <= b.waiting
    ensures Modest(w.jobs, b) && BudgetHeld(w.jobs) == map[]
  {
    assert forall id | id in w.jobs :: Approved(w.jobs[id].phase).None?;
    RangeSize(RateHeld(w.jobs, KEY).Keys, 0, count);
    assert |RateHeld(w.jobs, KEY)| == |RateHeld(w.jobs, KEY).Keys|;
  }

  /** One more request up to its claim, its clock read for the budget check. */
  lemma StallOne(
    monthOf: int -> int, limit: real, room: nat, waiting: nat, moves: seq<Move>, w: World, count: nat)
    returns (longer: seq<Move>, after: World)
    requires var settings := MonthSettings(monthOf, limit, room);
      Leads(settings, moves, OneBig(waiting, limit), w) && Stalled(settings, w, w.now, count, 0, limit)
    requires count < waiting
    ensures var settings := MonthSettings(monthOf, limit, room);
      Leads(settings, longer, OneBig(waiting, limit), after) && Stalled(settings, after, w.now, count + 1, 0, limit)
    ensures after.now == w.now
  {
    hide Leads, RoomFor, Ask, Request.FingerprintOf, Stalled, Times;
    var settings, b, request := MonthSettings(monthOf, limit, room), OneBig(waiting, limit), Ask(count);
    BeforeStall(settings, w, count, limit, b);
    AskKey(count);
    longer := ToAdmitted(settings, moves, b, w, count, request);
    longer := ToClaimed(settings, longer, b, Admittance(w, KEY), count, request);
    after := At(Claim(w, request), count, request, w.now, Claimed, Some(w.now));
    AfterStall(settings, w, count, limit);
  }

  lemma BeforeStall(settings: Settings, w: World, count: nat, limit: real, b: Bounds)
    requires Stalled(settings, w, w.now, count, 0, limit) && b == OneBig(b.waiting, limit) && count < b.waiting
    ensures count !in w.jobs && RoomFor(w.jobs, count, Ask(count), b) && w.entries == map[]
    ensures Ask(count).FingerprintOf() !in w.inFlight
  {
    hide RoomFor, Ask, Request.FingerprintOf, RateHeld, BudgetHeld;
    StalledIsModest(settings, w, w.now, count, 0, limit, b.(waiting := count));
    RoomForOne(w.jobs, count, Ask(count), b);
    forall id: nat | id < count ensures Ask(id).FingerprintOf() != Ask(count).FingerprintOf() {
      AsksDiffer(id, count);
    }
  }

  lemma AfterStall(settings: Settings, w: World, count: nat, limit: real)
    requires Stalled(settings, w, w.now, count, 0, limit)
    ensures var request := Ask(count);
      Stalled(settings, At(Claim(w, request), count, request, w.now, Claimed, Some(w.now)), w.now, count + 1, 0, limit)
  {
    hide Ask, Request.FingerprintOf;
  }

  lemma ProjectedCost(monthOf: int -> int, limit: real, room: nat, chars: nat)
    requires OnGrid(limit)
    ensures Pricing.Project(MonthSettings(monthOf, limit, room).rates, "m", chars, 1) == Some(limit)
    ensures Pricing.Estimate(MonthSettings(monthOf, limit, room).rates, "m", ANSWER.usage) == Some(limit)
  {
    hide Round6;
    RoundFixesGrid(SixPlaces, limit);
    assert forall n: int :: Pricing.Charge(n, 0.0) == 0.0;
    assert Pricing.Charge(1, Times(limit, MILLION)) == limit;
  }

  const ANSWER: Response := ResponseFields(
    "r", true, "p", "m", "a", Usage(Some(1), Some(1), None, None), None, None, None, false, 0)

  /** The check with the old reading pops every charge of the month it is used in, and approves. */
  lemma OldReadingApproves(monthOf: int -> int, limit: real, room: nat, w: World, stamp: int, count: nat, done: nat)
    requires OnGrid(limit) && limit > 0.0 && done < count <= room && monthOf(stamp) != monthOf(w.now)
    requires Stalled(MonthSettings(monthOf, limit, room), w, stamp, count, done, limit)
    ensures Clearance(MonthSettings(monthOf, limit, room), w, Ask(done), stamp) ==
      (Cleared(DECISION, Some(limit)), [done])
  {
    hide Route, Pricing.Project, Pricing.Estimate, Times, Kept, Total, Popped;
    var settings, span := MonthSettings(monthOf, limit, room), CalendarMonth(monthOf);
    AskIsRouted(settings.limits, settings.budget, settings.rates, room, done);
    ProjectedCost(monthOf, limit, room, Ask(done).ContextSize());
    var counts := Counts(settings, w);
    assert |counts| == 1 && counts[0] <= done;
    AllPopped(span, done, w.now, limit, counts[0], stamp);
    assert counts[0 := done] == [done];
    assert [done][0 := done] == [done];
    assert Times(limit, 1.0) == limit by { TimesOne(limit); }
    SweepOne(settings.budget.rules, w.spend, counts, limit, stamp, 1.0, done);
    SweepOne(settings.budget.rules, w.spend, [done], limit, stamp, 0.8, done);
  }

  lemma TimesOne(x: real)
    ensures Times(x, 1.0) == x
  {
  }

  lemma SweepOne(
    rules: seq<WindowRule>, log: seq<Entry>, popped: seq<nat>, amount: real, now: int, ratio: real, after: nat)
    requires |rules| == |popped| == 1
    requires Popped(rules[0].span, log, popped[0], now) == after && Total(Kept(log, after)) == 0.0
    ensures var (over, next) := Sweep(rules, log, popped, amount, now, ratio, 0);
      next == [after] && (over.None? <==> amount <= Times(rules[0].limit, ratio)) && (over.Some? ==> over.value == 0)
  {
    hide Popped, Total, Kept, Times;
    assert popped[0 := after] == [after];
  }

  lemma AllPopped(span: Span, done: nat, at: int, amount: real, popped: nat, stamp: int)
    requires popped <= done && !Inside(span, at, stamp)
    ensures Popped(span, Charges(done, at, amount), popped, stamp) == done
    ensures Popped(span, Charges(done, at, amount), done, stamp) == done
    ensures Total(Kept(Charges(done, at, amount), done)) == 0.0
  {
    PoppedShape(span, Charges(done, at, amount), popped, stamp);
    PoppedShape(span, Charges(done, at, amount), done, stamp);
  }

  /** From the approval to the provider. */
  lemma ToCalling(
    monthOf: int -> int, limit: real, room: nat, b: Bounds, moves: seq<Move>, base: World, id: int, request: Request)
    returns (longer: seq<Move>, hit: World)
    requires b == OneBig(b.waiting, limit)
    requires Leads(MonthSettings(monthOf, limit, room), moves, b,
      At(base, id, request, base.now, Cleared(DECISION, Some(limit)), None))
    requires RoomFor(base.jobs, id, request, b) && BudgetHeld(base.jobs) == map[]
    ensures Leads(MonthSettings(monthOf, limit, room), longer, b,
      At(hit, id, request, base.now, Calling(DECISION, Some(limit), 1), None))
    ensures hit == base.(hits := hit.hits)
  {
    hide Leads, RoomFor, BudgetHeld, Times;
    var settings, key, now := MonthSettings(monthOf, limit, room), KeyOf(request), base.now;
    var cleared, calling := Cleared(DECISION, Some(limit)), Calling(DECISION, Some(limit), 1);
    longer := StepReads(settings, moves, b, base, id, request, cleared);
    hit := base.(hits := base.hits[key := HitsOf(base.hits, key) + [now]]);
    Overwrite(hit, id, request, now, cleared, Some(now), calling);
    longer := Step(settings, longer, b, At(base, id, request, now, cleared, Some(now)), hit, id, request, calling, None,
      RecordHit(id));
  }

  /** From the provider to the answer, its clock read for the charge. */
  lemma ToAnswered(
    monthOf: int -> int, limit: real, room: nat, b: Bounds, moves: seq<Move>, hit: World, id: int, request: Request)
    returns (longer: seq<Move>, answer: Response)
    requires request.policy.maxOutputTokens == request.policy.maxAttempts == 1 && b == OneBig(b.waiting, limit)
    requires Leads(MonthSettings(monthOf, limit, room), moves, b,
               At(hit, id, request, hit.now, Calling(DECISION, Some(limit), 1), None))
    requires RoomFor(hit.jobs, id, request, b) && BudgetHeld(hit.jobs) == map[]
    ensures Leads(MonthSettings(monthOf, limit, room), longer, b,
              At(hit, id, request, hit.now, Answered(Some(limit), answer), Some(hit.now)))
    ensures answer.model == ANSWER.model && answer.usage == ANSWER.usage
  {
    hide Leads, RoomFor, BudgetHeld, MonthSettings;
    var settings, calling, now := MonthSettings(monthOf, limit, room), Calling(DECISION, Some(limit), 1), hit.now;
    answer := ANSWER.(routing := Some(DECISION), retryCount := 0);
    var answered := Answered(Some(limit), answer);
    Overwrite(hit, id, request, now, calling, None, answered);
    longer := Step(settings, moves, b, At(hit, id, request, now, calling, None), hit, id, request, answered, None,
                   Reply(id, Answers(ANSWER)));
    longer := StepReads(settings, longer, b, hit, id, request, answered);
  }

  /** The charge. */
  lemma ToCharged(
    monthOf: int -> int, limit: real, room: nat, b: Bounds, moves: seq<Move>, hit: World, id: int, request: Request,
    answer: Response)
    returns (longer: seq<Move>, end: World, charged: Response)
    requires OnGrid(limit) && answer.model == ANSWER.model && answer.usage == ANSWER.usage
    requires Leads(MonthSettings(monthOf, limit, room), moves, b,
               At(hit, id, request, hit.now, Answered(Some(limit), answer), Some(hit.now)))
    requires RoomFor(hit.jobs, id, request, b)
    ensures Leads(MonthSettings(monthOf, limit, room), longer, b, At(end, id, request, hit.now, Charged(charged), None))
    ensures end == hit.(spend := hit.spend + [Entry(hit.now, limit)])
  {
    hide Leads, RoomFor, BudgetHeld, Pricing.Estimate, MonthSettings;
    var settings, answered, now := MonthSettings(monthOf, limit, room), Answered(Some(limit), answer), hit.now;
    ProjectedCost(monthOf, limit, room, 0);
    end := hit.(spend := hit.spend + [Entry(now, limit)]);
    charged := answer.(cost := Some(limit));
    Overwrite(end, id, request, now, answered, Some(now), Charged(charged));
    longer := Step(settings, moves, b, At(hit, id, request, now, answered, Some(now)), end, id, request,
                   Charged(charged), None, ChargeCost(id));
  }

  /** The next stalled check gets its lock: approved for the whole budget, answered and charged. */
  lemma SpendOne(
    monthOf: int -> int, limit: real, count: nat, moves: seq<Move>, w: World, stamp: int, done: nat)
    returns (longer: seq<Move>, after: World)
    requires OnGrid(limit) && limit > 0.0 && done < count && monthOf(stamp) != monthOf(w.now)
    requires var settings := MonthSettings(monthOf, limit, count);
      Leads(settings, moves, OneBig(count, limit), w) && Stalled(settings, w, stamp, count, done, limit)
    ensures var settings := MonthSettings(monthOf, limit, count);
      Leads(settings, longer, OneBig(count, limit), after) && Stalled(settings, after, stamp, count, done + 1, limit)
    ensures after.now == w.now
  {
    hide Leads, RoomFor, BudgetHeld, Stalled, Clearance, Ask, Times;
    var settings, b, request := MonthSettings(monthOf, limit, count), OneBig(count, limit), Ask(done);
    OldReadingApproves(monthOf, limit, count, w, stamp, count, done);
    BeforeCharge(settings, w, stamp, count, done, limit, b);
    var base := w.(popped := [done], jobs := w.jobs - {done});
    var cleared := Cleared(DECISION, Some(limit));
    assert w.jobs[done := Job(request, cleared, None)] == base.jobs[done := Job(request, cleared, None)];
    longer := Step(settings, moves, b, w, base, done, request, cleared, None, Clear(done));
    AskPolicy(done);
    var hit, end, answer, charged;
    longer, hit := ToCalling(monthOf, limit, count, b, longer, base, done, request);
    longer, answer := ToAnswered(monthOf, limit, count, b, longer, hit, done, request);
    longer, end, charged := ToCharged(monthOf, limit, count, b, longer, hit, done, request, answer);
    after := At(end, done, request, w.now, Charged(charged), None);
    AfterCharge(settings, w, stamp, count, done, limit, after);
  }

  lemma AskPolicy(i: nat)
    ensures Ask(i).policy.maxOutputTokens == Ask(i).policy.maxAttempts == 1
  {
  }

  lemma BeforeCharge(settings: Settings, w: World, stamp: int, count: nat, done: nat, limit: real, b: Bounds)
    requires Stalled(settings, w, stamp, count, done, limit) && done < count && b == OneBig(count, limit)
    ensures done in w.jobs && w.jobs[done] == Job(Ask(done), Claimed, Some(stamp))
    ensures var rest := w.jobs - {done};
      RoomFor(rest, done, Ask(done), b) && BudgetHeld(rest) == map[]
  {
    hide Ask, RoomFor;
    var rest := w.jobs - {done};
    assert forall id | id in rest :: Approved(rest[id].phase).None?;
    assert BudgetHeld(rest) == map[];
    var held := RateHeld(rest, KEY);
    RangeSize(held.Keys + {done}, 0, count);
    assert |held.Keys + {done}| == |held.Keys| + 1 && |held| == |held.Keys|;
    RoomForOne(rest, done, Ask(done), b);
  }

  lemma AfterCharge(settings: Settings, w: World, stamp: int, count: nat, done: nat, limit: real, after: World)
    requires Stalled(settings, w, stamp, count, done, limit) && done < count
    requires done in after.jobs && after.jobs[done].phase.Charged?
      && after.jobs == (w.jobs - {done})[done := after.jobs[done]]
    requires after == w.(hits := after.hits, popped := [done], jobs := after.jobs,
                         spend := w.spend + [Entry(w.now, limit)])
    ensures Stalled(settings, after, stamp, count, done + 1, limit)
  {
    hide Ask, Request.FingerprintOf;
    assert Charges(done, w.now, limit) + [Entry(w.now, limit)] == Charges(done + 1, w.now, limit);
  }

  lemma {:induction false} ChargesSpent(span: Span, n: nat, at: int, amount: real)
    requires Inside(span, at, at)
    ensures Spend(span, Charges(n, at, amount), at) == Times(n as real, amount)
  {
    if n > 0 {
      ChargesSpent(span, n - 1, at, amount);
      assert Charges(n, at, amount) == Charges(n - 1, at, amount) + [Entry(at, amount)];
      SpendSnoc(span, Charges(n - 1, at, amount), Entry(at, amount), at);
    }
  }

  /** Across the turn of a month its budget has no ceiling at all: for any number of requests there is a run,
      on a clock that never goes back and with one approval outstanding at a time, in which each of them is
      charged the whole month's limit in the new month. Each had read its clock in the old one. */
  lemma OldReadingsSpendTheMonthAgain(monthOf: int -> int, limit: real, at: int, count: nat) returns (moves: seq<Move>)
    requires OnGrid(limit) && limit > 0.0 && at >= 0 && monthOf(at) != monthOf(at + 1)
    ensures ApprovedRun(MonthSettings(monthOf, limit, count), EMPTY, moves, 1, limit)
    ensures Spend(CalendarMonth(monthOf), TakeAll(MonthSettings(monthOf, limit, count), EMPTY, moves).spend, at + 1)
            == Times(count as real, limit)
  {
    hide Leads, Stalled, Times;
    var settings, b := MonthSettings(monthOf, limit, count), OneBig(count, limit);
    var w := EMPTY.(now := at);
    moves := FirstStall(settings, count, limit, at);
    var stalled, done := 0, 0;
    while stalled < count
      invariant 0 <= stalled <= count && w.now == at
      invariant Leads(settings, moves, b, w) && Stalled(settings, w, at, stalled, 0, limit)
    {
      moves, w := StallOne(monthOf, limit, count, count, moves, w, stalled);
      stalled := stalled + 1;
    }
    moves, w := TurnMonth(settings, count, limit, moves, w);
    while done < count
      invariant 0 <= done <= count && w.now == at + 1
      invariant Leads(settings, moves, b, w) && Stalled(settings, w, at, count, done, limit)
    {
      moves, w := SpendOne(monthOf, limit, count, moves, w, at, done);
      done := done + 1;
    }
    StalledSpent(settings, count, limit, moves, w, at, CalendarMonth(monthOf));
  }

  lemma FirstStall(settings: Settings, count: nat, limit: real, at: int) returns (moves: seq<Move>)
    requires at >= 0
    ensures Leads(settings, moves, OneBig(count, limit), EMPTY.(now := at))
    ensures Stalled(settings, EMPTY.(now := at), at, 0, 0, limit)
  {
    assert RateHeld(map[], KEY) == map[] && BudgetHeld(map[]) == map[];
    moves := Go(settings, [], OneBig(count, limit), EMPTY, Pass(at));
  }

  lemma TurnMonth(settings: Settings, count: nat, limit: real, moves: seq<Move>, w: World)
    returns (longer: seq<Move>, after: World)
    requires Leads(settings, moves, OneBig(count, limit), w) && Stalled(settings, w, w.now, count, 0, limit)
    ensures Leads(settings, longer, OneBig(count, limit), after) && Stalled(settings, after, w.now, count, 0, limit)
    ensures after.now == w.now + 1
  {
    hide Leads, Ask, Request.FingerprintOf;
    StalledIsModest(settings, w, w.now, count, 0, limit, OneBig(count, limit));
    after := w.(now := w.now + 1);
    longer := Go(settings, moves, OneBig(count, limit), w, Pass(w.now + 1));
  }

  lemma StalledSpent(settings: Settings, count: nat, limit: real, moves: seq<Move>, w: World, stamp: int, span: Span)
    requires Leads(settings, moves, OneBig(count, limit), w) && Stalled(settings, w, stamp, count, count, limit)
    requires Inside(span, w.now, w.now)
    ensures ApprovedRun(settings, EMPTY, moves, 1, limit)
    ensures Spend(span, TakeAll(settings, EMPTY, moves).spend, w.now) == Times(count as real, limit)
  {
    hide CrowdedRun, ApprovedRun, TakeAll, Charges, Times;
    ChargesSpent(span, count, w.now, limit);
  }

  // ----- when the month is safe -----

  ghost predicate AfterZero(w: World) {
    w.now >= 0 && forall id | id in w.jobs && w.jobs[id].stamp.Some? :: w.jobs[id].stamp.value >= 0
  }

  lemma StaysAfterZero(settings: Settings, w: World, move: Move)
    requires AfterZero(w) && InPhase(w, move)
    ensures AfterZero(Take(settings, w, move))
  {
    hide CheckLeft, GetFrom, CheckPruned, Route, Pricing.Project, Pricing.Estimate, Store, PutInto, Governance.Charge;
  }

  /** The month does not turn. */
  ghost predicate OneMonth(monthOf: int -> int) {
    forall at | at >= 0 :: monthOf(at) == monthOf(at + 1)
  }

  lemma {:induction false} OneMonthFrom(monthOf: int -> int, at: int)
    requires OneMonth(monthOf) && at >= 0
    ensures monthOf(at) == monthOf(0)
    decreases at
  {
    if at > 0 {
      OneMonthFrom(monthOf, at - 1);
      assert monthOf(at - 1) == monthOf(at - 1 + 1);
    }
  }

  lemma {:induction false} OneMonthIsPrompt(settings: Settings, w: World, moves: seq<Move>, crowd: nat, largest: real)
    requires |settings.budget.rules| == 1 && settings.budget.rules[0].span.CalendarMonth?
    requires OneMonth(settings.budget.rules[0].span.monthOf) && AfterZero(w)
    requires ApprovedRun(settings, w, moves, crowd, largest)
    ensures PromptRun(settings, w, moves, 0)
    decreases moves
  {
    hide Take, ModestApprovals, HonestReply, OneMonth;
    if moves != [] {
      if moves[0].Clear? {
        OneMonthFrom(settings.budget.rules[0].span.monthOf, w.jobs[moves[0].id].stamp.value);
        OneMonthFrom(settings.budget.rules[0].span.monthOf, w.now);
      }
      StaysAfterZero(settings, w, moves[0]);
      OneMonthIsPrompt(settings, Take(settings, w, moves[0]), moves[1..], crowd, largest);
    }
  }

  /** What a run charges in the month of an instant. */
  ghost function MonthSpend(monthOf: int -> int, limit: real, room: nat, moves: seq<Move>, end: int): real {
    Spend(CalendarMonth(monthOf), TakeAll(MonthSettings(monthOf, limit, room), EMPTY, moves).spend, end)
  }

  /** The monthly budget under concurrency, exactly: one approval at a time keeps every month within its limit
      over every run if and only if no month turns -- the order of lock and clock reading matters at a turn,
      and every turn can be used. */
  lemma MonthlyLimitHoldsExactly(monthOf: int -> int, limit: real)
    requires OnGrid(limit) && limit > 0.0 && WellFormed(CalendarMonth(monthOf))
    ensures (forall moves: seq<Move>, room: nat, end: int |
               ApprovedRun(MonthSettings(monthOf, limit, room), EMPTY, moves, 1, limit) ::
               MonthSpend(monthOf, limit, room, moves, end) <= limit)
            <==> OneMonth(monthOf)
  {
    hide ApprovedRun, TakeAll, Spend, OneMonth, WellFormed;
    if OneMonth(monthOf) {
      forall moves: seq<Move>, room: nat, end: int |
        ApprovedRun(MonthSettings(monthOf, limit, room), EMPTY, moves, 1, limit)
        ensures MonthSpend(monthOf, limit, room, moves, end) <= limit
      {
        OneMonthIsSafe(monthOf, limit, room, moves, end);
      }
    } else {
      var at := Turn(monthOf);
      var moves := OldReadingsSpendTheMonthAgain(monthOf, limit, at, 2);
      assert MonthSpend(monthOf, limit, 2, moves, at + 1) == Times(2 as real, limit) > limit;
    }
  }

  lemma Turn(monthOf: int -> int) returns (at: int)
    requires !OneMonth(monthOf)
    ensures at >= 0 && monthOf(at) != monthOf(at + 1)
  {
    at :| at >= 0 && monthOf(at) != monthOf(at + 1);
  }

  lemma OneMonthIsSafe(monthOf: int -> int, limit: real, room: nat, moves: seq<Move>, end: int)
    requires OnGrid(limit) && limit > 0.0 && WellFormed(CalendarMonth(monthOf)) && OneMonth(monthOf)
    requires ApprovedRun(MonthSettings(monthOf, limit, room), EMPTY, moves, 1, limit)
    ensures MonthSpend(monthOf, limit, room, moves, end) <= limit
  {
    hide ApprovedRun, TakeAll, Spend, OneMonth, WellFormed, PromptRun;
    var settings := MonthSettings(monthOf, limit, room);
    OneMonthIsPrompt(settings, EMPTY, moves, 1, limit);
    assert Times(limit, MILLION) >= 0.0 && Times(0 as real, limit) == 0.0;
    MonthsHoldWhenChecksArePrompt(settings, moves, 0, 1, limit, end);
  }
}
