/** Many requests inside the gateway at once. Each step below is one of the gateway's atomic operations --
    what it does under one lock -- and requests may interleave between any two of them, so the check of a
    limit and the record that follows it can be far apart. The clock an operation works with is read before
    its lock is taken, so reading it is a step of its own and the reading can be arbitrarily old when the
    operation runs (ai/gateway.py, ai/governance.py). */
module Interleaving {
  import opened Wrappers
  import opened AiTypes
  import opened Windows
  import opened Governance
  import opened RateLimiter
  import opened ResponseCache
  import Pricing
  import opened Routing
  import opened Gateway

  type Attempt = n: nat | n >= 1 witness 1

  /** How far a request has come. */
  datatype Phase =
    | Arrived
    | Admitted                                      // passed the rate check
    | Missed                                        // no cached answer
    | Claimed                                       // holds its fingerprint
    | Cleared(decision: Decision, projected: Cost)  // routed, within budget
    | Calling(decision: Decision, projected: Cost, attempt: Attempt)
    | Answered(projected: Cost, response: Response)
    | Charged(response: Response)
    | Releasing
    | Finished(served: Option<Response>)

  /** A request, how far it has come, and the clock reading its next timed operation will use. */
  datatype Job = Job(request: Request, phase: Phase, stamp: Option<int>)

  /** The logs hold everything ever recorded, in the order it was recorded; the deques are the logs less what
      has been popped; the cache is what its entries hold. */
  datatype World = World(
    now: int,
    hits: map<RateKey, seq<int>>,
    poppedHits: map<RateKey, nat>,
    spend: seq<Entry>,
    popped: seq<nat>,
    puts: seq<Put>,
    entries: Entries,
    inFlight: set<Fingerprint>,
    jobs: map<int, Job>)

  datatype Move =
    | Pass(now: int)
    | Arrive(id: int, request: Request)
    | ReadClock(id: int)
    | CheckLimits(id: int)
    | LookUp(id: int)
    | Begin(id: int)
    | Clear(id: int)
    | RecordHit(id: int)
    | Reply(id: int, outcome: Outcome)
    | ChargeCost(id: int)
    | StoreAnswer(id: int)
    | Release(id: int)

  /** The next operation of the request takes a clock reading with it. */
  predicate Timed(phase: Phase) {
    phase.Arrived? || phase.Admitted? || phase.Claimed? || phase.Cleared? || phase.Answered? || phase.Charged?
  }

  predicate InPhase(w: World, move: Move) {
    match move
    case Pass(now) => now >= w.now
    case Arrive(id, _) => id !in w.jobs
    case ReadClock(id) => id in w.jobs && Timed(w.jobs[id].phase) && w.jobs[id].stamp.None?
    case CheckLimits(id) => id in w.jobs && w.jobs[id].phase.Arrived? && w.jobs[id].stamp.Some?
    case LookUp(id) => id in w.jobs && w.jobs[id].phase.Admitted? && w.jobs[id].stamp.Some?
    case Begin(id) => id in w.jobs && w.jobs[id].phase.Missed?
    case Clear(id) => id in w.jobs && w.jobs[id].phase.Claimed? && w.jobs[id].stamp.Some?
    case RecordHit(id) => id in w.jobs && w.jobs[id].phase.Cleared? && w.jobs[id].stamp.Some?
    case Reply(id, _) => id in w.jobs && w.jobs[id].phase.Calling?
    case ChargeCost(id) => id in w.jobs && w.jobs[id].phase.Answered? && w.jobs[id].stamp.Some?
    case StoreAnswer(id) => id in w.jobs && w.jobs[id].phase.Charged? && w.jobs[id].stamp.Some?
    case Release(id) => id in w.jobs && w.jobs[id].phase.Releasing?
  }

  /** On to the next phase; a clock reading is used once. */
  function Goto(w: World, id: int, phase: Phase): World
    requires id in w.jobs
  {
    w.(jobs := w.jobs[id := Job(w.jobs[id].request, phase, None)])
  }

  function PoppedOf(w: World, key: RateKey): nat {
    if key in w.poppedHits then w.poppedHits[key] else 0
  }

  /** How much each window has popped; nothing before its first check. */
  function Counts(settings: Settings, w: World): (counts: seq<nat>)
    ensures |counts| == |settings.budget.rules|
  {
    seq(|settings.budget.rules|, i requires 0 <= i => if i < |w.popped| then w.popped[i] else 0)
  }

  /** Routing and the budget check of one request, with a clock reading: its next phase, and what the check
      pops. */
  function Clearance(settings: Settings, w: World, request: Request, stamp: int): (r: (Phase, seq<nat>))
    ensures |r.1| == |settings.budget.rules|
  {
    var routed := Route(settings.registry, request, false);
    if routed.None? then (Releasing, Counts(settings, w))
    else
      var projected := Pricing.Project(
        settings.rates, routed.value.model, request.ContextSize(), request.policy.maxOutputTokens);
      if projected.None? && !settings.allowUnpriced then (Releasing, Counts(settings, w))
      else
        var (verdict, popped) := CheckPruned(settings.budget, w.spend, Counts(settings, w), projected, stamp);
        (if verdict.state == Exceeded then Releasing else Cleared(routed.value, projected), popped)
  }

  function AfterReply(request: Request, phase: Phase, outcome: Outcome): Phase
    requires phase.Calling?
  {
    match outcome
    case Answers(response) =>
      Answered(phase.projected, response.(routing := Some(phase.decision), retryCount := phase.attempt - 1))
    case Fails(kind) =>
      if Retryable(kind) && phase.attempt < request.policy.maxAttempts then phase.(attempt := phase.attempt + 1)
      else Releasing
  }

  function Take(settings: Settings, w: World, move: Move): World
    requires InPhase(w, move)
  {
    match move
    case Pass(now) => w.(now := now)
    case Arrive(id, request) => w.(jobs := w.jobs[id := Job(request, Arrived, None)])
    case ReadClock(id) => w.(jobs := w.jobs[id := w.jobs[id].(stamp := Some(w.now))])
    case CheckLimits(id) =>
      var key := KeyOf(w.jobs[id].request);
      var (verdict, popped) := CheckLeft(
        settings.limits, HitsOf(w.hits, key), PoppedOf(w, key), w.jobs[id].stamp.value);
      Goto(w, id, if verdict.allowed then Admitted else Finished(None)).(poppedHits := w.poppedHits[key := popped])
    case LookUp(id) =>
      var (found, entries) := GetFrom(w.entries, w.jobs[id].request.FingerprintOf(), w.jobs[id].stamp.value);
      Goto(w, id, if found.Some? then Finished(found) else Missed).(entries := entries)
    case Begin(id) =>
      var fingerprint := w.jobs[id].request.FingerprintOf();
      if fingerprint in w.inFlight then Goto(w, id, Finished(None))
      else Goto(w, id, Claimed).(inFlight := w.inFlight + {fingerprint})
    case Clear(id) =>
      var (phase, popped) := Clearance(settings, w, w.jobs[id].request, w.jobs[id].stamp.value);
      Goto(w, id, phase).(popped := popped)
    case RecordHit(id) =>
      var key, phase := KeyOf(w.jobs[id].request), w.jobs[id].phase;
      var reachable := phase.decision.provider in settings.providers;
      Goto(w, id, if reachable then Calling(phase.decision, phase.projected, 1) else Releasing).(
        hits := w.hits[key := HitsOf(w.hits, key) + [w.jobs[id].stamp.value]])
    case Reply(id, outcome) => Goto(w, id, AfterReply(w.jobs[id].request, w.jobs[id].phase, outcome))
    case ChargeCost(id) =>
      var response := w.jobs[id].phase.response;
      var cost := Pricing.Estimate(settings.rates, response.model, response.usage);
      Goto(w, id, Charged(response.(cost := cost))).(spend := Governance.Charge(w.spend, cost, w.jobs[id].stamp.value))
    case StoreAnswer(id) =>
      var request, response, now := w.jobs[id].request, w.jobs[id].phase.response, w.jobs[id].stamp.value;
      Goto(w, id, Releasing).(
        puts := Store(w.puts, request.FingerprintOf(), response, TaskTtl(request.task), now),
        entries := PutInto(w.entries, request.FingerprintOf(), response, TaskTtl(request.task), now))
    case Release(id) =>
      Goto(w, id, Finished(None)).(inFlight := w.inFlight - {w.jobs[id].request.FingerprintOf()})
  }

  const EMPTY := World(0, map[], map[], [], [], [], map[], {}, map[])

  // ----- single flight -----

  predicate Holding(phase: Phase) {
    !(phase.Arrived? || phase.Admitted? || phase.Missed? || phase.Finished?)
  }

  /** The in-flight set is exactly the fingerprints held, and no fingerprint is held twice. */
  ghost predicate SingleFlight(w: World) {
    && (forall f :: f in w.inFlight <==>
          exists id :: id in w.jobs && Holding(w.jobs[id].phase) && w.jobs[id].request.FingerprintOf() == f)
    && (forall a, b | a in w.jobs && b in w.jobs && Holding(w.jobs[a].phase) && Holding(w.jobs[b].phase) && a != b ::
          w.jobs[a].request.FingerprintOf() != w.jobs[b].request.FingerprintOf())
  }

  /** Where the request of a move ends up holding what it held before, the set does not change. */
  lemma SameHolding(w: World, after: World, id: int)
    requires SingleFlight(w) && id in w.jobs && id in after.jobs
    requires after.jobs == w.jobs[id := after.jobs[id]] && after.jobs[id].request == w.jobs[id].request
    requires Holding(after.jobs[id].phase) == Holding(w.jobs[id].phase) && after.inFlight == w.inFlight
    ensures SingleFlight(after)
  {
    forall f ensures f in after.inFlight <==>
      exists k :: k in after.jobs && Holding(after.jobs[k].phase) && after.jobs[k].request.FingerprintOf() == f
    {
      if k :| k in w.jobs && Holding(w.jobs[k].phase) && w.jobs[k].request.FingerprintOf() == f {
        assert k in after.jobs && Holding(after.jobs[k].phase) && after.jobs[k].request.FingerprintOf() == f;
      }
    }
  }

  lemma BeginKeepsSingleFlight(settings: Settings, w: World, id: int)
    requires SingleFlight(w) && InPhase(w, Begin(id))
    ensures SingleFlight(Take(settings, w, Begin(id)))
  {
    hide Clearance, CheckLeft, GetFrom, Store, PutInto, Pricing.Estimate;
    var after := Take(settings, w, Begin(id));
    var fingerprint := w.jobs[id].request.FingerprintOf();
    if fingerprint in w.inFlight {
      SameHolding(w, after, id);
    } else {
      forall f ensures f in after.inFlight <==>
        exists k :: k in after.jobs && Holding(after.jobs[k].phase) && after.jobs[k].request.FingerprintOf() == f
      {
        if f == fingerprint {
          assert id in after.jobs && Holding(after.jobs[id].phase) && after.jobs[id].request.FingerprintOf() == f;
        } else if k :| k in w.jobs && Holding(w.jobs[k].phase) && w.jobs[k].request.FingerprintOf() == f {
          assert k in after.jobs && Holding(after.jobs[k].phase) && after.jobs[k].request.FingerprintOf() == f;
        }
      }
    }
  }

  lemma ReleaseKeepsSingleFlight(settings: Settings, w: World, id: int)
    requires SingleFlight(w) && InPhase(w, Release(id))
    ensures SingleFlight(Take(settings, w, Release(id)))
  {
    var after := Take(settings, w, Release(id));
    var fingerprint := w.jobs[id].request.FingerprintOf();
    assert Holding(w.jobs[id].phase);
    forall f ensures f in after.inFlight <==>
      exists k :: k in after.jobs && Holding(after.jobs[k].phase) && after.jobs[k].request.FingerprintOf() == f
    {
      if k :| k in w.jobs && Holding(w.jobs[k].phase) && w.jobs[k].request.FingerprintOf() == f && f != fingerprint {
        assert k in after.jobs && Holding(after.jobs[k].phase) && after.jobs[k].request.FingerprintOf() == f;
      }
    }
  }

  lemma ArriveKeepsSingleFlight(w: World, id: int, request: Request)
    requires SingleFlight(w) && id !in w.jobs
    ensures SingleFlight(w.(jobs := w.jobs[id := Job(request, Arrived, None)]))
  {
    var after := w.(jobs := w.jobs[id := Job(request, Arrived, None)]);
    forall f ensures f in after.inFlight <==>
      exists k :: k in after.jobs && Holding(after.jobs[k].phase) && after.jobs[k].request.FingerprintOf() == f
    {
      if k :| k in w.jobs && Holding(w.jobs[k].phase) && w.jobs[k].request.FingerprintOf() == f {
        assert k in after.jobs && Holding(after.jobs[k].phase) && after.jobs[k].request.FingerprintOf() == f;
      }
    }
  }

  /** A step that neither claims nor releases a fingerprint. */
  lemma StepKeepsSingleFlight(settings: Settings, w: World, move: Move)
    requires SingleFlight(w) && InPhase(w, move)
    requires !move.Pass? && !move.Arrive? && !move.Begin? && !move.Release?
    ensures SingleFlight(Take(settings, w, move))
  {
    hide SingleFlight, CheckLeft, GetFrom, CheckPruned, Route, Pricing.Project, Pricing.Estimate, Store, PutInto;
    SameHolding(w, Take(settings, w, move), move.id);
  }

  lemma MoveKeepsSingleFlight(settings: Settings, w: World, move: Move)
    requires SingleFlight(w) && InPhase(w, move)
    ensures SingleFlight(Take(settings, w, move))
  {
    hide SingleFlight, Clearance, CheckLeft, GetFrom, Pricing.Estimate, Store, PutInto;
    match move
    case Pass(now) => SamePlace(w, w.(now := now));
    case Arrive(id, request) => ArriveKeepsSingleFlight(w, id, request);
    case Begin(id) => BeginKeepsSingleFlight(settings, w, id);
    case Release(id) => ReleaseKeepsSingleFlight(settings, w, id);
    case _ => StepKeepsSingleFlight(settings, w, move);
  }

  lemma SamePlace(w: World, after: World)
    requires SingleFlight(w) && after.jobs == w.jobs && after.inFlight == w.inFlight
    ensures SingleFlight(after)
  {
  }

  // ----- whole runs -----

  function TakeAll(settings: Settings, w: World, moves: seq<Move>): World
    decreases moves
  {
    if moves == [] || !InPhase(w, moves[0]) then w else TakeAll(settings, Take(settings, w, moves[0]), moves[1..])
  }

  lemma {:induction false} RunKeepsSingleFlight(settings: Settings, w: World, moves: seq<Move>)
    requires SingleFlight(w)
    ensures SingleFlight(TakeAll(settings, w, moves))
    decreases moves
  {
    hide SingleFlight, Take;
    if moves != [] && InPhase(w, moves[0]) {
      MoveKeepsSingleFlight(settings, w, moves[0]);
      RunKeepsSingleFlight(settings, Take(settings, w, moves[0]), moves[1..]);
    }
  }

  /** Single flight, over every interleaving: two requests that are with a provider at the same time ask
      different questions; the in-flight set is exactly what is held; and once every request has finished,
      however it finished, nothing is left claimed. */
  lemma OneProviderCallPerQuestion(settings: Settings, moves: seq<Move>)
    ensures var w := TakeAll(settings, EMPTY, moves);
      && (forall a, b | a in w.jobs && b in w.jobs && w.jobs[a].phase.Calling? && w.jobs[b].phase.Calling? && a != b ::
            !SameQuestion(w.jobs[a].request, w.jobs[b].request))
      && SingleFlight(w)
      && ((forall id | id in w.jobs :: w.jobs[id].phase.Finished?) ==> w.inFlight == {})
  {
    hide TakeAll, Request.FingerprintOf;
    forall a: Request, b: Request ensures a.FingerprintOf() == b.FingerprintOf() <==> SameQuestion(a, b) {
      FingerprintsTellQuestionsApart(a, b);
    }
    RunKeepsSingleFlight(settings, EMPTY, moves);
  }

  // ----- what is served from the cache -----

  /** Every stored answer succeeded, and what the cache holds for a question is the latest put for it. */
  ghost predicate HonestCache(w: World) {
    (forall i | 0 <= i < |w.puts| :: w.puts[i].entry.response.success) && FromLog(w.entries, w.puts)
  }

  lemma MoveKeepsHonestCache(settings: Settings, w: World, move: Move)
    requires HonestCache(w) && InPhase(w, move)
    ensures HonestCache(Take(settings, w, move))
  {
    hide CheckLeft, CheckPruned, Route, Pricing.Project, Pricing.Estimate, Store, PutInto, GetFrom, LastPut;
    if move.StoreAnswer? {
      var job := w.jobs[move.id];
      var fingerprint, ttl := job.request.FingerprintOf(), TaskTtl(job.request.task);
      PutIsLogged(w.entries, w.puts, fingerprint, job.phase.response, ttl, w.now, job.stamp.value);
      StoreAppends(w.puts, fingerprint, job.phase.response, ttl, job.stamp.value);
    }
    if move.LookUp? {
      FoundIsLatestAndAlive(w.entries, w.puts, w.jobs[move.id].request.FingerprintOf(), w.jobs[move.id].stamp.value);
    }
  }

  lemma StoreAppends(puts: seq<Put>, fingerprint: Fingerprint, response: Response, ttlSeconds: int, now: int)
    ensures puts <= Store(puts, fingerprint, response, ttlSeconds, now)
    ensures forall i | |puts| <= i < |Store(puts, fingerprint, response, ttlSeconds, now)| ::
              Store(puts, fingerprint, response, ttlSeconds, now)[i].entry.response.success
  {
  }

  lemma {:induction false} RunKeepsHonestCache(settings: Settings, w: World, moves: seq<Move>)
    requires HonestCache(w)
    ensures HonestCache(TakeAll(settings, w, moves))
    decreases moves
  {
    hide HonestCache, Take;
    if moves != [] && InPhase(w, moves[0]) {
      MoveKeepsHonestCache(settings, w, moves[0]);
      RunKeepsHonestCache(settings, Take(settings, w, moves[0]), moves[1..]);
    }
  }

  /** After any interleaving, whatever a look-up serves is a success, is the latest answer put for that very
      question, and was alive at the clock reading the look-up was made with. */
  lemma ServedAnswersWereGiven(settings: Settings, moves: seq<Move>, id: int)
    requires InPhase(TakeAll(settings, EMPTY, moves), LookUp(id))
    ensures var w := TakeAll(settings, EMPTY, moves);
      var job, after := w.jobs[id], Take(settings, w, LookUp(id)).jobs[id].phase;
      after.Finished? ==>
        && after.served.Some? && after.served.value.success
        && exists i :: LatestFor(w.puts, job.request.FingerprintOf(), i)
                       && w.puts[i].entry.response == after.served.value && job.stamp.value < w.puts[i].entry.expiresAt
  {
    hide TakeAll, LatestFor, LastPut;
    NothingCached();
    RunKeepsHonestCache(settings, EMPTY, moves);
    var w := TakeAll(settings, EMPTY, moves);
    FoundIsLatestAndAlive(w.entries, w.puts, w.jobs[id].request.FingerprintOf(), w.jobs[id].stamp.value);
    assert forall i | LatestFor(w.puts, w.jobs[id].request.FingerprintOf(), i) :: w.puts[i].entry.response.success by {
      LatestIsPut(w.puts, w.jobs[id].request.FingerprintOf());
    }
  }

  lemma LatestIsPut(puts: seq<Put>, fingerprint: Fingerprint)
    ensures forall i | LatestFor(puts, fingerprint, i) :: 0 <= i < |puts|
  {
  }

  lemma NothingCached()
    ensures HonestCache(EMPTY)
  {
  }
}
