/** The sliding-window rate limiter (ai/governance.py). */
module RateLimiter {
  import opened Wrappers
  import opened AiTypes
  import opened Windows

  datatype RateLimits = RateLimits(perMinute: int, perHour: int)

  /** Allowed, or refused with the wait that is suggested to the caller. */
  datatype RateVerdict = RateVerdict(allowed: bool, retryAfter: Option<int>)

  const ALLOWED := RateVerdict(true, None)

  /** The hits at or after an instant. */
  function Since(log: seq<int>, cutoff: int): seq<int> {
    if log == [] then [] else
      var front, last := log[..|log| - 1], log[|log| - 1];
      if last >= cutoff then Since(front, cutoff) + [last] else Since(front, cutoff)
  }

  const HUNDREDTH := 10000

  /** A span of ticks rounded to hundredths of a second, ties to the even hundredth. */
  function ToHundredths(ticks: int): int {
    var down, rest := ticks / HUNDREDTH, ticks % HUNDREDTH;
    HUNDREDTH * (if 2 * rest < HUNDREDTH || (2 * rest == HUNDREDTH && down % 2 == 0) then down else down + 1)
  }

  /** The printed wait until an instant. */
  function Wait(oldest: int, width: int, now: int): int {
    var wait := ToHundredths(oldest + width - now);
    if wait < 0 then 0 else wait
  }

  /** The limiter's rule over the hits it is shown, given those of the last hour. */
  function Verdict(limits: RateLimits, hourly: seq<int>, recent: seq<int>, now: int): RateVerdict {
    if limits.perMinute <= 0 && limits.perHour <= 0 then ALLOWED
    else if 0 < limits.perHour <= |hourly| then RateVerdict(false, Some(Wait(hourly[0], HOUR, now)))
    else if 0 < limits.perMinute <= |recent| then RateVerdict(false, Some(Wait(recent[0], MINUTE, now)))
    else ALLOWED
  }

  /** The verdict over everything ever recorded for a key. */
  function CheckRate(limits: RateLimits, log: seq<int>, now: int): RateVerdict {
    Verdict(limits, Since(log, now - HOUR), Since(log, now - MINUTE), now)
  }

  // ----- what pruning leaves -----

  /** The deque of a key: its log without the first `popped` hits. */
  function Left(log: seq<int>, popped: nat): seq<int> {
    if popped <= |log| then log[popped..] else []
  }

  function PoppedHits(log: seq<int>, popped: nat, cutoff: int): nat
    decreases |log| - popped
  {
    if popped < |log| && log[popped] < cutoff then PoppedHits(log, popped + 1, cutoff) else popped
  }

  /** The check as the limiter makes it: the verdict, and what it has popped by then. */
  function CheckLeft(limits: RateLimits, log: seq<int>, popped: nat, now: int): (RateVerdict, nat) {
    if limits.perMinute <= 0 && limits.perHour <= 0 then (ALLOWED, popped)
    else
      var after := PoppedHits(log, popped, now - HOUR);
      (Verdict(limits, Left(log, after), Since(Left(log, after), now - MINUTE), now), after)
  }

  ghost predicate InOrder(log: seq<int>, now: int) {
    && (forall i, j | 0 <= i <= j < |log| :: log[i] <= log[j])
    && (forall i | 0 <= i < |log| :: log[i] <= now)
  }

  lemma {:induction false} SinceSince(log: seq<int>, earlier: int, cutoff: int)
    requires earlier <= cutoff
    ensures Since(Since(log, earlier), cutoff) == Since(log, cutoff)
  {
    if log != [] {
      var front, last := log[..|log| - 1], log[|log| - 1];
      SinceSince(front, earlier, cutoff);
      if last >= earlier {
        SinceSnoc(Since(front, earlier), last, cutoff);
      }
    }
  }

  lemma SinceSnoc(log: seq<int>, hit: int, cutoff: int)
    ensures Since(log + [hit], cutoff) == if hit >= cutoff then Since(log, cutoff) + [hit] else Since(log, cutoff)
  {
    assert (log + [hit])[..|log|] == log;
  }

  lemma {:induction false} PoppedHitsShape(log: seq<int>, popped: nat, cutoff: int)
    requires popped <= |log|
    ensures var after := PoppedHits(log, popped, cutoff);
      && popped <= after <= |log|
      && (forall i | popped <= i < after :: log[i] < cutoff)
      && (after < |log| ==> log[after] >= cutoff)
    decreases |log| - popped
  {
    if popped < |log| && log[popped] < cutoff {
      PoppedHitsShape(log, popped + 1, cutoff);
    }
  }

  /** In order, and nothing of the last hour has been popped. */
  ghost predicate OnTime(log: seq<int>, popped: nat, latest: int) {
    InOrder(log, latest) && popped <= |log| && forall i | 0 <= i < popped :: log[i] < latest - HOUR
  }

  /** A hit recorded with a reading in order is in order, for its own key and beside every other. */
  lemma RecordedOnTime(log: seq<int>, popped: nat, latest: int, now: int)
    requires OnTime(log, popped, latest) && latest <= now
    ensures OnTime(log, popped, now) && OnTime(log + [now], popped, now)
  {
  }

  lemma {:induction false} SinceIsTail(log: seq<int>, cut: nat, cutoff: int)
    requires cut <= |log|
    requires (forall i | 0 <= i < cut :: log[i] < cutoff) && forall i | cut <= i < |log| :: log[i] >= cutoff
    ensures Since(log, cutoff) == log[cut..]
  {
    if log != [] {
      var front := log[..|log| - 1];
      SinceIsTail(front, if cut == |log| then |front| else cut, cutoff);
      if cut < |log| {
        assert log[cut..] == front[cut..] + [log[|log| - 1]];
      }
    }
  }

  /** While clock readings arrive in order, forgetting changes no verdict. */
  lemma LeftCheckIsExact(limits: RateLimits, log: seq<int>, popped: nat, latest: int, now: int)
    requires OnTime(log, popped, latest) && latest <= now
    ensures var (verdict, after) := CheckLeft(limits, log, popped, now);
      verdict == CheckRate(limits, log, now) && OnTime(log, after, now)
  {
    hide Since;
    if limits.perMinute > 0 || limits.perHour > 0 {
      PoppedHitsShape(log, popped, now - HOUR);
      var after := PoppedHits(log, popped, now - HOUR);
      SinceIsTail(log, after, now - HOUR);
      SinceSince(log, now - HOUR, now - MINUTE);
    }
  }

  /** Keys are (principal, task) pairs; the limiter only compares them. */
  class Limiter<Key(==,!new)> {
    const limits: RateLimits
    var hits: map<Key, seq<int>>
    ghost var log: map<Key, seq<int>>
    ghost var popped: map<Key, nat>

    ghost function LogOf(key: Key): seq<int>
      reads this
    {
      if key in log then log[key] else []
    }

    ghost function PoppedOf(key: Key): nat
      reads this
    {
      if key in popped then popped[key] else 0
    }

    /** What is left of a key's hits is the tail of everything ever recorded for it. */
    ghost predicate Valid()
      reads this
    {
      && hits.Keys == popped.Keys && log.Keys <= hits.Keys
      && forall key | key in hits :: PoppedOf(key) <= |LogOf(key)| && hits[key] == LogOf(key)[PoppedOf(key)..]
    }

    constructor (limits: RateLimits)
      ensures Valid() && this.limits == limits && log == map[] && popped == map[]
    {
      this.limits := limits;
      hits, log, popped := map[], map[], map[];
    }

    /** Drops a key's hits older than the cutoff from its deque. */
    method Prune(key: Key, cutoff: int) returns (queue: seq<int>)
      requires Valid()
      modifies this`hits, this`popped
      ensures Valid() && key in popped && popped == old(popped)[key := popped[key]]
      ensures PoppedOf(key) == PoppedHits(LogOf(key), old(PoppedOf(key)), cutoff)
      ensures queue == Left(LogOf(key), PoppedOf(key))
    {
      hide PoppedHits;
      ghost var count;
      queue, count := PopExpired(if key in hits then hits[key] else [], cutoff, LogOf(key), PoppedOf(key));
      hits, popped := hits[key := queue], popped[key := count];
    }

    /** The verdict and the popping of the specification, whatever order the clock readings come in. */
    method Check(key: Key, now: int) returns (verdict: RateVerdict)
      requires Valid()
      modifies this`hits, this`popped
      ensures Valid()
      ensures (verdict, PoppedOf(key)) == CheckLeft(limits, LogOf(key), old(PoppedOf(key)), now)
      ensures forall other | other != key :: PoppedOf(other) == old(PoppedOf(other))
    {
      hide Since, Wait, PoppedHits, Left, Limiter.Valid;
      if limits.perMinute <= 0 && limits.perHour <= 0 {
        return ALLOWED;
      }
      var queue := Prune(key, now - HOUR);
      if 0 < limits.perHour <= |queue| {
        return RateVerdict(false, Some(Wait(queue[0], HOUR, now)));
      }
      var recent := Since(queue, now - MINUTE);
      if 0 < limits.perMinute <= |recent| {
        return RateVerdict(false, Some(Wait(recent[0], MINUTE, now)));
      }
      return ALLOWED;
    }

    /** Pops hits off the front while they are older than the cutoff. */
    static method PopExpired(queue: seq<int>, cutoff: int, ghost log: seq<int>, ghost from: nat)
      returns (left: seq<int>, ghost count: nat)
      requires from <= |log| && queue == log[from..]
      ensures count == PoppedHits(log, from, cutoff) <= |log| && left == log[count..]
    {
      left, count := queue, from;
      while left != [] && left[0] < cutoff
        invariant count <= |log| && left == log[count..]
        invariant PoppedHits(log, count, cutoff) == PoppedHits(log, from, cutoff)
        decreases |left|
      {
        assert left[0] == log[count];
        left, count := left[1..], count + 1;
      }
      if count < |log| {
        assert left[0] == log[count];
      }
    }

    method Record(key: Key, now: int)
      requires Valid()
      modifies this
      ensures Valid() && log == old(log[key := LogOf(key) + [now]])
      ensures forall other :: PoppedOf(other) == old(PoppedOf(other))
    {
      var queue := if key in hits then hits[key] else [];
      ghost var all, count := LogOf(key), PoppedOf(key);
      assert count <= |all| && queue == all[count..];
      assert queue + [now] == (all + [now])[count..];
      hits, log, popped := hits[key := queue + [now]], log[key := LogOf(key) + [now]], popped[key := count];
    }
  }

  // ----- the limiter as an instance of the windowed protocol -----

  function Ones(log: seq<int>): seq<Entry> {
    seq(|log|, i requires 0 <= i < |log| => Entry(log[i], 1.0))
  }

  lemma {:induction false} CountIsSpend(log: seq<int>, width: nat, now: int)
    requires InOrder(log, now)
    ensures |Since(log, now - width)| as real == Spend(Trailing(width), Ones(log), now)
  {
    if log != [] {
      var front, last := log[..|log| - 1], log[|log| - 1];
      CountIsSpend(front, width, now);
      assert Ones(log) == Ones(front) + [Entry(last, 1.0)];
      SpendSnoc(Trailing(width), Ones(front), Entry(last, 1.0), now);
    }
  }

  /** A request is admitted exactly when one more hit would still fit both windows. */
  lemma AdmittedMeansRoomInBothWindows(limits: RateLimits, log: seq<int>, now: int)
    requires InOrder(log, now)
    ensures CheckRate(limits, log, now).allowed <==>
            && (limits.perHour > 0 ==> Spend(Trailing(3600 * 1000000), Ones(log), now) + 1.0 <= limits.perHour as real)
            && (limits.perMinute > 0 ==>
                 Spend(Trailing(60 * 1000000), Ones(log), now) + 1.0 <= limits.perMinute as real)
  {
    CountIsSpend(log, HOUR, now);
    CountIsSpend(log, MINUTE, now);
  }

  // ----- retrying -----

  /** A window of this width still holds `limit` hits at an instant: the limit-th latest is inside it. */
  predicate FullAt(log: seq<int>, limit: int, width: int, at: int) {
    0 < limit <= |log| && log[|log| - limit] + width >= at
  }

  lemma {:induction false} FullMeans(log: seq<int>, limit: int, width: int, now: int)
    requires InOrder(log, now) && limit > 0
    ensures FullAt(log, limit, width, now) <==> limit <= |Since(log, now - width)|
    ensures |Since(log, now - width)| <= |log|
    ensures |Since(log, now - width)| == limit ==> Since(log, now - width)[0] == log[|log| - limit]
  {
    var cut := FirstInside(log, now - width, now);
    SinceIsTail(log, cut, now - width);
  }

  lemma {:induction false} FirstInside(log: seq<int>, cutoff: int, now: int) returns (cut: nat)
    requires InOrder(log, now)
    ensures cut <= |log|
    ensures (forall i | 0 <= i < cut :: log[i] < cutoff) && forall i | cut <= i < |log| :: log[i] >= cutoff
  {
    cut := 0;
    while cut < |log| && log[cut] < cutoff
      invariant cut <= |log| && forall i | 0 <= i < cut :: log[i] < cutoff
    {
      cut := cut + 1;
    }
  }

  /** When a retry is admitted, if nobody else is: exactly when each enabled window has let go of its
      limit-th latest hit, which stays until it is more than the window's width old. */
  lemma RetryIsAdmittedExactly(limits: RateLimits, log: seq<int>, now: int, at: int)
    requires InOrder(log, now) && now <= at
    ensures CheckRate(limits, log, at).allowed <==>
            !FullAt(log, limits.perHour, HOUR, at) && !FullAt(log, limits.perMinute, MINUTE, at)
  {
    assert InOrder(log, at);
    if limits.perHour > 0 { FullMeans(log, limits.perHour, HOUR, at); }
    if limits.perMinute > 0 { FullMeans(log, limits.perMinute, MINUTE, at); }
  }

  /** Neither window holds more than its limit. Overlapping requests can fill one further. */
  ghost predicate NotOverrun(limits: RateLimits, log: seq<int>, now: int) {
    && (limits.perHour > 0 ==> |Since(log, now - HOUR)| <= limits.perHour)
    && (limits.perMinute > 0 ==> |Since(log, now - MINUTE)| <= limits.perMinute)
  }

  /** The refusing window is the hour if the hour is full, and the minute otherwise. */
  predicate HourRefuses(limits: RateLimits, log: seq<int>, now: int) {
    0 < limits.perHour <= |Since(log, now - HOUR)|
  }

  /** The wait that is measured, in ticks: until the refusing window's oldest hit is as old as the window is
      wide. */
  function MeasuredWait(limits: RateLimits, log: seq<int>, now: int): int
    requires !CheckRate(limits, log, now).allowed
  {
    if HourRefuses(limits, log, now) then Since(log, now - HOUR)[0] + HOUR - now
    else Since(log, now - MINUTE)[0] + MINUTE - now
  }

  /** How long the refusing window really stays full, in ticks: until its limit-th latest hit is that old. */
  function TrueWait(limits: RateLimits, log: seq<int>, now: int): int
    requires InOrder(log, now) && !CheckRate(limits, log, now).allowed
  {
    RefusedIsFull(limits, log, now);
    if HourRefuses(limits, log, now) then log[|log| - limits.perHour] + HOUR - now
    else log[|log| - limits.perMinute] + MINUTE - now
  }

  lemma RefusedIsFull(limits: RateLimits, log: seq<int>, now: int)
    requires InOrder(log, now) && !CheckRate(limits, log, now).allowed
    ensures HourRefuses(limits, log, now) ==> FullAt(log, limits.perHour, HOUR, now)
    ensures !HourRefuses(limits, log, now) ==> FullAt(log, limits.perMinute, MINUTE, now)
  {
    hide Since;
    if limits.perHour > 0 { FullMeans(log, limits.perHour, HOUR, now); }
    if limits.perMinute > 0 { FullMeans(log, limits.perMinute, MINUTE, now); }
  }

  /** The other window lets the retry through. */
  predicate OtherWindowOpen(limits: RateLimits, log: seq<int>, now: int, at: int) {
    if HourRefuses(limits, log, now) then !FullAt(log, limits.perMinute, MINUTE, at)
    else !FullAt(log, limits.perHour, HOUR, at)
  }

  /** The oldest hit of a full window comes no later than its limit-th latest; they are one unless it is
      overrun. */
  lemma OldestAndLimitth(log: seq<int>, limit: int, width: int, now: int)
    requires InOrder(log, now) && FullAt(log, limit, width, now)
    ensures var inside := Since(log, now - width);
      && inside != [] && inside[0] <= log[|log| - limit]
      && (|inside| == limit ==> inside[0] == log[|log| - limit])
  {
    var cut := FirstInside(log, now - width, now);
    SinceIsTail(log, cut, now - width);
  }

  /** What the printed wait is worth, overrun or not. It is the measured wait rounded to hundredths. The windows
      are closed, so a slot is free one tick after the true wait and not before. A caller who retries exactly
      when told to is therefore refused precisely when the printed wait is no longer than the true one, or
      when the other window is full by then. The measured wait is never too long, and it is the true one while
      no window is overrun; then what decides is whether the wait was rounded up. */
  lemma PrintedWaitFallsShortExactly(limits: RateLimits, log: seq<int>, now: int)
    requires InOrder(log, now) && !CheckRate(limits, log, now).allowed
    ensures var measured, wait := MeasuredWait(limits, log, now), TrueWait(limits, log, now);
      var printed := CheckRate(limits, log, now).retryAfter.value;
      && 0 <= measured <= wait && printed == ToHundredths(measured)
      && -HUNDREDTH <= 2 * (printed - measured) <= HUNDREDTH
      && (!CheckRate(limits, log, now + printed).allowed <==>
            printed <= wait || !OtherWindowOpen(limits, log, now, now + printed))
      && (NotOverrun(limits, log, now) ==> measured == wait)
      && (printed <= measured <==> 2 * (measured % HUNDREDTH) < HUNDREDTH
                                   || (2 * (measured % HUNDREDTH) == HUNDREDTH && measured / HUNDREDTH % 2 == 0))
      && !CheckRate(limits, log, now + wait).allowed
      && (CheckRate(limits, log, now + wait + 1).allowed <==> OtherWindowOpen(limits, log, now, now + wait + 1))
  {
    hide Since, ToHundredths;
    var measured, wait := MeasuredWait(limits, log, now), TrueWait(limits, log, now);
    RoundedNear(measured);
    SinceInside(log, now - HOUR);
    SinceInside(log, now - MINUTE);
    RefusedIsFull(limits, log, now);
    if HourRefuses(limits, log, now) {
      OldestAndLimitth(log, limits.perHour, HOUR, now);
    } else {
      OldestAndLimitth(log, limits.perMinute, MINUTE, now);
    }
    var printed := CheckRate(limits, log, now).retryAfter.value;
    RetryIsAdmittedExactly(limits, log, now, now + printed);
    RetryIsAdmittedExactly(limits, log, now, now + wait);
    RetryIsAdmittedExactly(limits, log, now, now + wait + 1);
  }

  lemma RoundedNear(ticks: int)
    ensures -HUNDREDTH <= 2 * (ToHundredths(ticks) - ticks) <= HUNDREDTH
    ensures ticks >= 0 ==> ToHundredths(ticks) >= 0
    ensures ToHundredths(ticks) <= ticks <==>
            2 * (ticks % HUNDREDTH) < HUNDREDTH || (2 * (ticks % HUNDREDTH) == HUNDREDTH && ticks / HUNDREDTH % 2 == 0)
  {
  }

  lemma {:induction false} SinceInside(log: seq<int>, cutoff: int)
    ensures forall i | 0 <= i < |Since(log, cutoff)| :: Since(log, cutoff)[i] >= cutoff
  {
    if log != [] {
      SinceInside(log[..|log| - 1], cutoff);
    }
  }

  /** Both happen: one request a minute, refused at once, is told to wait sixty seconds and refused again;
      refused after 47.654322 seconds, it is told 12.35 for 12.345678 and admitted. */
  lemma PrintedWaitsGoBothWays()
    ensures var limits := RateLimits(1, 0);
      && CheckRate(limits, [0], 0) == RateVerdict(false, Some(60 * SECOND))
      && !CheckRate(limits, [0], 60 * SECOND).allowed
      && CheckRate(limits, [0], 47654322) == RateVerdict(false, Some(12350000))
      && CheckRate(limits, [0], 47654322 + 12350000).allowed
  {
    forall cutoff ensures Since([0], cutoff) == if 0 >= cutoff then [0] else [] {
      SinceSnoc([], 0, cutoff);
      assert [] + [0] == [0];
    }
    hide Since;
    assert Wait(0, MINUTE, 47654322) == 12350000;
    assert Wait(0, MINUTE, 0) == 60 * SECOND;
  }

  /** In an overrun window the printed wait can fall short by nearly the whole window: of two hits in a minute
      meant for one, the first decides what is printed and the second how long the window stays full. */
  lemma OverrunWaitsAreTooShort()
    ensures var limits, log, now := RateLimits(1, 0), [0, 59 * SECOND], 59 * SECOND;
      && InOrder(log, now) && !NotOverrun(limits, log, now)
      && CheckRate(limits, log, now) == RateVerdict(false, Some(SECOND)) && TrueWait(limits, log, now) == MINUTE
      && !CheckRate(limits, log, now + SECOND).allowed && !CheckRate(limits, log, now + MINUTE).allowed
      && CheckRate(limits, log, now + MINUTE + 1).allowed
  {
    var log, now := [0, 59 * SECOND], 59 * SECOND;
    hide Since;
    TwoHits(now - HOUR);
    TwoHits(now - MINUTE);
    TwoHits(now + SECOND - MINUTE);
    TwoHits(now);
    TwoHits(now + 1);
    assert Wait(0, MINUTE, now) == SECOND;
  }

  lemma TwoHits(cutoff: int)
    ensures Since([0, 59 * SECOND], cutoff) ==
            (if 0 >= cutoff then [0] else []) + (if 59 * SECOND >= cutoff then [59 * SECOND] else [])
  {
    SinceSnoc([], 0, cutoff);
    SinceSnoc([0], 59 * SECOND, cutoff);
    assert [] + [0] == [0] && [0] + [59 * SECOND] == [0, 59 * SECOND];
  }
}
