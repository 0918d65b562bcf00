/** Spending inside a time window, and what concurrent check-then-record can do to its ceiling
    (ai/governance.py). The same theory serves budgets (amounts of money) and rate limits (amount 1). */
module Windows {
  import opened Wrappers
  import opened Rounding
  import opened Ordering

  /** A trailing window of fixed width, closed at both ends; or a calendar month, given as any
      non-decreasing numbering of instants by year and month. */
  datatype Span = Trailing(width: nat) | CalendarMonth(monthOf: int -> int)

  ghost predicate WellFormed(span: Span) {
    span.CalendarMonth? ==> forall a, b :: a <= b ==> span.monthOf(a) <= span.monthOf(b)
  }

  predicate Inside(span: Span, at: int, now: int) {
    match span
    case Trailing(width) => at >= now - width
    case CalendarMonth(monthOf) => monthOf(at) == monthOf(now)
  }

  datatype Entry = Entry(at: int, amount: real)

  function Total(log: seq<Entry>): real {
    if log == [] then 0.0 else Total(log[..|log| - 1]) + log[|log| - 1].amount
  }

  /** The definition the pruned deques are measured against: everything ever recorded, filtered by the
      window that ends now. */
  function Spend(span: Span, log: seq<Entry>, now: int): real {
    if log == [] then 0.0 else
      var last := log[|log| - 1];
      Spend(span, log[..|log| - 1], now) + if last.at <= now && Inside(span, last.at, now) then last.amount else 0.0
  }

  ghost predicate Chronological(log: seq<Entry>, now: int) {
    && (forall i, j | 0 <= i <= j < |log| :: log[i].at <= log[j].at)
    && (forall i | 0 <= i < |log| :: log[i].at <= now)
  }

  ghost predicate NonNegative(log: seq<Entry>) {
    forall i | 0 <= i < |log| :: log[i].amount >= 0.0
  }

  /** A window only ever loses its oldest entries as time passes. */
  lemma InsideShrinks(span: Span, at: int, later: int, now: int, last: int)
    requires WellFormed(span) && at <= later <= now <= last && Inside(span, at, last)
    ensures Inside(span, later, now) && Inside(span, later, last)
  {
  }

  /** Stamped no later than now; the order of the log is not assumed. */
  ghost predicate NotLater(log: seq<Entry>, now: int) {
    forall i | 0 <= i < |log| :: log[i].at <= now
  }

  lemma SpendSnoc(span: Span, log: seq<Entry>, entry: Entry, now: int)
    ensures Spend(span, log + [entry], now) ==
            Spend(span, log, now) + if entry.at <= now && Inside(span, entry.at, now) then entry.amount else 0.0
    ensures Total(log + [entry]) == Total(log) + entry.amount
  {
    assert (log + [entry])[..|log|] == log;
  }

  lemma {:induction false} SpendSigns(span: Span, log: seq<Entry>, now: int)
    requires NonNegative(log)
    ensures Spend(span, log, now) >= 0.0
  {
    if log != [] {
      SpendSigns(span, log[..|log| - 1], now);
    }
  }

  /** A window that ends later counts no more of what is already recorded. */
  lemma {:induction false} SpendShrinks(span: Span, log: seq<Entry>, now: int, end: int)
    requires WellFormed(span) && NotLater(log, now) && NonNegative(log) && now <= end
    ensures Spend(span, log, end) <= Spend(span, log, now)
  {
    if log != [] {
      var last := log[|log| - 1];
      SpendShrinks(span, log[..|log| - 1], now, end);
      if Inside(span, last.at, end) {
        InsideShrinks(span, last.at, last.at, now, end);
      }
    }
  }

  // ----- check-then-record as a concurrent protocol -----

  /** What a request may still record, and the clock reading it will record it with, once it has one. */
  datatype Hold = Hold(amount: real, stamp: Option<int>)

  /** Recorded entries in the order they were recorded, and the requests that have passed the check and not
      yet recorded or given up. */
  datatype Pool = Pool(log: seq<Entry>, held: map<int, Hold>, now: int)

  /** A clock is read before the lock is taken, so reading it and recording with it are separate events. */
  datatype Event =
    | Tick(now: int)
    | Admit(id: int, amount: real)
    | ReadClock(id: int)
    | Record(id: int, actual: real)
    | GiveUp(id: int)

  /** Terms of use: at most `capacity` requests between check and record at once, none of them for more
      than `largest`. */
  datatype Terms = Terms(span: Span, limit: real, capacity: nat, largest: real)

  ghost predicate ValidTerms(terms: Terms) {
    WellFormed(terms.span) && terms.limit >= 0.0 && terms.capacity >= 1 && terms.largest >= 0.0
  }

  /** What the check relies on: everything recorded in the window that contains this instant. */
  predicate Enabled(terms: Terms, pool: Pool, event: Event) {
    match event
    case Tick(now) => now >= pool.now
    case Admit(id, amount) =>
      && id !in pool.held && |pool.held| < terms.capacity
      && 0.0 <= amount <= terms.largest
      && Spend(terms.span, pool.log, pool.now) + amount <= terms.limit
    case ReadClock(id) => id in pool.held && pool.held[id].stamp.None?
    case Record(id, actual) => id in pool.held && pool.held[id].stamp.Some? && 0.0 <= actual <= pool.held[id].amount
    case GiveUp(id) => id in pool.held
  }

  function Apply(terms: Terms, pool: Pool, event: Event): Pool
    requires Enabled(terms, pool, event)
  {
    match event
    case Tick(now) => pool.(now := now)
    case Admit(id, amount) => pool.(held := pool.held[id := Hold(amount, None)])
    case ReadClock(id) => pool.(held := pool.held[id := pool.held[id].(stamp := Some(pool.now))])
    case Record(id, actual) =>
      pool.(log := pool.log + [Entry(pool.held[id].stamp.value, actual)], held := pool.held - {id})
    case GiveUp(id) => pool.(held := pool.held - {id})
  }

  /** The earliest instant a held amount can still be recorded at. */
  function Earliest(hold: Hold, now: int): int {
    if hold.stamp.Some? then hold.stamp.value else now
  }

  ghost function HeldAmount(held: map<int, Hold>, now: int, end: int): int -> real {
    id => if id in held && Earliest(held[id], now) <= end then held[id].amount else 0.0
  }

  /** What may still be recorded at or before an instant. */
  ghost function HeldBy(held: map<int, Hold>, now: int, end: int): real {
    SumOver(held.Keys, HeldAmount(held, now, end))
  }

  function Ceiling(terms: Terms): real {
    terms.limit + Times((terms.capacity - 1) as real, terms.largest)
  }

  /** Every window, past and to come, keeps to the ceiling together with all that may still land in it. */
  ghost predicate Within(terms: Terms, pool: Pool) {
    && NotLater(pool.log, pool.now) && NonNegative(pool.log)
    && (forall id | id in pool.held ::
          0.0 <= pool.held[id].amount <= terms.largest && Earliest(pool.held[id], pool.now) <= pool.now)
    && (forall end :: Spend(terms.span, pool.log, end) + HeldBy(pool.held, pool.now, end) <= Ceiling(terms))
  }

  lemma {:induction false} SumBounded(keys: set<int>, f: int -> real, largest: real)
    requires forall k | k in keys :: 0.0 <= f(k) <= largest
    ensures 0.0 <= SumOver(keys, f) <= Times(|keys| as real, largest)
  {
    hide Times;
    TimesDistributes(largest, 0.0, 0.0);
    if keys != {} {
      var rest := keys - {Least(keys)};
      SumBounded(rest, f, largest);
      TimesDistributes(|rest| as real, 1.0, largest);
      assert |keys| as real == |rest| as real + 1.0;
    }
  }

  lemma {:induction false} SumBelow(keys: set<int>, f: int -> real, g: int -> real)
    requires forall k | k in keys :: f(k) <= g(k)
    ensures SumOver(keys, f) <= SumOver(keys, g)
  {
    if keys != {} {
      SumBelow(keys - {Least(keys)}, f, g);
    }
  }

  lemma HeldAdd(held: map<int, Hold>, id: int, hold: Hold, now: int, end: int)
    requires id !in held
    ensures HeldBy(held[id := hold], now, end) ==
            HeldBy(held, now, end) + if Earliest(hold, now) <= end then hold.amount else 0.0
  {
    assert held[id := hold].Keys == held.Keys + {id};
    SumChange(held.Keys, HeldAmount(held, now, end), HeldAmount(held[id := hold], now, end), id);
  }

  lemma HeldRemove(held: map<int, Hold>, id: int, now: int, end: int)
    requires id in held
    ensures HeldBy(held - {id}, now, end) ==
            HeldBy(held, now, end) - if Earliest(held[id], now) <= end then held[id].amount else 0.0
  {
    var rest := held - {id};
    assert rest.Keys == held.Keys - {id};
    SumRemove(held.Keys, HeldAmount(held, now, end), id);
    SumAgree(rest.Keys, HeldAmount(held, now, end), HeldAmount(rest, now, end));
  }

  lemma InitialPoolWithin(terms: Terms, now: int)
    requires ValidTerms(terms)
    ensures Within(terms, Pool([], map[], now))
  {
    hide Times;
    TimesSign((terms.capacity - 1) as real, terms.largest);
    assert forall end :: HeldBy(map[], now, end) == 0.0;
  }

  lemma TickKeeps(terms: Terms, pool: Pool, now: int)
    requires Within(terms, pool) && now >= pool.now
    ensures Within(terms, pool.(now := now))
  {
    hide Ceiling, Spend;
    forall end ensures HeldBy(pool.held, now, end) <= HeldBy(pool.held, pool.now, end) {
      SumBelow(pool.held.Keys, HeldAmount(pool.held, now, end), HeldAmount(pool.held, pool.now, end));
    }
  }

  lemma HeldBounded(terms: Terms, pool: Pool, end: int)
    requires Within(terms, pool)
    ensures 0.0 <= HeldBy(pool.held, pool.now, end) <= Times(|pool.held| as real, terms.largest)
  {
    hide Times, Spend, Ceiling;
    assert |pool.held.Keys| == |pool.held|;
    SumBounded(pool.held.Keys, HeldAmount(pool.held, pool.now, end), terms.largest);
  }

  /** Room for one fewer than the capacity, whatever is held. */
  lemma CrowdFits(terms: Terms, crowd: nat)
    requires ValidTerms(terms) && crowd < terms.capacity
    ensures terms.limit + Times(crowd as real, terms.largest) <= Ceiling(terms)
  {
    hide Times;
    var spare := (terms.capacity - 1 - crowd) as real;
    TimesDistributes(crowd as real, spare, terms.largest);
    TimesSign(spare, terms.largest);
  }

  lemma AdmitKeeps(terms: Terms, pool: Pool, id: int, amount: real)
    requires ValidTerms(terms) && Within(terms, pool) && Enabled(terms, pool, Admit(id, amount))
    ensures Within(terms, Apply(terms, pool, Admit(id, amount)))
  {
    hide Times, Spend, HeldBy, Ceiling, WellFormed;
    var after := Apply(terms, pool, Admit(id, amount));
    CrowdFits(terms, |pool.held|);
    forall end ensures Spend(terms.span, pool.log, end) + HeldBy(after.held, pool.now, end) <= Ceiling(terms) {
      HeldAdd(pool.held, id, Hold(amount, None), pool.now, end);
      HeldBounded(terms, pool, end);
      if pool.now <= end {
        SpendShrinks(terms.span, pool.log, pool.now, end);
      }
    }
  }

  lemma ReadKeeps(terms: Terms, pool: Pool, id: int)
    requires Within(terms, pool) && Enabled(terms, pool, ReadClock(id))
    ensures Within(terms, Apply(terms, pool, ReadClock(id)))
  {
    hide Ceiling, Spend;
    var after := Apply(terms, pool, ReadClock(id));
    assert after.held.Keys == pool.held.Keys;
    forall end ensures HeldBy(after.held, pool.now, end) == HeldBy(pool.held, pool.now, end) {
      SumAgree(pool.held.Keys, HeldAmount(pool.held, pool.now, end), HeldAmount(after.held, pool.now, end));
    }
  }

  lemma RecordKeeps(terms: Terms, pool: Pool, id: int, actual: real)
    requires Within(terms, pool) && Enabled(terms, pool, Record(id, actual))
    ensures Within(terms, Apply(terms, pool, Record(id, actual)))
  {
    hide Ceiling, Spend, HeldBy;
    var after := Apply(terms, pool, Record(id, actual));
    forall end ensures Spend(terms.span, after.log, end) + HeldBy(after.held, pool.now, end) <= Ceiling(terms) {
      HeldRemove(pool.held, id, pool.now, end);
      SpendSnoc(terms.span, pool.log, Entry(pool.held[id].stamp.value, actual), end);
    }
  }

  lemma GiveUpKeeps(terms: Terms, pool: Pool, id: int)
    requires Within(terms, pool) && id in pool.held
    ensures Within(terms, pool.(held := pool.held - {id}))
  {
    hide Ceiling, HeldBy, Spend;
    forall end ensures HeldBy(pool.held - {id}, pool.now, end) <= HeldBy(pool.held, pool.now, end) {
      HeldRemove(pool.held, id, pool.now, end);
    }
  }

  lemma EventKeeps(terms: Terms, pool: Pool, event: Event)
    requires ValidTerms(terms) && Within(terms, pool) && Enabled(terms, pool, event)
    ensures Within(terms, Apply(terms, pool, event))
  {
    match event
    case Tick(now) => TickKeeps(terms, pool, now);
    case Admit(id, amount) => AdmitKeeps(terms, pool, id, amount);
    case ReadClock(id) => ReadKeeps(terms, pool, id);
    case Record(id, actual) => RecordKeeps(terms, pool, id, actual);
    case GiveUp(id) => GiveUpKeeps(terms, pool, id);
  }

  /** The invariant at work: nothing recorded exceeds the ceiling, in any window. */
  lemma WithinMeans(terms: Terms, pool: Pool)
    requires Within(terms, pool)
    ensures forall end :: Spend(terms.span, pool.log, end) <= Ceiling(terms)
    ensures terms.capacity == 1 ==> Ceiling(terms) == terms.limit
  {
    hide Times, Spend, HeldBy;
    TimesDistributes(terms.largest, 0.0, 0.0);
    forall end ensures HeldBy(pool.held, pool.now, end) >= 0.0 {
      HeldBounded(terms, pool, end);
    }
  }

  /** A run of the protocol: every event enabled when it happens. */
  ghost predicate IsRun(terms: Terms, pool: Pool, events: seq<Event>)
    decreases events
  {
    events == [] || (Enabled(terms, pool, events[0]) && IsRun(terms, Apply(terms, pool, events[0]), events[1..]))
  }

  function After(terms: Terms, pool: Pool, events: seq<Event>): Pool
    decreases events
  {
    if events == [] || !Enabled(terms, pool, events[0]) then pool
    else After(terms, Apply(terms, pool, events[0]), events[1..])
  }

  /** Over every interleaving of checks, clock readings and records -- the readings as old as one likes when
      they are recorded with -- no window, past, present or future, ever counts more than
      limit + (capacity - 1) * largest. With one request at a time that is the limit itself. */
  lemma {:induction false} NoWindowExceedsCeiling(terms: Terms, pool: Pool, events: seq<Event>)
    requires ValidTerms(terms) && Within(terms, pool) && IsRun(terms, pool, events)
    ensures Within(terms, After(terms, pool, events))
    ensures forall end :: Spend(terms.span, After(terms, pool, events).log, end) <= Ceiling(terms)
    ensures terms.capacity == 1 ==> Ceiling(terms) == terms.limit
    decreases events
  {
    hide Within, Apply, Enabled, Ceiling;
    if events != [] {
      EventKeeps(terms, pool, events[0]);
      NoWindowExceedsCeiling(terms, Apply(terms, pool, events[0]), events[1..]);
    } else {
      WithinMeans(terms, pool);
    }
  }
}
