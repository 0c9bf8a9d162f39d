/**
 Calendar arithmetic of backend/app/services/google_calendar.py: wall-clock slots through a zone with a
 daylight-saving transition.  All times are whole seconds; a local time is the wall clock read as if it
 were UTC.
 */
module FreeSlots {
  import opened Common

  const SLOT_STEP := 1800

  // ---- Zones -----------------------------------------------------------------------------

  /** One transition: `before` and `after` are UTC offsets, `at` is the instant they change. */
  datatype Zone = Zone(before: int, at: int, after: int)

  function ToLocal(z: Zone, utc: int): int {
    if utc < z.at then utc + z.before else utc + z.after
  }

  /** `fold=0` conversion (PEP 495): the old offset rules until the later of the two wall-clock readings of the change. */
  function ToUtc(z: Zone, local: int): int {
    if local < z.at + Max(z.before, z.after) then local - z.before else local - z.after
  }

  /** The round-trip test of `_compute_free_slots`. */
  predicate RoundTrips(z: Zone, local: int) {
    ToLocal(z, ToUtc(z, local)) == local
  }

  /** Some instant shows this wall-clock time. */
  ghost predicate Exists(z: Zone, local: int) {
    exists utc :: ToLocal(z, utc) == local
  }

  predicate InGap(z: Zone, local: int) {
    z.at + z.before <= local < z.at + z.after
  }

  /**
   The round-trip test accepts exactly the wall-clock times that some instant shows, it rejects exactly
   the spring-forward gap, and the conversion picks the earliest instant that shows the time.
   */
  lemma RoundTripIsExistence(z: Zone, local: int)
    ensures RoundTrips(z, local) <==> Exists(z, local)
    ensures RoundTrips(z, local) <==> !InGap(z, local)
    ensures forall utc :: ToLocal(z, utc) == local ==> ToUtc(z, local) <= utc
  {
    if RoundTrips(z, local) {
      assert ToLocal(z, ToUtc(z, local)) == local;
    }
  }

  lemma ConversionIsMonotone(z: Zone, a: int, b: int)
    requires a < b && RoundTrips(z, a) && RoundTrips(z, b)
    ensures ToUtc(z, a) < ToUtc(z, b)
  {
  }

  // ---- Slots -----------------------------------------------------------------------------

  datatype Interval = Interval(start: int, end: int)

  datatype Hours = Hours(opening: int, closing: int)

  predicate Overlaps(start: int, end: int, b: Interval) {
    start < b.end && end > b.start
  }

  predicate Collides(busy: seq<Interval>, start: int, end: int) {
    exists i :: 0 <= i < |busy| && Overlaps(start, end, busy[i])
  }

  /** The slot starting at this wall-clock time may be offered. */
  predicate Offered(z: Zone, closing: int, busy: seq<Interval>, duration: int, local: int) {
    && local < closing
    && RoundTrips(z, local)
    && ToUtc(z, local) + duration <= ToUtc(z, closing)
    && !Collides(busy, ToUtc(z, local), ToUtc(z, local) + duration)
  }

  /** Every offered slot from `local` on, with no early exit. */
  function SlotsFrom(z: Zone, local: int, closing: int, busy: seq<Interval>, duration: int): seq<int>
    decreases closing - local
  {
    if local >= closing then []
    else (if Offered(z, closing, busy, duration, local) then [ToUtc(z, local)] else [])
         + SlotsFrom(z, local + SLOT_STEP, closing, busy, duration)
  }

  function Parsed(periods: seq<Option<Interval>>): (busy: seq<Interval>)
    ensures forall b :: b in busy <==> Some(b) in periods
  {
    if periods == [] then []
    else (if periods[0].Some? then [periods[0].value] else []) + Parsed(periods[1..])
  }

  lemma {:induction false} ParsedSnoc(periods: seq<Option<Interval>>, p: Option<Interval>)
    ensures Parsed(periods + [p]) == Parsed(periods) + (if p.Some? then [p.value] else [])
  {
    var longer := periods + [p];
    if periods == [] {
      assert longer[0] == p && longer[1..] == [];
    } else {
      assert longer[0] == periods[0] && longer[1..] == periods[1..] + [p];
      ParsedSnoc(periods[1..], p);
    }
  }

  method ParseBusy(periods: seq<Option<Interval>>) returns (busy: seq<Interval>)
    ensures busy == Parsed(periods)
  {
    busy := [];
    for i := 0 to |periods|
      invariant busy == Parsed(periods[..i])
    {
      ParsedSnoc(periods[..i], periods[i]);
      assert periods[..i] + [periods[i]] == periods[..i + 1];
      if periods[i].Some? {
        busy := busy + [periods[i].value];
      }
    }
    assert periods[..|periods|] == periods;
  }

  /**
   The generator.  `midnight` is the local start of the day, `hours` what the day's opening hours read
   as (None when closed or unreadable), and a busy period that does not parse is None.  The early exit
   at closing time loses nothing: the result equals the full enumeration.
   */
  method ComputeFreeSlots(z: Zone, midnight: int, hours: Option<Hours>, periods: seq<Option<Interval>>, duration: int)
    returns (slots: seq<int>)
    ensures hours.None? ==> slots == []
    ensures hours.Some? ==>
              slots == SlotsFrom(z, midnight + hours.value.opening, midnight + hours.value.closing, Parsed(periods), duration)
  {
    if hours.None? {
      return [];
    }
    var opening, closing := midnight + hours.value.opening, midnight + hours.value.closing;
    var closeUtc := ToUtc(z, closing);
    slots := [];

    var busy := ParseBusy(periods);
    var local := opening;
    ghost var all := SlotsFrom(z, opening, closing, busy, duration);
    while local < closing
      invariant slots + SlotsFrom(z, local, closing, busy, duration) == all
      decreases closing - local
    {
      ghost var rest := SlotsFrom(z, local + SLOT_STEP, closing, busy, duration);
      if ToLocal(z, ToUtc(z, local)) != local {
        assert SlotsFrom(z, local, closing, busy, duration) == rest;
        local := local + SLOT_STEP;
        continue;
      }
      var startUtc := ToUtc(z, local);
      var endUtc := startUtc + duration;
      if endUtc > closeUtc {
        NothingAfterClosing(z, local, local, closing, busy, duration);
        return;
      }
      var collides := CollidesWith(busy, startUtc, endUtc);
      if !collides {
        Regroup(slots, [startUtc], rest);
        slots := slots + [startUtc];
      } else {
        assert SlotsFrom(z, local, closing, busy, duration) == rest;
      }
      local := local + SLOT_STEP;
    }
  }

  lemma Regroup(a: seq<int>, b: seq<int>, c: seq<int>)
    ensures a + (b + c) == (a + b) + c
  {
  }

  method CollidesWith(busy: seq<Interval>, start: int, end: int) returns (collides: bool)
    ensures collides <==> Collides(busy, start, end)
  {
    collides := false;
    for i := 0 to |busy|
      invariant forall j :: 0 <= j < i ==> !Overlaps(start, end, busy[j])
    {
      if Overlaps(start, end, busy[i]) {
        return true;
      }
    }
  }

  /** Once an existing slot runs past closing, so does every later one. */
  lemma {:induction false} NothingAfterClosing(z: Zone, late: int, local: int, closing: int, busy: seq<Interval>, duration: int)
    requires late <= local && RoundTrips(z, late) && ToUtc(z, late) + duration > ToUtc(z, closing)
    ensures SlotsFrom(z, local, closing, busy, duration) == []
    decreases closing - local
  {
    if local < closing {
      if late < local && RoundTrips(z, local) {
        ConversionIsMonotone(z, late, local);
      }
      NothingAfterClosing(z, late, local + SLOT_STEP, closing, busy, duration);
    }
  }

  // ---- What the slots are ----------------------------------------------------------------

  /** A 30-minute wall-clock start counted from `opening`. */
  function GridTime(opening: int, k: nat): int {
    opening + k * SLOT_STEP
  }

  /** The generator returns exactly the offered grid times, as instants. */
  lemma {:induction false} SlotsAreTheOfferedStarts(z: Zone, opening: int, closing: int, busy: seq<Interval>, duration: int, utc: int)
    ensures utc in SlotsFrom(z, opening, closing, busy, duration) <==>
              exists k: nat :: Offered(z, closing, busy, duration, GridTime(opening, k)) && ToUtc(z, GridTime(opening, k)) == utc
    decreases closing - opening
  {
    var slots := SlotsFrom(z, opening, closing, busy, duration);
    if opening < closing {
      var rest := SlotsFrom(z, opening + SLOT_STEP, closing, busy, duration);
      SlotsAreTheOfferedStarts(z, opening + SLOT_STEP, closing, busy, duration, utc);
      assert GridTime(opening, 0) == opening;
      if utc in slots && utc in rest {
        var k: nat :| Offered(z, closing, busy, duration, GridTime(opening + SLOT_STEP, k))
                      && ToUtc(z, GridTime(opening + SLOT_STEP, k)) == utc;
        assert GridTime(opening, k + 1) == GridTime(opening + SLOT_STEP, k);
      }
      if k: nat :| Offered(z, closing, busy, duration, GridTime(opening, k)) && ToUtc(z, GridTime(opening, k)) == utc {
        if k > 0 {
          assert GridTime(opening + SLOT_STEP, k - 1) == GridTime(opening, k);
        }
      }
    } else {
      forall k: nat
        ensures GridTime(opening, k) >= closing
      {
      }
    }
  }

  predicate StrictlyIncreasing(slots: seq<int>) {
    forall i, j :: 0 <= i < j < |slots| ==> slots[i] < slots[j]
  }

  predicate AllAfter(first: int, slots: seq<int>) {
    forall i :: 0 <= i < |slots| ==> first < slots[i]
  }

  lemma PrependEarlier(first: int, rest: seq<int>)
    requires StrictlyIncreasing(rest) && AllAfter(first, rest)
    ensures StrictlyIncreasing([first] + rest)
  {
  }

  /** Every slot from a later wall-clock time on is a later instant. */
  lemma {:induction false} SlotsComeAfter(z: Zone, base: int, local: int, closing: int, busy: seq<Interval>, duration: int)
    requires base < local && RoundTrips(z, base)
    ensures AllAfter(ToUtc(z, base), SlotsFrom(z, local, closing, busy, duration))
    decreases closing - local
  {
    if local < closing {
      SlotsComeAfter(z, base, local + SLOT_STEP, closing, busy, duration);
      if RoundTrips(z, local) {
        ConversionIsMonotone(z, base, local);
      }
    }
  }

  /** The slots are strictly increasing instants: no slot is offered twice, even across a change of offset. */
  lemma {:induction false} SlotsIncrease(z: Zone, opening: int, closing: int, busy: seq<Interval>, duration: int)
    ensures StrictlyIncreasing(SlotsFrom(z, opening, closing, busy, duration))
    decreases closing - opening
  {
    if opening < closing {
      var rest := SlotsFrom(z, opening + SLOT_STEP, closing, busy, duration);
      SlotsIncrease(z, opening + SLOT_STEP, closing, busy, duration);
      if Offered(z, closing, busy, duration, opening) {
        SlotsComeAfter(z, opening, opening + SLOT_STEP, closing, busy, duration);
        PrependEarlier(ToUtc(z, opening), rest);
      } else {
        assert [] + rest == rest;
      }
    }
  }

  // ---- Only the busy instants matter -----------------------------------------------------

  predicate BusyAt(busy: seq<Interval>, instant: int) {
    exists i :: 0 <= i < |busy| && busy[i].start <= instant < busy[i].end
  }

  predicate NonEmpty(busy: seq<Interval>) {
    forall i :: 0 <= i < |busy| ==> busy[i].start < busy[i].end
  }

  ghost predicate FreeThroughout(busy: seq<Interval>, start: int, end: int) {
    forall instant :: start <= instant < end ==> !BusyAt(busy, instant)
  }

  lemma CollisionIsABusyInstant(busy: seq<Interval>, start: int, end: int)
    requires NonEmpty(busy) && start < end
    ensures Collides(busy, start, end) <==> !FreeThroughout(busy, start, end)
  {
    if Collides(busy, start, end) {
      var i :| 0 <= i < |busy| && Overlaps(start, end, busy[i]);
      var instant := Max(start, busy[i].start);
      assert busy[i].start <= instant < busy[i].end;
      assert BusyAt(busy, instant);
    }
  }

  /** Two busy lists agree on every instant of a range. */
  ghost predicate SameBusy(a: seq<Interval>, b: seq<Interval>, from: int, to: int) {
    forall instant :: from <= instant < to ==> (BusyAt(a, instant) <==> BusyAt(b, instant))
  }

  lemma {:induction false} SlotsDependOnBusyInstants(z: Zone, local: int, closing: int, a: seq<Interval>, b: seq<Interval>, duration: int,
                                                     from: int, to: int)
    requires duration > 0 && NonEmpty(a) && NonEmpty(b) && SameBusy(a, b, from, to)
    requires forall l :: local <= l < closing && RoundTrips(z, l) ==> from <= ToUtc(z, l)
    requires ToUtc(z, closing) <= to
    ensures SlotsFrom(z, local, closing, a, duration) == SlotsFrom(z, local, closing, b, duration)
    decreases closing - local
  {
    if local < closing {
      SlotsDependOnBusyInstants(z, local + SLOT_STEP, closing, a, b, duration, from, to);
      if RoundTrips(z, local) && ToUtc(z, local) + duration <= ToUtc(z, closing) {
        var start := ToUtc(z, local);
        CollisionIsABusyInstant(a, start, start + duration);
        CollisionIsABusyInstant(b, start, start + duration);
        assert FreeThroughout(a, start, start + duration) <==> FreeThroughout(b, start, start + duration);
      }
    }
  }

  /**
   Free slots depend only on the set of busy instants: merged free/busy periods and overlapping mirrored
   events with the same union give the same list.
   */
  lemma MergedAndOverlappingBusyAgree(z: Zone, opening: int, closing: int, a: seq<Interval>, b: seq<Interval>, duration: int)
    requires duration > 0 && NonEmpty(a) && NonEmpty(b)
    requires forall instant :: BusyAt(a, instant) <==> BusyAt(b, instant)
    ensures SlotsFrom(z, opening, closing, a, duration) == SlotsFrom(z, opening, closing, b, duration)
  {
    var from := opening - Max(z.before, z.after);
    SlotsDependOnBusyInstants(z, opening, closing, a, b, duration, from, ToUtc(z, closing));
  }

  // ---- The provider range query and the pre-write check ----------------------------------

  /** `_local_date_range_utc` for one day: the half-open instant range asked from the provider. */
  function DayRange(z: Zone, midnight: int, nextMidnight: int): Interval {
    Interval(ToUtc(z, midnight), ToUtc(z, nextMidnight))
  }

  /**
   Asking the provider only for the local day is enough: a busy list that agrees with the whole calendar
   on that range gives the slots of the whole calendar.  A day may start inside a gap only where the gap
   does; and when the next midnight exists, a closing time that falls into the gap must still lie before it
   once moved over the gap.
   */
  lemma DayRangeIsEnough(z: Zone, midnight: int, nextMidnight: int, hours: Hours,
                         answer: seq<Interval>, calendar: seq<Interval>, duration: int)
    requires duration > 0 && NonEmpty(answer) && NonEmpty(calendar)
    requires 0 <= hours.opening && midnight + hours.closing <= nextMidnight
    requires InGap(z, midnight) ==> midnight == z.at + z.before
    requires RoundTrips(z, nextMidnight) && InGap(z, midnight + hours.closing) ==>
               midnight + hours.closing + (z.after - z.before) <= nextMidnight
    requires SameBusy(answer, calendar, DayRange(z, midnight, nextMidnight).start, DayRange(z, midnight, nextMidnight).end)
    ensures SlotsFrom(z, midnight + hours.opening, midnight + hours.closing, answer, duration)
            == SlotsFrom(z, midnight + hours.opening, midnight + hours.closing, calendar, duration)
  {
    var opening, closing := midnight + hours.opening, midnight + hours.closing;
    var range := DayRange(z, midnight, nextMidnight);
    forall l | opening <= l < closing && RoundTrips(z, l)
      ensures range.start <= ToUtc(z, l)
    {
    }
    SlotsDependOnBusyInstants(z, opening, closing, answer, calendar, duration, range.start, range.end);
  }

  datatype CheckStatus = Available | Conflict | NeedsReconnect | Unavailable | Rejected

  /** `check_google_calendar_interval_free`; `http` and `busy` are the provider's answer for [start, start + duration). */
  function IntervalCheck(hasToken: bool, start: Option<int>, delivered: bool, http: int, busy: seq<Interval>): CheckStatus {
    if !hasToken then NeedsReconnect
    else if start.None? then Rejected
    else if !delivered then Unavailable
    else if http == 401 || http == 403 then NeedsReconnect
    else if http == 429 || http >= 500 then Unavailable
    else if http != 200 then Rejected
    else if busy != [] then Conflict
    else Available
  }

  /** The provider was asked about a readable start and answered. */
  predicate Asked(hasToken: bool, start: Option<int>, delivered: bool) {
    hasToken && start.Some? && delivered
  }

  /**
   Only an answered 200 lets the write go on, and only when it lists nothing; the caller is asked to reconnect,
   or told to come back, exactly for the answers that mean it.
   */
  lemma TheCheckByItsAnswer(hasToken: bool, start: Option<int>, delivered: bool, http: int, busy: seq<Interval>)
    ensures var r := IntervalCheck(hasToken, start, delivered, http, busy);
            && (r.Available? <==> Asked(hasToken, start, delivered) && http == 200 && busy == [])
            && (r.Conflict? <==> Asked(hasToken, start, delivered) && http == 200 && busy != [])
            && (r.NeedsReconnect? <==> !hasToken || (Asked(hasToken, start, delivered) && (http == 401 || http == 403)))
            && (r.Unavailable? <==> hasToken && start.Some? && (!delivered || http == 429 || http >= 500))
  {
  }

  /** The provider lists a busy period for a range exactly when some instant of the range is busy. */
  ghost predicate AnswersFreeBusy(calendar: seq<Interval>, start: int, end: int, answer: seq<Interval>) {
    answer == [] <==> FreeThroughout(calendar, start, end)
  }

  /**
   The pre-write check on an unchanged calendar agrees with the slot list: an existing grid time that fits
   before closing is offered if and only if the check, once answered, finds it available.
   */
  lemma OfferedSlotsPassTheCheck(z: Zone, closing: int, calendar: seq<Interval>, duration: int, local: int, answer: seq<Interval>)
    requires duration > 0 && NonEmpty(calendar)
    requires local < closing && RoundTrips(z, local) && ToUtc(z, local) + duration <= ToUtc(z, closing)
    requires AnswersFreeBusy(calendar, ToUtc(z, local), ToUtc(z, local) + duration, answer)
    ensures Offered(z, closing, calendar, duration, local) <==>
              IntervalCheck(true, Some(ToUtc(z, local)), true, 200, answer) == Available
  {
    CollisionIsABusyInstant(calendar, ToUtc(z, local), ToUtc(z, local) + duration);
  }
}
