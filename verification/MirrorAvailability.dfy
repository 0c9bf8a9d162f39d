/**
 From the provider's events to the offered slots by way of the mirror: which instants a stored row occupies,
 and that slots computed from the mirror are those of the calendar itself (`get_google_calendar_availability`
 and `_fresh_mirror_events` of backend/app/services/google_calendar.py).
 */
module MirrorAvailability {
  import opened Common
  import opened FreeSlots
  import opened CalendarMirror
  import opened MirrorSync

  // ---- When an event takes place -----------------------------------------------------------

  /** How far a wall-clock reading that no instant shows is carried over the gap. */
  function Carried(z: Zone, local: int): int {
    if InGap(z, local) then local + (z.after - z.before) else local
  }

  /** The time has come: the instant is reached, or the wall clock has shown the reading. */
  ghost predicate Reached(z: Zone, t: EventTime, instant: int) {
    match t
    case Instant(utc) => utc <= instant
    case Wall(local) => exists u :: u <= instant && ToLocal(z, u) >= Carried(z, local)
    case _ => false
  }

  /** The event has begun and not ended; one whose wall-clock end does not read later than its start never takes place. */
  ghost predicate Covers(z: Zone, e: RawEvent, instant: int) {
    && !e.start.Absent? && !e.start.Malformed? && !e.end.Absent? && !e.end.Malformed?
    && (e.start.Wall? && e.end.Wall? ==> e.start.local < e.end.local)
    && Reached(z, e.start, instant) && !Reached(z, e.end, instant)
  }

  lemma ReachedFromItsInstant(z: Zone, t: EventTime, instant: int)
    requires Readable(t)
    ensures Reached(z, t, instant) <==> Utc(z, t) <= instant
  {
    if t.Wall? && Utc(z, t) <= instant {
      assert ToLocal(z, Utc(z, t)) >= Carried(z, t.local);
    }
  }

  /** The mirror of a snapshot occupies exactly the instants at which a live event takes place. */
  lemma MirrorOccupiesWhatEventsCover(z: Zone, snap: Snapshot, instant: int)
    ensures Occupied(MirrorOf(z, snap), instant) <==> exists id :: id in snap && Covers(z, snap[id], instant)
  {
    forall id | id in snap
      ensures (id in MirrorOf(z, snap) && Spans(MirrorOf(z, snap)[id], instant)) <==> Covers(z, snap[id], instant)
    {
      RowSpansWhatItsEventCovers(z, snap, id, instant);
    }
    if id :| id in snap && Covers(z, snap[id], instant) {
      assert Spans(MirrorOf(z, snap)[id], instant);
    }
  }

  predicate Spans(row: Row, instant: int) {
    row.start <= instant < row.end
  }

  ghost predicate Occupied(rows: Rows, instant: int) {
    exists id :: id in rows && Spans(rows[id], instant)
  }

  lemma RowSpansWhatItsEventCovers(z: Zone, snap: Snapshot, id: string, instant: int)
    requires id in snap
    ensures (id in MirrorOf(z, snap) && Spans(MirrorOf(z, snap)[id], instant)) <==> Covers(z, snap[id], instant)
  {
    var e := snap[id];
    if Readable(e.start) && Readable(e.end) {
      ReachedFromItsInstant(z, e.start, instant);
      ReachedFromItsInstant(z, e.end, instant);
    }
  }

  /** A live event has a row, with its payload, exactly if it takes place at all; two wall-clock times are compared as they read. */
  lemma AnEventHasARowExactlyIfItTakesPlace(z: Zone, snap: Snapshot, id: string)
    requires id in snap
    ensures var e := snap[id];
            id in MirrorOf(z, snap) <==>
              if e.start.Wall? && e.end.Wall? then e.start.local < e.end.local else exists instant :: Covers(z, e, instant)
    ensures id in MirrorOf(z, snap) ==> MirrorOf(z, snap)[id].payload == snap[id].payload
  {
    var e := snap[id];
    if Readable(e.start) && Readable(e.end) {
      forall instant ensures Covers(z, e, instant) <==>
                               (e.start.Wall? && e.end.Wall? ==> e.start.local < e.end.local) && Utc(z, e.start) <= instant < Utc(z, e.end)
      {
        ReachedFromItsInstant(z, e.start, instant);
        ReachedFromItsInstant(z, e.end, instant);
      }
      if Utc(z, e.start) < Utc(z, e.end) && !(e.start.Wall? && e.end.Wall?) {
        assert Covers(z, e, Utc(z, e.start));
      }
    }
  }

  // ---- After a sync ------------------------------------------------------------------------

  /** After a full sync whose listing repeats no event, an instant is occupied exactly if a live listed event with an ID covers it. */
  lemma AFullSyncOccupiesWhatItsListingCovers(z: Zone, rows: Rows, events: seq<RawEvent>, snap: Snapshot, instant: int)
    requires FullListing(events, snap) && UniqueIds(events)
    ensures Occupied(Committed(rows, Records(z, events), true), instant) <==>
              exists i :: 0 <= i < |events| && events[i].id != "" && !events[i].cancelled && Covers(z, events[i], instant)
  {
    FullSyncIsTheSnapshot(z, rows, events, snap);
    MirrorOccupiesWhatEventsCover(z, snap, instant);
    forall i | 0 <= i < |events|
      ensures LastMention(events, i)
    {
    }
    if id :| id in snap && Covers(z, snap[id], instant) {
      var i := SomeLastMention(events, id);
      assert snap[id] == events[i];
    }
    if i :| 0 <= i < |events| && events[i].id != "" && !events[i].cancelled && Covers(z, events[i], instant) {
      assert LastMention(events, i) && snap[events[i].id] == events[i];
    }
  }

  /** In every run without dropped changes, a stored token means that the mirror occupies what its snapshot's events cover. */
  lemma TheMirrorOccupiesTheCalendar(z: Zone, actions: seq<Action>, t: System, instant: int)
    requires Run(z, Initial, actions, t) && FaithfulRun(z, Initial, actions)
    requires t.state.Some? && t.state.value.token.Some?
    ensures t.state.value.token.value < |t.history|
    ensures var snap := t.history[t.state.value.token.value];
            Occupied(t.rows, instant) <==> exists id :: id in snap && Covers(z, snap[id], instant)
  {
    StoredTokenMeansExactMirror(z, actions, t);
    MirrorOccupiesWhatEventsCover(z, t.history[t.state.value.token.value], instant);
  }

  // ---- The table keeps its CHECK -----------------------------------------------------------

  predicate ProperRows(rows: Rows) {
    forall id :: id in rows ==> rows[id].start < rows[id].end
  }

  lemma {:induction false} StorableBatchesKeepRowsProper(rows: Rows, records: seq<Record>)
    requires ProperRows(rows) && AllStorable(records)
    ensures ProperRows(ApplyAll(rows, records))
    decreases |records|
  {
    if records != [] {
      assert Storable(records[0]);
      StorableBatchesKeepRowsProper(ApplyRecord(rows, records[0]), records[1..]);
    }
  }

  lemma {:induction false} RunKeepsRowsProper(z: Zone, s: System, actions: seq<Action>, t: System)
    requires ProperRows(s.rows) && Run(z, s, actions, t)
    ensures ProperRows(t.rows)
    decreases |actions|
  {
    if actions != [] {
      var a := actions[0];
      if a.LastPage? {
        var records := Records(z, s.running.value.collected + a.items);
        if AllStorable(records) {
          StorableBatchesKeepRowsProper(if s.running.value.token.None? then map[] else s.rows, records);
        }
      }
      RunKeepsRowsProper(z, Step(z, s, a).value, actions[1..], t);
    }
  }

  // ---- Slots from the mirror ---------------------------------------------------------------

  /** The busy periods of the served rows. */
  function Periods(rows: Rows, ids: seq<string>): (busy: seq<Interval>)
    requires forall id :: id in ids ==> id in rows
    ensures |busy| == |ids| && forall i :: 0 <= i < |ids| ==> busy[i] == Interval(rows[ids[i]].start, rows[ids[i]].end)
  {
    seq(|ids|, i requires 0 <= i < |ids| => Interval(rows[ids[i]].start, rows[ids[i]].end))
  }

  /** What `GetFreshMirroredEvents` returns for [start, end). */
  ghost predicate Served(rows: Rows, ids: seq<string>, range: Interval) {
    forall id :: id in ids <==> id in rows && rows[id].start < range.end && rows[id].end > range.start
  }

  /** Served rows are busy at the occupied instants of the range asked for. */
  lemma ServedRowsAreBusyWhereOccupied(rows: Rows, ids: seq<string>, range: Interval, instant: int)
    requires Served(rows, ids, range) && range.start <= instant < range.end
    ensures BusyAt(Periods(rows, ids), instant) <==> Occupied(rows, instant)
  {
    var busy := Periods(rows, ids);
    if i :| 0 <= i < |busy| && busy[i].start <= instant < busy[i].end {
      assert ids[i] in ids && Spans(rows[ids[i]], instant);
    }
    if id :| id in rows && Spans(rows[id], instant) {
      var i :| 0 <= i < |ids| && ids[i] == id;
      assert busy[i].start <= instant < busy[i].end;
    }
  }

  /** The busy instants of a calendar are those its live events cover. */
  ghost predicate BusyWithEvents(z: Zone, calendar: seq<Interval>, snap: Snapshot) {
    forall instant :: BusyAt(calendar, instant) <==> exists id :: id in snap && Covers(z, snap[id], instant)
  }

  /**
   In every run without dropped changes, the slots computed from a fresh mirror, asked for one local day, are
   the slots of the calendar the provider had at the stored token, however that calendar's busy periods are
   cut.
   */
  lemma MirrorSlotsAreTheCalendars(z: Zone, actions: seq<Action>, t: System, now: int, maxStaleness: int, midnight: int, nextMidnight: int,
                                   hours: Hours, ids: seq<string>, calendar: seq<Interval>, duration: int)
    requires Run(z, Initial, actions, t) && FaithfulRun(z, Initial, actions) && Fresh(t.state, now, maxStaleness)
    requires Served(t.rows, ids, DayRange(z, midnight, nextMidnight))
    requires t.state.value.token.Some? && t.state.value.token.value < |t.history|
    requires NonEmpty(calendar) && BusyWithEvents(z, calendar, t.history[t.state.value.token.value])
    requires duration > 0 && 0 <= hours.opening && midnight + hours.closing <= nextMidnight
    requires InGap(z, midnight) ==> midnight == z.at + z.before
    requires RoundTrips(z, nextMidnight) && InGap(z, midnight + hours.closing) ==>
               midnight + hours.closing + (z.after - z.before) <= nextMidnight
    ensures SlotsFrom(z, midnight + hours.opening, midnight + hours.closing, Periods(t.rows, ids), duration)
            == SlotsFrom(z, midnight + hours.opening, midnight + hours.closing, calendar, duration)
  {
    var range, busy := DayRange(z, midnight, nextMidnight), Periods(t.rows, ids);
    RunKeepsRowsProper(z, Initial, actions, t);
    forall instant | range.start <= instant < range.end
      ensures BusyAt(busy, instant) <==> BusyAt(calendar, instant)
    {
      ServedRowsAreBusyWhereOccupied(t.rows, ids, range, instant);
      TheMirrorOccupiesTheCalendar(z, actions, t, instant);
    }
    assert NonEmpty(busy) by {
      forall i | 0 <= i < |busy| ensures busy[i].start < busy[i].end {
        assert ids[i] in ids;
      }
    }
    DayRangeIsEnough(z, midnight, nextMidnight, hours, busy, calendar, duration);
  }

  lemma SomeOrder(ids: set<string>) returns (order: seq<string>)
    ensures forall id :: id in order <==> id in ids
  {
    order := [];
    var left := ids;
    while left != {}
      invariant left <= ids
      invariant forall id :: id in order || id in left <==> id in ids
      decreases left
    {
      var id :| id in left;
      order, left := order + [id], left - {id};
    }
  }

  /** All rows together are busy exactly where the calendar is. */
  lemma TheWholeMirrorIsACalendar(z: Zone, actions: seq<Action>, t: System) returns (calendar: seq<Interval>)
    requires Run(z, Initial, actions, t) && FaithfulRun(z, Initial, actions)
    requires t.state.Some? && t.state.value.token.Some? && t.state.value.token.value < |t.history|
    ensures NonEmpty(calendar) && BusyWithEvents(z, calendar, t.history[t.state.value.token.value])
  {
    var ids := SomeOrder(t.rows.Keys);
    calendar := Periods(t.rows, ids);
    RunKeepsRowsProper(z, Initial, actions, t);
    forall i | 0 <= i < |calendar| ensures calendar[i].start < calendar[i].end {
      assert ids[i] in ids;
    }
    forall instant
      ensures BusyAt(calendar, instant) <==>
                exists id :: id in t.history[t.state.value.token.value] && Covers(z, t.history[t.state.value.token.value][id], instant)
    {
      TheMirrorOccupiesTheCalendar(z, actions, t, instant);
      AllRowsAreBusyWhereOccupied(t.rows, ids, instant);
    }
  }

  lemma AllRowsAreBusyWhereOccupied(rows: Rows, ids: seq<string>, instant: int)
    requires forall id :: id in ids <==> id in rows
    ensures BusyAt(Periods(rows, ids), instant) <==> Occupied(rows, instant)
  {
    var busy := Periods(rows, ids);
    if i :| 0 <= i < |busy| && busy[i].start <= instant < busy[i].end {
      assert ids[i] in ids && Spans(rows[ids[i]], instant);
    }
    if id :| id in rows && Spans(rows[id], instant) {
      var i :| 0 <= i < |ids| && ids[i] == id;
      assert busy[i].start <= instant < busy[i].end;
    }
  }

  function ThirtyMinutes(opening: int, k: nat): int {
    opening + k * 1800
  }

  /** `utc` is the first instant at which the wall clock shows a 30-minute start that ends by closing time. */
  ghost predicate StartsInHours(z: Zone, opening: int, closing: int, duration: int, utc: int) {
    && (exists k: nat :: ThirtyMinutes(opening, k) == ToLocal(z, utc))
    && ToLocal(z, utc) < closing && utc + duration <= ToUtc(z, closing)
    && forall earlier :: earlier < utc ==> ToLocal(z, earlier) != ToLocal(z, utc)
  }

  /** No live event of the snapshot takes place in [start, end). */
  ghost predicate NoEventIn(z: Zone, snap: Snapshot, start: int, end: int) {
    forall instant, id :: start <= instant < end && id in snap ==> !Covers(z, snap[id], instant)
  }

  /**
   From the provider's events to the caller's slots, in every run without dropped changes: an instant is
   offered from a fresh mirror exactly if the wall clock then shows a 30-minute start within the hours and no
   live event of the calendar at the stored token takes place in the slot.
   */
  lemma AMirrorSlotIsATimeWithoutEvents(z: Zone, actions: seq<Action>, t: System, now: int, maxStaleness: int, midnight: int,
                                        nextMidnight: int, hours: Hours, ids: seq<string>, duration: int, utc: int)
    requires Run(z, Initial, actions, t) && FaithfulRun(z, Initial, actions) && Fresh(t.state, now, maxStaleness)
    requires Served(t.rows, ids, DayRange(z, midnight, nextMidnight))
    requires t.state.value.token.Some? && t.state.value.token.value < |t.history|
    requires duration > 0 && 0 <= hours.opening && midnight + hours.closing <= nextMidnight
    requires InGap(z, midnight) ==> midnight == z.at + z.before
    requires RoundTrips(z, nextMidnight) && InGap(z, midnight + hours.closing) ==>
               midnight + hours.closing + (z.after - z.before) <= nextMidnight
    ensures var opening, closing := midnight + hours.opening, midnight + hours.closing;
            utc in SlotsFrom(z, opening, closing, Periods(t.rows, ids), duration) <==>
              StartsInHours(z, opening, closing, duration, utc)
              && NoEventIn(z, t.history[t.state.value.token.value], utc, utc + duration)
  {
    var opening, closing := midnight + hours.opening, midnight + hours.closing;
    var snap := t.history[t.state.value.token.value];
    var calendar := TheWholeMirrorIsACalendar(z, actions, t);
    assert forall k: nat :: ThirtyMinutes(opening, k) == GridTime(opening, k);
    MirrorSlotsAreTheCalendars(z, actions, t, now, maxStaleness, midnight, nextMidnight, hours, ids, calendar, duration);
    SlotsAreTheOfferedStarts(z, opening, closing, calendar, duration, utc);
    if RoundTrips(z, ToLocal(z, utc)) && ToUtc(z, ToLocal(z, utc)) == utc {
      OfferedWithoutEvents(z, opening, closing, calendar, snap, duration, utc);
    }
    FirstShowing(z, utc);
  }

  lemma FirstShowing(z: Zone, utc: int)
    ensures ToUtc(z, ToLocal(z, utc)) == utc <==> forall earlier :: earlier < utc ==> ToLocal(z, earlier) != ToLocal(z, utc)
    ensures RoundTrips(z, ToLocal(z, utc))
  {
    RoundTripIsExistence(z, ToLocal(z, utc));
  }

  lemma OfferedWithoutEvents(z: Zone, opening: int, closing: int, calendar: seq<Interval>, snap: Snapshot, duration: int, utc: int)
    requires NonEmpty(calendar) && BusyWithEvents(z, calendar, snap) && duration > 0
    requires RoundTrips(z, ToLocal(z, utc)) && ToUtc(z, ToLocal(z, utc)) == utc
    ensures Offered(z, closing, calendar, duration, ToLocal(z, utc)) <==>
              && ToLocal(z, utc) < closing && utc + duration <= ToUtc(z, closing) && NoEventIn(z, snap, utc, utc + duration)
  {
    CollisionIsABusyInstant(calendar, utc, utc + duration);
    FreeIsWithoutEvents(z, calendar, snap, utc, utc + duration);
  }

  lemma FreeIsWithoutEvents(z: Zone, calendar: seq<Interval>, snap: Snapshot, start: int, end: int)
    requires BusyWithEvents(z, calendar, snap)
    ensures FreeThroughout(calendar, start, end) <==> NoEventIn(z, snap, start, end)
  {
    if FreeThroughout(calendar, start, end) {
      forall instant, id | start <= instant < end && id in snap ensures !Covers(z, snap[id], instant) {
        assert !BusyAt(calendar, instant);
      }
    }
    if NoEventIn(z, snap, start, end) {
      forall instant | start <= instant < end ensures !BusyAt(calendar, instant) {
        assert !exists id :: id in snap && Covers(z, snap[id], instant);
      }
    }
  }
}
