/**
 An incremental sync refines a full one.  The provider is a history of calendar snapshots; a sync token
 names one of them, a full listing lists a snapshot and an incremental listing lists what changed since
 the token's snapshot.  Syncs of one company run one at a time (the in-process lock); stale marks,
 provider changes and crashes fall anywhere in between.
 */
module MirrorSync {
  import opened Common
  import opened FreeSlots
  import opened CalendarMirror

  /** The live events of the calendar, by ID, as the listing query shows them. */
  type Snapshot = snap: map<string, RawEvent> | "" !in snap && forall id :: id in snap ==> snap[id].id == id && !snap[id].cancelled
    witness map[]

  /** What a full sync makes of a snapshot: the accepted events. */
  function MirrorOf(z: Zone, snap: Snapshot): Rows {
    map id | id in snap && MirrorRecord(z, snap[id]).Some? :: MirrorRecord(z, snap[id]).value.row
  }

  ghost predicate UniqueIds(events: seq<RawEvent>) {
    forall i, j :: 0 <= i < j < |events| ==> events[i].id != events[j].id
  }

  ghost predicate Mentions(events: seq<RawEvent>, id: string) {
    exists i :: 0 <= i < |events| && events[i].id == id
  }

  /** A listing may mention an event on several pages; the last mention counts. */
  ghost predicate LastMention(events: seq<RawEvent>, i: int) {
    0 <= i < |events| && forall j :: i < j < |events| ==> events[j].id != events[i].id
  }

  /** The last mention of each event that has an ID is current: live as the snapshot has it, or cancelled and absent from it. */
  ghost predicate Current(events: seq<RawEvent>, snap: Snapshot) {
    forall i :: LastMention(events, i) ==>
      && (events[i].cancelled ==> events[i].id !in snap)
      && (!events[i].cancelled && events[i].id != "" ==> events[i].id in snap && snap[events[i].id] == events[i])
  }

  ghost predicate FullListing(events: seq<RawEvent>, snap: Snapshot) {
    Current(events, snap) && forall id :: id in snap ==> Mentions(events, id)
  }

  predicate SameAt<V(==)>(a: map<string, V>, b: map<string, V>, id: string) {
    (id in a <==> id in b) && (id in a ==> a[id] == b[id])
  }

  /** Everything that differs between the two snapshots is mentioned; other events may be too. */
  ghost predicate DeltaListing(events: seq<RawEvent>, before: Snapshot, after: Snapshot) {
    Current(events, after) && forall id: string :: !Mentions(events, id) ==> SameAt(before, after, id)
  }

  // ---- One batch -------------------------------------------------------------------------

  /** The rows after a batch of listed events. */
  function Batch(z: Zone, rows: Rows, events: seq<RawEvent>): Rows {
    ApplyAll(rows, Records(z, events))
  }

  lemma {:induction false} ApplyAllConcat(rows: Rows, a: seq<Record>, b: seq<Record>)
    ensures ApplyAll(rows, a + b) == ApplyAll(ApplyAll(rows, a), b)
    decreases |a|
  {
    if a == [] {
      assert a + b == b;
    } else {
      assert (a + b)[0] == a[0] && (a + b)[1..] == a[1..] + b;
      ApplyAllConcat(ApplyRecord(rows, a[0]), a[1..], b);
    }
  }

  lemma BatchSnoc(z: Zone, rows: Rows, events: seq<RawEvent>, e: RawEvent)
    ensures Batch(z, rows, events + [e]) ==
              match MirrorRecord(z, e)
              case None => Batch(z, rows, events)
              case Some(r) => ApplyRecord(Batch(z, rows, events), r)
  {
    RecordsConcat(z, events, [e]);
    assert [e][1..] == [];
    ApplyAllConcat(rows, Records(z, events), Records(z, [e]));
    if r: Record :| MirrorRecord(z, e) == Some(r) {
      assert Records(z, [e]) == [r] && [r][1..] == [];
    } else {
      assert Records(z, [e]) == [];
    }
  }

  lemma LastMentionOfAPrefix(before: seq<RawEvent>, e: RawEvent, i: int)
    requires LastMention(before + [e], i) && (before + [e])[i].id != e.id
    ensures LastMention(before, i) && before[i] == (before + [e])[i] && (before + [e])[..i] == before[..i]
  {
    var events := before + [e];
    assert i < |before|;
    forall j | i < j < |before| ensures before[j].id != before[i].id {
      assert events[j] == before[j];
    }
  }

  /** What the last mention of `id` makes of its row. */
  ghost predicate Decided(z: Zone, rows: Rows, events: seq<RawEvent>, i: int)
    requires 0 <= i < |events|
  {
    var out, id := Batch(z, rows, events), events[i].id;
    match MirrorRecord(z, events[i])
    case None => SameAt(out, Batch(z, rows, events[..i]), id)
    case Some(Deleted(_)) => id !in out
    case Some(Upsert(_, row)) => id in out && out[id] == row
  }

  /** Where the row of `id` ends up after a batch: its last mention decides, or nothing happens to it. */
  lemma {:induction false} BatchLookup(z: Zone, rows: Rows, events: seq<RawEvent>, id: string)
    ensures !Mentions(events, id) ==> SameAt(Batch(z, rows, events), rows, id)
    ensures forall i :: LastMention(events, i) && events[i].id == id ==> Decided(z, rows, events, i)
    decreases |events|
  {
    if events != [] {
      var n := |events| - 1;
      var before, e := events[..n], events[n];
      assert events == before + [e];
      BatchSnoc(z, rows, before, e);
      if e.id == id {
        assert Mentions(events, id);
        forall i | LastMention(events, i) && events[i].id == id ensures Decided(z, rows, events, i) {
          assert i == n;
        }
      } else {
        BatchLookup(z, rows, before, id);
        assert SameAt(Batch(z, rows, events), Batch(z, rows, before), id);
        if Mentions(before, id) {
          var i :| 0 <= i < |before| && before[i].id == id;
          assert events[i].id == id;
        }
        forall i | LastMention(events, i) && events[i].id == id ensures Decided(z, rows, events, i) {
          LastMentionOfAPrefix(before, e, i);
          assert Decided(z, rows, before, i);
        }
      }
    }
  }

  lemma {:induction false} SomeLastMention(events: seq<RawEvent>, id: string) returns (i: int)
    requires Mentions(events, id)
    ensures LastMention(events, i) && events[i].id == id
    decreases |events|
  {
    var n := |events| - 1;
    if events[n].id == id {
      i := n;
    } else {
      var k :| 0 <= k < |events| && events[k].id == id;
      assert events[..n][k].id == id;
      i := SomeLastMention(events[..n], id);
      forall j | i < j < |events| ensures events[j].id != events[i].id {
        assert j < n ==> events[..n][j] == events[j];
      }
    }
  }

  /** The last listed version of an event decides its row in the mirror of the snapshot. */
  lemma CurrentRow(z: Zone, events: seq<RawEvent>, snap: Snapshot, i: int)
    requires Current(events, snap) && LastMention(events, i)
    ensures match MirrorRecord(z, events[i])
            case None => events[i].id !in MirrorOf(z, snap)
            case Some(Deleted(_)) => events[i].id !in MirrorOf(z, snap)
            case Some(Upsert(_, row)) => events[i].id in MirrorOf(z, snap) && MirrorOf(z, snap)[events[i].id] == row
  {
  }

  lemma SameEverywhere(a: Rows, b: Rows)
    requires forall id: string :: SameAt(a, b, id)
    ensures a == b
  {
    assert forall id :: id in a ==> SameAt(a, b, id);
    assert forall id :: id in b ==> SameAt(a, b, id);
  }

  /** The last change to an event is one that `_mirror_event_record` rejects, while there is a row for it. */
  ghost predicate DropsAChange(z: Zone, rows: Rows, events: seq<RawEvent>) {
    exists i :: LastMention(events, i) && MirrorRecord(z, events[i]).None? && events[i].id in Batch(z, rows, events[..i])
  }

  /** A batch brings rows that are right for every unlisted event to the snapshot's mirror exactly if it drops no change. */
  lemma BatchIsExactUnlessItDropsAChange(z: Zone, rows: Rows, events: seq<RawEvent>, snap: Snapshot)
    requires Current(events, snap)
    requires forall id: string :: !Mentions(events, id) ==> SameAt(rows, MirrorOf(z, snap), id)
    ensures Batch(z, rows, events) == MirrorOf(z, snap) <==> !DropsAChange(z, rows, events)
  {
    var out, want := Batch(z, rows, events), MirrorOf(z, snap);
    if i :| LastMention(events, i) && MirrorRecord(z, events[i]).None? && events[i].id in Batch(z, rows, events[..i]) {
      BatchLookup(z, rows, events, events[i].id);
      assert Decided(z, rows, events, i);
      CurrentRow(z, events, snap, i);
      assert events[i].id in out && events[i].id !in want;
    } else {
      forall id: string
        ensures SameAt(out, want, id)
      {
        BatchLookup(z, rows, events, id);
        if Mentions(events, id) {
          var i := SomeLastMention(events, id);
          assert Decided(z, rows, events, i);
          CurrentRow(z, events, snap, i);
        }
      }
      SameEverywhere(out, want);
    }
  }

  /**
   A full sync leaves the mirror of the snapshot it listed, whatever was stored before, if and only if its
   listing drops no change; one that mentions no event twice drops none.
   */
  lemma FullSyncIsTheSnapshot(z: Zone, rows: Rows, events: seq<RawEvent>, snap: Snapshot)
    requires FullListing(events, snap)
    ensures Committed(rows, Records(z, events), true) == MirrorOf(z, snap) <==> !DropsAChange(z, map[], events)
    ensures UniqueIds(events) ==> Committed(rows, Records(z, events), true) == MirrorOf(z, snap)
  {
    BatchIsExactUnlessItDropsAChange(z, map[], events, snap);
    if UniqueIds(events) {
      WithoutRepeatsDropsNeedARow(z, map[], events);
    }
  }

  /** Without repeated mentions, a change is dropped exactly when it is rejected and the event had a row before the batch. */
  lemma WithoutRepeatsDropsNeedARow(z: Zone, rows: Rows, events: seq<RawEvent>)
    requires UniqueIds(events)
    ensures DropsAChange(z, rows, events) <==>
              exists i :: 0 <= i < |events| && MirrorRecord(z, events[i]).None? && events[i].id in rows
  {
    forall i | 0 <= i < |events|
      ensures LastMention(events, i) && (events[i].id in Batch(z, rows, events[..i]) <==> events[i].id in rows)
    {
      BatchLookup(z, rows, events[..i], events[i].id);
      assert !Mentions(events[..i], events[i].id);
    }
    if i :| 0 <= i < |events| && MirrorRecord(z, events[i]).None? && events[i].id in rows {
      assert LastMention(events, i);
    }
  }

  /**
   An incremental sync from the mirror of one snapshot leaves the mirror of the next if and only if the
   batch drops no change to an event that has a row.  (A dropped change leaves the old row behind.)
   */
  lemma IncrementalSyncRefinesFull(z: Zone, events: seq<RawEvent>, before: Snapshot, after: Snapshot)
    requires DeltaListing(events, before, after)
    ensures Committed(MirrorOf(z, before), Records(z, events), false) == MirrorOf(z, after)
            <==> !DropsAChange(z, MirrorOf(z, before), events)
  {
    forall id: string | !Mentions(events, id)
      ensures SameAt(MirrorOf(z, before), MirrorOf(z, after), id)
    {
      assert SameAt(before, after, id);
    }
    BatchIsExactUnlessItDropsAChange(z, MirrorOf(z, before), events, after);
  }

  /** Such a change exists: an edit that makes an event end when it starts keeps the old row. */
  lemma AZeroLengthEditIsDropped()
    ensures var z := Zone(0, 0, 0);
            var was, now := RawEvent("e", false, Instant(0), Instant(60), "p"), RawEvent("e", false, Instant(0), Instant(0), "p");
            && DeltaListing([now], map["e" := was], map["e" := now])
            && Committed(MirrorOf(z, map["e" := was]), Records(z, [now]), false) != MirrorOf(z, map["e" := now])
  {
    var z := Zone(0, 0, 0);
    var was, now := RawEvent("e", false, Instant(0), Instant(60), "p"), RawEvent("e", false, Instant(0), Instant(0), "p");
    assert [now][0].id == "e";
    forall id: string | !Mentions([now], id)
      ensures SameAt(map["e" := was], map["e" := now], id)
    {
      assert [now][0].id == "e";
    }
    IncrementalSyncRefinesFull(z, [now], map["e" := was], map["e" := now]);
    WithoutRepeatsDropsNeedARow(z, MirrorOf(z, map["e" := was]), [now]);
    assert MirrorRecord(z, [now][0]).None? && "e" in MirrorOf(z, map["e" := was]);
  }

  // ---- Every run -------------------------------------------------------------------------

  /** A sync in progress: the token it lists from and what it collected so far. */
  datatype Progress = Progress(token: Option<Token>, pages: nat, collected: seq<RawEvent>)

  datatype System = System(history: seq<Snapshot>, rows: Rows, state: Option<SyncState>, running: Option<Progress>,
                           goneSinceCommit: bool)

  datatype Action =
    | ProviderChanges(snap: Snapshot)
    | Begin(forceFull: bool)
    | MorePages(items: seq<RawEvent>)
    | LastPage(items: seq<RawEvent>, token: Token, now: int)
    | PageFails(gone: bool)
    | NoAccess
    | WriterMarksStale
    | Crash

  const EmptyCalendar: Snapshot := map[]
  const Initial := System([EmptyCalendar], map[], None, None, false)

  /** The provider's listing for a token: complete against the snapshot its new token names. */
  ghost predicate Answers(s: System, from: Option<Token>, events: seq<RawEvent>, token: Token) {
    && token < |s.history|
    && (from.None? ==> FullListing(events, s.history[token]))
    && (from.Some? ==> from.value < |s.history| && DeltaListing(events, s.history[from.value], s.history[token]))
  }

  ghost function Step(z: Zone, s: System, a: Action): Option<System> {
    match a
    case ProviderChanges(snap) => Some(s.(history := s.history + [snap]))
    case Begin(forceFull) =>
      if s.running.Some? then None
      else Some(s.(state := Some(Started(s.state)), running := Some(Progress(TokenToUse(s.state, forceFull), 0, []))))
    case MorePages(items) =>
      if s.running.None? || s.running.value.pages + 1 >= MAX_PAGES then None
      else Some(s.(running := Some(Progress(s.running.value.token, s.running.value.pages + 1, s.running.value.collected + items))))
    case LastPage(items, token, now) =>
      if s.running.None? then None
      else
        var from, events := s.running.value.token, s.running.value.collected + items;
        var records := Records(z, events);
        if !Answers(s, from, events, token) then None
        else if !AllStorable(records) then Some(s.(running := None))
        else Some(s.(rows := Committed(s.rows, records, from.None?), running := None, goneSinceCommit := false,
                     state := Some(SyncState(Some(token), Some(now), Ready))))
    case PageFails(gone) =>
      if s.running.None? then None
      else Some(s.(state := Some(FailedState(s.state, gone)), running := None, goneSinceCommit := s.goneSinceCommit || gone))
    case NoAccess =>
      if s.running.Some? then None else Some(s.(state := Some(FailedState(s.state, false))))
    case WriterMarksStale => Some(s.(state := Stale(s.state)))
    case Crash => Some(s.(running := None))
  }

  /** The batch that this step commits drops no change. */
  ghost predicate Faithful(z: Zone, s: System, a: Action) {
    a.LastPage? && s.running.Some? ==>
      !DropsAChange(z, if s.running.value.token.Some? then s.rows else map[], s.running.value.collected + a.items)
  }

  ghost predicate Run(z: Zone, s: System, actions: seq<Action>, t: System)
    decreases |actions|
  {
    if actions == [] then s == t
    else Step(z, s, actions[0]).Some? && Run(z, Step(z, s, actions[0]).value, actions[1..], t)
  }

  ghost predicate FaithfulRun(z: Zone, s: System, actions: seq<Action>)
    decreases |actions|
  {
    actions != [] && Step(z, s, actions[0]).Some? ==>
      Faithful(z, s, actions[0]) && FaithfulRun(z, Step(z, s, actions[0]).value, actions[1..])
  }

  ghost predicate Inv(z: Zone, s: System) {
    && (s.state.Some? && s.state.value.token.Some? ==>
          s.state.value.token.value < |s.history| && s.rows == MirrorOf(z, s.history[s.state.value.token.value]))
    && TokenInv(s)
  }

  /** A running sync lists from the stored token or from scratch; after a 410 there is no stored token. */
  ghost predicate TokenInv(s: System) {
    && (s.running.Some? && s.running.value.token.Some? ==> s.state.Some? && s.state.value.token == s.running.value.token)
    && (s.goneSinceCommit ==> s.state.Some? && s.state.value.token.None? && (s.running.Some? ==> s.running.value.token.None?))
    && (s.state.Some? && s.state.value.status.Ready? ==> s.state.value.token.Some?)
  }

  lemma StepKeepsTokens(z: Zone, s: System, a: Action)
    requires TokenInv(s) && Step(z, s, a).Some?
    ensures TokenInv(Step(z, s, a).value)
  {
  }

  lemma StepKeepsMirror(z: Zone, s: System, a: Action)
    requires Inv(z, s) && Step(z, s, a).Some? && Faithful(z, s, a)
    ensures Inv(z, Step(z, s, a).value)
  {
    StepKeepsTokens(z, s, a);
    if a.LastPage? {
      var from, events := s.running.value.token, s.running.value.collected + a.items;
      if from.None? {
        FullSyncIsTheSnapshot(z, s.rows, events, s.history[a.token]);
      } else {
        IncrementalSyncRefinesFull(z, events, s.history[from.value], s.history[a.token]);
      }
    }
  }

  lemma {:induction false} RunKeepsTokens(z: Zone, s: System, actions: seq<Action>, t: System)
    requires TokenInv(s) && Run(z, s, actions, t)
    ensures TokenInv(t)
    decreases |actions|
  {
    if actions != [] {
      StepKeepsTokens(z, s, actions[0]);
      RunKeepsTokens(z, Step(z, s, actions[0]).value, actions[1..], t);
    }
  }

  lemma {:induction false} RunKeepsMirror(z: Zone, s: System, actions: seq<Action>, t: System)
    requires Inv(z, s) && Run(z, s, actions, t) && FaithfulRun(z, s, actions)
    ensures Inv(z, t)
    decreases |actions|
  {
    if actions != [] {
      StepKeepsMirror(z, s, actions[0]);
      RunKeepsMirror(z, Step(z, s, actions[0]).value, actions[1..], t);
    }
  }

  /**
   Over every run in which no batch drops a change to a mirrored event: a stored token means that the
   mirror is exactly the provider's calendar at that token, as a full sync would have stored it.
   */
  lemma StoredTokenMeansExactMirror(z: Zone, actions: seq<Action>, t: System)
    requires Run(z, Initial, actions, t) && FaithfulRun(z, Initial, actions)
    requires t.state.Some? && t.state.value.token.Some?
    ensures t.state.value.token.value < |t.history| && t.rows == MirrorOf(z, t.history[t.state.value.token.value])
  {
    RunKeepsMirror(z, Initial, actions, t);
  }

  /** A read that is served from the mirror is a read of one calendar snapshot. */
  lemma FreshReadsAreSnapshots(z: Zone, actions: seq<Action>, t: System, now: int, maxStaleness: int)
    requires Run(z, Initial, actions, t) && FaithfulRun(z, Initial, actions)
    requires Fresh(t.state, now, maxStaleness)
    ensures exists v :: 0 <= v < |t.history| && t.rows == MirrorOf(z, t.history[v])
  {
    RunKeepsMirror(z, Initial, actions, t);
    var v := t.state.value.token.value;
    assert 0 <= v < |t.history| && t.rows == MirrorOf(z, t.history[v]);
  }

  /** After a 410, in every run, the next sync that commits was listed in full. */
  lemma GoneForcesAFullSync(z: Zone, actions: seq<Action>, t: System, items: seq<RawEvent>, token: Token, now: int)
    requires Run(z, Initial, actions, t) && t.goneSinceCommit
    requires Step(z, t, LastPage(items, token, now)).Some?
    ensures FullListing(t.running.value.collected + items, t.history[token])
    ensures var u, events := Step(z, t, LastPage(items, token, now)).value, t.running.value.collected + items;
            u.goneSinceCommit || (u.rows == MirrorOf(z, t.history[token]) <==> !DropsAChange(z, map[], events))
  {
    RunKeepsTokens(z, Initial, actions, t);
    FullSyncIsTheSnapshot(z, t.rows, t.running.value.collected + items, t.history[token]);
  }
}
