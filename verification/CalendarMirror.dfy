/**
 The local calendar mirror: db/calendar_mirror.py and `sync_google_calendar_mirror` with
 `_mirror_event_record` of backend/app/services/google_calendar.py, for one company.
 */
module CalendarMirror {
  import opened Common
  import opened FreeSlots

  // ---- Records ---------------------------------------------------------------------------

  /** A provider time: an instant, or a wall-clock reading (an all-day date or a time without offset). */
  datatype EventTime = Absent | Malformed | Instant(utc: int) | Wall(local: int)

  datatype RawEvent = RawEvent(id: string, cancelled: bool, start: EventTime, end: EventTime, payload: string)

  datatype Record = Deleted(id: string) | Upsert(id: string, row: Row)

  datatype Row = Row(start: int, end: int, payload: string)

  predicate Readable(t: EventTime) {
    t.Instant? || t.Wall?
  }

  function Utc(z: Zone, t: EventTime): int
    requires Readable(t)
  {
    if t.Instant? then t.utc else ToUtc(z, t.local)
  }

  /** Python compares two times of the same zone by their wall clocks, and others as instants. */
  predicate EndsAfter(z: Zone, start: EventTime, end: EventTime)
    requires Readable(start) && Readable(end)
  {
    if start.Wall? && end.Wall? then end.local > start.local else Utc(z, end) > Utc(z, start)
  }

  function MirrorRecord(z: Zone, e: RawEvent): Option<Record> {
    if e.id == "" then None
    else if e.cancelled then Some(Deleted(e.id))
    else if !Readable(e.start) || !Readable(e.end) || !EndsAfter(z, e.start, e.end) then None
    else Some(Upsert(e.id, Row(Utc(z, e.start), Utc(z, e.end), e.payload)))
  }

  /** The listing loop: accepted events in order, rejected ones dropped. */
  function Records(z: Zone, events: seq<RawEvent>): seq<Record> {
    if events == [] then []
    else (if MirrorRecord(z, events[0]).Some? then [MirrorRecord(z, events[0]).value] else []) + Records(z, events[1..])
  }

  // ---- Committing a batch ----------------------------------------------------------------

  type Rows = map<string, Row>

  function ApplyRecord(rows: Rows, r: Record): Rows {
    match r
    case Deleted(id) => rows - {id}
    case Upsert(id, row) => rows[id := row]
  }

  function ApplyAll(rows: Rows, records: seq<Record>): Rows
    decreases |records|
  {
    if records == [] then rows else ApplyAll(ApplyRecord(rows, records[0]), records[1..])
  }

  function Committed(rows: Rows, records: seq<Record>, full: bool): Rows {
    ApplyAll(if full then map[] else rows, records)
  }

  /** The table's CHECK (end_time > start_time). */
  predicate Storable(r: Record) {
    r.Upsert? ==> r.row.start < r.row.end
  }

  predicate AllStorable(records: seq<Record>) {
    forall i :: 0 <= i < |records| ==> Storable(records[i])
  }

  datatype SyncStatus = Pending | Syncing | Ready | NeedsFullSync | Failed

  type Token = nat

  datatype SyncState = SyncState(token: Option<Token>, lastSynced: Option<int>, status: SyncStatus)

  /** `mark_calendar_sync_started` / `_failed`, on an absent or a present state row. */
  function Started(s: Option<SyncState>): SyncState {
    if s.None? then SyncState(None, None, Syncing) else s.value.(status := Syncing)
  }

  function FailedState(s: Option<SyncState>, needsFull: bool): SyncState {
    var row := if s.None? then SyncState(None, None, Failed) else s.value;
    if needsFull then row.(status := NeedsFullSync, token := None) else row.(status := Failed)
  }

  function Stale(s: Option<SyncState>): Option<SyncState> {
    if s.None? then None else Some(s.value.(status := Pending, lastSynced := None))
  }

  predicate Fresh(s: Option<SyncState>, now: int, maxStaleness: int) {
    s.Some? && s.value.status.Ready? && s.value.lastSynced.Some? && s.value.lastSynced.value >= now - maxStaleness
  }

  /** Stored events without repetition in the order of ORDER BY start_time, which leaves ties open. */
  ghost predicate ByStart(rows: Rows, ids: seq<string>) {
    && (forall i :: 0 <= i < |ids| ==> ids[i] in rows)
    && (forall i, j :: 0 <= i < j < |ids| ==> ids[i] != ids[j] && rows[ids[i]].start <= rows[ids[j]].start)
  }

  function PlacedByStart(rows: Rows, ids: seq<string>, id: string): (r: seq<string>)
    requires ByStart(rows, ids) && id in rows && id !in ids
    ensures ByStart(rows, r) && forall x :: x in r <==> x == id || x in ids
  {
    if ids == [] || rows[id].start <= rows[ids[0]].start then [id] + ids
    else
      var rest := PlacedByStart(rows, ids[1..], id);
      assert ids == [ids[0]] + ids[1..];
      assert forall x :: x in rest ==> x != ids[0] && rows[ids[0]].start <= rows[x].start;
      assert forall j :: 0 <= j < |rest| ==> rest[j] in rest;
      [ids[0]] + rest
  }

  class MirrorStore {
    var rows: Rows
    var state: Option<SyncState>

    constructor ()
      ensures rows == map[] && state == None
    {
      rows, state := map[], None;
    }

    method MarkSyncStarted()
      modifies this`state
      ensures state == Some(Started(old(state)))
      ensures state.value == if old(state).None? then SyncState(None, None, Syncing)
                             else SyncState(old(state).value.token, old(state).value.lastSynced, Syncing)
    {
      state := Some(if state.None? then SyncState(None, None, Syncing) else state.value.(status := Syncing));
    }

    method MarkSyncFailed(needsFull: bool)
      modifies this`state
      ensures state == Some(FailedState(old(state), needsFull))
      ensures state.value.status == (if needsFull then NeedsFullSync else Failed)
      ensures state.value.token == (if needsFull || old(state).None? then None else old(state).value.token)
      ensures state.value.lastSynced == (if old(state).None? then None else old(state).value.lastSynced)
    {
      var row := if state.None? then SyncState(None, None, Failed) else state.value;
      if needsFull {
        row := row.(status := NeedsFullSync, token := None);
      } else {
        row := row.(status := Failed);
      }
      state := Some(row);
    }

    method MarkSyncStale()
      modifies this`state
      ensures state == Stale(old(state))
      ensures state.Some? <==> old(state).Some?
      ensures state.Some? ==> state.value == SyncState(old(state).value.token, None, Pending)
    {
      if state.Some? {
        state := Some(state.value.(status := Pending, lastSynced := None));
      }
    }

    /** One transaction; a record the table rejects aborts it without effect. */
    method CommitCalendarSync(records: seq<Record>, token: Token, full: bool, now: int) returns (ok: bool)
      modifies this
      ensures ok <==> forall i :: 0 <= i < |records| && records[i].Upsert? ==> records[i].row.start < records[i].row.end
      ensures ok ==> rows == Committed(old(rows), records, full) && state == Some(SyncState(Some(token), Some(now), Ready))
      ensures !ok ==> rows == old(rows) && state == old(state)
    {
      var work := if full then map[] else rows;
      for i := 0 to |records|
        invariant rows == old(rows) && state == old(state)
        invariant AllStorable(records[..i])
        invariant ApplyAll(work, records[i..]) == Committed(rows, records, full)
      {
        var r := records[i];
        assert records[i..][0] == r && records[i..][1..] == records[i + 1..];
        match r
        case Deleted(id) =>
          work := work - {id};
        case Upsert(id, row) =>
          if row.start >= row.end {
            assert !Storable(records[i]);
            return false;
          }
          work := work[id := row];
      }
      assert records[..|records|] == records;
      rows := work;
      state := Some(SyncState(Some(token), Some(now), Ready));
      ok := true;
    }

    /** None when the mirror is stale, otherwise the events that overlap [start, end), by start time. */
    method GetFreshMirroredEvents(start: int, end: int, now: int, maxStaleness: int) returns (found: Option<seq<string>>)
      ensures found.Some? <==>
                state.Some? && state.value.status.Ready? && state.value.lastSynced.Some? && now - state.value.lastSynced.value <= maxStaleness
      ensures found.Some? ==> ByStart(rows, found.value)
      ensures found.Some? ==> forall id :: id in found.value <==> id in rows && rows[id].start < end && rows[id].end > start
    {
      if !(state.Some? && state.value.status.Ready? && state.value.lastSynced.Some?
           && state.value.lastSynced.value >= now - maxStaleness) {
        return None;
      }
      var left := set id | id in rows && rows[id].start < end && rows[id].end > start;
      var ids: seq<string> := [];
      while left != {}
        invariant ByStart(rows, ids)
        invariant forall id :: id in left ==> id in rows && id !in ids
        invariant forall id :: id in left || id in ids <==> id in rows && rows[id].start < end && rows[id].end > start
        decreases left
      {
        var id :| id in left;
        ids := PlacedByStart(rows, ids, id);
        left := left - {id};
      }
      found := Some(ids);
    }
  }

  // ---- One sync run ----------------------------------------------------------------------

  datatype PageReply =
    | Page(items: seq<RawEvent>, more: bool, nextToken: Option<Token>)
    | Gone | Denied | ServerError | Unreachable

  const MAX_PAGES := 100

  /** What a listing amounts to: everything it collected with the new token, or how it failed. */
  datatype Listing = Complete(events: seq<RawEvent>, token: Token) | Incomplete(needsFull: bool)

  function ListFrom(pages: seq<PageReply>, budget: nat, collected: seq<RawEvent>, token: Option<Token>): Listing
    decreases |pages|
  {
    if pages == [] || budget == 0 then Incomplete(false)
    else match pages[0]
      case Gone => Incomplete(true)
      case Page(items, more, next) =>
        var newest := if next.Some? then next else token;
        if more then ListFrom(pages[1..], budget - 1, collected + items, newest)
        else if newest.Some? then Complete(collected + items, newest.value)
        else Incomplete(false)
      case Denied => Incomplete(false)
      case ServerError => Incomplete(false)
      case Unreachable => Incomplete(false)
  }

  /** The page that ends a listing: the first without a next page, all earlier ones having one. */
  ghost predicate EndsAt(pages: seq<PageReply>, k: nat) {
    && k < |pages| && pages[k].Page? && !pages[k].more
    && forall i :: 0 <= i < k ==> pages[i].Page? && pages[i].more
  }

  function ItemsOf(pages: seq<PageReply>): seq<RawEvent>
    requires forall i :: 0 <= i < |pages| ==> pages[i].Page?
  {
    if pages == [] then [] else pages[0].items + ItemsOf(pages[1..])
  }

  /** The last token that came. */
  function LastToken(pages: seq<PageReply>): Option<Token>
    requires forall i :: 0 <= i < |pages| ==> pages[i].Page?
  {
    if pages == [] then None
    else if pages[|pages| - 1].nextToken.Some? then pages[|pages| - 1].nextToken
    else LastToken(pages[..|pages| - 1])
  }

  lemma {:induction false} LastTokenCons(p: PageReply, pages: seq<PageReply>)
    requires p.Page? && forall i :: 0 <= i < |pages| ==> pages[i].Page?
    ensures LastToken([p] + pages) == if LastToken(pages).Some? then LastToken(pages) else p.nextToken
    decreases |pages|
  {
    var all := [p] + pages;
    if pages == [] {
      assert all[..|all| - 1] == [];
    } else {
      assert all[..|all| - 1] == [p] + pages[..|pages| - 1] && all[|all| - 1] == pages[|pages| - 1];
      LastTokenCons(p, pages[..|pages| - 1]);
    }
  }

  /** What `ListFrom` adds to what was collected before, if the listing ends within the budget and brings a token. */
  lemma {:induction false} ListingEnds(pages: seq<PageReply>, budget: nat, collected: seq<RawEvent>, token: Option<Token>, k: nat)
    requires EndsAt(pages, k)
    ensures var newest := if LastToken(pages[..k + 1]).Some? then LastToken(pages[..k + 1]) else token;
            ListFrom(pages, budget, collected, token) ==
              if k < budget && newest.Some? then Complete(collected + ItemsOf(pages[..k + 1]), newest.value) else Incomplete(false)
    decreases |pages|
  {
    var p := pages[0];
    var rest := pages[1..];
    assert pages[..k + 1] == [p] + rest[..k];
    LastTokenCons(p, rest[..k]);
    assert ([p] + rest[..k])[1..] == rest[..k];
    if k > 0 && budget > 0 {
      assert rest[..k - 1 + 1] == rest[..k];
      ListingEnds(rest, budget - 1, collected + p.items, if p.nextToken.Some? then p.nextToken else token, k - 1);
      assert (collected + p.items) + ItemsOf(rest[..k]) == collected + (p.items + ItemsOf(rest[..k]));
    } else if k == 0 {
      assert rest[..0] == [] && ItemsOf([]) == [];
      assert p.items + [] == p.items;
    }
  }

  lemma {:induction false} ListingEndsOnlyThere(pages: seq<PageReply>, budget: nat, collected: seq<RawEvent>, token: Option<Token>)
    requires ListFrom(pages, budget, collected, token).Complete?
    ensures exists k :: EndsAt(pages, k)
    decreases |pages|
  {
    if pages[0].more {
      ListingEndsOnlyThere(pages[1..], budget - 1, collected + pages[0].items,
                           if pages[0].nextToken.Some? then pages[0].nextToken else token);
      var k: nat :| EndsAt(pages[1..], k);
      assert forall i :: 0 < i < k + 1 ==> pages[i] == pages[1..][i - 1];
      assert EndsAt(pages, k + 1);
    } else {
      assert EndsAt(pages, 0);
    }
  }

  /**
   A listing is complete exactly if one of its first hundred pages ends it after pages that all announced a
   next one, and a token came; then it collected every item of these pages, in order, and the last token.
   */
  lemma AListingCompletesExactlyIf(pages: seq<PageReply>, events: seq<RawEvent>, token: Token)
    ensures ListFrom(pages, MAX_PAGES, [], None) == Complete(events, token) <==>
              exists k: nat :: k < 100 && EndsAt(pages, k) && events == ItemsOf(pages[..k + 1]) && LastToken(pages[..k + 1]) == Some(token)
  {
    forall k: nat | EndsAt(pages, k)
      ensures ListFrom(pages, MAX_PAGES, [], None) ==
                if k < 100 && LastToken(pages[..k + 1]).Some? then Complete(ItemsOf(pages[..k + 1]), LastToken(pages[..k + 1]).value)
                else Incomplete(false)
    {
      ListingEnds(pages, MAX_PAGES, [], None, k);
      assert [] + ItemsOf(pages[..k + 1]) == ItemsOf(pages[..k + 1]);
    }
    if ListFrom(pages, MAX_PAGES, [], None).Complete? {
      ListingEndsOnlyThere(pages, MAX_PAGES, [], None);
    }
  }

  /** And it asks for a full sync next exactly if one of its first hundred pages is refused as gone, after pages that announced a next one. */
  lemma {:induction false} AListingIsGoneExactlyIf(pages: seq<PageReply>, budget: nat, collected: seq<RawEvent>, token: Option<Token>)
    ensures ListFrom(pages, budget, collected, token) == Incomplete(true) <==>
              exists k: nat :: k < budget && GoneAt(pages, k)
    decreases |pages|
  {
    if pages != [] && budget > 0 {
      if pages[0].Page? && pages[0].more {
        AListingIsGoneExactlyIf(pages[1..], budget - 1, collected + pages[0].items,
                                if pages[0].nextToken.Some? then pages[0].nextToken else token);
        if k: nat :| k < budget - 1 && GoneAt(pages[1..], k) {
          assert forall i :: 0 < i <= k + 1 ==> pages[i] == pages[1..][i - 1];
          assert GoneAt(pages, k + 1);
        }
        if k: nat :| k < budget && GoneAt(pages, k) {
          assert GoneAt(pages[1..], k - 1);
        }
      } else if pages[0].Gone? {
        assert GoneAt(pages, 0);
      }
    }
  }

  ghost predicate GoneAt(pages: seq<PageReply>, k: nat) {
    && k < |pages| && pages[k].Gone?
    && forall i :: 0 <= i < k ==> pages[i].Page? && pages[i].more
  }

  /** The token a sync lists from; None asks for everything. */
  function TokenToUse(s: Option<SyncState>, forceFull: bool): Option<Token> {
    if forceFull || s.None? || s.value.status.NeedsFullSync? then None else s.value.token
  }

  lemma {:induction false} RecordsConcat(z: Zone, a: seq<RawEvent>, b: seq<RawEvent>)
    ensures Records(z, a + b) == Records(z, a) + Records(z, b)
  {
    if a == [] {
      assert a + b == b;
    } else {
      assert (a + b)[0] == a[0] && (a + b)[1..] == a[1..] + b;
      RecordsConcat(z, a[1..], b);
    }
  }

  method CollectRecords(z: Zone, items: seq<RawEvent>) returns (records: seq<Record>)
    ensures records == Records(z, items)
  {
    records := [];
    for i := 0 to |items|
      invariant records + Records(z, items[i..]) == Records(z, items)
    {
      assert items[i..][0] == items[i] && items[i..][1..] == items[i + 1..];
      var r := MirrorRecord(z, items[i]);
      if r.Some? {
        records := records + [r.value];
      }
    }
  }

  /**
   `sync_google_calendar_mirror`, given the replies the provider will make.  A listing that does not
   complete changes no row; one that completes commits everything it collected, from scratch exactly
   when it was listed without a token.
   */
  method SyncMirror(store: MirrorStore, z: Zone, pages: seq<PageReply>, hasAccess: bool, forceFull: bool,
                    now: int, maxStaleness: int)
    returns (ok: bool)
    modifies store
    ensures var skip := Fresh(old(store.state), now, maxStaleness) && !forceFull;
            var token := TokenToUse(old(store.state), forceFull);
            var listing := ListFrom(pages, MAX_PAGES, [], None);
            if skip then ok && store.rows == old(store.rows) && store.state == old(store.state)
            else if !hasAccess then !ok && store.rows == old(store.rows) && store.state == Some(FailedState(old(store.state), false))
            else if listing.Incomplete? then
              !ok && store.rows == old(store.rows) && store.state == Some(FailedState(Some(Started(old(store.state))), listing.needsFull))
            else if !AllStorable(Records(z, listing.events)) then
              !ok && store.rows == old(store.rows) && store.state == Some(Started(old(store.state)))
            else
              && ok && store.rows == Committed(old(store.rows), Records(z, listing.events), token.None?)
              && store.state == Some(SyncState(Some(listing.token), Some(now), Ready))
    ensures var was := old(store.state);
            var skip := !forceFull && was.Some? && was.value.status.Ready? && was.value.lastSynced.Some?
                        && now - was.value.lastSynced.value <= maxStaleness;
            var full := forceFull || was.None? || was.value.status.NeedsFullSync? || was.value.token.None?;
            && (skip ==> ok && store.state == was)
            && (store.rows != old(store.rows) ==> !skip && ok)
            && (ok && !skip ==>
                  var listing := ListFrom(pages, MAX_PAGES, [], None);
                  && listing.Complete? && store.state == Some(SyncState(Some(listing.token), Some(now), Ready))
                  && store.rows == ApplyAll(if full then map[] else old(store.rows), Records(z, listing.events)))
            && (!ok ==> store.state.Some? && !store.state.value.status.Ready?)
  {
    if store.state.Some? && store.state.value.status.Ready? && !forceFull && store.state.value.lastSynced.Some?
       && store.state.value.lastSynced.value >= now - maxStaleness {
      return true;
    }
    if !hasAccess {
      store.MarkSyncFailed(false);
      return false;
    }
    var token := if forceFull || store.state.None? || store.state.value.status.NeedsFullSync? then None else store.state.value.token;
    store.MarkSyncStarted();
    ghost var listing := ListFrom(pages, MAX_PAGES, [], None);
    var records: seq<Record> := [];
    ghost var collected: seq<RawEvent> := [];
    var nextToken: Option<Token> := None;
    var page := 0;
    var more := true;
    while more && page < MAX_PAGES && page < |pages|
      invariant 0 <= page <= MAX_PAGES && page <= |pages|
      invariant store.rows == old(store.rows) && store.state == Some(Started(old(store.state)))
      invariant records == Records(z, collected)
      invariant more ==> listing == ListFrom(pages[page..], MAX_PAGES - page, collected, nextToken)
      invariant !more ==> listing == if nextToken.Some? then Complete(collected, nextToken.value) else Incomplete(false)
    {
      var reply := pages[page];
      assert pages[page..][0] == reply && pages[page..][1..] == pages[page + 1..];
      match reply {
        case Gone =>
          store.MarkSyncFailed(true);
          return false;
        case Denied =>
          store.MarkSyncFailed(false);
          return false;
        case ServerError =>
          store.MarkSyncFailed(false);
          return false;
        case Unreachable =>
          store.MarkSyncFailed(false);
          return false;
        case Page(items, hasMore, next) =>
          var batch := CollectRecords(z, items);
          RecordsConcat(z, collected, items);
          records := records + batch;
          collected := collected + items;
          nextToken := if next.Some? then next else nextToken;
          more := hasMore;
      }
      page := page + 1;
    }
    if more || nextToken.None? {
      store.MarkSyncFailed(false);
      return false;
    }
    ok := store.CommitCalendarSync(records, nextToken.value, token.None?, now);
  }
}
