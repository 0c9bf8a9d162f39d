/**
 The bounded single-flight cache of backend/app/services/calendar_read_cache.py.  The ordered dictionary
 is a sequence with distinct keys, least recently used first; cached documents are references, so that
 copying can be told from sharing.
 */
module ReadCache {
  import opened Common

  type Ref = nat
  type TaskId = nat

  datatype Key = Key(company: string, query: nat)
  datatype Entry = Entry(key: Key, expiresAt: real, ref: Ref)

  // ---- The ordered dictionary ------------------------------------------------------------

  function Find(entries: seq<Entry>, key: Key): (r: Option<Entry>)
    ensures r.Some? ==> r.value in entries && r.value.key == key
    ensures r.None? ==> forall e :: e in entries ==> e.key != key
  {
    if entries == [] then None
    else if entries[0].key == key then Some(entries[0])
    else Find(entries[1..], key)
  }

  function Without(entries: seq<Entry>, key: Key): (r: seq<Entry>)
    ensures forall e :: e in r <==> e in entries && e.key != key
    ensures |r| <= |entries|
  {
    if entries == [] then []
    else if entries[0].key == key then Without(entries[1..], key)
    else [entries[0]] + Without(entries[1..], key)
  }

  function WithoutCompany(entries: seq<Entry>, company: string): (r: seq<Entry>)
    ensures forall e :: e in r <==> e in entries && e.key.company != company
    ensures |r| <= |entries|
  {
    if entries == [] then []
    else if entries[0].key.company == company then WithoutCompany(entries[1..], company)
    else [entries[0]] + WithoutCompany(entries[1..], company)
  }

  /** The entry with `e.key` becomes `e` and the most recently used one. */
  function Touched(entries: seq<Entry>, e: Entry): seq<Entry> {
    Without(entries, e.key) + [e]
  }

  function Trimmed(entries: seq<Entry>, max: nat): (r: seq<Entry>) {
    if |entries| > max then entries[|entries| - max..] else entries
  }

  function Stored(entries: seq<Entry>, e: Entry, max: nat): seq<Entry> {
    Trimmed(Touched(entries, e), max)
  }

  // ---- The critical sections -------------------------------------------------------------

  datatype Begun = Hit(ref: Ref) | Joined(task: TaskId) | Created

  function BeginResult(entries: seq<Entry>, inflight: map<Key, TaskId>, key: Key, now: real): Begun {
    var found := Find(entries, key);
    if found.Some? && found.value.expiresAt > now then Hit(found.value.ref)
    else if key in inflight then Joined(inflight[key])
    else Created
  }

  function BeginEntries(entries: seq<Entry>, key: Key, now: real): seq<Entry> {
    var found := Find(entries, key);
    if found.None? then entries
    else if found.value.expiresAt > now then Touched(entries, found.value)
    else Without(entries, key)
  }

  function SettledInflight(inflight: map<Key, TaskId>, key: Key, task: TaskId): map<Key, TaskId> {
    if key in inflight && inflight[key] == task then inflight - {key} else inflight
  }

  class CalendarReadCache {
    const maxEntries: nat
    var entries: seq<Entry>
    var inflight: map<Key, TaskId>

    constructor (max: int)
      ensures maxEntries == Max(1, max) && entries == [] && inflight == map[]
    {
      maxEntries, entries, inflight := Max(1, max), [], map[];
    }

    /** The first critical section of `get_or_load`; `newTask` runs the loader when one is started. */
    method Begin(key: Key, now: real, newTask: TaskId) returns (begun: Begun)
      modifies this
      ensures begun == BeginResult(old(entries), old(inflight), key, now)
      ensures entries == BeginEntries(old(entries), key, now)
      ensures inflight == if begun.Created? then old(inflight)[key := newTask] else old(inflight)
      ensures begun.Hit? ==>
                && (exists e :: e in old(entries) && e == Entry(key, e.expiresAt, begun.ref) && e.expiresAt > now)
                && (forall e :: e in entries <==> e in old(entries) && (e.key == key ==> e == entries[|entries| - 1]))
                && entries != [] && entries[|entries| - 1].key == key && entries[|entries| - 1].ref == begun.ref
      ensures !begun.Hit? ==>
                && (forall e :: e in entries <==> e in old(entries) && e.key != key)
                && (begun.Joined? <==> key in old(inflight)) && (begun.Joined? ==> begun.task == old(inflight)[key])
                && ((forall e :: e in old(entries) ==> e.key != key) || exists e :: e in old(entries) && e.key == key && e.expiresAt <= now)
    {
      var entry := Find(entries, key);
      if entry.Some? && entry.value.expiresAt > now {
        entries := Without(entries, key) + [entry.value];
        return Hit(entry.value.ref);
      }
      if entry.Some? {
        entries := Without(entries, key);
      }
      if key in inflight {
        return Joined(inflight[key]);
      }
      inflight := inflight[key := newTask];
      begun := Created;
    }

    /** The `finally` clause of a caller whose task is done. */
    method Settle(key: Key, task: TaskId)
      modifies this
      ensures entries == old(entries) && inflight == SettledInflight(old(inflight), key, task)
      ensures inflight == if key in old(inflight) && old(inflight)[key] == task then old(inflight) - {key} else old(inflight)
    {
      if key in inflight && inflight[key] == task {
        inflight := inflight - {key};
      }
    }

    method Store(key: Key, expiresAt: real, ref: Ref)
      modifies this
      ensures inflight == old(inflight) && entries == Stored(old(entries), Entry(key, expiresAt, ref), maxEntries)
    {
      entries := Without(entries, key) + [Entry(key, expiresAt, ref)];
      ghost var full := entries;
      ghost var dropped := 0;
      while |entries| > maxEntries
        invariant dropped <= |full| && entries == full[dropped..] && inflight == old(inflight)
        invariant dropped > 0 ==> |entries| >= maxEntries
      {
        entries := entries[1..];
        dropped := dropped + 1;
      }
      assert dropped == if |full| > maxEntries then |full| - maxEntries else 0;
    }

    method InvalidateCompany(company: string)
      modifies this
      ensures inflight == old(inflight) && entries == WithoutCompany(old(entries), company)
      ensures forall e :: e in entries <==> e in old(entries) && e.key.company != company
    {
      var all := entries;
      var kept: seq<Entry> := [];
      for i := 0 to |all|
        invariant entries == old(entries) && inflight == old(inflight)
        invariant kept + WithoutCompany(all[i..], company) == WithoutCompany(all, company)
      {
        assert all[i..][1..] == all[i + 1..];
        if all[i].key.company != company {
          kept := kept + [all[i]];
        }
      }
      assert all[|all|..] == [];
      entries := kept;
    }

    method Clear()
      modifies this
      ensures entries == [] && inflight == map[]
    {
      entries, inflight := [], map[];
    }
  }
}
