/**
 Any number of callers, loaders, mutations and invalidations over one calendar read cache.  Each action
 is the code between two awaits; documents live in an explicit heap.
 */
module ReadCacheSafety {
  import opened Common
  import opened ReadCache

  // ---- State -----------------------------------------------------------------------------

  /** A result dictionary; `cacheable` is the status and source test of the cache. */
  datatype Document = Document(cacheable: bool, content: int)

  datatype TaskStatus = Loading | Loaded(ref: Ref) | Failed
  datatype Task = Task(key: Key, status: TaskStatus)

  /** `early`: the caller was cancelled while its loader was still running. */
  datatype CallPhase = Waiting(task: TaskId) | Answered(ref: Ref) | Raised | Cancelled(early: bool)

  /** `joined` is the task a call waited for; a hit joins none. */
  datatype Call = Call(key: Key, ttl: real, joined: Option<TaskId>, phase: CallPhase)

  /** History: what a loader returned and when; when and for how long a copy was stored. */
  datatype Load = Load(key: Key, document: Document, at: real)
  datatype StoreInfo = StoreInfo(key: Key, document: Document, at: real, ttl: real)

  datatype State = State(max: nat, now: real, entries: seq<Entry>, inflight: map<Key, TaskId>,
                         tasks: map<TaskId, Task>, calls: map<nat, Call>, heap: map<Ref, Document>, handed: set<Ref>,
                         loads: map<TaskId, Load>, stores: map<Ref, StoreInfo>, uses: map<Key, nat>, tick: nat)

  function Initial(max: int): State {
    State(Max(1, max), 0.0, [], map[], map[], map[], map[], {}, map[], map[], map[], 0)
  }

  // ---- Actions and steps -----------------------------------------------------------------

  datatype Action =
    | Ask(call: nat, key: Key, ttl: real, task: TaskId, copy: Ref)
    | LoaderReturns(task: TaskId, document: Document, ref: Ref)
    | LoaderRaises(task: TaskId)
    | Continue(call: nat, kept: Ref, copy: Ref)
    | CallerCancelled(call: nat)
    | Mutate(ref: Ref, document: Document)
    | Invalidate(company: string)
    | Clear
    | Pass(seconds: real)

  function Used(s: State, key: Key): State {
    s.(uses := s.uses[key := s.tick], tick := s.tick + 1)
  }

  /** A copy of the document at `from`, handed to call `id`. */
  function Answer(s: State, id: nat, c: Call, from: Ref, copy: Ref): State
    requires from in s.heap
  {
    s.(heap := s.heap[copy := s.heap[from]], handed := s.handed + {copy}, calls := s.calls[id := c.(phase := Answered(copy))])
  }

  /** `get_or_load` with a positive TTL; with any other TTL the cache is bypassed and nothing here changes. */
  function AskStep(s: State, id: nat, key: Key, ttl: real, task: TaskId, copy: Ref): Option<State> {
    if ttl <= 0.0 || id in s.calls || task in s.tasks || copy in s.heap then None
    else
      var t := s.(entries := BeginEntries(s.entries, key, s.now));
      match BeginResult(s.entries, s.inflight, key, s.now)
      case Hit(ref) => if ref in s.heap then Some(Used(Answer(t, id, Call(key, ttl, None, Raised), ref, copy), key)) else None
      case Joined(joined) => Some(t.(calls := s.calls[id := Call(key, ttl, Some(joined), Waiting(joined))]))
      case Created =>
        Some(t.(calls := s.calls[id := Call(key, ttl, Some(task), Waiting(task))],
                tasks := s.tasks[task := Task(key, Loading)], inflight := s.inflight[key := task]))
  }

  function Keep(s: State, c: Call, from: Ref, kept: Ref): State
    requires from in s.heap
  {
    Used(s.(entries := Stored(s.entries, Entry(c.key, s.now + c.ttl, kept), s.max), heap := s.heap[kept := s.heap[from]],
            stores := s.stores[kept := StoreInfo(c.key, s.heap[from], s.now, c.ttl)]), c.key)
  }

  function ContinueStep(s: State, id: nat, c: Call, kept: Ref, copy: Ref): Option<State> {
    if !c.phase.Waiting? || c.phase.task !in s.tasks || kept in s.heap || copy in s.heap || kept == copy then None
    else
      var t := s.(inflight := SettledInflight(s.inflight, c.key, c.phase.task));
      match s.tasks[c.phase.task].status
      case Loading => None
      case Failed => Some(t.(calls := s.calls[id := c.(phase := Raised)]))
      case Loaded(ref) =>
        if ref !in s.heap then None
        else Some(Answer(if s.heap[ref].cacheable then Keep(t, c, ref, kept) else t, id, c, ref, copy))
  }

  function Step(s: State, a: Action): Option<State> {
    match a
    case Ask(call, key, ttl, task, copy) => AskStep(s, call, key, ttl, task, copy)
    case LoaderReturns(task, document, ref) =>
      if task in s.tasks && s.tasks[task].status.Loading? && ref !in s.heap
      then Some(s.(tasks := s.tasks[task := s.tasks[task].(status := Loaded(ref))], heap := s.heap[ref := document],
                   loads := s.loads[task := Load(s.tasks[task].key, document, s.now)])) else None
    case LoaderRaises(task) =>
      if task in s.tasks && s.tasks[task].status.Loading?
      then Some(s.(tasks := s.tasks[task := s.tasks[task].(status := Failed)])) else None
    case Continue(call, kept, copy) => if call in s.calls then ContinueStep(s, call, s.calls[call], kept, copy) else None
    case CallerCancelled(call) =>
      if call !in s.calls || !s.calls[call].phase.Waiting? then None
      else
        var c := s.calls[call];
        var finished := c.phase.task in s.tasks && !s.tasks[c.phase.task].status.Loading?;
        Some(s.(calls := s.calls[call := c.(phase := Cancelled(!finished))],
                inflight := if finished then SettledInflight(s.inflight, c.key, c.phase.task) else s.inflight))
    case Mutate(ref, document) => if ref in s.handed then Some(s.(heap := s.heap[ref := document])) else None
    case Invalidate(company) => Some(s.(entries := WithoutCompany(s.entries, company)))
    case Clear => Some(s.(entries := [], inflight := map[]))
    case Pass(seconds) => if seconds >= 0.0 then Some(s.(now := s.now + seconds)) else None
  }

  ghost predicate Reaches(s: State, actions: seq<Action>, t: State)
    decreases |actions|
  {
    if actions == [] then s == t
    else Step(s, actions[0]).Some? && Reaches(Step(s, actions[0]).value, actions[1..], t)
  }

  // ---- Invariants ------------------------------------------------------------------------

  /** Entries in order of last use, each used, no more than the bound. */
  ghost predicate Ordered(entries: seq<Entry>, uses: map<Key, nat>, tick: nat) {
    && (forall e :: e in entries ==> e.key in uses && uses[e.key] < tick)
    && (forall i, j :: 0 <= i < j < |entries| ==> uses[entries[i].key] < uses[entries[j].key])
  }

  ghost predicate LruInv(s: State) {
    1 <= s.max && |s.entries| <= s.max && Ordered(s.entries, s.uses, s.tick)
  }

  /** A reference the cache keeps to itself: never handed out, and holding what was put there. */
  ghost predicate Private(s: State, ref: Ref, document: Document) {
    ref in s.heap && ref !in s.handed && s.heap[ref] == document
  }

  ghost predicate Produced(s: State, key: Key, document: Document) {
    exists task :: task in s.loads && s.loads[task].key == key && s.loads[task].document == document
  }

  ghost predicate EntryInv(s: State, e: Entry) {
    && e.ref in s.stores && s.stores[e.ref].key == e.key && e.expiresAt == s.stores[e.ref].at + s.stores[e.ref].ttl
    && s.stores[e.ref].at <= s.now && Private(s, e.ref, s.stores[e.ref].document)
    && Produced(s, e.key, s.stores[e.ref].document)
  }

  ghost predicate TaskInv(s: State, task: TaskId) {
    task in s.tasks && s.tasks[task].status.Loaded? ==>
      task in s.loads && s.loads[task].key == s.tasks[task].key && Private(s, s.tasks[task].status.ref, s.loads[task].document)
  }

  ghost predicate CallInv(s: State, id: nat) {
    id in s.calls && s.calls[id].phase.Waiting? ==>
      s.calls[id].joined == Some(s.calls[id].phase.task)
      && s.calls[id].phase.task in s.tasks && s.tasks[s.calls[id].phase.task].key == s.calls[id].key
  }

  ghost predicate OwnInv(s: State) {
    && s.handed <= s.heap.Keys && s.stores.Keys <= s.heap.Keys
    && (forall task :: task in s.loads ==> task in s.tasks && s.tasks[task].status.Loaded?)
    && (forall e :: e in s.entries ==> EntryInv(s, e))
    && (forall task :: task in s.tasks ==> TaskInv(s, task))
    && (forall id :: id in s.calls ==> CallInv(s, id))
    && (forall key :: key in s.inflight ==> s.inflight[key] in s.tasks && s.tasks[s.inflight[key]].key == key)
  }

  ghost predicate Inv(s: State) {
    LruInv(s) && OwnInv(s)
  }

  // ---- The ordered dictionary stays in order -------------------------------------------------

  lemma {:induction false} WithoutStaysOrdered(entries: seq<Entry>, key: Key, uses: map<Key, nat>, tick: nat)
    requires Ordered(entries, uses, tick)
    ensures Ordered(Without(entries, key), uses, tick)
    decreases |entries|
  {
    if entries != [] {
      var rest := entries[1..];
      WithoutStaysOrdered(rest, key, uses, tick);
      var r := Without(rest, key);
      if entries[0].key != key {
        forall j | 0 <= j < |r| ensures uses[entries[0].key] < uses[r[j].key] {
          assert r[j] in rest;
        }
      }
    }
  }

  lemma {:induction false} WithoutCompanyStaysOrdered(entries: seq<Entry>, company: string, uses: map<Key, nat>, tick: nat)
    requires Ordered(entries, uses, tick)
    ensures Ordered(WithoutCompany(entries, company), uses, tick)
    decreases |entries|
  {
    if entries != [] {
      var rest := entries[1..];
      WithoutCompanyStaysOrdered(rest, company, uses, tick);
      var r := WithoutCompany(rest, company);
      if entries[0].key.company != company {
        forall j | 0 <= j < |r| ensures uses[entries[0].key] < uses[r[j].key] {
          assert r[j] in rest;
        }
      }
    }
  }

  lemma TouchedStaysOrdered(entries: seq<Entry>, e: Entry, uses: map<Key, nat>, tick: nat)
    requires Ordered(entries, uses, tick)
    ensures Ordered(Touched(entries, e), uses[e.key := tick], tick + 1)
    ensures e in entries ==> |Touched(entries, e)| <= |entries|
  {
    WithoutStaysOrdered(entries, e.key, uses, tick);
    var r := Without(entries, e.key);
    assert forall i :: 0 <= i < |r| ==> r[i] in r && r[i].key != e.key;
    if e in entries {
      WithoutIsShorter(entries, e);
    }
  }

  lemma {:induction false} WithoutIsShorter(entries: seq<Entry>, e: Entry)
    requires e in entries
    ensures |Without(entries, e.key)| < |entries|
    decreases |entries|
  {
    if entries[0].key != e.key {
      WithoutIsShorter(entries[1..], e);
    }
  }

  lemma StoredStaysOrdered(entries: seq<Entry>, e: Entry, max: nat, uses: map<Key, nat>, tick: nat)
    requires Ordered(entries, uses, tick) && 1 <= max
    ensures Ordered(Stored(entries, e, max), uses[e.key := tick], tick + 1) && |Stored(entries, e, max)| <= max
  {
    TouchedStaysOrdered(entries, e, uses, tick);
  }

  lemma LruStepKeeps(s: State, a: Action)
    requires LruInv(s) && Step(s, a).Some?
    ensures LruInv(Step(s, a).value)
  {
    match a
    case Ask(call, key, ttl, task, copy) => AskKeepsOrder(s, call, key, ttl, task, copy);
    case Continue(call, kept, copy) => ContinueKeepsOrder(s, call, s.calls[call], kept, copy);
    case Invalidate(company) => WithoutCompanyStaysOrdered(s.entries, company, s.uses, s.tick);
    case LoaderReturns(_, _, _) =>
    case LoaderRaises(_) =>
    case CallerCancelled(_) =>
    case Mutate(_, _) =>
    case Clear =>
    case Pass(_) =>
  }

  lemma AskKeepsOrder(s: State, id: nat, key: Key, ttl: real, task: TaskId, copy: Ref)
    requires LruInv(s) && AskStep(s, id, key, ttl, task, copy).Some?
    ensures LruInv(AskStep(s, id, key, ttl, task, copy).value)
  {
    BeginKeepsOrder(s.entries, key, s.now, s.uses, s.tick);
    AskTouchesTheOrder(s, id, key, ttl, task, copy);
  }

  lemma AskTouchesTheOrder(s: State, id: nat, key: Key, ttl: real, task: TaskId, copy: Ref)
    requires AskStep(s, id, key, ttl, task, copy).Some?
    ensures var t := AskStep(s, id, key, ttl, task, copy).value;
            var found := Find(s.entries, key);
            && t.max == s.max && t.entries == BeginEntries(s.entries, key, s.now)
            && (if found.Some? && found.value.expiresAt > s.now then t.uses == s.uses[key := s.tick] && t.tick == s.tick + 1
                else t.uses == s.uses && t.tick == s.tick)
  {
  }

  lemma BeginKeepsOrder(entries: seq<Entry>, key: Key, now: real, uses: map<Key, nat>, tick: nat)
    requires Ordered(entries, uses, tick)
    ensures |BeginEntries(entries, key, now)| <= |entries|
    ensures var found := Find(entries, key);
            if found.Some? && found.value.expiresAt > now then Ordered(BeginEntries(entries, key, now), uses[key := tick], tick + 1)
            else Ordered(BeginEntries(entries, key, now), uses, tick)
  {
    var found := Find(entries, key);
    if found.Some? {
      TouchedStaysOrdered(entries, found.value, uses, tick);
      WithoutStaysOrdered(entries, key, uses, tick);
    }
  }

  lemma StoringKeepsOrder(s: State, e: Entry, t: State)
    requires LruInv(s) && t.max == s.max && t.entries == Stored(s.entries, e, s.max)
    requires t.uses == s.uses[e.key := s.tick] && t.tick == s.tick + 1
    ensures LruInv(t)
  {
    StoredStaysOrdered(s.entries, e, s.max, s.uses, s.tick);
  }

  lemma KeepKeepsOrder(s: State, c: Call, from: Ref, kept: Ref)
    requires LruInv(s) && from in s.heap
    ensures LruInv(Keep(s, c, from, kept))
  {
    StoringKeepsOrder(s, Entry(c.key, s.now + c.ttl, kept), Keep(s, c, from, kept));
  }

  lemma ContinueKeepsOrder(s: State, id: nat, c: Call, kept: Ref, copy: Ref)
    requires LruInv(s) && ContinueStep(s, id, c, kept, copy).Some?
    ensures LruInv(ContinueStep(s, id, c, kept, copy).value)
  {
    var u := s.(inflight := SettledInflight(s.inflight, c.key, c.phase.task));
    var status := s.tasks[c.phase.task].status;
    if status.Loaded? && s.heap[status.ref].cacheable {
      KeepKeepsOrder(u, c, status.ref, kept);
    }
  }

  // ---- Nobody else writes what the cache holds ---------------------------------------------

  /** History only grows, and no private reference is handed out or written. */
  ghost predicate Extends(s: State, t: State) {
    && s.now <= t.now
    && (forall ref :: ref in s.heap ==> ref in t.heap)
    && (forall ref :: ref in s.heap && ref !in s.handed ==> t.heap[ref] == s.heap[ref] && ref !in t.handed)
    && (forall task :: task in s.loads ==> task in t.loads && t.loads[task] == s.loads[task])
    && (forall ref :: ref in s.stores ==> ref in t.stores && t.stores[ref] == s.stores[ref])
  }

  lemma EntryCarries(s: State, t: State, e: Entry)
    requires Extends(s, t) && EntryInv(s, e)
    ensures EntryInv(t, e)
  {
    var task :| task in s.loads && s.loads[task].key == e.key && s.loads[task].document == s.stores[e.ref].document;
    assert task in t.loads && t.loads[task].key == e.key;
  }

  lemma CallsCarry(s: State, t: State)
    requires OwnInv(s) && t.calls == s.calls
    requires forall task :: task in s.tasks ==> task in t.tasks && t.tasks[task].key == s.tasks[task].key
    ensures forall id :: id in t.calls ==> CallInv(t, id)
  {
    forall id | id in t.calls ensures CallInv(t, id) {
      assert CallInv(s, id);
    }
  }

  lemma EntriesCarry(s: State, t: State)
    requires Extends(s, t) && OwnInv(s)
    ensures forall e :: e in s.entries ==> EntryInv(t, e)
    ensures forall task :: task in s.tasks && task in t.tasks && t.tasks[task] == s.tasks[task] ==> TaskInv(t, task)
  {
    forall e | e in s.entries ensures EntryInv(t, e) {
      EntryCarries(s, t, e);
    }
    forall task | task in s.tasks && task in t.tasks && t.tasks[task] == s.tasks[task] ensures TaskInv(t, task) {
      assert TaskInv(s, task);
    }
  }

  /** Dropping entries and in-flight marks, counting uses, and letting time pass. */
  lemma DroppingKeepsOwn(s: State, t: State)
    requires OwnInv(s) && s.now <= t.now
    requires t == s.(now := t.now, entries := t.entries, inflight := t.inflight, uses := t.uses, tick := t.tick)
    requires (forall e :: e in t.entries ==> e in s.entries)
    requires (forall key :: key in t.inflight ==> key in s.inflight && t.inflight[key] == s.inflight[key])
    ensures OwnInv(t)
  {
    EntriesCarry(s, t);
    CallsCarry(s, t);
  }

  lemma CallsKeepOwn(s: State, t: State, id: nat)
    requires OwnInv(s) && id in t.calls && t == s.(calls := s.calls[id := t.calls[id]]) && CallInv(t, id)
    ensures OwnInv(t)
  {
    EntriesCarry(s, t);
    forall other | other in t.calls ensures CallInv(t, other) {
      assert other != id ==> CallInv(s, other);
    }
  }

  lemma AnswerKeepsOwn(s: State, id: nat, c: Call, from: Ref, copy: Ref)
    requires OwnInv(s) && from in s.heap && copy !in s.heap
    ensures OwnInv(Answer(s, id, c, from, copy))
  {
    var t := Answer(s, id, c, from, copy);
    EntriesCarry(s, t);
    forall other | other in t.calls ensures CallInv(t, other) {
      assert other != id ==> CallInv(s, other);
    }
  }

  lemma StoringExtends(s: State, c: Call, document: Document, kept: Ref, t: State)
    requires OwnInv(s) && kept !in s.heap
    requires t == s.(entries := t.entries, heap := s.heap[kept := document], uses := t.uses, tick := t.tick,
                     stores := s.stores[kept := StoreInfo(c.key, document, s.now, c.ttl)])
    ensures Extends(s, t) && kept !in t.handed
  {
  }

  lemma StoredEntryHolds(s: State, c: Call, document: Document, kept: Ref, t: State)
    requires Extends(s, t) && Produced(s, c.key, document) && kept !in t.handed
    requires kept in t.heap && t.heap[kept] == document
    requires kept in t.stores && t.stores[kept] == StoreInfo(c.key, document, s.now, c.ttl)
    ensures EntryInv(t, Entry(c.key, s.now + c.ttl, kept))
  {
    var task :| task in s.loads && s.loads[task].key == c.key && s.loads[task].document == document;
    assert task in t.loads;
  }

  lemma StoringKeepsOwn(s: State, c: Call, document: Document, kept: Ref, t: State)
    requires OwnInv(s) && kept !in s.heap && Produced(s, c.key, document)
    requires t == s.(entries := t.entries, heap := s.heap[kept := document], uses := t.uses, tick := t.tick,
                     stores := s.stores[kept := StoreInfo(c.key, document, s.now, c.ttl)])
    requires forall e :: e in t.entries ==> e == Entry(c.key, s.now + c.ttl, kept) || e in s.entries
    ensures OwnInv(t)
  {
    StoringExtends(s, c, document, kept, t);
    EntriesCarry(s, t);
    StoredEntryHolds(s, c, document, kept, t);
    CallsCarry(s, t);
  }

  lemma KeepKeepsOwn(s: State, c: Call, from: Ref, kept: Ref)
    requires OwnInv(s) && from in s.heap && kept !in s.heap && Produced(s, c.key, s.heap[from])
    ensures OwnInv(Keep(s, c, from, kept))
  {
    StoredMembers(s.entries, Entry(c.key, s.now + c.ttl, kept), s.max);
    StoringKeepsOwn(s, c, s.heap[from], kept, Keep(s, c, from, kept));
  }

  lemma StoredMembers(entries: seq<Entry>, e: Entry, max: nat)
    ensures forall f :: f in Stored(entries, e, max) ==> f == e || f in entries
  {
  }

  lemma NewTaskKeepsOwn(s: State, key: Key, task: TaskId, t: State)
    requires OwnInv(s) && task !in s.tasks
    requires t == s.(tasks := s.tasks[task := Task(key, Loading)], inflight := s.inflight[key := task])
    ensures OwnInv(t)
  {
    EntriesCarry(s, t);
    CallsCarry(s, t);
  }

  lemma CreateKeepsOwn(s: State, id: nat, key: Key, ttl: real, task: TaskId)
    requires OwnInv(s) && id !in s.calls && task !in s.tasks
    ensures OwnInv(s.(calls := s.calls[id := Call(key, ttl, Some(task), Waiting(task))], tasks := s.tasks[task := Task(key, Loading)],
                      inflight := s.inflight[key := task]))
  {
    var u := s.(tasks := s.tasks[task := Task(key, Loading)], inflight := s.inflight[key := task]);
    NewTaskKeepsOwn(s, key, task, u);
    CallsKeepOwn(u, u.(calls := u.calls[id := Call(key, ttl, Some(task), Waiting(task))]), id);
  }

  lemma AskKeepsOwn(s: State, id: nat, key: Key, ttl: real, task: TaskId, copy: Ref)
    requires OwnInv(s) && AskStep(s, id, key, ttl, task, copy).Some?
    ensures OwnInv(AskStep(s, id, key, ttl, task, copy).value)
  {
    var t := AskStep(s, id, key, ttl, task, copy).value;
    var u := s.(entries := BeginEntries(s.entries, key, s.now));
    DroppingKeepsOwn(s, u);
    match BeginResult(s.entries, s.inflight, key, s.now)
    case Hit(ref) =>
      var v := Answer(u, id, Call(key, ttl, None, Raised), ref, copy);
      AnswerKeepsOwn(u, id, Call(key, ttl, None, Raised), ref, copy);
      DroppingKeepsOwn(v, t);
    case Joined(joined) => CallsKeepOwn(u, t, id);
    case Created => CreateKeepsOwn(u, id, key, ttl, task);
  }

  lemma LoaderReturnKeepsOwn(s: State, task: TaskId, document: Document, ref: Ref)
    requires OwnInv(s) && Step(s, LoaderReturns(task, document, ref)).Some?
    ensures OwnInv(Step(s, LoaderReturns(task, document, ref)).value)
  {
    var t := Step(s, LoaderReturns(task, document, ref)).value;
    EntriesCarry(s, t);
    CallsCarry(s, t);
  }

  lemma LoaderFailureKeepsOwn(s: State, task: TaskId)
    requires OwnInv(s) && Step(s, LoaderRaises(task)).Some?
    ensures OwnInv(Step(s, LoaderRaises(task)).value)
  {
    var t := Step(s, LoaderRaises(task)).value;
    EntriesCarry(s, t);
    CallsCarry(s, t);
  }

  lemma ContinueKeepsOwn(s: State, id: nat, kept: Ref, copy: Ref)
    requires OwnInv(s) && id in s.calls && ContinueStep(s, id, s.calls[id], kept, copy).Some?
    ensures OwnInv(ContinueStep(s, id, s.calls[id], kept, copy).value)
  {
    var c := s.calls[id];
    var t := ContinueStep(s, id, c, kept, copy).value;
    var u := s.(inflight := SettledInflight(s.inflight, c.key, c.phase.task));
    DroppingKeepsOwn(s, u);
    assert CallInv(s, id) && TaskInv(s, c.phase.task);
    match s.tasks[c.phase.task].status
    case Failed => CallsKeepOwn(u, t, id);
    case Loaded(ref) =>
      if s.heap[ref].cacheable {
        assert Produced(u, c.key, u.heap[ref]) by { assert c.phase.task in u.loads; }
        KeepKeepsOwn(u, c, ref, kept);
        AnswerKeepsOwn(Keep(u, c, ref, kept), id, c, ref, copy);
      } else {
        AnswerKeepsOwn(u, id, c, ref, copy);
      }
  }

  lemma MutateKeepsOwn(s: State, ref: Ref, document: Document)
    requires OwnInv(s) && ref in s.handed
    ensures OwnInv(s.(heap := s.heap[ref := document]))
  {
    var t := s.(heap := s.heap[ref := document]);
    EntriesCarry(s, t);
    CallsCarry(s, t);
  }

  lemma QuietKeepsOwn(s: State, a: Action)
    requires OwnInv(s) && (a.CallerCancelled? || a.Invalidate? || a.Clear? || a.Pass?) && Step(s, a).Some?
    ensures OwnInv(Step(s, a).value)
  {
    var t := Step(s, a).value;
    if a.CallerCancelled? {
      var u := s.(inflight := t.inflight);
      DroppingKeepsOwn(s, u);
      CallsKeepOwn(u, t, a.call);
    } else {
      DroppingKeepsOwn(s, t);
    }
  }

  lemma StepKeeps(s: State, a: Action)
    requires Inv(s) && Step(s, a).Some?
    ensures Inv(Step(s, a).value)
  {
    LruStepKeeps(s, a);
    if a.Ask? {
      AskKeepsOwn(s, a.call, a.key, a.ttl, a.task, a.copy);
    } else if a.LoaderReturns? {
      LoaderReturnKeepsOwn(s, a.task, a.document, a.ref);
    } else if a.LoaderRaises? {
      LoaderFailureKeepsOwn(s, a.task);
    } else if a.Continue? {
      ContinueKeepsOwn(s, a.call, a.kept, a.copy);
    } else if a.Mutate? {
      MutateKeepsOwn(s, a.ref, a.document);
    } else {
      QuietKeepsOwn(s, a);
    }
  }

  lemma {:induction false} RunKeeps(s: State, actions: seq<Action>, t: State)
    requires Inv(s) && Reaches(s, actions, t)
    ensures Inv(t)
    decreases |actions|
  {
    if actions != [] {
      StepKeeps(s, actions[0]);
      RunKeeps(Step(s, actions[0]).value, actions[1..], t);
    }
  }

  // ---- Answers -----------------------------------------------------------------------------

  /**
   In every run, a hit hands out a document that some loader of that key returned and that was stored for
   that key less than its TTL ago, whatever callers did to the documents they were given.
   */
  lemma AHitIsALoadersDocument(max: int, actions: seq<Action>, s: State, id: nat, key: Key, ttl: real, task: TaskId, copy: Ref)
    returns (stored: StoreInfo)
    requires Reaches(Initial(max), actions, s) && AskStep(s, id, key, ttl, task, copy).Some?
    requires BeginResult(s.entries, s.inflight, key, s.now).Hit?
    ensures var t := AskStep(s, id, key, ttl, task, copy).value;
            t.calls[id].phase == Answered(copy) && copy in t.heap && t.heap[copy] == stored.document
    ensures stored in s.stores.Values && stored.key == key && Produced(s, key, stored.document)
    ensures stored.at <= s.now < stored.at + stored.ttl
  {
    RunKeeps(Initial(max), actions, s);
    var e := Find(s.entries, key).value;
    assert EntryInv(s, e);
    stored := s.stores[e.ref];
  }

  /** In every run, a caller that waited is handed exactly what the loader it waited for returned. */
  lemma AMissIsTheLoadersDocument(max: int, actions: seq<Action>, s: State, id: nat, kept: Ref, copy: Ref)
    requires Reaches(Initial(max), actions, s) && id in s.calls && ContinueStep(s, id, s.calls[id], kept, copy).Some?
    requires s.tasks[s.calls[id].phase.task].status.Loaded?
    ensures var t := ContinueStep(s, id, s.calls[id], kept, copy).value;
            s.calls[id].phase.task in s.loads && s.loads[s.calls[id].phase.task].key == s.calls[id].key
            && t.calls[id].phase == Answered(copy) && copy in t.heap
            && t.heap[copy] == s.loads[s.calls[id].phase.task].document
  {
    RunKeeps(Initial(max), actions, s);
    assert CallInv(s, id) && TaskInv(s, s.calls[id].phase.task);
  }

  // ---- Size and eviction -------------------------------------------------------------------

  /** In every run the cache stays within its bound, and an entry another key's store evicts was the least recently used. */
  lemma EvictionTakesTheLeastRecentlyUsed(max: int, actions: seq<Action>, s: State, id: nat, kept: Ref, copy: Ref, e: Entry, t: State)
    requires Reaches(Initial(max), actions, s) && id in s.calls && ContinueStep(s, id, s.calls[id], kept, copy) == Some(t)
    requires e in s.entries && e.key != s.calls[id].key
    ensures |s.entries| <= s.max
    ensures e !in t.entries ==>
              |t.entries| == s.max && e.key in t.uses && forall f :: f in t.entries ==> f.key in t.uses && t.uses[e.key] < t.uses[f.key]
  {
    RunKeeps(Initial(max), actions, s);
    EvictsInOrder(s, id, s.calls[id], kept, copy, e, t);
  }

  lemma EvictsInOrder(s: State, id: nat, c: Call, kept: Ref, copy: Ref, e: Entry, t: State)
    requires LruInv(s) && ContinueStep(s, id, c, kept, copy) == Some(t) && e in s.entries && e.key != c.key
    ensures e !in t.entries ==>
              |t.entries| == s.max && e.key in t.uses && forall f :: f in t.entries ==> f.key in t.uses && t.uses[e.key] < t.uses[f.key]
  {
    ContinueStores(s, id, c, kept, copy, t);
    if e !in t.entries {
      StoreEvictsTheFront(s.entries, Entry(c.key, s.now + c.ttl, kept), s.max, s.uses, s.tick, e);
    }
  }

  lemma ContinueStores(s: State, id: nat, c: Call, kept: Ref, copy: Ref, t: State)
    requires ContinueStep(s, id, c, kept, copy) == Some(t)
    ensures t.entries == s.entries || (t.entries == Stored(s.entries, Entry(c.key, s.now + c.ttl, kept), s.max)
                                       && t.uses == s.uses[c.key := s.tick])
  {
  }

  lemma StoreEvictsTheFront(entries: seq<Entry>, n: Entry, max: nat, uses: map<Key, nat>, tick: nat, e: Entry)
    requires Ordered(entries, uses, tick) && 1 <= max && e in entries && e.key != n.key && e !in Stored(entries, n, max)
    ensures |Stored(entries, n, max)| == max
    ensures var later := uses[n.key := tick];
            e.key in later && forall f :: f in Stored(entries, n, max) ==> f.key in later && later[e.key] < later[f.key]
  {
    TouchedStaysOrdered(entries, n, uses, tick);
    var r := Touched(entries, n);
    assert e in Without(entries, n.key);
    var i :| 0 <= i < |r| && r[i] == e;
    var cut := |r| - max;
    assert 0 < cut && e !in r[cut..];
    forall f | f in r[cut..] ensures f.key in uses[n.key := tick] && uses[n.key := tick][e.key] < uses[n.key := tick][f.key] {
      var j :| 0 <= j < |r[cut..]| && r[cut..][j] == f;
      assert r[cut + j] == f;
    }
  }

  // ---- After an invalidation ---------------------------------------------------------------

  /** What a step puts into the dictionary is a copy nobody had before. */
  ghost predicate AddsOnlyNew(s: State, t: State) {
    s.heap.Keys <= t.heap.Keys && forall e :: e in t.entries ==> e in s.entries || e.ref !in s.heap
  }

  lemma BeginAddsNothing(entries: seq<Entry>, key: Key, now: real)
    ensures forall e :: e in BeginEntries(entries, key, now) ==> e in entries
  {
  }

  lemma AskKeepsTheHeap(s: State, id: nat, key: Key, ttl: real, task: TaskId, copy: Ref, t: State)
    requires AskStep(s, id, key, ttl, task, copy) == Some(t)
    ensures s.heap.Keys <= t.heap.Keys
  {
  }

  lemma AskAddsNothing(s: State, id: nat, key: Key, ttl: real, task: TaskId, copy: Ref, t: State)
    requires AskStep(s, id, key, ttl, task, copy) == Some(t)
    ensures AddsOnlyNew(s, t)
  {
    AskTouchesTheOrder(s, id, key, ttl, task, copy);
    BeginAddsNothing(s.entries, key, s.now);
    AskKeepsTheHeap(s, id, key, ttl, task, copy, t);
  }

  lemma ContinueAddsItsCopy(s: State, id: nat, c: Call, kept: Ref, copy: Ref, t: State)
    requires ContinueStep(s, id, c, kept, copy) == Some(t)
    ensures AddsOnlyNew(s, t)
  {
    var n := Entry(c.key, s.now + c.ttl, kept);
    ContinueStores(s, id, c, kept, copy, t);
    forall e | e in Stored(s.entries, n, s.max) ensures e in s.entries || e == n {
      assert e in Touched(s.entries, n);
    }
  }

  lemma AStepAddsOnlyNew(s: State, a: Action, t: State)
    requires Step(s, a) == Some(t)
    ensures AddsOnlyNew(s, t)
  {
    match a
    case Ask(call, key, ttl, task, copy) => AskAddsNothing(s, call, key, ttl, task, copy, t);
    case Continue(call, kept, copy) => ContinueAddsItsCopy(s, call, s.calls[call], kept, copy, t);
    case Invalidate(_) =>
    case LoaderReturns(_, _, _) =>
    case LoaderRaises(_) =>
    case CallerCancelled(_) =>
    case Mutate(_, _) =>
    case Clear =>
    case Pass(_) =>
  }

  /** No entry of the company is one of the `old_` references. */
  ghost predicate NoneOf(s: State, old_: set<Ref>, company: string) {
    old_ <= s.heap.Keys && forall e :: e in s.entries && e.key.company == company ==> e.ref !in old_
  }

  lemma {:induction false} NothingOldComesBack(s: State, actions: seq<Action>, t: State, old_: set<Ref>, company: string)
    requires NoneOf(s, old_, company) && Reaches(s, actions, t)
    ensures NoneOf(t, old_, company)
    decreases |actions|
  {
    if actions != [] {
      AStepAddsOnlyNew(s, actions[0], Step(s, actions[0]).value);
      NothingOldComesBack(Step(s, actions[0]).value, actions[1..], t, old_, company);
    }
  }

  /**
   In every run, what is hit for a company at any time after its invalidation, or after a clear, was stored
   after that, though perhaps by a load that had begun before.
   */
  lemma AHitAfterAnInvalidationWasStoredAfterIt(max: int, before: seq<Action>, s: State, a: Action, t: State, after: seq<Action>, u: State, key: Key)
    requires Reaches(Initial(max), before, s) && (a == Invalidate(key.company) || a == Clear) && Step(s, a) == Some(t)
    requires Reaches(t, after, u) && BeginResult(u.entries, u.inflight, key, u.now).Hit?
    ensures var ref := BeginResult(u.entries, u.inflight, key, u.now).ref;
            ref !in s.stores && ref in u.stores && u.stores[ref].key == key
  {
    RunKeeps(Initial(max), before, s);
    StepKeeps(s, a);
    NothingOldComesBack(t, after, u, s.stores.Keys, key.company);
    RunKeeps(t, after, u);
    assert EntryInv(u, Find(u.entries, key).value);
  }
}
