/**
 The version-bound profile cache (backend/app/services/profile_cache.py) over the profile table: saves,
 transitions, cached reads, shared lookups and evictions, interleaved freely.  Any cached entry may be
 evicted at any time, which covers the least-recently-used order.
 */
module ProfileCache {
  import opened Common
  import opened AgentProfiles

  datatype Key = Key(company: string, version: int)

  datatype TaskStatus = Querying | Found(row: Option<Row>) | Raised
  datatype Task = Task(key: Key, status: TaskStatus)
  datatype CallPhase = Waiting(task: nat) | Answered(row: Option<Row>) | Failed
  datatype Call = Call(key: Key, phase: CallPhase)

  datatype State = State(table: map<string, seq<Row>>, cache: map<Key, Row>, inflight: map<Key, nat>,
                         tasks: map<nat, Task>, calls: map<nat, Call>)

  const Initial := State(map[], map[], map[], map[], map[])

  datatype Action =
    | Save(company: string, profile: int, policy: int, published: bool)
    | Transition(company: string, version: int, target: Lifecycle, allowed: Option<set<Lifecycle>>)
    | Read(call: nat, key: Key, task: nat)
    | Query(task: nat)
    | QueryFails(task: nat)
    | Continue(call: nat)
    | CallerCancelled(call: nat)
    | Evict(key: Key)
    | Clear

  function Settled(s: State, c: Call): State {
    if c.phase.Waiting? && c.key in s.inflight && s.inflight[c.key] == c.phase.task then s.(inflight := s.inflight - {c.key}) else s
  }

  predicate Finished(s: State, task: nat) {
    task in s.tasks && !s.tasks[task].status.Querying?
  }

  function Step(s: State, a: Action): Option<State> {
    match a
    case Save(company, profile, policy, published) =>
      Some(s.(table := s.table[company := SavedRows(RowsOf(s.table, company), profile, policy, published)]))
    case Transition(company, version, target, allowed) =>
      var rows := RowsOf(s.table, company);
      if TransitionError(rows, version, target, allowed).Some? then Some(s)
      else Some(s.(table := s.table[company := TransitionedRows(rows, version, target, allowed)]))
    case Read(call, key, task) =>
      if call in s.calls || task in s.tasks then None
      else if key in s.cache then Some(s.(calls := s.calls[call := Call(key, Answered(Some(s.cache[key])))]))
      else if key in s.inflight then Some(s.(calls := s.calls[call := Call(key, Waiting(s.inflight[key]))]))
      else Some(s.(calls := s.calls[call := Call(key, Waiting(task))], inflight := s.inflight[key := task],
                   tasks := s.tasks[task := Task(key, Querying)]))
    case Query(task) =>
      if task !in s.tasks || Finished(s, task) then None
      else
        var key := s.tasks[task].key;
        Some(s.(tasks := s.tasks[task := Task(key, Found(FindVersion(RowsOf(s.table, key.company), key.version)))]))
    case QueryFails(task) =>
      if task !in s.tasks || Finished(s, task) then None else Some(s.(tasks := s.tasks[task := s.tasks[task].(status := Raised)]))
    case Continue(call) =>
      if call !in s.calls || !s.calls[call].phase.Waiting? || !Finished(s, s.calls[call].phase.task) then None
      else
        var c := s.calls[call];
        var t := Settled(s, c);
        match s.tasks[c.phase.task].status {
          case Found(row) =>
            Some(t.(calls := t.calls[call := c.(phase := Answered(row))],
                    cache := if row.Some? then t.cache[c.key := row.value] else t.cache))
          case Raised => Some(t.(calls := t.calls[call := c.(phase := Failed)]))
          case Querying => None
        }
    case CallerCancelled(call) =>
      if call !in s.calls || !s.calls[call].phase.Waiting? then None
      else
        var c := s.calls[call];
        var t := if Finished(s, c.phase.task) then Settled(s, c) else s;
        Some(t.(calls := t.calls[call := c.(phase := Failed)]))
    case Evict(key) => Some(s.(cache := s.cache - {key}))
    case Clear => Some(s.(cache := map[], inflight := map[]))
  }

  ghost predicate Reaches(s: State, actions: seq<Action>, t: State)
    decreases |actions|
  {
    if actions == [] then s == t
    else Step(s, actions[0]).Some? && Reaches(Step(s, actions[0]).value, actions[1..], t)
  }

  // ---- Invariant ---------------------------------------------------------------------------

  /** `row` has the profile and the policy that are stored for `key`. */
  ghost predicate IsStored(s: State, key: Key, row: Row) {
    var rows := RowsOf(s.table, key.company);
    1 <= key.version <= |rows| && row.version == key.version
    && rows[key.version - 1].profile == row.profile && rows[key.version - 1].policy == row.policy
  }

  ghost predicate TableInv(s: State) {
    forall company :: company in s.table ==> WellNumbered(s.table[company])
  }

  ghost predicate ReadInv(s: State) {
    && (forall key :: key in s.cache ==> IsStored(s, key, s.cache[key]))
    && (forall task :: task in s.tasks && s.tasks[task].status.Found? && s.tasks[task].status.row.Some? ==>
          IsStored(s, s.tasks[task].key, s.tasks[task].status.row.value))
    && (forall call :: call in s.calls && s.calls[call].phase.Answered? && s.calls[call].phase.row.Some? ==>
          IsStored(s, s.calls[call].key, s.calls[call].phase.row.value))
    && (forall key :: key in s.inflight ==> s.inflight[key] in s.tasks && s.tasks[s.inflight[key]].key == key)
    && (forall call :: call in s.calls && s.calls[call].phase.Waiting? ==>
          s.calls[call].phase.task in s.tasks && s.tasks[s.calls[call].phase.task].key == s.calls[call].key)
  }

  ghost predicate Inv(s: State) {
    TableInv(s) && ReadInv(s)
  }

  /** No stored version is lost or changed. */
  ghost predicate TableGrows(s: State, t: State) {
    forall company :: Immutable(RowsOf(s.table, company), RowsOf(t.table, company))
  }

  lemma WriteKeeps(s: State, company: string, later: seq<Row>, t: State)
    requires Inv(s) && WellNumbered(later) && Immutable(RowsOf(s.table, company), later)
    requires t == s.(table := s.table[company := later])
    ensures Inv(t) && TableGrows(s, t)
  {
    forall key: Key, row | IsStored(s, key, row) ensures IsStored(t, key, row) {
    }
  }

  lemma CallKeeps(s: State, call: nat, c: Call, t: State)
    requires Inv(s) && t == s.(calls := s.calls[call := c])
    requires c.phase.Answered? && c.phase.row.Some? ==> IsStored(s, c.key, c.phase.row.value)
    requires c.phase.Waiting? ==> c.phase.task in s.tasks && s.tasks[c.phase.task].key == c.key
    ensures Inv(t)
  {
    assert forall k: Key, row :: IsStored(t, k, row) <==> IsStored(s, k, row);
  }

  lemma NewTaskKeeps(s: State, key: Key, task: nat, t: State)
    requires Inv(s) && task !in s.tasks
    requires t == s.(inflight := s.inflight[key := task], tasks := s.tasks[task := Task(key, Querying)])
    ensures Inv(t)
  {
    assert forall k: Key, row :: IsStored(t, k, row) <==> IsStored(s, k, row);
  }

  lemma ReadKeeps(s: State, call: nat, key: Key, task: nat, t: State)
    requires Inv(s) && Step(s, Read(call, key, task)) == Some(t)
    ensures Inv(t) && t.table == s.table
  {
    var u := s.(inflight := t.inflight, tasks := t.tasks);
    if key !in s.cache && key !in s.inflight {
      NewTaskKeeps(s, key, task, u);
    }
    CallKeeps(u, call, t.calls[call], t);
  }

  /** Forgetting cached rows and in-flight marks. */
  lemma DroppingKeeps(s: State, t: State)
    requires Inv(s) && t == s.(cache := t.cache, inflight := t.inflight)
    requires forall key :: key in t.cache ==> key in s.cache && t.cache[key] == s.cache[key]
    requires forall key :: key in t.inflight ==> key in s.inflight && t.inflight[key] == s.inflight[key]
    ensures Inv(t)
  {
    assert forall k: Key, row :: IsStored(t, k, row) <==> IsStored(s, k, row);
  }

  /** A waiting call ends, possibly with a row that is stored under its key. */
  lemma EndingKeeps(s: State, call: nat, phase: CallPhase, t: State)
    requires Inv(s) && call in s.calls && !phase.Waiting?
    requires phase.Answered? && phase.row.Some? ==> IsStored(s, s.calls[call].key, phase.row.value)
    requires t == s.(calls := s.calls[call := s.calls[call].(phase := phase)], cache := t.cache)
    requires t.cache == s.cache
          || (phase.Answered? && phase.row.Some? && t.cache == s.cache[s.calls[call].key := phase.row.value])
    ensures Inv(t)
  {
    assert forall k: Key, row :: IsStored(t, k, row) <==> IsStored(s, k, row);
  }

  lemma CancelKeeps(s: State, call: nat, t: State)
    requires Inv(s) && Step(s, CallerCancelled(call)) == Some(t)
    ensures Inv(t) && t.table == s.table
  {
    var u := s.(inflight := t.inflight);
    DroppingKeeps(s, u);
    EndingKeeps(u, call, Failed, t);
  }

  lemma QueryFailureKeeps(s: State, task: nat, t: State)
    requires Inv(s) && Step(s, QueryFails(task)) == Some(t)
    ensures Inv(t) && t.table == s.table
  {
    assert forall k: Key, row :: IsStored(t, k, row) <==> IsStored(s, k, row);
  }

  lemma QueryKeeps(s: State, task: nat, t: State)
    requires Inv(s) && Step(s, Query(task)) == Some(t)
    ensures Inv(t) && t.table == s.table
  {
    var key := s.tasks[task].key;
    var rows := RowsOf(s.table, key.company);
    var found := FindVersion(rows, key.version);
    if found.Some? {
      var i :| 0 <= i < |rows| && rows[i] == found.value;
      assert WellNumbered(rows);
    }
    assert forall k: Key, row :: IsStored(t, k, row) <==> IsStored(s, k, row);
  }

  lemma ContinueKeeps(s: State, call: nat, t: State)
    requires Inv(s) && Step(s, Continue(call)) == Some(t)
    ensures Inv(t) && t.table == s.table
  {
    var u := Settled(s, s.calls[call]);
    DroppingKeeps(s, u);
    EndingKeeps(u, call, t.calls[call].phase, t);
  }

  lemma StepKeeps(s: State, a: Action, t: State)
    requires Inv(s) && Step(s, a) == Some(t)
    ensures Inv(t) && TableGrows(s, t)
  {
    match a
    case Save(company, profile, policy, published) =>
      var rows := RowsOf(s.table, company);
      SaveKeeps(rows, profile, policy, published);
      WriteKeeps(s, company, SavedRows(rows, profile, policy, published), t);
    case Transition(company, version, target, allowed) =>
      var rows := RowsOf(s.table, company);
      TransitionKeeps(rows, version, target, allowed);
      if TransitionError(rows, version, target, allowed).None? {
        WriteKeeps(s, company, TransitionedRows(rows, version, target, allowed), t);
      }
    case Query(task) => QueryKeeps(s, task, t);
    case Continue(call) => ContinueKeeps(s, call, t);
    case Read(call, key, task) => ReadKeeps(s, call, key, task, t);
    case QueryFails(task) => QueryFailureKeeps(s, task, t);
    case CallerCancelled(call) => CancelKeeps(s, call, t);
    case Evict(_) => DroppingKeeps(s, t);
    case Clear => DroppingKeeps(s, t);
  }

  lemma {:induction false} RunKeeps(s: State, actions: seq<Action>, t: State)
    requires Inv(s) && Reaches(s, actions, t)
    ensures Inv(t) && TableGrows(s, t)
    decreases |actions|
  {
    if actions != [] {
      var next := Step(s, actions[0]).value;
      StepKeeps(s, actions[0], next);
      RunKeeps(next, actions[1..], t);
      forall company ensures Immutable(RowsOf(s.table, company), RowsOf(t.table, company)) {
        assert Immutable(RowsOf(s.table, company), RowsOf(next.table, company));
        assert Immutable(RowsOf(next.table, company), RowsOf(t.table, company));
      }
    }
  }

  // ---- Theorems ----------------------------------------------------------------------------

  /** In every run a company's versions are 1..n without gaps, and at most one of them is published. */
  lemma VersionsAreConsecutive(actions: seq<Action>, s: State, company: string)
    requires Reaches(Initial, actions, s)
    ensures WellNumbered(RowsOf(s.table, company))
  {
    RunKeeps(Initial, actions, s);
  }

  /** No step of any run changes a stored profile or policy. */
  lemma StoredProfilesNeverChange(before: seq<Action>, s: State, after: seq<Action>, t: State, company: string)
    requires Reaches(Initial, before, s) && Reaches(s, after, t)
    ensures Immutable(RowsOf(s.table, company), RowsOf(t.table, company))
  {
    RunKeeps(Initial, before, s);
    RunKeeps(s, after, t);
  }

  /** Every non-empty answer a cached read ever gave still has the profile and policy of its version's row. */
  lemma CachedReadsAreTheRows(actions: seq<Action>, s: State, call: nat)
    requires Reaches(Initial, actions, s) && call in s.calls
    requires s.calls[call].phase.Answered? && s.calls[call].phase.row.Some?
    ensures IsStored(s, s.calls[call].key, s.calls[call].phase.row.value)
  {
    RunKeeps(Initial, actions, s);
  }

  // ---- One query at a time -----------------------------------------------------------------

  /** A read is answered from the cache, joins the query in flight, or starts one, in this order. */
  lemma AReadByWhatIsThere(s: State, call: nat, key: Key, task: nat, t: State)
    requires call !in s.calls && task !in s.tasks
    ensures Step(s, Read(call, key, task)).Some?
    ensures Step(s, Read(call, key, task)) == Some(t) ==>
              && call in t.calls && t.calls[call].key == key && t.table == s.table && t.cache == s.cache
              && (t.calls[call].phase.Answered? <==> key in s.cache)
              && (key in s.cache ==> t.calls[call].phase.row == Some(s.cache[key]))
              && (key !in s.cache && key in s.inflight ==> t.calls[call].phase == Waiting(s.inflight[key]) && t.tasks == s.tasks)
              && (key !in s.cache && key !in s.inflight ==>
                    t.calls[call].phase == Waiting(task) && t.tasks == s.tasks[task := Task(key, Querying)] && t.inflight == s.inflight[key := task])
  {
  }

  /** A caller that comes back gets what its query found, caches it exactly if it found a row, and takes the query out of flight. */
  lemma AReturningCallerSettles(s: State, call: nat)
    requires call in s.calls && s.calls[call].phase.Waiting? && s.calls[call].phase.task in s.tasks
    ensures var c, next := s.calls[call], Step(s, Continue(call));
            && (next.Some? <==> !s.tasks[c.phase.task].status.Querying?)
            && (next.Some? ==>
                  var t, status := next.value, s.tasks[c.phase.task].status;
                  && (c.key in t.inflight ==> t.inflight[c.key] != c.phase.task)
                  && (forall k :: k != c.key ==> (k in t.inflight <==> k in s.inflight) && (k in s.inflight ==> t.inflight[k] == s.inflight[k]))
                  && (c.key in s.inflight && s.inflight[c.key] != c.phase.task ==> c.key in t.inflight)
                  && t.calls[call].phase == (if status.Found? then Answered(status.row) else Failed)
                  && t.cache == (if status.Found? && status.row.Some? then s.cache[c.key := status.row.value] else s.cache))
  {
  }

  /** A running query is the one in flight for its key. */
  ghost predicate QueriesInFlight(s: State) {
    forall task :: task in s.tasks && s.tasks[task].status.Querying? ==>
      s.tasks[task].key in s.inflight && s.inflight[s.tasks[task].key] == task
  }

  lemma {:induction false} RunKeepsQueries(s: State, actions: seq<Action>, t: State)
    requires QueriesInFlight(s) && Reaches(s, actions, t) && Clear !in actions
    ensures QueriesInFlight(t)
    decreases |actions|
  {
    if actions != [] {
      AStepKeepsQueries(s, actions[0], Step(s, actions[0]).value);
      RunKeepsQueries(Step(s, actions[0]).value, actions[1..], t);
    }
  }

  /** No query starts, and only finished ones leave their key. */
  lemma FewerQueriesKeep(s: State, t: State)
    requires QueriesInFlight(s)
    requires forall task :: task in t.tasks && t.tasks[task].status.Querying? ==> task in s.tasks && s.tasks[task] == t.tasks[task]
    requires forall key :: key in s.inflight && s.inflight[key] in t.tasks && t.tasks[s.inflight[key]].status.Querying? ==>
               key in t.inflight && t.inflight[key] == s.inflight[key]
    ensures QueriesInFlight(t)
  {
  }

  lemma ReadKeepsQueries(s: State, call: nat, key: Key, task: nat, t: State)
    requires QueriesInFlight(s) && Step(s, Read(call, key, task)) == Some(t)
    ensures QueriesInFlight(t)
  {
  }

  lemma ReturnKeepsQueries(s: State, call: nat, t: State)
    requires QueriesInFlight(s) && (Step(s, Continue(call)) == Some(t) || Step(s, CallerCancelled(call)) == Some(t))
    ensures QueriesInFlight(t)
  {
    var c := s.calls[call];
    assert t.tasks == s.tasks;
    assert t.inflight == s.inflight || (Finished(s, c.phase.task) && t.inflight == Settled(s, c).inflight);
    FewerQueriesKeep(s, t);
  }

  lemma AStepKeepsQueries(s: State, a: Action, t: State)
    requires QueriesInFlight(s) && Step(s, a) == Some(t) && a != Clear
    ensures QueriesInFlight(t)
  {
    match a
    case Read(call, key, task) => ReadKeepsQueries(s, call, key, task, t);
    case Continue(call) => ReturnKeepsQueries(s, call, t);
    case CallerCancelled(call) => ReturnKeepsQueries(s, call, t);
    case Query(_) => FewerQueriesKeep(s, t);
    case QueryFails(_) => FewerQueriesKeep(s, t);
    case Save(_, _, _, _) => FewerQueriesKeep(s, t);
    case Transition(_, _, _, _) => FewerQueriesKeep(s, t);
    case Evict(_) => FewerQueriesKeep(s, t);
    case Clear =>
  }

  /** In every run without a `clear`, at most one query per version runs at a time. */
  lemma OneQueryPerVersion(actions: seq<Action>, s: State, i: nat, j: nat)
    requires Reaches(Initial, actions, s) && Clear !in actions
    requires i in s.tasks && j in s.tasks && s.tasks[i].status.Querying? && s.tasks[j].status.Querying? && s.tasks[i].key == s.tasks[j].key
    ensures i == j
  {
    RunKeepsQueries(Initial, actions, s);
  }
}
