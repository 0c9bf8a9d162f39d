/**
 Which loads are in flight, and which document a caller that joins one is given, over every run of the
 calendar read cache.
 */
module ReadCacheFlights {
  import opened Common
  import opened ReadCache
  import opened ReadCacheSafety

  // ---- Single flight -----------------------------------------------------------------------

  /** Every running loader, except those of the tasks in `old_`, is in flight. */
  ghost predicate FlightInv(s: State, old_: set<TaskId>) {
    && old_ <= s.tasks.Keys
    && forall task :: task in s.tasks && task !in old_ && s.tasks[task].status.Loading? ==>
         s.tasks[task].key in s.inflight && s.inflight[s.tasks[task].key] == task
  }

  lemma FlightAskKeeps(s: State, id: nat, key: Key, ttl: real, task: TaskId, copy: Ref, t: State, old_: set<TaskId>)
    requires FlightInv(s, old_) && AskStep(s, id, key, ttl, task, copy) == Some(t)
    ensures FlightInv(t, old_)
  {
    match BeginResult(s.entries, s.inflight, key, s.now)
    case Hit(_) => AskHits(s, id, key, ttl, task, copy, t);
    case Joined(_) => AskJoins(s, id, key, ttl, task, copy, t);
    case Created => AskCreates(s, id, key, ttl, task, copy, t);
  }

  lemma AskHits(s: State, id: nat, key: Key, ttl: real, task: TaskId, copy: Ref, t: State)
    requires AskStep(s, id, key, ttl, task, copy) == Some(t) && BeginResult(s.entries, s.inflight, key, s.now).Hit?
    ensures id !in s.calls && task !in s.tasks && t.calls == s.calls[id := Call(key, ttl, None, Answered(copy))]
    ensures t.tasks == s.tasks && t.inflight == s.inflight && t.loads == s.loads && t.now == s.now
  {
  }

  lemma AskJoins(s: State, id: nat, key: Key, ttl: real, task: TaskId, copy: Ref, t: State)
    requires AskStep(s, id, key, ttl, task, copy) == Some(t) && BeginResult(s.entries, s.inflight, key, s.now).Joined?
    ensures id !in s.calls && task !in s.tasks && key in s.inflight
    ensures t.calls == s.calls[id := Call(key, ttl, Some(s.inflight[key]), Waiting(s.inflight[key]))]
    ensures t.tasks == s.tasks && t.inflight == s.inflight && t.loads == s.loads && t.now == s.now
  {
  }

  lemma AskCreates(s: State, id: nat, key: Key, ttl: real, task: TaskId, copy: Ref, t: State)
    requires AskStep(s, id, key, ttl, task, copy) == Some(t) && BeginResult(s.entries, s.inflight, key, s.now).Created?
    ensures id !in s.calls && task !in s.tasks && key !in s.inflight
    ensures t.calls == s.calls[id := Call(key, ttl, Some(task), Waiting(task))]
    ensures t.tasks == s.tasks[task := Task(key, Loading)] && t.inflight == s.inflight[key := task] && t.loads == s.loads && t.now == s.now
  {
  }

  lemma FlightContinueKeeps(s: State, id: nat, kept: Ref, copy: Ref, t: State, old_: set<TaskId>)
    requires FlightInv(s, old_) && id in s.calls && ContinueStep(s, id, s.calls[id], kept, copy) == Some(t)
    ensures FlightInv(t, old_)
  {
    ContinueChangesFlight(s, id, s.calls[id], kept, copy, t);
  }

  lemma ContinueChangesFlight(s: State, id: nat, c: Call, kept: Ref, copy: Ref, t: State)
    requires ContinueStep(s, id, c, kept, copy) == Some(t)
    ensures c.phase.Waiting? && c.phase.task in s.tasks && !s.tasks[c.phase.task].status.Loading?
    ensures id in t.calls && t.calls == s.calls[id := t.calls[id]] && t.calls[id].joined == c.joined && t.calls[id].key == c.key
    ensures t.calls[id].phase.Answered? || t.calls[id].phase.Raised?
    ensures t.tasks == s.tasks && t.inflight == SettledInflight(s.inflight, c.key, c.phase.task) && t.loads == s.loads && t.now == s.now
  {
  }

  lemma FlightStepKeeps(s: State, a: Action, t: State, old_: set<TaskId>)
    requires FlightInv(s, old_) && Step(s, a) == Some(t) && !a.Clear?
    ensures FlightInv(t, old_)
  {
    match a
    case Ask(call, key, ttl, task, copy) => FlightAskKeeps(s, call, key, ttl, task, copy, t, old_);
    case Continue(call, kept, copy) => FlightContinueKeeps(s, call, kept, copy, t, old_);
    case _ =>
  }

  lemma {:induction false} FlightRunKeeps(s: State, actions: seq<Action>, t: State, old_: set<TaskId>)
    requires FlightInv(s, old_) && Reaches(s, actions, t) && Clear !in actions
    ensures FlightInv(t, old_)
    decreases |actions|
  {
    if actions != [] {
      FlightStepKeeps(s, actions[0], Step(s, actions[0]).value, old_);
      FlightRunKeeps(Step(s, actions[0]).value, actions[1..], t, old_);
    }
  }

  /** In every run without `clear`, at most one loader per key is running. */
  lemma OneLoaderPerKey(max: int, actions: seq<Action>, s: State, i: TaskId, j: TaskId)
    requires Reaches(Initial(max), actions, s) && Clear !in actions
    requires i in s.tasks && j in s.tasks && s.tasks[i].key == s.tasks[j].key
    requires s.tasks[i].status.Loading? && s.tasks[j].status.Loading?
    ensures i == j
  {
    FlightRunKeeps(Initial(max), actions, s, {});
  }

  // ---- Exactly when a task is in flight ----------------------------------------------------

  predicate InFlight(s: State, task: TaskId) {
    task in s.tasks && s.tasks[task].key in s.inflight && s.inflight[s.tasks[task].key] == task
  }

  /** No caller of the task has come back from it: each still waits, or was cancelled while it was loading. */
  ghost predicate Unattended(s: State, task: TaskId) {
    forall id :: id in s.calls && s.calls[id].joined == Some(task) ==>
      s.calls[id].phase.Waiting? || (s.calls[id].phase.Cancelled? && s.calls[id].phase.early)
  }

  /** In-flight marks, joined tasks and suspended callers agree on their keys. */
  ghost predicate JoinInv(s: State) {
    && (forall key :: key in s.inflight ==> s.inflight[key] in s.tasks && s.tasks[s.inflight[key]].key == key)
    && (forall id :: id in s.calls && s.calls[id].joined.Some? ==>
          s.calls[id].joined.value in s.tasks && s.tasks[s.calls[id].joined.value].key == s.calls[id].key)
    && (forall id :: id in s.calls && s.calls[id].phase.Waiting? ==> s.calls[id].joined == Some(s.calls[id].phase.task))
  }

  ghost predicate AttendanceInv(s: State) {
    && JoinInv(s)
    && (forall task :: task in s.tasks ==> (InFlight(s, task) <==> Unattended(s, task)))
    && (forall task :: task in s.tasks && s.tasks[task].status.Loading? ==> InFlight(s, task))
  }

  /** A new call that only waits changes nobody's attendance. */
  lemma NewCallLeavesAttendance(s: State, id: nat, t: State, task: TaskId)
    requires id !in s.calls && id in t.calls && t.calls == s.calls[id := t.calls[id]]
    requires t.calls[id].joined == Some(task) ==> t.calls[id].phase.Waiting?
    ensures Unattended(t, task) <==> Unattended(s, task)
  {
    assert forall i :: i in s.calls ==> i in t.calls && t.calls[i] == s.calls[i];
  }

  lemma AttendanceAskKeeps(s: State, id: nat, key: Key, ttl: real, task: TaskId, copy: Ref, t: State)
    requires AttendanceInv(s) && AskStep(s, id, key, ttl, task, copy) == Some(t)
    ensures AttendanceInv(t)
  {
    match BeginResult(s.entries, s.inflight, key, s.now)
    case Hit(_) =>
      AskHits(s, id, key, ttl, task, copy, t);
      NewCallKeepsAttendance(s, id, t);
    case Joined(_) =>
      AskJoins(s, id, key, ttl, task, copy, t);
      NewCallKeepsAttendance(s, id, t);
    case Created =>
      AskCreates(s, id, key, ttl, task, copy, t);
      NewTaskKeepsAttendance(s, id, key, task, t);
  }

  lemma NewCallKeepsAttendance(s: State, id: nat, t: State)
    requires AttendanceInv(s) && id !in s.calls && id in t.calls && t.calls == s.calls[id := t.calls[id]]
    requires t.tasks == s.tasks && t.inflight == s.inflight
    requires t.calls[id].joined.None? ==> !t.calls[id].phase.Waiting?
    requires t.calls[id].joined.Some? ==>
               && t.calls[id].phase == Waiting(t.calls[id].joined.value)
               && t.calls[id].key in s.inflight && t.calls[id].joined.value == s.inflight[t.calls[id].key]
    ensures AttendanceInv(t)
  {
    forall task | task in t.tasks
      ensures InFlight(t, task) <==> Unattended(t, task)
    {
      assert InFlight(s, task) <==> Unattended(s, task);
      NewCallLeavesAttendance(s, id, t, task);
    }
  }

  lemma NewTaskKeepsJoins(s: State, id: nat, key: Key, task: TaskId, t: State)
    requires JoinInv(s) && id !in s.calls && task !in s.tasks
    requires id in t.calls && t.calls == s.calls[id := t.calls[id]]
    requires t.calls[id].key == key && t.calls[id].joined == Some(task) && t.calls[id].phase == Waiting(task)
    requires t.tasks == s.tasks[task := Task(key, Loading)] && t.inflight == s.inflight[key := task]
    ensures JoinInv(t)
  {
  }

  lemma NewTaskKeepsAttendance(s: State, id: nat, key: Key, task: TaskId, t: State)
    requires AttendanceInv(s) && id !in s.calls && task !in s.tasks && key !in s.inflight
    requires id in t.calls && t.calls == s.calls[id := t.calls[id]]
    requires t.calls[id].key == key && t.calls[id].joined == Some(task) && t.calls[id].phase == Waiting(task)
    requires t.tasks == s.tasks[task := Task(key, Loading)] && t.inflight == s.inflight[key := task]
    ensures AttendanceInv(t)
  {
    NewTaskKeepsJoins(s, id, key, task, t);
    forall other | other in t.tasks
      ensures InFlight(t, other) <==> Unattended(t, other)
    {
      if other == task {
        NobodyJoinedIt(s, task);
      } else {
        assert InFlight(s, other) <==> Unattended(s, other);
      }
      NewCallLeavesAttendance(s, id, t, other);
    }
  }

  lemma NobodyJoinedIt(s: State, task: TaskId)
    requires JoinInv(s) && task !in s.tasks
    ensures Unattended(s, task)
  {
  }

  /** A caller comes back from its task: late, with or without an answer, or early, cancelled while it was loading. */
  lemma ReturnKeepsAttendance(s: State, id: nat, phase: CallPhase, t: State)
    requires AttendanceInv(s) && id in s.calls && s.calls[id].phase.Waiting? && !phase.Waiting?
    requires t.calls == s.calls[id := s.calls[id].(phase := phase)] && t.tasks == s.tasks
    requires t.inflight == if phase == Cancelled(true) then s.inflight else SettledInflight(s.inflight, s.calls[id].key, s.calls[id].phase.task)
    requires phase != Cancelled(true) ==> !s.tasks[s.calls[id].joined.value].status.Loading?
    ensures AttendanceInv(t)
  {
    var task := s.calls[id].joined.value;
    forall other | other in t.tasks
      ensures InFlight(t, other) <==> Unattended(t, other)
    {
      assert InFlight(s, other) <==> Unattended(s, other);
      if other == task && phase != Cancelled(true) {
        assert t.calls[id].joined == Some(other) && !InFlight(t, other);
      } else {
        assert Unattended(t, other) <==> Unattended(s, other) by {
          assert t.calls[id].joined == Some(task);
          assert forall i :: i in s.calls && i != id ==> i in t.calls && t.calls[i] == s.calls[i];
        }
      }
    }
  }

  lemma AttendanceStepKeeps(s: State, a: Action, t: State)
    requires AttendanceInv(s) && Step(s, a) == Some(t) && !a.Clear?
    ensures AttendanceInv(t)
  {
    match a
    case Ask(call, key, ttl, task, copy) => AttendanceAskKeeps(s, call, key, ttl, task, copy, t);
    case Continue(call, kept, copy) =>
      ContinueChangesFlight(s, call, s.calls[call], kept, copy, t);
      AnsweredCallIsItself(s, call, kept, copy, t);
      ReturnKeepsAttendance(s, call, t.calls[call].phase, t);
    case CallerCancelled(call) => ReturnKeepsAttendance(s, call, t.calls[call].phase, t);
    case LoaderReturns(_, _, _) => LoaderKeepsAttendance(s, a, t);
    case LoaderRaises(_) => LoaderKeepsAttendance(s, a, t);
    case Mutate(_, _) => LoaderKeepsAttendance(s, a, t);
    case Invalidate(_) => LoaderKeepsAttendance(s, a, t);
    case Pass(_) => LoaderKeepsAttendance(s, a, t);
  }

  lemma AnsweredCallIsItself(s: State, id: nat, kept: Ref, copy: Ref, t: State)
    requires id in s.calls && ContinueStep(s, id, s.calls[id], kept, copy) == Some(t)
    ensures id in t.calls && t.calls[id] == s.calls[id].(phase := t.calls[id].phase)
  {
  }

  /** Loaders may finish, and nothing else about tasks and callers changes. */
  lemma SameJoinsKeepAttendance(s: State, t: State)
    requires AttendanceInv(s) && t.calls == s.calls && t.inflight == s.inflight && t.tasks.Keys == s.tasks.Keys
    requires forall task :: task in s.tasks ==>
               t.tasks[task].key == s.tasks[task].key && (t.tasks[task].status.Loading? ==> s.tasks[task].status.Loading?)
    ensures AttendanceInv(t)
  {
    forall task | task in t.tasks
      ensures InFlight(t, task) <==> Unattended(t, task)
    {
      assert InFlight(s, task) <==> Unattended(s, task);
    }
  }

  lemma LoaderKeepsAttendance(s: State, a: Action, t: State)
    requires AttendanceInv(s) && Step(s, a) == Some(t)
    requires a.LoaderReturns? || a.LoaderRaises? || a.Mutate? || a.Invalidate? || a.Pass?
    ensures AttendanceInv(t)
  {
    SameJoinsKeepAttendance(s, t);
  }

  lemma {:induction false} AttendanceRunKeeps(s: State, actions: seq<Action>, t: State)
    requires AttendanceInv(s) && Reaches(s, actions, t) && Clear !in actions
    ensures AttendanceInv(t)
    decreases |actions|
  {
    if actions != [] {
      AttendanceStepKeeps(s, actions[0], Step(s, actions[0]).value);
      AttendanceRunKeeps(Step(s, actions[0]).value, actions[1..], t);
    }
  }

  /**
   In every run without `clear`, a task, running or finished, is in flight, and so will be joined by the
   next caller that misses, exactly as long as no caller has come back from it.
   */
  lemma ATaskIsInFlightExactlyWhileUnattended(max: int, actions: seq<Action>, s: State, task: TaskId)
    requires Reaches(Initial(max), actions, s) && Clear !in actions && task in s.tasks
    ensures InFlight(s, task) <==> Unattended(s, task)
    ensures s.tasks[task].status.Loading? ==> InFlight(s, task)
  {
    AttendanceRunKeeps(Initial(max), actions, s);
  }

  // ---- Exactly when a joined load is new ---------------------------------------------------

  /** Finished tasks and their loads stay, and new loads are dated no earlier. */
  ghost predicate LoadsGrow(s: State, t: State) {
    && s.now <= t.now
    && (forall task :: task in s.tasks ==> task in t.tasks && (!s.tasks[task].status.Loading? ==> t.tasks[task] == s.tasks[task]))
    && (forall task :: task in s.loads ==> task in t.loads && t.loads[task] == s.loads[task])
    && (forall task :: task in t.loads && task !in s.loads ==> s.now <= t.loads[task].at)
  }

  /** Exactly the loaded tasks have a load, dated no later than now. */
  ghost predicate LoadInv(s: State) {
    && (forall task :: task in s.loads <==> task in s.tasks && s.tasks[task].status.Loaded?)
    && (forall task :: task in s.loads ==> s.loads[task].at <= s.now)
  }

  lemma LoadAskKeeps(s: State, id: nat, key: Key, ttl: real, task: TaskId, copy: Ref, t: State)
    requires LoadInv(s) && AskStep(s, id, key, ttl, task, copy) == Some(t)
    ensures LoadInv(t) && LoadsGrow(s, t)
  {
    match BeginResult(s.entries, s.inflight, key, s.now)
    case Hit(_) => AskHits(s, id, key, ttl, task, copy, t);
    case Joined(_) => AskJoins(s, id, key, ttl, task, copy, t);
    case Created => AskCreates(s, id, key, ttl, task, copy, t);
  }

  lemma LoadContinueKeeps(s: State, id: nat, c: Call, kept: Ref, copy: Ref, t: State)
    requires LoadInv(s) && ContinueStep(s, id, c, kept, copy) == Some(t)
    ensures LoadInv(t) && LoadsGrow(s, t)
  {
    ContinueChangesFlight(s, id, c, kept, copy, t);
  }

  lemma LoadStepKeeps(s: State, a: Action, t: State)
    requires LoadInv(s) && Step(s, a) == Some(t)
    ensures LoadInv(t) && LoadsGrow(s, t)
  {
    match a
    case Ask(call, key, ttl, task, copy) => LoadAskKeeps(s, call, key, ttl, task, copy, t);
    case Continue(call, kept, copy) => LoadContinueKeeps(s, call, s.calls[call], kept, copy, t);
    case _ =>
  }

  lemma {:induction false} LoadRunKeeps(s: State, actions: seq<Action>, t: State)
    requires LoadInv(s) && Reaches(s, actions, t)
    ensures LoadInv(t) && LoadsGrow(s, t)
    decreases |actions|
  {
    if actions != [] {
      var next := Step(s, actions[0]).value;
      LoadStepKeeps(s, actions[0], next);
      LoadRunKeeps(next, actions[1..], t);
    }
  }

  /**
   In every run, the document a caller gets from a task it joins is produced after the join exactly when the
   task was still loading at the join; otherwise it is the one produced before, as old as that load is.
   */
  lemma AJoinedLoadIsNewExactlyIfStillLoading(max: int, before: seq<Action>, s: State, after: seq<Action>, t: State, task: TaskId)
    requires Reaches(Initial(max), before, s) && Reaches(s, after, t)
    requires task in s.tasks && task in t.tasks && t.tasks[task].status.Loaded?
    ensures task in t.loads && (task !in s.loads <==> s.tasks[task].status.Loading?)
    ensures s.tasks[task].status.Loading? ==> s.now <= t.loads[task].at
    ensures !s.tasks[task].status.Loading? ==> t.loads[task] == s.loads[task] && s.loads[task].at <= s.now
  {
    LoadRunKeeps(Initial(max), before, s);
    LoadRunKeeps(s, after, t);
  }

  /** A loader of the key is running. */
  predicate Runs(s: State, task: TaskId, key: Key) {
    task in s.tasks && s.tasks[task] == Task(key, Loading)
  }

  /** The asking call's own new task runs a loader of the key beside another one. */
  ghost predicate StartsASecond(u: State, task: TaskId, key: Key) {
    Runs(u, task, key) && exists other :: other != task && Runs(u, other, key)
  }

  /** In any state, an ask starts a second loader exactly if it misses, nothing of the key is in flight, and one is running. */
  lemma AnAskStartsASecondLoaderExactlyIf(s: State, id: nat, key: Key, ttl: real, task: TaskId, copy: Ref, u: State)
    requires AskStep(s, id, key, ttl, task, copy) == Some(u)
    ensures StartsASecond(u, task, key) <==>
              BeginResult(s.entries, s.inflight, key, s.now).Created? && exists other :: Runs(s, other, key)
  {
    match BeginResult(s.entries, s.inflight, key, s.now)
    case Hit(_) => AskHits(s, id, key, ttl, task, copy, u);
    case Joined(_) => AskJoins(s, id, key, ttl, task, copy, u);
    case Created =>
      AskCreates(s, id, key, ttl, task, copy, u);
      forall other | other != task ensures Runs(u, other, key) <==> Runs(s, other, key) {
      }
  }

  /**
   At any time after a `clear` and before the next one, a call starts a second loader exactly if it misses,
   no load of the key begun since the clear is in flight, and one begun before the clear is still running.
   */
  lemma ASecondLoaderStartsExactlyWhileAnOldOneRuns(p: State, c: State, after: seq<Action>, s: State,
                                                    id: nat, key: Key, ttl: real, task: TaskId, copy: Ref, u: State)
    requires Step(p, Clear) == Some(c) && Reaches(c, after, s) && Clear !in after
    requires AskStep(s, id, key, ttl, task, copy) == Some(u)
    ensures StartsASecond(u, task, key) <==>
              BeginResult(s.entries, s.inflight, key, s.now).Created? && exists other :: other in p.tasks && Runs(s, other, key)
  {
    FlightRunKeeps(c, after, s, p.tasks.Keys);
    AnAskStartsASecondLoaderExactlyIf(s, id, key, ttl, task, copy, u);
    if BeginResult(s.entries, s.inflight, key, s.now).Created? {
      assert forall other :: Runs(s, other, key) ==> other in p.tasks;
    }
  }

  // ---- Limits --------------------------------------------------------------------------------

  lemma {:induction false} ReachesSnoc(s: State, actions: seq<Action>, m: State, a: Action)
    requires Reaches(s, actions, m) && Step(m, a).Some?
    ensures Reaches(s, actions + [a], Step(m, a).value)
    decreases |actions|
  {
    if actions == [] {
      assert [a][1..] == [];
    } else {
      ReachesSnoc(Step(s, actions[0]).value, actions[1..], m, a);
      assert (actions + [a])[1..] == actions[1..] + [a];
    }
  }

  lemma Then(run: seq<Action>, m: State, a: Action) returns (longer: seq<Action>, t: State)
    requires Reaches(Initial(4), run, m) && Step(m, a).Some?
    ensures t == Step(m, a).value && Reaches(Initial(4), longer, t)
  {
    ReachesSnoc(Initial(4), run, m, a);
    longer, t := run + [a], Step(m, a).value;
  }

  const TheKey := Key("acme", 1)

  /** `clear` forgets the running loader, so the next caller starts a second one. */
  lemma ClearLetsASecondLoaderRun() returns (run: seq<Action>, t: State)
    ensures Reaches(Initial(4), run, t)
    ensures t.tasks == map[0 := Task(TheKey, Loading), 1 := Task(TheKey, Loading)]
  {
    run, t := Then([], Initial(4), Ask(0, TheKey, 1.0, 0, 0));
    run, t := Then(run, t, Clear);
    run, t := Then(run, t, Ask(1, TheKey, 1.0, 1, 0));
  }

  lemma LoadIsAbandoned() returns (run: seq<Action>, t: State)
    ensures Reaches(Initial(4), run, t)
    ensures t == Initial(4).(tasks := map[0 := Task(TheKey, Loaded(0))], inflight := map[TheKey := 0],
                             calls := map[0 := Call(TheKey, 1.0, Some(0), Cancelled(true))], heap := map[0 := Document(true, 7)],
                             loads := map[0 := Load(TheKey, Document(true, 7), 0.0)])
  {
    run, t := Then([], Initial(4), Ask(0, TheKey, 1.0, 0, 0));
    run, t := Then(run, t, CallerCancelled(0));
    run, t := Then(run, t, LoaderReturns(0, Document(true, 7), 0));
  }

  lemma ALateCallerJoins() returns (run: seq<Action>, t: State)
    ensures Reaches(Initial(4), run, t)
    ensures t == Initial(4).(now := 1000.0, tasks := map[0 := Task(TheKey, Loaded(0))], inflight := map[TheKey := 0],
                             calls := map[0 := Call(TheKey, 1.0, Some(0), Cancelled(true)), 1 := Call(TheKey, 1.0, Some(0), Waiting(0))],
                             heap := map[0 := Document(true, 7)], loads := map[0 := Load(TheKey, Document(true, 7), 0.0)])
  {
    run, t := LoadIsAbandoned();
    run, t := Then(run, t, Pass(1000.0));
    run, t := Then(run, t, Ask(1, TheKey, 1.0, 1, 1));
  }

  /**
   When its only caller is cancelled before the loader returns, the finished task stays in flight: a much
   later caller joins it, is given the old document, and stores it as new.
   */
  lemma AbandonedLoadIsServedLate() returns (run: seq<Action>, t: State)
    ensures Reaches(Initial(4), run, t) && t.now == 1000.0
    ensures t.loads == map[0 := Load(TheKey, Document(true, 7), 0.0)]
    ensures 1 in t.calls && t.calls[1] == Call(TheKey, 1.0, Some(0), Answered(2)) && 2 in t.heap && t.heap[2] == Document(true, 7)
    ensures t.entries == [Entry(TheKey, 1001.0, 1)]
  {
    run, t := ALateCallerJoins();
    run, t := Then(run, t, Continue(1, 1, 2));
  }
}
