/**
 What the lease buys: in runs where no worker sends or stores after its lease ends, and where a result
 write either succeeds or fails without effect, a running row has one live owner, terminal rows stay as
 they are, and attempts and back-off are bounded.  BookingScenarios shows that both conditions are needed;
 the section on overwrites says, for any run, exactly when a terminal row is left.
 */
module BookingLeases {
  import opened Common
  import opened BookingQueue
  import opened BookingWorker
  import opened BookingProtocol

  // ---- The assumption --------------------------------------------------------------------

  predicate Live(s: State, w: nat) {
    w in s.workers && s.now <= s.workers[w].job.leaseEnd
  }

  /** No provider write and no result write after the lease; a failing result write has no effect. */
  predicate Respectful(s: State, a: Action) {
    a.ByWorker? && a.workerAction.Work? ==>
      match a.workerAction.progress
      case Send(_) => Live(s, a.worker)
      case StoreResult => Live(s, a.worker)
      case StoreFails(applied, _) => Live(s, a.worker) && !applied
      case _ => true
  }

  ghost predicate RespectfulRun(s: State, actions: seq<Action>, t: State)
    decreases |actions|
  {
    if actions == [] then s == t
    else
      && Step(s, actions[0]).Some? && Respectful(s, actions[0])
      && RespectfulRun(Step(s, actions[0]).value, actions[1..], t)
  }

  // ---- Invariant -------------------------------------------------------------------------

  /** A live worker's row is running under exactly its lease and its attempt number. */
  ghost predicate Owns(s: State, w: nat)
    requires w in s.workers
  {
    var job := s.workers[w].job;
    && job.key in s.rows && s.rows[job.key].status.Running?
    && s.rows[job.key].lease == Some(job.leaseEnd) && s.rows[job.key].attempts == job.attempt
  }

  /** What a worker may be about to write: never `running` or `cancelled`, and `pending` only below the limit. */
  predicate PlausibleWrite(attempt: nat, w: Write) {
    && (w.status.Completed? || w.status.Failed? || w.status.NeedsReconnect? || w.status.Pending?)
    && (w.status.Pending? ==> attempt < MAX_ATTEMPTS && w.delay.Some? && w.delay.value <= BackoffCeiling(attempt) as real)
  }

  ghost predicate OwnerInv(s: State) {
    && (forall w :: Live(s, w) ==> Owns(s, w))
    && (forall v, w :: Live(s, v) && Live(s, w) && v != w ==> s.workers[v].job.key != s.workers[w].job.key)
    && (forall w :: w in s.workers && s.workers[w].phase.Writing? ==>
          PlausibleWrite(s.workers[w].job.attempt, s.workers[w].phase.write))
  }

  /** Workers may leave or move to another phase, as long as what they may write stays plausible. */
  lemma WorkersKeepOwner(s: State, t: State)
    requires OwnerInv(s) && t.rows == s.rows && t.now == s.now
    requires forall v :: v in t.workers ==> v in s.workers && t.workers[v].job == s.workers[v].job
    requires forall v :: v in t.workers && t.workers[v].phase.Writing? ==>
               PlausibleWrite(t.workers[v].job.attempt, t.workers[v].phase.write)
    ensures OwnerInv(t)
  {
    forall v | Live(t, v)
      ensures Owns(t, v)
    {
      assert Live(s, v) && Owns(s, v);
    }
  }

  lemma StoreKeepsOwner(s: State, w: nat)
    requires OwnerInv(s) && Live(s, w) && s.workers[w].phase.Writing?
    ensures OwnerInv(ProgressStep(s, w, StoreResult).value)
  {
    var t := ProgressStep(s, w, StoreResult).value;
    forall v | Live(t, v)
      ensures Owns(t, v)
    {
      assert Live(s, v) && Owns(s, v) && v != w;
    }
  }

  lemma AdvanceKeepsOwner(s: State, w: nat, phase: WorkPhase)
    requires OwnerInv(s) && w in s.workers
    requires phase.Writing? ==> PlausibleWrite(s.workers[w].job.attempt, phase.write)
    ensures OwnerInv(Advance(s, w, phase))
  {
    WorkersKeepOwner(s, Advance(s, w, phase));
  }

  lemma FollowKeepsOwner(s: State, w: nat, decision: Decision, next: WorkPhase)
    requires OwnerInv(s) && w in s.workers && !next.Writing?
    requires !decision.Continue? ==> PlausibleWrite(s.workers[w].job.attempt, decision.write)
    ensures OwnerInv(Follow(s, w, decision, next))
  {
    AdvanceKeepsOwner(s, w, if decision.Continue? then next else Writing(decision.write, decision.Raise?));
  }

  lemma HearStatusKeepsOwner(s: State, w: nat, status: StatusReply, sample: real)
    requires OwnerInv(s) && w in s.workers && ProgressStep(s, w, HearStatus(status, sample)).Some?
    ensures OwnerInv(ProgressStep(s, w, HearStatus(status, sample)).value)
  {
    var job := s.workers[w].job;
    var t := if status.StatusConfirmed? then s.(seen := s.seen + {job.key}) else s;
    ElsewhereKeepsOwner(s, t);
    FollowKeepsOwner(t, w, AfterStatus(status, job.attempt, sample), AskAvailability);
  }

  lemma BookResultIsPlausible(reply: BookReply, attempt: nat, sample: real)
    ensures PlausibleWrite(attempt, AfterBook(reply, attempt, sample).write)
  {
  }

  lemma StoreFailureKeepsOwner(s: State, w: nat, sample: real)
    requires OwnerInv(s) && w in s.workers && s.workers[w].phase.Writing?
    ensures OwnerInv(ProgressStep(s, w, StoreFails(false, sample)).value)
  {
    if s.workers[w].phase.handler {
      LeaveKeepsOwner(s, w);
    } else {
      AdvanceKeepsOwner(s, w, Writing(TemporaryFailureWrite(s.workers[w].job.attempt, sample), true));
    }
  }

  lemma ProgressKeepsOwner(s: State, w: nat, a: Progress)
    requires OwnerInv(s) && w in s.workers && ProgressStep(s, w, a).Some? && Respectful(s, ByWorker(w, Work(a)))
    ensures OwnerInv(ProgressStep(s, w, a).value)
  {
    var job := s.workers[w].job;
    match a
    case HearStatus(status, sample) => HearStatusKeepsOwner(s, w, status, sample);
    case HearAvailability(availability, sample) =>
      FollowKeepsOwner(s, w, AfterAvailability(availability, job.payload.start, job.attempt, sample), SendBook);
    case Send(call) =>
      ElsewhereKeepsOwner(s, StartCall(s, call, job.key, job.payload));
      AdvanceKeepsOwner(StartCall(s, call, job.key, job.payload), w, AwaitBook(call));
    case StoreResult => StoreKeepsOwner(s, w);
    case StoreFails(_, sample) => StoreFailureKeepsOwner(s, w, sample);
    case HearBook(sample) =>
      var reply := s.calls[s.workers[w].phase.call].phase.reply;
      BookResultIsPlausible(reply, job.attempt, sample);
      FollowKeepsOwner(s, w, AfterBook(reply, job.attempt, sample), SendBook);
    case LoseBook(code, sample) =>
      BookResultIsPlausible(BookHttpError(code), job.attempt, sample);
      FollowKeepsOwner(s, w, AfterBook(BookHttpError(code), job.attempt, sample), SendBook);
  }

  lemma LeaveKeepsOwner(s: State, w: nat)
    requires OwnerInv(s)
    ensures OwnerInv(s.(workers := s.workers - {w}))
  {
    WorkersKeepOwner(s, s.(workers := s.workers - {w}));
  }

  lemma ClaimKeepsOwner(s: State, w: nat, key: Key)
    requires OwnerInv(s) && WorkerStep(s, w, Claim(key)).Some?
    ensures OwnerInv(WorkerStep(s, w, Claim(key)).value)
  {
    var t := WorkerStep(s, w, Claim(key)).value;
    forall v | Live(t, v) && v != w
      ensures Owns(t, v) && t.workers[v].job.key != key
    {
      assert Live(s, v) && Owns(s, v);
    }
  }

  lemma RowsKeepOwner(s: State, rows: map<Key, Row>)
    requires OwnerInv(s)
    requires forall k :: k in s.rows && s.rows[k].status.Running? ==> k in rows && rows[k] == s.rows[k]
    ensures OwnerInv(s.(rows := rows))
  {
    var t := s.(rows := rows);
    forall v | Live(t, v)
      ensures Owns(t, v)
    {
      assert Live(s, v) && Owns(s, v);
    }
  }

  /** Steps that leave workers and rows alone and do not turn the clock back. */
  lemma ElsewhereKeepsOwner(s: State, t: State)
    requires OwnerInv(s) && t.workers == s.workers && t.rows == s.rows && t.now >= s.now
    ensures OwnerInv(t)
  {
    assert forall v :: Live(t, v) ==> Live(s, v) && Owns(s, v);
  }

  lemma WorkerKeepsOwner(s: State, w: nat, a: WorkerAction)
    requires OwnerInv(s) && WorkerStep(s, w, a).Some? && Respectful(s, ByWorker(w, a))
    ensures OwnerInv(WorkerStep(s, w, a).value)
  {
    match a
    case Claim(key) => ClaimKeepsOwner(s, w, key);
    case Work(progress) => ProgressKeepsOwner(s, w, progress);
    case WorkerStops => LeaveKeepsOwner(s, w);
  }

  lemma ClientKeepsOwner(s: State, c: nat, a: ClientAction)
    requires OwnerInv(s) && ClientStep(s, c, a).Some?
    ensures OwnerInv(ClientStep(s, c, a).value)
  {
    var t := ClientStep(s, c, a).value;
    RowsKeepOwner(s, t.rows);
    ElsewhereKeepsOwner(s.(rows := t.rows), t);
  }

  lemma BrokerLeavesTheQueue(s: State, call: nat, a: BrokerAction, t: State)
    requires BrokerStep(s, call, a) == Some(t)
    ensures t.workers == s.workers && t.rows == s.rows && t.now == s.now
  {
  }

  lemma BrokerKeepsOwner(s: State, call: nat, a: BrokerAction)
    requires OwnerInv(s) && BrokerStep(s, call, a).Some?
    ensures OwnerInv(BrokerStep(s, call, a).value)
  {
    BrokerLeavesTheQueue(s, call, a, BrokerStep(s, call, a).value);
    ElsewhereKeepsOwner(s, BrokerStep(s, call, a).value);
  }

  lemma OwnerActionKeepsOwner(s: State, a: OwnerAction)
    requires OwnerInv(s) && OwnerStep(s, a).Some?
    ensures OwnerInv(OwnerStep(s, a).value)
  {
    ElsewhereKeepsOwner(s, OwnerStep(s, a).value);
  }

  lemma StepKeepsOwner(s: State, a: Action)
    requires OwnerInv(s) && Step(s, a).Some? && Respectful(s, a)
    ensures OwnerInv(Step(s, a).value)
  {
    match a
    case ByWorker(w, action) => WorkerKeepsOwner(s, w, action);
    case ByClient(c, action) => ClientKeepsOwner(s, c, action);
    case CancelRequest(key) => RowsKeepOwner(s, CancelRow(s.rows, key));
    case ResumeCompany(company) => RowsKeepOwner(s, ResumeRows(s.rows, company, s.now));
    case ByBroker(call, action) => BrokerKeepsOwner(s, call, action);
    case ByOwner(action) => OwnerActionKeepsOwner(s, action);
    case Tick(elapsed) => ElsewhereKeepsOwner(s, s.(now := s.now + elapsed));
  }

  lemma {:induction false} RunKeepsOwner(s: State, actions: seq<Action>, t: State)
    requires OwnerInv(s) && RespectfulRun(s, actions, t)
    ensures OwnerInv(t)
    decreases |actions|
  {
    if actions != [] {
      StepKeepsOwner(s, actions[0]);
      RunKeepsOwner(Step(s, actions[0]).value, actions[1..], t);
    }
  }

  // ---- Ownership and finality ------------------------------------------------------------

  /** Each row has at most one live owner, and that owner's row is running under its lease. */
  lemma OneLiveOwner(actions: seq<Action>, t: State, v: nat, w: nat)
    requires RespectfulRun(Initial, actions, t)
    requires Live(t, v) && Live(t, w) && t.workers[v].job.key == t.workers[w].job.key
    ensures v == w && Owns(t, v)
  {
    RunKeepsOwner(Initial, actions, t);
  }

  /** The row a step leaves under `key`, described by the queue's own row transitions. */
  ghost function RowsAfter(s: State, a: Action): map<Key, Row> {
    match a
    case ByWorker(w, Claim(key)) => if key in s.rows then s.rows[key := ClaimedRow(s.rows[key], s.now)] else s.rows
    case ByWorker(w, Work(StoreResult)) =>
      if w in s.workers && s.workers[w].phase.Writing?
      then WriteRow(s.rows, s.workers[w].job.key, s.workers[w].phase.write, s.now) else s.rows
    case ByClient(c, QueueRow) =>
      if c in s.clients && s.clients[c].Queueing?
      then InsertRow(s.rows, s.clients[c].key, s.clients[c].body, s.clients[c].status, s.now) else s.rows
    case CancelRequest(key) => CancelRow(s.rows, key)
    case ResumeCompany(company) => ResumeRows(s.rows, company, s.now)
    case _ => s.rows
  }

  lemma ProgressRows(s: State, w: nat, a: Progress)
    requires w in s.workers && ProgressStep(s, w, a).Some? && Respectful(s, ByWorker(w, Work(a)))
    ensures ProgressStep(s, w, a).value.rows == RowsAfter(s, ByWorker(w, Work(a)))
  {
  }

  lemma StepRows(s: State, a: Action)
    requires Step(s, a).Some? && Respectful(s, a)
    ensures Step(s, a).value.rows == RowsAfter(s, a)
  {
    match a
    case ByWorker(w, action) => if action.Work? { ProgressRows(s, w, action.progress); }
    case ByBroker(call, action) => BrokerLeavesTheQueue(s, call, action, Step(s, a).value);
    case _ =>
  }

  /** A claim step takes an eligible row, and a store step comes from a worker about to write. */
  predicate Enabled(s: State, a: Action) {
    && (a.ByWorker? && a.workerAction.Claim? ==>
          a.workerAction.key in s.rows && Eligible(s.rows[a.workerAction.key], s.now))
    && (a.ByWorker? && a.workerAction.Work? && a.workerAction.progress.StoreResult? ==>
          a.worker in s.workers && s.workers[a.worker].phase.Writing?)
    && (a.ByClient? && a.clientAction.QueueRow? ==> a.client in s.clients && s.clients[a.client].Queueing?)
  }

  lemma StepEnabled(s: State, a: Action)
    requires Step(s, a).Some?
    ensures Enabled(s, a)
  {
  }

  lemma RowsKeepTerminal(s: State, a: Action, key: Key)
    requires OwnerInv(s) && Enabled(s, a) && Respectful(s, a)
    requires key in s.rows && Terminal(s.rows[key].status)
    ensures key in RowsAfter(s, a) && RowsAfter(s, a)[key] == s.rows[key]
  {
    if a.ByWorker? && a.workerAction.Work? && a.workerAction.progress.StoreResult? {
      assert Owns(s, a.worker);
    }
  }

  lemma StepKeepsTerminal(s: State, a: Action, key: Key)
    requires OwnerInv(s) && Step(s, a).Some? && Respectful(s, a)
    requires key in s.rows && Terminal(s.rows[key].status)
    ensures key in Step(s, a).value.rows && Step(s, a).value.rows[key] == s.rows[key]
  {
    StepEnabled(s, a);
    StepRows(s, a);
    RowsKeepTerminal(s, a, key);
  }

  /** `completed`, `failed` and `cancelled` rows never change while the ownership invariant holds. */
  lemma {:induction false} TerminalRowsAreFinal(s: State, actions: seq<Action>, t: State, key: Key)
    requires OwnerInv(s) && RespectfulRun(s, actions, t)
    requires key in s.rows && Terminal(s.rows[key].status)
    ensures key in t.rows && t.rows[key] == s.rows[key]
    decreases |actions|
  {
    if actions != [] {
      StepKeepsOwner(s, actions[0]);
      StepKeepsTerminal(s, actions[0], key);
      TerminalRowsAreFinal(Step(s, actions[0]).value, actions[1..], t, key);
    }
  }

  /** In every respectful run, a row that has become terminal is found unchanged ever after. */
  lemma TerminalIsForever(before: seq<Action>, s: State, after: seq<Action>, t: State, key: Key)
    requires RespectfulRun(Initial, before, s) && RespectfulRun(s, after, t)
    requires key in s.rows && Terminal(s.rows[key].status)
    ensures key in t.rows && t.rows[key] == s.rows[key]
  {
    RunKeepsOwner(Initial, before, s);
    TerminalRowsAreFinal(s, after, t, key);
  }

  // ---- Exactly when a terminal row is left -----------------------------------------------

  /** A worker that holds a job for `key` and is about to write something else than the row says. */
  predicate WouldOverwrite(s: State, w: nat, key: Key) {
    && key in s.rows && w in s.workers && s.workers[w].job.key == key && s.workers[w].phase.Writing?
    && WrittenRow(s.rows[key], s.workers[w].phase.write, s.now) != s.rows[key]
  }

  /** A result write of such a worker takes effect in this step, acknowledged or not. */
  predicate Overwrites(s: State, a: Action, key: Key) {
    && a.ByWorker? && a.workerAction.Work? && WouldOverwrite(s, a.worker, key)
    && (a.workerAction.progress.StoreResult? || (a.workerAction.progress.StoreFails? && a.workerAction.progress.applied))
  }

  lemma WorkChangesRowsExactlyByStoring(s: State, w: nat, a: Progress, t: State, key: Key)
    requires w in s.workers && ProgressStep(s, w, a) == Some(t) && key in s.rows
    ensures key in t.rows && (t.rows[key] != s.rows[key] <==> Overwrites(s, ByWorker(w, Work(a)), key))
  {
  }

  /** In any state, with no assumption at all, a step changes a terminal row exactly when it overwrites it. */
  lemma ATerminalRowChangesExactlyByAnOverwrite(s: State, a: Action, t: State, key: Key)
    requires Step(s, a) == Some(t) && key in s.rows && Terminal(s.rows[key].status)
    ensures key in t.rows && (t.rows[key] != s.rows[key] <==> Overwrites(s, a, key))
  {
    match a
    case ByWorker(w, action) => if action.Work? { WorkChangesRowsExactlyByStoring(s, w, action.progress, t, key); }
    case ByBroker(call, action) => BrokerLeavesTheQueue(s, call, action, t);
    case _ =>
  }

  /** In any state, some step can change a terminal row exactly when some worker would overwrite it. */
  lemma ATerminalRowIsExposedExactlyToSuchAWorker(s: State, key: Key)
    requires key in s.rows && Terminal(s.rows[key].status)
    ensures (exists a :: Step(s, a).Some? && (key !in Step(s, a).value.rows || Step(s, a).value.rows[key] != s.rows[key]))
            <==> exists w :: WouldOverwrite(s, w, key)
  {
    forall a | Step(s, a).Some?
      ensures key in Step(s, a).value.rows && (Step(s, a).value.rows[key] != s.rows[key] <==> Overwrites(s, a, key))
    {
      ATerminalRowChangesExactlyByAnOverwrite(s, a, Step(s, a).value, key);
    }
    if w :| WouldOverwrite(s, w, key) {
      var a := ByWorker(w, Work(StoreResult));
      assert Step(s, a).Some? && Overwrites(s, a, key);
    }
  }

  /** After a respectful run such a worker has overrun its lease: no live worker holds a terminal row. */
  lemma OnlyALateWorkerOverwrites(before: seq<Action>, s: State, w: nat, key: Key)
    requires RespectfulRun(Initial, before, s)
    requires key in s.rows && Terminal(s.rows[key].status) && WouldOverwrite(s, w, key)
    ensures s.now > s.workers[w].job.leaseEnd
  {
    RunKeepsOwner(Initial, before, s);
    assert Live(s, w) ==> Owns(s, w);
  }

  /** The other source: a raising write of `completed` leaves a worker about to undo it exactly when it took effect. */
  lemma ARaisingCompletionIsUndoneExactlyIfApplied(before: seq<Action>, s: State, w: nat, applied: bool, sample: real, t: State, event: EventId)
    requires RespectfulRun(Initial, before, s) && Live(s, w) && s.workers[w].phase == Writing(CompletedWrite(event), false)
    requires Step(s, ByWorker(w, Work(StoreFails(applied, sample)))) == Some(t)
    ensures var key := s.workers[w].job.key;
            key in t.rows && (Terminal(t.rows[key].status) && WouldOverwrite(t, w, key) <==> applied)
  {
    RunKeepsOwner(Initial, before, s);
    assert Owns(s, w);
  }

  /** The row under `key` is the same in every state of the run. */
  ghost predicate Untouched(s: State, actions: seq<Action>, key: Key, row: Row)
    decreases |actions|
  {
    && key in s.rows && s.rows[key] == row
    && (actions != [] && Step(s, actions[0]).Some? ==> Untouched(Step(s, actions[0]).value, actions[1..], key, row))
  }

  ghost predicate EverOverwritten(s: State, actions: seq<Action>, key: Key)
    decreases |actions|
  {
    actions != [] && Step(s, actions[0]).Some?
    && (Overwrites(s, actions[0], key) || EverOverwritten(Step(s, actions[0]).value, actions[1..], key))
  }

  /** Over any run at all, a terminal row stays untouched exactly when no step overwrites it. */
  lemma {:induction false} TerminalRowsStayExactlyUnlessOverwritten(s: State, actions: seq<Action>, t: State, key: Key)
    requires Reaches(s, actions, t) && key in s.rows && Terminal(s.rows[key].status)
    ensures Untouched(s, actions, key, s.rows[key]) <==> !EverOverwritten(s, actions, key)
    decreases |actions|
  {
    if actions != [] {
      var next := Step(s, actions[0]).value;
      ATerminalRowChangesExactlyByAnOverwrite(s, actions[0], next, key);
      if next.rows[key] == s.rows[key] {
        TerminalRowsStayExactlyUnlessOverwritten(next, actions[1..], t, key);
      }
    }
  }

  /** Some step of the run is the queue sending the provider write for `key`. */
  ghost predicate QueueSends(s: State, actions: seq<Action>, key: Key)
    decreases |actions|
  {
    actions != [] && Step(s, actions[0]).Some? &&
    (|| (var a := actions[0];
         a.ByWorker? && a.workerAction.Work? && a.workerAction.progress.Send?
         && a.worker in s.workers && s.workers[a.worker].job.key == key)
     || QueueSends(Step(s, actions[0]).value, actions[1..], key))
  }

  lemma {:induction false} NoSendFromTerminal(s: State, actions: seq<Action>, t: State, key: Key)
    requires OwnerInv(s) && RespectfulRun(s, actions, t)
    requires key in s.rows && Terminal(s.rows[key].status)
    ensures !QueueSends(s, actions, key)
    decreases |actions|
  {
    if actions != [] {
      StepKeepsOwner(s, actions[0]);
      StepKeepsTerminal(s, actions[0], key);
      NoSendFromTerminal(Step(s, actions[0]).value, actions[1..], t, key);
      var a := actions[0];
      if a.ByWorker? && a.workerAction.Work? && a.workerAction.progress.Send? {
        assert Owns(s, a.worker);
      }
    }
  }

  /** After a cancel that returned true, no later step of the queue sends a provider write for that row. */
  lemma CancelStopsTheQueue(before: seq<Action>, s: State, key: Key, after: seq<Action>, t: State)
    requires RespectfulRun(Initial, before, s) && Cancellable(s.rows, key)
    requires RespectfulRun(Step(s, CancelRequest(key)).value, after, t)
    ensures !QueueSends(Step(s, CancelRequest(key)).value, after, key)
    ensures key in t.rows && t.rows[key].status.Cancelled?
  {
    RunKeepsOwner(Initial, before, s);
    StepKeepsOwner(s, CancelRequest(key));
    NoSendFromTerminal(Step(s, CancelRequest(key)).value, after, t, key);
    TerminalRowsAreFinal(Step(s, CancelRequest(key)).value, after, t, key);
  }

  // ---- Attempts and back-off -------------------------------------------------------------

  /** What one step does to the counters of a row. */
  function Claims(s: State, a: Action, key: Key): nat {
    if a.ByWorker? && a.workerAction == Claim(key) then 1 else 0
  }

  function Reclaims(s: State, a: Action, key: Key): nat {
    if a.ByWorker? && a.workerAction == Claim(key) && key in s.rows && s.rows[key].status.Running? then 1 else 0
  }

  function Resumes(s: State, a: Action, key: Key): nat {
    if a.ResumeCompany? && key in s.rows && Resumable(key, s.rows[key], a.company) then 1 else 0
  }

  /** The delay a step schedules for the row, if it puts it back to `pending`. */
  function Backoff(s: State, a: Action, key: Key): real {
    if a.ByWorker? && a.workerAction.Work? && a.workerAction.progress.StoreResult?
       && a.worker in s.workers && s.workers[a.worker].job.key == key && s.workers[a.worker].phase.Writing?
       && s.workers[a.worker].phase.write.status.Pending? && s.workers[a.worker].phase.write.delay.Some?
    then s.workers[a.worker].phase.write.delay.value else 0.0
  }

  ghost function TotalClaims(s: State, actions: seq<Action>, key: Key): nat
    decreases |actions|
  {
    if actions == [] || Step(s, actions[0]).None? then 0
    else Claims(s, actions[0], key) + TotalClaims(Step(s, actions[0]).value, actions[1..], key)
  }

  ghost function TotalReclaims(s: State, actions: seq<Action>, key: Key): nat
    decreases |actions|
  {
    if actions == [] || Step(s, actions[0]).None? then 0
    else Reclaims(s, actions[0], key) + TotalReclaims(Step(s, actions[0]).value, actions[1..], key)
  }

  ghost function TotalResumes(s: State, actions: seq<Action>, key: Key): nat
    decreases |actions|
  {
    if actions == [] || Step(s, actions[0]).None? then 0
    else Resumes(s, actions[0], key) + TotalResumes(Step(s, actions[0]).value, actions[1..], key)
  }

  ghost function TotalBackoff(s: State, actions: seq<Action>, key: Key): real
    decreases |actions|
  {
    if actions == [] || Step(s, actions[0]).None? then 0.0
    else Backoff(s, actions[0], key) + TotalBackoff(Step(s, actions[0]).value, actions[1..], key)
  }

  /** Attempts used beyond what the status allows: a pending row must leave room for one more claim. */
  function Excess(rows: map<Key, Row>, key: Key): int {
    if key !in rows then 0 - MAX_ATTEMPTS
    else rows[key].attempts - (if rows[key].status.Pending? then MAX_ATTEMPTS - 1 else MAX_ATTEMPTS)
  }

  lemma RowsBoundExcess(s: State, a: Action, key: Key)
    requires OwnerInv(s) && Enabled(s, a) && Respectful(s, a)
    ensures Excess(RowsAfter(s, a), key) <= Common.Max(0, Excess(s.rows, key)) + Reclaims(s, a, key) + Resumes(s, a, key)
  {
    if a.ByWorker? && a.workerAction.Work? && a.workerAction.progress.StoreResult? {
      assert Owns(s, a.worker);
    }
  }

  lemma StepBoundsExcess(s: State, a: Action, key: Key)
    requires OwnerInv(s) && Step(s, a).Some? && Respectful(s, a)
    ensures Excess(Step(s, a).value.rows, key) <= Common.Max(0, Excess(s.rows, key)) + Reclaims(s, a, key) + Resumes(s, a, key)
  {
    StepEnabled(s, a);
    StepRows(s, a);
    RowsBoundExcess(s, a, key);
  }

  lemma {:induction false} RunBoundsExcess(s: State, actions: seq<Action>, t: State, key: Key)
    requires OwnerInv(s) && RespectfulRun(s, actions, t)
    ensures Excess(t.rows, key) <=
              Common.Max(0, Excess(s.rows, key)) + TotalReclaims(s, actions, key) + TotalResumes(s, actions, key)
    decreases |actions|
  {
    if actions != [] {
      StepKeepsOwner(s, actions[0]);
      StepBoundsExcess(s, actions[0], key);
      RunBoundsExcess(Step(s, actions[0]).value, actions[1..], t, key);
    }
  }

  /** A row is attempted at most eight times, plus once per lease that lapsed and once per resume. */
  lemma AttemptsAreBounded(actions: seq<Action>, t: State, key: Key)
    requires RespectfulRun(Initial, actions, t) && key in t.rows
    ensures t.rows[key].attempts <= MAX_ATTEMPTS + TotalReclaims(Initial, actions, key) + TotalResumes(Initial, actions, key)
  {
    RunBoundsExcess(Initial, actions, t, key);
  }

  // ---- Termination of a row --------------------------------------------------------------

  /** The row under `key` is in `needs_reconnect` at no state of the run. */
  ghost predicate NeverReconnects(s: State, actions: seq<Action>, key: Key)
    decreases |actions|
  {
    && (key in s.rows ==> !s.rows[key].status.NeedsReconnect?)
    && (actions != [] && Step(s, actions[0]).Some? ==> NeverReconnects(Step(s, actions[0]).value, actions[1..], key))
  }

  /** Claims and writes still possible for a row whose lease never lapses. */
  function Measure(rows: map<Key, Row>, key: Key): int {
    if key !in rows then 2 * MAX_ATTEMPTS + 1
    else if rows[key].status.Pending? then 2 * (MAX_ATTEMPTS - rows[key].attempts)
    else if rows[key].status.Running? then 2 * (MAX_ATTEMPTS - rows[key].attempts) + 1
    else 0
  }

  /** Room for the attempts a smooth row still has: a pending row is below the limit. */
  predicate SmoothRow(rows: map<Key, Row>, key: Key) {
    key in rows ==>
      && !rows[key].status.NeedsReconnect?
      && (rows[key].status.Pending? ==> rows[key].attempts < MAX_ATTEMPTS)
      && (rows[key].status.Running? ==> 1 <= rows[key].attempts)
      && rows[key].attempts <= MAX_ATTEMPTS
  }

  function AttemptsOf(rows: map<Key, Row>, key: Key): nat {
    if key in rows then rows[key].attempts else 0
  }

  lemma RowsDecrease(s: State, a: Action, key: Key)
    requires OwnerInv(s) && Enabled(s, a) && Respectful(s, a) && SmoothRow(s.rows, key)
    requires Reclaims(s, a, key) == 0
    requires key in RowsAfter(s, a) ==> !RowsAfter(s, a)[key].status.NeedsReconnect?
    ensures SmoothRow(RowsAfter(s, a), key)
    ensures AttemptsOf(RowsAfter(s, a), key) == AttemptsOf(s.rows, key) + Claims(s, a, key)
    ensures 0 <= Measure(RowsAfter(s, a), key)
    ensures || (key !in s.rows && key !in RowsAfter(s, a))
            || (key in s.rows && key in RowsAfter(s, a) && RowsAfter(s, a)[key] == s.rows[key])
            || Measure(RowsAfter(s, a), key) < Measure(s.rows, key)
  {
    if a.ByWorker? && a.workerAction.Work? && a.workerAction.progress.StoreResult? {
      assert Owns(s, a.worker);
    }
  }

  /**
   Without a lapsed lease and without a reconnect, every step either leaves the row as it is or
   strictly lowers a natural-number measure that is positive exactly while the row is not terminal.
   */
  lemma EveryChangeMakesProgress(s: State, a: Action, key: Key)
    requires OwnerInv(s) && Step(s, a).Some? && Respectful(s, a) && SmoothRow(s.rows, key)
    requires Reclaims(s, a, key) == 0
    requires key in Step(s, a).value.rows ==> !Step(s, a).value.rows[key].status.NeedsReconnect?
    ensures var rows := Step(s, a).value.rows;
            && SmoothRow(rows, key) && 0 <= Measure(rows, key)
            && AttemptsOf(rows, key) == AttemptsOf(s.rows, key) + Claims(s, a, key)
            && (key in rows ==> (Measure(rows, key) == 0 <==> Terminal(rows[key].status)))
            && (|| (key !in s.rows && key !in rows)
                || (key in s.rows && key in rows && rows[key] == s.rows[key])
                || Measure(rows, key) < Measure(s.rows, key))
  {
    StepEnabled(s, a);
    StepRows(s, a);
    RowsDecrease(s, a, key);
  }

  lemma {:induction false} SmoothRun(s: State, actions: seq<Action>, t: State, key: Key)
    requires OwnerInv(s) && RespectfulRun(s, actions, t) && SmoothRow(s.rows, key)
    requires NeverReconnects(s, actions, key) && TotalReclaims(s, actions, key) == 0
    ensures SmoothRow(t.rows, key)
    ensures AttemptsOf(t.rows, key) == AttemptsOf(s.rows, key) + TotalClaims(s, actions, key)
    decreases |actions|
  {
    if actions != [] {
      StepKeepsOwner(s, actions[0]);
      EveryChangeMakesProgress(s, actions[0], key);
      SmoothRun(Step(s, actions[0]).value, actions[1..], t, key);
    }
  }

  /** Eight claims are enough: a ninth never happens, and after the eighth the row can only run or be terminal. */
  lemma TerminalWithinEightClaims(actions: seq<Action>, t: State, key: Key)
    requires RespectfulRun(Initial, actions, t)
    requires NeverReconnects(Initial, actions, key) && TotalReclaims(Initial, actions, key) == 0
    ensures TotalClaims(Initial, actions, key) <= MAX_ATTEMPTS
    ensures key in t.rows && TotalClaims(Initial, actions, key) == MAX_ATTEMPTS ==>
              t.rows[key].status.Running? || Terminal(t.rows[key].status)
  {
    SmoothRun(Initial, actions, t, key);
  }

  // ---- Total back-off --------------------------------------------------------------------

  const MAX_TOTAL_BACKOFF := 3810.0

  function BackoffSum(n: nat): int {
    30 * (Pow2(n) - 1)
  }

  lemma BackoffSumStep(a: nat)
    requires 1 <= a < MAX_ATTEMPTS
    ensures BackoffCeiling(a) <= BackoffSum(a) - BackoffSum(a - 1)
    ensures 0 <= BackoffSum(a - 1) <= BackoffSum(a) && BackoffSum(a) as real <= MAX_TOTAL_BACKOFF
  {
    Pow2Monotone(a, 7);
    assert Pow2(7) == 128;
  }

  lemma {:induction false} Pow2Monotone(m: nat, n: nat)
    requires m <= n
    ensures Pow2(m) <= Pow2(n)
  {
    if m < n {
      Pow2Monotone(m, n - 1);
    }
  }

  /** The back-off a smooth row may already have used; nothing is left to use once it is terminal. */
  function Spent(rows: map<Key, Row>, key: Key): real {
    if key !in rows then 0.0
    else if rows[key].status.Pending? then BackoffSum(rows[key].attempts) as real
    else if rows[key].status.Running? && rows[key].attempts >= 1 then BackoffSum(rows[key].attempts - 1) as real
    else MAX_TOTAL_BACKOFF
  }

  lemma SpentBound(rows: map<Key, Row>, key: Key)
    requires SmoothRow(rows, key)
    ensures 0.0 <= Spent(rows, key) <= MAX_TOTAL_BACKOFF
  {
    if key in rows {
      Pow2Monotone(rows[key].attempts, 8);
      if rows[key].status.Pending? { Pow2Monotone(rows[key].attempts, 7); }
      if rows[key].status.Running? { Pow2Monotone(rows[key].attempts - 1, 7); }
      assert Pow2(7) == 128;
    }
  }

  lemma RowsSpend(s: State, a: Action, key: Key)
    requires OwnerInv(s) && Enabled(s, a) && Respectful(s, a) && SmoothRow(s.rows, key)
    requires Reclaims(s, a, key) == 0 && SmoothRow(RowsAfter(s, a), key)
    ensures Spent(s.rows, key) + Backoff(s, a, key) <= Spent(RowsAfter(s, a), key)
  {
    SpentBound(s.rows, key);
    SpentBound(RowsAfter(s, a), key);
    if a.ByWorker? && a.workerAction.Work? && a.workerAction.progress.StoreResult? {
      assert Owns(s, a.worker);
      var job := s.workers[a.worker].job;
      if job.key == key && job.attempt < MAX_ATTEMPTS {
        BackoffSumStep(job.attempt);
      }
    }
  }

  lemma {:induction false} RunSpends(s: State, actions: seq<Action>, t: State, key: Key)
    requires OwnerInv(s) && RespectfulRun(s, actions, t) && SmoothRow(s.rows, key)
    requires NeverReconnects(s, actions, key) && TotalReclaims(s, actions, key) == 0
    ensures SmoothRow(t.rows, key)
    ensures Spent(s.rows, key) + TotalBackoff(s, actions, key) <= Spent(t.rows, key)
    decreases |actions|
  {
    if actions != [] {
      StepKeepsOwner(s, actions[0]);
      EveryChangeMakesProgress(s, actions[0], key);
      StepEnabled(s, actions[0]);
      StepRows(s, actions[0]);
      RowsSpend(s, actions[0], key);
      RunSpends(Step(s, actions[0]).value, actions[1..], t, key);
    }
  }

  /** The delays scheduled for a row over such a run add up to at most 30 * (2^7 - 1) = 3810 seconds. */
  lemma BackoffIsBounded(actions: seq<Action>, t: State, key: Key)
    requires RespectfulRun(Initial, actions, t)
    requires NeverReconnects(Initial, actions, key) && TotalReclaims(Initial, actions, key) == 0
    ensures TotalBackoff(Initial, actions, key) <= MAX_TOTAL_BACKOFF == BackoffSum(7) as real
  {
    RunSpends(Initial, actions, t, key);
    SpentBound(t.rows, key);
    assert Pow2(7) == 128;
  }
}
