/**
 When a row may be claimed: a scheduled delay is waited for.  No lease is assumed to be respected, and any
 response and any write may be lost.
 */
module BookingSchedule {
  import opened Common
  import opened BookingQueue
  import opened BookingWorker
  import opened BookingProtocol

  // ---- What workers write ------------------------------------------------------------------

  /** Whatever a worker is about to write, in a handler or not, is within the bounds of a pass. */
  ghost predicate WriteInv(s: State) {
    forall w :: w in s.workers && s.workers[w].phase.Writing? ==> PassWrites(s.workers[w].phase.write, s.workers[w].job.attempt)
  }

  lemma DecisionsArePassWrites(status: StatusReply, availability: AvailabilityReply, book: BookReply, start: int, attempt: nat, sample: real)
    ensures var d := AfterStatus(status, attempt, sample); d.Continue? || PassWrites(d.write, attempt)
    ensures var d := AfterAvailability(availability, start, attempt, sample); d.Continue? || PassWrites(d.write, attempt)
    ensures PassWrites(AfterBook(book, attempt, sample).write, attempt)
  {
  }

  lemma AdvanceKeepsWrites(s: State, w: nat, phase: WorkPhase)
    requires WriteInv(s) && w in s.workers && (phase.Writing? ==> PassWrites(phase.write, s.workers[w].job.attempt))
    ensures WriteInv(Advance(s, w, phase))
  {
  }

  lemma FollowKeepsWrites(s: State, w: nat, d: Decision, next: WorkPhase)
    requires WriteInv(s) && w in s.workers && !next.Writing? && (d.Continue? || PassWrites(d.write, s.workers[w].job.attempt))
    ensures WriteInv(Follow(s, w, d, next))
  {
    AdvanceKeepsWrites(s, w, if d.Continue? then next else Writing(d.write, d.Raise?));
  }

  lemma ProgressKeepsWrites(s: State, w: nat, a: Progress, t: State)
    requires WriteInv(s) && w in s.workers && ProgressStep(s, w, a) == Some(t)
    ensures WriteInv(t)
  {
    var job := s.workers[w].job;
    match a
    case HearStatus(status, sample) =>
      DecisionsArePassWrites(status, AvailabilityCrash, BookCrash, 0, job.attempt, sample);
      var seen := if status.StatusConfirmed? then s.(seen := s.seen + {job.key}) else s;
      FollowKeepsWrites(seen, w, AfterStatus(status, job.attempt, sample), AskAvailability);
    case HearAvailability(availability, sample) =>
      DecisionsArePassWrites(StatusCrash, availability, BookCrash, job.payload.start, job.attempt, sample);
      FollowKeepsWrites(s, w, AfterAvailability(availability, job.payload.start, job.attempt, sample), SendBook);
    case Send(call) => AdvanceKeepsWrites(StartCall(s, call, job.key, job.payload), w, AwaitBook(call));
    case HearBook(sample) =>
      var reply := s.calls[s.workers[w].phase.call].phase.reply;
      DecisionsArePassWrites(StatusCrash, AvailabilityCrash, reply, 0, job.attempt, sample);
      FollowKeepsWrites(s, w, AfterBook(reply, job.attempt, sample), SendBook);
    case LoseBook(code, sample) =>
      DecisionsArePassWrites(StatusCrash, AvailabilityCrash, BookHttpError(code), 0, job.attempt, sample);
      FollowKeepsWrites(s, w, AfterBook(BookHttpError(code), job.attempt, sample), SendBook);
    case StoreResult => SameWritersKeepWrites(s, t);
    case StoreFails(_, sample) => FailureKeepsWrites(s, w, a, t);
  }

  lemma FailureKeepsWrites(s: State, w: nat, a: Progress, t: State)
    requires WriteInv(s) && w in s.workers && a.StoreFails? && ProgressStep(s, w, a) == Some(t)
    ensures WriteInv(t)
  {
  }

  /** Whoever was not writing still is not, and nobody's write changed. */
  lemma SameWritersKeepWrites(s: State, t: State)
    requires WriteInv(s)
    requires forall w :: w in t.workers && t.workers[w].phase.Writing? ==> w in s.workers && t.workers[w] == s.workers[w]
    ensures WriteInv(t)
  {
  }

  lemma StepKeepsWrites(s: State, a: Action, t: State)
    requires WriteInv(s) && Step(s, a) == Some(t)
    ensures WriteInv(t)
  {
    if a.ByWorker? && a.workerAction.Work? {
      ProgressKeepsWrites(s, a.worker, a.workerAction.progress, t);
    } else {
      OthersDoNotWrite(s, a, t);
      SameWritersKeepWrites(s, t);
    }
  }

  lemma BrokerLeavesWorkers(s: State, call: nat, a: BrokerAction, t: State)
    requires BrokerStep(s, call, a) == Some(t)
    ensures t.workers == s.workers
  {
  }

  lemma ClientLeavesWorkers(s: State, c: nat, a: ClientAction, t: State)
    requires ClientStep(s, c, a) == Some(t)
    ensures t.workers == s.workers
  {
  }

  lemma ClaimDoesNotWrite(s: State, w: nat, a: WorkerAction, t: State)
    requires WorkerStep(s, w, a) == Some(t) && !a.Work?
    ensures forall v :: v in t.workers && t.workers[v].phase.Writing? ==> v in s.workers && t.workers[v] == s.workers[v]
  {
  }

  lemma OthersDoNotWrite(s: State, a: Action, t: State)
    requires Step(s, a) == Some(t) && !(a.ByWorker? && a.workerAction.Work?)
    ensures forall w :: w in t.workers && t.workers[w].phase.Writing? ==> w in s.workers && t.workers[w] == s.workers[w]
  {
    match a
    case ByClient(c, action) => ClientLeavesWorkers(s, c, action, t);
    case ByBroker(call, action) => BrokerLeavesWorkers(s, call, action, t);
    case ByWorker(w, action) => ClaimDoesNotWrite(s, w, action, t);
    case ByOwner(_) =>
    case CancelRequest(_) =>
    case ResumeCompany(_) =>
    case Tick(_) =>
  }

  lemma {:induction false} RunKeepsWrites(s: State, actions: seq<Action>, t: State)
    requires WriteInv(s) && Reaches(s, actions, t)
    ensures WriteInv(t)
    decreases |actions|
  {
    if actions != [] {
      StepKeepsWrites(s, actions[0], Step(s, actions[0]).value);
      RunKeepsWrites(Step(s, actions[0]).value, actions[1..], t);
    }
  }

  // ---- One step ----------------------------------------------------------------------------

  /** In any state, a new worker can claim a row exactly if it is due, or running under a lapsed lease. */
  lemma ARowIsClaimableExactlyWhenDue(s: State, w: nat, key: Key)
    requires w !in s.workers && key in s.rows
    ensures var row := s.rows[key];
            Step(s, ByWorker(w, Claim(key))).Some? <==>
              match row.status
              case Pending => row.nextAttempt <= s.now
              case NeedsReconnect => row.nextAttempt <= s.now
              case Running => row.lease.Some? && row.lease.value < s.now
              case _ => false
  {
  }

  /** A worker that holds a job for the row writes its result in this step, acknowledged or not. */
  predicate WritesRow(s: State, a: Action, key: Key) {
    && a.ByWorker? && a.workerAction.Work? && a.worker in s.workers
    && s.workers[a.worker].job.key == key && s.workers[a.worker].phase.Writing?
    && (a.workerAction.progress.StoreResult? || (a.workerAction.progress.StoreFails? && a.workerAction.progress.applied))
  }

  /** The row is written, or resumed by its company. */
  predicate Reschedules(s: State, a: Action, key: Key) {
    WritesRow(s, a, key) || (a.ResumeCompany? && a.company == key.company && key in s.rows && s.rows[key].status.NeedsReconnect?)
  }

  predicate Waiting(row: Row) {
    row.status.Pending? || row.status.NeedsReconnect?
  }

  /** A step that does not reschedule the row keeps its date, and it starts running only when due. */
  lemma AStepKeepsTheDate(s: State, a: Action, t: State, key: Key)
    requires Step(s, a) == Some(t) && key in s.rows && !Reschedules(s, a, key)
    ensures key in t.rows && t.rows[key].nextAttempt == s.rows[key].nextAttempt && s.now <= t.now
    ensures t.rows[key].status.Running? ==> s.rows[key].status.Running? || s.rows[key].nextAttempt <= s.now
  {
    match a
    case ByWorker(w, action) => if action.Work? { WorkKeepsTheRow(s, w, action.progress, t, key); }
    case ByBroker(call, action) => BrokerLeavesRows(s, call, action, t);
    case ByClient(c, action) =>
    case ByOwner(_) =>
    case CancelRequest(_) =>
    case ResumeCompany(_) =>
    case Tick(_) =>
  }

  lemma WorkKeepsTheRow(s: State, w: nat, a: Progress, t: State, key: Key)
    requires w in s.workers && ProgressStep(s, w, a) == Some(t) && key in s.rows && !WritesRow(s, ByWorker(w, Work(a)), key)
    ensures key in t.rows && t.rows[key] == s.rows[key] && s.now == t.now
  {
  }

  lemma BrokerLeavesRows(s: State, call: nat, a: BrokerAction, t: State)
    requires BrokerStep(s, call, a) == Some(t)
    ensures t.rows == s.rows && t.now == s.now
  {
  }

  // ---- Any run -----------------------------------------------------------------------------

  ghost predicate EverRescheduled(s: State, actions: seq<Action>, key: Key)
    decreases |actions|
  {
    actions != [] && Step(s, actions[0]).Some?
    && (Reschedules(s, actions[0], key) || EverRescheduled(Step(s, actions[0]).value, actions[1..], key))
  }

  /** The row has this date, and if a worker has it then not since before. */
  predicate Dated(s: State, key: Key, due: real) {
    key in s.rows && s.rows[key].nextAttempt == due && (s.rows[key].status.Running? ==> due <= s.now)
  }

  lemma AStepKeepsItDated(s: State, a: Action, t: State, key: Key, due: real)
    requires Dated(s, key, due) && Step(s, a) == Some(t) && !Reschedules(s, a, key)
    ensures Dated(t, key, due)
  {
    AStepKeepsTheDate(s, a, t, key);
  }

  /** Until it is rescheduled, a row keeps its date, and a worker has it only from that date on. */
  lemma {:induction false} TheDateStays(s: State, actions: seq<Action>, t: State, key: Key, due: real)
    requires Reaches(s, actions, t) && Dated(s, key, due) && !EverRescheduled(s, actions, key)
    ensures Dated(t, key, due)
    decreases |actions|
  {
    if actions != [] {
      AStepKeepsItDated(s, actions[0], Step(s, actions[0]).value, key, due);
      TheDateStays(Step(s, actions[0]).value, actions[1..], t, key, due);
    }
  }

  /** In any run, no worker claims a waiting row before its date, unless the row is rescheduled. */
  lemma NoClaimBeforeTheDate(s: State, actions: seq<Action>, t: State, w: nat, key: Key)
    requires Reaches(s, actions, t) && key in s.rows && Waiting(s.rows[key]) && !EverRescheduled(s, actions, key)
    requires Step(t, ByWorker(w, Claim(key))).Some?
    ensures s.rows[key].nextAttempt <= t.now
  {
    TheDateStays(s, actions, t, key, s.rows[key].nextAttempt);
    ARowIsClaimableExactlyWhenDue(t, w, key);
  }

  /**
   In every run, when a worker on attempt n puts its row back, acknowledged or not, no worker claims the row
   before the back-off of attempt n is over, between half of its ceiling and all of it, or before half an hour
   when it waits for a reconnect, unless the row is written again or resumed in between.
   */
  lemma ScheduledDelaysAreWaitedFor(before: seq<Action>, s: State, a: Action, r: State, after: seq<Action>, t: State, v: nat, key: Key)
    requires Reaches(Initial, before, s) && key in s.rows && WritesRow(s, a, key) && Step(s, a) == Some(r)
    requires Waiting(r.rows[key]) && Reaches(r, after, t) && !EverRescheduled(r, after, key)
    requires Step(t, ByWorker(v, Claim(key))).Some?
    ensures var ceiling := BackoffCeiling(s.workers[a.worker].job.attempt) as real;
            if r.rows[key].status.Pending?
            then s.now + ceiling / 2.0 <= r.rows[key].nextAttempt <= s.now + ceiling && r.rows[key].nextAttempt <= t.now
            else s.now + 1800.0 <= t.now
  {
    RunKeepsWrites(Initial, before, s);
    var job, write := s.workers[a.worker].job, s.workers[a.worker].phase.write;
    WritingStoresTheRow(s, a, r, key);
    NoClaimBeforeTheDate(r, after, t, v, key);
  }

  lemma WritingStoresTheRow(s: State, a: Action, r: State, key: Key)
    requires key in s.rows && WritesRow(s, a, key) && Step(s, a) == Some(r)
    ensures key in r.rows && r.rows[key] == WrittenRow(s.rows[key], s.workers[a.worker].phase.write, s.now)
  {
  }
}
