/**
 What a cancel leaves open.  `cancel_booking_request` only takes the row out of the queue; whether the
 cancelled request can still get an event is decided by the broker calls and workers of that moment.
 */
module BookingCancellation {
  import opened Common
  import opened BookingQueue
  import opened BookingWorker
  import opened BookingProtocol
  import Safety = BookingSafety
  import Schedule = BookingSchedule

  // ---- The condition -----------------------------------------------------------------------

  /** A broker call for the key has not reached its insert yet. */
  predicate OpenCall(s: State, call: nat, key: Key) {
    call in s.calls && s.calls[call].key == key && (s.calls[call].phase.Checking? || s.calls[call].phase.Inserting?)
  }

  /**
   A worker that holds a job for the key may still send the provider write, or put the row back into the
   queue: by rescheduling below the attempt limit, or because the calendar must be reconnected.
   */
  predicate MayStillSend(s: State, w: nat, key: Key) {
    && w in s.workers && s.workers[w].job.key == key
    && var attempt := s.workers[w].job.attempt;
    match s.workers[w].phase
    case AskStatus => true
    case AskAvailability => true
    case SendBook => true
    case AwaitBook(call) =>
      attempt < MAX_ATTEMPTS
      || (call in s.calls && s.calls[call].phase.Answered? && s.calls[call].phase.reply.BookNeedsReconnect?)
    case Writing(write, handler) => Requeues(write) || (!handler && attempt < MAX_ATTEMPTS)
  }

  predicate Requeues(write: Write) {
    write.status.Pending? || write.status.NeedsReconnect?
  }

  /** The request has an event, or a broker call or a worker is left that may make one. */
  ghost predicate StillPossible(s: State, key: Key) {
    || ProviderEventId(key) in s.events
    || (exists call :: OpenCall(s, call, key))
    || (exists w :: MayStillSend(s, w, key))
  }

  predicate NewRequest(a: Action, key: Key) {
    a.ByClient? && a.clientAction.Begin? && a.clientAction.key == key
  }

  /** Nobody asks for the key again. */
  predicate NoNewRequest(actions: seq<Action>, key: Key) {
    forall i :: 0 <= i < |actions| ==> !NewRequest(actions[i], key)
  }

  ghost predicate Inv(s: State) {
    Safety.Inv(s) && Schedule.WriteInv(s)
  }

  lemma StepKeeps(s: State, a: Action, t: State)
    requires Inv(s) && Step(s, a) == Some(t)
    ensures Inv(t)
  {
    Safety.StepKeeps(s, a);
    Schedule.StepKeepsWrites(s, a, t);
  }

  lemma {:induction false} RunKeeps(s: State, actions: seq<Action>, t: State)
    requires Inv(s) && Reaches(s, actions, t)
    ensures Inv(t)
    decreases |actions|
  {
    if actions != [] {
      StepKeeps(s, actions[0], Step(s, actions[0]).value);
      RunKeeps(Step(s, actions[0]).value, actions[1..], t);
    }
  }

  // ---- Nothing possible stays so -----------------------------------------------------------

  /** The row is out of the queue for good, and nothing is left that could make an event. */
  ghost predicate Closed(s: State, key: Key) {
    key in s.rows && Terminal(s.rows[key].status) && !StillPossible(s, key)
  }

  /** Steps that change neither the key's row nor its workers, and no broker call for it, keep it closed. */
  lemma ElsewhereStaysClosed(s: State, t: State, key: Key)
    requires Closed(s, key) && Safety.LinkInv(s)
    requires key in t.rows && Terminal(t.rows[key].status) && ProviderEventId(key) !in t.events
    requires forall c :: c in t.calls && t.calls[c].key == key ==> c in s.calls && t.calls[c] == s.calls[c]
    requires forall c :: c in s.calls && s.calls[c].key == key ==> c in t.calls && t.calls[c] == s.calls[c]
    requires forall w :: w in t.workers && t.workers[w].job.key == key ==> w in s.workers && t.workers[w] == s.workers[w]
    ensures Closed(t, key)
  {
    forall c ensures !OpenCall(t, c, key) {
      assert !OpenCall(s, c, key);
    }
    forall w ensures !MayStillSend(t, w, key) {
      assert !MayStillSend(s, w, key);
    }
  }

  lemma BrokerStaysClosed(s: State, call: nat, a: BrokerAction, t: State, key: Key)
    requires Closed(s, key) && Safety.LinkInv(s) && BrokerStep(s, call, a) == Some(t)
    ensures Closed(t, key)
  {
    assert !OpenCall(s, call, key);
    if s.calls[call].key == key {
      FetchStaysClosed(s, call, a, t, key);
    } else {
      OtherCallStaysClosed(s, call, a, t, key);
    }
  }

  lemma OtherCallStaysClosed(s: State, call: nat, a: BrokerAction, t: State, key: Key)
    requires Closed(s, key) && Safety.LinkInv(s) && BrokerStep(s, call, a) == Some(t) && s.calls[call].key != key
    ensures Closed(t, key)
  {
    BrokerTouchesItsOwnKey(s, call, a, t, key);
    ElsewhereStaysClosed(s, t, key);
  }

  lemma InsertTouchesItsOwnKey(s: State, call: nat, outcome: InsertOutcome, t: State, key: Key)
    requires call in s.calls && InsertStep(s, call, outcome) == Some(t) && s.calls[call].key != key
    ensures t.rows == s.rows && t.workers == s.workers && (ProviderEventId(key) in t.events <==> ProviderEventId(key) in s.events)
    ensures call in t.calls && t.calls == s.calls[call := t.calls[call]] && t.calls[call].key == s.calls[call].key
  {
  }

  lemma BrokerTouchesItsOwnKey(s: State, call: nat, a: BrokerAction, t: State, key: Key)
    requires BrokerStep(s, call, a) == Some(t) && s.calls[call].key != key
    ensures t.rows == s.rows && t.workers == s.workers && (ProviderEventId(key) in t.events <==> ProviderEventId(key) in s.events)
    ensures call in t.calls && t.calls == s.calls[call := t.calls[call]] && t.calls[call].key == s.calls[call].key
  {
    if a.Insert? {
      InsertTouchesItsOwnKey(s, call, a.outcome, t, key);
    }
  }

  /** A call for the key that is past its insert can only fetch, and no event is there to be fetched. */
  lemma FetchStaysClosed(s: State, call: nat, a: BrokerAction, t: State, key: Key)
    requires Closed(s, key) && Safety.LinkInv(s) && BrokerStep(s, call, a) == Some(t) && s.calls[call].key == key
    ensures Closed(t, key)
  {
    assert !OpenCall(s, call, key);
    assert t == Answer(s, call, BookUnavailable);
    forall c ensures !OpenCall(t, c, key) {
      assert !OpenCall(s, c, key);
    }
    forall w ensures !MayStillSend(t, w, key) {
      assert !MayStillSend(s, w, key);
    }
  }

  lemma WorkStaysClosed(s: State, w: nat, a: Progress, t: State, key: Key)
    requires Closed(s, key) && Inv(s) && w in s.workers && s.workers[w].job.key == key && ProgressStep(s, w, a) == Some(t)
    ensures Closed(t, key)
  {
    assert !MayStillSend(s, w, key);
    OwnWorkEndsTerminal(s, w, a, t, key);
    forall c ensures !OpenCall(t, c, key) {
      assert !OpenCall(s, c, key);
    }
    forall v ensures !MayStillSend(t, v, key) {
      assert v != w ==> !MayStillSend(s, v, key);
    }
  }

  /** `t` is `s` after worker `w` worked on, with the key's row terminal and the worker still unable to send. */
  ghost predicate EndsTerminal(s: State, w: nat, t: State, key: Key) {
    && t.events == s.events && t.calls == s.calls && key in t.rows && Terminal(t.rows[key].status)
    && !MayStillSend(t, w, key)
    && forall v :: v != w ==> (v in t.workers <==> v in s.workers) && (v in t.workers ==> t.workers[v] == s.workers[v])
  }

  lemma OwnHearingEndsTerminal(s: State, w: nat, a: Progress, t: State, key: Key)
    requires key in s.rows && Terminal(s.rows[key].status) && (a.HearBook? || a.LoseBook?)
    requires w in s.workers && s.workers[w].job.key == key && ProgressStep(s, w, a) == Some(t) && !MayStillSend(s, w, key)
    ensures EndsTerminal(s, w, t, key)
  {
  }

  lemma OwnStoreEndsTerminal(s: State, w: nat, t: State, key: Key)
    requires Schedule.WriteInv(s) && key in s.rows && Terminal(s.rows[key].status)
    requires w in s.workers && s.workers[w].job.key == key && ProgressStep(s, w, StoreResult) == Some(t) && !MayStillSend(s, w, key)
    ensures EndsTerminal(s, w, t, key)
  {
  }

  lemma OwnFailureEndsTerminal(s: State, w: nat, applied: bool, sample: real, t: State, key: Key)
    requires Schedule.WriteInv(s) && key in s.rows && Terminal(s.rows[key].status)
    requires w in s.workers && s.workers[w].job.key == key && ProgressStep(s, w, StoreFails(applied, sample)) == Some(t)
    requires !MayStillSend(s, w, key)
    ensures EndsTerminal(s, w, t, key)
  {
  }

  /** A worker that may not send again writes a terminal status, at its first try or in the handler. */
  lemma OwnWorkEndsTerminal(s: State, w: nat, a: Progress, t: State, key: Key)
    requires Schedule.WriteInv(s) && key in s.rows && Terminal(s.rows[key].status)
    requires w in s.workers && s.workers[w].job.key == key && ProgressStep(s, w, a) == Some(t) && !MayStillSend(s, w, key)
    ensures EndsTerminal(s, w, t, key)
  {
    if a.StoreResult? {
      OwnStoreEndsTerminal(s, w, t, key);
    } else if a.StoreFails? {
      OwnFailureEndsTerminal(s, w, a.applied, a.sample, t, key);
    } else {
      OwnHearingEndsTerminal(s, w, a, t, key);
    }
  }

  lemma OtherWorkStaysClosed(s: State, w: nat, a: Progress, t: State, key: Key)
    requires Closed(s, key) && Safety.LinkInv(s) && w in s.workers && s.workers[w].job.key != key && ProgressStep(s, w, a) == Some(t)
    ensures Closed(t, key)
  {
    WorkTouchesItsOwnKey(s, w, a, t, key);
    ElsewhereStaysClosed(s, t, key);
  }

  lemma WorkTouchesItsOwnKey(s: State, w: nat, a: Progress, t: State, key: Key)
    requires w in s.workers && s.workers[w].job.key != key && ProgressStep(s, w, a) == Some(t) && key in s.rows
    ensures t.events == s.events && key in t.rows && t.rows[key] == s.rows[key]
    ensures forall c :: c in s.calls ==> c in t.calls && t.calls[c] == s.calls[c]
    ensures forall c :: c in t.calls && c !in s.calls ==> t.calls[c].key != key
    ensures forall v :: v in t.workers && v != w ==> v in s.workers && t.workers[v] == s.workers[v]
    ensures w in t.workers ==> t.workers[w].job.key != key
  {
    if a.Send? {
      SendTouchesItsOwnKey(s, w, a.call, t, key);
    } else if a.StoreResult? || a.StoreFails? {
      StoreTouchesItsOwnKey(s, w, a, t, key);
    } else {
      HearingMovesOnlyTheWorker(s, w, a, t);
    }
  }

  lemma SendTouchesItsOwnKey(s: State, w: nat, call: nat, t: State, key: Key)
    requires w in s.workers && s.workers[w].job.key != key && ProgressStep(s, w, Send(call)) == Some(t)
    ensures t.events == s.events && t.rows == s.rows && call !in s.calls && call in t.calls && t.calls[call].key != key
    ensures t.calls == s.calls[call := t.calls[call]]
    ensures w in t.workers && t.workers == s.workers[w := t.workers[w]] && t.workers[w].job == s.workers[w].job
  {
  }

  lemma StoreTouchesItsOwnKey(s: State, w: nat, a: Progress, t: State, key: Key)
    requires w in s.workers && s.workers[w].job.key != key && ProgressStep(s, w, a) == Some(t) && key in s.rows
    requires a.StoreResult? || a.StoreFails?
    ensures t.events == s.events && t.calls == s.calls && key in t.rows && t.rows[key] == s.rows[key]
    ensures forall v :: v in t.workers && v != w ==> v in s.workers && t.workers[v] == s.workers[v]
    ensures w in t.workers ==> t.workers[w].job == s.workers[w].job
  {
    var me := s.workers[w];
    OtherRowsStay(s.rows, me.job.key, me.phase.write, s.now, key);
    if a.StoreFails? {
      FailureChangesRowsAndPhase(s, w, a, t);
    }
  }

  lemma OtherRowsStay(rows: map<Key, Row>, key: Key, write: Write, now: real, other: Key)
    requires other != key && other in rows
    ensures other in WriteRow(rows, key, write, now) && WriteRow(rows, key, write, now)[other] == rows[other]
  {
  }

  lemma FailureChangesRowsAndPhase(s: State, w: nat, a: Progress, t: State)
    requires w in s.workers && a.StoreFails? && ProgressStep(s, w, a) == Some(t)
    ensures s.workers[w].phase.Writing? && t.events == s.events && t.calls == s.calls
    ensures t.rows == s.rows || t.rows == WriteRow(s.rows, s.workers[w].job.key, s.workers[w].phase.write, s.now)
    ensures t.workers == s.workers - {w}
         || (w in t.workers && t.workers == s.workers[w := t.workers[w]] && t.workers[w].job == s.workers[w].job)
  {
  }

  /** `t` is `s` with worker `w` in another phase of the same job. */
  predicate OnlyMoves(s: State, w: nat, t: State) {
    && t.events == s.events && t.calls == s.calls && t.rows == s.rows
    && w in s.workers && w in t.workers && t.workers == s.workers[w := t.workers[w]] && t.workers[w].job == s.workers[w].job
  }

  lemma HearingStatusMoves(s: State, w: nat, status: StatusReply, sample: real, t: State)
    requires w in s.workers && ProgressStep(s, w, HearStatus(status, sample)) == Some(t)
    ensures OnlyMoves(s, w, t)
  {
  }

  lemma HearingAvailabilityMoves(s: State, w: nat, availability: AvailabilityReply, sample: real, t: State)
    requires w in s.workers && ProgressStep(s, w, HearAvailability(availability, sample)) == Some(t)
    ensures OnlyMoves(s, w, t)
  {
  }

  lemma HearingMovesOnlyTheWorker(s: State, w: nat, a: Progress, t: State)
    requires w in s.workers && ProgressStep(s, w, a) == Some(t) && !a.Send? && !a.StoreResult? && !a.StoreFails?
    ensures OnlyMoves(s, w, t)
  {
    match a
    case HearStatus(status, sample) => HearingStatusMoves(s, w, status, sample, t);
    case HearAvailability(availability, sample) => HearingAvailabilityMoves(s, w, availability, sample, t);
    case HearBook(_) =>
    case LoseBook(_, _) =>
  }

  lemma ClaimOrStopStaysClosed(s: State, w: nat, a: WorkerAction, t: State, key: Key)
    requires Closed(s, key) && Safety.LinkInv(s) && !a.Work? && WorkerStep(s, w, a) == Some(t)
    ensures Closed(t, key)
  {
    ElsewhereStaysClosed(s, t, key);
  }

  lemma ClientStaysClosed(s: State, c: nat, a: ClientAction, t: State, key: Key)
    requires Closed(s, key) && Safety.LinkInv(s) && ClientStep(s, c, a) == Some(t) && !NewRequest(ByClient(c, a), key)
    ensures Closed(t, key)
  {
    ClientTouchesItsOwnKey(s, c, a, t, key);
    ElsewhereStaysClosed(s, t, key);
  }

  lemma ClientTouchesItsOwnKey(s: State, c: nat, a: ClientAction, t: State, key: Key)
    requires ClientStep(s, c, a) == Some(t) && !NewRequest(ByClient(c, a), key) && key in s.rows
    ensures t.events == s.events && t.workers == s.workers && key in t.rows && t.rows[key] == s.rows[key]
    ensures forall k :: k in s.calls ==> k in t.calls && t.calls[k] == s.calls[k]
    ensures forall k :: k in t.calls && k !in s.calls ==> t.calls[k].key != key
  {
  }

  lemma WorkerStaysClosed(s: State, w: nat, a: WorkerAction, t: State, key: Key)
    requires Closed(s, key) && Inv(s) && WorkerStep(s, w, a) == Some(t)
    ensures Closed(t, key)
  {
    if !a.Work? {
      ClaimOrStopStaysClosed(s, w, a, t, key);
    } else if s.workers[w].job.key == key {
      WorkStaysClosed(s, w, a.progress, t, key);
    } else {
      OtherWorkStaysClosed(s, w, a.progress, t, key);
    }
  }

  lemma OwnerStaysClosed(s: State, a: OwnerAction, t: State, key: Key)
    requires Closed(s, key) && Safety.LinkInv(s) && OwnerStep(s, a) == Some(t)
    ensures Closed(t, key)
  {
    ElsewhereStaysClosed(s, t, key);
  }

  /** Cancels, resumes and the clock leave terminal rows, calls and workers alone. */
  lemma QueueStaysClosed(s: State, a: Action, t: State, key: Key)
    requires Closed(s, key) && Safety.LinkInv(s) && Step(s, a) == Some(t) && (a.CancelRequest? || a.ResumeCompany? || a.Tick?)
    ensures Closed(t, key)
  {
    ElsewhereStaysClosed(s, t, key);
  }

  lemma StepStaysClosed(s: State, a: Action, t: State, key: Key)
    requires Closed(s, key) && Inv(s) && Step(s, a) == Some(t) && !NewRequest(a, key)
    ensures Closed(t, key)
  {
    if a.ByClient? {
      ClientStaysClosed(s, a.client, a.clientAction, t, key);
    } else if a.ByBroker? {
      BrokerStaysClosed(s, a.call, a.brokerAction, t, key);
    } else if a.ByWorker? {
      WorkerStaysClosed(s, a.worker, a.workerAction, t, key);
    } else if a.ByOwner? {
      OwnerStaysClosed(s, a.ownerAction, t, key);
    } else {
      QueueStaysClosed(s, a, t, key);
    }
  }

  lemma {:induction false} RunStaysClosed(s: State, actions: seq<Action>, t: State, key: Key)
    requires Closed(s, key) && Inv(s) && Reaches(s, actions, t) && NoNewRequest(actions, key)
    ensures Closed(t, key)
    decreases |actions|
  {
    if actions != [] {
      var next := Step(s, actions[0]).value;
      StepStaysClosed(s, actions[0], next, key);
      StepKeeps(s, actions[0], next);
      assert forall i :: 0 <= i < |actions[1..]| ==> actions[1..][i] == actions[i + 1];
      RunStaysClosed(next, actions[1..], t, key);
    }
  }

  // ---- Anything possible can happen ----------------------------------------------------------

  /** The run makes an event for the key, and nobody asks for the key again. */
  ghost predicate MakesEvent(s: State, actions: seq<Action>, t: State, key: Key) {
    Reaches(s, actions, t) && NoNewRequest(actions, key) && ProviderEventId(key) in t.events
  }

  lemma First(s: State, a: Action, m: State, rest: seq<Action>, t: State, key: Key) returns (actions: seq<Action>)
    requires Step(s, a) == Some(m) && !NewRequest(a, key) && MakesEvent(m, rest, t, key)
    ensures MakesEvent(s, actions, t, key)
  {
    actions := [a] + rest;
    assert actions[1..] == rest;
  }

  /** Some number that is not taken. */
  lemma {:induction false} Unused(taken: set<nat>) returns (n: nat)
    ensures forall x :: x in taken ==> x < n
    decreases |taken|
  {
    if taken == {} {
      n := 0;
    } else {
      var x :| x in taken;
      var m := Unused(taken - {x});
      n := if m > x then m else x + 1;
      forall y | y in taken ensures y < n {
        assert y == x || y in taken - {x};
      }
    }
  }

  lemma AnInserterInserts(s: State, call: nat, key: Key) returns (actions: seq<Action>, t: State)
    requires call in s.calls && s.calls[call].key == key && s.calls[call].phase.Inserting? && ProviderEventId(key) !in s.events
    ensures MakesEvent(s, actions, t, key)
  {
    var a := ByBroker(call, Insert(InsertUnconfirmed(true, BookUnavailable)));
    t := Answer(Apply(s, key, s.calls[call].body), call, BookUnavailable);
    assert Reaches(t, [], t);
    actions := First(s, a, t, [], t, key);
  }

  lemma AnOpenCallInserts(s: State, call: nat, key: Key) returns (actions: seq<Action>, t: State)
    requires OpenCall(s, call, key) && ProviderEventId(key) !in s.events
    ensures MakesEvent(s, actions, t, key)
  {
    if s.calls[call].phase.Checking? {
      var m := s.(calls := s.calls[call := s.calls[call].(phase := Inserting)]);
      actions, t := AnInserterInserts(m, call, key);
      actions := First(s, ByBroker(call, Check(None)), m, actions, t, key);
    } else {
      actions, t := AnInserterInserts(s, call, key);
    }
  }

  lemma ASenderInserts(s: State, w: nat, key: Key) returns (actions: seq<Action>, t: State)
    requires w in s.workers && s.workers[w].job.key == key && s.workers[w].phase.SendBook? && ProviderEventId(key) !in s.events
    ensures MakesEvent(s, actions, t, key)
  {
    var call := Unused(s.calls.Keys);
    var m := Advance(StartCall(s, call, key, s.workers[w].job.payload), w, AwaitBook(call));
    actions, t := AnOpenCallInserts(m, call, key);
    actions := First(s, ByWorker(w, Work(Send(call))), m, actions, t, key);
  }

  lemma ACheckerInserts(s: State, w: nat, key: Key) returns (actions: seq<Action>, t: State)
    requires w in s.workers && s.workers[w].job.key == key && s.workers[w].phase.AskAvailability? && ProviderEventId(key) !in s.events
    ensures MakesEvent(s, actions, t, key)
  {
    var m := Advance(s, w, SendBook);
    actions, t := ASenderInserts(m, w, key);
    actions := First(s, ByWorker(w, Work(HearAvailability(Slots([s.workers[w].job.payload.start]), 0.0))), m, actions, t, key);
  }

  lemma AnAskerInserts(s: State, w: nat, key: Key) returns (actions: seq<Action>, t: State)
    requires w in s.workers && s.workers[w].job.key == key && s.workers[w].phase.AskStatus? && ProviderEventId(key) !in s.events
    ensures MakesEvent(s, actions, t, key)
  {
    var m := Advance(s, w, AskAvailability);
    actions, t := ACheckerInserts(m, w, key);
    actions := First(s, ByWorker(w, Work(HearStatus(StatusNotFound, 0.0))), m, actions, t, key);
  }

  /** A row that waits in the queue is claimed once it is due. */
  lemma AQueuedRowInserts(s: State, key: Key) returns (actions: seq<Action>, t: State)
    requires key in s.rows && (s.rows[key].status.Pending? || s.rows[key].status.NeedsReconnect?) && ProviderEventId(key) !in s.events
    ensures MakesEvent(s, actions, t, key)
  {
    var wait := if s.rows[key].nextAttempt <= s.now then 0.0 else s.rows[key].nextAttempt - s.now;
    var due := s.(now := s.now + wait);
    var w := Unused(s.workers.Keys);
    var row := ClaimedRow(due.rows[key], due.now);
    var claimed := due.(rows := due.rows[key := row],
                        workers := due.workers[w := Worker(Job(key, row.payload, row.attempts, due.now + LEASE_SECONDS), AskStatus)]);
    actions, t := AnAskerInserts(claimed, w, key);
    actions := First(due, ByWorker(w, Claim(key)), claimed, actions, t, key);
    actions := First(s, Tick(wait), due, actions, t, key);
  }

  lemma ARequeuerInserts(s: State, w: nat, key: Key) returns (actions: seq<Action>, t: State)
    requires w in s.workers && s.workers[w].job.key == key && s.workers[w].phase.Writing? && Requeues(s.workers[w].phase.write)
    requires key in s.rows && ProviderEventId(key) !in s.events
    ensures MakesEvent(s, actions, t, key)
  {
    var m := s.(rows := WriteRow(s.rows, key, s.workers[w].phase.write, s.now), workers := s.workers - {w});
    actions, t := AQueuedRowInserts(m, key);
    actions := First(s, ByWorker(w, Work(StoreResult)), m, actions, t, key);
  }

  /** A store in the try body that fails below the attempt limit makes the handler reschedule. */
  lemma AFailingWriterInserts(s: State, w: nat, key: Key) returns (actions: seq<Action>, t: State)
    requires w in s.workers && s.workers[w].job.key == key && s.workers[w].phase.Writing?
    requires !s.workers[w].phase.handler && s.workers[w].job.attempt < MAX_ATTEMPTS
    requires key in s.rows && ProviderEventId(key) !in s.events
    ensures MakesEvent(s, actions, t, key)
  {
    var m := Advance(s, w, Writing(TemporaryFailureWrite(s.workers[w].job.attempt, 0.0), true));
    actions, t := ARequeuerInserts(m, w, key);
    actions := First(s, ByWorker(w, Work(StoreFails(false, 0.0))), m, actions, t, key);
  }

  /** A worker that waits for its provider write loses the answer, or hears that the calendar must be reconnected. */
  lemma AWaiterInserts(s: State, w: nat, key: Key) returns (actions: seq<Action>, t: State)
    requires w in s.workers && s.workers[w].job.key == key && s.workers[w].phase.AwaitBook? && MayStillSend(s, w, key)
    requires key in s.rows && ProviderEventId(key) !in s.events
    ensures MakesEvent(s, actions, t, key)
  {
    var attempt := s.workers[w].job.attempt;
    if attempt < MAX_ATTEMPTS {
      var m := Advance(s, w, Writing(TemporaryFailureWrite(attempt, 0.0), true));
      actions, t := ARequeuerInserts(m, w, key);
      actions := First(s, ByWorker(w, Work(LoseBook(503, 0.0))), m, actions, t, key);
    } else {
      var m := Advance(s, w, Writing(NeedsReconnectWrite, false));
      actions, t := ARequeuerInserts(m, w, key);
      actions := First(s, ByWorker(w, Work(HearBook(0.0))), m, actions, t, key);
    }
  }

  lemma AnyoneWhoMayInserts(s: State, w: nat, key: Key) returns (actions: seq<Action>, t: State)
    requires MayStillSend(s, w, key) && key in s.rows && ProviderEventId(key) !in s.events
    ensures MakesEvent(s, actions, t, key)
  {
    match s.workers[w].phase
    case AskStatus => actions, t := AnAskerInserts(s, w, key);
    case AskAvailability => actions, t := ACheckerInserts(s, w, key);
    case SendBook => actions, t := ASenderInserts(s, w, key);
    case AwaitBook(_) => actions, t := AWaiterInserts(s, w, key);
    case Writing(write, handler) =>
      if Requeues(write) {
        actions, t := ARequeuerInserts(s, w, key);
      } else {
        actions, t := AFailingWriterInserts(s, w, key);
      }
  }

  lemma WhatIsPossibleHappens(s: State, key: Key) returns (actions: seq<Action>, t: State)
    requires StillPossible(s, key) && key in s.rows
    ensures MakesEvent(s, actions, t, key)
  {
    if ProviderEventId(key) in s.events {
      actions, t := [], s;
    } else if call :| OpenCall(s, call, key) {
      actions, t := AnOpenCallInserts(s, call, key);
    } else {
      var w :| MayStillSend(s, w, key);
      actions, t := AnyoneWhoMayInserts(s, w, key);
    }
  }

  // ---- The exact condition -----------------------------------------------------------------

  /**
   In every run, when a cancel takes effect in state `s`, the request can still end with an event, though
   nobody asks for it again, exactly if in that very state the event exists, a broker call for it has not
   reached its insert, or a worker is left that may send or put the row back.  Otherwise it never does.
   */
  lemma ACancelledRequestGetsAnEventExactlyIfStillPossible(before: seq<Action>, s: State, key: Key, c: State)
    requires Reaches(Initial, before, s) && Cancellable(s.rows, key) && Step(s, CancelRequest(key)) == Some(c)
    ensures (exists after, t :: MakesEvent(c, after, t, key)) <==> StillPossible(s, key)
  {
    CancelLeavesThePossible(s, key, c);
    if StillPossible(s, key) {
      var after, t := WhatIsPossibleHappens(c, key);
    } else {
      RunKeeps(Initial, before, s);
      StepKeeps(s, CancelRequest(key), c);
      forall after, t | Reaches(c, after, t) && NoNewRequest(after, key)
        ensures ProviderEventId(key) !in t.events
      {
        RunStaysClosed(c, after, t, key);
      }
    }
  }

  lemma CancelLeavesThePossible(s: State, key: Key, c: State)
    requires Cancellable(s.rows, key) && Step(s, CancelRequest(key)) == Some(c)
    ensures StillPossible(c, key) <==> StillPossible(s, key)
    ensures key in c.rows && Terminal(c.rows[key].status)
  {
    assert forall call :: OpenCall(c, call, key) <==> OpenCall(s, call, key);
    assert forall w :: MayStillSend(c, w, key) <==> MayStillSend(s, w, key);
  }
}
