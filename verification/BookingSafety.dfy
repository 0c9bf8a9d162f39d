/**
 Safety of the booking protocol over every run, with no assumption about leases: at most one provider
 event per request key, and a completed booking is one the provider confirmed.
 */
module BookingSafety {
  import opened Common
  import opened BookingQueue
  import opened BookingWorker
  import opened BookingProtocol

  // ---- Invariant -------------------------------------------------------------------------

  /** Whoever waits for a call waits for a call made under its own key. */
  ghost predicate LinkInv(s: State) {
    && (forall c :: c in s.clients && s.clients[c].AwaitingBroker? ==>
          s.clients[c].call in s.calls && s.calls[s.clients[c].call].key == s.clients[c].key)
    && (forall w :: w in s.workers && s.workers[w].phase.AwaitBook? ==>
          s.workers[w].phase.call in s.calls && s.calls[s.workers[w].phase.call].key == s.workers[w].job.key)
  }

  /** Insertions carry the ID of their key, stay on the calendar, and never share an ID. */
  ghost predicate LogInv(s: State) {
    && (forall i :: 0 <= i < |s.log| ==> s.log[i].id == ProviderEventId(s.log[i].key) && s.log[i].id in s.events)
    && (forall i, j :: 0 <= i < j < |s.log| ==> s.log[i].id != s.log[j].id)
    && (forall k: Key :: ProviderEventId(k) in s.events ==> Logged(s, k))
  }

  ghost predicate Logged(s: State, k: Key) {
    exists i :: 0 <= i < |s.log| && s.log[i].key == k
  }

  /** A result that claims completion names the event of its key, and that event was seen live. */
  ghost predicate Backed(s: State, key: Key, status: Status, result: Option<EventId>) {
    status.Completed? ==> key in s.seen && result == Some(ProviderEventId(key))
  }

  ghost predicate SeenInv(s: State) {
    && (forall k :: k in s.seen ==> ProviderEventId(k) in s.events)
    && s.told <= s.seen
    && (forall k :: k in s.rows ==> Backed(s, k, s.rows[k].status, s.rows[k].result))
    && (forall w :: w in s.workers && s.workers[w].phase.Writing? ==>
          Backed(s, s.workers[w].job.key, s.workers[w].phase.write.status, s.workers[w].phase.write.result))
    && (forall c :: c in s.calls && s.calls[c].phase.Answered? ==> ReplyBacked(s, s.calls[c].key, s.calls[c].phase.reply))
  }

  ghost predicate ReplyBacked(s: State, key: Key, reply: BookReply) {
    reply.BookConfirmed? ==> key in s.seen && reply.event == ProviderEventId(key)
  }

  ghost predicate Inv(s: State) {
    LinkInv(s) && LogInv(s) && SeenInv(s)
  }

  // ---- Elementary updates keep it --------------------------------------------------------

  lemma SameCalendarKeepsLog(s: State, t: State)
    requires LogInv(s) && t.log == s.log
    requires forall k: Key :: ProviderEventId(k) in t.events <==> ProviderEventId(k) in s.events
    ensures LogInv(t)
  {
    forall i | 0 <= i < |t.log|
      ensures t.log[i].id == ProviderEventId(t.log[i].key) && t.log[i].id in t.events
    {
      assert s.log[i].id == ProviderEventId(s.log[i].key);
    }
    forall k: Key | ProviderEventId(k) in t.events
      ensures Logged(t, k)
    {
      var i :| 0 <= i < |s.log| && s.log[i].key == k;
      assert t.log[i].key == k;
    }
  }

  lemma RowsKeep(s: State, rows: map<Key, Row>)
    requires Inv(s)
    requires forall k :: k in rows ==> Backed(s, k, rows[k].status, rows[k].result)
    ensures Inv(s.(rows := rows))
  {
    SameCalendarKeepsLog(s, s.(rows := rows));
  }

  lemma CalendarKeeps(s: State, events: map<EventId, Event>)
    requires Inv(s)
    requires forall k: Key :: ProviderEventId(k) in events <==> ProviderEventId(k) in s.events
    ensures Inv(s.(events := events))
  {
    SameCalendarKeepsLog(s, s.(events := events));
  }

  lemma SeeKeeps(s: State, key: Key)
    requires Inv(s) && ProviderEventId(key) in s.events
    ensures Inv(s.(seen := s.seen + {key}))
  {
    SameCalendarKeepsLog(s, s.(seen := s.seen + {key}));
  }

  lemma StartCallKeeps(s: State, call: nat, key: Key, body: Payload)
    requires Inv(s) && call !in s.calls
    ensures Inv(StartCall(s, call, key, body))
  {
    SameCalendarKeepsLog(s, StartCall(s, call, key, body));
  }

  lemma PhaseKeeps(s: State, call: nat, phase: CallPhase)
    requires Inv(s) && call in s.calls
    requires phase.Answered? ==> ReplyBacked(s, s.calls[call].key, phase.reply)
    ensures Inv(s.(calls := s.calls[call := s.calls[call].(phase := phase)]))
  {
    SameCalendarKeepsLog(s, s.(calls := s.calls[call := s.calls[call].(phase := phase)]));
  }

  lemma ConfirmKeeps(s: State, call: nat)
    requires Inv(s) && call in s.calls && ProviderEventId(s.calls[call].key) in s.events
    ensures Inv(Confirm(s, call))
  {
    var key := s.calls[call].key;
    var t := s.(seen := s.seen + {key});
    SeeKeeps(s, key);
    PhaseKeeps(t, call, Answered(BookConfirmed(ProviderEventId(key))));
    assert Confirm(s, call) == Answer(t, call, BookConfirmed(ProviderEventId(key)));
  }

  lemma ClientsKeep(s: State, clients: map<nat, Client>)
    requires Inv(s)
    requires LinkInv(s.(clients := clients))
    ensures Inv(s.(clients := clients))
  {
    SameCalendarKeepsLog(s, s.(clients := clients));
  }

  lemma AdvanceKeeps(s: State, w: nat, phase: WorkPhase)
    requires Inv(s) && w in s.workers
    requires phase.AwaitBook? ==> phase.call in s.calls && s.calls[phase.call].key == s.workers[w].job.key
    requires phase.Writing? ==> Backed(s, s.workers[w].job.key, phase.write.status, phase.write.result)
    ensures Inv(Advance(s, w, phase))
  {
    SameCalendarKeepsLog(s, Advance(s, w, phase));
  }

  lemma LeaveKeeps(s: State, w: nat)
    requires Inv(s)
    ensures Inv(s.(workers := s.workers - {w}))
  {
    SameCalendarKeepsLog(s, s.(workers := s.workers - {w}));
  }

  lemma ApplyKeeps(s: State, key: Key, body: Payload)
    requires Inv(s) && ProviderEventId(key) !in s.events
    ensures Inv(Apply(s, key, body))
  {
    var t := Apply(s, key, body);
    assert t.log[|s.log|].key == key;
    forall k: Key | ProviderEventId(k) in t.events
      ensures Logged(t, k)
    {
      if k != key {
        var i :| 0 <= i < |s.log| && s.log[i].key == k;
        assert t.log[i].key == k;
      }
    }
  }

  // ---- Steps keep it ---------------------------------------------------------------------

  lemma ClientKeeps(s: State, c: nat, a: ClientAction)
    requires Inv(s) && ClientStep(s, c, a).Some?
    ensures Inv(ClientStep(s, c, a).value)
  {
    match a
    case Begin(key, body, call) =>
      StartCallKeeps(s, call, key, body);
      var t := StartCall(s, call, key, body);
      ClientsKeep(t, s.clients[c := AwaitingBroker(key, body, call)]);
    case TakeReply =>
      HearKeeps(s, c, s.calls[s.clients[c].call].phase.reply);
    case LoseReply(code) =>
      HearKeeps(s, c, BookHttpError(code));
    case QueueRow =>
      var rows := InsertRow(s.rows, s.clients[c].key, s.clients[c].body, s.clients[c].status, s.now);
      RowsKeep(s, rows);
      ClientsKeep(s.(rows := rows), s.clients - {c});
    case ClientStops =>
      ClientsKeep(s, s.clients - {c});
  }

  lemma HearKeeps(s: State, c: nat, reply: BookReply)
    requires Inv(s) && c in s.clients && s.clients[c].AwaitingBroker? && ReplyBacked(s, s.clients[c].key, reply)
    ensures Inv(ClientHears(s, c, s.clients[c].key, s.clients[c].body, reply))
  {
    SameCalendarKeepsLog(s, ClientHears(s, c, s.clients[c].key, s.clients[c].body, reply));
  }

  lemma BrokerKeeps(s: State, call: nat, a: BrokerAction)
    requires Inv(s) && BrokerStep(s, call, a).Some?
    ensures Inv(BrokerStep(s, call, a).value)
  {
    var c := s.calls[call];
    match a
    case Check(answer) =>
      PhaseKeeps(s, call, if answer.Some? then Answered(answer.value) else Inserting);
    case Insert(outcome) =>
      InsertKeeps(s, call, outcome);
    case Fetch(found) =>
      if found && !s.events[ProviderEventId(c.key)].cancelled {
        ConfirmKeeps(s, call);
      } else {
        PhaseKeeps(s, call, BrokerStep(s, call, a).value.calls[call].phase);
      }
  }

  lemma InsertKeeps(s: State, call: nat, outcome: InsertOutcome)
    requires Inv(s) && call in s.calls && InsertStep(s, call, outcome).Some?
    ensures Inv(InsertStep(s, call, outcome).value)
  {
    var c := s.calls[call];
    match outcome
    case Inserted =>
      ApplyKeeps(s, c.key, c.body);
      ConfirmKeeps(Apply(s, c.key, c.body), call);
    case InsertUnconfirmed(applied, answer) =>
      if applied {
        ApplyKeeps(s, c.key, c.body);
      }
      PhaseKeeps(if applied then Apply(s, c.key, c.body) else s, call, Answered(answer));
    case Duplicate =>
      PhaseKeeps(s, call, Fetching);
  }

  lemma WorkerKeeps(s: State, w: nat, a: WorkerAction)
    requires Inv(s) && WorkerStep(s, w, a).Some?
    ensures Inv(WorkerStep(s, w, a).value)
  {
    match a
    case Claim(key) =>
      var t := WorkerStep(s, w, a).value;
      RowsKeep(s, t.rows);
      SameCalendarKeepsLog(s, t);
    case Work(progress) => ProgressKeeps(s, w, progress);
    case WorkerStops => LeaveKeeps(s, w);
  }

  lemma ProgressKeeps(s: State, w: nat, a: Progress)
    requires Inv(s) && w in s.workers && ProgressStep(s, w, a).Some?
    ensures Inv(ProgressStep(s, w, a).value)
  {
    match a
    case HearStatus(status, sample) => HearStatusKeeps(s, w, status, sample);
    case Send(call) => SendKeeps(s, w, call);
    case StoreResult =>
      StoreKeeps(s, w);
      LeaveKeeps(s.(rows := WriteRow(s.rows, s.workers[w].job.key, s.workers[w].phase.write, s.now)), w);
    case StoreFails(applied, sample) => StoreFailsKeeps(s, w, applied, sample);
    case HearAvailability(availability, sample) => HearAvailabilityKeeps(s, w, availability, sample);
    case HearBook(sample) => HearBookKeeps(s, w, sample);
    case LoseBook(code, sample) =>
      var write := AfterBook(BookHttpError(code), s.workers[w].job.attempt, sample).write;
      AdvanceKeeps(s, w, Writing(write, true));
  }

  lemma HearAvailabilityKeeps(s: State, w: nat, availability: AvailabilityReply, sample: real)
    requires Inv(s) && w in s.workers && ProgressStep(s, w, HearAvailability(availability, sample)).Some?
    ensures Inv(ProgressStep(s, w, HearAvailability(availability, sample)).value)
  {
    var job := s.workers[w].job;
    var d := AfterAvailability(availability, job.payload.start, job.attempt, sample);
    AdvanceKeeps(s, w, if d.Continue? then SendBook else Writing(d.write, d.Raise?));
  }

  lemma HearBookKeeps(s: State, w: nat, sample: real)
    requires Inv(s) && w in s.workers && ProgressStep(s, w, HearBook(sample)).Some?
    ensures Inv(ProgressStep(s, w, HearBook(sample)).value)
  {
    var d := AfterBook(s.calls[s.workers[w].phase.call].phase.reply, s.workers[w].job.attempt, sample);
    AdvanceKeeps(s, w, Writing(d.write, d.Raise?));
  }

  lemma HearStatusKeeps(s: State, w: nat, status: StatusReply, sample: real)
    requires Inv(s) && w in s.workers && ProgressStep(s, w, HearStatus(status, sample)).Some?
    ensures Inv(ProgressStep(s, w, HearStatus(status, sample)).value)
  {
    var key := s.workers[w].job.key;
    if status.StatusConfirmed? {
      SeeKeeps(s, key);
      AdvanceKeeps(s.(seen := s.seen + {key}), w, Writing(CompletedWrite(status.event), false));
    } else {
      AdvanceKeeps(s, w, ProgressStep(s, w, HearStatus(status, sample)).value.workers[w].phase);
    }
  }

  lemma SendKeeps(s: State, w: nat, call: nat)
    requires Inv(s) && w in s.workers && call !in s.calls
    ensures Inv(Advance(StartCall(s, call, s.workers[w].job.key, s.workers[w].job.payload), w, AwaitBook(call)))
  {
    var job := s.workers[w].job;
    StartCallKeeps(s, call, job.key, job.payload);
    AdvanceKeeps(StartCall(s, call, job.key, job.payload), w, AwaitBook(call));
  }

  lemma StoreFailsKeeps(s: State, w: nat, applied: bool, sample: real)
    requires Inv(s) && w in s.workers && s.workers[w].phase.Writing?
    ensures Inv(ProgressStep(s, w, StoreFails(applied, sample)).value)
  {
    var me := s.workers[w];
    StoreKeeps(s, w);
    var t := if applied then s.(rows := WriteRow(s.rows, me.job.key, me.phase.write, s.now)) else s;
    if me.phase.handler {
      LeaveKeeps(t, w);
    } else {
      AdvanceKeeps(t, w, Writing(TemporaryFailureWrite(me.job.attempt, sample), true));
    }
  }

  lemma StoreKeeps(s: State, w: nat)
    requires Inv(s) && w in s.workers && s.workers[w].phase.Writing?
    ensures Inv(s.(rows := WriteRow(s.rows, s.workers[w].job.key, s.workers[w].phase.write, s.now)))
  {
    RowsKeep(s, WriteRow(s.rows, s.workers[w].job.key, s.workers[w].phase.write, s.now));
  }

  lemma OwnerKeeps(s: State, a: OwnerAction)
    requires Inv(s) && OwnerStep(s, a).Some?
    ensures Inv(OwnerStep(s, a).value)
  {
    CalendarKeeps(s, OwnerStep(s, a).value.events);
  }

  lemma StepKeeps(s: State, a: Action)
    requires Inv(s) && Step(s, a).Some?
    ensures Inv(Step(s, a).value)
  {
    match a
    case ByClient(c, action) => ClientKeeps(s, c, action);
    case ByBroker(call, action) => BrokerKeeps(s, call, action);
    case ByWorker(w, action) => WorkerKeeps(s, w, action);
    case ByOwner(action) => OwnerKeeps(s, action);
    case CancelRequest(key) => RowsKeep(s, CancelRow(s.rows, key));
    case ResumeCompany(company) => RowsKeep(s, ResumeRows(s.rows, company, s.now));
    case Tick(elapsed) => SameCalendarKeepsLog(s, s.(now := s.now + elapsed));
  }

  lemma {:induction false} RunKeeps(s: State, actions: seq<Action>, t: State)
    requires Inv(s) && Reaches(s, actions, t)
    ensures Inv(t)
    decreases |actions|
  {
    if actions != [] {
      StepKeeps(s, actions[0]);
      RunKeeps(Step(s, actions[0]).value, actions[1..], t);
    }
  }

  // ---- Theorems --------------------------------------------------------------------------

  /** Zero duplication: over every run, no two provider insertions were made for the same request key. */
  lemma AtMostOneEventPerKey(actions: seq<Action>, t: State)
    requires Reaches(Initial, actions, t)
    ensures forall i, j :: 0 <= i < |t.log| && 0 <= j < |t.log| && t.log[i].key == t.log[j].key ==> i == j
  {
    RunKeeps(Initial, actions, t);
    forall i, j | 0 <= i < |t.log| && 0 <= j < |t.log| && t.log[i].key == t.log[j].key
      ensures i == j
    {
      assert t.log[i].id == t.log[j].id;
    }
  }

  /** The event of the key is on the calendar and not cancelled. */
  predicate EventLive(s: State, key: Key) {
    ProviderEventId(key) in s.events && !s.events[ProviderEventId(key)].cancelled
  }

  /** At some point of the run the event of the key was live. */
  ghost predicate WasLive(s: State, actions: seq<Action>, key: Key) {
    exists n: nat, m :: n <= |actions| && Reaches(s, actions[..n], m) && EventLive(m, key)
  }

  lemma BrokerSeesLive(s: State, call: nat, a: BrokerAction, t: State, key: Key)
    requires BrokerStep(s, call, a) == Some(t) && key in t.seen && key !in s.seen
    ensures EventLive(t, key)
  {
  }

  lemma WorkerSeesLive(s: State, w: nat, a: Progress, t: State, key: Key)
    requires w in s.workers && ProgressStep(s, w, a) == Some(t) && key in t.seen && key !in s.seen
    ensures EventLive(t, key)
  {
  }

  lemma SeeingIsLive(s: State, a: Action, t: State, key: Key)
    requires Step(s, a) == Some(t) && key in t.seen && key !in s.seen
    ensures EventLive(t, key)
  {
    match a
    case ByBroker(call, action) => BrokerSeesLive(s, call, action, t, key);
    case ByWorker(w, action) => if action.Work? { WorkerSeesLive(s, w, action.progress, t, key); }
    case _ =>
  }

  /** A key is marked as seen only in a run during which its event was live. */
  lemma {:induction false} SeenMeansLive(s: State, actions: seq<Action>, t: State, key: Key)
    requires Reaches(s, actions, t) && key in t.seen && key !in s.seen
    ensures WasLive(s, actions, key)
    decreases |actions|
  {
    var next := Step(s, actions[0]).value;
    if key in next.seen {
      SeeingIsLive(s, actions[0], next, key);
      assert actions[..1][1..] == [];
      assert Reaches(s, actions[..1], next);
    } else {
      SeenMeansLive(next, actions[1..], t, key);
      var n: nat, m :| n <= |actions[1..]| && Reaches(next, actions[1..][..n], m) && EventLive(m, key);
      assert actions[..n + 1][1..] == actions[1..][..n];
      assert Reaches(s, actions[..n + 1], m);
    }
  }

  /**
   Every row that reads `completed`, and every client told `confirmed`, has exactly the event of its own
   key behind it: that event was inserted for this key, and during the run it was live on the calendar.
   */
  lemma ConfirmedMeansProviderConfirmed(actions: seq<Action>, t: State, key: Key)
    requires Reaches(Initial, actions, t)
    requires (key in t.rows && t.rows[key].status.Completed?) || key in t.told
    ensures WasLive(Initial, actions, key) && ProviderEventId(key) in t.events && Logged(t, key)
    ensures key in t.rows && t.rows[key].status.Completed? ==> t.rows[key].result == Some(ProviderEventId(key))
  {
    RunKeeps(Initial, actions, t);
    SeenMeansLive(Initial, actions, t, key);
  }

  // ---- When a request has an event -------------------------------------------------------

  /** The insertion of a broker call for `key` takes effect in this step. */
  predicate InsertsFor(s: State, a: Action, key: Key) {
    && a.ByBroker? && a.brokerAction.Insert? && a.call in s.calls && s.calls[a.call].key == key
    && (a.brokerAction.outcome.Inserted? || (a.brokerAction.outcome.InsertUnconfirmed? && a.brokerAction.outcome.applied))
  }

  /** In any state, the event of a key appears in a step exactly when an insertion for that key takes effect in it. */
  lemma AnEventAppearsExactlyByInsertion(s: State, a: Action, t: State, key: Key)
    requires Step(s, a) == Some(t) && ProviderEventId(key) !in s.events
    ensures ProviderEventId(key) in t.events <==> InsertsFor(s, a, key)
  {
    if a.ByBroker? {
      BrokerInsertsExactly(s, a.call, a.brokerAction, t, key);
    } else if a.ByWorker? {
      WorkersDoNotTouchTheCalendar(s, a.worker, a.workerAction, t);
    }
  }

  lemma InsertInsertsExactly(s: State, call: nat, outcome: InsertOutcome, t: State, key: Key)
    requires call in s.calls && InsertStep(s, call, outcome) == Some(t) && ProviderEventId(key) !in s.events
    ensures ProviderEventId(key) in t.events <==> InsertsFor(s, ByBroker(call, Insert(outcome)), key)
  {
  }

  lemma OtherAnswersInsertNothing(s: State, call: nat, a: BrokerAction, t: State)
    requires BrokerStep(s, call, a) == Some(t) && !a.Insert?
    ensures t.events == s.events
  {
  }

  lemma BrokerInsertsExactly(s: State, call: nat, a: BrokerAction, t: State, key: Key)
    requires BrokerStep(s, call, a) == Some(t) && ProviderEventId(key) !in s.events
    ensures ProviderEventId(key) in t.events <==> InsertsFor(s, ByBroker(call, a), key)
  {
    if a.Insert? {
      InsertInsertsExactly(s, call, a.outcome, t, key);
    } else {
      OtherAnswersInsertNothing(s, call, a, t);
    }
  }

  lemma WorkDoesNotTouchTheCalendar(s: State, w: nat, a: Progress, t: State)
    requires w in s.workers && ProgressStep(s, w, a) == Some(t)
    ensures t.events == s.events
  {
  }

  lemma WorkersDoNotTouchTheCalendar(s: State, w: nat, a: WorkerAction, t: State)
    requires WorkerStep(s, w, a) == Some(t)
    ensures t.events == s.events
  {
    if a.Work? {
      WorkDoesNotTouchTheCalendar(s, w, a.progress, t);
    }
  }

  /** Some step of the run is an insertion for `key` that takes effect. */
  ghost predicate EverInserted(s: State, actions: seq<Action>, key: Key)
    decreases |actions|
  {
    actions != [] && Step(s, actions[0]).Some?
    && (InsertsFor(s, actions[0], key) || EverInserted(Step(s, actions[0]).value, actions[1..], key))
  }

  lemma EventsStay(s: State, a: Action, t: State, id: EventId)
    requires Step(s, a) == Some(t) && id in s.events
    ensures id in t.events
  {
    if a.ByWorker? {
      WorkersDoNotTouchTheCalendar(s, a.worker, a.workerAction, t);
    }
  }

  /** From a state without the event, the event exists after a run exactly when the run inserted it. */
  lemma {:induction false} EventExistsExactlyIfInserted(s: State, actions: seq<Action>, t: State, key: Key)
    requires Reaches(s, actions, t)
    ensures ProviderEventId(key) in t.events <==> ProviderEventId(key) in s.events || EverInserted(s, actions, key)
    decreases |actions|
  {
    if actions != [] {
      var next := Step(s, actions[0]).value;
      if ProviderEventId(key) in s.events {
        EventsStay(s, actions[0], next, ProviderEventId(key));
      } else {
        AnEventAppearsExactlyByInsertion(s, actions[0], next, key);
      }
      EventExistsExactlyIfInserted(next, actions[1..], t, key);
    }
  }

  /**
   A cancelled row, as any other, has an event at the end of a run exactly when some insertion for its key
   took effect: before the cancel, or by a call that was still open or made for the key afterwards.
   */
  lemma CancelledRowHasAnEventExactlyIfInserted(before: seq<Action>, s: State, after: seq<Action>, t: State, key: Key)
    requires Reaches(Initial, before, s) && Cancellable(s.rows, key)
    requires Reaches(Step(s, CancelRequest(key)).value, after, t)
    ensures ProviderEventId(key) in t.events <==>
              EverInserted(Initial, before, key) || EverInserted(Step(s, CancelRequest(key)).value, after, key)
  {
    EventExistsExactlyIfInserted(Initial, before, s, key);
    EventExistsExactlyIfInserted(Step(s, CancelRequest(key)).value, after, t, key);
  }
}
