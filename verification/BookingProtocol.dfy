/**
 The deferred-booking protocol as one transition system: clients calling `book_event`, broker calls
 that reach the provider in separate steps (free check, insert, fetch after a duplicate), queue
 workers, the calendar owner, and the clock, all interleaved freely.  Any response can be lost after
 its effect, any process can stop anywhere, and nothing here assumes that a lease is respected.
 */
module BookingProtocol {
  import opened Common
  import opened BookingQueue
  import opened BookingWorker

  // ---- State -----------------------------------------------------------------------------

  datatype Event = Event(title: string, start: int, duration: nat, cancelled: bool)

  /** History: one provider insertion that took effect, and the request it was made for. */
  datatype Insertion = Insertion(id: EventId, key: Key, body: Payload)

  datatype CallPhase = Checking | Inserting | Fetching | Answered(reply: BookReply)
  datatype BookCall = BookCall(key: Key, body: Payload, phase: CallPhase)

  /** The two statuses a row may be created with. */
  type InitialStatus = status: Status | status.Pending? || status.NeedsReconnect? witness Pending

  datatype Client = AwaitingBroker(key: Key, body: Payload, call: nat) | Queueing(key: Key, body: Payload, status: InitialStatus)

  /** `handler`: the write is made inside an exception handler, so that its own failure ends the worker. */
  datatype WorkPhase = AskStatus | AskAvailability | SendBook | AwaitBook(call: nat) | Writing(write: Write, handler: bool)
  datatype Worker = Worker(job: Job, phase: WorkPhase)

  datatype State = State(now: real, rows: map<Key, Row>, events: map<EventId, Event>, log: seq<Insertion>,
                         seen: set<Key>, told: set<Key>, calls: map<nat, BookCall>,
                         clients: map<nat, Client>, workers: map<nat, Worker>)

  const Initial := State(0.0, map[], map[], [], {}, {}, map[], map[], map[])

  // ---- Actions ---------------------------------------------------------------------------

  datatype ClientAction =
    | Begin(key: Key, body: Payload, call: nat) | TakeReply | LoseReply(code: int) | QueueRow | ClientStops

  datatype InsertOutcome = Inserted | InsertUnconfirmed(applied: bool, answer: BookReply) | Duplicate

  datatype BrokerAction =
    | Check(answer: Option<BookReply>) | Insert(outcome: InsertOutcome) | Fetch(found: bool)

  datatype WorkerAction = Claim(key: Key) | Work(progress: Progress) | WorkerStops

  datatype Progress =
    | HearStatus(status: StatusReply, sample: real)
    | HearAvailability(availability: AvailabilityReply, sample: real)
    | Send(call: nat)
    | HearBook(sample: real)
    | LoseBook(code: int, sample: real)
    | StoreResult
    | StoreFails(applied: bool, sample: real)

  datatype OwnerAction =
    | Delete(id: EventId) | Restore(id: EventId) | Edit(id: EventId, event: Event) | Create(serial: nat, event: Event)

  datatype Action =
    | ByClient(client: nat, clientAction: ClientAction)
    | ByBroker(call: nat, brokerAction: BrokerAction)
    | ByWorker(worker: nat, workerAction: WorkerAction)
    | ByOwner(ownerAction: OwnerAction)
    | CancelRequest(key: Key)
    | ResumeCompany(company: string)
    | Tick(elapsed: real)

  // ---- Steps -----------------------------------------------------------------------------

  function StartCall(s: State, call: nat, key: Key, body: Payload): State {
    s.(calls := s.calls[call := BookCall(key, body, Checking)])
  }

  /** What `book_event` queues for a broker reply; None when it queues nothing. */
  function QueuedStatus(reply: BookReply): Option<InitialStatus> {
    match reply
    case BookUnavailable => Some(Pending)
    case BookFailed(retryable) => if retryable then Some(Pending) else None
    case BookNeedsReconnect => Some(NeedsReconnect)
    case BookHttpError(code) => if code >= 500 then Some(Pending) else None
    case BookConfirmed(_) => None
    case BookConflict => None
    case BookCrash => None
  }

  function ClientHears(s: State, c: nat, key: Key, body: Payload, reply: BookReply): State {
    match QueuedStatus(reply)
    case Some(status) => s.(clients := s.clients[c := Queueing(key, body, status)])
    case None =>
      s.(clients := s.clients - {c}, told := if reply.BookConfirmed? then s.told + {key} else s.told)
  }

  function ClientStep(s: State, c: nat, a: ClientAction): Option<State> {
    match a
    case Begin(key, body, call) =>
      if c in s.clients || call in s.calls then None
      else Some(StartCall(s, call, key, body).(clients := s.clients[c := AwaitingBroker(key, body, call)]))
    case TakeReply =>
      if c in s.clients && s.clients[c].AwaitingBroker?
         && s.clients[c].call in s.calls && s.calls[s.clients[c].call].phase.Answered?
      then Some(ClientHears(s, c, s.clients[c].key, s.clients[c].body, s.calls[s.clients[c].call].phase.reply))
      else None
    case LoseReply(code) =>
      if c in s.clients && s.clients[c].AwaitingBroker?
      then Some(ClientHears(s, c, s.clients[c].key, s.clients[c].body, BookHttpError(code)))
      else None
    case QueueRow =>
      if c in s.clients && s.clients[c].Queueing?
      then Some(s.(rows := InsertRow(s.rows, s.clients[c].key, s.clients[c].body, s.clients[c].status, s.now),
                   clients := s.clients - {c}))
      else None
    case ClientStops =>
      Some(s.(clients := s.clients - {c}))
  }

  /** What a client hears: the broker's answer, or the error raised in its place when that is lost. */
  function HeardReply(s: State, c: nat, a: ClientAction): Option<BookReply> {
    if c !in s.clients || !s.clients[c].AwaitingBroker? then None
    else if a.LoseReply? then Some(BookHttpError(a.code))
    else if a.TakeReply? && s.clients[c].call in s.calls && s.calls[s.clients[c].call].phase.Answered?
    then Some(s.calls[s.clients[c].call].phase.reply)
    else None
  }

  /** The request was not decided, but may be later: unavailable, retryable or a server error. */
  predicate MayGoAway(reply: BookReply) {
    reply.BookUnavailable? || (reply.BookFailed? && reply.retryable) || (reply.BookHttpError? && reply.code >= 500)
  }

  /**
   In any state, `book_event` goes on to queue exactly the request it was asked, to be tried again exactly
   after a reply that may go away, or to wait exactly when the calendar must be reconnected; it tells the
   caller of a booking exactly when the reply confirms one.
   */
  lemma ARequestIsQueuedExactlyIfUndecided(s: State, c: nat, a: ClientAction, reply: BookReply, t: State)
    requires HeardReply(s, c, a) == Some(reply) && Step(s, ByClient(c, a)) == Some(t)
    ensures c in t.clients <==> MayGoAway(reply) || reply.BookNeedsReconnect?
    ensures MayGoAway(reply) ==> t.clients[c] == Queueing(s.clients[c].key, s.clients[c].body, Pending)
    ensures reply.BookNeedsReconnect? ==> t.clients[c] == Queueing(s.clients[c].key, s.clients[c].body, NeedsReconnect)
    ensures t.told == if reply.BookConfirmed? then s.told + {s.clients[c].key} else s.told
    ensures t.rows == s.rows
  {
  }

  function Answer(s: State, call: nat, reply: BookReply): State
    requires call in s.calls
  {
    s.(calls := s.calls[call := s.calls[call].(phase := Answered(reply))])
  }

  /** The provider applies an insertion under the deterministic ID of the request. */
  function Apply(s: State, key: Key, body: Payload): State {
    var id := ProviderEventId(key);
    s.(events := s.events[id := Event(body.title, body.start, body.duration, false)],
       log := s.log + [Insertion(id, key, body)])
  }

  function Confirm(s: State, call: nat): State
    requires call in s.calls
  {
    Answer(s, call, BookConfirmed(ProviderEventId(s.calls[call].key))).(seen := s.seen + {s.calls[call].key})
  }

  /** A reply that reports no confirmed event. */
  predicate Unconfirmed(reply: BookReply) {
    !reply.BookConfirmed?
  }

  function InsertStep(s: State, call: nat, outcome: InsertOutcome): Option<State>
    requires call in s.calls
  {
    var c := s.calls[call];
    var taken := ProviderEventId(c.key) in s.events;
    match outcome
    case Inserted =>
      if taken then None else Some(Confirm(Apply(s, c.key, c.body), call))
    case InsertUnconfirmed(applied, answer) =>
      if (applied && taken) || !Unconfirmed(answer) then None
      else Some(Answer(if applied then Apply(s, c.key, c.body) else s, call, answer))
    case Duplicate =>
      if !taken then None else Some(s.(calls := s.calls[call := c.(phase := Fetching)]))
  }

  function BrokerStep(s: State, call: nat, a: BrokerAction): Option<State> {
    if call !in s.calls then None else
    var c := s.calls[call];
    match a
    case Check(answer) =>
      if !c.phase.Checking? || (answer.Some? && !Unconfirmed(answer.value)) then None
      else if answer.Some? then Some(Answer(s, call, answer.value))
      else Some(s.(calls := s.calls[call := c.(phase := Inserting)]))
    case Insert(outcome) =>
      if !c.phase.Inserting? then None else InsertStep(s, call, outcome)
    case Fetch(found) =>
      var id := ProviderEventId(c.key);
      if !c.phase.Fetching? then None
      else if !found then Some(Answer(s, call, BookUnavailable))
      else if id !in s.events then None
      else if s.events[id].cancelled then Some(Answer(s, call, BookFailed(false)))
      else Some(Confirm(s, call))
  }

  /**
   How an insert that gets an answer ends, in any state.  If the key has no event, one with the request's
   title, start and duration is made and confirmed.  If it has one, the calendar stays as it is and the event
   is fetched: it is confirmed while it is live and refused for good once it was cancelled, and a fetch that
   finds nothing leaves the request open.
   */
  lemma AnInsertIsAnsweredByTheCalendar(s: State, call: nat)
    requires call in s.calls && s.calls[call].phase.Inserting?
    ensures var c := s.calls[call];
            var id := FromKey(c.key);
            var made, again := BrokerStep(s, call, Insert(Inserted)), BrokerStep(s, call, Insert(Duplicate));
            && (made.Some? <==> id !in s.events) && (again.Some? <==> id in s.events)
            && (made.Some? ==>
                  && made.value.events == s.events[id := Event(c.body.title, c.body.start, c.body.duration, false)]
                  && made.value.calls[call].phase == Answered(BookConfirmed(id)) && made.value.rows == s.rows)
            && (again.Some? ==>
                  var found, missed := BrokerStep(again.value, call, Fetch(true)), BrokerStep(again.value, call, Fetch(false));
                  && found.Some? && missed.Some? && found.value.events == missed.value.events == s.events
                  && found.value.calls[call].phase == Answered(if s.events[id].cancelled then BookFailed(false) else BookConfirmed(id))
                  && missed.value.calls[call].phase == Answered(BookUnavailable))
  {
  }

  function Advance(s: State, w: nat, phase: WorkPhase): State
    requires w in s.workers
  {
    s.(workers := s.workers[w := s.workers[w].(phase := phase)])
  }

  /** The pass is over: write what was decided, in a handler if it raised. */
  function Conclude(s: State, w: nat, decision: Decision): State
    requires w in s.workers && !decision.Continue?
  {
    Advance(s, w, Writing(decision.write, decision.Raise?))
  }

  function Follow(s: State, w: nat, decision: Decision, next: WorkPhase): State
    requires w in s.workers
  {
    if decision.Continue? then Advance(s, w, next) else Conclude(s, w, decision)
  }

  /** A GET by deterministic ID can report a confirmed event only while that event is live. */
  predicate StatusPossible(s: State, key: Key, status: StatusReply) {
    status.StatusConfirmed? ==>
      && status.event == ProviderEventId(key)
      && status.event in s.events && !s.events[status.event].cancelled
  }

  function WorkerStep(s: State, w: nat, a: WorkerAction): Option<State> {
    match a
    case Claim(key) =>
      if w in s.workers || key !in s.rows || !Eligible(s.rows[key], s.now) then None
      else
        var row := ClaimedRow(s.rows[key], s.now);
        var job := Job(key, row.payload, row.attempts, s.now + LEASE_SECONDS);
        Some(s.(rows := s.rows[key := row], workers := s.workers[w := Worker(job, AskStatus)]))
    case Work(progress) =>
      if w in s.workers then ProgressStep(s, w, progress) else None
    case WorkerStops =>
      Some(s.(workers := s.workers - {w}))
  }

  /** The call a worker waits for, once it has been answered. */
  predicate BookAnswered(s: State, w: Worker) {
    w.phase.AwaitBook? && w.phase.call in s.calls && s.calls[w.phase.call].phase.Answered?
  }

  function ProgressStep(s: State, w: nat, a: Progress): Option<State>
    requires w in s.workers
  {
    var me := s.workers[w];
    var job := me.job;
    match a
    case HearStatus(status, sample) =>
      if !me.phase.AskStatus? || !StatusPossible(s, job.key, status) then None
      else
        var t := if status.StatusConfirmed? then s.(seen := s.seen + {job.key}) else s;
        Some(Follow(t, w, AfterStatus(status, job.attempt, sample), AskAvailability))
    case HearAvailability(availability, sample) =>
      if !me.phase.AskAvailability? then None
      else Some(Follow(s, w, AfterAvailability(availability, job.payload.start, job.attempt, sample), SendBook))
    case Send(call) =>
      if !me.phase.SendBook? || call in s.calls then None
      else Some(Advance(StartCall(s, call, job.key, job.payload), w, AwaitBook(call)))
    case HearBook(sample) =>
      if BookAnswered(s, me)
      then Some(Conclude(s, w, AfterBook(s.calls[me.phase.call].phase.reply, job.attempt, sample)))
      else None
    case LoseBook(code, sample) =>
      if !me.phase.AwaitBook? then None
      else Some(Conclude(s, w, AfterBook(BookHttpError(code), job.attempt, sample)))
    case StoreResult =>
      if !me.phase.Writing? then None
      else Some(s.(rows := WriteRow(s.rows, job.key, me.phase.write, s.now), workers := s.workers - {w}))
    case StoreFails(applied, sample) =>
      // The statement raised, after or without effect.  Raised inside the try body it is caught and
      // turned into a rescheduling write; raised inside a handler it ends the worker.
      if !me.phase.Writing? then None
      else
        var t := if applied then s.(rows := WriteRow(s.rows, job.key, me.phase.write, s.now)) else s;
        if me.phase.handler then Some(t.(workers := s.workers - {w}))
        else Some(Advance(t, w, Writing(TemporaryFailureWrite(job.attempt, sample), true)))
  }

  /** The owner edits the calendar directly, but cannot create an event under a SHA-256 request ID. */
  function OwnerStep(s: State, a: OwnerAction): Option<State> {
    match a
    case Delete(id) => if id in s.events then Some(s.(events := s.events[id := s.events[id].(cancelled := true)])) else None
    case Restore(id) => if id in s.events then Some(s.(events := s.events[id := s.events[id].(cancelled := false)])) else None
    case Edit(id, event) => if id in s.events then Some(s.(events := s.events[id := event])) else None
    case Create(serial, event) => if Minted(serial) in s.events then None else Some(s.(events := s.events[Minted(serial) := event]))
  }

  function Step(s: State, a: Action): Option<State> {
    match a
    case ByClient(c, action) => ClientStep(s, c, action)
    case ByBroker(call, action) => BrokerStep(s, call, action)
    case ByWorker(w, action) => WorkerStep(s, w, action)
    case ByOwner(action) => OwnerStep(s, action)
    case CancelRequest(key) => Some(s.(rows := CancelRow(s.rows, key)))
    case ResumeCompany(company) => Some(s.(rows := ResumeRows(s.rows, company, s.now)))
    case Tick(elapsed) => if elapsed >= 0.0 then Some(s.(now := s.now + elapsed)) else None
  }

  /** `actions` leads from `s` to `t`. */
  ghost predicate Reaches(s: State, actions: seq<Action>, t: State)
    decreases |actions|
  {
    if actions == [] then s == t
    else Step(s, actions[0]).Some? && Reaches(Step(s, actions[0]).value, actions[1..], t)
  }
}
