/**
 One pass of the booking worker over a claimed job (backend/booking_worker.py).  The three provider
 calls are outside the model; their outcomes are the reply datatypes below.
 */
module BookingWorker {
  import opened Common
  import opened BookingQueue

  /** What a provider call can come back with, per endpoint; HttpError and Crash are raised exceptions. */
  datatype StatusReply =
    | StatusConfirmed(event: EventId) | StatusNotFound | StatusFailed | StatusNeedsReconnect
    | StatusUnavailable | StatusHttpError(code: int) | StatusCrash

  datatype AvailabilityReply =
    | Slots(slots: seq<int>) | IntegrationRequired | AvailabilityNeedsReconnect
    | AvailabilityUnavailable | AvailabilityFailed | AvailabilityHttpError(code: int) | AvailabilityCrash

  datatype BookReply =
    | BookConfirmed(event: EventId) | BookNeedsReconnect | BookUnavailable
    | BookFailed(retryable: bool) | BookConflict | BookHttpError(code: int) | BookCrash

  /** Carry on with the next provider call, write a result in the try body, or raise and let a handler write one. */
  datatype Decision = Continue | Finish(write: Write) | Raise(write: Write)

  const NeedsReconnectWrite := Write(NeedsReconnect, Some(RECONNECT_DELAY_SECONDS), None)
  const FailedWrite := Write(Failed, None, None)

  function CompletedWrite(event: EventId): Write {
    Write(Completed, None, Some(event))
  }

  function TemporaryFailureWrite(attempt: int, sample: real): Write {
    if attempt >= MAX_ATTEMPTS then FailedWrite
    else Write(Pending, Some(RetryDelaySeconds(attempt, sample)), None)
  }

  function HttpErrorWrite(code: int, attempt: int, sample: real): Write {
    if code < 500 then FailedWrite else TemporaryFailureWrite(attempt, sample)
  }

  function AfterStatus(reply: StatusReply, attempt: int, sample: real): Decision {
    match reply
    case StatusConfirmed(event) => Finish(CompletedWrite(event))
    case StatusNeedsReconnect => Finish(NeedsReconnectWrite)
    case StatusUnavailable => Raise(TemporaryFailureWrite(attempt, sample))
    case StatusHttpError(code) => Raise(HttpErrorWrite(code, attempt, sample))
    case StatusCrash => Raise(TemporaryFailureWrite(attempt, sample))
    // A cancelled or rejected event is not final here: the pass goes on to the availability check.
    case StatusNotFound => Continue
    case StatusFailed => Continue
  }

  function AfterAvailability(reply: AvailabilityReply, start: int, attempt: int, sample: real): Decision {
    match reply
    case AvailabilityNeedsReconnect => Finish(NeedsReconnectWrite)
    case AvailabilityUnavailable => Raise(TemporaryFailureWrite(attempt, sample))
    case AvailabilityFailed => Finish(FailedWrite)
    case AvailabilityHttpError(code) => Raise(HttpErrorWrite(code, attempt, sample))
    case AvailabilityCrash => Raise(TemporaryFailureWrite(attempt, sample))
    case IntegrationRequired => Finish(FailedWrite)
    case Slots(slots) => if start in slots then Continue else Finish(FailedWrite)
  }

  function AfterBook(reply: BookReply, attempt: int, sample: real): (d: Decision)
    ensures !d.Continue?
  {
    match reply
    case BookConfirmed(event) => Finish(CompletedWrite(event))
    case BookNeedsReconnect => Finish(NeedsReconnectWrite)
    case BookUnavailable => Raise(TemporaryFailureWrite(attempt, sample))
    case BookFailed(retryable) => if retryable then Raise(TemporaryFailureWrite(attempt, sample)) else Finish(FailedWrite)
    case BookConflict => Finish(FailedWrite)
    case BookHttpError(code) => Raise(HttpErrorWrite(code, attempt, sample))
    case BookCrash => Raise(TemporaryFailureWrite(attempt, sample))
  }

  /** How a whole pass ends, given what each provider call would answer. */
  function PassDecision(job: Job, status: StatusReply, availability: AvailabilityReply, book: BookReply, sample: real): (d: Decision)
    ensures !d.Continue?
  {
    var asked := AfterStatus(status, job.attempt, sample);
    if !asked.Continue? then asked
    else
      var checked := AfterAvailability(availability, job.payload.start, job.attempt, sample);
      if !checked.Continue? then checked else AfterBook(book, job.attempt, sample)
  }

  /** The result a whole pass writes. */
  function PassWrite(job: Job, status: StatusReply, availability: AvailabilityReply, book: BookReply, sample: real): Write {
    PassDecision(job, status, availability, book, sample).write
  }

  /** A pass reaches the provider write exactly when reconciliation found nothing and the slot is offered. */
  predicate SendsBook(job: Job, status: StatusReply, availability: AvailabilityReply) {
    && (status.StatusNotFound? || status.StatusFailed?)
    && availability.Slots? && job.payload.start in availability.slots
  }

  /** The last reply a pass reaches asks for a reconnect of the calendar. */
  predicate SaysReconnect(job: Job, status: StatusReply, availability: AvailabilityReply, book: BookReply) {
    || status.StatusNeedsReconnect?
    || ((status.StatusNotFound? || status.StatusFailed?) && availability.AvailabilityNeedsReconnect?)
    || (SendsBook(job, status, availability) && book.BookNeedsReconnect?)
  }

  /** The last reply a pass reaches is a failure that may go away: unavailable, retryable, a server error or any other exception. */
  predicate SaysTemporary(job: Job, status: StatusReply, availability: AvailabilityReply, book: BookReply) {
    || status.StatusUnavailable? || status.StatusCrash? || (status.StatusHttpError? && status.code >= 500)
    || ((status.StatusNotFound? || status.StatusFailed?)
        && (availability.AvailabilityUnavailable? || availability.AvailabilityCrash?
            || (availability.AvailabilityHttpError? && availability.code >= 500)))
    || (SendsBook(job, status, availability)
        && (book.BookUnavailable? || book.BookCrash? || (book.BookFailed? && book.retryable)
            || (book.BookHttpError? && book.code >= 500)))
  }

  /** The last reply a pass reaches confirms this event. */
  predicate SaysConfirmed(job: Job, status: StatusReply, availability: AvailabilityReply, book: BookReply, event: EventId) {
    status == StatusConfirmed(event) || (SendsBook(job, status, availability) && book == BookConfirmed(event))
  }

  /** What a pass must leave of the row it worked on. */
  ghost predicate Settles(was: Row, row: Row, attempt: nat, now: real) {
    && row == was.(status := row.status, result := row.result, lease := None, nextAttempt := row.nextAttempt)
    && (row.result.Some? <==> row.status.Completed?)
    && (row.status.NeedsReconnect? ==> row.nextAttempt == now + 1800.0)
    && (row.status.Pending? ==>
          BackoffCeiling(attempt) as real / 2.0 <= row.nextAttempt - now <= BackoffCeiling(attempt) as real)
    && (row.status.Completed? || row.status.Failed? ==> row.nextAttempt == was.nextAttempt)
  }

  /** How a pass must end and what it must leave of the table, told by the replies it gets. */
  ghost predicate PassLeaves(was: map<Key, Row>, rows: map<Key, Row>, job: Job, status: StatusReply, availability: AvailabilityReply,
                             book: BookReply, outcome: Status, now: real) {
    && (outcome.Completed? || outcome.NeedsReconnect? || outcome.Pending? || outcome.Failed?)
    && (outcome.Completed? <==> status.StatusConfirmed? || (SendsBook(job, status, availability) && book.BookConfirmed?))
    && (outcome.NeedsReconnect? <==> SaysReconnect(job, status, availability, book))
    && (outcome.Pending? <==> SaysTemporary(job, status, availability, book) && job.attempt < 8)
    && rows.Keys == was.Keys && (forall k :: k in was && k != job.key ==> rows[k] == was[k])
    && (job.key in was ==>
          && rows[job.key].status == outcome && Settles(was[job.key], rows[job.key], job.attempt, now)
          && (outcome.Completed? ==> SaysConfirmed(job, status, availability, book, rows[job.key].result.value)))
  }

  method ProcessBookingRequest(table: BookingTable, job: Job, status: StatusReply, availability: AvailabilityReply,
                               book: BookReply, sample: real, now: real)
    returns (outcome: Status, sentBook: bool)
    modifies table
    ensures sentBook <==> SendsBook(job, status, availability)
    ensures PassLeaves(old(table.rows), table.rows, job, status, availability, book, outcome, now)
    ensures table.rows == WriteRow(old(table.rows), job.key, PassWrite(job, status, availability, book, sample), now)
    ensures outcome == PassWrite(job, status, availability, book, sample).status
  {
    sentBook := false;
    var decision := AfterStatus(status, job.attempt, sample);
    if decision.Continue? {
      decision := AfterAvailability(availability, job.payload.start, job.attempt, sample);
      if decision.Continue? {
        sentBook := true;
        decision := AfterBook(book, job.attempt, sample);
      }
    }
    ghost var was := table.rows;
    table.WriteResult(job, decision.write, now);
    outcome := decision.write.status;
    assert decision.write == PassWrite(job, status, availability, book, sample);
    PassSettles(was, job, status, availability, book, sample, now);
  }

  /** A write of a pass, as far as it decides the row. */
  predicate PassWrites(w: Write, attempt: nat) {
    && (w.status.Completed? || w.status.Failed? || w.status.NeedsReconnect? || w.status.Pending?)
    && (w.result.Some? <==> w.status.Completed?)
    && (w.delay.Some? <==> w.status.NeedsReconnect? || w.status.Pending?)
    && (w.status.NeedsReconnect? ==> w.delay.value == 1800.0)
    && (w.status.Pending? ==> BackoffCeiling(attempt) as real / 2.0 <= w.delay.value <= BackoffCeiling(attempt) as real)
  }

  /**
   The last reply a pass reaches decides what it writes: `completed` exactly with the event that reply
   confirms, `needs_reconnect` for half an hour, `pending` exactly for a temporary failure below the eighth
   attempt, within the back-off bounds, and `failed` otherwise.  It is written inside an exception handler
   exactly if that reply was a temporary failure or an HTTP error.
   */
  lemma PassOutcome(job: Job, status: StatusReply, availability: AvailabilityReply, book: BookReply, sample: real)
    ensures var w := PassWrite(job, status, availability, book, sample);
            && PassWrites(w, job.attempt)
            && (forall event :: w == Write(Completed, None, Some(event)) <==> SaysConfirmed(job, status, availability, book, event))
            && (w.status.NeedsReconnect? <==> SaysReconnect(job, status, availability, book))
            && (w.status.Pending? <==> SaysTemporary(job, status, availability, book) && job.attempt < 8)
    ensures PassDecision(job, status, availability, book, sample).Raise? <==>
              || SaysTemporary(job, status, availability, book)
              || status.StatusHttpError?
              || ((status.StatusNotFound? || status.StatusFailed?) && availability.AvailabilityHttpError?)
              || (SendsBook(job, status, availability) && book.BookHttpError?)
  {
  }

  /** The table after a pass, row by row. */
  lemma PassSettles(rows: map<Key, Row>, job: Job, status: StatusReply, availability: AvailabilityReply, book: BookReply,
                    sample: real, now: real)
    ensures var w := PassWrite(job, status, availability, book, sample);
            PassLeaves(rows, WriteRow(rows, job.key, w, now), job, status, availability, book, w.status, now)
  {
    PassOutcome(job, status, availability, book, sample);
    var w := PassWrite(job, status, availability, book, sample);
    if w.status.Completed? {
      assert w == Write(Completed, None, Some(w.result.value));
    }
  }
}
