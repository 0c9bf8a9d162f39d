/**
 The durable booking queue: the row transitions of db/booking_requests.py and the two SQL
 statements of backend/booking_worker.py.  Times are seconds as reals.
 */
module BookingQueue {
  import opened Common

  const LEASE_SECONDS := 120.0
  const MAX_ATTEMPTS := 8
  const MAX_BACKOFF_SECONDS := 3600
  const RECONNECT_DELAY_SECONDS := 1800.0

  /** A row is unique per (user_id, idempotency_key); provider calendars are per company too. */
  datatype Key = Key(company: string, token: string)

  datatype Payload = Payload(title: string, start: int, duration: nat, extra: string)

  /** SHA-256 of a request key is taken to be injective, and never equal to an ID minted by the provider. */
  datatype EventId = FromKey(key: Key) | Minted(serial: nat)

  function ProviderEventId(key: Key): EventId {
    FromKey(key)
  }

  datatype Status = Pending | Running | NeedsReconnect | Completed | Failed | Cancelled

  predicate Terminal(status: Status) {
    status.Completed? || status.Failed? || status.Cancelled?
  }

  datatype Row = Row(payload: Payload, status: Status, attempts: nat, lease: Option<real>,
                     nextAttempt: real, createdAt: real, result: Option<EventId>)

  datatype Job = Job(key: Key, payload: Payload, attempt: nat, leaseEnd: real)

  /** The arguments of one `_write_result` call. */
  datatype Write = Write(status: Status, delay: Option<real>, result: Option<EventId>)

  // ---- Row transitions -------------------------------------------------------------------

  predicate Eligible(row: Row, now: real) {
    || (row.status.Pending? && row.nextAttempt <= now)
    || (row.status.Running? && row.lease.Some? && row.lease.value < now)
    || (row.status.NeedsReconnect? && row.nextAttempt <= now)
  }

  function ClaimedRow(row: Row, now: real): Row {
    row.(status := Running,
         attempts := if row.status.NeedsReconnect? then row.attempts else row.attempts + 1,
         lease := Some(now + LEASE_SECONDS))
  }

  function WrittenRow(row: Row, w: Write, now: real): Row {
    row.(status := w.status, result := w.result, lease := None,
         nextAttempt := if w.delay.Some? then now + w.delay.value else row.nextAttempt)
  }

  /** `_write_result` has neither a status guard nor a lease guard. */
  function WriteRow(rows: map<Key, Row>, key: Key, w: Write, now: real): map<Key, Row> {
    if key in rows then rows[key := WrittenRow(rows[key], w, now)] else rows
  }

  /** INSERT ... ON CONFLICT: an existing row keeps its payload and its status. */
  function InsertRow(rows: map<Key, Row>, key: Key, payload: Payload, status: Status, now: real): map<Key, Row> {
    if key in rows then rows else rows[key := Row(payload, status, 0, None, now, now, None)]
  }

  predicate Cancellable(rows: map<Key, Row>, key: Key) {
    key in rows && (rows[key].status.Pending? || rows[key].status.NeedsReconnect?)
  }

  function CancelRow(rows: map<Key, Row>, key: Key): map<Key, Row> {
    if Cancellable(rows, key) then rows[key := rows[key].(status := Cancelled, lease := None)] else rows
  }

  predicate Resumable(key: Key, row: Row, company: string) {
    key.company == company && row.status.NeedsReconnect?
  }

  function ResumedRow(row: Row, now: real): Row {
    row.(status := Pending, nextAttempt := now, lease := None)
  }

  function ResumeRows(rows: map<Key, Row>, company: string, now: real): map<Key, Row> {
    map k | k in rows :: if Resumable(k, rows[k], company) then ResumedRow(rows[k], now) else rows[k]
  }

  // ---- Retry delay -----------------------------------------------------------------------

  function Pow2(n: nat): (p: nat)
    ensures p >= 1
  {
    if n == 0 then 1 else 2 * Pow2(n - 1)
  }

  function BackoffCeiling(attempt: int): nat {
    var raw := 30 * Pow2(if attempt >= 1 then attempt - 1 else 0);
    if raw <= MAX_BACKOFF_SECONDS then raw else MAX_BACKOFF_SECONDS
  }

  /** The ceiling starts at half a minute and doubles with each attempt, up to an hour. */
  lemma CeilingDoubles(attempt: int)
    ensures attempt <= 1 ==> BackoffCeiling(attempt) == 30
    ensures attempt >= 1 ==> BackoffCeiling(attempt + 1) == if BackoffCeiling(attempt) <= 1800 then 2 * BackoffCeiling(attempt) else 3600
  {
    assert Pow2(0) == 1;
  }

  function Clamp01(x: real): (r: real)
    ensures 0.0 <= r <= 1.0
  {
    if x < 0.0 then 0.0 else if x > 1.0 then 1.0 else x
  }

  /** Half of the ceiling is kept, the other half is scaled by `jitter`. */
  function Jittered(ceiling: real, jitter: real): (delay: real)
    requires 0.0 <= ceiling && 0.0 <= jitter <= 1.0
    ensures ceiling / 2.0 <= delay <= ceiling
  {
    var share := 0.5 + jitter * 0.5;
    var delay := ceiling * share;
    ShareBounds(ceiling, share, delay);
    delay
  }

  lemma ShareBounds(ceiling: real, share: real, delay: real)
    requires 0.0 <= ceiling && 0.5 <= share <= 1.0 && delay == ceiling * share
    ensures ceiling / 2.0 <= delay <= ceiling
  {
    ScalesUp(ceiling, 0.5, share);
    ScalesUp(ceiling, share, 1.0);
  }

  lemma ScalesUp(x: real, low: real, high: real)
    requires 0.0 <= x && low <= high
    ensures x * low <= x * high
  {
  }

  /** Exponential delay with equal jitter. */
  function RetryDelaySeconds(attempt: int, sample: real): (delay: real)
    ensures BackoffCeiling(attempt) as real / 2.0 <= delay <= BackoffCeiling(attempt) as real
  {
    Jittered(BackoffCeiling(attempt) as real, Clamp01(sample))
  }

  /** The sample moves the delay evenly from half of the ceiling to all of it. */
  lemma JitterIsEven(attempt: int, sample: real)
    requires 0.0 <= sample <= 1.0
    ensures RetryDelaySeconds(attempt, 1.0) == BackoffCeiling(attempt) as real == 2.0 * RetryDelaySeconds(attempt, 0.0)
    ensures RetryDelaySeconds(attempt, sample) ==
              RetryDelaySeconds(attempt, 0.0) + sample * (RetryDelaySeconds(attempt, 1.0) - RetryDelaySeconds(attempt, 0.0))
  {
  }

  // ---- The table as an object ------------------------------------------------------------

  /** `a` is claimed before `b`: ORDER BY next_attempt_at, created_at. */
  predicate ClaimOrder(a: Row, b: Row) {
    a.nextAttempt < b.nextAttempt || (a.nextAttempt == b.nextAttempt && a.createdAt <= b.createdAt)
  }

  ghost predicate FirstEligible(rows: map<Key, Row>, key: Key, now: real) {
    && key in rows && Eligible(rows[key], now)
    && forall k :: k in rows && Eligible(rows[k], now) ==> ClaimOrder(rows[key], rows[k])
  }

  /** No worker may take the row: it is over, not due yet, or somebody's lease on it has not lapsed. */
  predicate OutOfReach(row: Row, now: real) {
    match row.status
    case Pending => now < row.nextAttempt
    case NeedsReconnect => now < row.nextAttempt
    case Running => row.lease.None? || now <= row.lease.value
    case _ => true
  }

  class BookingTable {
    var rows: map<Key, Row>

    constructor ()
      ensures rows == map[]
    {
      rows := map[];
    }

    method CreateBookingRequest(key: Key, payload: Payload, status: Status, now: real)
      returns (r: Result<Status, string>)
      modifies this
      ensures !status.Pending? && !status.NeedsReconnect? ==> r.Err? && rows == old(rows)
      ensures status.Pending? || status.NeedsReconnect? ==>
                rows == InsertRow(old(rows), key, payload, status, now) && r == Ok(rows[key].status)
      ensures status.Pending? || status.NeedsReconnect? ==>
                rows == if key in old(rows) then old(rows) else old(rows)[key := Row(payload, status, 0, None, now, now, None)]
    {
      if !status.Pending? && !status.NeedsReconnect? {
        return Err("Invalid initial booking request status");
      }
      if key !in rows {
        rows := rows[key := Row(payload, status, 0, None, now, now, None)];
      }
      r := Ok(rows[key].status);
    }

    /** One claim transaction: the first eligible row in claim order, or nothing when none is eligible. */
    method ClaimOne(now: real) returns (job: Option<Job>)
      modifies this
      ensures job.None? ==> rows == old(rows) && forall k :: k in rows ==> !Eligible(rows[k], now)
      ensures job.Some? ==>
                && FirstEligible(old(rows), job.value.key, now)
                && rows == old(rows)[job.value.key := ClaimedRow(old(rows)[job.value.key], now)]
                && job.value.payload == old(rows)[job.value.key].payload
                && job.value.attempt == rows[job.value.key].attempts
                && job.value.leaseEnd == now + LEASE_SECONDS
      ensures job.None? ==> forall k :: k in rows ==> OutOfReach(rows[k], now)
      ensures job.Some? ==>
                var was, row := old(rows)[job.value.key], rows[job.value.key];
                && !OutOfReach(was, now)
                && row == was.(status := Running, lease := Some(now + 120.0), attempts := row.attempts)
                && row.attempts == was.attempts + (if was.status.NeedsReconnect? then 0 else 1)
                && forall k :: k in old(rows) && !OutOfReach(old(rows)[k], now) ==>
                     || was.nextAttempt < old(rows)[k].nextAttempt
                     || (was.nextAttempt == old(rows)[k].nextAttempt && was.createdAt <= old(rows)[k].createdAt)
    {
      assert forall k :: k in rows ==> Eligible(rows[k], now) == !OutOfReach(rows[k], now);
      var best: Option<Key> := None;
      var todo := rows.Keys;
      while todo != {}
        invariant todo <= rows.Keys
        invariant rows == old(rows)
        invariant best.None? ==> forall k :: k in rows.Keys - todo ==> !Eligible(rows[k], now)
        invariant best.Some? ==> best.value in rows && Eligible(rows[best.value], now)
        invariant best.Some? ==> forall k :: k in rows.Keys - todo && Eligible(rows[k], now) ==>
                                               ClaimOrder(rows[best.value], rows[k])
        decreases |todo|
      {
        var k :| k in todo;
        todo := todo - {k};
        if Eligible(rows[k], now) && (best.None? || !ClaimOrder(rows[best.value], rows[k])) {
          best := Some(k);
        }
      }
      if best.None? {
        return None;
      }
      var key := best.value;
      rows := rows[key := ClaimedRow(rows[key], now)];
      job := Some(Job(key, rows[key].payload, rows[key].attempts, now + LEASE_SECONDS));
    }

    method WriteResult(job: Job, w: Write, now: real)
      modifies this
      ensures rows == WriteRow(old(rows), job.key, w, now)
      ensures job.key in old(rows) ==>
                var was := old(rows)[job.key];
                rows == old(rows)[job.key := Row(was.payload, w.status, was.attempts, None,
                                                 if w.delay.Some? then now + w.delay.value else was.nextAttempt, was.createdAt, w.result)]
    {
      if job.key in rows {
        rows := rows[job.key := WrittenRow(rows[job.key], w, now)];
      }
    }

    method CancelBookingRequest(key: Key) returns (changed: bool)
      modifies this
      ensures changed == Cancellable(old(rows), key)
      ensures rows == CancelRow(old(rows), key)
      ensures changed <==> key in old(rows) && (old(rows)[key].status.Pending? || old(rows)[key].status.NeedsReconnect?)
      ensures rows == if changed then old(rows)[key := old(rows)[key].(status := Cancelled, lease := None)] else old(rows)
    {
      changed := key in rows && (rows[key].status.Pending? || rows[key].status.NeedsReconnect?);
      if changed {
        rows := rows[key := rows[key].(status := Cancelled, lease := None)];
      }
    }

    method ResumeNeedsReconnectBookings(company: string, now: real) returns (count: nat)
      modifies this
      ensures rows == ResumeRows(old(rows), company, now)
      ensures count == |set k | k in old(rows) && k.company == company && old(rows)[k].status.NeedsReconnect?|
      ensures rows.Keys == old(rows).Keys
      ensures forall k :: k in rows ==>
                rows[k] == if k.company == company && old(rows)[k].status.NeedsReconnect?
                           then old(rows)[k].(status := Pending, nextAttempt := now, lease := None) else old(rows)[k]
    {
      assert (set k | k in rows && k.company == company && rows[k].status.NeedsReconnect?)
             == set k | k in rows && Resumable(k, rows[k], company);
      count := |set k | k in rows && Resumable(k, rows[k], company)|;
      rows := map k | k in rows :: if Resumable(k, rows[k], company) then ResumedRow(rows[k], now) else rows[k];
    }
  }
}
