/**
 The two tables behind a write tool: idempotency records (db/idempotency.py) and single-use
 confirmation tokens (db/confirmation.py).  Every method is one database transaction.  Times are whole
 seconds; keys are shared by all tenants, and row-level security hides another tenant's record.
 */
module IdempotencyLedger {
  import opened Common

  const LOCK_SECONDS := 60
  const TOKEN_SECONDS := 300

  type Tenant = nat
  type Key = nat
  type Payload = nat
  type Token = nat

  datatype RecordStatus = Acquired | Committed | Refunded
  datatype Record = Record(owner: Tenant, status: RecordStatus, payload: Option<Payload>, expiresAt: int)

  /** What a confirmation token is bound to. */
  datatype Target = Target(tenant: Tenant, tool: string, eventId: string, reason: Option<string>)
  datatype TokenRow = TokenRow(target: Target, expiresAt: int, consumed: bool)

  datatype Acquisition = New | Cached(payload: Payload) | InProgress | ForeignKey

  // ---- Transactions as functions -----------------------------------------------------------

  predicate Visible(records: map<Key, Record>, key: Key, tenant: Tenant) {
    key in records && records[key].owner == tenant
  }

  function AcquireResult(records: map<Key, Record>, key: Key, tenant: Tenant, now: int): Acquisition {
    if Visible(records, key, tenant) then
      var r := records[key];
      if r.status.Committed? then (if r.payload.Some? then Cached(r.payload.value) else InProgress)
      else if r.status.Acquired? && r.expiresAt > now then InProgress
      else New
    else if key in records then ForeignKey
    else New
  }

  function AcquireRecords(records: map<Key, Record>, key: Key, tenant: Tenant, now: int): map<Key, Record> {
    if AcquireResult(records, key, tenant, now).New?
    then records[key := Record(tenant, Acquired, None, now + LOCK_SECONDS)] else records
  }

  /** Neither commit nor release looks at the record's status or expiry. */
  function CommitRecords(records: map<Key, Record>, key: Key, tenant: Tenant, payload: Payload): map<Key, Record> {
    if Visible(records, key, tenant)
    then records[key := records[key].(status := Committed, payload := Some(payload))] else records
  }

  function ReleaseRecords(records: map<Key, Record>, key: Key, tenant: Tenant): map<Key, Record> {
    if Visible(records, key, tenant) then records[key := records[key].(status := Refunded)] else records
  }

  predicate Consumable(tokens: map<Token, TokenRow>, token: Token, target: Target, now: int) {
    token in tokens && tokens[token].target == target && !tokens[token].consumed && tokens[token].expiresAt > now
  }

  function ConsumeTokens(tokens: map<Token, TokenRow>, token: Token, target: Target, now: int): map<Token, TokenRow> {
    if Consumable(tokens, token, target, now) then tokens[token := tokens[token].(consumed := true)] else tokens
  }

  // ---- What the tables promise, row by row -------------------------------------------------

  /** No record, or the tenant's own one, given back or run out: the key can be locked. */
  ghost predicate LockFree(records: map<Key, Record>, key: Key, tenant: Tenant, now: int) {
    key in records ==>
      && records[key].owner == tenant
      && match records[key].status
         case Refunded => true
         case Acquired => records[key].expiresAt <= now
         case Committed => false
  }

  /** An unspent token of exactly this target that has not run out. */
  ghost predicate Spendable(tokens: map<Token, TokenRow>, token: Token, target: Target, now: int) {
    exists end :: now < end && token in tokens && tokens[token] == TokenRow(target, end, false)
  }

  // ---- The tables as objects ---------------------------------------------------------------

  class IdempotencyTable {
    var records: map<Key, Record>

    constructor ()
      ensures records == map[]
    {
      records := map[];
    }

    method Acquire(key: Key, tenant: Tenant, now: int) returns (result: Acquisition)
      modifies this
      ensures result == AcquireResult(old(records), key, tenant, now)
      ensures records == AcquireRecords(old(records), key, tenant, now)
      ensures LockFree(old(records), key, tenant, now) ==>
                result.New? && records == old(records)[key := Record(tenant, Acquired, None, now + 60)]
      ensures !LockFree(old(records), key, tenant, now) ==>
                && !result.New? && records == old(records)
                && (result.ForeignKey? <==> records[key].owner != tenant)
                && (result.Cached? <==> records[key].owner == tenant && records[key].status.Committed? && records[key].payload.Some?)
                && (result.Cached? ==> records[key].payload == Some(result.payload))
    {
      var expiresAt := now + LOCK_SECONDS;
      if key in records && records[key].owner == tenant {
        var row := records[key];
        if row.status == Committed {
          return if row.payload.Some? then Cached(row.payload.value) else InProgress;
        }
        if row.status == Acquired && row.expiresAt > now {
          return InProgress;
        }
        records := records[key := row.(status := Acquired, payload := None, expiresAt := expiresAt)];
        return New;
      }
      if key in records {
        return ForeignKey;
      }
      records := records[key := Record(tenant, Acquired, None, expiresAt)];
      result := New;
    }

    method Commit(key: Key, tenant: Tenant, payload: Payload)
      modifies this
      ensures records == CommitRecords(old(records), key, tenant, payload)
      ensures records == if key in old(records) && old(records)[key].owner == tenant
                         then old(records)[key := Record(tenant, Committed, Some(payload), old(records)[key].expiresAt)]
                         else old(records)
    {
      if key in records && records[key].owner == tenant {
        records := records[key := records[key].(status := Committed, payload := Some(payload))];
      }
    }

    method Release(key: Key, tenant: Tenant)
      modifies this
      ensures records == ReleaseRecords(old(records), key, tenant)
      ensures records == if key in old(records) && old(records)[key].owner == tenant
                         then old(records)[key := Record(tenant, Refunded, old(records)[key].payload, old(records)[key].expiresAt)]
                         else old(records)
    {
      if key in records && records[key].owner == tenant {
        records := records[key := records[key].(status := Refunded)];
      }
    }
  }

  class ConfirmationTable {
    var tokens: map<Token, TokenRow>

    constructor ()
      ensures tokens == map[]
    {
      tokens := map[];
    }

    /** `token` is 32 random bytes, taken never to repeat. */
    method Issue(token: Token, target: Target, now: int)
      requires token !in tokens
      modifies this
      ensures tokens == old(tokens)[token := TokenRow(target, now + 300, false)]
    {
      tokens := tokens[token := TokenRow(target, now + TOKEN_SECONDS, false)];
    }

    method Consume(token: Token, target: Target, now: int) returns (accepted: bool)
      modifies this
      ensures accepted == Consumable(old(tokens), token, target, now)
      ensures tokens == ConsumeTokens(old(tokens), token, target, now)
      ensures accepted <==> Spendable(old(tokens), token, target, now)
      ensures tokens == if accepted then old(tokens)[token := TokenRow(target, old(tokens)[token].expiresAt, true)] else old(tokens)
    {
      accepted := token in tokens && tokens[token].target == target && !tokens[token].consumed && tokens[token].expiresAt > now;
      if accepted {
        tokens := tokens[token := tokens[token].(consumed := true)];
      }
    }
  }

  // ---- One undisturbed execution -----------------------------------------------------------

  datatype BodyOutcome = Returns(payload: Payload) | Conflicts | AsksConfirmation | Raises

  datatype Reply = Success(payload: Payload) | KeyConflict | SlotConflict | ConfirmationRequired
                 | InvalidToken | ExecutionError | Unavailable

  function OutcomeReply(outcome: BodyOutcome): Reply {
    match outcome
    case Returns(payload) => Success(payload)
    case Conflicts => SlotConflict
    case AsksConfirmation => ConfirmationRequired
    case Raises => ExecutionError
  }

  /** What a keyed call must answer and leave when nothing disturbs it, told by the rows it finds. */
  ghost predicate Executed(was: map<Key, Record>, tokensWere: map<Token, TokenRow>, key: Key, target: Target, token: Option<Token>,
                           outcome: BodyOutcome, now: int, reply: Reply, ran: bool, records: map<Key, Record>,
                           tokens: map<Token, TokenRow>) {
    if !LockFree(was, key, target.tenant, now) then
      // Cached, in progress, or another tenant's: nothing is touched, and only the owner sees a payload.
      && !ran && records == was && tokens == tokensWere
      && reply == if was[key].owner == target.tenant && was[key].status.Committed? && was[key].payload.Some?
                  then Success(was[key].payload.value) else KeyConflict
    else Settled(was, tokensWere, key, target, token, outcome, now, reply, ran, records, tokens)
  }

  /** The same for a call that gets the lock. */
  ghost predicate Settled(was: map<Key, Record>, tokensWere: map<Token, TokenRow>, key: Key, target: Target, token: Option<Token>,
                          outcome: BodyOutcome, now: int, reply: Reply, ran: bool, records: map<Key, Record>,
                          tokens: map<Token, TokenRow>) {
    if token.Some? && !Spendable(tokensWere, token.value, target, now) then
      && !ran && reply == InvalidToken && tokens == tokensWere
      && records == was[key := Record(target.tenant, Refunded, None, now + 60)]
    else
      && ran
      && tokens == (if token.Some? then tokensWere[token.value := tokensWere[token.value].(consumed := true)] else tokensWere)
      && match outcome
         case Returns(payload) =>
           reply == Success(payload) && records == was[key := Record(target.tenant, Committed, Some(payload), now + 60)]
         case Conflicts => reply == SlotConflict && records == was[key := Record(target.tenant, Refunded, None, now + 60)]
         case AsksConfirmation => reply == ConfirmationRequired && records == was[key := Record(target.tenant, Acquired, None, now + 60)]
         case Raises => reply == ExecutionError && records == was[key := Record(target.tenant, Refunded, None, now + 60)]
  }

  /**
   `execute_tool` for a keyed call when the database answers: lock first, then the token, then the tool,
   then commit or release.  `ran` tells whether the tool body was started.
   */
  method ExecuteTool(ledger: IdempotencyTable, confirmations: ConfirmationTable, key: Key, target: Target,
                     token: Option<Token>, outcome: BodyOutcome, now: int)
    returns (reply: Reply, ran: bool)
    modifies ledger, confirmations
    ensures Executed(old(ledger.records), old(confirmations.tokens), key, target, token, outcome, now,
                     reply, ran, ledger.records, confirmations.tokens)
  {
    ran := false;
    var acquisition := ledger.Acquire(key, target.tenant, now);
    match acquisition {
      case Cached(payload) => return Success(payload), false;
      case InProgress => return KeyConflict, false;
      case ForeignKey => return KeyConflict, false;
      case New =>
    }
    if token.Some? {
      var confirmed := confirmations.Consume(token.value, target, now);
      if !confirmed {
        ledger.Release(key, target.tenant);
        return InvalidToken, false;
      }
    }
    ran := true;
    reply := OutcomeReply(outcome);
    match outcome {
      case Returns(payload) => ledger.Commit(key, target.tenant, payload);
      case Conflicts => ledger.Release(key, target.tenant);
      case AsksConfirmation =>
      case Raises => ledger.Release(key, target.tenant);
    }
  }
}
