/**
 What the idempotency ledger promises, and the three assumptions it rests on: nobody commits or releases
 after the 60 seconds of its lock, a commit either applies or fails without effect, and so does the release
 that follows a tool's conflict.
 */
module ToolExactlyOnce {
  import opened Common
  import opened IdempotencyLedger
  import opened ToolExecution

  predicate Active(p: Phase) {
    p.Confirming? || p.Running? || p.Produced? || p.Refusing?
  }

  /** The step is a commit or a release that takes effect. */
  predicate Writes(s: State, a: Action) {
    a.Proceed? && a.call in s.calls && (a.event.Commits? || a.event.Releases?) && !a.event.database.Refused?
  }

  /** A call that is past its lock writes nothing, and no commit is applied without being acknowledged. */
  predicate Punctual(s: State, a: Action) {
    Writes(s, a) ==>
      && (s.calls[a.call].lock.Some? ==> s.now < s.calls[a.call].lock.value)
      && (a.event.Commits? ==> a.event.database.Answered?)
  }

  /** The call gives its lock back after a conflict. */
  predicate GivesBackAfterConflict(c: Call) {
    c.phase.Refusing? && c.phase.reply.SlotConflict?
  }

  /** Nor is the release after a conflict. */
  predicate Timely(s: State, a: Action) {
    Punctual(s, a)
    && (Writes(s, a) && a.event.Releases? && GivesBackAfterConflict(s.calls[a.call]) ==> a.event.database.Answered?)
  }

  ghost predicate PunctualRun(s: State, actions: seq<Action>, t: State)
    decreases |actions|
  {
    if actions == [] then s == t
    else Punctual(s, actions[0]) && Step(s, actions[0]).Some? && PunctualRun(Step(s, actions[0]).value, actions[1..], t)
  }

  ghost predicate TimelyRun(s: State, actions: seq<Action>, t: State)
    decreases |actions|
  {
    if actions == [] then s == t
    else Timely(s, actions[0]) && Step(s, actions[0]).Some? && TimelyRun(Step(s, actions[0]).value, actions[1..], t)
  }

  // ---- Invariant -------------------------------------------------------------------------

  /** Call `id` acquired the lock on its key, has not finished, and the lock has not run out. */
  predicate Holds(s: State, id: nat) {
    id in s.calls && s.calls[id].key.Some? && Active(s.calls[id].phase)
    && s.calls[id].lock.Some? && s.calls[id].lock.value > s.now
  }

  predicate HasPayload(s: State, key: Key, tenant: Tenant, payload: Payload) {
    Visible(s.records, key, tenant) && s.records[key].status.Committed? && s.records[key].payload == Some(payload)
  }

  ghost predicate LockInv(s: State) {
    && (forall id :: id in s.calls && s.calls[id].key.Some? && Active(s.calls[id].phase) ==>
          s.calls[id].lock.Some? && Visible(s.records, s.calls[id].key.value, s.calls[id].target.tenant))
    && (forall id :: Holds(s, id) ==>
          Visible(s.records, s.calls[id].key.value, s.calls[id].target.tenant) && s.records[s.calls[id].key.value].status.Acquired?
          && s.records[s.calls[id].key.value].expiresAt == s.calls[id].lock.value)
    && (forall i, j :: Holds(s, i) && Holds(s, j) && s.calls[i].key == s.calls[j].key ==> i == j)
  }

  ghost predicate CommitInv(s: State) {
    && (forall i :: 0 <= i < |s.commits| ==>
          s.commits[i].key in s.records && s.records[s.commits[i].key].status.Committed?
          && s.records[s.commits[i].key].payload == Some(s.commits[i].payload))
    && (forall i, j :: 0 <= i < j < |s.commits| ==> s.commits[i].key != s.commits[j].key)
    && (forall key :: key in s.records && s.records[key].status.Committed? ==> s.records[key].payload.Some?)
  }

  ghost predicate ReplyInv(s: State) {
    forall id :: id in s.calls && s.calls[id].key.Some? && s.calls[id].phase.Done? && s.calls[id].phase.outcome.Success? ==>
      HasPayload(s, s.calls[id].key.value, s.calls[id].target.tenant, s.calls[id].phase.outcome.payload)
  }

  ghost predicate RefusalInv(s: State) {
    forall id :: id in s.calls && s.calls[id].phase.Refusing? ==> !s.calls[id].phase.reply.Success?
  }

  ghost predicate Inv(s: State) {
    RefusalInv(s) && LockInv(s) && CommitInv(s) && ReplyInv(s)
  }

  /** Committed records are never changed. */
  ghost predicate KeepsCommitted(s: State, t: State) {
    forall key :: key in s.records && s.records[key].status.Committed? ==> key in t.records && t.records[key] == s.records[key]
  }

  // ---- Steps -----------------------------------------------------------------------------

  /** `t` is `s` with call `id` moved on, no record or commit touched, and no lock gained. */
  lemma MoveKeeps(s: State, id: nat, t: State)
    requires Inv(s) && id in s.calls && id in t.calls && t.calls == s.calls[id := t.calls[id]]
    requires t.now == s.now && t.records == s.records && t.commits == s.commits
    requires t.calls[id].key == s.calls[id].key && t.calls[id].target == s.calls[id].target && t.calls[id].lock == s.calls[id].lock
    requires t.calls[id].key.Some? && Active(t.calls[id].phase) ==> Active(s.calls[id].phase)
    requires t.calls[id].phase.Refusing? ==> !t.calls[id].phase.reply.Success?
    requires t.calls[id].phase.Done? && t.calls[id].phase.outcome.Success? && t.calls[id].key.Some? ==>
               HasPayload(s, t.calls[id].key.value, t.calls[id].target.tenant, t.calls[id].phase.outcome.payload)
    ensures Inv(t) && KeepsCommitted(s, t)
  {
    assert forall i :: Holds(t, i) ==> Holds(s, i);
  }

  lemma AcquireKeeps(s: State, id: nat, database: Database)
    requires Inv(s) && id in s.calls && AcquireStep(s, id, s.calls[id], database).Some?
    ensures Inv(AcquireStep(s, id, s.calls[id], database).value)
    ensures KeepsCommitted(s, AcquireStep(s, id, s.calls[id], database).value)
  {
    var c := s.calls[id];
    var t := AcquireStep(s, id, c, database).value;
    if c.key.Some? && !database.Refused? && AcquireResult(s.records, c.key.value, c.target.tenant, s.now).New? {
      NewLockKeeps(s, id, t);
    } else {
      MoveKeeps(s, id, t);
    }
  }

  lemma NewLockKeepsLocks(s: State, id: nat, t: State)
    requires LockInv(s) && id in s.calls && s.calls[id].key.Some? && !Active(s.calls[id].phase)
    requires var c := s.calls[id];
             && AcquireResult(s.records, c.key.value, c.target.tenant, s.now).New?
             && t.records == AcquireRecords(s.records, c.key.value, c.target.tenant, s.now)
    requires t.now == s.now && id in t.calls && t.calls == s.calls[id := t.calls[id]]
    requires t.calls[id].key == s.calls[id].key && t.calls[id].target == s.calls[id].target
    requires t.calls[id].lock == Some(s.now + LOCK_SECONDS) || !Active(t.calls[id].phase)
    ensures LockInv(t)
  {
    forall i | Holds(t, i) && i != id ensures Holds(s, i) && t.calls[i].key != s.calls[id].key {
    }
  }

  lemma NewLockKeeps(s: State, id: nat, t: State)
    requires Inv(s) && id in s.calls && s.calls[id].key.Some? && !Active(s.calls[id].phase)
    requires var c := s.calls[id];
             && AcquireResult(s.records, c.key.value, c.target.tenant, s.now).New?
             && t.records == AcquireRecords(s.records, c.key.value, c.target.tenant, s.now)
    requires t.now == s.now && t.commits == s.commits && id in t.calls && t.calls == s.calls[id := t.calls[id]]
    requires t.calls[id].key == s.calls[id].key && t.calls[id].target == s.calls[id].target
    requires t.calls[id].lock == Some(s.now + LOCK_SECONDS) || !Active(t.calls[id].phase)
    requires !t.calls[id].phase.Refusing? && (t.calls[id].phase.Done? ==> !t.calls[id].phase.outcome.Success?)
    ensures Inv(t) && KeepsCommitted(s, t)
  {
    NewLockKeepsLocks(s, id, t);
  }

  /** The holder of a key finishes and leaves a record behind: the other holders keep their locks. */
  lemma FinishKeepsLocks(s: State, id: nat, t: State)
    requires LockInv(s) && Holds(s, id) && id in t.calls && t.calls == s.calls[id := t.calls[id]] && !Active(t.calls[id].phase)
    requires t.now == s.now && s.calls[id].key.value in t.records
    requires t.records == s.records[s.calls[id].key.value := t.records[s.calls[id].key.value]]
    requires t.records[s.calls[id].key.value].owner == s.records[s.calls[id].key.value].owner
    ensures LockInv(t)
  {
    forall i | Holds(t, i) ensures Holds(s, i) && t.calls[i].key != s.calls[id].key {
    }
  }

  lemma CommitKeeps(s: State, id: nat)
    requires Inv(s) && id in s.calls && s.calls[id].key.Some? && s.calls[id].phase.Produced? && Holds(s, id)
    ensures Inv(CommitStep(s, id, s.calls[id], Answered).value)
    ensures KeepsCommitted(s, CommitStep(s, id, s.calls[id], Answered).value)
  {
    FinishKeepsLocks(s, id, CommitStep(s, id, s.calls[id], Answered).value);
  }

  lemma ReleaseKeeps(s: State, id: nat, database: Database)
    requires Inv(s) && id in s.calls && s.calls[id].key.Some? && s.calls[id].phase.Refusing? && Holds(s, id)
    requires !database.Refused? && (GivesBackAfterConflict(s.calls[id]) ==> database.Answered?)
    ensures Inv(ReleaseStep(s, id, s.calls[id], database).value)
    ensures KeepsCommitted(s, ReleaseStep(s, id, s.calls[id], database).value)
  {
    FinishKeepsLocks(s, id, ReleaseStep(s, id, s.calls[id], database).value);
  }

  lemma ConsumeKeeps(s: State, id: nat, database: Database, t: State)
    requires Inv(s) && id in s.calls && ConsumeStep(s, id, s.calls[id], database) == Some(t)
    ensures Inv(t) && KeepsCommitted(s, t)
  {
    MoveKeeps(s, id, t);
  }

  lemma BodyKeeps(s: State, id: nat, outcome: BodyOutcome, t: State)
    requires Inv(s) && id in s.calls && BodyStep(s, id, s.calls[id], outcome) == Some(t)
    ensures Inv(t) && KeepsCommitted(s, t)
  {
    MoveKeeps(s, id, t);
  }

  lemma RefusedWriteKeeps(s: State, id: nat, event: Event, t: State)
    requires Inv(s) && id in s.calls && CallStep(s, id, s.calls[id], event) == Some(t)
    requires event.Stops? || ((event.Commits? || event.Releases?) && event.database.Refused?)
    ensures Inv(t) && KeepsCommitted(s, t)
  {
    MoveKeeps(s, id, t);
  }

  lemma CallStepKeeps(s: State, id: nat, event: Event)
    requires Inv(s) && id in s.calls && CallStep(s, id, s.calls[id], event).Some? && Timely(s, Proceed(id, event))
    ensures Inv(CallStep(s, id, s.calls[id], event).value)
    ensures KeepsCommitted(s, CallStep(s, id, s.calls[id], event).value)
  {
    if event.Acquires? {
      AcquireKeeps(s, id, event.database);
    } else if event.Commits? && !event.database.Refused? {
      CommitKeeps(s, id);
    } else if event.Releases? && !event.database.Refused? {
      ReleaseKeeps(s, id, event.database);
    } else if event.Consumes? {
      ConsumeKeeps(s, id, event.database, CallStep(s, id, s.calls[id], event).value);
    } else if event.BodyEnds? {
      BodyKeeps(s, id, event.outcome, CallStep(s, id, s.calls[id], event).value);
    } else {
      RefusedWriteKeeps(s, id, event, CallStep(s, id, s.calls[id], event).value);
    }
  }

  lemma StepKeeps(s: State, a: Action)
    requires Inv(s) && Step(s, a).Some? && Timely(s, a)
    ensures Inv(Step(s, a).value) && KeepsCommitted(s, Step(s, a).value)
  {
    var t := Step(s, a).value;
    match a
    case Proceed(call, event) => CallStepKeeps(s, call, event);
    case Ask(_, _, _, _) => assert forall i :: Holds(t, i) ==> Holds(s, i);
    case Issue(_, _) => assert forall i :: Holds(t, i) ==> Holds(s, i);
    case Pass(_) => assert forall i :: Holds(t, i) ==> Holds(s, i);
  }

  lemma {:induction false} RunKeeps(s: State, actions: seq<Action>, t: State)
    requires Inv(s) && TimelyRun(s, actions, t)
    ensures Inv(t) && KeepsCommitted(s, t)
    decreases |actions|
  {
    if actions != [] {
      StepKeeps(s, actions[0]);
      RunKeeps(Step(s, actions[0]).value, actions[1..], t);
    }
  }

  // ---- Theorems --------------------------------------------------------------------------

  /** Within the life of their locks, two running tools never share a key. */
  lemma OneRunningToolPerKey(actions: seq<Action>, s: State, i: nat, j: nat)
    requires TimelyRun(Initial, actions, s)
    requires i in s.calls && j in s.calls && s.calls[i].key.Some? && s.calls[i].key == s.calls[j].key
    requires s.calls[i].phase.Running? && s.calls[j].phase.Running?
    ensures s.calls[i].lock.Some? && s.calls[j].lock.Some?
    ensures s.calls[i].lock.value > s.now && s.calls[j].lock.value > s.now ==> i == j
  {
    RunKeeps(Initial, actions, s);
    assert Holds(s, i) && Holds(s, j) ==> i == j;
  }

  /** A key is committed at most once, and every success any call reports for it carries that payload. */
  lemma OneCommitPerKey(actions: seq<Action>, s: State, i: nat, j: nat)
    requires TimelyRun(Initial, actions, s) && i < |s.commits| && j < |s.commits| && s.commits[i].key == s.commits[j].key
    ensures i == j
    ensures forall id :: id in s.calls && s.calls[id].key == Some(s.commits[i].key) && s.calls[id].phase.Done? ==>
              (s.calls[id].phase.outcome.Success? ==> s.calls[id].phase.outcome.payload == s.commits[i].payload)
  {
    RunKeeps(Initial, actions, s);
  }

  /**
   Once a key is committed, every later call its tenant makes with it is answered with that payload, and
   neither starts the tool nor looks at the confirmation token, spent or not.
   */
  lemma RetryGetsTheCommittedPayload(before: seq<Action>, s: State, after: seq<Action>, t: State, id: nat, key: Key, payload: Payload)
    requires TimelyRun(Initial, before, s) && TimelyRun(s, after, t)
    requires id in t.calls && t.calls[id].key == Some(key) && t.calls[id].phase.Asked?
    requires HasPayload(s, key, t.calls[id].target.tenant, payload)
    ensures Step(t, Proceed(id, Acquires(Answered))) == Some(Moved(t, id, t.calls[id], Done(Success(payload))))
  {
    RunKeeps(Initial, before, s);
    RunKeeps(s, after, t);
    CommittedKeyAnswers(t, id, key, payload);
  }

  lemma CommittedKeyAnswers(t: State, id: nat, key: Key, payload: Payload)
    requires id in t.calls && t.calls[id].key == Some(key) && t.calls[id].phase.Asked?
    requires HasPayload(t, key, t.calls[id].target.tenant, payload)
    ensures Step(t, Proceed(id, Acquires(Answered))) == Some(Moved(t, id, t.calls[id], Done(Success(payload))))
  {
  }

  // ---- Exactly when a committed record is lost -----------------------------------------------

  /** A commit of another payload, or a release, of a call that holds this key reaches the committed record. */
  predicate Disturbs(s: State, a: Action, key: Key) {
    && a.Proceed? && a.call in s.calls && s.calls[a.call].key == Some(key) && Visible(s.records, key, s.calls[a.call].target.tenant)
    && match a.event
       case Commits(database) =>
         !database.Refused? && s.calls[a.call].phase.Produced? && s.records[key].payload != Some(s.calls[a.call].phase.payload)
       case Releases(database) => !database.Refused? && s.calls[a.call].phase.Refusing?
       case Acquires(_) => false
       case Consumes(_) => false
       case BodyEnds(_) => false
       case Stops => false
  }

  lemma CallChangesCommittedExactlyByDisturbing(s: State, id: nat, event: Event, t: State, key: Key)
    requires id in s.calls && CallStep(s, id, s.calls[id], event) == Some(t) && key in s.records && s.records[key].status.Committed?
    ensures key in t.records && (t.records[key] != s.records[key] <==> Disturbs(s, Proceed(id, event), key))
  {
  }

  /** In any state, with no assumption at all, a step changes a committed record exactly when it disturbs it. */
  lemma ACommittedRecordChangesExactlyByADisturbance(s: State, a: Action, t: State, key: Key)
    requires Step(s, a) == Some(t) && key in s.records && s.records[key].status.Committed?
    ensures key in t.records && (t.records[key] != s.records[key] <==> Disturbs(s, a, key))
  {
    if a.Proceed? {
      CallChangesCommittedExactlyByDisturbing(s, a.call, a.event, t, key);
    }
  }

  /** After a timely run, a call that could still disturb a committed record has overrun its lock. */
  lemma OnlyALateCallDisturbs(before: seq<Action>, s: State, a: Action, key: Key)
    requires TimelyRun(Initial, before, s) && key in s.records && s.records[key].status.Committed? && Disturbs(s, a, key)
    ensures s.calls[a.call].lock.Some? && s.calls[a.call].lock.value <= s.now
  {
    RunKeeps(Initial, before, s);
    assert !Holds(s, a.call);
  }

  /** The other source: a raising commit is about to be undone exactly when it took effect. */
  lemma ARaisingCommitIsUndoneExactlyIfApplied(before: seq<Action>, s: State, id: nat, database: Database, t: State)
    requires TimelyRun(Initial, before, s) && Holds(s, id) && s.calls[id].phase.Produced? && !database.Answered?
    requires Step(s, Proceed(id, Commits(database))) == Some(t)
    ensures var key := s.calls[id].key.value;
            key in t.records && (t.records[key].status.Committed? <==> database.AnswerLost?)
            && (t.records[key].status.Committed? ==> Disturbs(t, Proceed(id, Releases(Answered)), key))
  {
    RunKeeps(Initial, before, s);
  }

  /**
   The third source: in any state, a conflict release that raises leaves a second release pending, and it has
   already given the record back exactly if it took effect.
   */
  lemma ARaisingConflictReleaseIsRepeated(s: State, id: nat, database: Database, t: State)
    requires id in s.calls && GivesBackAfterConflict(s.calls[id]) && s.calls[id].key.Some? && !database.Answered?
    requires Visible(s.records, s.calls[id].key.value, s.calls[id].target.tenant)
    requires Step(s, Proceed(id, Releases(database))) == Some(t)
    ensures id in t.calls && t.calls[id] == s.calls[id].(phase := Refusing(ExecutionError))
    ensures t.records == if database.AnswerLost? then s.records[s.calls[id].key.value := s.records[s.calls[id].key.value].(status := Refunded)]
                         else s.records
  {
  }

  /** Another call than `id` acquires or commits the key in this step. */
  predicate TakenBy(s: State, a: Action, key: Key, id: nat) {
    && a.Proceed? && a.call in s.calls && a.call != id && s.calls[a.call].key == Some(key)
    && ((a.event.Acquires? && !a.event.database.Refused? && s.calls[a.call].phase.Asked?
         && AcquireResult(s.records, key, s.calls[a.call].target.tenant, s.now).New?)
        || (a.event.Commits? && !a.event.database.Refused? && s.calls[a.call].phase.Produced?
            && Visible(s.records, key, s.calls[a.call].target.tenant)))
  }

  ghost predicate EverTaken(s: State, actions: seq<Action>, key: Key, id: nat)
    decreases |actions|
  {
    actions != [] && Step(s, actions[0]).Some?
    && (TakenBy(s, actions[0], key, id) || EverTaken(Step(s, actions[0]).value, actions[1..], key, id))
  }

  /** The call has nothing left to do but to give its lock back. */
  predicate Leaving(s: State, id: nat) {
    id in s.calls && (s.calls[id].phase.Refusing? || s.calls[id].phase.Done?)
  }

  lemma CallKeepsOwners(s: State, id: nat, event: Event, t: State, key: Key)
    requires id in s.calls && CallStep(s, id, s.calls[id], event) == Some(t) && key in s.records
    ensures key in t.records && t.records[key].owner == s.records[key].owner
  {
  }

  lemma CallStaysLeaving(s: State, call: nat, event: Event, t: State, id: nat)
    requires call in s.calls && CallStep(s, call, s.calls[call], event) == Some(t) && Leaving(s, id)
    ensures Leaving(t, id)
  {
  }

  lemma CallTakesARefundedRecord(s: State, call: nat, event: Event, t: State, key: Key, id: nat)
    requires call in s.calls && CallStep(s, call, s.calls[call], event) == Some(t) && Leaving(s, id)
    requires key in s.records && s.records[key].status.Refunded? && key in t.records && !t.records[key].status.Refunded?
    ensures TakenBy(s, Proceed(call, event), key, id)
  {
  }

  /** Records keep their owner, a leaving call leaves, and a refunded record changes only by being taken. */
  lemma StepTakesARefundedRecord(s: State, a: Action, t: State, key: Key, id: nat)
    requires Step(s, a) == Some(t) && key in s.records && Leaving(s, id)
    ensures key in t.records && t.records[key].owner == s.records[key].owner && Leaving(t, id)
    ensures s.records[key].status.Refunded? && !t.records[key].status.Refunded? ==> TakenBy(s, a, key, id)
  {
    if a.Proceed? {
      CallKeepsOwners(s, a.call, a.event, t, key);
      CallStaysLeaving(s, a.call, a.event, t, id);
      if s.records[key].status.Refunded? && !t.records[key].status.Refunded? {
        CallTakesARefundedRecord(s, a.call, a.event, t, key, id);
      }
    }
  }

  lemma {:induction false} RefundedUntilTaken(s: State, actions: seq<Action>, t: State, key: Key, id: nat)
    requires Reaches(s, actions, t) && key in s.records && Leaving(s, id)
    ensures key in t.records && t.records[key].owner == s.records[key].owner
    ensures s.records[key].status.Refunded? && !t.records[key].status.Refunded? ==> EverTaken(s, actions, key, id)
    decreases |actions|
  {
    if actions != [] {
      StepTakesARefundedRecord(s, actions[0], Step(s, actions[0]).value, key, id);
      RefundedUntilTaken(Step(s, actions[0]).value, actions[1..], t, key, id);
    }
  }

  /**
   After a conflict release that took effect and raised, whatever happens in between, the second release
   changes the record exactly if it is then acquired or committed, and it is so only if another call has
   taken the key in between: that call's lock or committed payload is lost, and the next call acquires.
   */
  lemma TheSecondReleaseTakesExactlyWhatAnotherCallTook(s: State, id: nat, key: Key, t: State, between: seq<Action>, u: State,
                                                        database: Database, v: State)
    requires id in s.calls && GivesBackAfterConflict(s.calls[id]) && s.calls[id].key == Some(key)
    requires Visible(s.records, key, s.calls[id].target.tenant)
    requires Step(s, Proceed(id, Releases(AnswerLost))) == Some(t) && Reaches(t, between, u)
    requires id in u.calls && u.calls[id] == t.calls[id]
    requires !database.Refused? && Step(u, Proceed(id, Releases(database))) == Some(v)
    ensures key in u.records && key in v.records
    ensures v.records[key] != u.records[key] <==> u.records[key].status.Acquired? || u.records[key].status.Committed?
    ensures v.records[key] != u.records[key] ==> EverTaken(t, between, key, id)
    ensures AcquireResult(v.records, key, u.calls[id].target.tenant, v.now).New?
  {
    ARaisingConflictReleaseIsRepeated(s, id, AnswerLost, t);
    RefundedUntilTaken(t, between, u, key, id);
  }

  /** The record under `key` is the same in every state of the run. */
  ghost predicate Untouched(s: State, actions: seq<Action>, key: Key, record: Record)
    decreases |actions|
  {
    && key in s.records && s.records[key] == record
    && (actions != [] && Step(s, actions[0]).Some? ==> Untouched(Step(s, actions[0]).value, actions[1..], key, record))
  }

  ghost predicate EverDisturbed(s: State, actions: seq<Action>, key: Key)
    decreases |actions|
  {
    actions != [] && Step(s, actions[0]).Some?
    && (Disturbs(s, actions[0], key) || EverDisturbed(Step(s, actions[0]).value, actions[1..], key))
  }

  /** Over any run at all, a committed record stays untouched exactly when no step disturbs it. */
  lemma {:induction false} CommittedRecordsStayExactlyUnlessDisturbed(s: State, actions: seq<Action>, t: State, key: Key)
    requires Reaches(s, actions, t) && key in s.records && s.records[key].status.Committed?
    ensures Untouched(s, actions, key, s.records[key]) <==> !EverDisturbed(s, actions, key)
    decreases |actions|
  {
    if actions != [] {
      var next := Step(s, actions[0]).value;
      ACommittedRecordChangesExactlyByADisturbance(s, actions[0], next, key);
      if next.records[key] == s.records[key] {
        CommittedRecordsStayExactlyUnlessDisturbed(next, actions[1..], t, key);
      }
    }
  }

  // ---- Exactly when a running tool is joined by another --------------------------------------

  /** The step starts the tool of call `j`. */
  predicate StartsTool(s: State, a: Action, t: State, j: nat) {
    |t.starts| > |s.starts| && t.starts[|t.starts| - 1].call == j && a.Proceed? && a.call == j
    && j in s.calls && j in t.calls && t.calls[j].phase.Running? && t.calls[j].key == s.calls[j].key
  }

  /** In every timely run, whenever a second tool starts under the key of a running one, one of the two locks has lapsed. */
  lemma ASecondToolStartsOnlyPastALock(before: seq<Action>, s: State, a: Action, t: State, i: nat, j: nat)
    requires TimelyRun(Initial, before, s) && Step(s, a) == Some(t) && StartsTool(s, a, t, j)
    requires i in t.calls && t.calls[i].phase.Running? && t.calls[i].key.Some? && t.calls[i].key == t.calls[j].key && i != j
    ensures t.calls[i].lock.Some? && t.calls[j].lock.Some?
    ensures t.calls[i].lock.value <= t.now || t.calls[j].lock.value <= t.now
  {
    RunKeeps(Initial, before, s);
    StartingIsTimely(s, a, t, j);
    StepKeeps(s, a);
    assert Holds(t, i) && Holds(t, j) ==> i == j;
  }

  lemma StartingIsTimely(s: State, a: Action, t: State, j: nat)
    requires Step(s, a) == Some(t) && StartsTool(s, a, t, j)
    ensures Timely(s, a)
  {
  }

  /**
   In every timely run, a call that needs no confirmation joins a running tool of its key by acquiring the
   lock exactly when the running one's lock has lapsed and the record has been given back or run out; with
   the running call's own record in place, exactly when that lock has lapsed.
   */
  lemma ARunningToolIsJoinedExactlyPastItsLock(before: seq<Action>, s: State, i: nat, j: nat, t: State)
    requires TimelyRun(Initial, before, s)
    requires i in s.calls && s.calls[i].phase.Running? && s.calls[i].key.Some?
    requires j in s.calls && s.calls[j].phase.Asked? && s.calls[j].key == s.calls[i].key && s.calls[j].token.None?
    requires s.calls[j].target.tenant == s.calls[i].target.tenant
    requires Step(s, Proceed(j, Acquires(Answered))) == Some(t)
    ensures s.calls[i].key.value in s.records && s.calls[i].lock.Some?
    ensures var record, lock := s.records[s.calls[i].key.value], s.calls[i].lock.value;
            && (t.calls[j].phase.Running? <==>
                  lock <= s.now && (record.status.Refunded? || (record.status.Acquired? && record.expiresAt <= s.now)))
            && (record.status.Acquired? && record.expiresAt == lock ==> (t.calls[j].phase.Running? <==> lock <= s.now))
  {
    RunKeeps(Initial, before, s);
    assert s.calls[i].lock.value > s.now ==> Holds(s, i);
  }
}
