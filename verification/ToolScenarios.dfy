/**
 Runs that show what idempotency records do not promise: neither commit nor release looks at the record,
 and a lock that has lapsed does not stop its tool.
 */
module ToolScenarios {
  import opened Common
  import opened IdempotencyLedger
  import opened ToolExecution
  import opened ToolExactlyOnce

  const Slot := Target(0, "book_event", "", None)

  /** Every database call the run makes is answered. */
  predicate AllAnswered(run: seq<Action>) {
    forall i :: 0 <= i < |run| ==> IsAnswered(run[i])
  }

  predicate IsAnswered(a: Action) {
    a.Proceed? ==> match a.event
                   case Acquires(database) => database.Answered?
                   case Consumes(database) => database.Answered?
                   case Commits(database) => database.Answered?
                   case Releases(database) => database.Answered?
                   case BodyEnds(_) => true
                   case Stops => true
  }

  /** One more step; punctual and timely runs stay so when the step is. */
  lemma Then(run: seq<Action>, m: State, a: Action) returns (longer: seq<Action>, t: State)
    requires Reaches(Initial, run, m) && Step(m, a).Some?
    ensures t == Step(m, a).value && Reaches(Initial, longer, t)
    ensures AllAnswered(run) && IsAnswered(a) ==> AllAnswered(longer)
    ensures PunctualRun(Initial, run, m) && Punctual(m, a) ==> PunctualRun(Initial, longer, t)
    ensures TimelyRun(Initial, run, m) && Timely(m, a) ==> TimelyRun(Initial, longer, t)
  {
    ReachesSnoc(Initial, run, m, a);
    longer, t := run + [a], Step(m, a).value;
    if PunctualRun(Initial, run, m) && Punctual(m, a) {
      PunctualSnoc(Initial, run, m, a);
    }
    if TimelyRun(Initial, run, m) && Timely(m, a) {
      TimelySnoc(Initial, run, m, a);
    }
  }

  /** Call `id` asks with key 7 and starts its tool. */
  lemma AsksAndStarts(run: seq<Action>, s: State, id: nat) returns (longer: seq<Action>, t: State)
    requires Reaches(Initial, run, s) && id !in s.calls && AcquireResult(s.records, 7, 0, s.now).New?
    ensures Reaches(Initial, longer, t) && (AllAnswered(run) ==> AllAnswered(longer))
    ensures PunctualRun(Initial, run, s) ==> PunctualRun(Initial, longer, t)
    ensures TimelyRun(Initial, run, s) ==> TimelyRun(Initial, longer, t)
    ensures t == Begun(s, id)
  {
    var asked := s.(calls := s.calls[id := Call(Slot, Some(7), None, None, Asked)]);
    assert Step(s, Ask(id, Slot, Some(7), None)) == Some(asked);
    longer, t := Then(run, s, Ask(id, Slot, Some(7), None));
    assert Step(asked, Proceed(id, Acquires(Answered))) == Some(Begun(s, id)) by { AcquireStarts(asked, s, id); }
    longer, t := Then(longer, asked, Proceed(id, Acquires(Answered)));
  }

  function Begun(s: State, id: nat): State {
    s.(records := s.records[7 := Record(0, Acquired, None, s.now + LOCK_SECONDS)],
       calls := s.calls[id := Call(Slot, Some(7), None, Some(s.now + LOCK_SECONDS), Running)],
       starts := s.starts + [Start(id, None, Slot, s.now)])
  }

  lemma AcquireStarts(asked: State, s: State, id: nat)
    requires asked == s.(calls := s.calls[id := Call(Slot, Some(7), None, None, Asked)])
    requires AcquireResult(s.records, 7, 0, s.now).New?
    ensures AcquireStep(asked, id, asked.calls[id], Answered) == Some(Begun(s, id))
  {
    assert AcquireStep(asked, id, asked.calls[id], Answered).value.calls == Begun(s, id).calls;
  }

  lemma {:induction false} ReachesSnoc(s: State, actions: seq<Action>, m: State, a: Action)
    requires Reaches(s, actions, m) && Step(m, a).Some?
    ensures Reaches(s, actions + [a], Step(m, a).value)
    decreases |actions|
  {
    if actions == [] {
      assert [a][1..] == [];
    } else {
      ReachesSnoc(Step(s, actions[0]).value, actions[1..], m, a);
      assert (actions + [a])[1..] == actions[1..] + [a];
    }
  }

  lemma {:induction false} PunctualSnoc(s: State, actions: seq<Action>, m: State, a: Action)
    requires PunctualRun(s, actions, m) && Punctual(m, a) && Step(m, a).Some?
    ensures PunctualRun(s, actions + [a], Step(m, a).value)
    decreases |actions|
  {
    if actions == [] {
      assert [a][1..] == [];
    } else {
      PunctualSnoc(Step(s, actions[0]).value, actions[1..], m, a);
      assert (actions + [a])[1..] == actions[1..] + [a];
    }
  }

  lemma {:induction false} TimelySnoc(s: State, actions: seq<Action>, m: State, a: Action)
    requires TimelyRun(s, actions, m) && Timely(m, a) && Step(m, a).Some?
    ensures TimelyRun(s, actions + [a], Step(m, a).value)
    decreases |actions|
  {
    if actions == [] {
      assert [a][1..] == [];
    } else {
      TimelySnoc(Step(s, actions[0]).value, actions[1..], m, a);
      assert (actions + [a])[1..] == actions[1..] + [a];
    }
  }

  /** The tool of call `id` returns and its commit is answered. */
  lemma Finishes(run: seq<Action>, s: State, id: nat, payload: Payload) returns (longer: seq<Action>, t: State)
    requires Reaches(Initial, run, s) && id in s.calls && Visible(s.records, 7, 0)
    requires s.calls[id].target == Slot && s.calls[id].key == Some(7) && s.calls[id].phase.Running? && s.calls[id].lock.Some?
    ensures Reaches(Initial, longer, t) && (AllAnswered(run) ==> AllAnswered(longer))
    ensures PunctualRun(Initial, run, s) && s.now < s.calls[id].lock.value ==> PunctualRun(Initial, longer, t)
    ensures t == s.(records := s.records[7 := s.records[7].(status := Committed, payload := Some(payload))],
                    calls := s.calls[id := s.calls[id].(phase := Done(Success(payload)))],
                    commits := s.commits + [CommitEntry(7, payload)])
  {
    var returned := s.(calls := s.calls[id := s.calls[id].(phase := Produced(payload))]);
    longer, t := Then(run, s, Proceed(id, BodyEnds(Returns(payload))));
    assert t == returned;
    longer, t := Then(longer, t, Proceed(id, Commits(Answered)));
    assert t.calls == s.calls[id := s.calls[id].(phase := Done(Success(payload)))];
  }

  /** Its commit takes effect, but the answer is lost, and the handler gives the lock back. */
  lemma FinishesUnanswered(run: seq<Action>, s: State, id: nat, payload: Payload) returns (longer: seq<Action>, t: State)
    requires Reaches(Initial, run, s) && id in s.calls && Visible(s.records, 7, 0)
    requires s.calls[id].target == Slot && s.calls[id].key == Some(7) && s.calls[id].phase.Running?
    ensures Reaches(Initial, longer, t) && Visible(t.records, 7, 0) && t.records[7].status.Refunded?
    ensures t.now == s.now && t.starts == s.starts && t.commits == s.commits + [CommitEntry(7, payload)]
    ensures t.calls.Keys == s.calls.Keys
  {
    longer, t := Then(run, s, Proceed(id, BodyEnds(Returns(payload))));
    longer, t := Then(longer, t, Proceed(id, Commits(AnswerLost)));
    longer, t := Then(longer, t, Proceed(id, Releases(Answered)));
  }

  /** A commit applied without an answer is undone by the handler's release, so a retry books a second time. */
  lemma UnansweredCommitRunsTheToolTwice() returns (run: seq<Action>, t: State)
    ensures Reaches(Initial, run, t)
    ensures t.commits == [CommitEntry(7, 1), CommitEntry(7, 2)] && |t.starts| == 2 && t.now == 0
  {
    run, t := AsksAndStarts([], Initial, 0);
    run, t := FinishesUnanswered(run, t, 0, 1);
    run, t := AsksAndStarts(run, t, 1);
    run, t := Finishes(run, t, 1, 2);
  }

  /** Call 0 starts its tool, its lock runs out, and call 1 starts another one. */
  lemma TheSlowToolIsJoined() returns (run: seq<Action>, t: State)
    ensures Reaches(Initial, run, t) && AllAnswered(run) && TimelyRun(Initial, run, t)
    ensures t == Begun(Begun(Initial, 0).(now := 60), 1)
  {
    run, t := AsksAndStarts([], Initial, 0);
    run, t := Then(run, t, Pass(60));
    run, t := AsksAndStarts(run, t, 1);
  }

  /** A tool that outlives its lock is joined by a second one, and both commit, all queries answered. */
  lemma SlowToolIsJoinedByAnother() returns (run: seq<Action>, t: State)
    ensures Reaches(Initial, run, t)
    ensures t.commits == [CommitEntry(7, 2), CommitEntry(7, 1)] && |t.starts| == 2 && AllAnswered(run)
  {
    run, t := TheSlowToolIsJoined();
    run, t := Finishes(run, t, 1, 2);
    run, t := Finishes(run, t, 0, 1);
  }

  /** Even in a timely run two tools can be running under one key: nothing stops the tool whose lock has lapsed. */
  lemma TwoToolsRunInATimelyRun() returns (run: seq<Action>, t: State)
    ensures TimelyRun(Initial, run, t)
    ensures 0 in t.calls && 1 in t.calls && t.calls[0].key == t.calls[1].key == Some(7)
    ensures t.calls[0].phase.Running? && t.calls[1].phase.Running?
  {
    run, t := TheSlowToolIsJoined();
  }

  // ---- A conflict that is released twice -----------------------------------------------------

  /** After `s`, the tool of call 0 reported a conflict, and its release took effect without an answer. */
  function HalfReleased(s: State): State {
    s.(records := s.records[7 := Record(0, Refunded, None, LOCK_SECONDS)],
       calls := s.calls[0 := Call(Slot, Some(7), None, Some(LOCK_SECONDS), Refusing(ExecutionError))])
  }

  lemma AConflictIsHalfReleased() returns (run: seq<Action>, t: State)
    ensures PunctualRun(Initial, run, t) && Reaches(Initial, run, t) && t == HalfReleased(Begun(Initial, 0))
  {
    run, t := AsksAndStarts([], Initial, 0);
    run, t := Then(run, t, Proceed(0, BodyEnds(Conflicts)));
    run, t := Then(run, t, Proceed(0, Releases(AnswerLost)));
    assert t.calls == HalfReleased(Begun(Initial, 0)).calls;
    assert t.records == HalfReleased(Begun(Initial, 0)).records;
  }

  /** The handler's release gives back whatever record is there. */
  lemma TheHandlerReleases(run: seq<Action>, s: State) returns (longer: seq<Action>, t: State)
    requires PunctualRun(Initial, run, s) && Reaches(Initial, run, s) && Visible(s.records, 7, 0) && s.now < LOCK_SECONDS
    requires 0 in s.calls && s.calls[0] == Call(Slot, Some(7), None, Some(LOCK_SECONDS), Refusing(ExecutionError))
    ensures PunctualRun(Initial, longer, t) && Reaches(Initial, longer, t)
    ensures t == s.(records := s.records[7 := s.records[7].(status := Refunded)],
                    calls := s.calls[0 := s.calls[0].(phase := Done(ExecutionError))])
  {
    longer, t := Then(run, s, Proceed(0, Releases(Answered)));
  }

  /**
   Call 0 releases a conflict, call 1 acquires and starts, call 0 releases again, and call 2 starts: two tools
   run under one key and live locks, with nobody late and every commit clear.
   */
  lemma AConflictReleasedTwiceFreesALiveLock() returns (run: seq<Action>, t: State)
    ensures PunctualRun(Initial, run, t) && t.now == 0
    ensures 1 in t.calls && 2 in t.calls && t.calls[1].key == t.calls[2].key == Some(7)
    ensures t.calls[1].phase.Running? && t.calls[2].phase.Running? && t.calls[1].lock == t.calls[2].lock == Some(60)
  {
    run, t := AConflictIsHalfReleased();
    run, t := AsksAndStarts(run, t, 1);
    run, t := TheHandlerReleases(run, t);
    run, t := AsksAndStarts(run, t, 2);
  }

  /** When call 1 has committed by then, its payload is lost as well, and call 2 commits another one. */
  lemma AConflictReleasedTwiceUndoesACommit() returns (run: seq<Action>, t: State)
    ensures PunctualRun(Initial, run, t) && t.now == 0
    ensures t.commits == [CommitEntry(7, 1), CommitEntry(7, 2)]
  {
    run, t := AConflictIsHalfReleased();
    run, t := AsksAndStarts(run, t, 1);
    run, t := Finishes(run, t, 1, 1);
    run, t := TheHandlerReleases(run, t);
    run, t := AsksAndStarts(run, t, 2);
    run, t := Finishes(run, t, 2, 2);
  }
}
