/**
 Concrete runs that mark the limits of the protocol: what its unguarded result write and its two-step
 provider write do not promise.
 */
module BookingScenarios {
  import opened Common
  import opened BookingQueue
  import opened BookingWorker
  import opened BookingProtocol

  const TheKey := Key("acme", "k")
  const TheBody := Payload("Demo", 0, 30, "")

  lemma {:induction false} ReachesSnoc(s: State, actions: seq<Action>, m: State, a: Action)
    requires Reaches(s, actions, m) && Step(m, a).Some?
    ensures Reaches(s, actions + [a], Step(m, a).value)
    decreases |actions|
  {
    if actions == [] {
      assert [a][1..] == [];
    } else {
      ReachesSnoc(Step(s, actions[0]).value, actions[1..], m, a);
      assert (actions + [a])[1..] == actions[1..] + [a];
    }
  }

  /** The booking took effect, but its response was lost, so the client queued a row for it. */
  lemma QueuedAfterLostResponse() returns (run: seq<Action>, s: State)
    ensures Reaches(Initial, run, s)
    ensures s.now == 0.0 && s.workers == map[] && s.rows == map[TheKey := Row(TheBody, Pending, 0, None, 0.0, 0.0, None)]
    ensures FromKey(TheKey) in s.events && !s.events[FromKey(TheKey)].cancelled
  {
    run, s := [], Initial;
    run, s := Then(Initial, run, s, ByClient(0, Begin(TheKey, TheBody, 0)));
    run, s := Then(Initial, run, s, ByBroker(0, Check(None)));
    run, s := Then(Initial, run, s, ByBroker(0, Insert(InsertUnconfirmed(true, BookUnavailable))));
    run, s := Then(Initial, run, s, ByClient(0, TakeReply));
    run, s := Then(Initial, run, s, ByClient(0, QueueRow));
  }

  lemma Then(s: State, run: seq<Action>, m: State, a: Action) returns (longer: seq<Action>, t: State)
    requires Reaches(s, run, m) && Step(m, a).Some?
    ensures longer == run + [a] && t == Step(m, a).value && Reaches(s, longer, t)
  {
    ReachesSnoc(s, run, m, a);
    longer, t := run + [a], Step(m, a).value;
  }

  /** A cancelled row does not mean that no event exists. */
  lemma CancelledRowMayHaveAnEvent() returns (run: seq<Action>, t: State)
    ensures Reaches(Initial, run, t)
    ensures TheKey in t.rows && t.rows[TheKey].status.Cancelled?
    ensures FromKey(TheKey) in t.events && !t.events[FromKey(TheKey)].cancelled
  {
    run, t := QueuedAfterLostResponse();
    run, t := Then(Initial, run, t, CancelRequest(TheKey));
  }

  /** Worker 0 has decided to reschedule, but its lease runs out before it writes; worker 1 takes the row over. */
  lemma SlowWorkerIsReplaced() returns (run: seq<Action>, s: State)
    ensures Reaches(Initial, run, s)
    ensures 0 in s.workers && s.workers[0].job.key == TheKey && s.workers[0].phase.Writing? && s.workers[0].phase.write.status.Pending?
    ensures 1 in s.workers && s.workers[1].job.key == TheKey && s.workers[1].phase.AskStatus?
    ensures TheKey in s.rows && FromKey(TheKey) in s.events && !s.events[FromKey(TheKey)].cancelled
  {
    run, s := QueuedAfterLostResponse();
    run, s := Then(Initial, run, s, ByWorker(0, Claim(TheKey)));
    run, s := Then(Initial, run, s, ByWorker(0, Work(HearStatus(StatusUnavailable, 0.0))));
    run, s := Then(Initial, run, s, Tick(121.0));
    run, s := Then(Initial, run, s, ByWorker(1, Claim(TheKey)));
  }

  /** Without the lease assumption a slow worker takes a completed row back to pending. */
  lemma StaleStoreUndoesCompletion() returns (run: seq<Action>, m: State, more: seq<Action>, t: State)
    ensures Reaches(Initial, run, m) && TheKey in m.rows && m.rows[TheKey].status.Completed?
    ensures Reaches(m, more, t) && TheKey in t.rows && t.rows[TheKey].status.Pending?
  {
    run, m := SlowWorkerIsReplaced();
    run, m := Then(Initial, run, m, ByWorker(1, Work(HearStatus(StatusConfirmed(FromKey(TheKey)), 0.0))));
    run, m := Then(Initial, run, m, ByWorker(1, Work(StoreResult)));
    more, t := Then(m, [], m, ByWorker(0, Work(StoreResult)));
  }

  /**
   Even one worker well within its lease does it, when the write of `completed` takes effect but its
   statement raises: the handler catches that and writes `pending` over it.
   */
  lemma AmbiguousStoreUndoesCompletion() returns (run: seq<Action>, m: State, more: seq<Action>, t: State)
    ensures Reaches(Initial, run, m) && TheKey in m.rows && m.rows[TheKey].status.Completed?
    ensures Reaches(m, more, t) && TheKey in t.rows && t.rows[TheKey].status.Pending? && t.now == 0.0
  {
    run, m := QueuedAfterLostResponse();
    run, m := Then(Initial, run, m, ByWorker(0, Claim(TheKey)));
    run, m := Then(Initial, run, m, ByWorker(0, Work(HearStatus(StatusConfirmed(FromKey(TheKey)), 0.0))));
    run, m := Then(Initial, run, m, ByWorker(0, Work(StoreFails(true, 0.0))));
    more, t := Then(m, [], m, ByWorker(0, Work(StoreResult)));
  }
}
