/**
 Which booking a request key stands for.  The agent's `_stable_write_key` (agent/agent.py) hands out one
 key per logical action; the protocol then carries that action's details from the key to the event.
 */
module BookingRequests {
  import opened Common
  import opened BookingQueue
  import opened BookingWorker
  import opened BookingProtocol
  import Safety = BookingSafety

  /** Tool name and parameters; two actions are equal when their canonical JSON is. */
  datatype LogicalAction = LogicalAction(tool: string, title: string, startText: string, duration: nat, extra: string)

  /** `book_event` builds the same payload from the same action: the session fixes company and time zone. */
  function PayloadOf(action: LogicalAction, parse: string -> int): Payload {
    Payload(action.title, parse(action.startText), action.duration, action.extra)
  }

  ghost predicate Injective(keys: map<LogicalAction, Key>) {
    forall a, b :: a in keys && b in keys && keys[a] == keys[b] ==> a == b
  }

  class AgentKeys {
    var keys: map<LogicalAction, Key>

    constructor ()
      ensures keys == map[] && Injective(keys)
    {
      keys := map[];
    }

    /** `newKey` is a new UUID; it was never handed out before. */
    method StableWriteKey(action: LogicalAction, newKey: Key) returns (key: Key)
      requires Injective(keys) && newKey !in keys.Values
      modifies this
      ensures Injective(keys)
      ensures action in keys && key == keys[action]
      ensures action in old(keys) ==> keys == old(keys)
      ensures action !in old(keys) ==> keys == old(keys)[action := newKey]
    {
      if action !in keys {
        keys := keys[action := newKey];
      }
      key := keys[action];
    }
  }

  // ---- Every copy of a request agrees with its key ---------------------------------------

  /** The payload each key stands for. */
  type Plan = map<Key, Payload>

  /** The plan of an agent's keys: one payload per key handed out. */
  ghost function PlanOf(keys: map<LogicalAction, Key>, parse: string -> int): Plan {
    map key | key in keys.Values :: PayloadOf(ActionOf(keys, key), parse)
  }

  ghost function ActionOf(keys: map<LogicalAction, Key>, key: Key): (action: LogicalAction)
    requires key in keys.Values
    ensures action in keys && keys[action] == key
  {
    var action :| action in keys && keys[action] == key;
    action
  }

  lemma PlanAgrees(keys: map<LogicalAction, Key>, parse: string -> int, action: LogicalAction)
    requires Injective(keys) && action in keys
    ensures keys[action] in PlanOf(keys, parse) && PlanOf(keys, parse)[keys[action]] == PayloadOf(action, parse)
  {
    assert keys[action] in keys.Values;
  }

  /** Under a key of the plan only its own payload will do; other keys are somebody else's. */
  predicate Fits(plan: Plan, key: Key, body: Payload) {
    key in plan ==> plan[key] == body
  }

  /** Whoever asks under a key of the plan asks for what that key stands for; all other requests are free. */
  predicate Planned(plan: Plan, a: Action) {
    a.ByClient? && a.clientAction.Begin? ==> Fits(plan, a.clientAction.key, a.clientAction.body)
  }

  ghost predicate PlannedRun(plan: Plan, s: State, actions: seq<Action>, t: State)
    decreases |actions|
  {
    if actions == [] then s == t
    else
      && Step(s, actions[0]).Some? && Planned(plan, actions[0])
      && PlannedRun(plan, Step(s, actions[0]).value, actions[1..], t)
  }

  ghost predicate PlanInv(plan: Plan, s: State) {
    && (forall k :: k in s.rows ==> Fits(plan, k, s.rows[k].payload))
    && (forall c :: c in s.calls ==> Fits(plan, s.calls[c].key, s.calls[c].body))
    && (forall c :: c in s.clients ==> Fits(plan, s.clients[c].key, s.clients[c].body))
    && (forall w :: w in s.workers ==> Fits(plan, s.workers[w].job.key, s.workers[w].job.payload))
    && (forall i :: 0 <= i < |s.log| ==> Fits(plan, s.log[i].key, s.log[i].body))
  }

  /** A step that adds no request anywhere: rows, calls and jobs keep their payloads. */
  lemma SameRequestsKeepPlan(plan: Plan, s: State, t: State)
    requires PlanInv(plan, s) && t.log == s.log && t.clients == s.clients
    requires forall k :: k in t.rows ==> k in s.rows && t.rows[k].payload == s.rows[k].payload
    requires forall c :: c in t.calls ==> c in s.calls && t.calls[c].key == s.calls[c].key && t.calls[c].body == s.calls[c].body
    requires forall w :: w in t.workers ==> w in s.workers && t.workers[w].job == s.workers[w].job
    ensures PlanInv(plan, t)
  {
  }

  lemma ClaimKeepsPlan(plan: Plan, s: State, w: nat, key: Key)
    requires PlanInv(plan, s) && WorkerStep(s, w, Claim(key)).Some?
    ensures PlanInv(plan, WorkerStep(s, w, Claim(key)).value)
  {
  }

  lemma SendKeepsPlan(plan: Plan, s: State, w: nat, call: nat)
    requires PlanInv(plan, s) && w in s.workers && ProgressStep(s, w, Send(call)).Some?
    ensures PlanInv(plan, ProgressStep(s, w, Send(call)).value)
  {
  }

  lemma AdvanceKeepsPlan(plan: Plan, s: State, w: nat, phase: WorkPhase)
    requires PlanInv(plan, s) && w in s.workers
    ensures PlanInv(plan, Advance(s, w, phase))
  {
    SameRequestsKeepPlan(plan, s, Advance(s, w, phase));
  }

  lemma HearStatusKeepsPlan(plan: Plan, s: State, w: nat, status: StatusReply, sample: real)
    requires PlanInv(plan, s) && w in s.workers && ProgressStep(s, w, HearStatus(status, sample)).Some?
    ensures PlanInv(plan, ProgressStep(s, w, HearStatus(status, sample)).value)
  {
    var job := s.workers[w].job;
    var t := if status.StatusConfirmed? then s.(seen := s.seen + {job.key}) else s;
    SameRequestsKeepPlan(plan, s, t);
    var u := ProgressStep(s, w, HearStatus(status, sample)).value;
    AdvanceKeepsPlan(plan, t, w, u.workers[w].phase);
  }

  lemma StoreKeepsPlan(plan: Plan, s: State, w: nat)
    requires PlanInv(plan, s) && w in s.workers && s.workers[w].phase.Writing?
    ensures PlanInv(plan, s.(rows := WriteRow(s.rows, s.workers[w].job.key, s.workers[w].phase.write, s.now)))
  {
  }

  lemma StoreFailsKeepsPlan(plan: Plan, s: State, w: nat, applied: bool, sample: real)
    requires PlanInv(plan, s) && w in s.workers && s.workers[w].phase.Writing?
    ensures PlanInv(plan, ProgressStep(s, w, StoreFails(applied, sample)).value)
  {
    var me := s.workers[w];
    StoreKeepsPlan(plan, s, w);
    var t := if applied then s.(rows := WriteRow(s.rows, me.job.key, me.phase.write, s.now)) else s;
    if me.phase.handler {
      LeaveKeepsPlan(plan, t, w);
    } else {
      AdvanceKeepsPlan(plan, t, w, Writing(TemporaryFailureWrite(me.job.attempt, sample), true));
    }
  }

  lemma LeaveKeepsPlan(plan: Plan, s: State, w: nat)
    requires PlanInv(plan, s)
    ensures PlanInv(plan, s.(workers := s.workers - {w}))
  {
    SameRequestsKeepPlan(plan, s, s.(workers := s.workers - {w}));
  }

  lemma ProgressKeepsPlan(plan: Plan, s: State, w: nat, a: Progress)
    requires PlanInv(plan, s) && w in s.workers && ProgressStep(s, w, a).Some?
    ensures PlanInv(plan, ProgressStep(s, w, a).value)
  {
    match a
    case HearStatus(status, sample) => HearStatusKeepsPlan(plan, s, w, status, sample);
    case Send(call) => SendKeepsPlan(plan, s, w, call);
    case StoreResult =>
      StoreKeepsPlan(plan, s, w);
      LeaveKeepsPlan(plan, s.(rows := WriteRow(s.rows, s.workers[w].job.key, s.workers[w].phase.write, s.now)), w);
    case StoreFails(applied, sample) => StoreFailsKeepsPlan(plan, s, w, applied, sample);
    case _ => AdvanceKeepsPlan(plan, s, w, ProgressStep(s, w, a).value.workers[w].phase);
  }

  lemma WorkerKeepsPlan(plan: Plan, s: State, w: nat, a: WorkerAction)
    requires PlanInv(plan, s) && WorkerStep(s, w, a).Some?
    ensures PlanInv(plan, WorkerStep(s, w, a).value)
  {
    match a
    case Claim(key) => ClaimKeepsPlan(plan, s, w, key);
    case Work(progress) => ProgressKeepsPlan(plan, s, w, progress);
    case WorkerStops => LeaveKeepsPlan(plan, s, w);
  }

  lemma ApplyKeepsPlan(plan: Plan, s: State, key: Key, body: Payload)
    requires PlanInv(plan, s) && Fits(plan, key, body)
    ensures PlanInv(plan, Apply(s, key, body))
  {
  }

  lemma CallKeepsPlan(plan: Plan, s: State, call: nat, phase: CallPhase, seen: set<Key>)
    requires PlanInv(plan, s) && call in s.calls
    ensures PlanInv(plan, s.(calls := s.calls[call := s.calls[call].(phase := phase)], seen := seen))
  {
    SameRequestsKeepPlan(plan, s, s.(calls := s.calls[call := s.calls[call].(phase := phase)], seen := seen));
  }

  lemma InsertKeepsPlan(plan: Plan, s: State, call: nat, outcome: InsertOutcome)
    requires PlanInv(plan, s) && call in s.calls && InsertStep(s, call, outcome).Some?
    ensures PlanInv(plan, InsertStep(s, call, outcome).value)
  {
    var c := s.calls[call];
    var t := InsertStep(s, call, outcome).value;
    ApplyKeepsPlan(plan, s, c.key, c.body);
    var applies := outcome.Inserted? || (outcome.InsertUnconfirmed? && outcome.applied);
    CallKeepsPlan(plan, if applies then Apply(s, c.key, c.body) else s, call, t.calls[call].phase, t.seen);
  }

  lemma AnswerChangesOnlyTheCall(s: State, call: nat, a: BrokerAction, t: State)
    requires BrokerStep(s, call, a) == Some(t) && !a.Insert?
    ensures call in s.calls && call in t.calls
    ensures t == s.(calls := s.calls[call := s.calls[call].(phase := t.calls[call].phase)], seen := t.seen)
  {
  }

  lemma AnswerKeepsPlan(plan: Plan, s: State, call: nat, a: BrokerAction, t: State)
    requires PlanInv(plan, s) && BrokerStep(s, call, a) == Some(t) && !a.Insert?
    ensures PlanInv(plan, t)
  {
    AnswerChangesOnlyTheCall(s, call, a, t);
    CallKeepsPlan(plan, s, call, t.calls[call].phase, t.seen);
  }

  lemma BrokerKeepsPlan(plan: Plan, s: State, call: nat, a: BrokerAction)
    requires PlanInv(plan, s) && BrokerStep(s, call, a).Some?
    ensures PlanInv(plan, BrokerStep(s, call, a).value)
  {
    if a.Insert? {
      InsertKeepsPlan(plan, s, call, a.outcome);
    } else {
      AnswerKeepsPlan(plan, s, call, a, BrokerStep(s, call, a).value);
    }
  }

  lemma HearKeepsPlan(plan: Plan, s: State, c: nat, reply: BookReply)
    requires PlanInv(plan, s) && c in s.clients
    ensures PlanInv(plan, ClientHears(s, c, s.clients[c].key, s.clients[c].body, reply))
  {
  }

  lemma ClientKeepsPlan(plan: Plan, s: State, c: nat, a: ClientAction)
    requires PlanInv(plan, s) && ClientStep(s, c, a).Some? && Planned(plan, ByClient(c, a))
    ensures PlanInv(plan, ClientStep(s, c, a).value)
  {
    match a
    case TakeReply => HearKeepsPlan(plan, s, c, s.calls[s.clients[c].call].phase.reply);
    case LoseReply(code) => HearKeepsPlan(plan, s, c, BookHttpError(code));
    case _ =>
  }

  lemma OwnerKeepsPlan(plan: Plan, s: State, a: OwnerAction)
    requires PlanInv(plan, s) && OwnerStep(s, a).Some?
    ensures PlanInv(plan, OwnerStep(s, a).value)
  {
    SameRequestsKeepPlan(plan, s, OwnerStep(s, a).value);
  }

  lemma QueueKeepsPlan(plan: Plan, s: State, key: Key, company: string)
    requires PlanInv(plan, s)
    ensures PlanInv(plan, s.(rows := CancelRow(s.rows, key)))
    ensures PlanInv(plan, s.(rows := ResumeRows(s.rows, company, s.now)))
  {
    SameRequestsKeepPlan(plan, s, s.(rows := CancelRow(s.rows, key)));
    SameRequestsKeepPlan(plan, s, s.(rows := ResumeRows(s.rows, company, s.now)));
  }

  lemma StepKeepsPlan(plan: Plan, s: State, a: Action)
    requires PlanInv(plan, s) && Step(s, a).Some? && Planned(plan, a)
    ensures PlanInv(plan, Step(s, a).value)
  {
    match a
    case ByClient(c, action) => ClientKeepsPlan(plan, s, c, action);
    case ByBroker(call, action) => BrokerKeepsPlan(plan, s, call, action);
    case ByWorker(w, action) => WorkerKeepsPlan(plan, s, w, action);
    case ByOwner(action) => OwnerKeepsPlan(plan, s, action);
    case CancelRequest(key) => QueueKeepsPlan(plan, s, key, "");
    case ResumeCompany(company) => QueueKeepsPlan(plan, s, Key(company, ""), company);
    case Tick(elapsed) =>
  }

  lemma {:induction false} RunKeepsPlan(plan: Plan, s: State, actions: seq<Action>, t: State)
    requires PlanInv(plan, s) && PlannedRun(plan, s, actions, t)
    ensures PlanInv(plan, t) && Reaches(s, actions, t)
    decreases |actions|
  {
    if actions != [] {
      StepKeepsPlan(plan, s, actions[0]);
      RunKeepsPlan(plan, Step(s, actions[0]).value, actions[1..], t);
    }
  }

  /**
   With one session's keys from `_stable_write_key`, a completed row has exactly one insertion behind it,
   and that insertion carried the row's own title, start and duration, which are those of the session's
   action.  Every other session, company and time zone may book anything in the same run.
   */
  lemma CompletedBookingIsTheOneAsked(keys: map<LogicalAction, Key>, parse: string -> int, action: LogicalAction,
                                      actions: seq<Action>, t: State)
    requires Injective(keys) && action in keys
    requires PlannedRun(PlanOf(keys, parse), Initial, actions, t)
    requires keys[action] in t.rows && t.rows[keys[action]].status.Completed?
    ensures exists i ::
              && 0 <= i < |t.log| && t.log[i].key == keys[action] && t.log[i].id == ProviderEventId(keys[action])
              && t.log[i].body == t.rows[keys[action]].payload == PayloadOf(action, parse)
              && forall j :: 0 <= j < |t.log| && t.log[j].key == keys[action] ==> j == i
  {
    var key, plan := keys[action], PlanOf(keys, parse);
    RunKeepsPlan(plan, Initial, actions, t);
    PlanAgrees(keys, parse, action);
    Safety.ConfirmedMeansProviderConfirmed(actions, t, key);
    Safety.AtMostOneEventPerKey(actions, t);
    Safety.RunKeeps(Initial, actions, t);
    var i :| 0 <= i < |t.log| && t.log[i].key == key;
    assert Fits(plan, t.log[i].key, t.log[i].body);
  }

  /** A run in which nobody else uses this session's keys and the session asks as its keys say is such a run. */
  lemma {:induction false} OtherSessionsAreFree(keys: map<LogicalAction, Key>, parse: string -> int, s: State, actions: seq<Action>, t: State)
    requires Injective(keys) && Reaches(s, actions, t)
    requires forall i :: 0 <= i < |actions| && actions[i].ByClient? && actions[i].clientAction.Begin? ==>
               actions[i].clientAction.key !in keys.Values
               || exists action :: action in keys && keys[action] == actions[i].clientAction.key
                                   && actions[i].clientAction.body == PayloadOf(action, parse)
    ensures PlannedRun(PlanOf(keys, parse), s, actions, t)
    decreases |actions|
  {
    if actions != [] {
      var a := actions[0];
      if a.ByClient? && a.clientAction.Begin? && a.clientAction.key in keys.Values {
        var action :| action in keys && keys[action] == a.clientAction.key && a.clientAction.body == PayloadOf(action, parse);
        PlanAgrees(keys, parse, action);
      }
      forall i | 0 <= i < |actions[1..]|
        ensures actions[1..][i] == actions[i + 1]
      {
      }
      OtherSessionsAreFree(keys, parse, Step(s, a).value, actions[1..], t);
    }
  }
}
