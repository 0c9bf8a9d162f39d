/**
 Call claims of the 3CX integration (db/threecx.py): event deduplication, one claim per call, guarded state
 transitions and lease renewal.  Each method is one transaction; string arguments are already stripped.
 */
module ThreeCxCalls {
  import opened Common

  type Token = nat

  datatype CallState = Claimed | Connecting | Active | Transferring | Transferred | Ending | Ended | Failed

  function Transitions(state: CallState): set<CallState> {
    match state
    case Claimed => {Connecting, Failed, Ended}
    case Connecting => {Active, Failed, Ending}
    case Active => {Transferring, Ending, Failed}
    case Transferring => {Transferred, Active, Failed}
    case Transferred => {Ending, Ended}
    case Ending => {Ended, Failed}
    case Ended => {}
    case Failed => {}
  }

  predicate Terminal(state: CallState) {
    state.Ended? || state.Failed?
  }

  /** The same table by target: where each state can be entered from. */
  function Sources(next: CallState): set<CallState> {
    match next
    case Claimed => {}
    case Connecting => {Claimed}
    case Active => {Connecting, Transferring}
    case Transferring => {Active}
    case Transferred => {Transferring}
    case Ending => {Connecting, Active, Transferred}
    case Ended => {Claimed, Transferred, Ending}
    case Failed => {Claimed, Connecting, Active, Transferring, Ending}
  }

  lemma TransitionsHaveTheirSources(state: CallState, next: CallState)
    ensures next in Transitions(state) <==> state in Sources(next)
  {
  }

  lemma TerminalStatesAreFinal(state: CallState, next: CallState)
    requires next in Transitions(state)
    ensures !Terminal(state)
  {
  }

  datatype Key = Key(company: string, id: string)
  datatype Integration = Integration(dids: set<string>, active: bool)
  datatype Session = Session(did: string, direction: string, state: CallState, token: Token, lease: int, endedAt: Option<int>)
  datatype Outcome = Processed | Duplicate | Rejected

  datatype Tables = Tables(integrations: map<string, Integration>, inbox: map<Key, Outcome>, sessions: map<Key, Session>)

  datatype ClaimRequest = ClaimRequest(company: string, call: string, event: string, eventType: string, did: string,
                                       direction: string, leaseSeconds: int)

  datatype Error = InvalidArgument | NotConfigured | IllegalTransition
  datatype ClaimReply = DuplicateEvent | Reply(claimed: bool, outcome: Outcome, session: Session)

  // ---- Transactions as functions -------------------------------------------------------------

  predicate ValidLease(seconds: int) {
    5 <= seconds <= 300
  }

  predicate ValidRequest(q: ClaimRequest) {
    && q.company != "" && 0 < |q.call| <= 255 && 0 < |q.event| <= 255 && 0 < |q.eventType| <= 96 && 0 < |q.did| <= 64
    && (q.direction == "inbound" || q.direction == "outbound") && ValidLease(q.leaseSeconds)
  }

  predicate Configured(t: Tables, q: ClaimRequest) {
    q.company in t.integrations && t.integrations[q.company].active && q.did in t.integrations[q.company].dids
  }

  function NewSession(q: ClaimRequest, token: Token, now: int): Session {
    Session(q.did, q.direction, Claimed, token, now + q.leaseSeconds, None)
  }

  function ClaimResult(t: Tables, q: ClaimRequest, token: Token, now: int): Result<ClaimReply, Error> {
    var call := Key(q.company, q.call);
    if !ValidRequest(q) then Err(InvalidArgument)
    else if !Configured(t, q) then Err(NotConfigured)
    else if Key(q.company, q.event) in t.inbox then Ok(DuplicateEvent)
    else if call !in t.sessions then Ok(Reply(true, Processed, NewSession(q, token, now)))
    else if t.sessions[call].did != q.did || t.sessions[call].direction != q.direction then Ok(Reply(false, Rejected, t.sessions[call]))
    else Ok(Reply(false, Duplicate, t.sessions[call]))
  }

  function ClaimTables(t: Tables, q: ClaimRequest, token: Token, now: int): Tables {
    var result := ClaimResult(t, q, token, now);
    if result.Err? || result.value.DuplicateEvent? then t
    else
      t.(inbox := t.inbox[Key(q.company, q.event) := result.value.outcome],
         sessions := if result.value.claimed then t.sessions[Key(q.company, q.call) := result.value.session] else t.sessions)
  }

  predicate Matches(t: Tables, call: Key, token: Token) {
    call in t.sessions && t.sessions[call].token == token
  }

  /** The compare-and-set: only the matching claim in the expected state moves. */
  predicate Moves(t: Tables, call: Key, token: Token, expected: CallState) {
    Matches(t, call, token) && t.sessions[call].state == expected
  }

  function MovedSession(session: Session, new_: CallState, now: int): Session {
    session.(state := new_, endedAt := if Terminal(new_) then Some(now) else session.endedAt)
  }

  function TransitionTables(t: Tables, call: Key, token: Token, expected: CallState, new_: CallState, now: int): Tables {
    if new_ in Transitions(expected) && Moves(t, call, token, expected)
    then t.(sessions := t.sessions[call := MovedSession(t.sessions[call], new_, now)]) else t
  }

  predicate Renews(t: Tables, call: Key, token: Token, now: int) {
    Matches(t, call, token) && !Terminal(t.sessions[call].state) && t.sessions[call].lease > now
  }

  function RenewTables(t: Tables, call: Key, token: Token, seconds: int, now: int): Tables {
    if ValidLease(seconds) && Renews(t, call, token, now)
    then t.(sessions := t.sessions[call := t.sessions[call].(lease := now + seconds)]) else t
  }

  /** A new event is recorded with its outcome; a new call is claimed for the whole lease, and a known one is only compared. */
  ghost predicate ClaimAnswers(was: Tables, q: ClaimRequest, token: Token, now: int, claimed: bool, outcome: Outcome,
                               session: Session, t: Tables) {
    var call := Key(q.company, q.call);
    && t.integrations == was.integrations && t.inbox == was.inbox[Key(q.company, q.event) := outcome]
    && (claimed <==> call !in was.sessions) && (outcome.Processed? <==> claimed)
    && (if claimed
        then session == Session(q.did, q.direction, Claimed, token, now + q.leaseSeconds, None) && t.sessions == was.sessions[call := session]
        else
          && t.sessions == was.sessions && session == was.sessions[call]
          && (outcome.Duplicate? <==> session.did == q.did && session.direction == q.direction))
  }

  class CallTables {
    var integrations: map<string, Integration>
    var inbox: map<Key, Outcome>
    var sessions: map<Key, Session>

    function State(): Tables
      reads this
    {
      Tables(integrations, inbox, sessions)
    }

    constructor ()
      ensures State() == Tables(map[], map[], map[])
    {
      integrations, inbox, sessions := map[], map[], map[];
    }

    method ClaimCall(q: ClaimRequest, token: Token, now: int) returns (result: Result<ClaimReply, Error>)
      modifies this
      ensures result == ClaimResult(old(State()), q, token, now)
      ensures State() == ClaimTables(old(State()), q, token, now)
      ensures forall call :: call in old(sessions) ==> call in sessions && sessions[call] == old(sessions)[call]
      ensures result.Ok? && result.value.Reply? ==> Key(q.company, q.event) in inbox && Key(q.company, q.event) !in old(inbox)
      ensures result == Err(InvalidArgument) <==>
                || q.company == "" || q.call == "" || q.event == "" || q.eventType == "" || q.did == ""
                || |q.call| > 255 || |q.event| > 255 || |q.eventType| > 96 || |q.did| > 64
                || (q.direction != "inbound" && q.direction != "outbound") || q.leaseSeconds < 5 || q.leaseSeconds > 300
      ensures result == Err(NotConfigured) ==>
                q.company in integrations ==> !integrations[q.company].active || q.did !in integrations[q.company].dids
      ensures result.Ok? ==> q.company in integrations && integrations[q.company].active && q.did in integrations[q.company].dids
      ensures result != Err(IllegalTransition)
      ensures result.Ok? ==> (result.value.DuplicateEvent? <==> Key(q.company, q.event) in old(inbox))
      ensures result.Err? || result.value.DuplicateEvent? ==> State() == old(State())
      ensures result.Ok? && result.value.Reply? ==>
                ClaimAnswers(old(State()), q, token, now, result.value.claimed, result.value.outcome, result.value.session, State())
    {
      if q.company == "" || q.call == "" || q.event == "" || q.eventType == "" || q.did == "" {
        return Err(InvalidArgument);
      }
      if |q.call| > 255 || |q.event| > 255 || |q.eventType| > 96 || |q.did| > 64 {
        return Err(InvalidArgument);
      }
      if (q.direction != "inbound" && q.direction != "outbound") || !(5 <= q.leaseSeconds <= 300) {
        return Err(InvalidArgument);
      }
      if q.company !in integrations || !integrations[q.company].active || q.did !in integrations[q.company].dids {
        return Err(NotConfigured);
      }
      var event, call := Key(q.company, q.event), Key(q.company, q.call);
      if event in inbox {
        return Ok(DuplicateEvent);
      }
      var outcome;
      var claimed := call !in sessions;
      if claimed {
        outcome := Processed;
        sessions := sessions[call := Session(q.did, q.direction, Claimed, token, now + q.leaseSeconds, None)];
      } else if sessions[call].did != q.did || sessions[call].direction != q.direction {
        outcome := Rejected;
      } else {
        outcome := Duplicate;
      }
      inbox := inbox[event := outcome];
      result := Ok(Reply(claimed, outcome, sessions[call]));
    }

    method TransitionCall(call: Key, token: Token, expected: CallState, new_: CallState, now: int)
      returns (result: Result<bool, Error>)
      modifies this
      ensures result == if new_ !in Transitions(expected) then Err(IllegalTransition) else Ok(Moves(old(State()), call, token, expected))
      ensures State() == TransitionTables(old(State()), call, token, expected, new_, now)
      ensures call in old(sessions) && Terminal(old(sessions)[call].state) ==> sessions == old(sessions)
      ensures integrations == old(integrations) && inbox == old(inbox)
      ensures result != Ok(true) ==> sessions == old(sessions)
      ensures result == Ok(true) ==>
                call in old(sessions) &&
                var was := old(sessions)[call];
                && was.token == token && was.state == expected
                && sessions == old(sessions)[call := was.(state := new_, endedAt := if new_.Ended? || new_.Failed? then Some(now) else was.endedAt)]
      ensures result == Ok(false) ==> call in sessions ==> sessions[call].token != token || sessions[call].state != expected
    {
      if new_ !in Transitions(expected) {
        return Err(IllegalTransition);
      }
      TerminalStatesAreFinal(expected, new_);
      if call !in sessions || sessions[call].token != token || sessions[call].state != expected {
        return Ok(false);
      }
      var session := sessions[call].(state := new_);
      if new_ == Ended || new_ == Failed {
        session := session.(endedAt := Some(now));
      }
      sessions := sessions[call := session];
      result := Ok(true);
    }

    method RenewLease(call: Key, token: Token, seconds: int, now: int) returns (result: Result<bool, Error>)
      modifies this
      ensures result == if !ValidLease(seconds) then Err(InvalidArgument) else Ok(Renews(old(State()), call, token, now))
      ensures State() == RenewTables(old(State()), call, token, seconds, now)
      ensures forall k :: k in old(sessions) ==> k in sessions && sessions[k].state == old(sessions)[k].state
      ensures forall k :: k in old(sessions) && old(sessions)[k].lease <= now ==> sessions[k] == old(sessions)[k]
      ensures result.Err? <==> seconds < 5 || seconds > 300
      ensures integrations == old(integrations) && inbox == old(inbox)
      ensures result != Ok(true) ==> sessions == old(sessions)
      ensures result == Ok(true) ==>
                call in old(sessions) && old(sessions)[call].token == token
                && sessions == old(sessions)[call := old(sessions)[call].(lease := now + seconds)]
      ensures result == Ok(false) ==> call in sessions ==>
                || sessions[call].token != token || sessions[call].state.Ended? || sessions[call].state.Failed? || sessions[call].lease <= now
    {
      if !(5 <= seconds <= 300) {
        return Err(InvalidArgument);
      }
      if call !in sessions || sessions[call].token != token || Terminal(sessions[call].state) || sessions[call].lease <= now {
        return Ok(false);
      }
      sessions := sessions[call := sessions[call].(lease := now + seconds)];
      result := Ok(true);
    }
  }

  // ---- Runs ----------------------------------------------------------------------------------

  /** `claims` are the replies that reported `claimed`; `path` the states each call has been in. */
  datatype ClaimEntry = ClaimEntry(call: Key, token: Token)
  datatype System = System(now: int, tables: Tables, claims: seq<ClaimEntry>, path: map<Key, seq<CallState>>)

  const Initial := System(0, Tables(map[], map[], map[]), [], map[])

  datatype Action =
    | Configure(company: string, integration: Option<Integration>)
    | Claim(request: ClaimRequest, token: Token)
    | Transition(call: Key, claimToken: Token, expected: CallState, new_: CallState)
    | Renew(call: Key, claimToken: Token, seconds: int)
    | Pass(elapsed: nat)

  function Step(s: System, a: Action): System {
    match a
    case Configure(company, integration) =>
      s.(tables := s.tables.(integrations := if integration.Some? then s.tables.integrations[company := integration.value]
                                             else s.tables.integrations - {company}))
    case Claim(request, token) =>
      var result := ClaimResult(s.tables, request, token, s.now);
      var call := Key(request.company, request.call);
      var claimed := result.Ok? && result.value.Reply? && result.value.claimed;
      s.(tables := ClaimTables(s.tables, request, token, s.now),
         claims := if claimed then s.claims + [ClaimEntry(call, result.value.session.token)] else s.claims,
         path := if claimed then s.path[call := [result.value.session.state]] else s.path)
    case Transition(call, token, expected, new_) =>
      var t := TransitionTables(s.tables, call, token, expected, new_, s.now);
      s.(tables := t,
         path := if call in t.sessions && call in s.path && t.sessions[call] != s.tables.sessions[call]
                 then s.path[call := s.path[call] + [t.sessions[call].state]] else s.path)
    case Renew(call, token, seconds) => s.(tables := RenewTables(s.tables, call, token, seconds, s.now))
    case Pass(elapsed) => s.(now := s.now + elapsed)
  }

  function Run(s: System, actions: seq<Action>): System
    decreases |actions|
  {
    if actions == [] then s else Run(Step(s, actions[0]), actions[1..])
  }

  // ---- Invariants ------------------------------------------------------------------------------

  /** Starts claimed, follows the transition table, and ends where the call is. */
  ghost predicate IsPath(path: seq<CallState>, state: CallState) {
    && path != [] && path[0].Claimed? && path[|path| - 1] == state
    && forall i :: 0 < i < |path| ==> path[i] in Transitions(path[i - 1])
  }

  ghost predicate CallInv(s: System, call: Key) {
    call in s.tables.sessions ==>
      && call in s.path && IsPath(s.path[call], s.tables.sessions[call].state)
      && (s.tables.sessions[call].endedAt.Some? <==> Terminal(s.tables.sessions[call].state))
  }

  ghost predicate Inv(s: System) {
    && (forall call :: call in s.tables.sessions ==> CallInv(s, call))
    && (forall i :: 0 <= i < |s.claims| ==>
          s.claims[i].call in s.tables.sessions && s.tables.sessions[s.claims[i].call].token == s.claims[i].token)
    && (forall i, j :: 0 <= i < j < |s.claims| ==> s.claims[i].call != s.claims[j].call)
  }

  /** Calls keep their token and their past; an ended call and a lapsed lease stay as they are. */
  ghost predicate Carries(s: System, t: System) {
    && s.now <= t.now
    && forall call :: call in s.tables.sessions ==>
         && call in t.tables.sessions && t.tables.sessions[call].token == s.tables.sessions[call].token
         && (Terminal(s.tables.sessions[call].state) ==> t.tables.sessions[call] == s.tables.sessions[call])
         && (s.tables.sessions[call].lease <= s.now ==> t.tables.sessions[call].lease == s.tables.sessions[call].lease)
         && (call in s.path ==> call in t.path && s.path[call] <= t.path[call])
  }

  lemma SameCallsKeep(s: System, t: System)
    requires Inv(s) && s.now <= t.now && t.tables.sessions == s.tables.sessions && t.path == s.path && t.claims == s.claims
    ensures Inv(t) && Carries(s, t)
  {
    forall call | call in t.tables.sessions ensures CallInv(t, call) {
      assert CallInv(s, call);
    }
  }

  lemma NewCallKeeps(s: System, call: Key, session: Session, t: System)
    requires Inv(s) && call !in s.tables.sessions && session.state.Claimed? && session.endedAt.None?
    requires t.now == s.now && t.tables.sessions == s.tables.sessions[call := session] && t.path == s.path[call := [Claimed]]
    requires t.claims == s.claims + [ClaimEntry(call, session.token)]
    ensures Inv(t) && Carries(s, t)
  {
    forall other | other in t.tables.sessions ensures CallInv(t, other) {
      assert other != call ==> CallInv(s, other);
    }
  }

  lemma ClaimKeeps(s: System, a: Action, t: System)
    requires Inv(s) && a.Claim? && t == Step(s, a)
    ensures Inv(t) && Carries(s, t)
  {
    var result := ClaimResult(s.tables, a.request, a.token, s.now);
    if result.Ok? && result.value.Reply? && result.value.claimed {
      NewCallKeeps(s, Key(a.request.company, a.request.call), result.value.session, t);
    } else {
      SameCallsKeep(s, t);
    }
  }

  lemma MoveKeeps(s: System, call: Key, new_: CallState, t: System)
    requires Inv(s) && call in s.tables.sessions && call in s.path && new_ in Transitions(s.tables.sessions[call].state)
    requires t.now == s.now && t.claims == s.claims && t.path == s.path[call := s.path[call] + [new_]]
    requires t.tables.sessions == s.tables.sessions[call := MovedSession(s.tables.sessions[call], new_, s.now)]
    ensures Inv(t) && Carries(s, t)
  {
    forall other | other in t.tables.sessions ensures CallInv(t, other) {
      assert CallInv(s, other);
    }
  }

  lemma TransitionKeeps(s: System, a: Action, t: System)
    requires Inv(s) && a.Transition? && t == Step(s, a)
    ensures Inv(t) && Carries(s, t)
  {
    if a.new_ in Transitions(a.expected) && Moves(s.tables, a.call, a.claimToken, a.expected) {
      assert CallInv(s, a.call) && a.new_ != a.expected;
      MoveKeeps(s, a.call, a.new_, t);
    } else {
      SameCallsKeep(s, t);
    }
  }

  lemma QuietKeeps(s: System, a: Action, t: System)
    requires Inv(s) && (a.Renew? || a.Configure? || a.Pass?) && t == Step(s, a)
    ensures Inv(t) && Carries(s, t)
  {
    forall call | call in t.tables.sessions ensures CallInv(t, call) {
      assert CallInv(s, call);
    }
  }

  lemma {:induction false} RunKeeps(s: System, actions: seq<Action>, t: System)
    requires Inv(s) && t == Run(s, actions)
    ensures Inv(t) && Carries(s, t)
    decreases |actions|
  {
    if actions != [] {
      var next := Step(s, actions[0]);
      if actions[0].Claim? {
        ClaimKeeps(s, actions[0], next);
      } else if actions[0].Transition? {
        TransitionKeeps(s, actions[0], next);
      } else {
        QuietKeeps(s, actions[0], next);
      }
      RunKeeps(next, actions[1..], t);
      CarriesIsTransitive(s, next, t);
    }
  }

  lemma CarriesIsTransitive(s: System, m: System, t: System)
    requires Carries(s, m) && Carries(m, t)
    ensures Carries(s, t)
  {
  }

  // ---- Theorems --------------------------------------------------------------------------------

  /** Over any stream of events, a call is reported `claimed` at most once, and its session carries that claim's token. */
  lemma AtMostOneClaimPerCall(actions: seq<Action>, i: nat, j: nat)
    requires i < |Run(Initial, actions).claims| && j < |Run(Initial, actions).claims|
    requires Run(Initial, actions).claims[i].call == Run(Initial, actions).claims[j].call
    ensures i == j
    ensures var s := Run(Initial, actions);
            s.claims[i].call in s.tables.sessions && s.tables.sessions[s.claims[i].call].token == s.claims[i].token
  {
    RunKeeps(Initial, actions, Run(Initial, actions));
  }

  /** A call's history is a path of the transition table, and it has an end time exactly in a terminal state. */
  lemma HistoryFollowsTheTable(actions: seq<Action>, s: System, call: Key)
    requires s == Run(Initial, actions) && call in s.tables.sessions
    ensures call in s.path && IsPath(s.path[call], s.tables.sessions[call].state)
    ensures s.tables.sessions[call].endedAt.Some? <==> Terminal(s.tables.sessions[call].state)
  {
    RunKeeps(Initial, actions, s);
    assert CallInv(s, call);
  }

  /** The token never changes, a terminal call is never touched again, and a lapsed lease is never renewed. */
  lemma ClaimsAreForGood(before: seq<Action>, s: System, after: seq<Action>, t: System, call: Key)
    requires s == Run(Initial, before) && t == Run(s, after) && call in s.tables.sessions
    ensures call in t.tables.sessions && t.tables.sessions[call].token == s.tables.sessions[call].token
    ensures Terminal(s.tables.sessions[call].state) ==> t.tables.sessions[call] == s.tables.sessions[call]
    ensures s.tables.sessions[call].lease <= s.now ==> t.tables.sessions[call].lease == s.tables.sessions[call].lease
  {
    RunKeeps(Initial, before, s);
    RunKeeps(s, after, t);
  }
}
