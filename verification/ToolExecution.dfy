/**
 Any number of `execute_tool` calls (backend/app/api/tools.py) over the two tables, interleaved freely.
 Every database call may fail before or after taking effect, the tool may take any time, and a call may
 stop anywhere.
 */
module ToolExecution {
  import opened Common
  import opened IdempotencyLedger

  // ---- State -----------------------------------------------------------------------------

  datatype Phase = Asked | Confirming | Running | Produced(payload: Payload) | Refusing(reply: Reply) | Done(outcome: Reply)

  /** `lock` is the expiry of the record this call acquired. */
  datatype Call = Call(target: Target, key: Option<Key>, token: Option<Token>, lock: Option<int>, phase: Phase)

  /** History: a tool body that was started, a commit that took effect, and when each token was issued. */
  datatype Start = Start(call: nat, token: Option<Token>, target: Target, at: int)
  datatype CommitEntry = CommitEntry(key: Key, payload: Payload)

  datatype State = State(now: int, records: map<Key, Record>, tokens: map<Token, TokenRow>, calls: map<nat, Call>,
                         starts: seq<Start>, commits: seq<CommitEntry>, issued: map<Token, int>)

  const Initial := State(0, map[], map[], map[], [], [], map[])

  // ---- Actions ---------------------------------------------------------------------------

  /** A database call: answered, applied with its answer lost, or failed without effect. */
  datatype Database = Answered | AnswerLost | Refused

  datatype Event = Acquires(database: Database) | Consumes(database: Database) | BodyEnds(outcome: BodyOutcome)
                 | Commits(database: Database) | Releases(database: Database) | Stops

  datatype Action =
    | Ask(call: nat, target: Target, key: Option<Key>, token: Option<Token>)
    | Issue(issued: Token, target: Target)
    | Pass(seconds: nat)
    | Proceed(call: nat, event: Event)

  // ---- Steps -----------------------------------------------------------------------------

  function Moved(s: State, id: nat, c: Call, phase: Phase): State {
    s.(calls := s.calls[id := c.(phase := phase)])
  }

  function Started(s: State, id: nat, c: Call): State {
    Moved(s, id, c, Running).(starts := s.starts + [Start(id, c.token, c.target, s.now)])
  }

  /** The lock is held: confirm first when the tool needs it. */
  function Locked(s: State, id: nat, c: Call): State {
    if c.token.Some? then Moved(s, id, c, Confirming) else Started(s, id, c)
  }

  function AcquireStep(s: State, id: nat, c: Call, database: Database): Option<State> {
    if !c.phase.Asked? then None
    else if c.key.None? then Some(Locked(s, id, c))
    else if database.Refused? then Some(Moved(s, id, c, Done(Unavailable)))
    else
      var key, tenant := c.key.value, c.target.tenant;
      var result := AcquireResult(s.records, key, tenant, s.now);
      var t := s.(records := AcquireRecords(s.records, key, tenant, s.now));
      if database.AnswerLost? then Some(Moved(t, id, c, Done(Unavailable)))
      else match result
        case Cached(payload) => Some(Moved(t, id, c, Done(Success(payload))))
        case InProgress => Some(Moved(t, id, c, Done(KeyConflict)))
        case ForeignKey => Some(Moved(t, id, c, Done(KeyConflict)))
        case New => Some(Locked(t, id, c.(lock := Some(s.now + LOCK_SECONDS))))
  }

  function Refuse(s: State, id: nat, c: Call, reply: Reply): State {
    Moved(s, id, c, if c.key.Some? then Refusing(reply) else Done(reply))
  }

  /** A failing token query is raised out of `execute_tool`, with the lock still held. */
  function ConsumeStep(s: State, id: nat, c: Call, database: Database): Option<State> {
    if !c.phase.Confirming? || c.token.None? then None
    else if database.Refused? then Some(Moved(s, id, c, Done(Unavailable)))
    else
      var t := s.(tokens := ConsumeTokens(s.tokens, c.token.value, c.target, s.now));
      if database.AnswerLost? then Some(Moved(t, id, c, Done(Unavailable)))
      else if Consumable(s.tokens, c.token.value, c.target, s.now) then Some(Started(t, id, c))
      else Some(Refuse(t, id, c, InvalidToken))
  }

  function BodyStep(s: State, id: nat, c: Call, outcome: BodyOutcome): Option<State> {
    if !c.phase.Running? then None
    else match outcome
      case Returns(payload) => Some(Moved(s, id, c, if c.key.Some? then Produced(payload) else Done(Success(payload))))
      case Conflicts => Some(Refuse(s, id, c, SlotConflict))
      case AsksConfirmation => Some(Moved(s, id, c, Done(ConfirmationRequired)))
      case Raises => Some(Refuse(s, id, c, ExecutionError))
  }

  /** A commit whose answer is lost raises into the handler, which releases the lock. */
  function CommitStep(s: State, id: nat, c: Call, database: Database): Option<State> {
    if !c.phase.Produced? || c.key.None? then None
    else if database.Refused? then Some(Moved(s, id, c, Refusing(ExecutionError)))
    else
      var key, payload := c.key.value, c.phase.payload;
      var t := s.(records := CommitRecords(s.records, key, c.target.tenant, payload),
                  commits := if Visible(s.records, key, c.target.tenant) then s.commits + [CommitEntry(key, payload)] else s.commits);
      Some(Moved(t, id, c, if database.Answered? then Done(Success(payload)) else Refusing(ExecutionError)))
  }

  /**
   A release that raises ends the call, except after a conflict: there it is still inside the try block, and
   the handler releases a second time.
   */
  function ReleaseStep(s: State, id: nat, c: Call, database: Database): Option<State> {
    if !c.phase.Refusing? || c.key.None? then None
    else
      var t := if database.Refused? then s else s.(records := ReleaseRecords(s.records, c.key.value, c.target.tenant));
      Some(Moved(t, id, c,
                 if database.Answered? then Done(c.phase.reply)
                 else if c.phase.reply.SlotConflict? then Refusing(ExecutionError)
                 else Done(Unavailable)))
  }

  function CallStep(s: State, id: nat, c: Call, event: Event): Option<State> {
    match event
    case Acquires(database) => AcquireStep(s, id, c, database)
    case Consumes(database) => ConsumeStep(s, id, c, database)
    case BodyEnds(outcome) => BodyStep(s, id, c, outcome)
    case Commits(database) => CommitStep(s, id, c, database)
    case Releases(database) => ReleaseStep(s, id, c, database)
    case Stops => Some(Moved(s, id, c, Done(Unavailable)))
  }

  predicate Gated(tool: string) {
    tool == "cancel_event"
  }

  predicate NeedsKey(tool: string) {
    tool == "book_event" || tool == "cancel_event"
  }

  /** Calls of a gated tool without a token, and keyless calls of a write tool, are refused up front. */
  function Step(s: State, a: Action): Option<State> {
    match a
    case Ask(call, target, key, token) =>
      if call in s.calls || Gated(target.tool) != token.Some? || (NeedsKey(target.tool) && key.None?) then None
      else Some(s.(calls := s.calls[call := Call(target, key, token, None, Asked)]))
    case Issue(token, target) =>
      if token in s.tokens then None
      else Some(s.(tokens := s.tokens[token := TokenRow(target, s.now + TOKEN_SECONDS, false)], issued := s.issued[token := s.now]))
    case Pass(seconds) => Some(s.(now := s.now + seconds))
    case Proceed(call, event) => if call in s.calls then CallStep(s, call, s.calls[call], event) else None
  }

  ghost predicate Reaches(s: State, actions: seq<Action>, t: State)
    decreases |actions|
  {
    if actions == [] then s == t
    else Step(s, actions[0]).Some? && Reaches(Step(s, actions[0]).value, actions[1..], t)
  }

  // ---- One token, one body -----------------------------------------------------------------

  /** Every body started with a token spent that token, and no other body was started with it. */
  ghost predicate TokenInv(s: State) {
    && (forall id :: id in s.calls ==> Gated(s.calls[id].target.tool) == s.calls[id].token.Some?)
    && (forall id :: id in s.calls && (s.calls[id].target.tool == "book_event" || s.calls[id].target.tool == "cancel_event") ==>
          s.calls[id].key.Some?)
    && (forall i :: 0 <= i < |s.starts| ==> Gated(s.starts[i].target.tool) == s.starts[i].token.Some?)
    && (forall i :: 0 <= i < |s.starts| && s.starts[i].token.Some? ==>
          s.starts[i].token.value in s.tokens && s.tokens[s.starts[i].token.value].consumed
          && s.tokens[s.starts[i].token.value].target == s.starts[i].target)
    && (forall i, j :: 0 <= i < j < |s.starts| && s.starts[i].token.Some? ==> s.starts[i].token != s.starts[j].token)
  }

  lemma TokenStepKeeps(s: State, a: Action)
    requires TokenInv(s) && Step(s, a).Some?
    ensures TokenInv(Step(s, a).value)
  {
    match a
    case Ask(_, _, _, _) =>
    case Issue(_, _) =>
    case Pass(_) =>
    case Proceed(call, event) =>
      match event {
        case Acquires(database) => AcquireKeepsTokens(s, call, s.calls[call], database);
        case Consumes(database) => ConsumeKeepsTokens(s, call, s.calls[call], database);
        case BodyEnds(_) => QuietEventKeepsTokens(s, call, event);
        case Commits(_) => QuietEventKeepsTokens(s, call, event);
        case Releases(_) => QuietEventKeepsTokens(s, call, event);
        case Stops => QuietEventKeepsTokens(s, call, event);
      }
  }

  lemma QuietEventKeepsTokens(s: State, id: nat, event: Event)
    requires TokenInv(s) && id in s.calls && !event.Acquires? && !event.Consumes? && CallStep(s, id, s.calls[id], event).Some?
    ensures TokenInv(CallStep(s, id, s.calls[id], event).value)
  {
    var t := CallStep(s, id, s.calls[id], event).value;
    QuietEventMovesOn(s, id, event, t);
    MovedOnKeepsTokens(s, id, s.calls[id], t, false);
  }

  lemma QuietEventMovesOn(s: State, id: nat, event: Event, t: State)
    requires id in s.calls && !event.Acquires? && !event.Consumes? && CallStep(s, id, s.calls[id], event) == Some(t)
    ensures MovedOn(s, id, s.calls[id], t, false) && t.tokens == s.tokens
  {
    assert id in t.calls && t.calls == s.calls[id := s.calls[id].(phase := t.calls[id].phase)];
  }

  /** `t` is `s` with call `id` moved on; `started` when that started its body. */
  ghost predicate MovedOn(s: State, id: nat, c: Call, t: State, started: bool) {
    && id in s.calls && s.calls[id] == c
    && (exists d :: t.calls == s.calls[id := d] && d.target == c.target && d.token == c.token && d.key == c.key)
    && t.starts == if started then s.starts + [Start(id, c.token, c.target, s.now)] else s.starts
  }

  lemma MovedOnKeepsTokens(s: State, id: nat, c: Call, t: State, started: bool)
    requires TokenInv(s) && MovedOn(s, id, c, t, started)
    requires forall k :: k in s.tokens ==> k in t.tokens && t.tokens[k].target == s.tokens[k].target
                                            && (s.tokens[k].consumed ==> t.tokens[k].consumed)
    requires started && c.token.Some? ==>
               var k := c.token.value;
               k in s.tokens && !s.tokens[k].consumed && t.tokens[k].consumed && t.tokens[k].target == c.target
    ensures TokenInv(t)
  {
  }

  lemma AcquireKeepsTokens(s: State, id: nat, c: Call, database: Database)
    requires TokenInv(s) && id in s.calls && s.calls[id] == c && AcquireStep(s, id, c, database).Some?
    ensures TokenInv(AcquireStep(s, id, c, database).value)
  {
    var t := AcquireStep(s, id, c, database).value;
    AcquireMovesOn(s, id, c, database, t);
    MovedOnKeepsTokens(s, id, c, t, t.calls[id].phase.Running?);
  }

  /** An acquisition answers the call at once or goes on under the lock. */
  lemma AcquireAnswersOrLocks(s: State, id: nat, c: Call, database: Database, t: State) returns (d: Call)
    requires AcquireStep(s, id, c, database) == Some(t)
    ensures d == c || d == c.(lock := Some(s.now + LOCK_SECONDS))
    ensures || t == Locked(s.(records := t.records), id, d)
            || (id in t.calls && t.calls[id].phase.Done? && t == Moved(s.(records := t.records), id, c, t.calls[id].phase))
  {
    d := if c.key.None? then c else c.(lock := Some(s.now + LOCK_SECONDS));
  }

  lemma AcquireMovesOn(s: State, id: nat, c: Call, database: Database, t: State)
    requires id in s.calls && s.calls[id] == c && AcquireStep(s, id, c, database) == Some(t)
    ensures id in t.calls && MovedOn(s, id, c, t, t.calls[id].phase.Running?) && t.tokens == s.tokens
    ensures t.calls[id].phase.Running? ==> c.token.None?
  {
    var d := AcquireAnswersOrLocks(s, id, c, database, t);
    if t == Locked(s.(records := t.records), id, d) {
      LockedMovesOn(s, t.records, id, c, d);
    }
  }

  lemma LockedMovesOn(s: State, records: map<Key, Record>, id: nat, c: Call, d: Call)
    requires id in s.calls && s.calls[id] == c && d.target == c.target && d.token == c.token && d.key == c.key
    ensures MovedOn(s, id, c, Locked(s.(records := records), id, d), c.token.None?)
  {
    assert Locked(s.(records := records), id, d).calls == s.calls[id := d.(phase := if c.token.Some? then Confirming else Running)];
  }

  lemma ConsumeKeepsTokens(s: State, id: nat, c: Call, database: Database)
    requires TokenInv(s) && id in s.calls && s.calls[id] == c && ConsumeStep(s, id, c, database).Some?
    ensures TokenInv(ConsumeStep(s, id, c, database).value)
  {
    var t := ConsumeStep(s, id, c, database).value;
    assert t.calls == s.calls[id := t.calls[id]];
    MovedOnKeepsTokens(s, id, c, t, t.calls[id].phase.Running?);
  }

  lemma {:induction false} RunKeepsTokens(s: State, actions: seq<Action>, t: State)
    requires TokenInv(s) && Reaches(s, actions, t)
    ensures TokenInv(t)
    decreases |actions|
  {
    if actions != [] {
      TokenStepKeeps(s, actions[0]);
      RunKeepsTokens(Step(s, actions[0]).value, actions[1..], t);
    }
  }

  // ---- In time -----------------------------------------------------------------------------

  /** A token runs out 300 seconds after it was issued, and a body started with it started in between. */
  ghost predicate TimeInv(s: State) {
    && s.issued.Keys == s.tokens.Keys
    && (forall k :: k in s.tokens ==> s.issued[k] <= s.now && s.tokens[k].expiresAt == s.issued[k] + 300)
    && (forall i :: 0 <= i < |s.starts| && s.starts[i].token.Some? ==> InTime(s, s.starts[i]))
  }

  ghost predicate InTime(s: State, b: Start)
    requires b.token.Some?
  {
    b.token.value in s.issued && s.issued[b.token.value] <= b.at < s.issued[b.token.value] + 300
  }

  lemma CallKeepsTime(s: State, id: nat, event: Event, t: State)
    requires TokenInv(s) && TimeInv(s) && id in s.calls && CallStep(s, id, s.calls[id], event) == Some(t)
    ensures TimeInv(t)
  {
    if event.Acquires? {
      AcquireStartsWithoutToken(s, id, event.database, t);
    } else if event.Consumes? {
      ConsumeStartsInTime(s, id, event.database, t);
    } else {
      QuietEventsStartNothing(s, id, event, t);
    }
  }

  lemma AcquireStartsWithoutToken(s: State, id: nat, database: Database, t: State)
    requires id in s.calls && AcquireStep(s, id, s.calls[id], database) == Some(t)
    ensures t.tokens == s.tokens && t.issued == s.issued && t.now == s.now
    ensures t.starts == s.starts || (|t.starts| == |s.starts| + 1 && t.starts[..|s.starts|] == s.starts && t.starts[|s.starts|].token.None?)
  {
  }

  lemma ConsumeStartsInTime(s: State, id: nat, database: Database, t: State)
    requires TimeInv(s) && id in s.calls && ConsumeStep(s, id, s.calls[id], database) == Some(t)
    ensures TimeInv(t)
  {
    var c := s.calls[id];
    if !database.Refused? && Consumable(s.tokens, c.token.value, c.target, s.now) {
      var b := Start(id, c.token, c.target, s.now);
      assert InTime(s, b);
      assert t.starts == s.starts || t.starts == s.starts + [b];
    }
  }

  lemma QuietEventsStartNothing(s: State, id: nat, event: Event, t: State)
    requires id in s.calls && !event.Acquires? && !event.Consumes? && CallStep(s, id, s.calls[id], event) == Some(t)
    ensures t.tokens == s.tokens && t.issued == s.issued && t.now == s.now && t.starts == s.starts
  {
  }

  lemma StepKeepsTime(s: State, a: Action, t: State)
    requires TokenInv(s) && TimeInv(s) && Step(s, a) == Some(t)
    ensures TimeInv(t)
  {
    match a
    case Ask(_, _, _, _) =>
    case Issue(token, _) =>
      forall i | 0 <= i < |t.starts| && t.starts[i].token.Some? ensures InTime(t, t.starts[i]) {
        assert InTime(s, s.starts[i]) && s.starts[i].token.value in s.tokens;
      }
    case Pass(_) =>
    case Proceed(call, event) => CallKeepsTime(s, call, event, t);
  }

  lemma {:induction false} RunKeepsTime(s: State, actions: seq<Action>, t: State)
    requires TokenInv(s) && TimeInv(s) && Reaches(s, actions, t)
    ensures TimeInv(t)
    decreases |actions|
  {
    if actions != [] {
      TokenStepKeeps(s, actions[0]);
      StepKeepsTime(s, actions[0], Step(s, actions[0]).value);
      RunKeepsTime(Step(s, actions[0]).value, actions[1..], t);
    }
  }

  /**
   In every run, a cancellation body was confirmed for exactly its target, by a token that started no other
   body and had been issued less than 300 seconds before.
   */
  lemma OneBodyPerToken(actions: seq<Action>, s: State, i: nat, j: nat)
    requires Reaches(Initial, actions, s)
    requires i < |s.starts| && j < |s.starts| && s.starts[i].target.tool == "cancel_event"
    ensures s.starts[i].token.Some? && s.starts[i].token.value in s.tokens
    ensures s.tokens[s.starts[i].token.value].target == s.starts[i].target
    ensures s.starts[i].token == s.starts[j].token ==> i == j
    ensures var token := s.starts[i].token.value;
            token in s.issued && s.issued[token] <= s.starts[i].at < s.issued[token] + 300
  {
    RunKeepsTokens(Initial, actions, s);
    RunKeepsTime(Initial, actions, s);
    assert InTime(s, s.starts[i]);
  }

  /** In every run, a token that was issued is accepted exactly for its target, unspent, within 300 seconds. */
  lemma ATokenIsAcceptedExactlyInTime(actions: seq<Action>, s: State, id: nat, token: Token, t: State)
    requires Reaches(Initial, actions, s) && id in s.calls && s.calls[id].phase.Confirming? && s.calls[id].token == Some(token)
    requires token in s.issued && Step(s, Proceed(id, Consumes(Answered))) == Some(t)
    ensures token in s.tokens
    ensures t.calls[id].phase.Running? <==>
              s.tokens[token].target == s.calls[id].target && !s.tokens[token].consumed && s.now < s.issued[token] + 300
    ensures token in t.tokens && (t.calls[id].phase.Running? ==> t.tokens[token].consumed)
  {
    RunKeepsTokens(Initial, actions, s);
    RunKeepsTime(Initial, actions, s);
  }

  /** A query of a keyed call that fails, before or after taking effect, ends it with an error; a lock it holds stays. */
  lemma AFailingQueryEndsTheCall(s: State, id: nat, event: Event, t: State)
    requires id in s.calls && s.calls[id].key.Some? && Step(s, Proceed(id, event)) == Some(t)
    requires (event.Acquires? || event.Consumes?) && !event.database.Answered?
    ensures id in t.calls && t.calls[id].phase == Done(Unavailable) && t.starts == s.starts
    ensures event.Consumes? || event.database.Refused? ==> t.records == s.records
    ensures event.Acquires? || event.database.Refused? ==> t.tokens == s.tokens
  {
  }

  /** In every run, a call of a write tool has a key, and a tool other than `cancel_event` needs no token. */
  lemma EveryWriteIsKeyed(actions: seq<Action>, s: State, id: nat)
    requires Reaches(Initial, actions, s) && id in s.calls
    ensures s.calls[id].target.tool == "book_event" || s.calls[id].target.tool == "cancel_event" ==> s.calls[id].key.Some?
    ensures s.calls[id].token.Some? <==> s.calls[id].target.tool == "cancel_event"
  {
    RunKeepsTokens(Initial, actions, s);
  }

  // ---- Undisturbed -------------------------------------------------------------------------

  /** What a call does next when every database call is answered. */
  function NextEvent(phase: Phase, outcome: BodyOutcome): Event {
    match phase
    case Asked => Acquires(Answered)
    case Confirming => Consumes(Answered)
    case Running => BodyEnds(outcome)
    case Produced(_) => Commits(Answered)
    case Refusing(_) => Releases(Answered)
    case Done(_) => Stops
  }

  /** The call runs on alone until it is done. */
  ghost predicate RunsAlone(s: State, id: nat, outcome: BodyOutcome, steps: nat, t: State)
    decreases steps
  {
    && id in s.calls
    && if s.calls[id].phase.Done? then s == t
       else
         && steps > 0
         && var next := Step(s, Proceed(id, NextEvent(s.calls[id].phase, outcome)));
         next.Some? && RunsAlone(next.value, id, outcome, steps - 1, t)
  }

  lemma RefusingAlone(s: State, id: nat, outcome: BodyOutcome, steps: nat, t: State)
    requires id in s.calls && s.calls[id].phase.Refusing? && s.calls[id].key.Some? && RunsAlone(s, id, outcome, steps, t)
    ensures id in t.calls && t.calls[id].phase == Done(s.calls[id].phase.reply) && t.tokens == s.tokens && t.starts == s.starts
    ensures t.records == ReleaseRecords(s.records, s.calls[id].key.value, s.calls[id].target.tenant)
  {
    var u := ReleaseStep(s, id, s.calls[id], Answered).value;
    assert RunsAlone(u, id, outcome, steps - 1, t);
  }

  lemma ProducedAlone(s: State, id: nat, outcome: BodyOutcome, steps: nat, t: State)
    requires id in s.calls && s.calls[id].phase.Produced? && s.calls[id].key.Some? && RunsAlone(s, id, outcome, steps, t)
    ensures id in t.calls && t.calls[id].phase == Done(Success(s.calls[id].phase.payload)) && t.tokens == s.tokens && t.starts == s.starts
    ensures t.records == CommitRecords(s.records, s.calls[id].key.value, s.calls[id].target.tenant, s.calls[id].phase.payload)
  {
    var u := CommitStep(s, id, s.calls[id], Answered).value;
    assert RunsAlone(u, id, outcome, steps - 1, t);
  }

  lemma RunningAlone(s: State, id: nat, outcome: BodyOutcome, steps: nat, t: State)
    requires id in s.calls && s.calls[id].phase.Running? && s.calls[id].key.Some? && RunsAlone(s, id, outcome, steps, t)
    requires Visible(s.records, s.calls[id].key.value, s.calls[id].target.tenant)
    ensures id in t.calls && t.calls[id].phase.Done? && t.tokens == s.tokens && t.starts == s.starts
    ensures var key, reply := s.calls[id].key.value, t.calls[id].phase.outcome;
            match outcome
            case Returns(payload) => reply == Success(payload) && t.records == s.records[key := s.records[key].(status := Committed, payload := Some(payload))]
            case Conflicts => reply == SlotConflict && t.records == s.records[key := s.records[key].(status := Refunded)]
            case AsksConfirmation => reply == ConfirmationRequired && t.records == s.records
            case Raises => reply == ExecutionError && t.records == s.records[key := s.records[key].(status := Refunded)]
  {
    var u := BodyStep(s, id, s.calls[id], outcome).value;
    assert RunsAlone(u, id, outcome, steps - 1, t);
    match outcome
    case Returns(_) => ProducedAlone(u, id, outcome, steps - 1, t);
    case Conflicts => RefusingAlone(u, id, outcome, steps - 1, t);
    case AsksConfirmation =>
    case Raises => RefusingAlone(u, id, outcome, steps - 1, t);
  }

  /** From the lock on. */
  lemma LockedAlone(s: State, id: nat, c: Call, outcome: BodyOutcome, steps: nat, t: State)
    requires c.key.Some? && RunsAlone(Locked(s, id, c), id, outcome, steps, t)
    requires Visible(s.records, c.key.value, c.target.tenant)
    requires s.records[c.key.value] == Record(c.target.tenant, Acquired, None, s.now + 60)
    ensures id in t.calls && t.calls[id].phase.Done?
    ensures Settled(s.records, s.tokens, c.key.value, c.target, c.token, outcome, s.now,
                    t.calls[id].phase.outcome, |t.starts| > |s.starts|, t.records, t.tokens)
  {
    var u := Locked(s, id, c);
    if c.token.None? {
      RunningAlone(u, id, outcome, steps, t);
    } else {
      var v := ConsumeStep(u, id, u.calls[id], Answered).value;
      assert RunsAlone(v, id, outcome, steps - 1, t);
      if Consumable(s.tokens, c.token.value, c.target, s.now) {
        RunningAlone(v, id, outcome, steps - 1, t);
      } else {
        RefusingAlone(v, id, outcome, steps - 1, t);
      }
    }
  }

  lemma RelockingIsTheSame(was: map<Key, Record>, tokensWere: map<Token, TokenRow>, key: Key, c: Call, outcome: BodyOutcome, now: int,
                           reply: Reply, ran: bool, records: map<Key, Record>, tokens: map<Token, TokenRow>, lock: Record)
    requires Settled(was[key := lock], tokensWere, key, c.target, c.token, outcome, now, reply, ran, records, tokens)
    ensures Settled(was, tokensWere, key, c.target, c.token, outcome, now, reply, ran, records, tokens)
  {
  }

  /** Every keyed call that runs on alone, in any state, is `execute_tool` as specified for one undisturbed call. */
  lemma AnUndisturbedCallIsExecuteTool(s: State, id: nat, key: Key, outcome: BodyOutcome, steps: nat, t: State)
    requires id in s.calls && s.calls[id].phase.Asked? && s.calls[id].key == Some(key)
    requires RunsAlone(s, id, outcome, steps, t)
    ensures id in t.calls && t.calls[id].phase.Done?
    ensures Executed(s.records, s.tokens, key, s.calls[id].target, s.calls[id].token, outcome, s.now,
                     t.calls[id].phase.outcome, |t.starts| > |s.starts|, t.records, t.tokens)
  {
    var c := s.calls[id];
    var u := AcquireStep(s, id, c, Answered).value;
    assert RunsAlone(u, id, outcome, steps - 1, t);
    if LockFree(s.records, key, c.target.tenant, s.now) {
      var locked := s.(records := AcquireRecords(s.records, key, c.target.tenant, s.now));
      var d := c.(lock := Some(s.now + LOCK_SECONDS));
      assert u == Locked(locked, id, d);
      LockedAlone(locked, id, d, outcome, steps - 1, t);
      RelockingIsTheSame(s.records, s.tokens, key, c, outcome, s.now, t.calls[id].phase.outcome, |t.starts| > |s.starts|,
                         t.records, t.tokens, locked.records[key]);
    }
  }

  /** A call that confirms has a token, and one that commits or releases has a key. */
  predicate WellFormed(c: Call) {
    && (c.phase.Confirming? ==> c.token.Some?)
    && (c.phase.Produced? || c.phase.Refusing? ==> c.key.Some?)
  }

  /** `next` is a well-formed state of the call that is nearer to the end. */
  predicate Nearer(s: State, id: nat, next: Option<State>)
    requires id in s.calls
  {
    next.Some? && id in next.value.calls && WellFormed(next.value.calls[id]) && Left(next.value.calls[id].phase) < Left(s.calls[id].phase)
  }

  lemma AcquiringIsProgress(s: State, id: nat)
    requires id in s.calls && s.calls[id].phase.Asked?
    ensures Nearer(s, id, AcquireStep(s, id, s.calls[id], Answered))
  {
  }

  lemma ConsumingIsProgress(s: State, id: nat)
    requires id in s.calls && s.calls[id].phase.Confirming? && WellFormed(s.calls[id])
    ensures Nearer(s, id, ConsumeStep(s, id, s.calls[id], Answered))
  {
  }

  lemma NextEventIsProgress(s: State, id: nat, outcome: BodyOutcome)
    requires id in s.calls && WellFormed(s.calls[id]) && !s.calls[id].phase.Done?
    ensures Nearer(s, id, Step(s, Proceed(id, NextEvent(s.calls[id].phase, outcome))))
  {
    match s.calls[id].phase
    case Asked => AcquiringIsProgress(s, id);
    case Confirming => ConsumingIsProgress(s, id);
    case _ =>
  }

  /** Five answered steps are always enough for a call that runs on alone. */
  lemma AnUndisturbedCallEnds(s: State, id: nat, outcome: BodyOutcome) returns (t: State)
    requires id in s.calls && WellFormed(s.calls[id])
    ensures Left(s.calls[id].phase) <= 5 && RunsAlone(s, id, outcome, Left(s.calls[id].phase), t)
    decreases Left(s.calls[id].phase)
  {
    if s.calls[id].phase.Done? {
      t := s;
    } else {
      var next := Step(s, Proceed(id, NextEvent(s.calls[id].phase, outcome))).value;
      NextEventIsProgress(s, id, outcome);
      t := AnUndisturbedCallEnds(next, id, outcome);
      MoreStepsAreEnough(next, id, outcome, Left(next.calls[id].phase), Left(s.calls[id].phase) - 1, t);
    }
  }

  function Left(phase: Phase): nat {
    match phase
    case Asked => 5
    case Confirming => 4
    case Running => 3
    case Produced(_) => 2
    case Refusing(_) => 1
    case Done(_) => 0
  }

  lemma {:induction false} MoreStepsAreEnough(s: State, id: nat, outcome: BodyOutcome, few: nat, many: nat, t: State)
    requires few <= many && RunsAlone(s, id, outcome, few, t)
    ensures RunsAlone(s, id, outcome, many, t)
    decreases few
  {
    if !s.calls[id].phase.Done? {
      MoreStepsAreEnough(Step(s, Proceed(id, NextEvent(s.calls[id].phase, outcome))).value, id, outcome, few - 1, many - 1, t);
    }
  }
}
