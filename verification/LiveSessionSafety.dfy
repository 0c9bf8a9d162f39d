/**
 Every interleaving of the session's awaits, room events, timers and user actions.  Rooms may go live
 even after they were told to disconnect, and any event of any room may arrive at any time.
 */
module LiveSessionSafety {
  import opened Common
  import opened LiveSession

  /** A suspended piece of code: what it captured before its await. */
  datatype Pending =
    | AwaitToken(generation: nat)
    | AwaitConnect(generation: nat, room: RoomId, settled: bool)
    | AwaitMic(generation: nat, room: RoomId)
    | AwaitResume(generation: nat, room: RoomId, track: Handle)
    | AwaitPlay(generation: nat, element: Handle)

  datatype RoomInfo = RoomInfo(generation: nat, live: bool)

  datatype State = State(refs: Refs, rooms: map<RoomId, RoomInfo>, pending: map<nat, Pending>)

  const Initial := State(Fresh, map[], map[])

  // ---- Actions ---------------------------------------------------------------------------

  datatype RoomEvent =
    | ReconnectingEvent | ReconnectedEvent(p: nat) | DisconnectedEvent
    | LifecycleEvent(session: Handle, state: Lifecycle)
    | TrackEvent(track: Handle, element: Handle, context: Handle, p: nat)
    | TrackGoneEvent(track: Handle, roomConnected: bool)
    | SpeakersEvent(agentSpeaks: bool, p: nat)
    | ElementStops(track: Handle)

  datatype Resumption =
    | TokenArrives(room: RoomId) | TokenFails
    | RoomLive | ConnectReturns | ConnectFails
    | MicReturns(mic: Option<Handle>) | MicFails
    | ContextResumed(source: Handle, gain: Handle, p: nat)
    | PlaySettles(activated: bool)

  datatype UserAction =
    | Connect(session: Handle, p: nat) | HangsUp | SpeechStarts | SpeechEnds(agentSpeaks: bool, p: nat)
    | Interrupts | Gesture(p: nat) | TogglesMute

  datatype Action =
    | FromRoom(room: RoomId, event: RoomEvent)
    | Resume(id: nat, resumption: Resumption)
    | HeartbeatExpires(connected: bool)
    | ByUser(userAction: UserAction)

  // ---- Steps -----------------------------------------------------------------------------

  function Kill(rooms: map<RoomId, RoomInfo>, room: Option<RoomId>): map<RoomId, RoomInfo> {
    if room.Some? && room.value in rooms then rooms[room.value := rooms[room.value].(live := false)] else rooms
  }

  /** `void activateAssistantAudio()`: suspends on the play attempt, as pending entry `p`, when it can try. */
  function Activate(s: State, p: nat): State {
    if CanActivate(s.refs) && p !in s.pending
    then s.(pending := s.pending[p := AwaitPlay(s.refs.generation, s.refs.media.element.value)]) else s
  }

  function RoomStep(s: State, room: RoomId, e: RoomEvent): State {
    if room !in s.rooms then s else
    var current := IsCurrent(s.refs, s.rooms[room].generation, room);
    match e
    case DisconnectedEvent =>
      s.(refs := OnDisconnected(s.refs, s.rooms[room].generation, room), rooms := Kill(s.rooms, Some(room)))
    case _ => if current then CurrentRoomStep(s, room, e) else s
  }

  function CurrentRoomStep(s: State, room: RoomId, e: RoomEvent): State {
    match e
    case ReconnectingEvent => s.(refs := s.refs.(status := Reconnecting))
    case ReconnectedEvent(p) =>
      var t := s.(refs := OnReconnected(s.refs));
      if s.refs.media.retryPending then Activate(t, p) else t
    case LifecycleEvent(session, state) =>
      var kills := s.refs.session == Some(session) && (state.AgentFailed? || state.Ended?);
      s.(refs := OnLifecycle(s.refs, room, session, state), rooms := if kills then Kill(s.rooms, Some(room)) else s.rooms)
    case TrackEvent(track, element, context, p) =>
      if p in s.pending then s
      else s.(refs := OnTrack(s.refs, track, element, context),
              pending := s.pending[p := AwaitResume(s.refs.generation, room, track)])
    case TrackGoneEvent(track, roomConnected) => s.(refs := OnTrackGone(s.refs, track, roomConnected))
    case SpeakersEvent(agentSpeaks, p) =>
      var t := s.(refs := OnSpeakers(s.refs, agentSpeaks));
      if agentSpeaks && !s.refs.media.userSpeaking && s.refs.media.retryPending then Activate(t, p) else t
    case ElementStops(track) =>
      if s.refs.media.track == Some(track) then s.(refs := s.refs.(media := s.refs.media.(botSpeaking := false))) else s
    case DisconnectedEvent => s
  }

  /** The rest of the connect call of `generation`, when it throws. */
  function Throw(s: State, generation: nat): State {
    s.(refs := CatchConnect(s.refs, generation),
       rooms := if s.refs.generation == generation then Kill(s.rooms, s.refs.room) else s.rooms)
  }

  function Drop(s: State, id: nat): State {
    s.(pending := s.pending - {id})
  }

  /** A suspended connect call found itself superseded: it disconnects its room and leaves. */
  function GiveUp(s: State, generation: nat, room: RoomId): State {
    s.(refs := LeaveConnect(s.refs, generation), rooms := Kill(s.rooms, Some(room)))
  }

  function ResumeStep(s: State, id: nat, a: Resumption): Option<State> {
    if id !in s.pending then None else
    match (s.pending[id], a)
    case (AwaitToken(g), TokenArrives(room)) =>
      if room in s.rooms then None
      else if s.refs.generation != g then Some(Drop(s, id).(refs := LeaveConnect(s.refs, g)))
      else Some(s.(refs := s.refs.(room := Some(room)), rooms := s.rooms[room := RoomInfo(g, false)],
                   pending := s.pending[id := AwaitConnect(g, room, false)]))
    case (AwaitToken(g), TokenFails) => Some(Throw(Drop(s, id), g))
    case (AwaitConnect(g, room, settled), RoomLive) =>
      if settled || room !in s.rooms then None
      else Some(s.(rooms := s.rooms[room := s.rooms[room].(live := true)], pending := s.pending[id := AwaitConnect(g, room, true)]))
    case (AwaitConnect(g, room, settled), ConnectReturns) =>
      if !settled then None
      else if !IsCurrent(s.refs, g, room) then Some(GiveUp(Drop(s, id), g, room))
      else Some(s.(refs := AfterConnected(s.refs, room), pending := s.pending[id := AwaitMic(g, room)]))
    case (AwaitConnect(g, room, settled), ConnectFails) =>
      if settled then None else Some(Throw(Drop(s, id), g))
    case (AwaitMic(g, room), MicReturns(mic)) =>
      if !IsCurrent(s.refs, g, room) then Some(GiveUp(Drop(s, id), g, room))
      else if mic.None? then Some(Throw(Drop(s, id), g))
      else Some(Drop(s, id).(refs := LeaveConnect(s.refs.(media := s.refs.media.(mic := mic)), g)))
    case (AwaitMic(g, room), MicFails) => Some(Throw(Drop(s, id), g))
    case (AwaitResume(g, room, track), ContextResumed(source, gain, p)) =>
      if IsCurrent(s.refs, g, room) && s.refs.media.track == Some(track)
      then Some(Activate(Drop(s, id).(refs := AttachTrack(s.refs, source, gain)), p))
      else Some(Drop(s, id))
    case (AwaitPlay(g, element), PlaySettles(activated)) =>
      Some(Drop(s, id).(refs := AfterPlay(s.refs, g, element, activated)))
    case _ => None
  }

  function UserStep(s: State, a: UserAction): State {
    match a
    case Connect(session, p) =>
      if MayConnect(s.refs) && p !in s.pending
      then s.(refs := BeginConnect(s.refs, session), pending := s.pending[p := AwaitToken(s.refs.generation + 1)]) else s
    case HangsUp => s.(refs := HangUp(s.refs), rooms := Kill(s.rooms, s.refs.room))
    case SpeechStarts => s.(refs := s.refs.(media := s.refs.media.(userSpeaking := true)))
    case SpeechEnds(agentSpeaks, p) =>
      var t := Activate(s.(refs := s.refs.(media := s.refs.media.(userSpeaking := false))), p);
      if s.refs.room.Some? && agentSpeaks then t.(refs := t.refs.(media := t.refs.media.(botSpeaking := true))) else t
    case Interrupts => s.(refs := s.refs.(media := s.refs.media.(botSpeaking := false)))
    case Gesture(p) => if s.refs.media.retryPending then Activate(s, p) else s
    case TogglesMute =>
      if s.refs.room.Some? then s.(refs := s.refs.(media := s.refs.media.(muted := !s.refs.media.muted))) else s
  }

  function Step(s: State, a: Action): Option<State> {
    match a
    case FromRoom(room, event) => Some(RoomStep(s, room, event))
    case Resume(id, resumption) => ResumeStep(s, id, resumption)
    case HeartbeatExpires(connected) =>
      if s.refs.heartbeat.None? then None
      else
        var room := s.refs.heartbeat.value;
        var t := s.(refs := s.refs.(heartbeat := None));
        if s.refs.room == Some(room) && connected
        then Some(t.(refs := FailSession(t.refs, room), rooms := Kill(s.rooms, Some(room)))) else Some(t)
    case ByUser(action) => Some(UserStep(s, action))
  }

  ghost predicate Reaches(s: State, actions: seq<Action>, t: State)
    decreases |actions|
  {
    if actions == [] then s == t
    else Step(s, actions[0]).Some? && Reaches(Step(s, actions[0]).value, actions[1..], t)
  }

  // ---- Invariant -------------------------------------------------------------------------

  /** `id` is a connect call that will disconnect `room` when it resumes, because the session has moved on. */
  predicate Disconnector(s: State, id: nat, room: RoomId) {
    id in s.pending && Settled(s.pending[id]) && s.pending[id].room == room && !IsCurrent(s.refs, s.pending[id].generation, room)
  }

  predicate Settled(p: Pending) {
    p.AwaitConnect? && p.settled
  }

  ghost predicate WillDisconnect(s: State, room: RoomId) {
    exists id :: Disconnector(s, id, room)
  }

  /** The current room is of the current generation, the refs agree with it, and a failed session has none. */
  ghost predicate RefsInv(s: State) {
    && (s.refs.room.Some? ==> s.refs.room.value in s.rooms && s.rooms[s.refs.room.value].generation == s.refs.generation)
    && Marked(s.refs)
    && (s.refs.status.Error? ==> s.refs.room.None? && s.refs.inFlight.None?)
  }

  predicate IsCall(p: Pending) {
    p.AwaitToken? || p.AwaitConnect? || p.AwaitMic?
  }

  /** Captured generations are past or current, and a captured room is the one its generation created. */
  ghost predicate PendingInv(s: State) {
    && (forall id :: id in s.pending ==> s.pending[id].generation <= s.refs.generation)
    && (forall id :: id in s.pending && (s.pending[id].AwaitConnect? || s.pending[id].AwaitMic?) ==>
          s.pending[id].room in s.rooms && s.rooms[s.pending[id].room].generation == s.pending[id].generation)
    && (forall room :: room in s.rooms ==> s.rooms[room].generation <= s.refs.generation)
  }

  /** One connect call per generation; while the current one waits for its token it holds the in-flight mark. */
  ghost predicate CallsInv(s: State) {
    && (forall i, j :: i in s.pending && j in s.pending && IsCall(s.pending[i]) && IsCall(s.pending[j]) ==>
          (s.pending[i].generation == s.pending[j].generation ==> i == j))
    && (forall id :: id in s.pending && s.pending[id].AwaitToken? && s.pending[id].generation == s.refs.generation ==>
          s.refs.inFlight == Some(s.refs.generation) && s.refs.room.None?)
  }

  ghost predicate RoomsInv(s: State) {
    forall room :: room in s.rooms && s.rooms[room].live ==> s.refs.room == Some(room) || WillDisconnect(s, room)
  }

  ghost predicate Inv(s: State) {
    RefsInv(s) && SilentWithoutRoom(s.refs) && PendingInv(s) && CallsInv(s) && RoomsInv(s)
  }

  // ---- Steps that stay in the session ------------------------------------------------------

  /** `t` is `s` after code that neither enters nor leaves a session. */
  ghost predicate SameSession(s: State, t: State) {
    && t.refs.generation == s.refs.generation && t.refs.room == s.refs.room && t.refs.inFlight == s.refs.inFlight
    && (t.refs.heartbeat.None? || t.refs.heartbeat == t.refs.room)
    && (t.refs.status.Error? ==> s.refs.status.Error?)
    && (t.rooms == s.rooms || exists room :: t.rooms == Kill(s.rooms, Some(room)))
    && (forall id :: id in s.pending ==> id in t.pending && t.pending[id] == s.pending[id])
    && (forall id :: id in t.pending && id !in s.pending ==>
          !IsCall(t.pending[id]) && t.pending[id].generation <= t.refs.generation)
  }

  lemma SameSessionKeeps(s: State, t: State)
    requires Inv(s) && SameSession(s, t) && SilentWithoutRoom(t.refs)
    ensures Inv(t)
  {
    forall room | room in t.rooms && t.rooms[room].live ensures t.refs.room == Some(room) || WillDisconnect(t, room) {
      if t.refs.room != Some(room) {
        var id :| Disconnector(s, id, room);
        assert Disconnector(t, id, room);
      }
    }
  }

  lemma ActivateKeeps(s: State, p: nat)
    requires Inv(s)
    ensures Inv(Activate(s, p)) && Activate(s, p).refs == s.refs && Activate(s, p).rooms == s.rooms
  {
    SameSessionKeeps(s, Activate(s, p));
  }

  lemma CurrentRoomStepKeeps(s: State, room: RoomId, e: RoomEvent)
    requires Inv(s) && room in s.rooms && IsCurrent(s.refs, s.rooms[room].generation, room) && !e.LifecycleEvent?
    ensures Inv(CurrentRoomStep(s, room, e))
  {
    var t := CurrentRoomStep(s, room, e);
    match e
    case ReconnectedEvent(p) =>
      var u := s.(refs := OnReconnected(s.refs));
      SameSessionKeeps(s, u);
      ActivateKeeps(u, p);
    case SpeakersEvent(agentSpeaks, p) =>
      var u := s.(refs := OnSpeakers(s.refs, agentSpeaks));
      SameSessionKeeps(s, u);
      ActivateKeeps(u, p);
    case ReconnectingEvent => SameSessionKeeps(s, t);
    case TrackEvent(_, _, _, _) => SameSessionKeeps(s, t);
    case TrackGoneEvent(_, _) => SameSessionKeeps(s, t);
    case ElementStops(_) => SameSessionKeeps(s, t);
    case DisconnectedEvent =>
  }

  // ---- Steps that leave the session --------------------------------------------------------

  /** `t` is `s` after the session was abandoned and its room told to disconnect. */
  ghost predicate Left(s: State, t: State) {
    && t.refs.generation == s.refs.generation + 1 && t.refs.room.None? && t.refs.inFlight.None? && t.refs.heartbeat.None?
    && t.refs.media == NoMedia && t.pending == s.pending && t.rooms == Kill(s.rooms, s.refs.room)
  }

  lemma LeavingKeeps(s: State, t: State)
    requires Inv(s) && Left(s, t)
    ensures Inv(t)
  {
    forall room | room in t.rooms && t.rooms[room].live ensures WillDisconnect(t, room) {
      var id :| Disconnector(s, id, room);
      assert Disconnector(t, id, room);
    }
  }

  lemma FailKeeps(s: State, room: RoomId)
    requires Inv(s) && s.refs.room == Some(room)
    ensures Inv(s.(refs := FailSession(s.refs, room), rooms := Kill(s.rooms, Some(room))))
  {
    LeavingKeeps(s, s.(refs := FailSession(s.refs, room), rooms := Kill(s.rooms, Some(room))));
  }

  lemma LifecycleKeeps(s: State, room: RoomId, e: RoomEvent)
    requires Inv(s) && room in s.rooms && IsCurrent(s.refs, s.rooms[room].generation, room) && e.LifecycleEvent?
    ensures Inv(CurrentRoomStep(s, room, e))
  {
    if s.refs.session == Some(e.session) && e.state.AgentFailed? {
      FailKeeps(s, room);
    } else {
      SameSessionKeeps(s, CurrentRoomStep(s, room, e));
    }
  }

  lemma RoomStepKeeps(s: State, room: RoomId, e: RoomEvent)
    requires Inv(s)
    ensures Inv(RoomStep(s, room, e))
  {
    if room in s.rooms {
      var current := IsCurrent(s.refs, s.rooms[room].generation, room);
      if e.DisconnectedEvent? {
        var t := RoomStep(s, room, e);
        if current {
          LeavingKeeps(s, t);
        } else {
          SameSessionKeeps(s, t);
        }
      } else if current {
        if e.LifecycleEvent? {
          LifecycleKeeps(s, room, e);
        } else {
          CurrentRoomStepKeeps(s, room, e);
        }
      }
    }
  }

  // ---- Suspended code resumes --------------------------------------------------------------

  lemma DropKeeps(s: State, id: nat)
    requires Inv(s) && id in s.pending && !Settled(s.pending[id])
    ensures Inv(Drop(s, id))
  {
    var t := Drop(s, id);
    forall room | room in t.rooms && t.rooms[room].live ensures t.refs.room == Some(room) || WillDisconnect(t, room) {
      if t.refs.room != Some(room) {
        var id :| Disconnector(s, id, room);
        assert Disconnector(t, id, room);
      }
    }
  }

  /** The connect call of generation `g` has ended, so no suspended call of that generation is left. */
  lemma LeaveKeeps(s: State, g: nat)
    requires Inv(s) && forall id :: id in s.pending && IsCall(s.pending[id]) ==> s.pending[id].generation != g
    ensures Inv(s.(refs := LeaveConnect(s.refs, g)))
  {
    var t := s.(refs := LeaveConnect(s.refs, g));
    forall room | room in t.rooms && t.rooms[room].live ensures t.refs.room == Some(room) || WillDisconnect(t, room) {
      if t.refs.room != Some(room) {
        var id :| Disconnector(s, id, room);
        assert Disconnector(t, id, room);
      }
    }
  }

  lemma ThrowKeeps(s: State, g: nat)
    requires Inv(s) && forall id :: id in s.pending && IsCall(s.pending[id]) ==> s.pending[id].generation != g
    ensures Inv(Throw(s, g))
  {
    if s.refs.generation == g {
      LeavingKeeps(s, Throw(s, g));
    } else {
      LeaveKeeps(s, g);
    }
  }

  lemma GiveUpKeeps(s: State, id: nat)
    requires Inv(s) && id in s.pending && (Settled(s.pending[id]) || s.pending[id].AwaitMic?)
    requires !IsCurrent(s.refs, s.pending[id].generation, s.pending[id].room)
    ensures Inv(GiveUp(Drop(s, id), s.pending[id].generation, s.pending[id].room))
  {
    var t := GiveUp(Drop(s, id), s.pending[id].generation, s.pending[id].room);
    forall room | room in t.rooms && t.rooms[room].live ensures t.refs.room == Some(room) || WillDisconnect(t, room) {
      if t.refs.room != Some(room) {
        var id :| Disconnector(s, id, room);
        assert Disconnector(t, id, room);
      }
    }
  }

  lemma TokenKeeps(s: State, id: nat, a: Resumption)
    requires Inv(s) && id in s.pending && s.pending[id].AwaitToken? && ResumeStep(s, id, a).Some?
    ensures Inv(ResumeStep(s, id, a).value)
  {
    var g := s.pending[id].generation;
    DropKeeps(s, id);
    if a.TokenFails? {
      ThrowKeeps(Drop(s, id), g);
    } else if s.refs.generation != g {
      LeaveKeeps(Drop(s, id), g);
    } else {
      AdoptKeeps(s, id, a.room);
    }
  }

  lemma AdoptKeeps(s: State, id: nat, room: RoomId)
    requires Inv(s) && id in s.pending && s.pending[id] == AwaitToken(s.refs.generation) && room !in s.rooms
    ensures Inv(ResumeStep(s, id, TokenArrives(room)).value)
  {
    var t := ResumeStep(s, id, TokenArrives(room)).value;
    forall other | other in t.rooms && t.rooms[other].live ensures WillDisconnect(t, other) {
      var w :| Disconnector(s, w, other);
      assert Disconnector(t, w, other);
    }
  }

  lemma ConnectCallKeeps(s: State, id: nat, a: Resumption)
    requires Inv(s) && id in s.pending && s.pending[id].AwaitConnect? && ResumeStep(s, id, a).Some?
    ensures Inv(ResumeStep(s, id, a).value)
  {
    var AwaitConnect(g, room, settled) := s.pending[id];
    var t := ResumeStep(s, id, a).value;
    if a.ConnectFails? {
      DropKeeps(s, id);
      ThrowKeeps(Drop(s, id), g);
    } else if a.ConnectReturns? && !IsCurrent(s.refs, g, room) {
      GiveUpKeeps(s, id);
    } else {
      forall other | other in t.rooms && t.rooms[other].live ensures t.refs.room == Some(other) || WillDisconnect(t, other) {
        if t.refs.room != Some(other) {
          if a.RoomLive? && other == room {
            assert Disconnector(t, id, room);
          } else {
            var w :| Disconnector(s, w, other);
            assert Disconnector(t, w, other);
          }
        }
      }
    }
  }

  lemma MicCallKeeps(s: State, id: nat, a: Resumption)
    requires Inv(s) && id in s.pending && s.pending[id].AwaitMic? && ResumeStep(s, id, a).Some?
    ensures Inv(ResumeStep(s, id, a).value)
  {
    var AwaitMic(g, room) := s.pending[id];
    DropKeeps(s, id);
    if a.MicFails? || (IsCurrent(s.refs, g, room) && a.mic.None?) {
      ThrowKeeps(Drop(s, id), g);
    } else if !IsCurrent(s.refs, g, room) {
      GiveUpKeeps(s, id);
    } else {
      var u := Drop(s, id).(refs := s.refs.(media := s.refs.media.(mic := a.mic)));
      SameSessionKeeps(Drop(s, id), u);
      LeaveKeeps(u, g);
    }
  }

  lemma AudioCallKeeps(s: State, id: nat, a: Resumption)
    requires Inv(s) && id in s.pending && (s.pending[id].AwaitResume? || s.pending[id].AwaitPlay?) && ResumeStep(s, id, a).Some?
    ensures Inv(ResumeStep(s, id, a).value)
  {
    DropKeeps(s, id);
    var d := Drop(s, id);
    match a
    case ContextResumed(source, gain, p) =>
      if IsCurrent(s.refs, s.pending[id].generation, s.pending[id].room) && s.refs.media.track == Some(s.pending[id].track) {
        var u := d.(refs := AttachTrack(s.refs, source, gain));
        SameSessionKeeps(d, u);
        ActivateKeeps(u, p);
      }
    case PlaySettles(activated) =>
      SameSessionKeeps(d, ResumeStep(s, id, a).value);
  }

  // ---- User actions and the timer ----------------------------------------------------------

  lemma UserStepKeeps(s: State, a: UserAction)
    requires Inv(s)
    ensures Inv(UserStep(s, a))
  {
    var t := UserStep(s, a);
    match a
    case Connect(_, p) => ConnectKeeps(s, a);
    case HangsUp => LeavingKeeps(s, t);
    case SpeechEnds(_, p) =>
      var u := s.(refs := s.refs.(media := s.refs.media.(userSpeaking := false)));
      SameSessionKeeps(s, u);
      ActivateKeeps(u, p);
      SameSessionKeeps(Activate(u, p), t);
    case Gesture(p) => ActivateKeeps(s, p);
    case SpeechStarts => SameSessionKeeps(s, t);
    case Interrupts => SameSessionKeeps(s, t);
    case TogglesMute => SameSessionKeeps(s, t);
  }

  lemma ConnectKeeps(s: State, a: UserAction)
    requires Inv(s) && a.Connect?
    ensures Inv(UserStep(s, a))
  {
    var t := UserStep(s, a);
    if MayConnect(s.refs) && a.p !in s.pending {
      forall room | room in t.rooms && t.rooms[room].live ensures WillDisconnect(t, room) {
        var id :| Disconnector(s, id, room);
        assert Disconnector(t, id, room);
      }
    }
  }

  lemma TimerKeeps(s: State, connected: bool)
    requires Inv(s) && s.refs.heartbeat.Some?
    ensures Inv(Step(s, HeartbeatExpires(connected)).value)
  {
    var t := s.(refs := s.refs.(heartbeat := None));
    SameSessionKeeps(s, t);
    if connected {
      FailKeeps(t, s.refs.heartbeat.value);
    }
  }

  // ---- Every run -----------------------------------------------------------------------------

  lemma StepKeeps(s: State, a: Action)
    requires Inv(s) && Step(s, a).Some?
    ensures Inv(Step(s, a).value)
  {
    match a
    case FromRoom(room, event) => RoomStepKeeps(s, room, event);
    case HeartbeatExpires(connected) => TimerKeeps(s, connected);
    case ByUser(action) => UserStepKeeps(s, action);
    case Resume(id, resumption) =>
      match s.pending[id] {
        case AwaitToken(_) => TokenKeeps(s, id, resumption);
        case AwaitConnect(_, _, _) => ConnectCallKeeps(s, id, resumption);
        case AwaitMic(_, _) => MicCallKeeps(s, id, resumption);
        case AwaitResume(_, _, _) => AudioCallKeeps(s, id, resumption);
        case AwaitPlay(_, _) => AudioCallKeeps(s, id, resumption);
      }
  }

  lemma {:induction false} RunKeeps(s: State, actions: seq<Action>, t: State)
    requires Inv(s) && Reaches(s, actions, t)
    ensures Inv(t)
    decreases |actions|
  {
    if actions != [] {
      StepKeeps(s, actions[0]);
      RunKeeps(Step(s, actions[0]).value, actions[1..], t);
    }
  }

  /** In every run the current room, the in-flight call and the armed timer belong to the current generation. */
  lemma RoomIsOfTheCurrentGeneration(actions: seq<Action>, s: State)
    requires Reaches(Initial, actions, s)
    ensures s.refs.room.Some? ==> s.refs.room.value in s.rooms && s.rooms[s.refs.room.value].generation == s.refs.generation
    ensures s.refs.inFlight.Some? ==> s.refs.inFlight.value == s.refs.generation
    ensures s.refs.heartbeat.Some? ==> s.refs.heartbeat == s.refs.room
  {
    RunKeeps(Initial, actions, s);
  }

  /** Code of an older session: a suspended continuation it left behind, or a handler of its room. */
  predicate Stale(s: State, a: Action) {
    match a
    case FromRoom(room, _) => room in s.rooms && s.rooms[room].generation < s.refs.generation
    case Resume(id, _) => id in s.pending && s.pending[id].generation < s.refs.generation
    case HeartbeatExpires(_) => false
    case ByUser(_) => false
  }

  /** In every run, code of an older session leaves every ref of the current one as it was. */
  lemma StaleCodeChangesNothing(actions: seq<Action>, s: State, a: Action)
    requires Reaches(Initial, actions, s) && Stale(s, a) && Step(s, a).Some?
    ensures Step(s, a).value.refs == s.refs
  {
    RunKeeps(Initial, actions, s);
    if a.Resume? {
      StaleResumption(s, a.id, a.resumption);
    }
  }

  lemma StaleResumption(s: State, id: nat, a: Resumption)
    requires Inv(s) && id in s.pending && s.pending[id].generation < s.refs.generation && ResumeStep(s, id, a).Some?
    ensures ResumeStep(s, id, a).value.refs == s.refs
  {
    match s.pending[id]
    case AwaitToken(_) =>
    case AwaitConnect(_, _, _) =>
    case AwaitMic(_, _) =>
    case AwaitResume(_, _, _) =>
    case AwaitPlay(_, _) =>
  }

  /** In every run, a live room is the current one, or a suspended connect call disconnects it when it resumes. */
  lemma LiveRoomsAreCurrentOrLeaving(actions: seq<Action>, s: State, room: RoomId)
    requires Reaches(Initial, actions, s) && room in s.rooms && s.rooms[room].live
    ensures s.refs.room == Some(room)
         || exists id :: Disconnector(s, id, room) && Step(s, Resume(id, ConnectReturns)).Some?
                         && var t := Step(s, Resume(id, ConnectReturns)).value; room in t.rooms && !t.rooms[room].live
  {
    RunKeeps(Initial, actions, s);
    if s.refs.room != Some(room) {
      var id :| Disconnector(s, id, room);
      var t := Step(s, Resume(id, ConnectReturns)).value;
      assert room in t.rooms && !t.rooms[room].live;
    }
  }

  predicate RestartsOrEnds(a: Action) {
    a.ByUser? && (a.userAction.Connect? || a.userAction.HangsUp?)
  }

  lemma ErrorStays(s: State, a: Action)
    requires Inv(s) && s.refs.status.Error? && !RestartsOrEnds(a) && Step(s, a).Some?
    ensures Step(s, a).value.refs.status.Error?
  {
    match a
    case FromRoom(room, event) =>
    case HeartbeatExpires(connected) =>
    case ByUser(action) =>
    case Resume(id, resumption) => ErrorStaysOnResumption(s, id, resumption);
  }

  lemma ErrorStaysOnResumption(s: State, id: nat, a: Resumption)
    requires Inv(s) && s.refs.status.Error? && ResumeStep(s, id, a).Some?
    ensures ResumeStep(s, id, a).value.refs.status.Error?
  {
    match s.pending[id]
    case AwaitToken(_) =>
    case AwaitConnect(_, _, _) =>
    case AwaitMic(_, _) =>
    case AwaitResume(_, _, _) =>
    case AwaitPlay(_, _) =>
  }

  /** A failed session keeps showing the failure, and stays reconnectable, until the user connects or hangs up. */
  lemma FailureStaysUntilTheUserActs(before: seq<Action>, s: State, after: seq<Action>, t: State)
    requires Reaches(Initial, before, s) && s.refs.status.Error?
    requires Reaches(s, after, t) && forall i :: 0 <= i < |after| ==> !RestartsOrEnds(after[i])
    ensures t.refs.status.Error? && MayConnect(t.refs)
  {
    RunKeeps(Initial, before, s);
    ErrorStaysOverRuns(s, after, t);
  }

  lemma {:induction false} ErrorStaysOverRuns(s: State, actions: seq<Action>, t: State)
    requires Inv(s) && s.refs.status.Error?
    requires Reaches(s, actions, t) && forall i :: 0 <= i < |actions| ==> !RestartsOrEnds(actions[i])
    ensures Inv(t) && t.refs.status.Error?
    decreases |actions|
  {
    if actions != [] {
      StepKeeps(s, actions[0]);
      ErrorStays(s, actions[0]);
      ErrorStaysOverRuns(Step(s, actions[0]).value, actions[1..], t);
    }
  }
}
