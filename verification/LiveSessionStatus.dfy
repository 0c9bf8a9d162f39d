/**
 What the session's status tells the user, in every run of LiveSessionSafety: whether the assistant can be
 heard, and whether a lost session was ended on purpose.
 */
module LiveSessionStatus {
  import opened Common
  import opened LiveSession
  import opened LiveSessionSafety

  // ---- The assistant's audio ---------------------------------------------------------------

  /** The assistant's track and its element come and go together, and only an existing one waits for a retry. */
  ghost predicate AudioInv(r: Refs) {
    && (r.media.hasAudio <==> r.media.element.Some?) && (r.media.hasAudio <==> r.media.track.Some?)
    && (r.media.retryPending ==> r.media.hasAudio)
  }

  /** `Connected` means audio that plays, `WaitingForAudio` audio that waits for the user's gesture. */
  predicate Truthful(r: Refs) {
    && (r.status.Connected? ==> r.media.hasAudio && !r.media.retryPending)
    && (r.status.WaitingForAudio? ==> r.media.hasAudio && r.media.retryPending)
  }

  /** The current room loses the assistant's track while it is not connected. */
  predicate LosesTrackWhileDown(s: State, a: Action) {
    && a.FromRoom? && a.room in s.rooms && IsCurrent(s.refs, s.rooms[a.room].generation, a.room)
    && a.event.TrackGoneEvent? && !a.event.roomConnected && s.refs.media.track == Some(a.event.track)
  }

  predicate ShowsAudio(r: Refs) {
    r.status.Connected? || r.status.WaitingForAudio?
  }

  /** A step keeps the status truthful, unless it loses the track of a room that is down. */
  ghost predicate Keeps(s: State, t: State) {
    AudioInv(s.refs) ==> AudioInv(t.refs) && (Truthful(s.refs) ==> Truthful(t.refs))
  }

  lemma ActivatingShowsNothing(s: State, p: nat)
    ensures Activate(s, p).refs == s.refs
  {
  }

  lemma RoomEventKeeps(s: State, room: RoomId, e: RoomEvent, t: State)
    requires t == RoomStep(s, room, e) && !LosesTrackWhileDown(s, FromRoom(room, e))
    ensures Keeps(s, t)
  {
    if room in s.rooms && IsCurrent(s.refs, s.rooms[room].generation, room) {
      match e
      case ReconnectedEvent(p) => ActivatingShowsNothing(s.(refs := OnReconnected(s.refs)), p);
      case SpeakersEvent(agentSpeaks, p) => ActivatingShowsNothing(s.(refs := OnSpeakers(s.refs, agentSpeaks)), p);
      case LifecycleEvent(session, state) =>
      case ReconnectingEvent =>
      case TrackEvent(_, _, _, _) =>
      case TrackGoneEvent(_, _) =>
      case ElementStops(_) =>
      case DisconnectedEvent =>
    }
  }

  lemma ThrowingKeeps(s: State, g: nat)
    ensures Keeps(s, Throw(s, g))
  {
  }

  lemma ResumingKeeps(s: State, id: nat, a: Resumption, t: State)
    requires ResumeStep(s, id, a) == Some(t)
    ensures Keeps(s, t)
  {
    match s.pending[id]
    case AwaitToken(g) => if a.TokenFails? { ThrowingKeeps(Drop(s, id), g); }
    case AwaitConnect(g, _, _) => if a.ConnectFails? { ThrowingKeeps(Drop(s, id), g); }
    case AwaitMic(g, _) => if a.MicFails? || a.mic.None? { ThrowingKeeps(Drop(s, id), g); }
    case AwaitResume(_, _, _) => ActivatingShowsNothing(Drop(s, id).(refs := AttachTrack(s.refs, a.source, a.gain)), a.p);
    case AwaitPlay(_, _) =>
  }

  lemma UserKeeps(s: State, a: UserAction, t: State)
    requires t == UserStep(s, a)
    ensures Keeps(s, t)
  {
    match a
    case SpeechEnds(_, p) => ActivatingShowsNothing(s.(refs := s.refs.(media := s.refs.media.(userSpeaking := false))), p);
    case Gesture(p) => ActivatingShowsNothing(s, p);
    case Connect(_, _) =>
    case HangsUp =>
    case SpeechStarts =>
    case Interrupts =>
    case TogglesMute =>
  }

  lemma StepKeepsTruth(s: State, a: Action, t: State)
    requires Step(s, a) == Some(t) && !LosesTrackWhileDown(s, a)
    ensures Keeps(s, t)
  {
    match a
    case FromRoom(room, event) => RoomEventKeeps(s, room, event, t);
    case Resume(id, resumption) => ResumingKeeps(s, id, resumption, t);
    case HeartbeatExpires(_) =>
    case ByUser(action) => UserKeeps(s, action, t);
  }

  lemma LosingTheTrack(s: State, a: Action, t: State)
    requires Step(s, a) == Some(t) && LosesTrackWhileDown(s, a)
    ensures t.refs.status == s.refs.status && !t.refs.media.hasAudio && (AudioInv(s.refs) ==> AudioInv(t.refs))
  {
  }

  lemma {:induction false} RunKeepsAudio(s: State, actions: seq<Action>, t: State)
    requires AudioInv(s.refs) && Reaches(s, actions, t)
    ensures AudioInv(t.refs)
    decreases |actions|
  {
    if actions != [] {
      var next := Step(s, actions[0]).value;
      if LosesTrackWhileDown(s, actions[0]) {
        LosingTheTrack(s, actions[0], next);
      } else {
        StepKeepsTruth(s, actions[0], next);
      }
      RunKeepsAudio(next, actions[1..], t);
    }
  }

  /**
   In every run, a step from a truthful status leaves a truthful one, unless it takes the track of a room that
   is down while the status still shows audio; then it never does.
   */
  lemma TheStatusStaysTruthfulExactlyUnless(before: seq<Action>, s: State, a: Action, t: State)
    requires Reaches(Initial, before, s) && Truthful(s.refs) && Step(s, a) == Some(t)
    ensures Truthful(t.refs) <==> !(LosesTrackWhileDown(s, a) && ShowsAudio(s.refs))
  {
    RunKeepsAudio(Initial, before, s);
    if LosesTrackWhileDown(s, a) {
      LosingTheTrack(s, a, t);
    } else {
      StepKeepsTruth(s, a, t);
    }
  }

  // ---- A lost session ----------------------------------------------------------------------

  /** The agent of the current session says that the session has ended. */
  predicate Ends(s: State, a: Action) {
    && a.FromRoom? && a.room in s.rooms && IsCurrent(s.refs, s.rooms[a.room].generation, a.room)
    && a.event.LifecycleEvent? && a.event.state.Ended? && s.refs.session == Some(a.event.session)
  }

  ghost predicate EverEnded(s: State, actions: seq<Action>)
    decreases |actions|
  {
    actions != [] && Step(s, actions[0]).Some?
    && (Ends(s, actions[0]) || EverEnded(Step(s, actions[0]).value, actions[1..]))
  }

  predicate Abandoned(s: State) {
    s.refs.room.None? && s.refs.inFlight.None?
  }

  /** Unless the session is abandoned, only the agent's word changes whether its end is intended. */
  ghost predicate KeepsIntent(s: State, a: Action, t: State) {
    && (Abandoned(t) || (t.refs.intentional <==> s.refs.intentional || Ends(s, a)))
    && (Abandoned(s) ==> Abandoned(t))
  }

  lemma RoomEventKeepsIntent(s: State, room: RoomId, e: RoomEvent, t: State)
    requires Inv(s) && t == RoomStep(s, room, e)
    ensures KeepsIntent(s, FromRoom(room, e), t)
  {
    if room in s.rooms && IsCurrent(s.refs, s.rooms[room].generation, room) {
      match e
      case ReconnectedEvent(p) => ActivatingShowsNothing(s.(refs := OnReconnected(s.refs)), p);
      case SpeakersEvent(agentSpeaks, p) => ActivatingShowsNothing(s.(refs := OnSpeakers(s.refs, agentSpeaks)), p);
      case LifecycleEvent(session, state) =>
      case ReconnectingEvent =>
      case TrackEvent(_, _, _, _) =>
      case TrackGoneEvent(_, _) =>
      case ElementStops(_) =>
      case DisconnectedEvent =>
    }
  }

  lemma ThrowingKeepsIntent(s: State, id: nat, t: State)
    requires id in s.pending && IsCall(s.pending[id]) && t == Throw(Drop(s, id), s.pending[id].generation)
    ensures Abandoned(t) || t.refs.intentional == s.refs.intentional
    ensures Abandoned(s) ==> Abandoned(t)
  {
  }

  lemma ResumingKeepsIntent(s: State, id: nat, a: Resumption, t: State)
    requires Inv(s) && ResumeStep(s, id, a) == Some(t)
    ensures KeepsIntent(s, Resume(id, a), t)
  {
    match s.pending[id]
    case AwaitToken(_) => if a.TokenFails? { ThrowingKeepsIntent(s, id, t); }
    case AwaitConnect(_, _, _) => if a.ConnectFails? { ThrowingKeepsIntent(s, id, t); }
    case AwaitMic(g, room) => if a.MicFails? || (a.mic.None? && IsCurrent(s.refs, g, room)) { ThrowingKeepsIntent(s, id, t); }
    case AwaitResume(_, _, _) => ActivatingShowsNothing(Drop(s, id).(refs := AttachTrack(s.refs, a.source, a.gain)), a.p);
    case AwaitPlay(_, _) =>
  }

  lemma UserKeepsIntent(s: State, a: UserAction, t: State)
    requires t == UserStep(s, a) && !a.Connect? && !a.HangsUp?
    ensures KeepsIntent(s, ByUser(a), t)
  {
    match a
    case SpeechEnds(_, p) => ActivatingShowsNothing(s.(refs := s.refs.(media := s.refs.media.(userSpeaking := false))), p);
    case Gesture(p) => ActivatingShowsNothing(s, p);
    case SpeechStarts =>
    case Interrupts =>
    case TogglesMute =>
  }

  lemma StepKeepsIntent(s: State, a: Action, t: State)
    requires Inv(s) && Step(s, a) == Some(t) && !RestartsOrEnds(a)
    ensures KeepsIntent(s, a, t)
  {
    match a
    case FromRoom(room, event) => RoomEventKeepsIntent(s, room, event, t);
    case Resume(id, resumption) => ResumingKeepsIntent(s, id, resumption, t);
    case HeartbeatExpires(_) =>
    case ByUser(action) => UserKeepsIntent(s, action, t);
  }

  lemma {:induction false} RunKeepsIntent(s: State, actions: seq<Action>, t: State)
    requires Inv(s) && Reaches(s, actions, t) && forall i :: 0 <= i < |actions| ==> !RestartsOrEnds(actions[i])
    ensures Abandoned(s) ==> Abandoned(t)
    ensures Abandoned(t) || (t.refs.intentional <==> s.refs.intentional || EverEnded(s, actions))
    decreases |actions|
  {
    if actions != [] {
      var next := Step(s, actions[0]).value;
      StepKeeps(s, actions[0]);
      StepKeepsIntent(s, actions[0], next);
      RunKeepsIntent(next, actions[1..], t);
    }
  }

  /**
   In every run, when the room of a connected session is lost, before the user connects again or hangs up, the
   session shows `Disconnected` exactly if its agent had said that the session ended, and `Error` otherwise.
   */
  lemma ALostSessionIsAnErrorExactlyUnlessEnded(before: seq<Action>, s: State, session: Handle, p: nat, c: State, after: seq<Action>,
                                                t: State, room: RoomId, u: State)
    requires Reaches(Initial, before, s) && MayConnect(s.refs) && p !in s.pending && Step(s, ByUser(Connect(session, p))) == Some(c)
    requires Reaches(c, after, t) && forall i :: 0 <= i < |after| ==> !RestartsOrEnds(after[i])
    requires t.refs.room == Some(room) && Step(t, FromRoom(room, DisconnectedEvent)) == Some(u)
    ensures u.refs.status == if EverEnded(c, after) then Disconnected else Error
    ensures MayConnect(u.refs)
  {
    RunKeeps(Initial, before, s);
    StepKeeps(s, ByUser(Connect(session, p)));
    RunKeepsIntent(c, after, t);
    RunKeeps(c, after, t);
  }

  // ---- What the agent says -----------------------------------------------------------------

  /** A message of the current session's agent is shown as it is, or by the audio when the agent is ready. */
  lemma TheAgentsWordIsShown(s: State, room: RoomId, session: Handle, state: Lifecycle, t: State)
    requires room in s.rooms && IsCurrent(s.refs, s.rooms[room].generation, room) && s.refs.session == Some(session)
    requires Step(s, FromRoom(room, LifecycleEvent(session, state))) == Some(t)
    ensures state.Starting? ==> t.refs.status.WaitingForAgent?
    ensures state.AgentRecovering? ==> t.refs.status.Recovering?
    ensures state.AgentFailed? ==> t.refs.status.Error? && MayConnect(t.refs)
    ensures state.Ended? ==> t.refs.status == s.refs.status && t.refs.intentional && t.refs.heartbeat.None?
    ensures state.AgentFailed? || state.Ended? ==> !t.rooms[room].live
    ensures state.Ready? || state.Recovered? ==>
              && (t.refs.status.WaitingForAudio? <==> s.refs.media.retryPending)
              && (t.refs.status.Connected? <==> s.refs.media.hasAudio && !s.refs.media.retryPending)
              && (t.refs.status.WaitingForAgent? <==> !s.refs.media.hasAudio && !s.refs.media.retryPending)
    ensures !state.AgentFailed? && !state.Ended? ==> t.refs.heartbeat == Some(room) && !t.refs.media.botSpeaking
  {
  }

  // ---- What the room does ------------------------------------------------------------------

  /** Once the current room is connected, its timer is armed, and it waits for the agent unless audio has come already. */
  lemma AConnectedRoomIsWatched(s: State, id: nat, g: nat, room: RoomId, t: State)
    requires id in s.pending && s.pending[id] == AwaitConnect(g, room, true) && IsCurrent(s.refs, g, room)
    requires Step(s, Resume(id, ConnectReturns)) == Some(t)
    ensures t.refs.heartbeat == Some(room) && t.refs.room == Some(room) && t.pending[id] == AwaitMic(g, room)
    ensures t.refs.status == if s.refs.media.hasAudio then s.refs.status else WaitingForAgent
  {
  }

  /** A reconnected room shows its audio: waiting for a gesture, playing, or not there yet. */
  lemma AReconnectedRoomShowsItsAudio(s: State, room: RoomId, p: nat, t: State)
    requires room in s.rooms && IsCurrent(s.refs, s.rooms[room].generation, room)
    requires Step(s, FromRoom(room, ReconnectedEvent(p))) == Some(t)
    ensures t.refs.status.WaitingForAudio? <==> s.refs.media.retryPending
    ensures t.refs.status.Connected? <==> !s.refs.media.retryPending && s.refs.media.hasAudio
    ensures t.refs.status.WaitingForAgent? <==> !s.refs.media.retryPending && !s.refs.media.hasAudio
    ensures t.refs.media == s.refs.media && t.refs.room == s.refs.room
  {
  }

  /** Who speaks in the current room is believed unless the user is speaking. */
  lemma TheSpeakersAreBelieved(s: State, room: RoomId, agentSpeaks: bool, p: nat, t: State)
    requires room in s.rooms && IsCurrent(s.refs, s.rooms[room].generation, room)
    requires Step(s, FromRoom(room, SpeakersEvent(agentSpeaks, p))) == Some(t)
    ensures t.refs.media == s.refs.media.(botSpeaking := if s.refs.media.userSpeaking then s.refs.media.botSpeaking else agentSpeaks)
    ensures t.refs.status == s.refs.status
  {
  }

  /** A new track of the current room takes over; it is wired up when the context runs, unless another one has come since. */
  lemma ANewTrackIsWiredUp(s: State, room: RoomId, track: Handle, element: Handle, context: Handle, p: nat, t: State)
    requires room in s.rooms && IsCurrent(s.refs, s.rooms[room].generation, room) && p !in s.pending
    requires Step(s, FromRoom(room, TrackEvent(track, element, context, p))) == Some(t)
    ensures t.refs.media.track == Some(track) && t.refs.media.element == Some(element) && t.refs.media.hasAudio
    ensures t.refs.media.context == if s.refs.media.context.Some? then s.refs.media.context else Some(context)
    ensures p in t.pending && t.pending[p] == AwaitResume(s.refs.generation, room, track)
  {
  }

  lemma AWiredTrackHasItsNodes(s: State, id: nat, g: nat, room: RoomId, track: Handle, source: Handle, gain: Handle, p: nat, t: State)
    requires id in s.pending && s.pending[id] == AwaitResume(g, room, track) && id != p
    requires Step(s, Resume(id, ContextResumed(source, gain, p))) == Some(t)
    ensures if IsCurrent(s.refs, g, room) && s.refs.media.track == Some(track)
            then t.refs.media.source == Some(source) && t.refs.media.gain == Some(gain)
            else t.refs == s.refs
    ensures id !in t.pending
  {
  }

  /** Attempt `p` is new in `t` and belongs to a state in which audio may play. */
  ghost predicate TriesWell(s: State, t: State) {
    forall p :: p in t.pending && t.pending[p].AwaitPlay? && (p !in s.pending || s.pending[p] != t.pending[p]) ==>
      && t.refs.media.gain.Some? && t.refs.media.context.Some? && !t.refs.media.userSpeaking
      && t.refs.media.element == Some(t.pending[p].element) && t.pending[p].generation == t.refs.generation
  }

  lemma ActivatingTriesWell(s: State, u: State, p: nat)
    requires forall q :: q in u.pending && u.pending[q].AwaitPlay? ==> q in s.pending && s.pending[q] == u.pending[q]
    ensures TriesWell(s, Activate(u, p)) && Activate(u, p).refs == u.refs
  {
  }

  lemma RoomEventTriesWell(s: State, room: RoomId, e: RoomEvent, t: State)
    requires t == RoomStep(s, room, e)
    ensures TriesWell(s, t)
  {
    if room in s.rooms && IsCurrent(s.refs, s.rooms[room].generation, room) {
      match e
      case ReconnectedEvent(p) => ActivatingTriesWell(s, s.(refs := OnReconnected(s.refs)), p);
      case SpeakersEvent(agentSpeaks, p) => ActivatingTriesWell(s, s.(refs := OnSpeakers(s.refs, agentSpeaks)), p);
      case TrackEvent(_, _, _, _) =>
      case _ => assert t.pending == s.pending;
    }
  }

  lemma ResumingTriesWell(s: State, id: nat, a: Resumption, t: State)
    requires ResumeStep(s, id, a) == Some(t)
    ensures TriesWell(s, t)
  {
    match s.pending[id]
    case AwaitResume(_, _, _) => ActivatingTriesWell(s, Drop(s, id).(refs := AttachTrack(s.refs, a.source, a.gain)), a.p);
    case AwaitToken(_) =>
    case AwaitConnect(_, _, _) =>
    case AwaitMic(_, _) =>
    case AwaitPlay(_, _) =>
  }

  lemma UserTriesWell(s: State, a: UserAction, t: State)
    requires t == UserStep(s, a)
    ensures TriesWell(s, t)
  {
    match a
    case SpeechEnds(_, p) => ActivatingTriesWell(s, s.(refs := s.refs.(media := s.refs.media.(userSpeaking := false))), p);
    case Gesture(p) => ActivatingTriesWell(s, s, p);
    case Connect(_, _) =>
    case _ => assert t.pending == s.pending;
  }

  /** The assistant's audio is tried only with a gain node, an element and a context, and never while the user speaks. */
  lemma AudioIsTriedOnlyWhenItMayPlay(s: State, a: Action, t: State, p: nat)
    requires Step(s, a) == Some(t) && p in t.pending && t.pending[p].AwaitPlay? && (p !in s.pending || s.pending[p] != t.pending[p])
    ensures t.refs.media.gain.Some? && t.refs.media.context.Some? && !t.refs.media.userSpeaking
    ensures t.refs.media.element == Some(t.pending[p].element) && t.pending[p].generation == t.refs.generation
  {
    match a
    case FromRoom(room, event) => RoomEventTriesWell(s, room, event, t);
    case Resume(id, resumption) => ResumingTriesWell(s, id, resumption, t);
    case HeartbeatExpires(_) =>
    case ByUser(action) => UserTriesWell(s, action, t);
  }

  // ---- How a session comes about -----------------------------------------------------------

  /** The token of the current session opens its room; a token that comes too late opens none. */
  lemma ATokenOpensARoomExactlyForTheCurrentSession(s: State, id: nat, g: nat, room: RoomId, t: State)
    requires id in s.pending && s.pending[id] == AwaitToken(g) && Step(s, Resume(id, TokenArrives(room))) == Some(t)
    ensures room in t.rooms <==> s.refs.generation == g
    ensures s.refs.generation == g ==> t.refs == s.refs.(room := Some(room)) && t.pending[id] == AwaitConnect(g, room, false)
    ensures s.refs.generation != g ==> t.refs == s.refs.(inFlight := if s.refs.inFlight == Some(g) then None else s.refs.inFlight)
    ensures s.refs.generation != g ==> id !in t.pending && t.rooms == s.rooms
  {
  }

  /** A connect call that fails at its token, its connection or its microphone shows an error exactly for the current session. */
  lemma AFailingConnectIsShown(s: State, id: nat, a: Resumption, t: State)
    requires id in s.pending && (a.TokenFails? || a.ConnectFails? || a.MicFails?) && Step(s, Resume(id, a)) == Some(t)
    ensures id !in t.pending
    ensures s.refs.generation == s.pending[id].generation ==> t.refs.status.Error? && MayConnect(t.refs) && t.refs.media == NoMedia
    ensures s.refs.generation != s.pending[id].generation ==> t.refs.status == s.refs.status && t.refs.room == s.refs.room
  {
  }

  /** A play attempt that settles for the current element shows whether the audio plays; any other is ignored. */
  lemma APlayAttemptIsShown(s: State, id: nat, g: nat, element: Handle, activated: bool, t: State)
    requires id in s.pending && s.pending[id] == AwaitPlay(g, element) && s.refs.media.hasAudio
    requires Step(s, Resume(id, PlaySettles(activated))) == Some(t)
    ensures if s.refs.generation == g && s.refs.media.element == Some(element)
            then t.refs.status == (if activated then Connected else WaitingForAudio) && (t.refs.media.retryPending <==> !activated)
            else t.refs == s.refs
  {
  }

  /** Audio that waits for the user is tried again at the next gesture, and whenever the room reconnects or the agent speaks up. */
  lemma WaitingAudioIsTriedAgain(s: State, a: Action, p: nat, t: State)
    requires p !in s.pending && Step(s, a) == Some(t)
    requires s.refs.media.gain.Some? && s.refs.media.element.Some? && s.refs.media.context.Some? && !s.refs.media.userSpeaking
    requires || a == ByUser(Gesture(p))
             || (a.FromRoom? && a.room in s.rooms && IsCurrent(s.refs, s.rooms[a.room].generation, a.room)
                 && (a.event == ReconnectedEvent(p) || a.event == SpeakersEvent(true, p)))
    ensures p in t.pending <==> s.refs.media.retryPending
    ensures p in t.pending ==> t.pending[p] == AwaitPlay(s.refs.generation, s.refs.media.element.value)
  {
  }

  /** What the user does about speech, interruption and mute. */
  lemma TheUserIsHeard(s: State, a: UserAction, t: State)
    requires Step(s, ByUser(a)) == Some(t)
    ensures a.SpeechStarts? ==> t == s.(refs := s.refs.(media := s.refs.media.(userSpeaking := true)))
    ensures a.SpeechEnds? ==>
              t.refs.media == s.refs.media.(userSpeaking := false,
                                            botSpeaking := s.refs.media.botSpeaking || (s.refs.room.Some? && a.agentSpeaks))
    ensures a.Interrupts? ==> t == s.(refs := s.refs.(media := s.refs.media.(botSpeaking := false)))
    ensures a.TogglesMute? ==>
              t == s.(refs := s.refs.(media := s.refs.media.(muted := if s.refs.room.Some? then !s.refs.media.muted else s.refs.media.muted)))
  {
  }

  lemma {:induction false} ReachesSnoc(s: State, actions: seq<Action>, m: State, a: Action)
    requires Reaches(s, actions, m) && Step(m, a).Some?
    ensures Reaches(s, actions + [a], Step(m, a).value)
    decreases |actions|
  {
    if actions == [] {
      assert [a][1..] == [];
    } else {
      ReachesSnoc(Step(s, actions[0]).value, actions[1..], m, a);
      assert (actions + [a])[1..] == actions[1..] + [a];
    }
  }

  lemma Then(run: seq<Action>, m: State, a: Action, t: State) returns (longer: seq<Action>)
    requires Reaches(Initial, run, m) && Step(m, a) == Some(t)
    ensures Reaches(Initial, longer, t)
  {
    ReachesSnoc(Initial, run, m, a);
    longer := run + [a];
  }

  /** The refs of a session whose room is connected and whose microphone is on. */
  function Talking(session: Handle, room: RoomId, mic: Handle): Refs {
    Refs(1, Some(room), None, WaitingForAgent, false, Some(session), Some(room), NoMedia.(mic := Some(mic)))
  }

  lemma ARoomIsOpened(session: Handle, room: RoomId) returns (run: seq<Action>, s: State)
    ensures Reaches(Initial, run, s)
    ensures s == State(Refs(1, Some(room), Some(1), Connecting, false, Some(session), None, NoMedia), map[room := RoomInfo(1, false)],
                       map[0 := AwaitConnect(1, room, false)])
  {
    var asked := State(Refs(1, None, Some(1), Connecting, false, Some(session), None, NoMedia), map[], map[0 := AwaitToken(1)]);
    run := Then([], Initial, ByUser(Connect(session, 0)), asked);
    s := State(Refs(1, Some(room), Some(1), Connecting, false, Some(session), None, NoMedia), map[room := RoomInfo(1, false)],
               map[0 := AwaitConnect(1, room, false)]);
    assert asked.rooms[room := RoomInfo(1, false)] == s.rooms && asked.pending[0 := AwaitConnect(1, room, false)] == s.pending;
    run := Then(run, asked, Resume(0, TokenArrives(room)), s);
  }

  lemma ASessionIsSetUp(session: Handle, room: RoomId, mic: Handle) returns (run: seq<Action>, s: State)
    ensures Reaches(Initial, run, s) && s == State(Talking(session, room, mic), map[room := RoomInfo(1, true)], map[])
  {
    var open: State;
    run, open := ARoomIsOpened(session, room);
    var live := open.(rooms := map[room := RoomInfo(1, true)], pending := map[0 := AwaitConnect(1, room, true)]);
    assert open.rooms[room := RoomInfo(1, true)] == live.rooms && open.pending[0 := AwaitConnect(1, room, true)] == live.pending;
    run := Then(run, open, Resume(0, RoomLive), live);
    var connected := live.(refs := live.refs.(status := WaitingForAgent, heartbeat := Some(room)), pending := map[0 := AwaitMic(1, room)]);
    assert live.pending[0 := AwaitMic(1, room)] == connected.pending;
    run := Then(run, live, Resume(0, ConnectReturns), connected);
    s := State(Talking(session, room, mic), map[room := RoomInfo(1, true)], map[]);
    run := Then(run, connected, Resume(0, MicReturns(Some(mic))), s);
  }

  /** Such a session comes about, and its assistant is heard: a run ends connected, with a live room, audio and microphone. */
  lemma ASessionIsHeard(session: Handle, room: RoomId, mic: Handle, track: Handle, element: Handle, context: Handle,
                        source: Handle, gain: Handle) returns (run: seq<Action>, t: State)
    ensures Reaches(Initial, run, t) && t.refs.status.Connected? && t.refs.room == Some(room) && t.rooms == map[room := RoomInfo(1, true)]
    ensures t.refs.media.mic == Some(mic) && t.refs.media.track == Some(track) && !t.refs.media.retryPending && t.pending == map[]
  {
    var s: State;
    run, s := ASessionIsSetUp(session, room, mic);
    var media := s.refs.media.(element := Some(element), track := Some(track), hasAudio := true, context := Some(context));
    var subscribed := s.(refs := s.refs.(media := media), pending := map[0 := AwaitResume(1, room, track)]);
    run := Then(run, s, FromRoom(room, TrackEvent(track, element, context, 0)), subscribed);
    var wired := subscribed.(refs := s.refs.(media := media.(source := Some(source), gain := Some(gain))), pending := map[1 := AwaitPlay(1, element)]);
    run := Then(run, subscribed, Resume(0, ContextResumed(source, gain, 1)), wired);
    t := wired.(refs := wired.refs.(status := Connected), pending := map[]);
    run := Then(run, wired, Resume(1, PlaySettles(true)), t);
  }
}
