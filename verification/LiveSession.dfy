/**
 The browser session of frontend/src/hooks/useLiveKitSession.ts.  The refs of the hook are one record;
 each stretch of code between two awaits is one function on it, and the class below carries the same
 refs as fields.
 */
module LiveSession {
  import opened Common

  type RoomId = nat
  type Handle = nat

  datatype Status = Disconnected | Connecting | WaitingForAgent | WaitingForAudio | Connected | Reconnecting | Recovering | Error

  /** Media refs; `context` is the AudioContext, the others belong to the assistant's track. */
  datatype Media = Media(element: Option<Handle>, track: Option<Handle>, source: Option<Handle>, gain: Option<Handle>,
                         context: Option<Handle>, hasAudio: bool, retryPending: bool, mic: Option<Handle>,
                         botSpeaking: bool, userSpeaking: bool, muted: bool)

  const NoMedia := Media(None, None, None, None, None, false, false, None, false, false, false)

  datatype Refs = Refs(generation: nat, room: Option<RoomId>, inFlight: Option<nat>, status: Status, intentional: bool,
                       session: Option<Handle>, heartbeat: Option<RoomId>, media: Media)

  const Fresh := Refs(0, None, None, Disconnected, false, None, None, NoMedia)

  datatype Lifecycle = Starting | Ready | AgentRecovering | Recovered | AgentFailed | Ended

  function LifecycleStatus(state: Lifecycle, hasAudio: bool, blocked: bool): Status {
    match state
    case Starting => WaitingForAgent
    case AgentRecovering => Recovering
    case AgentFailed => Error
    case Ended => Disconnected
    case Ready => if blocked then WaitingForAudio else if hasAudio then Connected else WaitingForAgent
    case Recovered => if blocked then WaitingForAudio else if hasAudio then Connected else WaitingForAgent
  }

  // ---- Segments --------------------------------------------------------------------------

  /** `isCurrentSession(room)` of the connect call that created the room in `generation`. */
  predicate IsCurrent(r: Refs, generation: nat, room: RoomId) {
    r.generation == generation && r.room == Some(room)
  }

  predicate MayConnect(r: Refs) {
    r.inFlight.None? && r.room.None?
  }

  function BeginConnect(r: Refs, session: Handle): Refs {
    r.(generation := r.generation + 1, inFlight := Some(r.generation + 1), intentional := false,
       status := Connecting, session := Some(session))
  }

  /** The `finally` clause of the connect call of `generation`. */
  function LeaveConnect(r: Refs, generation: nat): Refs {
    if r.inFlight == Some(generation) then r.(inFlight := None) else r
  }

  function AfterConnected(r: Refs, room: RoomId): Refs {
    r.(status := if r.media.hasAudio then r.status else WaitingForAgent, heartbeat := Some(room))
  }

  /** Leave the current session for good: a new generation, no room, no timer, no media. */
  function Abandon(r: Refs, status: Status): Refs {
    r.(generation := r.generation + 1, inFlight := None, room := None, heartbeat := None, media := NoMedia, status := status)
  }

  /** The `catch` clause of the connect call of `generation`, then its `finally`. */
  function CatchConnect(r: Refs, generation: nat): Refs {
    LeaveConnect(if r.generation == generation then Abandon(r, Error).(intentional := true) else r, generation)
  }

  function FailSession(r: Refs, room: RoomId): Refs {
    if r.room == Some(room) then Abandon(r, Error).(intentional := true, session := None) else r
  }

  function OnDisconnected(r: Refs, generation: nat, room: RoomId): Refs {
    if IsCurrent(r, generation, room) then Abandon(r, if r.intentional then Disconnected else Error) else r
  }

  function HangUp(r: Refs): Refs {
    Abandon(r, Disconnected).(intentional := true, session := None)
  }

  /** Everything `activateAssistantAudio` needs before it can try to play. */
  predicate CanActivate(r: Refs) {
    r.media.gain.Some? && r.media.element.Some? && r.media.context.Some? && !r.media.userSpeaking
  }

  /** After the play attempt: ignored unless it still concerns the current generation and element. */
  function AfterPlay(r: Refs, generation: nat, element: Handle, activated: bool): Refs {
    if r.generation != generation || r.media.element != Some(element) then r
    else
      var s := r.(media := r.media.(retryPending := !activated));
      if activated then s.(status := Connected)
      else if r.media.hasAudio then s.(status := WaitingForAudio)
      else s
  }

  function OnLifecycle(r: Refs, room: RoomId, session: Handle, state: Lifecycle): Refs {
    if r.session != Some(session) then r
    else match state
      case AgentFailed => FailSession(r, room)
      case Ended => r.(intentional := true, heartbeat := None)
      case _ =>
        r.(heartbeat := Some(room), media := r.media.(botSpeaking := false),
           status := LifecycleStatus(state, r.media.hasAudio, r.media.retryPending))
  }

  function OnReconnected(r: Refs): Refs {
    r.(status := if r.media.retryPending then WaitingForAudio else if r.media.hasAudio then Connected else WaitingForAgent)
  }

  /** A subscribed audio track gets a fresh element, and a context when there is none. */
  function OnTrack(r: Refs, track: Handle, element: Handle, context: Handle): Refs {
    r.(media := r.media.(element := Some(element), track := Some(track), hasAudio := true,
                         context := if r.media.context.Some? then r.media.context else Some(context)))
  }

  function AttachTrack(r: Refs, source: Handle, gain: Handle): Refs {
    r.(media := r.media.(source := Some(source), gain := Some(gain)))
  }

  function OnTrackGone(r: Refs, track: Handle, roomConnected: bool): Refs {
    if r.media.track != Some(track) then r
    else
      r.(media := r.media.(element := None, source := None, track := None, gain := None, hasAudio := false,
                           retryPending := false, botSpeaking := false),
         status := if roomConnected then WaitingForAgent else r.status)
  }

  function OnSpeakers(r: Refs, agentSpeaks: bool): Refs {
    if r.media.userSpeaking then r else r.(media := r.media.(botSpeaking := agentSpeaks))
  }

  /** The in-flight mark is the current generation's, and the timer the current room's. */
  predicate Marked(r: Refs) {
    && (r.inFlight.Some? ==> r.inFlight.value == r.generation)
    && (r.heartbeat.Some? ==> r.room == r.heartbeat)
  }

  /** Without a room there is no assistant audio: no element, track or gain node. */
  predicate SilentWithoutRoom(r: Refs) {
    r.room.None? ==> r.media.element.None? && r.media.track.None? && r.media.gain.None? && !r.media.hasAudio
  }

  /** What the refs promise each other between two pieces of code. */
  predicate Tidy(r: Refs) {
    Marked(r) && SilentWithoutRoom(r)
  }

  // ---- The hook as an object -------------------------------------------------------------

  class LiveKitHook {
    var generation: nat
    var room: Option<RoomId>
    var inFlight: Option<nat>
    var status: Status
    var intentional: bool
    var session: Option<Handle>
    var heartbeat: Option<RoomId>
    var media: Media

    ghost function Snapshot(): Refs
      reads this
    {
      Refs(generation, room, inFlight, status, intentional, session, heartbeat, media)
    }

    constructor ()
      ensures Snapshot() == Fresh
    {
      generation, room, inFlight, status := 0, None, None, Disconnected;
      intentional, session, heartbeat, media := false, None, None, NoMedia;
    }

    /** The synchronous part of `connect`; `started` tells whether a token is now being fetched. */
    method Connect(newSession: Handle) returns (started: bool)
      modifies this
      ensures started == MayConnect(old(Snapshot()))
      ensures Snapshot() == if started then BeginConnect(old(Snapshot()), newSession) else old(Snapshot())
      ensures started <==> old(inFlight).None? && old(room).None?
      ensures started ==>
                && generation == old(generation) + 1 && inFlight == Some(generation) && !intentional && status == Connecting
                && session == Some(newSession) && room == old(room) && heartbeat == old(heartbeat) && media == old(media)
      ensures Tidy(old(Snapshot())) ==> Tidy(Snapshot())
    {
      if inFlight.Some? || room.Some? {
        return false;
      }
      generation := generation + 1;
      inFlight := Some(generation);
      intentional := false;
      status := Connecting;
      session := Some(newSession);
      started := true;
    }

    /** After the token arrived: a room for the current generation, or nothing. */
    method AdoptRoom(sessionGeneration: nat, newRoom: RoomId) returns (adopted: bool)
      modifies this
      ensures adopted == (old(generation) == sessionGeneration)
      ensures Snapshot() == if adopted then old(Snapshot()).(room := Some(newRoom)) else LeaveConnect(old(Snapshot()), sessionGeneration)
      ensures Tidy(old(Snapshot())) && old(room).None? ==> Tidy(Snapshot())
    {
      if generation != sessionGeneration {
        Leave(sessionGeneration);
        return false;
      }
      room := Some(newRoom);
      adopted := true;
    }

    method Leave(sessionGeneration: nat)
      modifies this
      ensures Snapshot() == LeaveConnect(old(Snapshot()), sessionGeneration)
      ensures Snapshot() == old(Snapshot()).(inFlight := if old(inFlight) == Some(sessionGeneration) then None else old(inFlight))
      ensures Tidy(old(Snapshot())) ==> Tidy(Snapshot())
    {
      if inFlight == Some(sessionGeneration) {
        inFlight := None;
      }
    }

    method ResetMediaState()
      modifies this`media
      ensures media == NoMedia
    {
      media := NoMedia;
    }

    /** The catch clause; `toDisconnect` is the room it disconnects. */
    method CatchAndLeave(sessionGeneration: nat) returns (toDisconnect: Option<RoomId>)
      modifies this
      ensures Snapshot() == CatchConnect(old(Snapshot()), sessionGeneration)
      ensures toDisconnect == if old(generation) == sessionGeneration then old(room) else None
      ensures Tidy(old(Snapshot())) ==> Tidy(Snapshot())
      ensures inFlight != Some(sessionGeneration) && (toDisconnect.Some? ==> room.None?)
      ensures if old(generation) == sessionGeneration
              then status == Error && room.None? && intentional && inFlight.None? && heartbeat.None? && media == NoMedia
                   && generation == old(generation) + 1 && session == old(session)
              else Snapshot() == old(Snapshot()).(inFlight := inFlight)
    {
      toDisconnect := None;
      if generation == sessionGeneration {
        toDisconnect := room;
        room := None;
        intentional := true;
        inFlight := None;
        generation := generation + 1;
        ResetMediaState();
        heartbeat := None;
        status := Error;
      }
      Leave(sessionGeneration);
    }

    method FailCurrentSession(failed: RoomId) returns (disconnects: bool)
      modifies this
      ensures Snapshot() == FailSession(old(Snapshot()), failed)
      ensures disconnects == (old(room) == Some(failed))
      ensures Tidy(old(Snapshot())) ==> Tidy(Snapshot())
      ensures disconnects ==> MayConnect(Snapshot()) && generation > old(generation)
      ensures disconnects ==> status == Error && intentional && session.None? && heartbeat.None? && media == NoMedia
      ensures !disconnects ==> Snapshot() == old(Snapshot())
    {
      disconnects := room == Some(failed);
      if disconnects {
        heartbeat := None;
        generation := generation + 1;
        inFlight := None;
        room := None;
        intentional := true;
        session := None;
        ResetMediaState();
        status := Error;
      }
    }

    method HandleDisconnected(roomGeneration: nat, gone: RoomId)
      modifies this
      ensures Snapshot() == OnDisconnected(old(Snapshot()), roomGeneration, gone)
      ensures Tidy(old(Snapshot())) ==> Tidy(Snapshot())
      ensures room != Some(gone) || old(generation) != roomGeneration
      ensures if old(generation) == roomGeneration && old(room) == Some(gone)
              then room.None? && inFlight.None? && heartbeat.None? && media == NoMedia && generation == old(generation) + 1
                   && status == (if old(intentional) then Disconnected else Error)
              else Snapshot() == old(Snapshot())
    {
      if generation == roomGeneration && room == Some(gone) {
        heartbeat := None;
        generation := generation + 1;
        inFlight := None;
        room := None;
        ResetMediaState();
        status := if intentional then Disconnected else Error;
      }
    }

    method Disconnect() returns (toDisconnect: Option<RoomId>)
      modifies this
      ensures Snapshot() == HangUp(old(Snapshot())) && toDisconnect == old(room)
      ensures Tidy(old(Snapshot())) ==> Tidy(Snapshot())
      ensures room.None? && inFlight.None? && heartbeat.None? && generation > old(generation)
      ensures status == Disconnected && intentional && session.None? && media == NoMedia
    {
      intentional := true;
      session := None;
      generation := generation + 1;
      inFlight := None;
      toDisconnect := room;
      room := None;
      heartbeat := None;
      ResetMediaState();
      status := Disconnected;
    }

    /** The tail of `activateAssistantAudio`, once the play attempt has settled. */
    method FinishActivation(activationGeneration: nat, element: Handle, activated: bool)
      modifies this
      ensures Snapshot() == AfterPlay(old(Snapshot()), activationGeneration, element, activated)
      ensures if old(generation) == activationGeneration && old(media).element == Some(element)
              then Snapshot() == old(Snapshot()).(status := status, media := old(media).(retryPending := !activated))
                   && status == (if activated then Connected else if old(media).hasAudio then WaitingForAudio else old(status))
              else Snapshot() == old(Snapshot())
      ensures Tidy(old(Snapshot())) ==> Tidy(Snapshot())
    {
      if generation != activationGeneration || media.element != Some(element) {
        return;
      }
      media := media.(retryPending := !activated);
      if activated {
        status := Connected;
      } else if media.hasAudio {
        status := WaitingForAudio;
      }
    }
  }
}
