/**
 The port message handler and the 320 ms timer of frontend/src/hooks/useClientVAD.ts, over the messages
 of the detector.
 */
module BargeIn {
  import opened Common
  import opened VoiceActivity

  // ---- The handler and its timer -----------------------------------------------------------

  class ClientVAD {
    var timer: Option<real>
    var muted: bool

    constructor ()
      ensures timer == None && !muted
    {
      timer, muted := None, false;
    }

    /** `port.onmessage`; `botSpeaking` is the value of the ref at that moment. */
    method OnMessage(message: Message, now: real, botSpeaking: bool)
      modifies this
      ensures Hook(timer, muted) == Hear(Hook(old(timer), old(muted)), message, now, botSpeaking)
      ensures message.SpeechEnd? ==> timer.None? && muted == (old(muted) && old(timer).Some?)
      ensures message.SpeechStart? ==> muted == old(muted) && timer == if botSpeaking then Some(now + 0.32) else old(timer)
    {
      match message {
        case SpeechStart =>
          if botSpeaking {
            timer := Some(now + BARGE_IN_SECONDS);
          }
        case SpeechEnd =>
          if timer.Some? {
            timer := None;
          } else {
            muted := false;
          }
      }
    }

    method OnTimer()
      requires timer.Some?
      modifies this
      ensures Hook(timer, muted) == Fire(Hook(old(timer), old(muted)))
      ensures muted && timer.None?
    {
      timer := None;
      muted := true;
    }
  }

  datatype Hook = Hook(timer: Option<real>, muted: bool)

  function Hear(h: Hook, message: Message, now: real, botSpeaking: bool): Hook {
    match message
    case SpeechStart => if botSpeaking then h.(timer := Some(now + BARGE_IN_SECONDS)) else h
    case SpeechEnd => if h.timer.Some? then h.(timer := None) else h.(muted := false)
  }

  /** The timer fires: mute, and send the cancellation. */
  function Fire(h: Hook): Hook {
    Hook(None, true)
  }

  // ---- Any delivery ------------------------------------------------------------------------

  /** Messages are delivered in order but at any time; the session may also raise the gain on its own. */
  datatype Event = Deliver(now: real, botSpeaking: bool) | TimerFires | SessionUnmutes

  /** `heard` messages were delivered; `confirmed` when the timer fired after the last of them; `raised` when the session has raised the gain since. */
  datatype Client = Client(hook: Hook, heard: nat, confirmed: bool, raised: bool)

  const FreshClient := Client(Hook(None, false), 0, false, false)

  function ClientStep(c: Client, messages: seq<Message>, e: Event): Option<Client> {
    match e
    case Deliver(now, botSpeaking) =>
      if c.heard < |messages| then Some(Client(Hear(c.hook, messages[c.heard], now, botSpeaking), c.heard + 1, false, false)) else None
    case TimerFires => if c.hook.timer.Some? then Some(c.(hook := Fire(c.hook), confirmed := true, raised := false)) else None
    case SessionUnmutes => Some(c.(hook := c.hook.(muted := false), raised := true))
  }

  ghost predicate Delivers(c: Client, messages: seq<Message>, events: seq<Event>, d: Client)
    decreases |events|
  {
    if events == [] then c == d
    else ClientStep(c, messages, events[0]).Some? && Delivers(ClientStep(c, messages, events[0]).value, messages, events[1..], d)
  }

  ghost predicate ClientInv(c: Client, messages: seq<Message>) {
    && c.heard <= |messages|
    && (c.hook.muted <==> c.confirmed && !c.raised)
    && (c.confirmed ==> c.heard > 0 && messages[c.heard - 1].SpeechStart?)
    && (c.hook.timer.Some? ==> c.heard > 0 && messages[c.heard - 1].SpeechStart? && !c.confirmed)
  }

  lemma {:induction false} DeliveryKeeps(c: Client, frames: seq<bool>, hangover: nat, events: seq<Event>, d: Client)
    requires ClientInv(c, Messages(frames, hangover)) && Delivers(c, Messages(frames, hangover), events, d)
    ensures ClientInv(d, Messages(frames, hangover))
    decreases |events|
  {
    if events != [] {
      MessagesAlternate(frames, hangover);
      DeliveryKeeps(ClientStep(c, Messages(frames, hangover), events[0]).value, frames, hangover, events[1..], d);
    }
  }

  /**
   However messages and timers interleave, the hook keeps the gain at 0 exactly between a confirmed barge-in
   and the next speech end it hears, unless the session raises it before.
   */
  lemma MutedExactlyWhileBargedIn(frames: seq<bool>, hangover: nat, events: seq<Event>, d: Client)
    requires Delivers(FreshClient, Messages(frames, hangover), events, d)
    ensures d.hook.muted <==> d.confirmed && !d.raised
    ensures d.confirmed ==> 0 < d.heard <= |Messages(frames, hangover)| && Messages(frames, hangover)[d.heard - 1].SpeechStart?
  {
    DeliveryKeeps(FreshClient, frames, hangover, events, d);
  }

  // ---- Immediate delivery --------------------------------------------------------------------

  /** A frame as the detector classifies it, and whether the assistant is speaking when it arrives. */
  datatype Frame = Frame(loud: bool, botSpeaking: bool)

  /** `bargeIns` counts how often the timer fired. */
  datatype System = System(detector: Detector, hook: Hook, bargeIns: nat)

  function TimeOf(frame: nat, rate: real): real
    requires rate > 0.0
  {
    frame as real * FRAME_SAMPLES / rate
  }

  /** The timer fires as soon as it is due, before the frame of that moment is processed. */
  function Expired(s: System, now: real): System {
    if s.hook.timer.Some? && s.hook.timer.value <= now then s.(hook := Fire(s.hook), bargeIns := s.bargeIns + 1) else s
  }

  function Received(s: System, f: Frame, now: real, hangover: nat): System {
    var posted := Posted(s.detector, f.loud, hangover);
    s.(detector := Heard(s.detector, f.loud, hangover),
       hook := if posted.Some? then Hear(s.hook, posted.value, now, f.botSpeaking) else s.hook)
  }

  function Play(frames: seq<Frame>, rate: real): System
    requires rate > 0.0
  {
    if frames == [] then System(Silent, Hook(None, false), 0)
    else
      var n := |frames| - 1;
      Received(Expired(Play(frames[..n], rate), TimeOf(n, rate)), frames[n], TimeOf(n, rate), Hangover(rate))
  }

  /** The detector starts reporting speech at frame `i`. */
  predicate OnsetAt(frames: seq<Frame>, rate: real, i: nat)
    requires rate > 0.0 && i < |frames|
  {
    !Play(frames[..i], rate).detector.speaking && Play(frames[..i + 1], rate).detector.speaking
  }

  /** A pending timer means ongoing speech; the detector's counters are in range. */
  ghost predicate SystemInv(s: System) {
    (s.hook.timer.Some? ==> s.detector.speaking) && (!s.detector.speaking ==> s.hook.timer.None?)
  }

  lemma {:induction false} PlayKeeps(frames: seq<Frame>, rate: real)
    requires rate > 0.0
    ensures SystemInv(Play(frames, rate))
  {
    if frames != [] {
      PlayKeeps(frames[..|frames| - 1], rate);
    }
  }

  lemma TimeIsMonotone(i: nat, j: nat, rate: real)
    requires rate > 0.0 && i <= j
    ensures TimeOf(i, rate) <= TimeOf(j, rate)
  {
    assert i as real * FRAME_SAMPLES <= j as real * FRAME_SAMPLES;
    DivisionIsMonotone(i as real * FRAME_SAMPLES, j as real * FRAME_SAMPLES, rate);
  }

  lemma DivisionIsMonotone(a: real, b: real, rate: real)
    requires rate > 0.0 && a <= b
    ensures a / rate <= b / rate
  {
    assert b / rate - a / rate == (b - a) / rate;
  }

  /** From the onset until every timer set since then could be due, no timer fires. */
  lemma {:induction false} NoBargeInYet(frames: seq<Frame>, rate: real, onset: nat, n: nat)
    requires rate > 0.0 && onset < n <= |frames| && OnsetAt(frames, rate, onset)
    requires TimeOf(n - 1, rate) < TimeOf(onset, rate) + BARGE_IN_SECONDS
    ensures Play(frames[..n], rate).bargeIns == Play(frames[..onset], rate).bargeIns
    ensures Play(frames[..n], rate).hook.muted ==> Play(frames[..onset], rate).hook.muted
    ensures Play(frames[..n], rate).hook.timer.Some? ==>
              Play(frames[..n], rate).hook.timer.value >= TimeOf(onset, rate) + BARGE_IN_SECONDS
    decreases n
  {
    assert frames[..n][..n - 1] == frames[..n - 1];
    PlayKeeps(frames[..n - 1], rate);
    TimeIsMonotone(onset, n - 1, rate);
    if onset < n - 1 {
      TimeIsMonotone(n - 2, n - 1, rate);
      NoBargeInYet(frames, rate, onset, n - 1);
    }
  }

  /** `hangover + 1` quiet frames end the speech, or there was none. */
  lemma {:induction false} QuietFramesEndSpeech(frames: seq<Frame>, rate: real, from: nat, q: nat)
    requires rate > 0.0 && from + q <= |frames| && forall i :: from <= i < from + q ==> !frames[i].loud
    ensures var d := Play(frames[..from + q], rate).detector;
            d.speaking ==> d.quietRun >= q && (q > 0 ==> d.quietRun <= Hangover(rate))
  {
    if q > 0 {
      assert frames[..from + q][..from + q - 1] == frames[..from + (q - 1)];
      QuietFramesEndSpeech(frames, rate, from, q - 1);
    }
  }

  /**
   A burst that starts at frame `onset` and whose last loud frame comes `k` frames later, with
   (k + hangover + 1) frames shorter than 320 ms, neither mutes nor cancels: when the hangover has passed
   the detector is quiet, the timer is gone, no timer fired, and the gain is what it was.
   */
  lemma ShortBurstNeverBargesIn(frames: seq<Frame>, rate: real, onset: nat, k: nat)
    requires rate > 0.0
    requires onset + k + Hangover(rate) + 1 < |frames| && OnsetAt(frames, rate, onset)
    requires forall i :: onset + k < i <= onset + k + Hangover(rate) + 1 ==> !frames[i].loud
    requires (k + Hangover(rate) + 1) as real * FRAME_SAMPLES / rate < BARGE_IN_SECONDS
    ensures var before, after := Play(frames[..onset], rate), Play(frames[..onset + k + Hangover(rate) + 2], rate);
            !after.detector.speaking && after.hook.timer.None? && after.bargeIns == before.bargeIns
            && (after.hook.muted ==> before.hook.muted)
  {
    var h := Hangover(rate);
    var end := onset + k + h + 2;
    assert TimeOf(end - 1, rate) == TimeOf(onset, rate) + (k + h + 1) as real * FRAME_SAMPLES / rate by {
      assert (end - 1) as real * FRAME_SAMPLES == onset as real * FRAME_SAMPLES + (k + h + 1) as real * FRAME_SAMPLES;
      DivisionAdds(onset as real * FRAME_SAMPLES, (k + h + 1) as real * FRAME_SAMPLES, rate);
    }
    NoBargeInYet(frames, rate, onset, end);
    QuietFramesEndSpeech(frames, rate, onset + k + 1, h + 1);
    assert frames[..onset + k + 1 + (h + 1)] == frames[..end];
    PlayKeeps(frames[..end], rate);
  }

  /** Speech over the assistant: the timer of the onset is pending, or it has fired once and the gain is down. */
  ghost predicate Interrupting(before: System, s: System, onsetTime: real) {
    || (s.bargeIns == before.bargeIns && s.hook.timer == Some(onsetTime + 0.32))
    || (s.bargeIns == before.bargeIns + 1 && s.hook.timer.None? && s.hook.muted)
  }

  lemma {:induction false} SpeechKeepsInterrupting(frames: seq<Frame>, rate: real, onset: nat, n: nat)
    requires rate > 0.0 && onset < n <= |frames| && OnsetAt(frames, rate, onset) && frames[onset].botSpeaking
    requires forall i :: onset < i <= n ==> Play(frames[..i], rate).detector.speaking
    ensures Interrupting(Play(frames[..onset], rate), Play(frames[..n], rate), TimeOf(onset, rate))
    decreases n
  {
    assert frames[..n][..n - 1] == frames[..n - 1];
    PlayKeeps(frames[..n - 1], rate);
    if onset < n - 1 {
      SpeechKeepsInterrupting(frames, rate, onset, n - 1);
    }
  }

  /**
   The other way round: when speech starts while the assistant speaks and goes on until 320 ms later, the
   hook has muted and cancelled, exactly once, by the frame that arrives then.
   */
  lemma LongSpeechBargesIn(frames: seq<Frame>, rate: real, onset: nat, n: nat)
    requires rate > 0.0 && onset < n < |frames| && OnsetAt(frames, rate, onset) && frames[onset].botSpeaking
    requires forall i :: onset < i <= n ==> Play(frames[..i], rate).detector.speaking
    requires TimeOf(n, rate) >= TimeOf(onset, rate) + 0.32
    ensures Play(frames[..n + 1], rate).bargeIns == Play(frames[..onset], rate).bargeIns + 1
    ensures Play(frames[..n + 1], rate).detector.speaking ==> Play(frames[..n + 1], rate).hook.muted
  {
    SpeechKeepsInterrupting(frames, rate, onset, n);
    PlayKeeps(frames[..n], rate);
    assert frames[..n + 1][..n] == frames[..n];
  }

  /** `n` loud frames, all while the assistant speaks. */
  function TalkOver(n: nat): seq<Frame> {
    seq(n, _ => Frame(true, true))
  }

  lemma {:induction false} TalkingOverIsHeard(n: nat, rate: real)
    requires rate > 0.0
    ensures Play(TalkOver(n), rate).detector == Detector(n, 0, n >= 4)
  {
    if n > 0 {
      assert TalkOver(n)[..n - 1] == TalkOver(n - 1);
      TalkingOverIsHeard(n - 1, rate);
    }
  }

  /** Talking over the assistant for longer than 320 ms mutes it and cancels, whatever the rate. */
  lemma TalkingOverBargesIn(n: nat, rate: real)
    requires rate > 0.0 && n > 4 && TimeOf(n - 1, rate) >= TimeOf(3, rate) + 0.32
    ensures Play(TalkOver(n), rate).bargeIns == Play(TalkOver(3), rate).bargeIns + 1 && Play(TalkOver(n), rate).hook.muted
  {
    var frames := TalkOver(n);
    forall i: nat | i <= n ensures frames[..i] == TalkOver(i) {
    }
    forall i: nat | i <= n ensures Play(frames[..i], rate).detector.speaking <==> i >= 4 {
      TalkingOverIsHeard(i, rate);
    }
    LongSpeechBargesIn(frames, rate, 3, n - 1);
  }

  lemma DivisionAdds(a: real, b: real, rate: real)
    requires rate > 0.0
    ensures (a + b) / rate == a / rate + b / rate
  {
  }
}
