/**
 The microphone detector of frontend/public/worklets/vad-processor.js and the barge-in timer of
 frontend/src/hooks/useClientVAD.ts.  Samples and times are reals; rounding is not modelled.
 */
module VoiceActivity {
  import opened Common

  const ENERGY_THRESHOLD := 0.025
  const ONSET_FRAMES := 4
  const FRAME_SAMPLES := 128.0
  const BARGE_IN_SECONDS := 0.32

  datatype Message = SpeechStart | SpeechEnd

  datatype Detector = Detector(loudRun: nat, quietRun: nat, speaking: bool)

  const Silent := Detector(0, 0, false)

  /** `Math.round((0.1 * rate) / 128) || 38`. */
  function Hangover(rate: real): nat
    requires rate > 0.0
  {
    var frames := (0.1 * rate / FRAME_SAMPLES + 0.5).Floor;
    if frames == 0 then 38 else frames
  }

  function SumSquares(samples: seq<real>): (r: real)
    ensures r >= 0.0
  {
    if samples == [] then 0.0
    else
      var last := samples[|samples| - 1];
      SumSquares(samples[..|samples| - 1]) + Square(last)
  }

  function Square(x: real): (r: real)
    ensures r >= 0.0
  {
    x * x
  }

  /** The root mean square exceeds the threshold; an empty frame divides by zero and counts as quiet. */
  predicate Loud(samples: seq<real>) {
    samples != [] && SumSquares(samples) > ENERGY_THRESHOLD * ENERGY_THRESHOLD * |samples| as real
  }

  function Heard(d: Detector, loud: bool, hangover: nat): Detector {
    if loud then Detector(d.loudRun + 1, 0, d.speaking || d.loudRun + 1 >= ONSET_FRAMES)
    else if d.speaking then Detector(0, d.quietRun + 1, d.quietRun + 1 <= hangover)
    else d.(loudRun := 0)
  }

  function Posted(d: Detector, loud: bool, hangover: nat): Option<Message> {
    var after := Heard(d, loud, hangover).speaking;
    if after == d.speaking then None else if after then Some(SpeechStart) else Some(SpeechEnd)
  }

  // ---- What counts as loud -----------------------------------------------------------------

  /** The hangover is 100 ms of frames, to the nearest frame, and 38 frames where that would be none. */
  lemma HangoverIsATenthOfASecond(rate: real)
    requires rate > 0.0
    ensures rate >= 640.0 ==> Hangover(rate) >= 1 && -64.0 <= Hangover(rate) as real * 128.0 - 0.1 * rate <= 64.0
    ensures rate < 640.0 ==> Hangover(rate) == 38
  {
    var exact := 0.1 * rate / FRAME_SAMPLES;
    assert exact * 128.0 == 0.1 * rate;
    assert rate >= 640.0 <==> exact + 0.5 >= 1.0;
  }

  /** Energy adds up over the pieces of a frame. */
  lemma {:induction false} EnergyAddsUp(a: seq<real>, b: seq<real>)
    ensures SumSquares(a + b) == SumSquares(a) + SumSquares(b)
    decreases |b|
  {
    if b == [] {
      assert a + b == a;
    } else {
      assert (a + b)[..|a + b| - 1] == a + b[..|b| - 1];
      EnergyAddsUp(a, b[..|b| - 1]);
    }
  }

  lemma OneMore(n: nat, energy: real)
    ensures (n + 1) as real * energy == n as real * energy + energy
  {
  }

  lemma {:induction false} EnergyOfALevel(samples: seq<real>, energy: real)
    requires forall i :: 0 <= i < |samples| ==> Square(samples[i]) == energy
    ensures SumSquares(samples) == |samples| as real * energy
  {
    if samples != [] {
      EnergyOfALevel(samples[..|samples| - 1], energy);
      OneMore(|samples| - 1, energy);
    }
  }

  /** A frame is loud exactly if it is not empty and its energy exceeds that of as many samples of level 0.025. */
  lemma AFrameIsLoudExactlyAboveTheLevel(samples: seq<real>, reference: seq<real>)
    requires |reference| == |samples| && forall i :: 0 <= i < |reference| ==> reference[i] == 0.025
    ensures Loud(samples) <==> samples != [] && SumSquares(samples) > SumSquares(reference)
  {
    EnergyOfALevel(reference, 0.025 * 0.025);
  }

  class VADProcessor {
    const hangover: nat
    var consecutiveSpeechFrames: nat
    var silentFramesCount: nat
    var isSpeaking: bool

    ghost function State(): Detector
      reads this
    {
      Detector(consecutiveSpeechFrames, silentFramesCount, isSpeaking)
    }

    constructor (rate: real)
      requires rate > 0.0
      ensures State() == Silent && hangover == Hangover(rate)
    {
      hangover := Hangover(rate);
      consecutiveSpeechFrames, silentFramesCount, isSpeaking := 0, 0, false;
    }

    /** One audio frame; without an input channel nothing changes. */
    method Process(input: Option<seq<real>>) returns (posted: Option<Message>)
      modifies this
      ensures input.None? ==> State() == old(State()) && posted == None
      ensures input.Some? ==> State() == Heard(old(State()), Loud(input.value), hangover)
      ensures input.Some? ==> posted == Posted(old(State()), Loud(input.value), hangover)
    {
      posted := None;
      if input.None? {
        return;
      }
      var channelData := input.value;
      var sumSquares := 0.0;
      for i := 0 to |channelData|
        invariant sumSquares == SumSquares(channelData[..i]) && State() == old(State())
      {
        assert channelData[..i + 1][..i] == channelData[..i];
        sumSquares := sumSquares + Square(channelData[i]);
      }
      assert channelData[..|channelData|] == channelData;
      if |channelData| > 0 && sumSquares > ENERGY_THRESHOLD * ENERGY_THRESHOLD * |channelData| as real {
        silentFramesCount := 0;
        consecutiveSpeechFrames := consecutiveSpeechFrames + 1;
        if !isSpeaking && consecutiveSpeechFrames >= ONSET_FRAMES {
          isSpeaking := true;
          posted := Some(SpeechStart);
        }
      } else {
        consecutiveSpeechFrames := 0;
        if isSpeaking {
          silentFramesCount := silentFramesCount + 1;
          if silentFramesCount > hangover {
            isSpeaking := false;
            posted := Some(SpeechEnd);
          }
        }
      }
    }
  }

  // ---- What the detector hears -------------------------------------------------------------

  function Listen(frames: seq<bool>, hangover: nat): Detector {
    if frames == [] then Silent
    else Heard(Listen(frames[..|frames| - 1], hangover), frames[|frames| - 1], hangover)
  }

  function Messages(frames: seq<bool>, hangover: nat): seq<Message> {
    if frames == [] then []
    else
      var before := frames[..|frames| - 1];
      var posted := Posted(Listen(before, hangover), frames[|frames| - 1], hangover);
      Messages(before, hangover) + if posted.Some? then [posted.value] else []
  }

  ghost predicate AllLoud(frames: seq<bool>, from: int, until: int) {
    0 <= from && until <= |frames| && forall i :: from <= i < until ==> frames[i]
  }

  ghost predicate AllQuiet(frames: seq<bool>, from: int, until: int) {
    0 <= from && until <= |frames| && forall i :: from <= i < until ==> !frames[i]
  }

  /** More than `hangover` quiet frames in a row, from `from`. */
  ghost predicate Gap(frames: seq<bool>, from: int, hangover: nat) {
    AllQuiet(frames, from, from + hangover + 1)
  }

  /** Four loud frames in a row from `onset`, not followed by more than `hangover` quiet ones in a row. */
  ghost predicate SpeechSince(frames: seq<bool>, hangover: nat, onset: int) {
    AllLoud(frames, onset, onset + ONSET_FRAMES)
    && forall j :: onset + ONSET_FRAMES <= j ==> !Gap(frames, j, hangover)
  }

  ghost predicate Speech(frames: seq<bool>, hangover: nat) {
    exists onset :: SpeechSince(frames, hangover, onset)
  }

  function TrailingLoud(frames: seq<bool>): (n: nat)
    ensures n <= |frames|
  {
    if frames == [] || !frames[|frames| - 1] then 0 else TrailingLoud(frames[..|frames| - 1]) + 1
  }

  function TrailingQuiet(frames: seq<bool>): (n: nat)
    ensures n <= |frames|
  {
    if frames == [] || frames[|frames| - 1] then 0 else TrailingQuiet(frames[..|frames| - 1]) + 1
  }

  lemma {:induction false} TrailingLoudIsExact(frames: seq<bool>)
    ensures AllLoud(frames, |frames| - TrailingLoud(frames), |frames|)
    ensures TrailingLoud(frames) < |frames| ==> !frames[|frames| - TrailingLoud(frames) - 1]
  {
    if frames != [] && frames[|frames| - 1] {
      TrailingLoudIsExact(frames[..|frames| - 1]);
    }
  }

  lemma {:induction false} TrailingQuietIsExact(frames: seq<bool>)
    ensures AllQuiet(frames, |frames| - TrailingQuiet(frames), |frames|)
    ensures TrailingQuiet(frames) < |frames| ==> frames[|frames| - TrailingQuiet(frames) - 1]
  {
    if frames != [] && !frames[|frames| - 1] {
      TrailingQuietIsExact(frames[..|frames| - 1]);
    }
  }

  /** The counters are what their names say. */
  lemma {:induction false} CountersAreRuns(frames: seq<bool>, hangover: nat)
    ensures Listen(frames, hangover).loudRun == TrailingLoud(frames)
    ensures Listen(frames, hangover).speaking ==> Listen(frames, hangover).quietRun == TrailingQuiet(frames) <= hangover
  {
    if frames != [] {
      CountersAreRuns(frames[..|frames| - 1], hangover);
    }
  }

  lemma LoudFrameExtendsSpeech(before: seq<bool>, hangover: nat)
    ensures Speech(before + [true], hangover) <==> Speech(before, hangover) || TrailingLoud(before + [true]) >= ONSET_FRAMES
  {
    var frames := before + [true];
    var n := |frames|;
    TrailingLoudIsExact(frames);
    if onset :| SpeechSince(before, hangover, onset) {
      forall j | onset + ONSET_FRAMES <= j ensures !Gap(frames, j, hangover) {
        if j + hangover + 1 < n {
          assert !Gap(before, j, hangover);
          var i :| j <= i < j + hangover + 1 && before[i];
          assert frames[i];
        } else if j + hangover + 1 == n {
          assert frames[n - 1];
        }
      }
      assert SpeechSince(frames, hangover, onset);
    }
    if TrailingLoud(frames) >= ONSET_FRAMES {
      assert SpeechSince(frames, hangover, n - ONSET_FRAMES);
    }
    if onset :| SpeechSince(frames, hangover, onset) {
      if onset + ONSET_FRAMES < n {
        SpeechWasThere(before, true, hangover, onset);
      }
    }
  }

  lemma SpeechWasThere(before: seq<bool>, last: bool, hangover: nat, onset: int)
    requires SpeechSince(before + [last], hangover, onset) && onset + ONSET_FRAMES <= |before|
    ensures SpeechSince(before, hangover, onset)
  {
    var frames := before + [last];
    assert forall i :: 0 <= i < |before| ==> frames[i] == before[i];
    forall j | onset + ONSET_FRAMES <= j ensures !Gap(before, j, hangover) {
      assert !Gap(frames, j, hangover);
    }
  }

  lemma QuietFrameEndsSpeech(before: seq<bool>, hangover: nat)
    ensures Speech(before + [false], hangover) <==> Speech(before, hangover) && TrailingQuiet(before + [false]) <= hangover
  {
    var frames := before + [false];
    var n := |frames|;
    TrailingQuietIsExact(frames);
    if onset :| SpeechSince(frames, hangover, onset) {
      assert onset + ONSET_FRAMES < n by { assert !frames[n - 1]; }
      SpeechWasThere(before, false, hangover, onset);
      if TrailingQuiet(frames) > hangover {
        assert frames[onset + ONSET_FRAMES - 1];
        assert Gap(frames, n - hangover - 1, hangover);
      }
    }
    if onset :| SpeechSince(before, hangover, onset) && TrailingQuiet(frames) <= hangover {
      forall j | onset + ONSET_FRAMES <= j ensures !Gap(frames, j, hangover) {
        if j + hangover + 1 < n {
          assert !Gap(before, j, hangover);
          var i :| j <= i < j + hangover + 1 && before[i];
          assert frames[i];
        } else if j + hangover + 1 == n {
          assert frames[n - TrailingQuiet(frames) - 1];
        }
      }
      assert SpeechSince(frames, hangover, onset);
    }
  }

  /** After any frames, the detector reports speech exactly when there is speech. */
  lemma {:induction false} SpeakingIsSpeech(frames: seq<bool>, hangover: nat)
    ensures Listen(frames, hangover).speaking <==> Speech(frames, hangover)
  {
    if frames == [] {
      assert forall onset :: !SpeechSince(frames, hangover, onset);
    } else {
      var before := frames[..|frames| - 1];
      SpeakingIsSpeech(before, hangover);
      CountersAreRuns(before, hangover);
      CountersAreRuns(frames, hangover);
      if frames[|frames| - 1] {
        assert frames == before + [true];
        LoudFrameExtendsSpeech(before, hangover);
      } else {
        assert frames == before + [false];
        QuietFrameEndsSpeech(before, hangover);
      }
    }
  }

  /** Start and end messages alternate, beginning with a start; the last one tells the state. */
  lemma {:induction false} MessagesAlternate(frames: seq<bool>, hangover: nat)
    ensures forall i :: 0 <= i < |Messages(frames, hangover)| ==>
              Messages(frames, hangover)[i] == if i % 2 == 0 then SpeechStart else SpeechEnd
    ensures Listen(frames, hangover).speaking <==> |Messages(frames, hangover)| % 2 == 1
  {
    if frames != [] {
      MessagesAlternate(frames[..|frames| - 1], hangover);
    }
  }
}
