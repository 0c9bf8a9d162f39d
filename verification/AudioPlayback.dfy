/**
 The playback queue of live-api-web-console/src/lib/audio-streamer.ts.  The audio context is a clock and
 the list of buffers started on it; timers are counted.  The clock does not move while code runs.
 */
module AudioPlayback {
  const SAMPLE_RATE := 24000.0
  const BUFFER_SIZE := 7680
  const INITIAL_BUFFER := 0.1
  const SCHEDULE_AHEAD := 0.2

  type Byte = b: int | 0 <= b < 256
  type Samples = seq<real>

  /** A Uint8Array: a window on a buffer that other views may share. */
  datatype Chunk = Chunk(buffer: seq<Byte>, offset: nat, length: nat)

  predicate InBuffer(c: Chunk) {
    c.offset + c.length <= |c.buffer|
  }

  /** One buffer started on the context: when it was scheduled, and when it plays. */
  datatype Play = Play(at: real, start: real, samples: Samples)

  function End(p: Play): real {
    p.start + |p.samples| as real / SAMPLE_RATE
  }

  /** `interval` is the 100 ms check, `timeouts` the pending one-shot wake-ups. */
  datatype Streamer = Streamer(queue: seq<Samples>, playing: bool, complete: bool, interval: bool, time: real,
                               timeouts: nat, plays: seq<Play>)

  // ---- Decoding --------------------------------------------------------------------------

  /** A signed little-endian 16-bit sample, scaled to [-1, 1). */
  function Sample(low: Byte, high: Byte): real {
    var u := low + 256 * high;
    (if u >= 32768 then u - 65536 else u) as real / 32768.0
  }

  /** The samples of a stretch of bytes; a trailing odd byte is dropped. */
  function SamplesOf(bytes: seq<Byte>): (r: Samples)
    ensures |r| == |bytes| / 2
    ensures forall i :: 0 <= i < |bytes| / 2 ==> r[i] == Sample(bytes[2 * i], bytes[2 * i + 1])
  {
    seq(|bytes| / 2, i requires 0 <= i < |bytes| / 2 => Sample(bytes[2 * i], bytes[2 * i + 1]))
  }

  /** The whole samples of the chunk itself. */
  function OwnBytes(c: Chunk): seq<Byte>
    requires InBuffer(c)
  {
    c.buffer[c.offset..c.offset + 2 * (c.length / 2)]
  }

  /** As many bytes of the underlying buffer, but from its start. */
  function FirstBytes(c: Chunk): seq<Byte>
    requires InBuffer(c)
  {
    c.buffer[..2 * (c.length / 2)]
  }

  /** The DataView covers the whole underlying buffer, so decoding starts at its first byte, not at the chunk's. */
  function Decoded(c: Chunk): Samples
    requires InBuffer(c)
  {
    SamplesOf(FirstBytes(c))
  }

  /** `_processPCM16Chunk`; a trailing odd byte is dropped. */
  method ProcessPCM16Chunk(c: Chunk) returns (samples: Samples)
    requires InBuffer(c)
    ensures samples == Decoded(c)
  {
    var float32Array := new real[c.length / 2](_ => 0.0);
    for i := 0 to c.length / 2
      invariant forall k :: 0 <= k < i ==> float32Array[k] == Decoded(c)[k]
    {
      float32Array[i] := Sample(c.buffer[2 * i], c.buffer[2 * i + 1]);
      assert Decoded(c)[i] == Sample(FirstBytes(c)[2 * i], FirstBytes(c)[2 * i + 1]);
    }
    samples := float32Array[..];
  }

  /** Every signed 16-bit value comes back from its two bytes, scaled by 2^15. */
  lemma SampleDecodesTwosComplement(value: int)
    requires -0x8000 <= value < 0x8000
    ensures var bits := if value < 0 then value + 0x1_0000 else value;
            Sample(bits % 256, bits / 256) * 32768.0 == value as real
  {
  }

  lemma SampleIsInjective(a: Byte, b: Byte, c: Byte, d: Byte)
    requires Sample(a, b) == Sample(c, d)
    ensures a == c && b == d
  {
    var u, v := a + 256 * b, c + 256 * d;
    assert u == v;
  }

  /** No two even stretches of bytes have the same samples. */
  lemma SamplesDetermineTheBytes(a: seq<Byte>, b: seq<Byte>)
    requires |a| == |b| && |a| % 2 == 0 && SamplesOf(a) == SamplesOf(b)
    ensures a == b
  {
    forall j | 0 <= j < |a| ensures a[j] == b[j] {
      var i := j / 2;
      assert SamplesOf(a)[i] == SamplesOf(b)[i];
      SampleIsInjective(a[2 * i], a[2 * i + 1], b[2 * i], b[2 * i + 1]);
      assert j == 2 * i || j == 2 * i + 1;
    }
  }

  /** The samples queued for a chunk are the chunk's own exactly when its bytes also begin the shared buffer. */
  lemma DecodesItsOwnBytesOnlyAtTheStart(c: Chunk)
    requires InBuffer(c)
    ensures Decoded(c) == SamplesOf(OwnBytes(c)) <==> OwnBytes(c) == FirstBytes(c)
  {
    if Decoded(c) == SamplesOf(OwnBytes(c)) {
      SamplesDetermineTheBytes(FirstBytes(c), OwnBytes(c));
    }
  }

  // ---- Queueing and scheduling -------------------------------------------------------------

  function Split(samples: Samples): (r: seq<Samples>)
    ensures forall b :: b in r ==> 0 < |b| <= BUFFER_SIZE
    decreases |samples|
  {
    if |samples| >= BUFFER_SIZE then [samples[..BUFFER_SIZE]] + Split(samples[BUFFER_SIZE..])
    else if samples != [] then [samples]
    else []
  }

  function Joined(pieces: seq<Samples>): Samples {
    if pieces == [] then [] else pieces[0] + Joined(pieces[1..])
  }

  /** The pieces are the samples in order, and all but the last are as long as a piece can be. */
  lemma {:induction false} SplitIsExact(samples: seq<real>)
    ensures Joined(Split(samples)) == samples
    ensures forall i :: 0 <= i < |Split(samples)| - 1 ==> |Split(samples)[i]| == 7680
    decreases |samples|
  {
    if |samples| >= BUFFER_SIZE {
      SplitIsExact(samples[BUFFER_SIZE..]);
      assert samples == samples[..BUFFER_SIZE] + samples[BUFFER_SIZE..];
    } else if samples != [] {
      assert [samples][1..] == [];
    }
  }

  lemma SplitOne(queue: seq<Samples>, samples: Samples)
    requires |samples| >= BUFFER_SIZE
    ensures (queue + [samples[..BUFFER_SIZE]]) + Split(samples[BUFFER_SIZE..]) == queue + Split(samples)
  {
    assert Split(samples) == [samples[..BUFFER_SIZE]] + Split(samples[BUFFER_SIZE..]);
  }

  lemma SplitRest(queue: seq<Samples>, samples: Samples)
    requires |samples| < BUFFER_SIZE
    ensures (if samples != [] then queue + [samples] else queue) == queue + Split(samples)
  {
  }

  /** One turn of the scheduling loop: the next buffer starts when the schedule says, or now if that is past. */
  function Drawn(s: Streamer, now: real): Streamer
    requires s.queue != []
  {
    var p := Play(now, if s.time >= now then s.time else now, s.queue[0]);
    s.(queue := s.queue[1..], time := End(p), plays := s.plays + [p])
  }

  /** The scheduling loop: buffers go out while the schedule is less than 200 ms ahead. */
  function Drained(s: Streamer, now: real): Streamer
    decreases |s.queue|
  {
    if s.queue != [] && s.time < now + SCHEDULE_AHEAD then Drained(Drawn(s, now), now) else s
  }

  function Scheduled(s: Streamer, now: real): Streamer {
    var t := Drained(s, now);
    if t.queue != [] then t.(timeouts := t.timeouts + 1)
    else if t.complete then t.(playing := false, interval := false)
    else t.(interval := true)
  }

  /** `p` was scheduled at `now`, to start at `start`, while that was less than 200 ms ahead. */
  predicate ScheduledAt(p: Play, now: real, start: real) {
    p.at == now && p.start == start && start < now + 0.2
  }

  /** What is scheduled is the front of the queue, without a gap, from the schedule's time or from now if that is past. */
  ghost predicate Gapless(s: Streamer, t: Streamer, now: real) {
    && s.plays <= t.plays && |t.plays| - |s.plays| <= |s.queue|
    && forall i :: |s.plays| <= i < |t.plays| ==> InTurn(s, t, now, i)
  }

  /** The buffer started `i`th is the next of the queue and starts when the one before it ends. */
  ghost predicate InTurn(s: Streamer, t: Streamer, now: real, i: int)
    requires |s.plays| <= i < |t.plays| <= |s.plays| + |s.queue|
  {
    && t.plays[i].samples == s.queue[i - |s.plays|]
    && ScheduledAt(t.plays[i], now, if i > |s.plays| then End(t.plays[i - 1]) else if s.time >= now then s.time else now)
  }

  /** The loop stops only when nothing is queued or the schedule is 200 ms ahead, and leaves the rest of the queue. */
  ghost predicate StopsWhenAhead(s: Streamer, t: Streamer, now: real) {
    && |s.plays| <= |t.plays| <= |s.plays| + |s.queue|
    && t.queue == s.queue[|t.plays| - |s.plays|..]
    && (t.queue == [] || t.time >= now + 0.2)
    && t.time == if |t.plays| > |s.plays| then End(t.plays[|t.plays| - 1]) else s.time
  }

  lemma OneMoreInTurn(s: Streamer, t: Streamer, now: real)
    requires s.queue != [] && s.time < now + 0.2 && Gapless(Drawn(s, now), t, now)
    ensures Gapless(s, t, now)
  {
    var next := Drawn(s, now);
    var n := |s.plays|;
    assert t.plays[n] == next.plays[n];
    forall i | n <= i < |t.plays| ensures InTurn(s, t, now, i) {
      if i > n {
        assert InTurn(next, t, now, i);
      }
    }
  }

  lemma OneMoreUntilAhead(s: Streamer, t: Streamer, now: real)
    requires s.queue != [] && StopsWhenAhead(Drawn(s, now), t, now) && Drawn(s, now).plays <= t.plays
    ensures StopsWhenAhead(s, t, now)
  {
    assert t.plays[|s.plays|] == Drawn(s, now).plays[|s.plays|];
  }

  lemma {:induction false} DrainingIsGapless(s: Streamer, now: real)
    ensures Gapless(s, Drained(s, now), now) && StopsWhenAhead(s, Drained(s, now), now)
    ensures Drained(s, now) == s.(queue := Drained(s, now).queue, time := Drained(s, now).time, plays := Drained(s, now).plays)
    decreases |s.queue|
  {
    if s.queue != [] && s.time < now + SCHEDULE_AHEAD {
      DrainingIsGapless(Drawn(s, now), now);
      assert Drained(s, now) == Drained(Drawn(s, now), now);
      OneMoreInTurn(s, Drained(s, now), now);
      OneMoreUntilAhead(s, Drained(s, now), now);
    }
  }

  /**
   One run of the scheduler: it starts buffers from the front of the queue, gaplessly, until the schedule is
   200 ms ahead or the queue is empty; then it leaves one more timeout exactly if something is still queued,
   stops exactly if nothing is and the stream is complete, and otherwise leaves the interval on.
   */
  lemma SchedulingIsGapless(s: Streamer, now: real)
    ensures var t := Scheduled(s, now);
            && Gapless(s, t, now) && StopsWhenAhead(s, t, now) && t.complete == s.complete
            && t.timeouts == (if t.queue != [] then s.timeouts + 1 else s.timeouts)
            && t.playing == (if t.queue == [] && s.complete then false else s.playing)
            && t.interval == (if t.queue != [] then s.interval else !s.complete)
  {
    DrainingIsGapless(s, now);
    var d, t := Drained(s, now), Scheduled(s, now);
    forall i | |s.plays| <= i < |t.plays| ensures InTurn(s, t, now, i) {
      assert InTurn(s, d, now, i);
    }
  }

  function Added(s: Streamer, samples: Samples, now: real): Streamer {
    var t := s.(complete := false, queue := s.queue + Split(samples));
    if t.playing then t else Scheduled(t.(playing := true, time := now + INITIAL_BUFFER), now)
  }

  function Stopped(s: Streamer, now: real): Streamer {
    s.(playing := false, complete := true, queue := [], time := now, interval := false)
  }

  function Resumed(s: Streamer, now: real): Streamer {
    s.(complete := false, time := now + INITIAL_BUFFER)
  }

  class AudioStreamer {
    var audioQueue: seq<Samples>
    var isPlaying: bool
    var isStreamComplete: bool
    var checkInterval: bool
    var scheduledTime: real
    var pendingTimeouts: nat
    var started: seq<Play>

    ghost function State(): Streamer
      reads this
    {
      Streamer(audioQueue, isPlaying, isStreamComplete, checkInterval, scheduledTime, pendingTimeouts, started)
    }

    constructor ()
      ensures State() == Streamer([], false, false, false, 0.0, 0, [])
    {
      audioQueue, isPlaying, isStreamComplete, checkInterval := [], false, false, false;
      scheduledTime, pendingTimeouts, started := 0.0, 0, [];
    }

    method AddPCM16(chunk: Chunk, now: real)
      requires InBuffer(chunk)
      modifies this
      ensures State() == Added(old(State()), Decoded(chunk), now)
    {
      isStreamComplete := false;
      var processingBuffer := ProcessPCM16Chunk(chunk);
      ghost var before := old(State()).(complete := false);
      while |processingBuffer| >= BUFFER_SIZE
        invariant audioQueue + Split(processingBuffer) == before.queue + Split(Decoded(chunk))
        invariant State() == before.(queue := audioQueue)
        decreases |processingBuffer|
      {
        SplitOne(audioQueue, processingBuffer);
        audioQueue := audioQueue + [processingBuffer[..BUFFER_SIZE]];
        processingBuffer := processingBuffer[BUFFER_SIZE..];
      }
      SplitRest(audioQueue, processingBuffer);
      if |processingBuffer| > 0 {
        audioQueue := audioQueue + [processingBuffer];
      }
      assert audioQueue == before.queue + Split(Decoded(chunk));
      if !isPlaying {
        isPlaying := true;
        scheduledTime := now + INITIAL_BUFFER;
        ScheduleNextBuffer(now);
      }
    }

    method ScheduleNextBuffer(now: real)
      modifies this
      ensures State() == Scheduled(old(State()), now)
    {
      while |audioQueue| > 0 && scheduledTime < now + SCHEDULE_AHEAD
        invariant Drained(State(), now) == Drained(old(State()), now)
        decreases |audioQueue|
      {
        var audioData := audioQueue[0];
        audioQueue := audioQueue[1..];
        var startTime := if scheduledTime >= now then scheduledTime else now;
        started := started + [Play(now, startTime, audioData)];
        scheduledTime := startTime + |audioData| as real / SAMPLE_RATE;
      }
      if |audioQueue| == 0 {
        if isStreamComplete {
          isPlaying := false;
          checkInterval := false;
        } else {
          checkInterval := true;
        }
      } else {
        pendingTimeouts := pendingTimeouts + 1;
      }
    }

    method OnTimeout(now: real)
      requires pendingTimeouts > 0
      modifies this
      ensures State() == Scheduled(old(State()).(timeouts := old(State()).timeouts - 1), now)
    {
      pendingTimeouts := pendingTimeouts - 1;
      ScheduleNextBuffer(now);
    }

    method OnInterval(now: real)
      requires checkInterval
      modifies this
      ensures State() == if old(audioQueue) != [] then Scheduled(old(State()), now) else old(State())
    {
      if |audioQueue| > 0 {
        ScheduleNextBuffer(now);
      }
    }

    method Stop(now: real)
      modifies this
      ensures State() == Stopped(old(State()), now)
      ensures !isPlaying && isStreamComplete && audioQueue == [] && !checkInterval && scheduledTime == now
      ensures started == old(started) && pendingTimeouts == old(pendingTimeouts)
    {
      isPlaying := false;
      isStreamComplete := true;
      audioQueue := [];
      scheduledTime := now;
      checkInterval := false;
    }

    method Resume(now: real)
      modifies this
      ensures State() == Resumed(old(State()), now)
      ensures State() == old(State()).(complete := false, time := now + 0.1)
    {
      isStreamComplete := false;
      scheduledTime := now + INITIAL_BUFFER;
    }

    method Complete()
      modifies this
      ensures State() == old(State()).(complete := true)
    {
      isStreamComplete := true;
    }
  }
}
