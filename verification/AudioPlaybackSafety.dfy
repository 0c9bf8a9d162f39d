/**
 Every run of the playback queue: chunks, timers, stops, resumes and completions in any order on a clock
 that does not run backwards.
 */
module AudioPlaybackSafety {
  import opened Common
  import opened AudioPlayback

  /**
   `added` are the samples added since the last stop, `sinceStop` and `stretch` the number of buffers that
   had been started at the last stop and at the start of the current playing stretch.
   */
  datatype System = System(streamer: Streamer, now: real, added: Samples, sinceStop: nat, stretch: nat)

  const Initial := System(Streamer([], false, false, false, 0.0, 0, []), 0.0, [], 0, 0)

  datatype Action = Add(chunk: Chunk) | TimeoutFires | IntervalFires | Stop | Resume | Complete | Pass(seconds: real)

  function Step(s: System, a: Action): Option<System> {
    var r := s.streamer;
    match a
    case Add(chunk) =>
      if !InBuffer(chunk) then None
      else Some(s.(streamer := Added(r, Decoded(chunk), s.now), added := s.added + Decoded(chunk),
                   stretch := if r.playing then s.stretch else |r.plays|))
    case TimeoutFires =>
      if r.timeouts == 0 then None else Some(s.(streamer := Scheduled(r.(timeouts := r.timeouts - 1), s.now)))
    case IntervalFires =>
      if !r.interval then None else if r.queue == [] then Some(s) else Some(s.(streamer := Scheduled(r, s.now)))
    case Stop => Some(s.(streamer := Stopped(r, s.now), added := [], sinceStop := |r.plays|, stretch := |r.plays|))
    case Resume => Some(s.(streamer := Resumed(r, s.now), stretch := |r.plays|))
    case Complete => Some(s.(streamer := r.(complete := true)))
    case Pass(seconds) => if seconds < 0.0 then None else Some(s.(now := s.now + seconds))
  }

  ghost predicate Reaches(s: System, actions: seq<Action>, t: System)
    decreases |actions|
  {
    if actions == [] then s == t
    else Step(s, actions[0]).Some? && Reaches(Step(s, actions[0]).value, actions[1..], t)
  }

  // ---- Samples in order --------------------------------------------------------------------

  function Flatten(queue: seq<Samples>): Samples {
    if queue == [] then [] else queue[0] + Flatten(queue[1..])
  }

  function Played(plays: seq<Play>): Samples {
    if plays == [] then [] else Played(plays[..|plays| - 1]) + plays[|plays| - 1].samples
  }

  lemma {:induction false} FlattenConcat(a: seq<Samples>, b: seq<Samples>)
    ensures Flatten(a + b) == Flatten(a) + Flatten(b)
    decreases |a|
  {
    if a == [] {
      assert a + b == b;
    } else {
      assert (a + b)[1..] == a[1..] + b;
      FlattenConcat(a[1..], b);
    }
  }

  lemma {:induction false} FlattenSplit(samples: Samples)
    ensures Flatten(Split(samples)) == samples
    decreases |samples|
  {
    if |samples| >= BUFFER_SIZE {
      FlattenSplit(samples[BUFFER_SIZE..]);
      var rest := Split(samples[BUFFER_SIZE..]);
      assert ([samples[..BUFFER_SIZE]] + rest)[1..] == rest;
    } else if samples != [] {
      assert [samples][1..] == [];
    }
  }

  /** What was and will be played, from buffer `k` on. */
  function Flow(r: Streamer, k: nat): Samples
    requires k <= |r.plays|
  {
    Played(r.plays[k..]) + Flatten(r.queue)
  }

  lemma {:induction false} DrainKeepsFlow(r: Streamer, now: real, k: nat)
    requires k <= |r.plays|
    ensures k <= |Drained(r, now).plays| && Flow(Drained(r, now), k) == Flow(r, k)
    decreases |r.queue|
  {
    if r.queue != [] && r.time < now + SCHEDULE_AHEAD {
      var start := if r.time >= now then r.time else now;
      var p := Play(now, start, r.queue[0]);
      var next := r.(queue := r.queue[1..], time := End(p), plays := r.plays + [p]);
      DrainKeepsFlow(next, now, k);
      assert next.plays[k..][..|next.plays[k..]| - 1] == r.plays[k..];
    }
  }

  // ---- Intervals in order ------------------------------------------------------------------

  /** From buffer `k` on: started no earlier than scheduled, one after the other, and all before the schedule's end. */
  ghost predicate InOrder(r: Streamer, now: real, k: nat) {
    && k <= |r.plays|
    && (forall i :: k <= i < |r.plays| ==> r.plays[i].at <= r.plays[i].start && r.plays[i].at <= now && End(r.plays[i]) <= r.time)
    && (forall i, j :: k <= i < j < |r.plays| ==> End(r.plays[i]) <= r.plays[j].start)
  }

  lemma {:induction false} DrainKeepsOrder(r: Streamer, now: real, k: nat)
    requires InOrder(r, now, k)
    ensures InOrder(Drained(r, now), now, k)
    decreases |r.queue|
  {
    if r.queue != [] && r.time < now + SCHEDULE_AHEAD {
      var start := if r.time >= now then r.time else now;
      var p := Play(now, start, r.queue[0]);
      assert End(p) >= start;
      DrainKeepsOrder(r.(queue := r.queue[1..], time := End(p), plays := r.plays + [p]), now, k);
    }
  }

  lemma {:induction false} DrainTouchesOnlyTheSchedule(r: Streamer, now: real)
    ensures var t := Drained(r, now);
            t.playing == r.playing && t.complete == r.complete && t.interval == r.interval && t.timeouts == r.timeouts
    decreases |r.queue|
  {
    if r.queue != [] && r.time < now + SCHEDULE_AHEAD {
      var start := if r.time >= now then r.time else now;
      var p := Play(now, start, r.queue[0]);
      DrainTouchesOnlyTheSchedule(r.(queue := r.queue[1..], time := End(p), plays := r.plays + [p]), now);
    }
  }

  // ---- Invariant ---------------------------------------------------------------------------

  /** Someone will look at the queue again. */
  predicate WakeUpPending(r: Streamer) {
    r.timeouts > 0 || r.interval
  }

  ghost predicate Inv(s: System) {
    && s.sinceStop <= |s.streamer.plays| && Flow(s.streamer, s.sinceStop) == s.added
    && InOrder(s.streamer, s.now, s.stretch)
    && (s.streamer.queue != [] ==> s.streamer.playing)
    && (s.streamer.playing ==> WakeUpPending(s.streamer))
  }

  lemma ScheduleKeeps(s: System, r: Streamer, t: System)
    requires s.sinceStop <= |r.plays| && Flow(r, s.sinceStop) == s.added && InOrder(r, s.now, s.stretch)
    requires r.queue != [] ==> r.playing
    requires t == s.(streamer := Scheduled(r, s.now))
    ensures Inv(t)
  {
    DrainKeepsFlow(r, s.now, s.sinceStop);
    DrainKeepsOrder(r, s.now, s.stretch);
    DrainTouchesOnlyTheSchedule(r, s.now);
    if r.queue == [] {
      assert Drained(r, s.now) == r;
    }
  }

  lemma QueueingExtendsFlow(r: Streamer, samples: Samples, k: nat)
    requires k <= |r.plays|
    ensures Played(r.plays[k..]) + Flatten(r.queue + Split(samples)) == Flow(r, k) + samples
  {
    FlattenConcat(r.queue, Split(samples));
    FlattenSplit(samples);
  }

  lemma AddKeeps(s: System, c: Chunk, t: System)
    requires Inv(s) && InBuffer(c) && Step(s, Add(c)) == Some(t)
    ensures Inv(t)
  {
    var samples := Decoded(c);
    var r := s.streamer.(complete := false, queue := s.streamer.queue + Split(samples));
    QueueingExtendsFlow(s.streamer, samples, s.sinceStop);
    assert Flow(r, s.sinceStop) == s.added + samples;
    if !s.streamer.playing {
      var u := s.(added := s.added + samples, stretch := |r.plays|);
      ScheduleKeeps(u, r.(playing := true, time := s.now + INITIAL_BUFFER), t);
    }
  }

  lemma StepKeeps(s: System, a: Action, t: System)
    requires Inv(s) && Step(s, a) == Some(t)
    ensures Inv(t)
  {
    var r := s.streamer;
    match a
    case Add(chunk) => AddKeeps(s, chunk, t);
    case TimeoutFires => ScheduleKeeps(s, r.(timeouts := r.timeouts - 1), t);
    case IntervalFires =>
      if r.queue != [] {
        ScheduleKeeps(s, r, t);
      }
    case Stop => assert r.plays[|r.plays|..] == [];
    case Resume =>
    case Complete =>
    case Pass(_) =>
  }

  lemma {:induction false} RunKeeps(s: System, actions: seq<Action>, t: System)
    requires Inv(s) && Reaches(s, actions, t)
    ensures Inv(t)
    decreases |actions|
  {
    if actions != [] {
      StepKeeps(s, actions[0], Step(s, actions[0]).value);
      RunKeeps(Step(s, actions[0]).value, actions[1..], t);
    }
  }

  // ---- Theorems ----------------------------------------------------------------------------

  /** Between stops no sample is lost, repeated or moved: those started, then those queued, are those added. */
  lemma SamplesAreConserved(actions: seq<Action>, s: System)
    requires Reaches(Initial, actions, s)
    ensures s.sinceStop <= |s.streamer.plays|
    ensures Played(s.streamer.plays[s.sinceStop..]) + Flatten(s.streamer.queue) == s.added
  {
    assert Initial.streamer.plays[0..] == [];
    RunKeeps(Initial, actions, s);
  }

  /** Within one playing stretch no buffer starts in the past, and the intervals are ordered and disjoint. */
  lemma IntervalsAreOrderedAndDisjoint(actions: seq<Action>, s: System, i: nat, j: nat)
    requires Reaches(Initial, actions, s) && s.stretch <= i <= j < |s.streamer.plays|
    ensures s.streamer.plays[i].at <= s.streamer.plays[i].start <= End(s.streamer.plays[i])
    ensures i < j ==> End(s.streamer.plays[i]) <= s.streamer.plays[j].start
  {
    assert Initial.streamer.plays[0..] == [];
    RunKeeps(Initial, actions, s);
  }

  /** Queued audio is never stranded. */
  lemma QueuedAudioHasAWakeUp(actions: seq<Action>, s: System)
    requires Reaches(Initial, actions, s) && s.streamer.queue != []
    ensures s.streamer.playing && WakeUpPending(s.streamer)
  {
    assert Initial.streamer.plays[0..] == [];
    RunKeeps(Initial, actions, s);
  }

  // ---- Exactly when a resume continues the stretch ---------------------------------------

  /** Everything started in the stretch has been played 100 ms from now. */
  ghost predicate PlayedOut(r: Streamer, now: real, k: nat) {
    forall i :: k <= i < |r.plays| ==> End(r.plays[i]) <= now + INITIAL_BUFFER
  }

  /** In every run, a resume leaves the whole stretch in order with what will be scheduled exactly when it is played out by then. */
  lemma AResumeContinuesExactlyIfPlayedOut(actions: seq<Action>, s: System)
    requires Reaches(Initial, actions, s)
    ensures InOrder(Resumed(s.streamer, s.now), s.now, s.stretch) <==> PlayedOut(s.streamer, s.now, s.stretch)
  {
    assert Initial.streamer.plays[0..] == [];
    RunKeeps(Initial, actions, s);
  }

  /** After such a resume the old stretch goes on: it stays ordered and disjoint over every run that follows. */
  lemma APlayedOutStretchGoesOn(actions: seq<Action>, s: System, u: System, after: seq<Action>, v: System)
    requires Reaches(Initial, actions, s) && PlayedOut(s.streamer, s.now, s.stretch)
    requires u == s.(streamer := Resumed(s.streamer, s.now)) && Reaches(u, after, v)
    ensures InOrder(v.streamer, v.now, v.stretch)
  {
    assert Initial.streamer.plays[0..] == [];
    RunKeeps(Initial, actions, s);
    RunKeeps(u, after, v);
  }

  lemma {:induction false} DrainExtends(r: Streamer, now: real)
    ensures r.plays <= Drained(r, now).plays
    decreases |r.queue|
  {
    if r.queue != [] && r.time < now + SCHEDULE_AHEAD {
      var start := if r.time >= now then r.time else now;
      var p := Play(now, start, r.queue[0]);
      var next := r.(queue := r.queue[1..], time := End(p), plays := r.plays + [p]);
      DrainExtends(next, now);
      assert r.plays <= next.plays;
    }
  }

  /** Some buffer from `k` on still plays after `moment`. */
  ghost predicate StillPlays(r: Streamer, k: nat, moment: real) {
    exists i :: k <= i < |r.plays| && moment < End(r.plays[i])
  }

  /** The next buffer that is scheduled starts before some buffer from `k` on has ended. */
  ghost predicate NextOverlaps(r: Streamer, k: nat, t: Streamer) {
    && |r.plays| < |t.plays| && r.plays <= t.plays
    && exists i :: k <= i < |r.plays| && t.plays[|r.plays|].start < End(r.plays[i])
  }

  /** With a buffer due, the next one overlaps exactly if one still plays when it starts. */
  lemma NextOverlapsExactlyIfOneStillPlays(r: Streamer, k: nat, later: real, t: Streamer)
    requires r.queue != [] && r.time < later + SCHEDULE_AHEAD && t == Scheduled(r, later)
    ensures NextOverlaps(r, k, t) <==> StillPlays(r, k, if r.time >= later then r.time else later)
    ensures |r.plays| < |t.plays| && r.plays <= t.plays
  {
    var p := Play(later, if r.time >= later then r.time else later, r.queue[0]);
    var next := r.(queue := r.queue[1..], time := End(p), plays := r.plays + [p]);
    assert Drained(r, later) == Drained(next, later);
    DrainExtends(next, later);
    assert t.plays == Drained(next, later).plays;
    assert next.plays <= t.plays;
    assert t.plays[|r.plays|] == next.plays[|r.plays|] == p;
  }

  /**
   In any state, the first buffer scheduled after a resume, at once or later, overlaps one of the stretch
   exactly if that one still plays 100 ms after the resume, or at the later time if that is later still.
   */
  lemma TheNextBufferOverlapsExactlyIfOneStillPlays(s: System, later: real, t: Streamer)
    requires s.streamer.queue != [] && s.now <= later && t == Scheduled(Resumed(s.streamer, s.now), later)
    ensures var starts := if s.now + INITIAL_BUFFER >= later then s.now + INITIAL_BUFFER else later;
            NextOverlaps(s.streamer, s.stretch, t) <==> StillPlays(s.streamer, s.stretch, starts)
  {
    NextOverlapsExactlyIfOneStillPlays(Resumed(s.streamer, s.now), s.stretch, later, t);
  }

  // ---- Exactly when a restart continues the stretch --------------------------------------

  lemma RestartedStreamer(r: Streamer, samples: Samples, now: real, t: Streamer) returns (due: Streamer)
    requires r.queue == [] && !r.playing && samples != [] && t == Added(r, samples, now)
    ensures due == r.(complete := false, queue := Split(samples), playing := true, time := now + INITIAL_BUFFER)
    ensures due.queue != [] && t == Scheduled(due, now)
  {
    due := r.(complete := false, queue := Split(samples), playing := true, time := now + INITIAL_BUFFER);
    assert [] + Split(samples) == Split(samples);
  }

  lemma RestartKeepsOrderExactlyIfPlayedOut(r: Streamer, samples: Samples, now: real, k: nat, t: Streamer)
    requires InOrder(r, now, k) && r.queue == [] && !r.playing && samples != [] && t == Added(r, samples, now)
    ensures InOrder(t, now, k) <==> PlayedOut(r, now, k)
    ensures NextOverlaps(r, k, t) <==> !PlayedOut(r, now, k)
  {
    var due := RestartedStreamer(r, samples, now, t);
    NextOverlapsExactlyIfOneStillPlays(due, k, now, t);
    if PlayedOut(r, now, k) {
      DrainKeepsOrder(due, now, k);
    } else {
      NotInOrderIfOverlapping(r, k, t, now);
    }
  }

  /**
   In every run, when playing has stopped by completion or otherwise and a chunk starts it again, the old
   stretch and the new buffers are in order together exactly if the stretch is played out 100 ms from then;
   if it is not, the very next buffer overlaps one of it.
   */
  lemma ARestartContinuesExactlyIfPlayedOut(actions: seq<Action>, s: System, chunk: Chunk, t: System)
    requires Reaches(Initial, actions, s) && !s.streamer.playing
    requires Step(s, Add(chunk)) == Some(t) && Decoded(chunk) != []
    ensures InOrder(t.streamer, t.now, s.stretch) <==> PlayedOut(s.streamer, s.now, s.stretch)
    ensures NextOverlaps(s.streamer, s.stretch, t.streamer) <==> !PlayedOut(s.streamer, s.now, s.stretch)
  {
    assert Initial.streamer.plays[0..] == [];
    RunKeeps(Initial, actions, s);
    RestartKeepsOrderExactlyIfPlayedOut(s.streamer, Decoded(chunk), s.now, s.stretch, t.streamer);
  }

  lemma NotInOrderIfOverlapping(r: Streamer, k: nat, t: Streamer, now: real)
    requires NextOverlaps(r, k, t)
    ensures !InOrder(t, now, k)
  {
    var i :| k <= i < |r.plays| && t.plays[|r.plays|].start < End(r.plays[i]);
    assert t.plays[i] == r.plays[i];
  }

  // ---- A resume and a completion that do not ------------------------------------------------------------

  lemma {:induction false} ReachesSnoc(s: System, actions: seq<Action>, m: System, a: Action)
    requires Reaches(s, actions, m) && Step(m, a).Some?
    ensures Reaches(s, actions + [a], Step(m, a).value)
    decreases |actions|
  {
    if actions == [] {
      assert [a][1..] == [];
    } else {
      ReachesSnoc(Step(s, actions[0]).value, actions[1..], m, a);
      assert (actions + [a])[1..] == actions[1..] + [a];
    }
  }

  lemma Then(run: seq<Action>, m: System, a: Action, t: System) returns (longer: seq<Action>)
    requires Reaches(Initial, run, m) && Step(m, a) == Some(t)
    ensures Reaches(Initial, longer, t)
  {
    ReachesSnoc(Initial, run, m, a);
    longer := run + [a];
  }

  /** 4800 samples, a fifth of a second. */
  function Fifth(): (c: Chunk)
    ensures InBuffer(c) && |Decoded(c)| == 4800
  {
    Chunk(seq(9600, _ => 0), 0, 9600)
  }

  /** A fifth of a second plays from 0.1 on; the user resumes at once. */
  lemma PlaysAndResumes(x: Samples, first: Play) returns (run: seq<Action>, s: System)
    requires x == Decoded(Fifth()) && first == Play(0.0, 0.1, x)
    ensures Reaches(Initial, run, s)
    ensures s == System(Streamer([], true, false, true, 0.1, 0, [first]), 0.0, x, 0, 1)
  {
    var t := System(Streamer([], true, false, true, End(first), 0, [first]), 0.0, x, 0, 0);
    AddedPlays(x);
    assert [] + x == x;
    run := Then([], Initial, Add(Fifth()), t);
    s := t.(streamer := t.streamer.(time := 0.1), stretch := 1);
    run := Then(run, t, Resume, s);
  }

  /** A resume moves the schedule back to 100 ms from now, so the next buffer can overlap one that is playing. */
  lemma ResumeWhilePlayingOverlaps() returns (run: seq<Action>, t: System)
    ensures Reaches(Initial, run, t) && |t.streamer.plays| == 2
    ensures t.streamer.plays[1].start < End(t.streamer.plays[0]) && t.streamer.plays[0].start < End(t.streamer.plays[1])
  {
    var x := Decoded(Fifth());
    var first := Play(0.0, 0.1, x);
    var s: System;
    run, s := PlaysAndResumes(x, first);
    var queued := s.(streamer := s.streamer.(queue := [x]), added := x + x);
    assert [] + Split(x) == [x];
    run := Then(run, s, Add(Fifth()), queued);
    ScheduledPlays(queued.streamer, x, first);
    t := queued.(streamer := Scheduled(queued.streamer, 0.0));
    run := Then(run, queued, IntervalFires, t);
  }

  /** A fifth is added and plays from 0.1 on. */
  lemma FirstPlays(x: Samples, first: Play) returns (run: seq<Action>, s: System)
    requires x == Decoded(Fifth()) && first == Play(0.0, 0.1, x)
    ensures Reaches(Initial, run, s)
    ensures s == System(Streamer([], true, false, true, End(first), 0, [first]), 0.0, x, 0, 0)
  {
    s := System(Streamer([], true, false, true, End(first), 0, [first]), 0.0, x, 0, 0);
    AddedPlays(x);
    assert [] + x == x;
    run := Then([], Initial, Add(Fifth()), s);
  }

  /** While it plays, another fifth only queues. */
  lemma SecondWaits(s: System, x: Samples, t: System)
    requires x == Decoded(Fifth()) && s.streamer.playing && !s.streamer.complete && s.streamer.queue == []
    requires t == s.(streamer := s.streamer.(queue := [x]), added := s.added + x)
    ensures Step(s, Add(Fifth())) == Some(t)
  {
    assert Split(x) == [x];
    assert [] + [x] == [x];
  }

  /** The stream is declared complete. */
  lemma ThenComplete(before: seq<Action>, s: System, t: System) returns (run: seq<Action>)
    requires Reaches(Initial, before, s) && t == s.(streamer := s.streamer.(complete := true))
    ensures Reaches(Initial, run, t)
  {
    run := Then(before, s, Complete, t);
  }

  /** Two fifths are added, the second one waits, and the stream is declared complete. */
  lemma WaitsAndCompletes(x: Samples, first: Play) returns (run: seq<Action>, s: System)
    requires x == Decoded(Fifth()) && first == Play(0.0, 0.1, x)
    ensures Reaches(Initial, run, s)
    ensures s == System(Streamer([x], true, true, true, End(first), 0, [first]), 0.0, x + x, 0, 0)
  {
    var one: System;
    run, one := FirstPlays(x, first);
    var two := one.(streamer := one.streamer.(queue := [x]), added := one.added + x);
    SecondWaits(one, x, two);
    run := Then(run, one, Add(Fifth()), two);
    s := two.(streamer := two.streamer.(complete := true));
    run := ThenComplete(run, two, s);
  }

  /** At 0.15 the second one goes out, to play from 0.3 to 0.5, and the streamer stops. */
  lemma PlaysAndCompletes(x: Samples, first: Play, second: Play) returns (run: seq<Action>, s: System)
    requires x == Decoded(Fifth()) && first == Play(0.0, 0.1, x) && second == Play(0.15, 0.3, x)
    ensures Reaches(Initial, run, s)
    ensures s == System(Streamer([], false, true, false, 0.5, 0, [first, second]), 0.15, x + x, 0, 0)
  {
    var waiting: System;
    run, waiting := WaitsAndCompletes(x, first);
    var due := waiting.(now := 0.15);
    run := Then(run, waiting, Pass(0.15), due);
    LastBufferPlays(due.streamer, x, second);
    assert [first] + [second] == [first, second];
    s := due.(streamer := Streamer([], false, true, false, 0.5, 0, [first, second]));
    run := Then(run, due, IntervalFires, s);
  }

  lemma LastBufferPlays(r: Streamer, x: Samples, p: Play)
    requires |x| == 4800 && r.queue == [x] && r.complete && r.time == 0.3 && p == Play(0.15, 0.3, x)
    ensures Scheduled(r, 0.15) == r.(queue := [], time := 0.5, plays := r.plays + [p], playing := false, interval := false)
  {
    assert [x][1..] == [];
    assert Drained(r, 0.15) == Drained(r.(queue := [], time := End(p), plays := r.plays + [p]), 0.15);
  }

  /** A completed stream stops while its last buffers still sound, so the next chunk can overlap them. */
  lemma RestartAfterCompletionOverlaps() returns (run: seq<Action>, s: System, t: System)
    ensures Reaches(Initial, run, s) && s.streamer.complete && !s.streamer.playing
    ensures Step(s, Add(Fifth())) == Some(t) && NextOverlaps(s.streamer, s.stretch, t.streamer)
  {
    var x := Decoded(Fifth());
    var first, second := Play(0.0, 0.1, x), Play(0.15, 0.3, x);
    run, s := PlaysAndCompletes(x, first, second);
    t := Step(s, Add(Fifth())).value;
    ARestartContinuesExactlyIfPlayedOut(run, s, Fifth(), t);
    assert End(s.streamer.plays[1]) == 0.5;
  }

  lemma AddedPlays(x: Samples)
    requires |x| == 4800
    ensures Added(Initial.streamer, x, 0.0) == Streamer([], true, false, true, End(Play(0.0, 0.1, x)), 0, [Play(0.0, 0.1, x)])
  {
    assert Split(x) == [x];
    var r := Initial.streamer.(complete := false, queue := [x], playing := true, time := INITIAL_BUFFER);
    assert [] + [x] == [x];
    assert Added(Initial.streamer, x, 0.0) == Scheduled(r, 0.0);
    ScheduledPlays(r, x, Play(0.0, 0.1, x));
    assert [] + [Play(0.0, 0.1, x)] == [Play(0.0, 0.1, x)];
  }

  lemma ScheduledPlays(r: Streamer, x: Samples, p: Play)
    requires r.queue == [x] && !r.complete && r.time == 0.1 && p == Play(0.0, 0.1, x)
    ensures Scheduled(r, 0.0) == r.(queue := [], time := End(p), plays := r.plays + [p], interval := true)
  {
    assert [x][1..] == [];
    assert Drained(r, 0.0) == Drained(r.(queue := [], time := End(p), plays := r.plays + [p]), 0.0);
  }
}
