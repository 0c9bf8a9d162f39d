/**
 The fixed-window budget of db/integration_limits.py.  Times are microseconds of the database clock,
 which is taken never to run backwards; limit and window are those of one company and action.
 */
module ActionBudget {
  import opened Common

  const MICROS := 1_000_000

  datatype Window = Window(startedAt: int, attempts: nat)
  datatype Policy = Policy(limit: nat, windowSeconds: nat)
  datatype Error = UnsupportedAction | OutsideBounds

  function Length(p: Policy): nat {
    p.windowSeconds * MICROS
  }

  predicate Over(w: Window, p: Policy, now: int) {
    w.startedAt <= now - Length(p)
  }

  /** The upsert's WHERE clause; a missing row is inserted. */
  predicate Accepts(row: Option<Window>, p: Policy, now: int) {
    row.None? || Over(row.value, p, now) || row.value.attempts < p.limit
  }

  function Consumed(row: Option<Window>, p: Policy, now: int): Option<Window> {
    if !Accepts(row, p, now) then row
    else if row.None? || Over(row.value, p, now) then Some(Window(now, 1))
    else Some(row.value.(attempts := row.value.attempts + 1))
  }

  function CeilSeconds(micros: int): int {
    (micros + MICROS - 1) / MICROS
  }

  function RetryAfter(w: Window, p: Policy, now: int): int {
    Max(1, CeilSeconds(w.startedAt + Length(p) - now))
  }

  class BudgetTable {
    var rows: map<(string, string), Window>

    constructor ()
      ensures rows == map[]
    {
      rows := map[];
    }

    function Row(company: string, action: string): Option<Window>
      reads this
    {
      if (company, action) in rows then Some(rows[(company, action)]) else None
    }

    /** Consume one attempt: no value when it was accepted, otherwise how long to wait. */
    method Consume(company: string, action: string, p: Policy, now: int) returns (result: Result<Option<int>, Error>)
      modifies this
      ensures result == Err(UnsupportedAction) <==> action != "threecx_test" && action != "threecx_save"
      ensures result == Err(OutsideBounds) <==> (action == "threecx_test" || action == "threecx_save") && !(1 <= p.limit <= 100 && 60 <= p.windowSeconds <= 86_400)
      ensures result.Err? ==> rows == old(rows)
      ensures result.Ok? ==> (result.value.None? <==> Accepts(old(Row(company, action)), p, now))
      ensures result.Ok? ==> Row(company, action) == Consumed(old(Row(company, action)), p, now)
      ensures result.Ok? && result.value.Some? ==> result.value.value == RetryAfter(old(Row(company, action)).value, p, now)
      ensures forall k :: k in rows && k != (company, action) ==> k in old(rows) && rows[k] == old(rows)[k]
      ensures old(rows.Keys) <= rows.Keys
    {
      if action != "threecx_test" && action != "threecx_save" {
        return Err(UnsupportedAction);
      }
      if !(1 <= p.limit <= 100 && 60 <= p.windowSeconds <= 86_400) {
        return Err(OutsideBounds);
      }
      var k := (company, action);
      if k !in rows {
        rows := rows[k := Window(now, 1)];
        return Ok(None);
      }
      var w := rows[k];
      if w.startedAt <= now - p.windowSeconds * MICROS {
        rows := rows[k := Window(now, 1)];
        return Ok(None);
      }
      if w.attempts < p.limit {
        rows := rows[k := w.(attempts := w.attempts + 1)];
        return Ok(None);
      }
      var seconds := (w.startedAt + p.windowSeconds * MICROS - now + MICROS - 1) / MICROS;
      result := Ok(Some(if seconds >= 1 then seconds else 1));
    }
  }

  // ---- Runs ------------------------------------------------------------------------------

  ghost predicate Clock(times: seq<int>) {
    forall i, j :: 0 <= i <= j < |times| ==> times[i] <= times[j]
  }

  predicate WithinLimit(row: Option<Window>, p: Policy) {
    row.Some? ==> 1 <= row.value.attempts <= p.limit
  }

  function Final(row: Option<Window>, p: Policy, times: seq<int>): Option<Window>
    decreases |times|
  {
    if times == [] then row else Final(Consumed(row, p, times[0]), p, times[1..])
  }

  /** How many of the attempts made at `times` are accepted at a time in [from, until). */
  function AcceptedIn(row: Option<Window>, p: Policy, times: seq<int>, from: int, until: int): nat
    decreases |times|
  {
    if times == [] then 0
    else
      (if Accepts(row, p, times[0]) && from <= times[0] < until then 1 else 0)
      + AcceptedIn(Consumed(row, p, times[0]), p, times[1..], from, until)
  }

  /** Every stored window holds at least one attempt and at most the limit. */
  lemma {:induction false} StoredWindowIsWithinLimit(row: Option<Window>, p: Policy, times: seq<int>)
    requires WithinLimit(row, p) && 1 <= p.limit
    ensures WithinLimit(Final(row, p, times), p)
    decreases |times|
  {
    if times != [] {
      StoredWindowIsWithinLimit(Consumed(row, p, times[0]), p, times[1..]);
    }
  }

  lemma {:induction false} NothingAfter(row: Option<Window>, p: Policy, times: seq<int>, from: int, until: int)
    requires Clock(times) && (times != [] ==> until <= times[0])
    ensures AcceptedIn(row, p, times, from, until) == 0
    decreases |times|
  {
    if times != [] {
      NothingAfter(Consumed(row, p, times[0]), p, times[1..], from, until);
    }
  }

  /** Attempts that can still be accepted in the window-long interval from `from`, once the clock is in it. */
  function Room(row: Option<Window>, p: Policy, from: int): int {
    if row.None? then p.limit
    else if row.value.startedAt >= from then p.limit - row.value.attempts
    else 2 * p.limit - row.value.attempts
  }

  lemma {:induction false} RoomBounds(row: Option<Window>, p: Policy, times: seq<int>, from: int)
    requires WithinLimit(row, p) && 1 <= p.limit && Clock(times) && (times != [] ==> from <= times[0])
    ensures AcceptedIn(row, p, times, from, from + Length(p)) <= Room(row, p, from)
    decreases |times|
  {
    if times != [] {
      var next := Consumed(row, p, times[0]);
      if Accepts(row, p, times[0]) && times[0] >= from + Length(p) {
        NothingAfter(row, p, times, from, from + Length(p));
      } else {
        RoomBounds(next, p, times[1..], from);
      }
    }
  }

  /**
   Any half-open interval one window long holds at most 2*limit - 1 accepted attempts, whatever the row
   the run starts from.
   */
  lemma {:induction false} AtMostTwiceTheLimitLessOne(row: Option<Window>, p: Policy, times: seq<int>, from: int)
    requires WithinLimit(row, p) && 1 <= p.limit && Clock(times)
    ensures AcceptedIn(row, p, times, from, from + Length(p)) <= 2 * p.limit - 1
    decreases |times|
  {
    if times != [] && times[0] < from {
      AtMostTwiceTheLimitLessOne(Consumed(row, p, times[0]), p, times[1..], from);
    } else {
      RoomBounds(row, p, times, from);
    }
  }

  // ---- The bound is reached --------------------------------------------------------------

  function Repeat(t: int, n: nat): (times: seq<int>)
    ensures |times| == n && forall i :: 0 <= i < n ==> times[i] == t
  {
    if n == 0 then [] else [t] + Repeat(t, n - 1)
  }

  lemma {:induction false} AcceptedInConcat(row: Option<Window>, p: Policy, a: seq<int>, b: seq<int>, from: int, until: int)
    ensures AcceptedIn(row, p, a + b, from, until) == AcceptedIn(row, p, a, from, until) + AcceptedIn(Final(row, p, a), p, b, from, until)
    ensures Final(row, p, a + b) == Final(Final(row, p, a), p, b)
    decreases |a|
  {
    if a == [] {
      assert a + b == b;
    } else {
      assert (a + b)[1..] == a[1..] + b;
      AcceptedInConcat(Consumed(row, p, a[0]), p, a[1..], b, from, until);
    }
  }

  lemma {:induction false} BurstFillsTheWindow(w: Window, p: Policy, t: int, n: nat, from: int, until: int)
    requires !Over(w, p, t) && w.attempts + n <= p.limit && from <= t < until
    ensures AcceptedIn(Some(w), p, Repeat(t, n), from, until) == n
    ensures Final(Some(w), p, Repeat(t, n)) == Some(w.(attempts := w.attempts + n))
    decreases n
  {
    if n > 0 {
      assert Repeat(t, n)[1..] == Repeat(t, n - 1);
      BurstFillsTheWindow(w.(attempts := w.attempts + 1), p, t, n - 1, from, until);
    }
  }

  /** A first attempt opens a window that later attempts, all in time, fill. */
  lemma FirstAttemptOpensTheWindow(p: Policy, t: int, rest: seq<int>, from: int, until: int)
    ensures AcceptedIn(None, p, [t] + rest, from, until)
            == (if from <= t < until then 1 else 0) + AcceptedIn(Some(Window(t, 1)), p, rest, from, until)
  {
    assert ([t] + rest)[1..] == rest;
  }

  lemma LateAttemptOpensTheNextWindow(p: Policy, w: Window, t: int, rest: seq<int>, from: int, until: int)
    requires Over(w, p, t)
    ensures AcceptedIn(Some(w), p, [t] + rest, from, until)
            == (if from <= t < until then 1 else 0) + AcceptedIn(Some(Window(t, 1)), p, rest, from, until)
  {
    assert ([t] + rest)[1..] == rest;
  }

  /** One attempt, the rest of the limit just before the window ends, and a full limit just after. */
  lemma TheBoundIsReached(p: Policy) returns (times: seq<int>, from: int)
    requires 1 <= p.limit <= 100 && 60 <= p.windowSeconds <= 86_400
    ensures Clock(times) && AcceptedIn(None, p, times, from, from + Length(p)) == 2 * p.limit - 1
  {
    var end := Length(p);
    from := end - 1;
    var until := from + end;
    var late, next := Repeat(end - 1, p.limit - 1), [end] + Repeat(end, p.limit - 1);
    times := [0] + (late + next);
    FirstAttemptOpensTheWindow(p, 0, late + next, from, until);
    AcceptedInConcat(Some(Window(0, 1)), p, late, next, from, until);
    BurstFillsTheWindow(Window(0, 1), p, end - 1, p.limit - 1, from, until);
    LateAttemptOpensTheNextWindow(p, Window(0, p.limit), end, Repeat(end, p.limit - 1), from, until);
    BurstFillsTheWindow(Window(end, 1), p, end, p.limit - 1, from, until);
  }

  // ---- Retry-After -----------------------------------------------------------------------

  /**
   A refused attempt changes nothing; waiting the returned whole seconds with no other attempt succeeds,
   and any wait at least a second shorter is refused again.
   */
  lemma WaitingRetryAfterSucceeds(w: Window, p: Policy, now: int, later: int)
    requires !Accepts(Some(w), p, now) && now <= later
    ensures Consumed(Some(w), p, now) == Some(w)
    ensures RetryAfter(w, p, now) == CeilSeconds(w.startedAt + Length(p) - now) >= 1
    ensures later >= now + RetryAfter(w, p, now) * MICROS ==> Accepts(Consumed(Some(w), p, now), p, later)
    ensures later <= now + (RetryAfter(w, p, now) - 1) * MICROS ==> !Accepts(Consumed(Some(w), p, now), p, later)
  {
    var left := w.startedAt + Length(p) - now;
    assert CeilSeconds(left) * MICROS >= left > (CeilSeconds(left) - 1) * MICROS;
  }
}
