/**
 Business hours: the normal form built by backend/app/capabilities.py, and how the slot generator of
 backend/app/services/google_calendar.py reads it back.
 */
module BusinessHours {
  import opened Common
  import FreeSlots

  // ---- Characters ------------------------------------------------------------------------

  /** Python's whitespace, for both `str.strip` and the `\s` of a pattern. */
  predicate IsSpace(c: char) {
    var u := c as int;
    || 0x09 <= u <= 0x0D || 0x1C <= u <= 0x20 || u == 0x85 || u == 0xA0 || u == 0x1680
    || 0x2000 <= u <= 0x200A || u == 0x2028 || u == 0x2029 || u == 0x202F || u == 0x205F || u == 0x3000
  }

  /**
   The decimal digit blocks of Unicode other than ASCII, by their zeros: `\d` and `int` accept all their
   digits.  The table grows with Unicode, so it is a parameter; its blocks hold no whitespace and no dash.
   */
  type DigitTable = zeros: seq<int> | forall i :: 0 <= i < |zeros| ==> PlainBlock(zeros[i]) witness []

  predicate PlainBlock(zero: int) {
    0x660 <= zero < 0x1670 || 0x1690 <= zero < 0x1FF0 || 0x3010 <= zero
  }

  predicate IsAscii(c: char) {
    '0' <= c <= '9'
  }

  /** The value of a decimal digit, or None. */
  function Digit(table: DigitTable, c: char): (d: Option<int>)
    ensures IsAscii(c) ==> d == Some(c as int - 0x30)
    ensures d.Some? ==> 0 <= d.value <= 9 && !IsSpace(c) && c != '-' && c != ':' && PlainDash(c) == c
  {
    if IsAscii(c) then Some(c as int - 0x30)
    else if table == [] then None
    else if table[0] <= c as int <= table[0] + 9 then Some(c as int - table[0])
    else Digit(table[1..], c)
  }

  /** En dash and em dash read as a hyphen. */
  function PlainDash(c: char): char {
    if c == '\U{2013}' || c == '\U{2014}' then '-' else c
  }

  // ---- String operations -----------------------------------------------------------------

  function StripLeft(s: string): string {
    if s != "" && IsSpace(s[0]) then StripLeft(s[1..]) else s
  }

  function StripRight(s: string): string {
    if s != "" && IsSpace(s[|s| - 1]) then StripRight(s[..|s| - 1]) else s
  }

  function Strip(s: string): string {
    StripRight(StripLeft(s))
  }

  function PlainDashes(s: string): string {
    seq(|s|, i requires 0 <= i < |s| => PlainDash(s[i]))
  }

  function Normalized(value: string): string {
    PlainDashes(Strip(value))
  }

  /** `c.casefold() == l` for a letter of "closed"; the long s folds to s. */
  predicate Folds(c: char, l: char) {
    c == l || c as int == l as int - 32 || (l == 's' && c == '\U{017F}')
  }

  const CLOSED := "closed"

  predicate ReadsClosed(s: string) {
    |s| == |CLOSED| && forall i :: 0 <= i < |CLOSED| ==> Folds(s[i], CLOSED[i])
  }

  predicate AllSpace(s: string) {
    forall i :: 0 <= i < |s| ==> IsSpace(s[i])
  }

  // ---- Compiling -------------------------------------------------------------------------

  /** `(?:[01]\d|2[0-3]):[0-5]\d` */
  predicate IsClock(table: DigitTable, s: string) {
    && |s| == 5 && s[2] == ':'
    && (((s[0] == '0' || s[0] == '1') && Digit(table, s[1]).Some?) || (s[0] == '2' && '0' <= s[1] <= '3'))
    && '0' <= s[3] <= '5' && Digit(table, s[4]).Some?
  }

  /** What `int` makes of a digit. */
  function DigitValue(table: DigitTable, c: char): int {
    if Digit(table, c).Some? then Digit(table, c).value else 0
  }

  /** Minutes after midnight, as `int` reads the two fields. */
  function ClockMinutes(table: DigitTable, s: string): int
    requires IsClock(table, s)
  {
    60 * (10 * DigitValue(table, s[0]) + DigitValue(table, s[1])) + 10 * DigitValue(table, s[3]) + DigitValue(table, s[4])
  }

  /** Position `k` holds the hyphen of `clock \s*-\s* clock`. */
  predicate HyphenAt(s: string, k: int) {
    && 5 <= k < |s| - 5 && s[k] == '-'
    && (forall i :: 5 <= i < |s| - 5 && i != k ==> IsSpace(s[i]))
  }

  predicate IsRange(table: DigitTable, s: string) {
    |s| >= 11 && IsClock(table, s[..5]) && IsClock(table, s[|s| - 5..]) && exists k :: 5 <= k < |s| - 5 && HyphenAt(s, k)
  }

  datatype Problem = BadFormat | EndsBeforeStart | BadWeekday | TooLong | TooManyDays

  /** One value of `business_hours`: `closed`, or the two clock times of a non-empty range, or an error. */
  function Compile(table: DigitTable, value: string): Result<string, Problem> {
    if |value| > 100 then Err(TooLong)
    else
      var s := Normalized(value);
      if s == "" || ReadsClosed(s) then Ok(CLOSED)
      else if !IsRange(table, s) then Err(BadFormat)
      else if ClockMinutes(table, s[..5]) >= ClockMinutes(table, s[|s| - 5..]) then Err(EndsBeforeStart)
      else Ok(s[..5] + ['-'] + s[|s| - 5..])
  }

  // ---- Reading back ----------------------------------------------------------------------

  function Split(s: string, c: char): (parts: seq<string>)
    ensures |parts| >= 1
  {
    if s == "" then [""]
    else
      var rest := Split(s[1..], c);
      if s[0] == c then [""] + rest else [[s[0]] + rest[0]] + rest[1..]
  }

  /** `time.fromisoformat`: five characters are read as HH:MM in ASCII digits; `other` is how it reads anything else. */
  function ReadTime(part: string, other: string -> Option<int>): Option<int> {
    if |part| != 5 || part[2] != ':' then other(part)
    else if !(IsAscii(part[0]) && IsAscii(part[1]) && IsAscii(part[3]) && IsAscii(part[4])) then None
    else
      var h, m := 10 * (part[0] as int - 0x30) + (part[1] as int - 0x30), 10 * (part[3] as int - 0x30) + (part[4] as int - 0x30);
      if h < 24 && m < 60 then Some(60 * h + m) else None
  }

  /** The opening hours of `_compute_free_slots`, in seconds; None is every exit that offers no slot. */
  function ReadHours(value: string, other: string -> Option<int>): Option<FreeSlots.Hours> {
    if ReadsClosed(Strip(value)) then None
    else
      var parts := Split(Normalized(value), '-');
      if |parts| != 2 then None
      else
        var opening, closing := ReadTime(Strip(parts[0]), other), ReadTime(Strip(parts[1]), other);
        if opening.None? || closing.None? || opening.value >= closing.value then None
        else Some(FreeSlots.Hours(60 * opening.value, 60 * closing.value))
  }

  predicate AsciiClock(table: DigitTable, s: string)
    requires IsClock(table, s)
  {
    IsAscii(s[1]) && IsAscii(s[4])
  }

  // ---- Facts about clocks and strings ----------------------------------------------------

  predicate Plain(s: string) {
    forall i :: 0 <= i < |s| ==> !IsSpace(s[i]) && s[i] != '-' && PlainDash(s[i]) == s[i]
  }

  lemma {:induction false} ClockIsPlain(table: DigitTable, s: string)
    requires IsClock(table, s)
    ensures Plain(s)
  {
  }

  lemma {:induction false} PlainDashesKeeps(s: string)
    requires forall i :: 0 <= i < |s| ==> PlainDash(s[i]) == s[i]
    ensures PlainDashes(s) == s
  {
  }

  lemma {:induction false} StripKeeps(s: string)
    requires s != "" ==> !IsSpace(s[0]) && !IsSpace(s[|s| - 1])
    ensures Strip(s) == s
  {
  }

  lemma {:induction false} StripLeftDrops(spaces: string, s: string)
    requires AllSpace(spaces) && s != "" && !IsSpace(s[0])
    ensures StripLeft(spaces + s) == s
  {
    if spaces == "" {
      assert spaces + s == s;
    } else {
      assert (spaces + s)[1..] == spaces[1..] + s;
      StripLeftDrops(spaces[1..], s);
    }
  }

  lemma {:induction false} StripRightDrops(s: string, spaces: string)
    requires AllSpace(spaces) && s != "" && !IsSpace(s[|s| - 1])
    ensures StripRight(s + spaces) == s
  {
    if spaces == "" {
      assert s + spaces == s;
    } else {
      assert (s + spaces)[..|s + spaces| - 1] == s + spaces[..|spaces| - 1];
      StripRightDrops(s, spaces[..|spaces| - 1]);
    }
  }

  /** Stripping removes exactly the spaces around a text that starts and ends with something else. */
  lemma {:induction false} StripDrops(left: string, s: string, right: string)
    requires AllSpace(left) && AllSpace(right) && s != "" && !IsSpace(s[0]) && !IsSpace(s[|s| - 1])
    ensures Strip(left + s + right) == s
  {
    assert left + s + right == left + (s + right);
    StripLeftDrops(left, s + right);
    StripRightDrops(s, right);
  }

  lemma {:induction false} SplitWhole(s: string, c: char)
    requires c !in s
    ensures Split(s, c) == [s]
  {
    if s != "" {
      SplitWhole(s[1..], c);
      assert [s[0]] + s[1..] == s;
    }
  }

  lemma {:induction false} SplitOnce(a: string, c: char, b: string)
    requires c !in a && c !in b
    ensures Split(a + [c] + b, c) == [a, b]
  {
    var s := a + [c] + b;
    if a == "" {
      assert s[0] == c && s[1..] == b;
      SplitWhole(b, c);
    } else {
      assert s[0] == a[0] && s[1..] == a[1..] + [c] + b;
      SplitOnce(a[1..], c, b);
      assert [a[0]] + a[1..] == a;
    }
  }

  // ---- The normal form -------------------------------------------------------------------

  /** A compiled range: two clock times around one hyphen, the first earlier. */
  predicate NormalRange(table: DigitTable, n: string) {
    && |n| == 11 && n[5] == '-' && IsClock(table, n[..5]) && IsClock(table, n[6..])
    && ClockMinutes(table, n[..5]) < ClockMinutes(table, n[6..])
  }

  lemma {:induction false} RangeIsNormalized(table: DigitTable, n: string)
    requires NormalRange(table, n)
    ensures Strip(n) == n && PlainDashes(n) == n
  {
    ClockIsPlain(table, n[..5]);
    ClockIsPlain(table, n[6..]);
    forall i | 0 <= i < |n|
      ensures !IsSpace(n[i]) && PlainDash(n[i]) == n[i]
    {
      if i < 5 { assert n[i] == n[..5][i]; }
      if i > 5 { assert n[i] == n[6..][i - 6]; }
    }
    StripKeeps(n);
    PlainDashesKeeps(n);
  }

  lemma {:induction false} ClosedIsNormalized(n: string)
    requires n == CLOSED
    ensures Strip(n) == n && PlainDashes(n) == n && ReadsClosed(n)
  {
    StripKeeps(n);
    PlainDashesKeeps(n);
  }

  /** What compiling returns: `closed`, or a normal range whose two clock times are those of the value. */
  lemma {:induction false} CompiledForm(table: DigitTable, value: string)
    requires Compile(table, value).Ok?
    ensures var s, n := Normalized(value), Compile(table, value).value;
            if s == "" || ReadsClosed(s) then n == CLOSED
            else NormalRange(table, n) && IsRange(table, s) && n[..5] == s[..5] && n[6..] == s[|s| - 5..]
  {
    var s := Normalized(value);
    if s != "" && !ReadsClosed(s) {
      var n := s[..5] + ['-'] + s[|s| - 5..];
      assert n[..5] == s[..5] && n[6..] == s[|s| - 5..];
    }
  }

  lemma {:induction false} NormalRangeCompiles(table: DigitTable, n: string)
    requires NormalRange(table, n)
    ensures Compile(table, n) == Ok(n)
  {
    RangeIsNormalized(table, n);
    assert n[|n| - 5..] == n[6..];
    assert HyphenAt(n, 5);
    assert n[..5] + ['-'] + n[6..] == n;
  }

  /** Compiling a compiled value changes nothing. */
  lemma {:induction false} CompilingIsIdempotent(table: DigitTable, value: string)
    requires Compile(table, value).Ok?
    ensures Compile(table, Compile(table, value).value) == Compile(table, value)
  {
    CompiledForm(table, value);
    if Compile(table, value).value == CLOSED {
      ClosedIsNormalized(Compile(table, value).value);
    } else {
      NormalRangeCompiles(table, Compile(table, value).value);
    }
  }

  function TwoDigits(n: int): string
    requires 0 <= n < 100
  {
    [(n / 10 + 0x30) as char, (n % 10 + 0x30) as char]
  }

  /** In ASCII digits, the clock times are those of a day, for the compiler and for the reader. */
  lemma {:induction false} ClocksAreTheTimesOfADay(table: DigitTable, h: int, m: int, other: string -> Option<int>)
    requires 0 <= h < 100 && 0 <= m < 100
    ensures var s := TwoDigits(h) + [':'] + TwoDigits(m);
            && (IsClock(table, s) <==> h < 24 && m < 60)
            && (h < 24 && m < 60 ==> ClockMinutes(table, s) == 60 * h + m)
            && ReadTime(s, other) == if h < 24 && m < 60 then Some(60 * h + m) else None
  {
    var s := TwoDigits(h) + [':'] + TwoDigits(m);
    assert s == [TwoDigits(h)[0], TwoDigits(h)[1], ':', TwoDigits(m)[0], TwoDigits(m)[1]];
  }

  // ---- What compiles ---------------------------------------------------------------------

  /** A hyphen, an en dash or an em dash. */
  predicate IsDash(c: char) {
    c == '-' || c == '\U{2013}' || c == '\U{2014}'
  }

  /** `value` is written as two clock times around a dash, with any spaces before, between and after. */
  ghost predicate Written(table: DigitTable, value: string, before: string, a: string, left: string, dash: char, right: string, b: string, after: string) {
    && value == before + a + left + [dash] + right + b + after
    && AllSpace(before) && AllSpace(left) && AllSpace(right) && AllSpace(after)
    && IsDash(dash) && IsClock(table, a) && IsClock(table, b)
  }

  ghost predicate WrittenRange(table: DigitTable, value: string, a: string, b: string) {
    IsClock(table, a) && IsClock(table, b) && exists before, left, dash, right, after :: Written(table, value, before, a, left, dash, right, b, after)
  }

  lemma {:induction false} WrittenIsNormalized(table: DigitTable, value: string, before: string, a: string, left: string, dash: char,
                                               right: string, b: string, after: string)
    requires Written(table, value, before, a, left, dash, right, b, after)
    ensures Normalized(value) == a + left + ['-'] + right + b
  {
    var core := a + left + [dash] + right + b;
    assert value == before + core + after;
    ClockIsPlain(table, a);
    ClockIsPlain(table, b);
    StripDrops(before, core, after);
    DashesInParts(a, left, dash, right, b);
  }

  lemma {:induction false} DashesInParts(a: string, left: string, dash: char, right: string, b: string)
    requires Plain(a) && Plain(b) && AllSpace(left) && AllSpace(right) && IsDash(dash)
    ensures PlainDashes(a + left + [dash] + right + b) == a + left + ['-'] + right + b
  {
  }

  lemma {:induction false} WrittenIsARange(table: DigitTable, value: string, a: string, b: string)
    requires WrittenRange(table, value, a, b)
    ensures var s := Normalized(value); IsRange(table, s) && s[..5] == a && s[|s| - 5..] == b
  {
    var before, left, dash, right, after :| Written(table, value, before, a, left, dash, right, b, after);
    WrittenIsNormalized(table, value, before, a, left, dash, right, b, after);
    var s := Normalized(value);
    assert s[..5] == a && s[|s| - 5..] == b;
    assert HyphenAt(s, 5 + |left|);
  }

  lemma {:induction false} StripLeftLeavesSpaces(s: string) returns (spaces: string)
    ensures AllSpace(spaces) && s == spaces + StripLeft(s)
  {
    if s != "" && IsSpace(s[0]) {
      spaces := StripLeftLeavesSpaces(s[1..]);
      spaces := [s[0]] + spaces;
    } else {
      spaces := "";
    }
  }

  lemma {:induction false} StripRightLeavesSpaces(s: string) returns (spaces: string)
    ensures AllSpace(spaces) && s == StripRight(s) + spaces
  {
    if s != "" && IsSpace(s[|s| - 1]) {
      spaces := StripRightLeavesSpaces(s[..|s| - 1]);
      spaces := spaces + [s[|s| - 1]];
    } else {
      spaces := "";
    }
  }

  /** A text whose dashes read as hyphens in a plain one has the same plain stretches. */
  lemma {:induction false} PlainStretchesAreSame(t: string, from: int, to: int)
    requires 0 <= from <= to <= |t| && Plain(PlainDashes(t)[from..to])
    ensures t[from..to] == PlainDashes(t)[from..to]
  {
    var s := PlainDashes(t);
    forall i | from <= i < to ensures t[i] == s[i] {
      assert s[i] == s[from..to][i - from];
    }
  }

  lemma {:induction false} SpacesStaySpaces(t: string, from: int, to: int)
    requires 0 <= from <= to <= |t| && forall i :: from <= i < to ==> IsSpace(PlainDashes(t)[i])
    ensures AllSpace(t[from..to])
  {
    forall i | 0 <= i < to - from ensures IsSpace(t[from..to][i]) {
      assert IsSpace(PlainDashes(t)[from + i]);
    }
  }

  lemma {:induction false} InSevenParts(before: string, t: string, after: string, k: int)
    requires 5 <= k < |t| - 5
    ensures before + (t + after) == before + t[..5] + t[5..k] + [t[k]] + t[k + 1..|t| - 5] + t[|t| - 5..] + after
  {
    assert t == t[..5] + t[5..k] + [t[k]] + t[k + 1..|t| - 5] + t[|t| - 5..];
  }

  lemma {:induction false} ThePartsOfAText(table: DigitTable, t: string, k: int)
    requires var s := PlainDashes(t); |s| >= 11 && IsClock(table, s[..5]) && IsClock(table, s[|s| - 5..]) && HyphenAt(s, k)
    ensures var s := PlainDashes(t); t[..5] == s[..5] && t[|t| - 5..] == s[|t| - 5..]
    ensures AllSpace(t[5..k]) && IsDash(t[k]) && AllSpace(t[k + 1..|t| - 5])
  {
    var s, n := PlainDashes(t), |t|;
    ClockIsPlain(table, s[..5]);
    ClockIsPlain(table, s[n - 5..]);
    assert s[0..5] == s[..5] && s[n - 5..n] == s[n - 5..] && t[0..5] == t[..5] && t[n - 5..n] == t[n - 5..];
    PlainStretchesAreSame(t, 0, 5);
    PlainStretchesAreSame(t, n - 5, n);
    SpacesStaySpaces(t, 5, k);
    SpacesStaySpaces(t, k + 1, n - 5);
  }

  lemma {:induction false} WrittenInItsParts(table: DigitTable, before: string, t: string, after: string, k: int)
    requires 5 <= k < |t| - 5 && AllSpace(before) && AllSpace(after)
    requires IsClock(table, t[..5]) && AllSpace(t[5..k]) && IsDash(t[k]) && AllSpace(t[k + 1..|t| - 5]) && IsClock(table, t[|t| - 5..])
    ensures WrittenRange(table, before + (t + after), t[..5], t[|t| - 5..])
  {
    InSevenParts(before, t, after, k);
    assert Written(table, before + (t + after), before, t[..5], t[5..k], t[k], t[k + 1..|t| - 5], t[|t| - 5..], after);
  }

  lemma {:induction false} StrippingLeavesSpaces(s: string) returns (before: string, after: string)
    ensures AllSpace(before) && AllSpace(after) && s == before + (Strip(s) + after)
  {
    before := StripLeftLeavesSpaces(s);
    after := StripRightLeavesSpaces(StripLeft(s));
  }

  lemma {:induction false} ARangeInSpacesIsWritten(table: DigitTable, before: string, t: string, after: string)
    requires IsRange(table, PlainDashes(t)) && AllSpace(before) && AllSpace(after)
    ensures var s := PlainDashes(t); WrittenRange(table, before + (t + after), s[..5], s[|s| - 5..])
  {
    var s := PlainDashes(t);
    var k :| 5 <= k < |s| - 5 && HyphenAt(s, k);
    ThePartsOfAText(table, t, k);
    WrittenInItsParts(table, before, t, after, k);
  }

  lemma {:induction false} ARangeIsWritten(table: DigitTable, value: string)
    requires IsRange(table, Normalized(value))
    ensures var s := Normalized(value); WrittenRange(table, value, s[..5], s[|s| - 5..])
  {
    var before, after := StrippingLeavesSpaces(value);
    ARangeInSpacesIsWritten(table, before, Strip(value), after);
  }

  /**
   What compiles to a range: exactly the values of at most 100 characters that are written as two clock times
   around a dash, spaces anywhere around them, the first one earlier; they compile to these two times.
   */
  lemma {:induction false} CompilesExactlyWhatIsWritten(table: DigitTable, value: string, a: string, b: string)
    requires |a| == 5 && |b| == 5
    ensures Compile(table, value) == Ok(a + ['-'] + b) <==>
              |value| <= 100 && WrittenRange(table, value, a, b) && ClockMinutes(table, a) < ClockMinutes(table, b)
  {
    if |value| <= 100 && WrittenRange(table, value, a, b) {
      WrittenIsARange(table, value, a, b);
    }
    if Compile(table, value) == Ok(a + ['-'] + b) {
      var s, n := Normalized(value), a + ['-'] + b;
      CompiledForm(table, value);
      assert n[..5] == a && n[6..] == b;
      ARangeIsWritten(table, value);
    }
  }

  /** Nothing but spaces, or "closed" in any case, compiles to `closed`. */
  predicate WrittenClosed(value: string) {
    Strip(value) == "" || ReadsClosed(Strip(value))
  }

  /** Every other value is refused: as too long, as ending before it starts, or as no range at all. */
  lemma {:induction false} RefusesTheRest(table: DigitTable, value: string)
    ensures Compile(table, value) == Err(TooLong) <==> |value| > 100
    ensures Compile(table, value) == Ok(CLOSED) <==> |value| <= 100 && WrittenClosed(value)
    ensures Compile(table, value) == Err(EndsBeforeStart) <==>
              |value| <= 100 && exists a, b :: WrittenRange(table, value, a, b) && ClockMinutes(table, a) >= ClockMinutes(table, b)
    ensures Compile(table, value) == Err(BadFormat) <==>
              |value| <= 100 && !WrittenClosed(value) && forall a, b :: !WrittenRange(table, value, a, b)
  {
    var s := Normalized(value);
    ClosedEitherWay(Strip(value));
    if IsRange(table, s) {
      ARangeIsWritten(table, value);
    }
    forall a, b | WrittenRange(table, value, a, b)
      ensures IsRange(table, s) && s[..5] == a && s[|s| - 5..] == b
    {
      WrittenIsARange(table, value, a, b);
    }
  }

  // ---- Reading compiled hours ------------------------------------------------------------

  lemma {:induction false} ClockReads(table: DigitTable, s: string, other: string -> Option<int>)
    requires IsClock(table, s)
    ensures ReadTime(s, other) == if AsciiClock(table, s) then Some(ClockMinutes(table, s)) else None
  {
  }

  /** The hours two clock times stand for, when both are ASCII. */
  function RangeHours(table: DigitTable, a: string, b: string): Option<FreeSlots.Hours>
    requires IsClock(table, a) && IsClock(table, b)
  {
    if AsciiClock(table, a) && AsciiClock(table, b)
    then Some(FreeSlots.Hours(60 * ClockMinutes(table, a), 60 * ClockMinutes(table, b))) else None
  }

  lemma SplitsAtTheHyphen(table: DigitTable, s: string, k: int)
    requires |s| >= 11 && IsClock(table, s[..5]) && IsClock(table, s[|s| - 5..]) && HyphenAt(s, k)
    ensures Split(s, '-') == [s[..k], s[k + 1..]]
  {
    ClockIsPlain(table, s[..5]);
    ClockIsPlain(table, s[|s| - 5..]);
    assert s[..k] == s[..5] + s[5..k] && s[k + 1..] == s[k + 1..|s| - 5] + s[|s| - 5..];
    assert s == s[..k] + ['-'] + s[k + 1..];
    SplitOnce(s[..k], '-', s[k + 1..]);
  }

  lemma {:induction false} PartsAround(table: DigitTable, s: string, k: int)
    requires |s| >= 11 && IsClock(table, s[..5]) && IsClock(table, s[|s| - 5..]) && HyphenAt(s, k)
    ensures Split(s, '-') == [s[..k], s[k + 1..]]
    ensures Strip(s[..k]) == s[..5] && Strip(s[k + 1..]) == s[|s| - 5..]
  {
    var a, left, right, b := s[..5], s[5..k], s[k + 1..|s| - 5], s[|s| - 5..];
    SplitsAtTheHyphen(table, s, k);
    ClockIsPlain(table, a);
    ClockIsPlain(table, b);
    assert s[..k] == [] + a + left && s[k + 1..] == right + b + [];
    StripDrops([], a, left);
    StripDrops(right, b, []);
  }

  /** The generator reads a range, compiled or not, as its two clock times. */
  lemma {:induction false} RangeReads(table: DigitTable, value: string, other: string -> Option<int>)
    requires !ReadsClosed(Strip(value)) && IsRange(table, Normalized(value))
    ensures var s := Normalized(value);
            ReadHours(value, other) ==
              if ClockMinutes(table, s[..5]) < ClockMinutes(table, s[|s| - 5..]) then RangeHours(table, s[..5], s[|s| - 5..]) else None
  {
    var s := Normalized(value);
    var k :| 5 <= k < |s| - 5 && HyphenAt(s, k);
    PartsAround(table, s, k);
    ClockReads(table, s[..5], other);
    ClockReads(table, s[|s| - 5..], other);
  }

  lemma {:induction false} NormalRangeReads(table: DigitTable, n: string, other: string -> Option<int>)
    requires NormalRange(table, n)
    ensures ReadHours(n, other) == RangeHours(table, n[..5], n[6..])
  {
    RangeIsNormalized(table, n);
    assert n[|n| - 5..] == n[6..];
    assert HyphenAt(n, 5);
    RangeReads(table, n, other);
  }

  /**
   The slot generator reads a compiled value as closed, or back as exactly the compiled opening and
   closing times; it falls into its parse-failure exit if and only if the value is a range with a digit
   outside ASCII, which the compiler's `\d` lets through.
   */
  lemma {:induction false} CompiledHoursReadBack(table: DigitTable, value: string, other: string -> Option<int>)
    requires Compile(table, value).Ok?
    ensures var n := Compile(table, value).value;
            || (n == CLOSED && ReadsClosed(Strip(n)) && ReadHours(n, other) == None)
            || (&& NormalRange(table, n)
                && (ReadHours(n, other) == None <==> !(AsciiClock(table, n[..5]) && AsciiClock(table, n[6..])))
                && (ReadHours(n, other).Some? ==>
                      && ReadHours(n, other).value.opening == 60 * ClockMinutes(table, n[..5])
                      && ReadHours(n, other).value.closing == 60 * ClockMinutes(table, n[6..])))
  {
    CompiledForm(table, value);
    if Compile(table, value).value == CLOSED {
      ClosedIsNormalized(Compile(table, value).value);
    } else {
      NormalRangeReads(table, Compile(table, value).value, other);
    }
  }

  /**
   The generator reads what is written as two ASCII clock times, in any spacing and with any dash, as these
   times if the first is earlier, and as closed otherwise.
   */
  lemma {:induction false} ReadsWhatIsWritten(table: DigitTable, value: string, a: string, b: string, other: string -> Option<int>)
    requires WrittenRange(table, value, a, b) && AsciiClock(table, a) && AsciiClock(table, b)
    ensures ReadHours(value, other) ==
              if ClockMinutes(table, a) < ClockMinutes(table, b)
              then Some(FreeSlots.Hours(60 * ClockMinutes(table, a), 60 * ClockMinutes(table, b))) else None
  {
    WrittenIsARange(table, value, a, b);
    RangeReads(table, value, other);
  }

  /** The dashes play no part in whether a value reads as closed. */
  lemma {:induction false} ClosedEitherWay(s: string)
    ensures ReadsClosed(PlainDashes(s)) <==> ReadsClosed(s)
  {
    if ReadsClosed(PlainDashes(s)) {
      forall i | 0 <= i < |s|
        ensures PlainDash(s[i]) == s[i]
      {
        assert Folds(PlainDashes(s)[i], CLOSED[i]);
      }
      PlainDashesKeeps(s);
    }
  }

  lemma {:induction false} EmptyReadsAsClosed(value: string, other: string -> Option<int>)
    requires Normalized(value) == ""
    ensures ReadHours(value, other) == None
  {
    assert |Split("", '-')| == 1;
  }

  /** Compiling does not change what the slot generator makes of the hours. */
  lemma {:induction false} CompilingKeepsTheReading(table: DigitTable, value: string, other: string -> Option<int>)
    requires Compile(table, value).Ok?
    ensures ReadHours(Compile(table, value).value, other) == ReadHours(value, other)
  {
    CompiledForm(table, value);
    ClosedEitherWay(Strip(value));
    var s := Normalized(value);
    if s == "" {
      EmptyReadsAsClosed(value, other);
      ClosedIsNormalized(Compile(table, value).value);
    } else if ReadsClosed(s) {
      ClosedIsNormalized(Compile(table, value).value);
    } else {
      RangeReads(table, value, other);
      NormalRangeReads(table, Compile(table, value).value, other);
    }
  }

  /** The exception is real: these hours compile, and the day then offers no slot at all. */
  lemma {:induction false} ArabicDigitsAreLost(other: string -> Option<int>)
    ensures var value := ['0', '\U{0669}', ':', '0', '0', '-', '1', '7', ':', '0', '0'];
            Compile([0x660], value) == Ok(value) && ReadHours(value, other) == None
  {
    var value := ['0', '\U{0669}', ':', '0', '0', '-', '1', '7', ':', '0', '0'];
    assert value[..5] == ['0', '\U{0669}', ':', '0', '0'] && value[6..] == ['1', '7', ':', '0', '0'];
    NormalRangeCompiles([0x660], value);
    NormalRangeReads([0x660], value, other);
  }

  // ---- A whole week ----------------------------------------------------------------------

  function LowerChar(c: char): char {
    if 'A' <= c <= 'Z' then (c as int + 32) as char else c
  }

  function Lower(s: string): string {
    seq(|s|, i requires 0 <= i < |s| => LowerChar(s[i]))
  }

  /** Lowering undoes capital letters. */
  lemma {:induction false} LoweringUndoesCapitals(s: string, capitals: string)
    requires |capitals| == |s|
    requires forall i :: 0 <= i < |s| ==> 'a' <= s[i] <= 'z' && (capitals[i] == s[i] || capitals[i] as int == s[i] as int - 32)
    ensures Lower(capitals) == s
  {
  }

  const WEEKDAYS := ["monday", "tuesday", "wednesday", "thursday", "friday", "saturday", "sunday"]

  /** Compile entries in order; a later spelling of the same day replaces an earlier one. */
  function CompileFrom(table: DigitTable, entries: seq<(string, string)>, done: map<string, string>): Result<map<string, string>, Problem> {
    if entries == [] then Ok(done)
    else
      var (day, value) := entries[0];
      if Lower(day) !in WEEKDAYS then Err(BadWeekday)
      else match Compile(table, value)
           case Err(problem) => Err(problem)
           case Ok(n) => CompileFrom(table, entries[1..], done[Lower(day) := n])
  }

  method CompileWeek(table: DigitTable, entries: seq<(string, string)>) returns (r: Result<map<string, string>, Problem>)
    ensures r == if |entries| > 7 then Err(TooManyDays) else CompileFrom(table, entries, map[])
  {
    if |entries| > 7 {
      return Err(TooManyDays);
    }
    var hours: map<string, string> := map[];
    for i := 0 to |entries|
      invariant CompileFrom(table, entries[i..], hours) == CompileFrom(table, entries, map[])
    {
      var (day, value) := entries[i];
      assert entries[i..][0] == entries[i] && entries[i..][1..] == entries[i + 1..];
      if Lower(day) !in WEEKDAYS {
        return Err(BadWeekday);
      }
      var compiled := Compile(table, value);
      if compiled.Err? {
        return Err(compiled.error);
      }
      hours := hours[Lower(day) := compiled.value];
    }
    r := Ok(hours);
  }

  /** A valid entry names a weekday, in any case, and has hours that compile. */
  predicate ValidEntry(table: DigitTable, entry: (string, string)) {
    Lower(entry.0) in WEEKDAYS && Compile(table, entry.1).Ok?
  }

  /** No later entry names the same day. */
  predicate LastOfItsDay(entries: seq<(string, string)>, i: nat)
    requires i < |entries|
  {
    forall j :: i < j < |entries| ==> Lower(entries[j].0) != Lower(entries[i].0)
  }

  ghost predicate Names(entries: seq<(string, string)>, day: string) {
    exists i :: 0 <= i < |entries| && Lower(entries[i].0) == day
  }

  lemma {:induction false} TheFirstEntryDecides(table: DigitTable, entries: seq<(string, string)>, done: map<string, string>)
    requires entries != []
    ensures CompileFrom(table, entries, done).Ok? ==> ValidEntry(table, entries[0])
    ensures ValidEntry(table, entries[0]) ==>
              CompileFrom(table, entries, done)
              == CompileFrom(table, entries[1..], done[Lower(entries[0].0) := Compile(table, entries[0].1).value])
  {
  }

  ghost predicate AllValid(table: DigitTable, entries: seq<(string, string)>) {
    forall i :: 0 <= i < |entries| ==> ValidEntry(table, entries[i])
  }

  lemma {:induction false} AllValidFromTheFirst(table: DigitTable, entries: seq<(string, string)>)
    requires entries != []
    ensures AllValid(table, entries) <==> ValidEntry(table, entries[0]) && AllValid(table, entries[1..])
  {
    assert forall i :: 0 < i < |entries| ==> entries[i] == entries[1..][i - 1];
  }

  lemma {:induction false} CompilesExactlyIfValid(table: DigitTable, entries: seq<(string, string)>, done: map<string, string>)
    ensures CompileFrom(table, entries, done).Ok? <==> AllValid(table, entries)
    decreases |entries|
  {
    if entries != [] {
      TheFirstEntryDecides(table, entries, done);
      AllValidFromTheFirst(table, entries);
      if ValidEntry(table, entries[0]) {
        CompilesExactlyIfValid(table, entries[1..], done[Lower(entries[0].0) := Compile(table, entries[0].1).value]);
      }
    }
  }

  lemma {:induction false} NamesOfTheRest(entries: seq<(string, string)>, day: string)
    requires entries != []
    ensures Names(entries, day) <==> Lower(entries[0].0) == day || Names(entries[1..], day)
  {
    var rest := entries[1..];
    if i :| 0 <= i < |entries| && Lower(entries[i].0) == day {
      assert i > 0 ==> entries[i] == rest[i - 1];
    }
    if j :| 0 <= j < |rest| && Lower(rest[j].0) == day {
      assert entries[j + 1] == rest[j];
    }
  }

  lemma {:induction false} DaysThatAreNotNamedStay(table: DigitTable, entries: seq<(string, string)>, done: map<string, string>, day: string)
    requires CompileFrom(table, entries, done).Ok?
    ensures var r := CompileFrom(table, entries, done).value;
            && (day in r <==> day in done || Names(entries, day))
            && (day in done && !Names(entries, day) ==> r[day] == done[day])
    decreases |entries|
  {
    if entries != [] {
      NamesOfTheRest(entries, day);
      TheFirstEntryDecides(table, entries, done);
      DaysThatAreNotNamedStay(table, entries[1..], done[Lower(entries[0].0) := Compile(table, entries[0].1).value], day);
    }
  }

  lemma {:induction false} TheLastEntryCounts(table: DigitTable, entries: seq<(string, string)>, done: map<string, string>, i: nat)
    requires CompileFrom(table, entries, done).Ok? && i < |entries| && LastOfItsDay(entries, i)
    ensures var r := CompileFrom(table, entries, done).value;
            Lower(entries[i].0) in r && Compile(table, entries[i].1) == Ok(r[Lower(entries[i].0)])
    decreases |entries|
  {
    var rest, day := entries[1..], Lower(entries[i].0);
    TheFirstEntryDecides(table, entries, done);
    var more := done[Lower(entries[0].0) := Compile(table, entries[0].1).value];
    if i > 0 {
      assert LastOfItsDay(rest, i - 1);
      TheLastEntryCounts(table, rest, more, i - 1);
    } else {
      assert !Names(rest, day);
      DaysThatAreNotNamedStay(table, rest, more, day);
    }
  }

  /** A week compiles exactly if each of its entries is valid, and then the last entry of each day it names gives that day's hours. */
  lemma AWeekCompilesEntryByEntry(table: DigitTable, entries: seq<(string, string)>)
    ensures var r := CompileFrom(table, entries, map[]);
            && (r.Ok? <==> AllValid(table, entries))
            && (r.Ok? ==> forall day :: day in r.value <==> Names(entries, day))
            && (r.Ok? ==> forall i: nat :: i < |entries| && LastOfItsDay(entries, i) ==>
                            Compile(table, entries[i].1) == Ok(r.value[Lower(entries[i].0)]))
  {
    CompilesExactlyIfValid(table, entries, map[]);
    if CompileFrom(table, entries, map[]).Ok? {
      forall day ensures day in CompileFrom(table, entries, map[]).value <==> Names(entries, day) {
        DaysThatAreNotNamedStay(table, entries, map[], day);
      }
      forall i: nat | i < |entries| && LastOfItsDay(entries, i)
        ensures Compile(table, entries[i].1) == Ok(CompileFrom(table, entries, map[]).value[Lower(entries[i].0)])
      {
        TheLastEntryCounts(table, entries, map[], i);
      }
    }
  }

  /** Every day of a compiled week is a fixed point: the day's name and its hours compile to themselves. */
  ghost predicate NormalWeek(table: DigitTable, hours: map<string, string>) {
    forall day :: day in hours ==> day in WEEKDAYS && Compile(table, hours[day]) == Ok(hours[day])
  }

  lemma {:induction false} CompiledWeekIsNormal(table: DigitTable, entries: seq<(string, string)>, done: map<string, string>)
    requires NormalWeek(table, done) && CompileFrom(table, entries, done).Ok?
    ensures NormalWeek(table, CompileFrom(table, entries, done).value)
    decreases |entries|
  {
    if entries != [] {
      var (day, value) := entries[0];
      CompilingIsIdempotent(table, value);
      CompiledWeekIsNormal(table, entries[1..], done[Lower(day) := Compile(table, value).value]);
    }
  }

  lemma {:induction false} WeekdaysAreLower(day: string)
    requires day in WEEKDAYS
    ensures Lower(day) == day
  {
  }

  /** `entries` and `done` list together exactly the days of `hours`. */
  ghost predicate Lists(entries: seq<(string, string)>, done: map<string, string>, hours: map<string, string>) {
    && (forall i :: 0 <= i < |entries| ==> entries[i].0 in hours && hours[entries[i].0] == entries[i].1)
    && (forall day :: day in done ==> day in hours && hours[day] == done[day])
    && (forall day :: day in hours ==> day in done || exists i :: 0 <= i < |entries| && entries[i].0 == day)
  }

  lemma ListsTheRest(entries: seq<(string, string)>, done: map<string, string>, hours: map<string, string>)
    requires Lists(entries, done, hours) && entries != []
    ensures Lists(entries[1..], done[entries[0].0 := entries[0].1], hours)
  {
    var more := done[entries[0].0 := entries[0].1];
    forall d | d in hours && d !in more
      ensures exists i :: 0 <= i < |entries[1..]| && entries[1..][i].0 == d
    {
      var i :| 0 <= i < |entries| && entries[i].0 == d;
      assert entries[1..][i - 1].0 == d;
    }
  }

  lemma CompilesOneDay(table: DigitTable, hours: map<string, string>, entries: seq<(string, string)>, done: map<string, string>)
    requires NormalWeek(table, hours) && entries != [] && entries[0].0 in hours && hours[entries[0].0] == entries[0].1
    ensures CompileFrom(table, entries, done) == CompileFrom(table, entries[1..], done[entries[0].0 := entries[0].1])
  {
    WeekdaysAreLower(entries[0].0);
  }

  /** Compiling a compiled week, with its days in any order, gives the same week. */
  lemma {:induction false} RecompilingAWeek(table: DigitTable, hours: map<string, string>, entries: seq<(string, string)>, done: map<string, string>)
    requires NormalWeek(table, hours) && Lists(entries, done, hours)
    ensures CompileFrom(table, entries, done) == Ok(hours)
    decreases |entries|
  {
    if entries == [] {
      assert done == hours;
    } else {
      CompilesOneDay(table, hours, entries, done);
      ListsTheRest(entries, done, hours);
      RecompilingAWeek(table, hours, entries[1..], done[entries[0].0 := entries[0].1]);
    }
  }

  /** A week that compiles compiles to a fixed point. */
  lemma CompilingAWeekTwice(table: DigitTable, entries: seq<(string, string)>, again: seq<(string, string)>)
    requires CompileFrom(table, entries, map[]).Ok? && Lists(again, map[], CompileFrom(table, entries, map[]).value)
    ensures CompileFrom(table, again, map[]) == CompileFrom(table, entries, map[])
  {
    CompiledWeekIsNormal(table, entries, map[]);
    RecompilingAWeek(table, CompileFrom(table, entries, map[]).value, again, map[]);
  }
}
