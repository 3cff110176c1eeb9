/** The placement engine (the second half of `generateTimetable`): an empty
    days-by-class-slots grid, a shuffled copy of the pool, and up to 50 random
    (day, slot) trials per session under the emptiness rules and the
    teacher-variety preference. */
module Placement {
  import opened Text
  import opened TimetableModel
  import opened RandomSource
  import opened Shuffle
  import opened SessionPool

  /** `maxAttempts` */
  const MaxAttempts: nat := 50
  /** Past this many attempts the variety preference is waived. */
  const VarietyAttempts: nat := 30
  /** The day draw is `Math.floor(Math.random() * 5)`. */
  const WeekDays: nat := 5

  type Row = seq<Cell>

  // ---------------------------------------------------------------- cells

  /** The id a placed cell gets: `${day.toLowerCase()}-${slot}`. */
  function SlotId(day: string, slot: nat): string {
    Lower(day) + "-" + NatToString(slot)
  }

  /** The lower-cased day label and the slot number can be read back from an id. */
  lemma SlotIdParts(day: string, slot: nat)
    ensures var r := SlotId(day, slot);
      && |r| > |day| && r[..|day|] == Lower(day) && r[|day|] == '-'
      && IsDigits(r[|day| + 1..]) && ParseNat(r[|day| + 1..]) == slot
  {
    var r := SlotId(day, slot);
    assert r[|day| + 1..] == NatToString(slot);
    ParseNatToString(slot);
  }

  /** Different cells get different ids: the id gives back the slot and the
      lower-cased day (the digits after the last '-' are the slot). */
  lemma SlotIdsDistinct(day1: string, s1: nat, day2: string, s2: nat)
    ensures SlotId(day1, s1) == SlotId(day2, s2) ==> Lower(day1) == Lower(day2) && s1 == s2
  {
    var id := SlotId(day1, s1);
    var l1, l2 := Lower(day1), Lower(day2);
    if id == SlotId(day2, s2) {
      DashBeforeDigits(l1, NatToString(s1));
      DashBeforeDigits(l2, NatToString(s2));
      assert |l1| == |l2|;
      assert l1 == id[..|l1|] == l2;
      assert NatToString(s1) == id[|l1| + 1..] == NatToString(s2);
      NatToStringInjective(s1, s2);
    }
  }

  /** In `l-digits` the '-' after `l` is the last one. */
  lemma DashBeforeDigits(l: string, digits: string)
    requires IsDigits(digits)
    ensures (l + "-" + digits)[|l|] == '-'
    ensures forall i :: |l| < i < |l + "-" + digits| ==> (l + "-" + digits)[i] != '-'
  {
    var w := l + "-" + digits;
    forall i | |l| < i < |w|
      ensures w[i] != '-'
    {
      assert w[i] == digits[i - |l| - 1];
    }
  }

  /** `{ ...session, slotId: ... }`: a copy of the session whose only
      change is the id of the cell it goes to. */
  function Stamped(x: Session, day: string, slot: nat): (r: Session)
    ensures r.slotId == SlotId(day, slot)
    ensures r.(slotId := x.slotId) == x
  {
    x.(slotId := SlotId(day, slot))
  }

  /** `{ ...session, course: `${session.course} (Cont.)` }`, the second half
      of a lab: the course gains the suffix and nothing else changes. */
  function Continued(x: Session): (r: Session)
    ensures r.course == x.course + " (Cont.)"
    ensures r.(course := x.course) == x
  {
    x.(course := x.course + " (Cont.)")
  }

  function Indicator(c: Cell, p: Session -> bool): nat {
    if c.Some? && p(c.value) then 1 else 0
  }

  /** The number of occupied cells of `row` whose session satisfies `p`. */
  function CountWhere(row: Row, p: Session -> bool): (r: nat)
    ensures r <= |row|
  {
    if row == [] then 0 else Indicator(row[0], p) + CountWhere(row[1..], p)
  }

  /** `slots.filter(slot => slot && slot.teacher === teacher).length` */
  function TeacherCount(row: Row, teacher: string): (r: nat)
    ensures r <= |row|
  {
    CountWhere(row, (x: Session) => x.teacher == teacher)
  }

  /** `slots.some(slot => slot && slot.teacher === teacher)` */
  predicate DayHasTeacher(row: Row, teacher: string) {
    exists s :: 0 <= s < |row| && row[s].Some? && row[s].value.teacher == teacher
  }

  /** `some` and the count agree: the teacher is on the day iff the count is positive. */
  lemma {:induction false} DayHasTeacherIffCounted(row: Row, teacher: string)
    ensures DayHasTeacher(row, teacher) <==> TeacherCount(row, teacher) > 0
  {
    if row != [] {
      DayHasTeacherIffCounted(row[1..], teacher);
      if DayHasTeacher(row, teacher) && !(row[0].Some? && row[0].value.teacher == teacher) {
        var s :| 0 <= s < |row| && row[s].Some? && row[s].value.teacher == teacher;
        assert row[1..][s - 1] == row[s];
      }
      if DayHasTeacher(row[1..], teacher) {
        var s :| 0 <= s < |row[1..]| && row[1..][s].Some? && row[1..][s].value.teacher == teacher;
        assert row[s + 1] == row[1..][s];
      }
    }
  }

  /** Replacing one cell changes a count by what left and what arrived. */
  lemma {:induction false} CountAfterUpdate(row: Row, k: nat, c: Cell, p: Session -> bool)
    requires k < |row|
    ensures CountWhere(row[k := c], p) + Indicator(row[k], p) == CountWhere(row, p) + Indicator(c, p)
  {
    if k == 0 {
      assert row[k := c][1..] == row[1..];
    } else {
      assert row[k := c][1..] == row[1..][k - 1 := c];
      CountAfterUpdate(row[1..], k - 1, c, p);
    }
  }

  lemma {:induction false} CountOfEmptyRow(row: Row, p: Session -> bool)
    requires forall s :: 0 <= s < |row| ==> row[s].None?
    ensures CountWhere(row, p) == 0
  {
    if row != [] {
      CountOfEmptyRow(row[1..], p);
    }
  }

  // ----------------------------------------------------------------- grid

  /** One row per day, labelled with that day, each `n` cells long. */
  ghost predicate HasShape(g: seq<DaySchedule>, days: seq<string>, n: nat) {
    && |g| == |days|
    && forall d :: 0 <= d < |g| ==> g[d].day == days[d] && |g[d].slots| == n
  }

  /** Every occupied cell carries the id of its own day and slot. */
  ghost predicate IdsMatchPositions(g: seq<DaySchedule>) {
    forall d, s :: 0 <= d < |g| && 0 <= s < |g[d].slots| && g[d].slots[s].Some? ==>
      g[d].slots[s].value.slotId == SlotId(g[d].day, s)
  }

  /** No cell of the grid is occupied. */
  ghost predicate Unoccupied(g: seq<DaySchedule>) {
    forall d, s :: 0 <= d < |g| && 0 <= s < |g[d].slots| ==> g[d].slots[s].None?
  }

  /** Sum of a row count over the whole grid. */
  function GridCount(g: seq<DaySchedule>, p: Session -> bool): nat {
    if g == [] then 0 else CountWhere(g[0].slots, p) + GridCount(g[1..], p)
  }

  predicate IsLabCell(x: Session) {
    x.kind == "LAB"
  }

  predicate AnySession(x: Session) {
    true
  }

  lemma {:induction false} GridCountAfterRow(g: seq<DaySchedule>, d: nat, row: Row, p: Session -> bool)
    requires d < |g|
    ensures GridCount(g[d := g[d].(slots := row)], p) + CountWhere(g[d].slots, p)
         == GridCount(g, p) + CountWhere(row, p)
  {
    if d == 0 {
      assert g[d := g[d].(slots := row)][1..] == g[1..];
    } else {
      assert g[d := g[d].(slots := row)][1..] == g[1..][d - 1 := g[d].(slots := row)];
      GridCountAfterRow(g[1..], d - 1, row, p);
    }
  }

  lemma {:induction false} GridCountOfEmpty(g: seq<DaySchedule>, p: Session -> bool)
    requires Unoccupied(g)
    ensures GridCount(g, p) == 0
  {
    if g != [] {
      CountOfEmptyRow(g[0].slots, p);
      GridCountOfEmpty(g[1..], p);
    }
  }

  function EmptyRow(n: nat): (r: Row)
    ensures |r| == n
    ensures forall s :: 0 <= s < n ==> r[s].None?
  {
    seq(n, _ => None)
  }

  /** The grid before any session is placed: one row per day, labelled with
      that day, of `n` empty cells. */
  function EmptySchedule(days: seq<string>, n: nat): (r: seq<DaySchedule>)
    ensures HasShape(r, days, n)
    ensures Unoccupied(r)
  {
    var r := seq(|days|, d requires 0 <= d < |days| => DaySchedule(days[d], EmptyRow(n)));
    assert forall d :: 0 <= d < |r| ==> r[d] == DaySchedule(days[d], EmptyRow(n));
    r
  }

  /** `days.forEach(day => schedule.push({ day, slots: new Array(n).fill(null) }))` */
  method InitSchedule(days: seq<string>, n: nat) returns (schedule: seq<DaySchedule>)
    ensures schedule == EmptySchedule(days, n)
    ensures HasShape(schedule, days, n)
    ensures Unoccupied(schedule)
    ensures IdsMatchPositions(schedule)
    ensures GridCount(schedule, AnySession) == 0 && GridCount(schedule, IsLabCell) == 0
  {
    schedule := [];
    var k := 0;
    while k < |days|
      invariant 0 <= k <= |days|
      invariant |schedule| == k
      invariant forall d :: 0 <= d < k ==> schedule[d] == DaySchedule(days[d], EmptyRow(n))
    {
      schedule := schedule + [DaySchedule(days[k], EmptyRow(n))];
      k := k + 1;
    }
    GridCountOfEmpty(schedule, AnySession);
    GridCountOfEmpty(schedule, IsLabCell);
  }

  // ------------------------------------------------------------ one trial

  /** A cell that exists and holds `null`. */
  predicate Free(row: Row, slot: nat)
    ensures Free(row, slot) ==> slot < |row|
  {
    slot < |row| && row[slot].None?
  }

  /** Whether the trial numbered `attempt` (counting from 1) at `slot` of a
      day whose cells are `row` places session `x`, given `n` class slots. */
  predicate Admissible(row: Row, x: Session, slot: nat, n: nat, attempt: nat)
    ensures Admissible(row, x, slot, n, attempt) ==>
      Free(row, slot) && (x.isDoubleSlot ==> slot + 1 < n && Free(row, slot + 1))
  {
    if x.isDoubleSlot then
      && slot < n - 1
      && Free(row, slot) && Free(row, slot + 1)
      && (!DayHasTeacher(row, x.teacher) || attempt > VarietyAttempts)
    else
      && Free(row, slot)
      && (TeacherCount(row, x.teacher) < 2 || attempt > VarietyAttempts)
  }

  /** While the attempt counter is at most 30, a lab goes only to a day
      without that teacher, and any other session only to a day where the
      teacher has fewer than two cells. */
  lemma VarietyWhileEarly(row: Row, x: Session, slot: nat, n: nat, attempt: nat)
    requires Admissible(row, x, slot, n, attempt) && attempt <= VarietyAttempts
    ensures x.isDoubleSlot ==> TeacherCount(row, x.teacher) == 0
    ensures !x.isDoubleSlot ==> TeacherCount(row, x.teacher) < 2
  {
    DayHasTeacherIffCounted(row, x.teacher);
  }

  /** From attempt 31 on only the hard rules remain: the cell (or, for a lab,
      the two adjacent cells inside the day) must be empty. */
  lemma HardRulesOnlyWhenLate(row: Row, x: Session, slot: nat, n: nat, attempt: nat)
    requires attempt > VarietyAttempts
    ensures Admissible(row, x, slot, n, attempt) <==>
      if x.isDoubleSlot then slot + 1 < n && Free(row, slot) && Free(row, slot + 1) else Free(row, slot)
  {
  }

  /** The cells a successful trial writes. */
  function Place(row: Row, x: Session, day: string, slot: nat): (r: Row)
    requires if x.isDoubleSlot then slot + 1 < |row| else slot < |row|
    ensures |r| == |row|
  {
    if x.isDoubleSlot then
      row[slot := Some(Stamped(x, day, slot))][slot + 1 := Some(Continued(Stamped(x, day, slot + 1)))]
    else
      row[slot := Some(Stamped(x, day, slot))]
  }

  /** A placement writes only cells that were empty, keeps the row length, and
      leaves every other cell alone; a lab fills slots s and s+1 of the same
      day, the second a copy of the first except for its id and the
      " (Cont.)" course. */
  lemma PlaceWritesOnlyFreeCells(row: Row, x: Session, day: string, slot: nat, attempt: nat)
    requires Admissible(row, x, slot, |row|, attempt)
    ensures var r := Place(row, x, day, slot);
      && |r| == |row|
      && (forall k :: 0 <= k < |row| && row[k].Some? ==> r[k] == row[k])
      && (forall k :: 0 <= k < |row| && k != slot && (!x.isDoubleSlot || k != slot + 1) ==> r[k] == row[k])
      && r[slot] == Some(x.(slotId := SlotId(day, slot)))
      && (x.isDoubleSlot ==>
            && slot + 1 < |row|
            && r[slot + 1] == Some(x.(slotId := SlotId(day, slot + 1), course := x.course + " (Cont.)")))
  {
  }

  /** How a placement changes any count: by one per written cell that satisfies `p`. */
  lemma PlaceCount(row: Row, x: Session, day: string, slot: nat, attempt: nat, p: Session -> bool)
    requires Admissible(row, x, slot, |row|, attempt)
    ensures CountWhere(Place(row, x, day, slot), p)
         == CountWhere(row, p) + Indicator(Some(Stamped(x, day, slot)), p)
            + (if x.isDoubleSlot then Indicator(Some(Continued(Stamped(x, day, slot + 1))), p) else 0)
  {
    var first := row[slot := Some(Stamped(x, day, slot))];
    CountAfterUpdate(row, slot, Some(Stamped(x, day, slot)), p);
    if x.isDoubleSlot {
      CountAfterUpdate(first, slot + 1, Some(Continued(Stamped(x, day, slot + 1))), p);
    }
  }

  /** The grid after session `x` is placed at (d, slot). */
  function PlaceOnDay(g: seq<DaySchedule>, x: Session, days: seq<string>, d: nat, slot: nat): (r: seq<DaySchedule>)
    requires d < |g| && d < |days|
    requires if x.isDoubleSlot then slot + 1 < |g[d].slots| else slot < |g[d].slots|
    ensures |r| == |g| && r[d].day == g[d].day && |r[d].slots| == |g[d].slots|
    ensures forall e :: 0 <= e < |g| && e != d ==> r[e] == g[e]
  {
    g[d := g[d].(slots := Place(g[d].slots, x, days[d], slot))]
  }

  /** The number of cells a placed session occupies. */
  function Width(x: Session): nat {
    if x.isDoubleSlot then 2 else 1
  }

  /** On one row: the length is kept, one more occupied cell per slot the
      session takes, and lab cells grow by the same amount exactly for a lab. */
  lemma PlaceRowCounts(row: Row, x: Session, day: string, slot: nat, attempt: nat)
    requires Admissible(row, x, slot, |row|, attempt)
    ensures |Place(row, x, day, slot)| == |row|
    ensures CountWhere(Place(row, x, day, slot), AnySession) == CountWhere(row, AnySession) + Width(x)
    ensures CountWhere(Place(row, x, day, slot), IsLabCell)
         == CountWhere(row, IsLabCell) + (if IsLabCell(x) then Width(x) else 0)
  {
    var first, second := Stamped(x, day, slot), Continued(Stamped(x, day, slot + 1));
    PlaceCount(row, x, day, slot, attempt, AnySession);
    PlaceCount(row, x, day, slot, attempt, IsLabCell);
    assert Indicator(Some(first), IsLabCell) == Indicator(Some(second), IsLabCell) == if IsLabCell(x) then 1 else 0;
  }

  /** A placement keeps one row per day, each `n` cells long. */
  lemma PlaceOnDayKeepsShape(g: seq<DaySchedule>, x: Session, days: seq<string>, n: nat, d: nat, slot: nat, attempt: nat)
    requires HasShape(g, days, n)
    requires d < |g| && Admissible(g[d].slots, x, slot, n, attempt)
    ensures HasShape(PlaceOnDay(g, x, days, d, slot), days, n)
  {
    PlaceWritesOnlyFreeCells(g[d].slots, x, days[d], slot, attempt);
  }

  /** A placement adds one cell per slot the session occupies, and adds lab
      cells exactly when the session is a lab. */
  lemma PlaceOnDayCounts(g: seq<DaySchedule>, x: Session, days: seq<string>, n: nat, d: nat, slot: nat, attempt: nat)
    requires HasShape(g, days, n)
    requires d < |g| && Admissible(g[d].slots, x, slot, n, attempt)
    ensures GridCount(PlaceOnDay(g, x, days, d, slot), AnySession) == GridCount(g, AnySession) + Width(x)
    ensures GridCount(PlaceOnDay(g, x, days, d, slot), IsLabCell)
         == GridCount(g, IsLabCell) + (if IsLabCell(x) then Width(x) else 0)
  {
    var row := g[d].slots;
    var row' := Place(row, x, days[d], slot);
    PlaceRowCounts(row, x, days[d], slot, attempt);
    GridCountAfterRow(g, d, row', AnySession);
    GridCountAfterRow(g, d, row', IsLabCell);
  }

  /** A placement stamps each cell it writes with that cell's own position. */
  lemma PlaceOnDayKeepsIds(g: seq<DaySchedule>, x: Session, days: seq<string>, n: nat, d: nat, slot: nat, attempt: nat)
    requires HasShape(g, days, n) && IdsMatchPositions(g)
    requires d < |g| && Admissible(g[d].slots, x, slot, n, attempt)
    ensures IdsMatchPositions(PlaceOnDay(g, x, days, d, slot))
  {
    var row := g[d].slots;
    var g' := PlaceOnDay(g, x, days, d, slot);
    PlaceWritesOnlyFreeCells(row, x, days[d], slot, attempt);
    forall e, s | 0 <= e < |g'| && 0 <= s < |g'[e].slots| && g'[e].slots[s].Some?
      ensures g'[e].slots[s].value.slotId == SlotId(g'[e].day, s)
    {
      if e == d && row[s].None? {
        assert s == slot || (x.isDoubleSlot && s == slot + 1);
      }
    }
  }

  // ------------------------------------------------------- trials of one session

  /** The day drawn by trial t (from 1), its first `Math.random()` call. */
  function TrialDay(random: nat -> real, cursor: nat, t: nat): (d: nat)
    requires IsRandomStream(random) && t >= 1
    ensures d < WeekDays
  {
    Draw(random(cursor + 2 * (t - 1)), WeekDays)
  }

  /** The slot drawn by trial t (from 1), its second `Math.random()` call. */
  function TrialSlot(random: nat -> real, cursor: nat, t: nat, n: nat): (s: nat)
    requires IsRandomStream(random) && t >= 1
    ensures n > 0 ==> s < n
    ensures n == 0 ==> s == 0
  {
    Draw(random(cursor + 2 * (t - 1) + 1), n)
  }

  ghost predicate TrialSucceeds(g: seq<DaySchedule>, x: Session, n: nat, random: nat -> real, cursor: nat, t: nat)
    requires IsRandomStream(random) && t >= 1 && |g| >= WeekDays
  {
    Admissible(g[TrialDay(random, cursor, t)].slots, x, TrialSlot(random, cursor, t, n), n, t)
  }

  /** What the trials of one session leave behind. */
  datatype Outcome = Outcome(grid: seq<DaySchedule>, placed: bool, attempts: nat)

  /** Trials t, t+1, ..., 50 of session `x` on grid `g`: the first admissible
      one places the session; when none is, the grid is left as it was. */
  function TrialsFrom(g: seq<DaySchedule>, x: Session, days: seq<string>, n: nat, random: nat -> real, cursor: nat, t: nat): (r: Outcome)
    requires IsRandomStream(random) && |days| >= WeekDays && |g| >= WeekDays
    requires 1 <= t <= MaxAttempts
    ensures |r.grid| == |g|
    decreases MaxAttempts - t
  {
    var d, s := TrialDay(random, cursor, t), TrialSlot(random, cursor, t, n);
    if Admissible(g[d].slots, x, s, n, t) then Outcome(PlaceOnDay(g, x, days, d, s), true, t)
    else if t == MaxAttempts then Outcome(g, false, MaxAttempts)
    else TrialsFrom(g, x, days, n, random, cursor, t + 1)
  }

  /** The session goes where the first successful trial puts it; if every
      trial up to the 50th fails, the grid is unchanged. */
  lemma {:induction false} TrialsFromFirstSuccess(g: seq<DaySchedule>, x: Session, days: seq<string>, n: nat, random: nat -> real, cursor: nat, t: nat)
    requires IsRandomStream(random) && |days| >= WeekDays && HasShape(g, days, n)
    requires 1 <= t <= MaxAttempts
    ensures var r := TrialsFrom(g, x, days, n, random, cursor, t);
      && t <= r.attempts <= MaxAttempts
      && (forall u :: t <= u < r.attempts ==> !TrialSucceeds(g, x, n, random, cursor, u))
      && (r.placed <==> TrialSucceeds(g, x, n, random, cursor, r.attempts))
      && (r.placed ==>
            var d, s := TrialDay(random, cursor, r.attempts), TrialSlot(random, cursor, r.attempts, n);
            && (if x.isDoubleSlot then s + 1 < n else s < n)
            && r.grid == PlaceOnDay(g, x, days, d, s))
      && (!r.placed ==> r.attempts == MaxAttempts && r.grid == g)
    decreases MaxAttempts - t
  {
    if !TrialSucceeds(g, x, n, random, cursor, t) && t < MaxAttempts {
      TrialsFromFirstSuccess(g, x, days, n, random, cursor, t + 1);
    }
  }

  /** The grid the trials leave is the placement made by an admissible trial,
      or the grid unchanged. */
  lemma {:induction false} TrialsFromPlacement(g: seq<DaySchedule>, x: Session, days: seq<string>, n: nat, random: nat -> real, cursor: nat, t: nat)
    requires IsRandomStream(random) && |days| >= WeekDays && |g| >= WeekDays
    requires 1 <= t <= MaxAttempts
    ensures var r := TrialsFrom(g, x, days, n, random, cursor, t);
      && 1 <= r.attempts <= MaxAttempts
      && (r.placed ==>
            var d, s := TrialDay(random, cursor, r.attempts), TrialSlot(random, cursor, r.attempts, n);
            && Admissible(g[d].slots, x, s, n, r.attempts)
            && r.grid == PlaceOnDay(g, x, days, d, s))
      && (!r.placed ==> r.grid == g)
    decreases MaxAttempts - t
  {
    var d, s := TrialDay(random, cursor, t), TrialSlot(random, cursor, t, n);
    if !Admissible(g[d].slots, x, s, n, t) && t < MaxAttempts {
      TrialsFromPlacement(g, x, days, n, random, cursor, t + 1);
    }
  }

  /** `while (!placed && attempts < maxAttempts) { ... }` for one session:
      the outcome of trials 1 to 50 as `TrialsFrom` defines it. Trial t reads
      draws cursor+2(t-1) and cursor+2(t-1)+1. */
  method PlaceSession(g: seq<DaySchedule>, x: Session, days: seq<string>, n: nat, random: nat -> real, cursor: nat)
    returns (g': seq<DaySchedule>, placed: bool, attempts: nat)
    requires IsRandomStream(random)
    requires |days| >= WeekDays
    requires |g| >= WeekDays
    ensures Outcome(g', placed, attempts) == TrialsFrom(g, x, days, n, random, cursor, 1)
  {
    g' := g;
    placed := false;
    attempts := 0;
    while !placed && attempts < MaxAttempts
      invariant 0 <= attempts <= MaxAttempts
      invariant !placed ==> g' == g
      invariant !placed && attempts < MaxAttempts ==>
        TrialsFrom(g, x, days, n, random, cursor, 1) == TrialsFrom(g, x, days, n, random, cursor, attempts + 1)
      invariant !placed && attempts == MaxAttempts ==>
        TrialsFrom(g, x, days, n, random, cursor, 1) == Outcome(g, false, MaxAttempts)
      invariant placed ==> TrialsFrom(g, x, days, n, random, cursor, 1) == Outcome(g', true, attempts)
    {
      var randomDay := TrialDay(random, cursor, attempts + 1);
      var randomSlot := TrialSlot(random, cursor, attempts + 1, n);
      attempts := attempts + 1;
      g', placed := Trial(g', x, days, n, randomDay, randomSlot, attempts);
    }
  }

  /** One pass of the loop body: the checks on the drawn cell, then the write. */
  method Trial(g: seq<DaySchedule>, x: Session, days: seq<string>, n: nat, d: nat, slot: nat, attempt: nat)
    returns (g': seq<DaySchedule>, placed: bool)
    requires |days| >= WeekDays && |g| >= WeekDays && d < WeekDays
    ensures placed == Admissible(g[d].slots, x, slot, n, attempt)
    ensures g' == if placed then PlaceOnDay(g, x, days, d, slot) else g
  {
    g', placed := g, false;
    var row := g[d].slots;
    if x.isDoubleSlot {
      if slot < n - 1 && Free(row, slot) && Free(row, slot + 1) {
        var dayHasTeacher := DayHasTeacher(row, x.teacher);
        if !dayHasTeacher || attempt > VarietyAttempts {
          row := row[slot := Some(Stamped(x, days[d], slot))];
          row := row[slot + 1 := Some(Continued(Stamped(x, days[d], slot + 1)))];
          g' := g[d := g[d].(slots := row)];
          placed := true;
        }
      }
    } else {
      if Free(row, slot) {
        var teacherSessionsToday := TeacherCount(row, x.teacher);
        if teacherSessionsToday < 2 || attempt > VarietyAttempts {
          row := row[slot := Some(Stamped(x, days[d], slot))];
          g' := g[d := g[d].(slots := row)];
          placed := true;
        }
      }
    }
  }

  // ---------------------------------------------------------- the engine

  /** The total number of cells the given sessions occupy once placed. */
  function Footprint(placed: seq<Session>): nat {
    if placed == [] then 0 else Footprint(placed[..|placed| - 1]) + Width(placed[|placed| - 1])
  }

  /** The number of "LAB" sessions among the given ones. */
  function LabCount(placed: seq<Session>): nat {
    if placed == [] then 0
    else LabCount(placed[..|placed| - 1]) + (if IsLabCell(placed[|placed| - 1]) then 1 else 0)
  }

  lemma SumsAppend(placed: seq<Session>, x: Session)
    ensures Footprint(placed + [x]) == Footprint(placed) + Width(x)
    ensures LabCount(placed + [x]) == LabCount(placed) + (if IsLabCell(x) then 1 else 0)
  {
    assert (placed + [x])[..|placed|] == placed;
  }

  /** Where the `forEach` over the shuffled pool stands: the grid, the
      sessions that found a place so far, in order, and the next unused draw. */
  datatype Run = Run(grid: seq<DaySchedule>, placed: seq<Session>, next: nat)

  /** One session's turn in the `forEach`: from the grid, the session and the
      number of the next unused draw, the outcome of its trials. */
  type Turn = (seq<DaySchedule>, Session, nat) -> Outcome

  /** The turn `generateTimetable` gives each session: trials 1 to 50, two
      draws per trial. A grid of fewer than five rows, where the day draw
      `Math.floor(Math.random() * 5)` could name a missing day, never reaches
      it: the grid of `generateTimetable` keeps its five or more rows. */
  function SessionTrials(days: seq<string>, n: nat, random: nat -> real): Turn
    requires IsRandomStream(random) && |days| >= WeekDays
  {
    (g: seq<DaySchedule>, x: Session, c: nat) =>
      if |g| >= WeekDays then TrialsFrom(g, x, days, n, random, c, 1) else Outcome(g, false, MaxAttempts)
  }

  /** The first k sessions of `order`, each taking its turn on the grid left
      by the one before it; the first reads the draws from `cursor` on and
      each later one from the draw after the two per trial of the one before. */
  function PlaceEach(g: seq<DaySchedule>, order: seq<Session>, k: nat, turn: Turn, cursor: nat): (r: Run)
    requires k <= |order|
    ensures |r.placed| <= k && cursor <= r.next
  {
    if k == 0 then Run(g, [], cursor)
    else
      var before := PlaceEach(g, order, k - 1, turn, cursor);
      var x := order[k - 1];
      var o := turn(before.grid, x, before.next);
      Run(o.grid, before.placed + (if o.placed then [x] else []), before.next + 2 * o.attempts)
  }

  /** Every cell occupied in `a` holds the same session in `b`. */
  ghost predicate KeepsOccupied(a: seq<DaySchedule>, b: seq<DaySchedule>) {
    forall d, s :: 0 <= d < |a| && 0 <= s < |a[d].slots| && a[d].slots[s].Some? ==>
      d < |b| && s < |b[d].slots| && b[d].slots[s] == a[d].slots[s]
  }

  /** Cell (d, s) holds session x the way a placement there writes it: x
      stamped with the cell's own id and, for a lab, its " (Cont.)" second
      half in the next cell; or the second half of lab x whose first half is
      the cell before. */
  ghost predicate HoldsAt(g: seq<DaySchedule>, d: nat, s: nat, x: Session)
    requires d < |g| && s < |g[d].slots|
  {
    || (&& g[d].slots[s] == Some(Stamped(x, g[d].day, s))
        && (x.isDoubleSlot ==> s + 1 < |g[d].slots| && g[d].slots[s + 1] == Some(Continued(Stamped(x, g[d].day, s + 1)))))
    || (&& x.isDoubleSlot && 0 < s
        && g[d].slots[s - 1] == Some(Stamped(x, g[d].day, s - 1))
        && g[d].slots[s] == Some(Continued(Stamped(x, g[d].day, s))))
  }

  /** Every occupied cell holds one of `placed`, as a placement at that cell writes it. */
  ghost predicate CellsFrom(g: seq<DaySchedule>, placed: seq<Session>) {
    forall d: nat, s: nat :: d < |g| && s < |g[d].slots| && g[d].slots[s].Some? ==>
      exists x :: x in placed && HoldsAt(g, d, s, x)
  }

  /** Session x sits at cell (d, s) stamped with that cell's id and, for a
      lab, with its " (Cont.)" half in the next cell of the same day. */
  ghost predicate ShownAt(g: seq<DaySchedule>, d: nat, s: nat, x: Session)
    requires d < |g|
  {
    && s < |g[d].slots| && g[d].slots[s] == Some(Stamped(x, g[d].day, s))
    && (x.isDoubleSlot ==> s + 1 < |g[d].slots| && g[d].slots[s + 1] == Some(Continued(Stamped(x, g[d].day, s + 1))))
  }

  /** Every one of `placed` is on the grid. */
  ghost predicate ShowsAll(g: seq<DaySchedule>, placed: seq<Session>) {
    forall x :: x in placed ==> exists d: nat, s: nat :: d < |g| && ShownAt(g, d, s, x)
  }

  /** Sessions shown on cells that stay as they were are still shown. */
  lemma KeptContents(a: seq<DaySchedule>, b: seq<DaySchedule>, days: seq<string>, n: nat, placed: seq<Session>)
    requires HasShape(a, days, n) && HasShape(b, days, n) && KeepsOccupied(a, b)
    requires ShowsAll(a, placed)
    ensures ShowsAll(b, placed)
  {
    forall x | x in placed
      ensures exists d: nat, s: nat :: d < |b| && ShownAt(b, d, s, x)
    {
      var d: nat, s: nat :| d < |a| && ShownAt(a, d, s, x);
      assert ShownAt(b, d, s, x);
    }
  }

  /** An occupied cell that stays as it was keeps holding the session it held. */
  lemma KeptHolds(a: seq<DaySchedule>, b: seq<DaySchedule>, days: seq<string>, n: nat, d: nat, s: nat, x: Session)
    requires HasShape(a, days, n) && HasShape(b, days, n) && KeepsOccupied(a, b)
    requires d < |a| && s < |a[d].slots| && a[d].slots[s].Some?
    requires HoldsAt(a, d, s, x)
    ensures d < |b| && s < |b[d].slots| && HoldsAt(b, d, s, x)
  {
    assert b[d].slots[s] == a[d].slots[s];
    if a[d].slots[s] != Some(Stamped(x, a[d].day, s)) {
      assert b[d].slots[s - 1] == a[d].slots[s - 1];
    }
  }

  /** A placement only fills free cells of its day and keeps the shape. */
  lemma PlaceOnDayKeepsOccupied(g: seq<DaySchedule>, x: Session, days: seq<string>, n: nat, d: nat, slot: nat)
    requires HasShape(g, days, n) && d < |g| && Admissible(g[d].slots, x, slot, n, MaxAttempts)
    ensures HasShape(PlaceOnDay(g, x, days, d, slot), days, n)
    ensures KeepsOccupied(g, PlaceOnDay(g, x, days, d, slot))
  {
    PlaceWritesOnlyFreeCells(g[d].slots, x, days[d], slot, MaxAttempts);
    PlaceOnDayKeepsShape(g, x, days, n, d, slot, MaxAttempts);
  }

  /** After a placement at (d, slot) every occupied cell holds one of the
      sessions placed before or the new one. */
  lemma PlaceOnDayCellsFrom(g: seq<DaySchedule>, x: Session, days: seq<string>, n: nat, d: nat, slot: nat, placed: seq<Session>)
    requires HasShape(g, days, n) && d < |g| && Admissible(g[d].slots, x, slot, n, MaxAttempts)
    requires CellsFrom(g, placed)
    ensures CellsFrom(PlaceOnDay(g, x, days, d, slot), placed + [x])
  {
    var g' := PlaceOnDay(g, x, days, d, slot);
    PlaceWritesOnlyFreeCells(g[d].slots, x, days[d], slot, MaxAttempts);
    PlaceOnDayKeepsOccupied(g, x, days, n, d, slot);
    forall e: nat, s: nat | e < |g'| && s < |g'[e].slots| && g'[e].slots[s].Some?
      ensures exists y :: y in placed + [x] && HoldsAt(g', e, s, y)
    {
      if e == d && (s == slot || (x.isDoubleSlot && s == slot + 1)) {
        assert HoldsAt(g', e, s, x);
      } else {
        assert g[e].slots[s] == g'[e].slots[s];
        var y :| y in placed && HoldsAt(g, e, s, y);
        KeptHolds(g, g', days, n, e, s, y);
      }
    }
  }

  /** After a placement at (d, slot) every session placed before, and the new
      one, is on the grid. */
  lemma PlaceOnDayShows(g: seq<DaySchedule>, x: Session, days: seq<string>, n: nat, d: nat, slot: nat, placed: seq<Session>)
    requires HasShape(g, days, n) && d < |g| && Admissible(g[d].slots, x, slot, n, MaxAttempts)
    requires ShowsAll(g, placed)
    ensures ShowsAll(PlaceOnDay(g, x, days, d, slot), placed + [x])
  {
    var g' := PlaceOnDay(g, x, days, d, slot);
    PlaceWritesOnlyFreeCells(g[d].slots, x, days[d], slot, MaxAttempts);
    PlaceOnDayKeepsOccupied(g, x, days, n, d, slot);
    KeptContents(g, g', days, n, placed);
    assert ShownAt(g', d, slot, x);
  }

  /** After a placement at (d, slot) every occupied cell holds one of the
      sessions placed so far or the new one, and all of them are on the grid. */
  lemma PlaceOnDayContents(g: seq<DaySchedule>, x: Session, days: seq<string>, n: nat, d: nat, slot: nat, placed: seq<Session>)
    requires HasShape(g, days, n) && d < |g| && Admissible(g[d].slots, x, slot, n, MaxAttempts)
    requires CellsFrom(g, placed) && ShowsAll(g, placed)
    ensures CellsFrom(PlaceOnDay(g, x, days, d, slot), placed + [x])
    ensures ShowsAll(PlaceOnDay(g, x, days, d, slot), placed + [x])
  {
    PlaceOnDayCellsFrom(g, x, days, n, d, slot, placed);
    PlaceOnDayShows(g, x, days, n, d, slot, placed);
  }

  /** From an empty grid, every occupied cell holds one of the sessions that
      were placed, stamped with that cell's id (or, for the second cell of a
      lab, its " (Cont.)" half right after its first), and every placed
      session is on the grid, a lab in two adjacent cells of one day. */
  lemma {:induction false} PlaceEachContents(g: seq<DaySchedule>, order: seq<Session>, k: nat, turn: Turn, days: seq<string>, n: nat, cursor: nat)
    requires PlacesOrKeeps(turn, days, n) && HasShape(g, days, n) && Unoccupied(g)
    requires k <= |order|
    ensures CellsFrom(PlaceEach(g, order, k, turn, cursor).grid, PlaceEach(g, order, k, turn, cursor).placed)
    ensures ShowsAll(PlaceEach(g, order, k, turn, cursor).grid, PlaceEach(g, order, k, turn, cursor).placed)
  {
    if k > 0 {
      PlaceEachContents(g, order, k - 1, turn, days, n, cursor);
      PlaceEachKeepsShape(g, order, k - 1, turn, days, n, cursor);
      var before := PlaceEach(g, order, k - 1, turn, cursor);
      TurnContents(turn, days, n, before.grid, order[k - 1], before.next, before.placed);
    }
  }

  /** One turn keeps the content invariant, with the session added to the
      placed ones when it was placed. */
  lemma TurnContents(turn: Turn, days: seq<string>, n: nat, g: seq<DaySchedule>, x: Session, c: nat, placed: seq<Session>)
    requires PlacesOrKeeps(turn, days, n) && HasShape(g, days, n)
    requires CellsFrom(g, placed) && ShowsAll(g, placed)
    ensures var o := turn(g, x, c);
      CellsFrom(o.grid, placed + (if o.placed then [x] else []))
      && ShowsAll(o.grid, placed + (if o.placed then [x] else []))
  {
    var o := turn(g, x, c);
    if o.placed {
      var d: nat, s: nat :| d < |g| && Admissible(g[d].slots, x, s, n, MaxAttempts)
        && o.grid == PlaceOnDay(g, x, days, d, s);
      PlaceOnDayContents(g, x, days, n, d, s, placed);
    } else {
      assert placed + [] == placed;
    }
  }

  /** A turn of the kind the trials of `generateTimetable` are: it either leaves the grid
      as it was, or places the session at a (day, slot) where the hard rules
      hold (the cell free; for a lab, two free adjacent cells of the day). */
  ghost predicate PlacesOrKeeps(turn: Turn, days: seq<string>, n: nat) {
    forall g: seq<DaySchedule>, x: Session, c: nat :: HasShape(g, days, n) ==>
      var o := turn(g, x, c);
      && (!o.placed ==> o.grid == g)
      && (o.placed ==> exists d: nat, s: nat :: d < |g| && Admissible(g[d].slots, x, s, n, MaxAttempts) && o.grid == PlaceOnDay(g, x, days, d, s))
  }

  /** An admissible trial is admissible on the last attempt, when only the
      hard rules are left. */
  lemma AdmissibleOnLastAttempt(row: Row, x: Session, slot: nat, n: nat, attempt: nat)
    requires Admissible(row, x, slot, n, attempt)
    ensures Admissible(row, x, slot, n, MaxAttempts)
  {
  }

  /** The turn of `generateTimetable` places or keeps. */
  lemma SessionTrialsPlacesOrKeeps(days: seq<string>, n: nat, random: nat -> real)
    requires IsRandomStream(random) && |days| >= WeekDays
    ensures PlacesOrKeeps(SessionTrials(days, n, random), days, n)
  {
    var turn := SessionTrials(days, n, random);
    forall g: seq<DaySchedule>, x: Session, c: nat | HasShape(g, days, n)
      ensures var o := turn(g, x, c);
        && (!o.placed ==> o.grid == g)
        && (o.placed ==> exists d: nat, s: nat :: d < |g| && Admissible(g[d].slots, x, s, n, MaxAttempts) && o.grid == PlaceOnDay(g, x, days, d, s))
    {
      var r := TrialsFrom(g, x, days, n, random, c, 1);
      assert turn(g, x, c) == r;
      TrialsFromPlacement(g, x, days, n, random, c, 1);
      if r.placed {
        var d, s := TrialDay(random, c, r.attempts), TrialSlot(random, c, r.attempts, n);
        AdmissibleOnLastAttempt(g[d].slots, x, s, n, r.attempts);
      }
    }
  }

  /** What one turn that places or keeps does to the grid: the shape is kept,
      no occupied cell changes, the ids stay with their positions, the
      occupied cells grow by the session's width exactly when it is placed,
      the lab cells likewise for a "LAB" session, and a lab is placed only
      when there are at least two class slots. */
  lemma TurnStep(turn: Turn, days: seq<string>, n: nat, g: seq<DaySchedule>, x: Session, c: nat)
    requires PlacesOrKeeps(turn, days, n) && HasShape(g, days, n)
    ensures var o := turn(g, x, c);
      && HasShape(o.grid, days, n)
      && KeepsOccupied(g, o.grid)
      && (IdsMatchPositions(g) ==> IdsMatchPositions(o.grid))
      && GridCount(o.grid, AnySession) == GridCount(g, AnySession) + (if o.placed then Width(x) else 0)
      && GridCount(o.grid, IsLabCell) == GridCount(g, IsLabCell) + (if o.placed && IsLabCell(x) then Width(x) else 0)
      && (o.placed && x.isDoubleSlot ==> n >= 2)
  {
    var o := turn(g, x, c);
    if o.placed {
      var d: nat, s: nat :| d < |g| && Admissible(g[d].slots, x, s, n, MaxAttempts) && o.grid == PlaceOnDay(g, x, days, d, s);
      PlaceWritesOnlyFreeCells(g[d].slots, x, days[d], s, MaxAttempts);
      PlaceOnDayKeepsShape(g, x, days, n, d, s, MaxAttempts);
      PlaceOnDayCounts(g, x, days, n, d, s, MaxAttempts);
      if IdsMatchPositions(g) {
        PlaceOnDayKeepsIds(g, x, days, n, d, s, MaxAttempts);
      }
    }
  }

  /** The sessions that found a place are taken from the order, none more
      often than it occurs there: no pool session is placed twice. */
  lemma {:induction false} PlaceEachPlacesFromOrder(g: seq<DaySchedule>, order: seq<Session>, k: nat, turn: Turn, cursor: nat)
    requires k <= |order|
    ensures multiset(PlaceEach(g, order, k, turn, cursor).placed) <= multiset(order[..k])
  {
    if k > 0 {
      PlaceEachPlacesFromOrder(g, order, k - 1, turn, cursor);
      var before := PlaceEach(g, order, k - 1, turn, cursor);
      MultisetOfPrefix(order, k);
      SubMultisetStep(before.placed, multiset(order[..k - 1]), order[k - 1], turn(before.grid, order[k - 1], before.next).placed);
    }
  }

  /** A whole run over a reordering of the pool places no pool session
      more often than the pool holds it. */
  lemma PlacedFromPool(g: seq<DaySchedule>, order: seq<Session>, turn: Turn, cursor: nat, pool: seq<Session>)
    requires multiset(order) == multiset(pool)
    ensures multiset(PlaceEach(g, order, |order|, turn, cursor).placed) <= multiset(pool)
  {
    PlaceEachPlacesFromOrder(g, order, |order|, turn, cursor);
    assert order[..|order|] == order;
  }

  lemma MultisetOfPrefix(order: seq<Session>, k: nat)
    requires 0 < k <= |order|
    ensures multiset(order[..k]) == multiset(order[..k - 1]) + multiset{order[k - 1]}
  {
    assert order[..k] == order[..k - 1] + [order[k - 1]];
  }

  lemma SubMultisetStep(a: seq<Session>, m: multiset<Session>, x: Session, take: bool)
    requires multiset(a) <= m
    ensures multiset(a + (if take then [x] else [])) <= m + multiset{x}
  {
    if !take {
      assert a + [] == a;
    }
  }

  /** The grid keeps its shape and, once a cell is occupied, no later
      session changes it: no cell is written twice. */
  lemma {:induction false} PlaceEachKeepsOccupied(g: seq<DaySchedule>, order: seq<Session>, j: nat, k: nat, turn: Turn, days: seq<string>, n: nat, cursor: nat)
    requires PlacesOrKeeps(turn, days, n) && HasShape(g, days, n)
    requires j <= k <= |order|
    ensures HasShape(PlaceEach(g, order, k, turn, cursor).grid, days, n)
    ensures KeepsOccupied(PlaceEach(g, order, j, turn, cursor).grid, PlaceEach(g, order, k, turn, cursor).grid)
  {
    if j == k {
      if j > 0 {
        PlaceEachKeepsOccupied(g, order, 0, k - 1, turn, days, n, cursor);
        var before := PlaceEach(g, order, k - 1, turn, cursor);
        TurnStep(turn, days, n, before.grid, order[k - 1], before.next);
      }
    } else {
      PlaceEachKeepsOccupied(g, order, j, k - 1, turn, days, n, cursor);
      var before := PlaceEach(g, order, k - 1, turn, cursor);
      TurnStep(turn, days, n, before.grid, order[k - 1], before.next);
    }
  }

  /** The grid keeps its shape along the run. */
  lemma PlaceEachKeepsShape(g: seq<DaySchedule>, order: seq<Session>, k: nat, turn: Turn, days: seq<string>, n: nat, cursor: nat)
    requires PlacesOrKeeps(turn, days, n) && HasShape(g, days, n)
    requires k <= |order|
    ensures HasShape(PlaceEach(g, order, k, turn, cursor).grid, days, n)
  {
    PlaceEachKeepsOccupied(g, order, k, k, turn, days, n, cursor);
  }

  /** The ids stay with their positions. */
  lemma {:induction false} PlaceEachKeepsIds(g: seq<DaySchedule>, order: seq<Session>, k: nat, turn: Turn, days: seq<string>, n: nat, cursor: nat)
    requires PlacesOrKeeps(turn, days, n) && HasShape(g, days, n) && IdsMatchPositions(g)
    requires k <= |order|
    ensures IdsMatchPositions(PlaceEach(g, order, k, turn, cursor).grid)
  {
    if k > 0 {
      PlaceEachKeepsIds(g, order, k - 1, turn, days, n, cursor);
      PlaceEachKeepsOccupied(g, order, 0, k - 1, turn, days, n, cursor);
      var before := PlaceEach(g, order, k - 1, turn, cursor);
      TurnStep(turn, days, n, before.grid, order[k - 1], before.next);
    }
  }

  /** The occupied cells grow by exactly the footprint of the sessions that
      were placed, and the lab cells by two per placed lab, of which there
      are none with fewer than two class slots. */
  lemma {:induction false} PlaceEachCounts(g: seq<DaySchedule>, order: seq<Session>, k: nat, turn: Turn, days: seq<string>, n: nat, cursor: nat)
    requires PlacesOrKeeps(turn, days, n) && HasShape(g, days, n)
    requires k <= |order| && forall x :: x in order ==> DoubleSlotIsLab(x)
    ensures var r := PlaceEach(g, order, k, turn, cursor);
      && GridCount(r.grid, AnySession) == GridCount(g, AnySession) + Footprint(r.placed)
      && GridCount(r.grid, IsLabCell) == GridCount(g, IsLabCell) + 2 * LabCount(r.placed)
      && (n < 2 ==> LabCount(r.placed) == 0)
  {
    if k > 0 {
      var x := order[k - 1];
      assert DoubleSlotIsLab(x);
      PlaceEachCounts(g, order, k - 1, turn, days, n, cursor);
      PlaceEachKeepsOccupied(g, order, 0, k - 1, turn, days, n, cursor);
      var before := PlaceEach(g, order, k - 1, turn, cursor);
      var o := turn(before.grid, x, before.next);
      TurnStep(turn, days, n, before.grid, x, before.next);
      if o.placed {
        SumsAppend(before.placed, x);
      } else {
        assert before.placed + [] == before.placed;
      }
    }
  }

  /** What a whole run leaves on an empty grid: the shape and ids kept, the
      occupied cells exactly the footprint of the placed sessions, the lab
      cells in pairs, and none with fewer than two class slots. */
  lemma {:induction false} PlaceEachFromEmpty(g: seq<DaySchedule>, order: seq<Session>, turn: Turn, days: seq<string>, n: nat, cursor: nat)
    requires PlacesOrKeeps(turn, days, n) && HasShape(g, days, n) && Unoccupied(g)
    requires forall x :: x in order ==> DoubleSlotIsLab(x)
    ensures var r := PlaceEach(g, order, |order|, turn, cursor);
      && HasShape(r.grid, days, n) && IdsMatchPositions(r.grid)
      && GridCount(r.grid, AnySession) == Footprint(r.placed)
      && GridCount(r.grid, IsLabCell) % 2 == 0
      && (n < 2 ==> GridCount(r.grid, IsLabCell) == 0)
  {
    var r := PlaceEach(g, order, |order|, turn, cursor);
    GridCountOfEmpty(g, AnySession);
    GridCountOfEmpty(g, IsLabCell);
    PlaceEachKeepsOccupied(g, order, |order|, |order|, turn, days, n, cursor);
    PlaceEachKeepsIds(g, order, |order|, turn, days, n, cursor);
    PlaceEachCounts(g, order, |order|, turn, days, n, cursor);
    assert (2 * LabCount(r.placed)) % 2 == 0;
  }

  /** Under the turn of `generateTimetable` every grid along the run keeps its shape. */
  lemma SessionRunShape(g: seq<DaySchedule>, order: seq<Session>, k: nat, days: seq<string>, n: nat, random: nat -> real, cursor: nat)
    requires IsRandomStream(random) && |days| >= WeekDays && HasShape(g, days, n) && k <= |order|
    ensures HasShape(PlaceEach(g, order, k, SessionTrials(days, n, random), cursor).grid, days, n)
  {
    SessionTrialsPlacesOrKeeps(days, n, random);
    PlaceEachKeepsOccupied(g, order, k, k, SessionTrials(days, n, random), days, n, cursor);
  }

  /** `PlaceEachFromEmpty` for the turn of `generateTimetable`. */
  lemma SessionRunFromEmpty(g: seq<DaySchedule>, order: seq<Session>, days: seq<string>, n: nat, random: nat -> real, cursor: nat)
    requires IsRandomStream(random) && |days| >= WeekDays
    requires HasShape(g, days, n) && Unoccupied(g)
    requires forall x :: x in order ==> DoubleSlotIsLab(x)
    ensures var r := PlaceEach(g, order, |order|, SessionTrials(days, n, random), cursor);
      && HasShape(r.grid, days, n) && IdsMatchPositions(r.grid)
      && CellsFrom(r.grid, r.placed) && ShowsAll(r.grid, r.placed)
      && GridCount(r.grid, AnySession) == Footprint(r.placed)
      && GridCount(r.grid, IsLabCell) % 2 == 0
      && (n < 2 ==> GridCount(r.grid, IsLabCell) == 0)
  {
    SessionTrialsPlacesOrKeeps(days, n, random);
    PlaceEachFromEmpty(g, order, SessionTrials(days, n, random), days, n, cursor);
    PlaceEachContents(g, order, |order|, SessionTrials(days, n, random), days, n, cursor);
  }

  /** One more turn of the run under the turn of `generateTimetable`: the outcome of the
      next session's trials on the grid the run has reached. */
  lemma SessionRunStep(g: seq<DaySchedule>, order: seq<Session>, k: nat, days: seq<string>, n: nat, random: nat -> real, cursor: nat,
                       after: seq<DaySchedule>, ok: bool, attempts: nat)
    requires IsRandomStream(random) && |days| >= WeekDays && HasShape(g, days, n) && k < |order|
    requires var b := PlaceEach(g, order, k, SessionTrials(days, n, random), cursor);
      |b.grid| >= WeekDays && Outcome(after, ok, attempts) == TrialsFrom(b.grid, order[k], days, n, random, b.next, 1)
    ensures var b := PlaceEach(g, order, k, SessionTrials(days, n, random), cursor);
      PlaceEach(g, order, k + 1, SessionTrials(days, n, random), cursor)
        == Run(after, b.placed + (if ok then [order[k]] else []), b.next + 2 * attempts)
  {
  }

  /** `generateTimetable`: builds the pool and the empty grid, shuffles the
      pool, then tries each session once in shuffled order. The grid is the
      one `PlaceEach` defines for the shuffled pool on the empty grid, reading
      the draws left after the shuffle, and `placedSessions` lists the
      sessions whose trials succeeded. */
  method GenerateTimetable(teachers: seq<Teacher>, timeSlots: seq<TimeSlot>, days: seq<string>, rooms: Rooms, random: nat -> real)
    returns (schedule: seq<DaySchedule>, ghost placedSessions: seq<Session>)
    requires |days| >= WeekDays
    requires IsRandomStream(random)
    ensures var pool := SessionPoolOf(teachers, rooms);
      var n := |ClassSlots(timeSlots)|;
      var order := Shuffled(pool, random, 0);
      var run := PlaceEach(EmptySchedule(days, n), order, |order|, SessionTrials(days, n, random), ShuffleDraws(|pool|));
      schedule == run.grid && placedSessions == run.placed
    ensures HasShape(schedule, days, |ClassSlots(timeSlots)|)
    ensures IdsMatchPositions(schedule)
    ensures CellsFrom(schedule, placedSessions) && ShowsAll(schedule, placedSessions)
    ensures GridCount(schedule, AnySession) == Footprint(placedSessions)
    ensures multiset(placedSessions) <= multiset(SessionPoolOf(teachers, rooms))
    ensures GridCount(schedule, IsLabCell) % 2 == 0
    ensures |ClassSlots(timeSlots)| < 2 ==> GridCount(schedule, IsLabCell) == 0
  {
    var classSlots := ClassSlots(timeSlots);
    var n := |classSlots|;
    var pool := BuildSessionPool(teachers, rooms);
    var empty := InitSchedule(days, n);
    var order, cursor := ShuffledCopy(pool, random);
    ShuffledPoolKeepsLabLink(teachers, rooms, order);
    var unused;
    schedule, placedSessions, unused := PlaceAll(empty, order, days, n, random, cursor);
    PlacedFromPool(empty, order, SessionTrials(days, n, random), cursor, pool);
  }

  /** Any reordering of the pool still has double-slot sessions exactly where
      the type is "LAB". */
  lemma ShuffledPoolKeepsLabLink(teachers: seq<Teacher>, rooms: Rooms, order: seq<Session>)
    requires multiset(order) == multiset(SessionPoolOf(teachers, rooms))
    ensures forall x :: x in order ==> DoubleSlotIsLab(x)
  {
    PoolDoubleSlotIsLab(teachers, rooms);
    forall x | x in order
      ensures DoubleSlotIsLab(x)
    {
      assert x in multiset(order);
    }
  }

  /** `const availableSessions = [...sessionPool]` followed by the shuffle loop;
      also returns the number of the next unused draw. */
  method ShuffledCopy(pool: seq<Session>, random: nat -> real) returns (order: seq<Session>, next: nat)
    requires IsRandomStream(random)
    ensures order == Shuffled(pool, random, 0)
    ensures multiset(order) == multiset(pool)
    ensures next == ShuffleDraws(|pool|)
  {
    var available := new Session[|pool|](i requires 0 <= i < |pool| => pool[i]);
    assert available[..] == pool;
    next := ShuffleInPlace(available, random, 0);
    order := available[..];
  }

  /** `availableSessions.forEach(session => { ... })`: each session of `order`
      takes its turn, in order, reading the draws from `cursor` on; the grid,
      the sessions that found a place and the next unused draw are those
      `PlaceEach` defines for the whole order under `SessionTrials`. */
  method PlaceAll(g: seq<DaySchedule>, order: seq<Session>, days: seq<string>, n: nat, random: nat -> real, cursor: nat)
    returns (g': seq<DaySchedule>, ghost placed: seq<Session>, next: nat)
    requires IsRandomStream(random)
    requires |days| >= WeekDays
    requires HasShape(g, days, n) && Unoccupied(g)
    requires forall x :: x in order ==> DoubleSlotIsLab(x)
    ensures Run(g', placed, next) == PlaceEach(g, order, |order|, SessionTrials(days, n, random), cursor)
    ensures HasShape(g', days, n) && IdsMatchPositions(g')
    ensures CellsFrom(g', placed) && ShowsAll(g', placed)
    ensures GridCount(g', AnySession) == Footprint(placed)
    ensures GridCount(g', IsLabCell) % 2 == 0
    ensures n < 2 ==> GridCount(g', IsLabCell) == 0
  {
    ghost var turn := SessionTrials(days, n, random);
    g', placed, next := g, [], cursor;
    var k := 0;
    while k < |order|
      invariant 0 <= k <= |order|
      invariant Run(g', placed, next) == PlaceEach(g, order, k, turn, cursor)
    {
      SessionRunShape(g, order, k, days, n, random, cursor);
      var session := order[k];
      var after, ok, attempts := PlaceSession(g', session, days, n, random, next);
      SessionRunStep(g, order, k, days, n, random, cursor, after, ok, attempts);
      g', next := after, next + 2 * attempts;
      placed := placed + if ok then [session] else [];
      k := k + 1;
    }
    SessionRunFromEmpty(g, order, days, n, random, cursor);
  }

  // ------------------------------ the emptiness test of `generateTimetable` as written

  /** The single-slot test `!schedule[randomDay].slots[randomSlot]` of
      `timetableGenerator.ts` line 119 as JavaScript evaluates it: reading past
      the end of an array gives `undefined`, which is falsy too. */
  predicate FreeAsWritten(row: Row, slot: nat)
    ensures FreeAsWritten(row, slot) <==> Free(row, slot) || slot >= |row|
  {
    slot >= |row| || row[slot].None?
  }

  /** A JavaScript array store: at index `|row|` it appends. */
  function StoreAsWritten(row: Row, slot: nat, c: Cell): (r: Row)
    requires slot <= |row|
    ensures |r| == if slot < |row| then |row| else |row| + 1
    ensures r[slot] == c
    ensures forall k :: 0 <= k < |row| && k != slot ==> r[k] == row[k]
  {
    if slot < |row| then row[slot := c] else row + [c]
  }

  /** One single-slot trial exactly as `timetableGenerator.ts` lines 119-131
      write it: the test above, the variety check, and the store. */
  function SingleTrialAsWritten(row: Row, x: Session, day: string, slot: nat, attempt: nat): (r: Row)
    requires !x.isDoubleSlot && slot <= |row|
    ensures |row| <= |r| <= |row| + 1
  {
    if FreeAsWritten(row, slot) && (TeacherCount(row, x.teacher) < 2 || attempt > VarietyAttempts)
    then StoreAsWritten(row, slot, Some(Stamped(x, day, slot)))
    else row
  }

  /** Inside the row, the written trial and the model's trial agree. */
  lemma AsWrittenAgreesInsideRow(row: Row, x: Session, day: string, slot: nat, attempt: nat)
    requires !x.isDoubleSlot && slot < |row|
    ensures SingleTrialAsWritten(row, x, day, slot, attempt)
         == if Admissible(row, x, slot, |row|, attempt) then Place(row, x, day, slot) else row
  {
  }

  /** With no class slots every row is empty and every slot draw is 0; as
      written, the first single-slot trial on a day appends a cell, so the row
      no longer has one cell per class slot. The model's trial rejects it. */
  lemma EmptyGeometryGrowsRow(x: Session, day: string, r: real)
    requires !x.isDoubleSlot && 0.0 <= r < 1.0
    ensures Draw(r, 0) == 0
    ensures |SingleTrialAsWritten([], x, day, Draw(r, 0), 1)| == 1
    ensures !Admissible([], x, Draw(r, 0), 0, 1)
  {
    assert TeacherCount([], x.teacher) == 0;
  }
}
