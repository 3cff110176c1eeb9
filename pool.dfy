/** The session-pool builder (the first half of `generateTimetable`): three
    theory sessions per theory subject, two double-slot lab sessions per lab
    subject, then two library and two project sessions. */
module SessionPool {
  import opened Text
  import opened TimetableModel

  const LabBatches: seq<string> := ["D1", "D2", "D3", "D4"]

  predicate IsTheorySubject(t: Teacher) {
    t.kind == "TH"
  }

  predicate IsLabSubject(t: Teacher) {
    t.kind == "LAB"
  }

  /** `teachers.filter(t => t.type === 'TH')` */
  function TheorySubjects(teachers: seq<Teacher>): (r: seq<Teacher>)
    ensures forall i :: 0 <= i < |r| ==> r[i].kind == "TH"
    ensures forall t :: multiset(r)[t] == if t.kind == "TH" then multiset(teachers)[t] else 0
  {
    FilterCounts(teachers, IsTheorySubject);
    Filter(teachers, IsTheorySubject)
  }

  /** `teachers.filter(t => t.type === 'LAB')` */
  function LabSubjects(teachers: seq<Teacher>): (r: seq<Teacher>)
    ensures forall i :: 0 <= i < |r| ==> r[i].kind == "LAB"
    ensures forall t :: multiset(r)[t] == if t.kind == "LAB" then multiset(teachers)[t] else 0
  {
    FilterCounts(teachers, IsLabSubject);
    Filter(teachers, IsLabSubject)
  }

  /** `pool[index % pool.length]`; with an empty pool JavaScript computes
      `index % 0 = NaN` and the lookup yields `undefined`. */
  function RoomFor(pool: seq<string>, index: nat): (r: Option<string>)
    ensures r.Some? <==> |pool| > 0
    ensures r.Some? ==> r.value in pool
  {
    if |pool| == 0 then None else Some(pool[index % |pool|])
  }

  /** The i-th theory session of the subject at position `index`. */
  function TheorySession(t: Teacher, index: nat, i: nat, rooms: Rooms): Session {
    Session("theory-" + t.shortForm + "-" + NatToString(i), t.shortForm, t.courseShort,
            "TH", RoomFor(rooms.theory, index), None, false)
  }

  /** The i-th lab session of the lab subject at position `index`. */
  function LabSession(t: Teacher, index: nat, i: nat, rooms: Rooms): Session {
    Session("lab-" + t.shortForm + "-" + NatToString(i), t.shortForm, t.courseShort,
            "LAB", RoomFor(rooms.lab, index), Some(LabBatches), true)
  }

  function LibrarySession(i: nat): Session {
    Session("library-" + NatToString(i), "LIB", "LIBRARY", "LIBRARY", Some("Library"), None, false)
  }

  function ProjectSession(i: nat): Session {
    Session("project-" + NatToString(i), "PROJ", "PROJECT", "PROJECT", Some("Project Room"), None, false)
  }

  function TheoryGroup(t: Teacher, index: nat, rooms: Rooms): seq<Session> {
    seq(3, i requires 0 <= i < 3 => TheorySession(t, index, i, rooms))
  }

  function LabGroup(t: Teacher, index: nat, rooms: Rooms): seq<Session> {
    seq(2, i requires 0 <= i < 2 => LabSession(t, index, i, rooms))
  }

  /** The sessions of the first k theory subjects, in push order. */
  function TheoryBlock(subjects: seq<Teacher>, k: nat, rooms: Rooms): (r: seq<Session>)
    requires k <= |subjects|
    ensures |r| == 3 * k
  {
    if k == 0 then [] else TheoryBlock(subjects, k - 1, rooms) + TheoryGroup(subjects[k - 1], k - 1, rooms)
  }

  /** The sessions of the first k lab subjects, in push order. */
  function LabBlock(subjects: seq<Teacher>, k: nat, rooms: Rooms): (r: seq<Session>)
    requires k <= |subjects|
    ensures |r| == 2 * k
  {
    if k == 0 then [] else LabBlock(subjects, k - 1, rooms) + LabGroup(subjects[k - 1], k - 1, rooms)
  }

  function FixedSessions(): seq<Session> {
    [LibrarySession(0), LibrarySession(1), ProjectSession(0), ProjectSession(1)]
  }

  /** The whole pool `generateTimetable` builds before placing anything. */
  function SessionPoolOf(teachers: seq<Teacher>, rooms: Rooms): seq<Session> {
    var theory := TheorySubjects(teachers);
    var labs := LabSubjects(teachers);
    TheoryBlock(theory, |theory|, rooms) + LabBlock(labs, |labs|, rooms) + FixedSessions()
  }

  /** Builds the session pool with the loops and pushes of `generateTimetable`. */
  method BuildSessionPool(teachers: seq<Teacher>, rooms: Rooms) returns (pool: seq<Session>)
    ensures pool == SessionPoolOf(teachers, rooms)
    ensures |pool| == 3 * |TheorySubjects(teachers)| + 2 * |LabSubjects(teachers)| + 4
  {
    pool := PushTheorySessions([], TheorySubjects(teachers), rooms);
    pool := PushLabSessions(pool, LabSubjects(teachers), rooms);
    pool := PushFixedSessions(pool);
    PoolSize(teachers, rooms);
  }

  /** `theorySubjects.forEach((teacher, index) => { for i < 3: push })` */
  method PushTheorySessions(pool: seq<Session>, theory: seq<Teacher>, rooms: Rooms) returns (pool': seq<Session>)
    ensures pool' == pool + TheoryBlock(theory, |theory|, rooms)
  {
    pool' := pool;
    var index := 0;
    while index < |theory|
      invariant 0 <= index <= |theory|
      invariant pool' == pool + TheoryBlock(theory, index, rooms)
    {
      ghost var group := TheoryGroup(theory[index], index, rooms);
      var i := 0;
      while i < 3
        invariant 0 <= i <= 3
        invariant pool' == pool + TheoryBlock(theory, index, rooms) + group[..i]
      {
        pool' := pool' + [TheorySession(theory[index], index, i, rooms)];
        i := i + 1;
      }
      assert group[..3] == group;
      index := index + 1;
    }
  }

  /** `labSubjects.forEach((teacher, index) => { for i < 2: push })` */
  method PushLabSessions(pool: seq<Session>, labs: seq<Teacher>, rooms: Rooms) returns (pool': seq<Session>)
    ensures pool' == pool + LabBlock(labs, |labs|, rooms)
  {
    pool' := pool;
    var index := 0;
    while index < |labs|
      invariant 0 <= index <= |labs|
      invariant pool' == pool + LabBlock(labs, index, rooms)
    {
      ghost var group := LabGroup(labs[index], index, rooms);
      var i := 0;
      while i < 2
        invariant 0 <= i <= 2
        invariant pool' == pool + LabBlock(labs, index, rooms) + group[..i]
      {
        pool' := pool' + [LabSession(labs[index], index, i, rooms)];
        i := i + 1;
      }
      assert group[..2] == group;
      index := index + 1;
    }
  }

  /** The two library pushes followed by the two project pushes. */
  method PushFixedSessions(pool: seq<Session>) returns (pool': seq<Session>)
    ensures pool' == pool + FixedSessions()
  {
    pool' := pool;
    var i := 0;
    while i < 2
      invariant 0 <= i <= 2
      invariant pool' == pool + FixedSessions()[..i]
    {
      pool' := pool' + [LibrarySession(i)];
      i := i + 1;
    }
    i := 0;
    while i < 2
      invariant 0 <= i <= 2
      invariant pool' == pool + FixedSessions()[..2 + i]
    {
      pool' := pool' + [ProjectSession(i)];
      i := i + 1;
    }
    assert FixedSessions()[..4] == FixedSessions();
  }

  lemma {:induction false} TheoryBlockLength(subjects: seq<Teacher>, k: nat, rooms: Rooms)
    requires k <= |subjects|
    ensures |TheoryBlock(subjects, k, rooms)| == 3 * k
  {
    if k > 0 {
      TheoryBlockLength(subjects, k - 1, rooms);
    }
  }

  lemma {:induction false} LabBlockLength(subjects: seq<Teacher>, k: nat, rooms: Rooms)
    requires k <= |subjects|
    ensures |LabBlock(subjects, k, rooms)| == 2 * k
  {
    if k > 0 {
      LabBlockLength(subjects, k - 1, rooms);
    }
  }

  /** The pool holds 3 sessions per theory subject, 2 per lab subject and 4 more. */
  lemma PoolSize(teachers: seq<Teacher>, rooms: Rooms)
    ensures |SessionPoolOf(teachers, rooms)| == 3 * |TheorySubjects(teachers)| + 2 * |LabSubjects(teachers)| + 4
  {
    TheoryBlockLength(TheorySubjects(teachers), |TheorySubjects(teachers)|, rooms);
    LabBlockLength(LabSubjects(teachers), |LabSubjects(teachers)|, rooms);
  }

  lemma {:induction false} TheoryBlockAt(subjects: seq<Teacher>, k: nat, rooms: Rooms, j: nat, i: nat)
    requires j < k <= |subjects| && i < 3
    ensures 3 * j + i < |TheoryBlock(subjects, k, rooms)|
    ensures TheoryBlock(subjects, k, rooms)[3 * j + i] == TheorySession(subjects[j], j, i, rooms)
  {
    TheoryBlockLength(subjects, k - 1, rooms);
    if j < k - 1 {
      TheoryBlockAt(subjects, k - 1, rooms, j, i);
    }
  }

  lemma {:induction false} LabBlockAt(subjects: seq<Teacher>, k: nat, rooms: Rooms, j: nat, i: nat)
    requires j < k <= |subjects| && i < 2
    ensures 2 * j + i < |LabBlock(subjects, k, rooms)|
    ensures LabBlock(subjects, k, rooms)[2 * j + i] == LabSession(subjects[j], j, i, rooms)
  {
    LabBlockLength(subjects, k - 1, rooms);
    if j < k - 1 {
      LabBlockAt(subjects, k - 1, rooms, j, i);
    }
  }

  /** The k-th theory subject's i-th session sits at 3k+i: a "TH" session of
      that teacher and course, in theory room k modulo the pool size. */
  lemma PoolTheoryEntry(teachers: seq<Teacher>, rooms: Rooms, k: nat, i: nat)
    requires k < |TheorySubjects(teachers)| && i < 3
    ensures 3 * k + i < |SessionPoolOf(teachers, rooms)|
    ensures var s := SessionPoolOf(teachers, rooms)[3 * k + i];
      && s == TheorySession(TheorySubjects(teachers)[k], k, i, rooms)
      && s.teacher == TheorySubjects(teachers)[k].shortForm
      && s.course == TheorySubjects(teachers)[k].courseShort
      && s.kind == "TH" && !s.isDoubleSlot && s.batches == None
      && s.room == RoomFor(rooms.theory, k)
  {
    var theory := TheorySubjects(teachers);
    TheoryBlockAt(theory, |theory|, rooms, k, i);
  }

  /** The k-th lab subject's i-th session sits right after the theory
      sessions: a double-slot "LAB" session for batches D1-D4 in lab room
      k modulo the pool size. */
  lemma PoolLabEntry(teachers: seq<Teacher>, rooms: Rooms, k: nat, i: nat)
    requires k < |LabSubjects(teachers)| && i < 2
    ensures 3 * |TheorySubjects(teachers)| + 2 * k + i < |SessionPoolOf(teachers, rooms)|
    ensures var s := SessionPoolOf(teachers, rooms)[3 * |TheorySubjects(teachers)| + 2 * k + i];
      && s == LabSession(LabSubjects(teachers)[k], k, i, rooms)
      && s.teacher == LabSubjects(teachers)[k].shortForm
      && s.course == LabSubjects(teachers)[k].courseShort
      && s.kind == "LAB" && s.isDoubleSlot && s.batches == Some(["D1", "D2", "D3", "D4"])
      && s.room == RoomFor(rooms.lab, k)
  {
    var theory := TheorySubjects(teachers);
    var labs := LabSubjects(teachers);
    TheoryBlockLength(theory, |theory|, rooms);
    LabBlockAt(labs, |labs|, rooms, k, i);
  }

  /** The pool ends with two library sessions and two project sessions. */
  lemma PoolFixedEntries(teachers: seq<Teacher>, rooms: Rooms)
    ensures var p := SessionPoolOf(teachers, rooms);
      && |p| >= 4
      && p[|p| - 4] == LibrarySession(0) && p[|p| - 3] == LibrarySession(1)
      && p[|p| - 2] == ProjectSession(0) && p[|p| - 1] == ProjectSession(1)
      && p[|p| - 4].teacher == "LIB" && p[|p| - 4].room == Some("Library")
      && p[|p| - 1].teacher == "PROJ" && p[|p| - 1].room == Some("Project Room")
  {
  }

  predicate DoubleSlotIsLab(s: Session) {
    s.isDoubleSlot <==> s.kind == "LAB"
  }

  lemma {:induction false} TheoryBlockSingle(subjects: seq<Teacher>, k: nat, rooms: Rooms)
    requires k <= |subjects|
    ensures forall s :: s in TheoryBlock(subjects, k, rooms) ==> s.kind == "TH" && !s.isDoubleSlot
  {
    if k > 0 {
      TheoryBlockSingle(subjects, k - 1, rooms);
    }
  }

  lemma {:induction false} LabBlockDouble(subjects: seq<Teacher>, k: nat, rooms: Rooms)
    requires k <= |subjects|
    ensures forall s :: s in LabBlock(subjects, k, rooms) ==> s.kind == "LAB" && s.isDoubleSlot
  {
    if k > 0 {
      LabBlockDouble(subjects, k - 1, rooms);
    }
  }

  /** Exactly the "LAB" sessions of the pool are double-slot. */
  lemma PoolDoubleSlotIsLab(teachers: seq<Teacher>, rooms: Rooms)
    ensures forall s :: s in SessionPoolOf(teachers, rooms) ==> DoubleSlotIsLab(s)
  {
    var theory := TheorySubjects(teachers);
    var labs := LabSubjects(teachers);
    TheoryBlockSingle(theory, |theory|, rooms);
    LabBlockDouble(labs, |labs|, rooms);
  }
}
