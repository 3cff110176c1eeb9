/** The records the timetable generator reads and writes. */
module TimetableModel {

  datatype Option<T> = None | Some(value: T)

  /** A roster entry: a teacher's short form, the course they teach and its
      kind ("TH" for theory, "LAB" for a laboratory, anything else ignored). */
  datatype Teacher = Teacher(shortForm: string, courseShort: string, kind: string)

  /** A time slot of the day; only those of kind "class" can hold a session. */
  datatype TimeSlot = TimeSlot(startTime: string, endTime: string, kind: string)

  /** The theory and lab room pools, used round-robin. */
  datatype Rooms = Rooms(theory: seq<string>, lab: seq<string>)

  /** A session, as in the pool and as written into a grid cell. `room` is
      `None` where JavaScript yields `undefined`; `batches` is `None` where the
      record has no such property; a missing `isDoubleSlot` reads as false. */
  datatype Session = Session(
    slotId: string,
    teacher: string,
    course: string,
    kind: string,
    room: Option<string>,
    batches: Option<seq<string>>,
    isDoubleSlot: bool)

  /** One grid cell: `None` stands for JavaScript's `null`. */
  type Cell = Option<Session>

  /** One row of the weekly grid: a day label and its cells, one per class slot. */
  datatype DaySchedule = DaySchedule(day: string, slots: seq<Cell>)

  /** `s.filter(p)`: the elements of `s` that satisfy `p`, in order. */
  function Filter<T(!new)>(s: seq<T>, p: T -> bool): (r: seq<T>)
    ensures |r| <= |s|
    ensures forall i :: 0 <= i < |r| ==> p(r[i])
  {
    if s == [] then []
    else (if p(s[0]) then [s[0]] else []) + Filter(s[1..], p)
  }

  /** Each value that passes is kept as often as it occurs, and no other
      value is kept. */
  lemma {:induction false} FilterCounts<T(!new)>(s: seq<T>, p: T -> bool)
    ensures forall x :: multiset(Filter(s, p))[x] == if p(x) then multiset(s)[x] else 0
  {
    if s != [] {
      assert s == [s[0]] + s[1..];
      FilterCounts(s[1..], p);
    }
  }

  /** Filtering keeps the order: filtering a concatenation is concatenating
      the filtered parts. */
  lemma {:induction false} FilterAppend<T(!new)>(a: seq<T>, b: seq<T>, p: T -> bool)
    ensures Filter(a + b, p) == Filter(a, p) + Filter(b, p)
  {
    if a != [] {
      var head := if p(a[0]) then [a[0]] else [];
      assert (a + b)[0] == a[0] && (a + b)[1..] == a[1..] + b;
      FilterAppend(a[1..], b, p);
      assert Filter(a + b, p) == head + (Filter(a[1..], p) + Filter(b, p));
      assert Filter(a, p) == head + Filter(a[1..], p);
    } else {
      assert a + b == b;
    }
  }

  predicate IsClassSlot(t: TimeSlot) {
    t.kind == "class"
  }

  /** `timeSlots.filter(slot => slot.type === 'class')` */
  function ClassSlots(timeSlots: seq<TimeSlot>): (r: seq<TimeSlot>)
    ensures |r| <= |timeSlots|
    ensures forall i :: 0 <= i < |r| ==> r[i].kind == "class"
    ensures forall t :: multiset(r)[t] == if t.kind == "class" then multiset(timeSlots)[t] else 0
  {
    FilterCounts(timeSlots, IsClassSlot);
    Filter(timeSlots, IsClassSlot)
  }
}
