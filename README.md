# Weekly timetable engine, modelled in Dafny

This project models `generateTimetable` and its helpers in
`src/utils/timetableGenerator.ts`. It proves properties of the model.

`generateTimetable` works in two phases.

- It expands the teacher roster into a session pool:
  - three "TH" sessions per theory subject;
  - two double-slot "LAB" sessions per lab subject, for batches D1-D4;
  - two library sessions and two project sessions.
  Theory and lab rooms are chosen round-robin by the subject's position.
- It builds an empty grid with one row per day and one cell per class slot.
  It shuffles a copy of the pool with Fisher-Yates. Then it gives each session
  up to 50 random (day, slot) trials:
  - A session goes only into an empty cell.
  - A lab needs two adjacent empty cells on one day. Its second cell's
    course gets the suffix " (Cont.)".
  - While the attempt counter is at most 30, a "teacher variety" preference
    also applies.
  - A session whose 50 trials all fail is dropped.
- The helpers are `formatTimeSlot` and the two colour maps `getSlotColor` and
  `getTypeColor`.

`Math.random()` is an explicit input: a stream `random: nat -> real` whose
values all lie in [0, 1). The k-th call to `Math.random()` reads `random(k)`.
The draws come in the order `generateTimetable` makes them:

- the shuffle takes n-1 draws;
- each trial then takes two draws, the day first and then the slot.

So every property holds for every possible sequence of random values.

Files and modules:

- `text.dfy` (`Text`): ASCII lower-casing, and decimal rendering of an index
  and its inverse.
- `model.dfy` (`TimetableModel`): roster entries, time slots, room pools,
  sessions, grid rows, `filter`, and the class-slot filter.
- `random_source.dfy` (`RandomSource`): the random stream and `Math.floor(r * m)`.
- `pool.dfy` (`SessionPool`): the pool builder. Its loops are proved against
  the function `SessionPoolOf`. The lemmas locate each roster entry's
  sessions in the pool.
- `shuffle.dfy` (`Shuffle`): the in-place swap loop on an array. It is proved
  equal to a functional Fisher-Yates, and that is proved to be a permutation.
- `placement.dfy` (`Placement`): the grid, one trial, the trial loop of one
  session, the loop over the shuffled pool, and `GenerateTimetable`.
  - The function `PlaceEach` folds the trials of each session over the
    shuffled order. The loop over the pool and `GenerateTimetable` are proved
    equal to it.
  - The content invariant `CellsFrom`/`ShowsAll` says what every cell holds.
  - The section at the end of the file models line 119 exactly as written
    (see Findings).
- `presentation.dfy` (`Presentation`): `formatTimeSlot` and the colour maps.

## Model

| member | source | states |
|---|---|---|
| Text.Lower | src/utils/timetableGenerator.ts:107 | lower-casing keeps the length and lowers each character on its own |
| Text.NatToString | src/utils/timetableGenerator.ts:107 | an index is written as a non-empty string of decimal digits. It has one digit below ten and more from ten on, and starts with '0' only for zero, so there is no leading zero |
| Text.ParseNatToString | src/utils/timetableGenerator.ts:107 | reading the rendered digits back gives the index (round trip) |
| Text.NatToStringInjective | src/utils/timetableGenerator.ts:107 | different indices render to different strings |
| TimetableModel.Filter | src/utils/timetableGenerator.ts:5-9 | `filter` returns no more elements than its input, and every element it returns passes the test |
| TimetableModel.FilterCounts | src/utils/timetableGenerator.ts:5-9 | `filter` keeps each passing value exactly as often as the input holds it, and keeps no failing value |
| TimetableModel.FilterAppend | src/utils/timetableGenerator.ts:5-9 | `filter` keeps the order: filtering a concatenation gives the concatenation of the filtered parts |
| TimetableModel.ClassSlots | src/utils/timetableGenerator.ts:5 | the class slots are the time slots of type "class": each one is of that type, and each such time slot occurs as often as in the input |
| SessionPool.TheorySubjects | src/utils/timetableGenerator.ts:8 | the theory subjects are the roster entries of type "TH", each as often as in the roster |
| SessionPool.LabSubjects | src/utils/timetableGenerator.ts:9 | the lab subjects are the roster entries of type "LAB", each as often as in the roster |
| SessionPool.RoomFor | src/utils/timetableGenerator.ts:22 | a subject's room comes from its pool, and there is a room exactly when the pool is non-empty (an empty pool gives `undefined`) |
| SessionPool.TheorySession | src/utils/timetableGenerator.ts:17-23 | the record pushed for the i-th session of a theory subject: id `theory-<short form>-<i>`, the teacher's short form and course, type "TH", the round-robin theory room, no batches, single-slot. Its place in the pool is stated by SessionPool.PoolTheoryEntry |
| SessionPool.LabSession | src/utils/timetableGenerator.ts:30-38 | the record pushed for the i-th session of a lab subject: id `lab-<short form>-<i>`, type "LAB", the round-robin lab room, batches D1-D4, double-slot. Its place in the pool is stated by SessionPool.PoolLabEntry |
| SessionPool.LibrarySession | src/utils/timetableGenerator.ts:44-50 | the record pushed for library session i: id `library-<i>`, teacher "LIB", course and type "LIBRARY", room "Library" |
| SessionPool.ProjectSession | src/utils/timetableGenerator.ts:54-60 | the record pushed for project session i: id `project-<i>`, teacher "PROJ", course and type "PROJECT", room "Project Room" |
| SessionPool.SessionPoolOf | src/utils/timetableGenerator.ts:14-61 | the pool as a value: the theory groups, then the lab groups, then the four fixed sessions. Its size and entries are stated by SessionPool.PoolSize, PoolTheoryEntry, PoolLabEntry and PoolFixedEntries |
| SessionPool.TheoryBlock | src/utils/timetableGenerator.ts:14-25 | the sessions the theory `forEach` pushes for the first k theory subjects, three per subject and so 3·k in all; where each one sits is stated by SessionPool.TheoryBlockAt |
| SessionPool.LabBlock | src/utils/timetableGenerator.ts:27-40 | the sessions the lab `forEach` pushes for the first k lab subjects, two per subject and so 2·k in all; where each one sits is stated by SessionPool.LabBlockAt |
| SessionPool.FixedSessions | src/utils/timetableGenerator.ts:42-61 | the two library and two project sessions in push order; their fields are stated by SessionPool.PoolFixedEntries |
| SessionPool.BuildSessionPool | src/utils/timetableGenerator.ts:14-61 | the pushes build exactly `SessionPoolOf`: 3·(theory subjects) + 2·(lab subjects) + 4 sessions |
| SessionPool.PushTheorySessions | src/utils/timetableGenerator.ts:15-25 | the nested theory loops append three sessions per theory subject, subject by subject |
| SessionPool.PushLabSessions | src/utils/timetableGenerator.ts:28-40 | the nested lab loops append two sessions per lab subject, subject by subject |
| SessionPool.PushFixedSessions | src/utils/timetableGenerator.ts:43-61 | the last two loops append library 0, library 1, project 0 and project 1 |
| SessionPool.PoolSize | src/utils/timetableGenerator.ts:14-61 | the pool has 3·(theory subjects) + 2·(lab subjects) + 4 sessions |
| SessionPool.PoolTheoryEntry | src/utils/timetableGenerator.ts:15-25 | the i-th session of the k-th theory subject sits at index 3k+i. It is a single-slot "TH" session with that subject's teacher and course, no batches, and theory room k modulo the pool size |
| SessionPool.PoolLabEntry | src/utils/timetableGenerator.ts:28-40 | the i-th session of the k-th lab subject sits after all theory sessions, at offset 2k+i. It is a double-slot "LAB" session for batches D1-D4 in lab room k modulo the pool size |
| SessionPool.PoolFixedEntries | src/utils/timetableGenerator.ts:43-61 | the pool ends with two LIB/LIBRARY sessions in "Library" and two PROJ/PROJECT sessions in "Project Room" |
| SessionPool.PoolDoubleSlotIsLab | src/utils/timetableGenerator.ts:14-40 | in the pool, a session is double-slot exactly when its type is "LAB" |
| SessionPool.TheoryBlockAt | src/utils/timetableGenerator.ts:15-25 | after k theory subjects, the session at 3j+i is subject j's i-th theory session |
| SessionPool.LabBlockAt | src/utils/timetableGenerator.ts:28-40 | after k lab subjects, the session at 2j+i is lab subject j's i-th lab session |
| RandomSource.Draw | src/utils/timetableGenerator.ts:76 | `Math.floor(Math.random() * m)` is an index below m, or 0 when m is 0 |
| Shuffle.Swap | src/utils/timetableGenerator.ts:77 | the destructuring swap as a value: positions i and j are exchanged and every other position is kept |
| Shuffle.SwapPermutes | src/utils/timetableGenerator.ts:77 | swapping two elements keeps the same multiset |
| Shuffle.ShuffleFrom | src/utils/timetableGenerator.ts:75-78 | the iterations i, i-1, ..., 1 of the swap loop, the first reading draw `cursor`; the result has the input's length |
| Shuffle.Shuffled | src/utils/timetableGenerator.ts:72-78 | the whole Fisher-Yates pass over a sequence, starting at a given draw; the result has the input's length |
| Shuffle.ShuffleFromPermutes | src/utils/timetableGenerator.ts:75-78 | for every sequence of draws, the remaining swap iterations keep the length and the multiset |
| Shuffle.ShuffledPermutes | src/utils/timetableGenerator.ts:72-78 | the whole shuffle is a permutation of the pool |
| Shuffle.SwapInPlace | src/utils/timetableGenerator.ts:77 | the destructuring swap leaves the array equal to the old contents with positions i and j exchanged |
| Shuffle.ShuffleStep | src/utils/timetableGenerator.ts:75-77 | one iteration of the swap loop, in place: after swapping position i with its drawn index, the rest of the shuffle from i-1 on the next draw gives the same result as the whole shuffle from i did before |
| Shuffle.ShuffleInPlace | src/utils/timetableGenerator.ts:75-78 | the in-place loop leaves the array equal to the functional shuffle of its old contents, and holding the same multiset. It uses one draw per iteration |
| Placement.ShuffledCopy | src/utils/timetableGenerator.ts:72-78 | the shuffled copy of the pool is its functional shuffle, has the same multiset, and uses max(n-1, 0) draws |
| Placement.SlotId | src/utils/timetableGenerator.ts:107 | the id `${day.toLowerCase()}-${slot}` that a written cell gets |
| Placement.SlotIdParts | src/utils/timetableGenerator.ts:107 | the lower-cased day label, a '-' and the slot's digits can be read back from an id |
| Placement.SlotIdsDistinct | src/utils/timetableGenerator.ts:105-113 | two cells get the same id only if their day labels lower-case to the same text and their slots are equal, so cells on the same day and cells on days with different lower-cased labels get different ids |
| Placement.Stamped | src/utils/timetableGenerator.ts:105-108 | `{ ...session, slotId }`: the copy carries the id of its cell, and nothing else differs from the session |
| Placement.Continued | src/utils/timetableGenerator.ts:109-113 | the second half of a lab: the course gains " (Cont.)", and nothing else changes |
| Placement.CountWhere | src/utils/timetableGenerator.ts:121-123 | the number of occupied cells of a row that satisfy a test is at most the row length |
| Placement.TeacherCount | src/utils/timetableGenerator.ts:121-123 | `filter(slot => slot && slot.teacher === t).length` is at most the row length |
| Placement.DayHasTeacher | src/utils/timetableGenerator.ts:99-101 | `some(slot => slot && slot.teacher === t)` on one day's cells |
| Placement.DayHasTeacherIffCounted | src/utils/timetableGenerator.ts:99-101 | `some` on a teacher's cells of a day holds exactly when the `filter(...).length` count of lines 121-123 is positive |
| Placement.CountAfterUpdate | src/utils/timetableGenerator.ts:121-123 | writing one cell changes a cell count by what left the cell and what arrived |
| Placement.EmptySchedule | src/utils/timetableGenerator.ts:63-69 | the grid before any placement has one row per day, labelled with that day, each with one cell per class slot, and no occupied cell |
| Placement.InitSchedule | src/utils/timetableGenerator.ts:63-69 | the `forEach` push loop builds `EmptySchedule`: one row per day, labelled with that day, each row with one empty cell per class slot; it has no occupied cells and no lab cells |
| Placement.Free | src/utils/timetableGenerator.ts:95-96 | a cell is free only if it exists in the row (and holds `null`) |
| Placement.Admissible | src/utils/timetableGenerator.ts:92-126 | the checks of one trial. An admissible trial has a free cell, and for a lab also a free next cell with s+1 below the number of class slots |
| Placement.VarietyWhileEarly | src/utils/timetableGenerator.ts:98-126 | while the attempt counter is at most 30, a lab goes only to a day without that teacher, and any other session only to a day where the teacher has fewer than two cells |
| Placement.HardRulesOnlyWhenLate | src/utils/timetableGenerator.ts:94-126 | from attempt 31 on, a trial succeeds exactly when its cell (for a lab: its two adjacent cells, with s < slots-1) is empty |
| Placement.Place | src/utils/timetableGenerator.ts:105-113 | the cells a successful trial writes; the row keeps its length |
| Placement.PlaceWritesOnlyFreeCells | src/utils/timetableGenerator.ts:92-131 | a successful trial keeps the row length and never changes an occupied cell. It writes only slot s, and for a lab also slot s+1. Each written cell is the session with the id of its own slot; the lab's second cell also gets the " (Cont.)" course. All other fields are copied unchanged |
| Placement.PlaceCount | src/utils/timetableGenerator.ts:105-130 | a placement raises any cell count by exactly the written cells that it counts |
| Placement.PlaceOnDay | src/utils/timetableGenerator.ts:105-130 | a placement on day d: the grid keeps its length, day d keeps its label and length, and every other day is unchanged |
| Placement.PlaceRowCounts | src/utils/timetableGenerator.ts:105-130 | on one row, a placement keeps the length, adds as many occupied cells as the session's width (1, or 2 for a lab), and adds lab cells by the same amount exactly for a "LAB" session |
| Placement.PlaceOnDayKeepsShape | src/utils/timetableGenerator.ts:105-130 | a placement keeps one row per day, labelled with that day, each row one cell per class slot |
| Placement.PlaceOnDayCounts | src/utils/timetableGenerator.ts:105-130 | a placement adds as many occupied cells to the grid as the session's width, and adds lab cells only for a "LAB" session |
| Placement.PlaceOnDayKeepsIds | src/utils/timetableGenerator.ts:105-130 | after a placement every occupied cell still carries the id of its own day and slot |
| Placement.TrialDay | src/utils/timetableGenerator.ts:87 | the day drawn by a trial is one of the first five rows |
| Placement.TrialSlot | src/utils/timetableGenerator.ts:88 | the slot drawn by a trial is below the number of class slots when there is one, and 0 when there is none |
| Placement.Trial | src/utils/timetableGenerator.ts:92-134 | one pass of the loop body succeeds exactly when the drawn cell passes the checks of `Admissible`; then the grid is the old grid with the session placed there, and otherwise it is unchanged |
| Placement.TrialsFrom | src/utils/timetableGenerator.ts:86-135 | the trials t, t+1, ..., 50 of one session as a value: the first admissible trial places it, and otherwise the grid is kept; the grid keeps its number of rows |
| Placement.TrialsFromFirstSuccess | src/utils/timetableGenerator.ts:82-135 | one session gets between 1 and 50 trials. Every trial before the last fails. If the last succeeds, the grid is exactly the old grid with the session placed at that trial's day and slot, so a lab writes both cells or neither. If all 50 fail, the grid is unchanged |
| Placement.TrialsFromPlacement | src/utils/timetableGenerator.ts:82-135 | the grid the trials leave is either the placement made by an admissible trial or the unchanged grid |
| Placement.PlaceSession | src/utils/timetableGenerator.ts:82-135 | the `while` loop over the trials ends with the grid, the flag and the attempt count of the trials 1 to 50 as `TrialsFrom` defines them, reading two draws per trial |
| Placement.SessionTrialsPlacesOrKeeps | src/utils/timetableGenerator.ts:82-135 | the trials of one session either leave the grid unchanged or place the session where the hard rules allow |
| Placement.SessionTrials | src/utils/timetableGenerator.ts:82-135 | one session's turn: trials 1 to 50 through `TrialsFrom`, two draws per trial from the cursor it is given. Its branch for a grid of fewer than five rows is never reached, because the grid keeps its five or more rows all along the run (SessionRunShape) |
| Placement.TurnStep | src/utils/timetableGenerator.ts:81-135 | one session's turn keeps the grid's shape and its ids, changes no occupied cell, grows the occupied cells by the session's width when it is placed (the lab cells likewise for a "LAB" session), and places a lab only with at least two class slots |
| Placement.PlaceOnDayCellsFrom | src/utils/timetableGenerator.ts:105-130 | after a placement, every occupied cell holds a session placed before or the new one, written as a placement at that cell writes it, a lab's first half always followed by its " (Cont.)" half |
| Placement.PlaceOnDayShows | src/utils/timetableGenerator.ts:105-130 | after a placement, every session placed before and the new one is on the grid, a lab with its " (Cont.)" half in the next cell |
| Placement.PlaceOnDayContents | src/utils/timetableGenerator.ts:105-130 | a placement keeps the content invariant with the new session added to the placed ones |
| Placement.TurnContents | src/utils/timetableGenerator.ts:81-135 | one session's turn keeps the content invariant, with the session added to the placed ones exactly when it was placed |
| Placement.KeptContents | src/utils/timetableGenerator.ts:81-136 | sessions on cells that stay as they were remain on the grid |
| Placement.KeptHolds | src/utils/timetableGenerator.ts:81-136 | an occupied cell that stays as it was keeps holding the session it held |
| Placement.PlaceEach | src/utils/timetableGenerator.ts:81-136 | the `forEach` as a value: the first k sessions of the order each take their turn on the grid the one before left; a session joins the placed list exactly when its turn places it, so at most k are placed, and the draw cursor only moves forward, by two per trial |
| Placement.PlaceEachContents | src/utils/timetableGenerator.ts:81-136 | from an empty grid, every occupied cell holds a placed session, stamped with that cell's id (a lab with its " (Cont.)" half in the next cell) or as the " (Cont.)" half right after its first half, and every placed session is on the grid |
| Placement.PlaceEachPlacesFromOrder | src/utils/timetableGenerator.ts:81 | the placed sessions are a sub-multiset of the order, so no session is placed more often than it occurs |
| Placement.PlacedFromPool | src/utils/timetableGenerator.ts:72-81 | over a reordering of the pool, no pool session is placed more often than the pool holds it |
| Placement.PlaceEachKeepsOccupied | src/utils/timetableGenerator.ts:81-136 | along the `forEach` no occupied cell is ever changed, so no cell is written twice, and the grid keeps its shape |
| Placement.PlaceEachKeepsShape | src/utils/timetableGenerator.ts:81-136 | along the `forEach` the grid keeps one row per day and one cell per class slot |
| Placement.PlaceEachKeepsIds | src/utils/timetableGenerator.ts:81-136 | along the `forEach` every occupied cell keeps the id of its own position |
| Placement.PlaceEachCounts | src/utils/timetableGenerator.ts:81-136 | the occupied cells grow by exactly the footprint of the placed sessions, the lab cells by two per placed lab, and no lab is placed with fewer than two class slots |
| Placement.PlaceEachFromEmpty | src/utils/timetableGenerator.ts:81-136 | from an empty grid the occupied cells are exactly the footprint of the placed sessions, the lab cells come in pairs, and there are none with fewer than two class slots |
| Placement.SessionRunFromEmpty | src/utils/timetableGenerator.ts:81-136 | the facts of `PlaceEachFromEmpty` and `PlaceEachContents` for the trials of `generateTimetable` |
| Placement.PlaceAll | src/utils/timetableGenerator.ts:81-136 | the `forEach` over the shuffled order ends with the grid, the placed sessions and the next draw that `PlaceEach` defines. The grid keeps its shape and ids, every cell holds a placed session as its placement writes it (a lab's first half always followed by its " (Cont.)" half), every placed session is on the grid, the occupied cells are exactly their footprint, and the lab cells are even in number and absent with fewer than two class slots |
| Placement.ShuffledPoolKeepsLabLink | src/utils/timetableGenerator.ts:14-40 | in any reordering of the pool, a session is double-slot exactly when its type is "LAB" |
| Placement.GenerateTimetable | src/utils/timetableGenerator.ts:3-139 | the result is the `PlaceEach` run over the shuffled pool (`Shuffled(pool, random, 0)`) on the empty grid, reading the draws left after the shuffle. It has one row per day with one cell per class slot, and every cell's id names its own day and slot. Every occupied cell holds a placed session, and every placed session is on the grid. A lab always fills two adjacent cells: no first half is without its " (Cont.)" half and no " (Cont.)" half without its first half. The occupied cells are exactly the footprint of the placed sessions, and no pool session is placed more often than the pool holds it. The number of lab cells is even, and zero with fewer than two class slots |
| Placement.FreeAsWritten | src/utils/timetableGenerator.ts:119 | the test of line 119 as JavaScript evaluates it holds for a free cell and also for every index past the end of the row |
| Placement.StoreAsWritten | src/utils/timetableGenerator.ts:127 | a JavaScript store at the index just past the end of a row appends a cell |
| Placement.SingleTrialAsWritten | src/utils/timetableGenerator.ts:119-131 | a single-slot trial as written can lengthen its row by one cell |
| Placement.AsWrittenAgreesInsideRow | src/utils/timetableGenerator.ts:119-131 | inside the row, the trial as written and the model's trial give the same row |
| Placement.EmptyGeometryGrowsRow | src/utils/timetableGenerator.ts:119-131 | with no class slots the slot draw is 0. The trial as written then turns an empty row into a one-cell row, and the model's trial rejects it |
| Presentation.FormatTimeSlot | src/utils/timetableGenerator.ts:141-148 | the label is empty exactly when the index is past the last class slot. Otherwise it is that slot's start time, " - ", then its end time |
| Presentation.SlotColor | src/utils/timetableGenerator.ts:150-158 | `getSlotColor` gives a cell style, and it is gray exactly for a type other than TH, LAB, LIBRARY and PROJECT |
| Presentation.TypeColor | src/utils/timetableGenerator.ts:160-167 | `getTypeColor` gives a badge style, and it is gray exactly for a type other than TH, LAB, LIBRARY and PROJECT |
| Presentation.ColorsDistinguishKinds | src/utils/timetableGenerator.ts:150-167 | a cell and its badge share a hue, and two different known types never get the same colour in either map |
| Presentation.EveryCellHasTimeLabel | src/utils/timetableGenerator.ts:141-148 | every cell of a generated grid has a non-empty time label |

## Left out

- The `branch` and `division` parameters of `generateTimetable` are not modelled, because the source never reads them.
- The data module `@/data/timetableData` is not part of this model. The roster, the time slots, the day labels and the room pools are parameters. The `TimetableSlot` record is modelled with the fields the object literals set.
- `Math.random()` is modelled as an arbitrary stream of values in [0, 1). Uniformity of the draws and of the shuffle is not modelled. Neither are statistical claims about how often the variety preference holds.
- `Math.random()` values and the rounding of `Math.floor(Math.random() * m)` are modelled as exact reals rather than IEEE doubles. The proved draw ranges, `0 <= k < m` for `m > 0`, hold for doubles as well, because a double in [0, 1) times a small integer `m` rounds to a value below `m`.
- `toLowerCase` is modelled for ASCII letters only. Day labels with other upper-case letters are not folded.
- The grid rows are modelled as values that are reassigned, not as JavaScript arrays updated in place. No row array is shared in the source, so aliasing is not an issue. The shuffle keeps its array.
- The colour maps return tokens, a hue plus the map that produced it, instead of the Tailwind class strings.
- Placement.GenerateTimetable: requires at least five day labels. Line 87 draws a day in [0, 5), and with fewer rows `schedule[randomDay].slots` would throw. Rows past the fifth are created but never filled.
- Presentation.FormatTimeSlot: takes a natural-number index. A negative or fractional index makes `classSlots[slotIndex]` undefined, and reading its `startTime` throws.
- Placement.GenerateTimetable: `placedSessions` is a ghost output, fixed by the `PlaceEach` run; the source returns only the grid.
- Placement.Free: a cell past the end of a row counts as occupied, not as free as in line 119. This is the correction in Findings. With at least one class slot every drawn slot is inside the row, so the model matches the source.
- The statement that the same draws give the same grid is not stated as a lemma. The draws are an explicit input of every member, so this holds by construction.
- `src/pages/TimetableGenerator.tsx`, `src/pages/TimetableView.tsx` and `src/pages/StudentDashboard.tsx` are presentation code and are not modelled. The view's "Lab Sessions" statistic divides the LAB cell count by 2. That division is exact because of the even lab-cell count in Placement.GenerateTimetable.
- Two cases one might expect to be configuration errors follow the code:
  - With an empty room pool the room is `undefined`. It is not a configuration error.
  - With a single class slot, single-slot sessions are still placed.

## Findings

| source | as written | input that shows it | evidently intended | confidence | as-written member | corrected member |
|---|---|---|---|---|---|---|
| src/utils/timetableGenerator.ts:119 | `!schedule[randomDay].slots[randomSlot]` is also true past the end of the row, and the store at line 127 then appends a cell | time slots with no entry of type "class": every row is empty and every slot draw is 0, so the first single-slot trial on a day stores at index 0 and the row grows to one cell with no time slot | a session goes only into an existing empty cell, so with no class slots nothing is placed and every row keeps one cell per class slot | not executed; follows from JavaScript array semantics | Placement.SingleTrialAsWritten (shown by Placement.EmptyGeometryGrowsRow) | Placement.Free, used by Placement.Admissible; the kept shape is proved in Placement.GenerateTimetable |
