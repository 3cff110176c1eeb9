/** The pure helpers beside the generator: the time label of a slot index and
    the two colour maps over a session kind. The colour strings are styling
    classes; the model keeps only which hue each kind gets and which of the
    two maps produced it. */
module Presentation {
  import opened TimetableModel
  import Placement

  /** `formatTimeSlot(slotIndex)`: "start - end" of the class slot at that
      index, or the empty string past the last class slot. */
  function FormatTimeSlot(timeSlots: seq<TimeSlot>, slotIndex: nat): (r: string)
    ensures r == "" <==> slotIndex >= |ClassSlots(timeSlots)|
    ensures slotIndex < |ClassSlots(timeSlots)| ==>
      var slot := ClassSlots(timeSlots)[slotIndex];
      && |r| == |slot.startTime| + 3 + |slot.endTime|
      && r[..|slot.startTime|] == slot.startTime
      && r[|slot.startTime|..|slot.startTime| + 3] == " - "
      && r[|slot.startTime| + 3..] == slot.endTime
  {
    var classSlots := ClassSlots(timeSlots);
    if slotIndex < |classSlots| then
      var slot := classSlots[slotIndex];
      slot.startTime + " - " + slot.endTime
    else
      ""
  }

  /** The colour families of the two maps. */
  datatype Hue = Blue | Green | Purple | Orange | Gray

  /** `CellStyle` stands for a `getSlotColor` class string, `BadgeStyle` for a
      `getTypeColor` one. */
  datatype Style = CellStyle(hue: Hue) | BadgeStyle(hue: Hue)

  predicate IsKnownKind(kind: string) {
    kind == "TH" || kind == "LAB" || kind == "LIBRARY" || kind == "PROJECT"
  }

  /** `getSlotColor(type)`: a cell style, gray exactly for an unknown kind. */
  function SlotColor(kind: string): (r: Style)
    ensures r.CellStyle?
    ensures r.hue == Gray <==> !IsKnownKind(kind)
  {
    match kind
    case "TH" => CellStyle(Blue)
    case "LAB" => CellStyle(Green)
    case "LIBRARY" => CellStyle(Purple)
    case "PROJECT" => CellStyle(Orange)
    case _ => CellStyle(Gray)
  }

  /** `getTypeColor(type)`: a badge style, gray exactly for an unknown kind. */
  function TypeColor(kind: string): (r: Style)
    ensures r.BadgeStyle?
    ensures r.hue == Gray <==> !IsKnownKind(kind)
  {
    match kind
    case "TH" => BadgeStyle(Blue)
    case "LAB" => BadgeStyle(Green)
    case "LIBRARY" => BadgeStyle(Purple)
    case "PROJECT" => BadgeStyle(Orange)
    case _ => BadgeStyle(Gray)
  }

  /** A cell and its badge share a hue, and different known kinds never share one. */
  lemma ColorsDistinguishKinds(k1: string, k2: string)
    ensures SlotColor(k1).hue == TypeColor(k1).hue
    ensures IsKnownKind(k1) && IsKnownKind(k2) && k1 != k2 ==>
      SlotColor(k1) != SlotColor(k2) && TypeColor(k1) != TypeColor(k2)
  {
  }

  /** Every cell of a grid built over the same time slots has a time label. */
  lemma EveryCellHasTimeLabel(timeSlots: seq<TimeSlot>, schedule: seq<DaySchedule>, days: seq<string>, d: nat, s: nat)
    requires Placement.HasShape(schedule, days, |ClassSlots(timeSlots)|)
    requires d < |schedule| && s < |schedule[d].slots|
    ensures FormatTimeSlot(timeSlots, s) != ""
  {
  }
}
