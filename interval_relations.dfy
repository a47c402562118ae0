/** The interval relation calculator: two integer intervals a = [aStart, aEnd] and
    b = [bStart, bEnd] are compared by the signs of four endpoint differences, and the
    resulting sign tuple is looked up in one of two fixed tables of Allen's interval
    relations (common/itbn_cnn_model_validator.py:47-84). */
module IntervalRelations {

  /** The sign of an endpoint difference. */
  type Sign = s: int | -1 <= s <= 1

  function SignOf(x: int): Sign
  {
    if x < 0 then -1 else if x == 0 then 0 else 1
  }

  /** (sign(bStart - aStart), sign(bEnd - aEnd), sign(bStart - aEnd), sign(bEnd - aStart)) */
  datatype SignTuple = SignTuple(s1: Sign, s2: Sign, s3: Sign, s4: Sign)

  function Signs(aStart: int, aEnd: int, bStart: int, bEnd: int): SignTuple
  {
    SignTuple(SignOf(bStart - aStart), SignOf(bEnd - aEnd), SignOf(bStart - aEnd), SignOf(bEnd - aStart))
  }

  /** The reduced table: the nine relations in which the two intervals share more than an endpoint. */
  const WindowIntervalRelationMap: map<SignTuple, string> := map[
    SignTuple(1, -1, -1, 1) := "DURING",
    SignTuple(-1, 1, -1, 1) := "DURING_INV",
    SignTuple(-1, -1, -1, 1) := "OVERLAPS",
    SignTuple(1, 1, -1, 1) := "OVERLAPS_INV",
    SignTuple(0, -1, -1, 1) := "STARTS",
    SignTuple(0, 1, -1, 1) := "STARTS_INV",
    SignTuple(1, 0, -1, 1) := "FINISHES",
    SignTuple(-1, 0, -1, 1) := "FINISHES_INV",
    SignTuple(0, 0, -1, 1) := "EQUAL"
  ]

  /** The extended table: all thirteen Allen relations, numbered 1 to 13. */
  const EventIntervalRelationMap: map<SignTuple, int> := map[
    SignTuple(-1, -1, -1, -1) := 1,
    SignTuple(1, 1, 1, 1) := 2,
    SignTuple(-1, -1, -1, 0) := 3,
    SignTuple(1, 1, 0, 1) := 4,
    SignTuple(-1, -1, -1, 1) := 5,
    SignTuple(1, 1, -1, 1) := 6,
    SignTuple(1, -1, -1, 1) := 7,
    SignTuple(-1, 1, -1, 1) := 8,
    SignTuple(0, -1, -1, 1) := 9,
    SignTuple(0, 1, -1, 1) := 10,
    SignTuple(1, 0, -1, 1) := 11,
    SignTuple(-1, 0, -1, 1) := 12,
    SignTuple(0, 0, -1, 1) := 13
  ]

  /** calculate_relationship with reduced_set=True: a label, or "" for an untabled tuple.
      A label is returned exactly when the two intervals properly overlap. */
  function WindowRelation(aStart: int, aEnd: int, bStart: int, bEnd: int): (name: string)
    ensures name == "" <==> Signs(aStart, aEnd, bStart, bEnd) !in WindowIntervalRelationMap
    ensures name != "" <==> bStart < aEnd && aStart < bEnd
  {
    var t := Signs(aStart, aEnd, bStart, bEnd);
    assert t == SignTuple(t.s1, t.s2, t.s3, t.s4);
    if t in WindowIntervalRelationMap then WindowIntervalRelationMap[t] else ""
  }

  /** calculate_relationship with reduced_set=False: a relation number, or 0 for an untabled tuple. */
  function EventRelation(aStart: int, aEnd: int, bStart: int, bEnd: int): (code: int)
    ensures 0 <= code <= 13
    ensures code == 0 <==> Signs(aStart, aEnd, bStart, bEnd) !in EventIntervalRelationMap
  {
    var t := Signs(aStart, aEnd, bStart, bEnd);
    if t in EventIntervalRelationMap then EventIntervalRelationMap[t] else 0
  }

  /** Allen's thirteen relations, read as "b r a". */
  datatype Allen =
    | Before | After | Meets | MetBy | Overlaps | OverlappedBy | During | Contains
    | Starts | StartedBy | Finishes | FinishedBy | Equals

  /** Allen's definition of each relation on the endpoints, independent of the tables. */
  predicate Holds(r: Allen, aStart: int, aEnd: int, bStart: int, bEnd: int)
  {
    match r
    case Before => bEnd < aStart
    case After => aEnd < bStart
    case Meets => bEnd == aStart
    case MetBy => aEnd == bStart
    case Overlaps => bStart < aStart < bEnd < aEnd
    case OverlappedBy => aStart < bStart < aEnd < bEnd
    case During => aStart < bStart && bEnd < aEnd
    case Contains => bStart < aStart && aEnd < bEnd
    case Starts => bStart == aStart && bEnd < aEnd
    case StartedBy => bStart == aStart && aEnd < bEnd
    case Finishes => bEnd == aEnd && aStart < bStart
    case FinishedBy => bEnd == aEnd && bStart < aStart
    case Equals => bStart == aStart && bEnd == aEnd
  }

  /** The number the extended table gives each relation. */
  function Code(r: Allen): int
  {
    match r
    case Before => 1
    case After => 2
    case Meets => 3
    case MetBy => 4
    case Overlaps => 5
    case OverlappedBy => 6
    case During => 7
    case Contains => 8
    case Starts => 9
    case StartedBy => 10
    case Finishes => 11
    case FinishedBy => 12
    case Equals => 13
  }

  /** The label the reduced table gives the relations numbered 5 to 13. */
  function ReducedLabel(code: int): string
  {
    match code
    case 5 => "OVERLAPS"
    case 6 => "OVERLAPS_INV"
    case 7 => "DURING"
    case 8 => "DURING_INV"
    case 9 => "STARTS"
    case 10 => "STARTS_INV"
    case 11 => "FINISHES"
    case 12 => "FINISHES_INV"
    case 13 => "EQUAL"
    case _ => ""
  }

  /** The Allen inverse on relation numbers; 0 and 13 are fixed. */
  function InverseCode(code: int): int
  {
    if 1 <= code <= 12 then (if code % 2 == 1 then code + 1 else code - 1) else code
  }

  /** The Allen inverse on reduced labels; "" and EQUAL are fixed. */
  function InverseLabel(name: string): string
  {
    match name
    case "DURING" => "DURING_INV"
    case "DURING_INV" => "DURING"
    case "OVERLAPS" => "OVERLAPS_INV"
    case "OVERLAPS_INV" => "OVERLAPS"
    case "STARTS" => "STARTS_INV"
    case "STARTS_INV" => "STARTS"
    case "FINISHES" => "FINISHES_INV"
    case "FINISHES_INV" => "FINISHES"
    case _ => name
  }

  /** Swapping the intervals negates the first two signs and swaps and negates the last two. */
  lemma SwappedSigns(aStart: int, aEnd: int, bStart: int, bEnd: int)
    ensures var t := Signs(aStart, aEnd, bStart, bEnd);
            Signs(bStart, bEnd, aStart, aEnd) == SignTuple(-t.s1, -t.s2, -t.s4, -t.s3)
  {
  }

  /** For proper intervals the extended table agrees with Allen's definitions:
      the number returned is the number of the relation that holds, and no other holds. */
  lemma {:induction false} EventRelationIsAllen(aStart: int, aEnd: int, bStart: int, bEnd: int, r: Allen)
    requires aStart < aEnd && bStart < bEnd
    ensures Holds(r, aStart, aEnd, bStart, bEnd) <==> EventRelation(aStart, aEnd, bStart, bEnd) == Code(r)
  {
    var t := Signs(aStart, aEnd, bStart, bEnd);
    assert t == SignTuple(t.s1, t.s2, t.s3, t.s4);
  }

  /** For proper intervals the extended result is never the sentinel 0. */
  lemma {:induction false} ProperIntervalsAlwaysRelated(aStart: int, aEnd: int, bStart: int, bEnd: int)
    requires aStart < aEnd && bStart < bEnd
    ensures 1 <= EventRelation(aStart, aEnd, bStart, bEnd) <= 13
  {
    var r :=
      if bEnd < aStart then Before
      else if aEnd < bStart then After
      else if bEnd == aStart then Meets
      else if aEnd == bStart then MetBy
      else if bStart < aStart && bEnd < aEnd then Overlaps
      else if aStart < bStart && aEnd < bEnd then OverlappedBy
      else if aStart < bStart && bEnd < aEnd then During
      else if bStart < aStart && aEnd < bEnd then Contains
      else if bStart == aStart && bEnd < aEnd then Starts
      else if bStart == aStart && aEnd < bEnd then StartedBy
      else if bEnd == aEnd && aStart < bStart then Finishes
      else if bEnd == aEnd && bStart < aStart then FinishedBy
      else Equals;
    assert Holds(r, aStart, aEnd, bStart, bEnd);
    EventRelationIsAllen(aStart, aEnd, bStart, bEnd, r);
  }

  /** The two tables agree: the reduced table holds exactly the tuples numbered 5 to 13 in the
      extended one, under the matching label; every other tuple gives "" in reduced mode. */
  lemma {:induction false} ReducedAgreesWithExtended(aStart: int, aEnd: int, bStart: int, bEnd: int)
    ensures var code := EventRelation(aStart, aEnd, bStart, bEnd);
            WindowRelation(aStart, aEnd, bStart, bEnd) == if 5 <= code then ReducedLabel(code) else ""
  {
    var t := Signs(aStart, aEnd, bStart, bEnd);
    assert t == SignTuple(t.s1, t.s2, t.s3, t.s4);
  }

  /** Swapping the two intervals gives the Allen inverse in extended mode, for all integers. */
  lemma {:induction false} EventRelationSwap(aStart: int, aEnd: int, bStart: int, bEnd: int)
    ensures EventRelation(bStart, bEnd, aStart, aEnd) == InverseCode(EventRelation(aStart, aEnd, bStart, bEnd))
  {
    SwappedSigns(aStart, aEnd, bStart, bEnd);
    var t := Signs(aStart, aEnd, bStart, bEnd);
    assert t == SignTuple(t.s1, t.s2, t.s3, t.s4);
  }

  /** Swapping the two intervals gives the Allen inverse in reduced mode, for all integers. */
  lemma {:induction false} WindowRelationSwap(aStart: int, aEnd: int, bStart: int, bEnd: int)
    ensures WindowRelation(bStart, bEnd, aStart, aEnd) == InverseLabel(WindowRelation(aStart, aEnd, bStart, bEnd))
  {
    SwappedSigns(aStart, aEnd, bStart, bEnd);
    var t := Signs(aStart, aEnd, bStart, bEnd);
    assert t == SignTuple(t.s1, t.s2, t.s3, t.s4);
  }
}
