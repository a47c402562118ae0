/** The values a session of the validator works on (common/itbn_cnn_model_validator.py:260-383)
    and the pieces of one query round. It holds the session row (a flag, an observation
    and the pair relations per event), the robot and human observations combined from the
    two modalities' selected classes, the relation dictionary window_rels, the query and
    commit steps over the pending list, and the window schedules and confusion counts the
    frame loop in FrameLoop scores into. In a query round, each pending event is put to
    the temporal model, whose predict and relation map are parameters. */
module EventInference {
  import opened IntervalRelations
  import opened WindowLabeler

  const AudFrameSize: nat := 20
  const AudStride: nat := 7
  const OptFrameSize: nat := 45
  const OptStride: nat := 20
  /** Start of the placeholder interval used for an event not yet confirmed. */
  const FarFrame: int := 10000

  /** A classifier output or ground-truth class: 0 silence, 1 robot, 2 human. */
  type Class = c: int | 0 <= c <= 2

  datatype Event = Abort | Command | Prompt | Response | Reward

  /** The event columns in table order, which is also the initial pending list. */
  const Events: seq<Event> := [Abort, Command, Prompt, Response, Reward]
  const StartEvent: Event := Command

  predicate IsTerminal(e: Event)
  {
    e == Abort || e == Reward
  }

  /** obs_response is the only column filled from the human observation. */
  predicate HumanObserved(e: Event)
  {
    e == Response
  }

  function Name(e: Event): string
  {
    match e
    case Abort => "abort"
    case Command => "command"
    case Prompt => "prompt"
    case Response => "response"
    case Reward => "reward"
  }

  /** A pair whose temporal relation is a column of the session table (tm_<first>_<second>). */
  datatype Pair = Pair(first: Event, second: Event)

  const TrackedPairs: seq<Pair> := [
    Pair(Command, Prompt), Pair(Command, Response), Pair(Prompt, Abort),
    Pair(Prompt, Response), Pair(Response, Reward)
  ]

  datatype Interval = Interval(start: int, end: int)

  /** One row of the session table: a confirmation flag ('Y' is true) and an observation
      per event, and a relation number per tracked pair. A query row lacks the flag of
      the event it asks about. */
  datatype Row = Row(confirmed: map<Event, bool>, observed: map<Event, int>, relations: map<Pair, int>)

  ghost predicate WellFormed(r: Row)
  {
    (forall e: Event :: e in r.confirmed && e in r.observed)
    && (forall p :: p in r.relations <==> p in TrackedPairs)
  }

  /** The table a session starts from: nothing confirmed, nothing observed, no relations. */
  const InitialRow: Row := Row(
    map[Abort := false, Command := false, Prompt := false, Response := false, Reward := false],
    map[Abort := 0, Command := 0, Prompt := 0, Response := 0, Reward := 0],
    map[Pair(Command, Prompt) := 0, Pair(Command, Response) := 0, Pair(Prompt, Abort) := 0,
        Pair(Prompt, Response) := 0, Pair(Response, Reward) := 0])

  lemma InitialRowWellFormed()
    ensures WellFormed(InitialRow)
    ensures forall e: Event :: !InitialRow.confirmed[e] && InitialRow.observed[e] == 0
    ensures forall p :: p in TrackedPairs ==> InitialRow.relations[p] == 0
  {
    forall e: Event ensures e in InitialRow.confirmed && e in InitialRow.observed {
      match e
      case Abort =>
      case Command =>
      case Prompt =>
      case Response =>
      case Reward =>
    }
  }

  /** The columns of the session table in order. */
  datatype Column = Flag(event: Event) | Observation(event: Event) | RelationColumn(pair: Pair)

  const Columns: seq<Column> := [
    Flag(Abort), Flag(Command), Flag(Prompt), Flag(Response), Flag(Reward),
    Observation(Abort), Observation(Command), Observation(Prompt), Observation(Response), Observation(Reward),
    RelationColumn(Pair(Command, Prompt)), RelationColumn(Pair(Command, Response)), RelationColumn(Pair(Prompt, Abort)),
    RelationColumn(Pair(Prompt, Response)), RelationColumn(Pair(Response, Reward))
  ]

  /** The two Python values the membership tests of the query round compare: a string and
      a tuple of strings. `x in t` on a tuple asks whether x equals one of its items. */
  datatype PyValue = Str(s: string) | Tuple(items: seq<PyValue>)

  predicate PyIn(x: PyValue, container: PyValue)
  {
    container.Tuple? && x in container.items
  }

  /** The key of a pair in window_rels: the tuple of its two event names. */
  function PairKey(p: Pair): PyValue
  {
    Tuple([Str(Name(p.first)), Str(Name(p.second))])
  }

  /** The membership test that picks the relation columns to write for a confirmed event
      holds exactly for the pairs that contain the event. */
  lemma {:induction false} EventInPairKey(e: Event, p: Pair)
    ensures PyIn(Str(Name(e)), PairKey(p)) <==> e == p.first || e == p.second
  {
    assert Name(e) == Name(p.first) ==> e == p.first;
    assert Name(e) == Name(p.second) ==> e == p.second;
  }

  // ---------------------------------------------------------------------------
  // Windowing and confusion counting

  /** Windows 0 .. count-1 of a schedule have completed before frame `frames`, and window
      `count` has not: window k completes at frame stride * k + size. */
  predicate CompletedBy(count: nat, size: nat, stride: nat, frames: nat)
  {
    (count == 0 || stride * (count - 1) + size < frames) && frames <= stride * count + size
  }

  /** How often the (real, predicted) cell occurs in a log of scored windows. */
  function Count(log: seq<(Class, Class)>, truth: int, pred: int): nat
  {
    if log == [] then 0
    else Count(log[..|log| - 1], truth, pred) + (if log[|log| - 1] == (truth, pred) then 1 else 0)
  }

  /** The sum of the nine cell counts of a log. */
  function CountAll(log: seq<(Class, Class)>): nat
  {
    Count(log, 0, 0) + Count(log, 0, 1) + Count(log, 0, 2)
    + Count(log, 1, 0) + Count(log, 1, 1) + Count(log, 1, 2)
    + Count(log, 2, 0) + Count(log, 2, 1) + Count(log, 2, 2)
  }

  /** Every scored window lands in exactly one cell, so the cells add up to the log length. */
  lemma {:induction false} CountAllIsLength(log: seq<(Class, Class)>)
    ensures CountAll(log) == |log|
  {
    if log != [] {
      CountAllIsLength(log[..|log| - 1]);
    }
  }

  /** The matrix holds its cells at session start plus one count per logged window. */
  ghost predicate MatrixMatches(m: array2<nat>, base: seq<seq<nat>>, log: seq<(Class, Class)>)
    reads m
  {
    m.Length0 == 3 && m.Length1 == 3 && |base| == 3
    && (forall r :: 0 <= r < 3 ==> |base[r]| == 3)
    && (forall r, p :: 0 <= r < 3 && 0 <= p < 3 ==> m[r, p] == base[r][p] + Count(log, r, p))
  }

  /** A snapshot of a matrix's nine cells, row by row. */
  ghost function Cells(m: array2<nat>): (s: seq<seq<nat>>)
    requires m.Length0 == 3 && m.Length1 == 3
    reads m
  {
    [[m[0, 0], m[0, 1], m[0, 2]], [m[1, 0], m[1, 1], m[1, 2]], [m[2, 0], m[2, 1], m[2, 2]]]
  }

  /** The sum of a matrix's cells as recorded in a snapshot. */
  function SumCells(base: seq<seq<nat>>): nat
    requires |base| == 3 && forall r :: 0 <= r < 3 ==> |base[r]| == 3
  {
    base[0][0] + base[0][1] + base[0][2] + base[1][0] + base[1][1] + base[1][2] + base[2][0] + base[2][1] + base[2][2]
  }

  /** The number of windows a confusion matrix has counted: the sum of its cells. */
  ghost function MatrixTotal(m: array2<nat>): nat
    requires m.Length0 == 3 && m.Length1 == 3
    reads m
  {
    SumCells(Cells(m))
  }

  /** A matrix that matches a log of scored windows holds, in total, one more count per
      window than its snapshot. */
  lemma MatrixTotalCounts(m: array2<nat>, base: seq<seq<nat>>, log: seq<(Class, Class)>)
    requires MatrixMatches(m, base, log)
    ensures MatrixTotal(m) == SumCells(base) + |log|
  {
    CountAllIsLength(log);
  }

  // ---------------------------------------------------------------------------
  // Observation combination

  /** obs_robot: either modality's latest selected class is robot. */
  function ObsRobot(audSelected: Class, optSelected: Class): (obs: int)
    ensures obs == 0 || obs == 1
    ensures obs == 1 <==> audSelected == 1 || optSelected == 1
  {
    if optSelected == 1 || audSelected == 1 then 1 else 0
  }

  /** obs_human: either modality's latest selected class is human. */
  function ObsHuman(audSelected: Class, optSelected: Class): (obs: int)
    ensures obs == 0 || obs == 1
    ensures obs == 1 <==> audSelected == 2 || optSelected == 2
  {
    if optSelected == 2 || audSelected == 2 then 1 else 0
  }

  // ---------------------------------------------------------------------------
  // The query round, stated on values

  /** The observation columns of a round's window row. */
  function Observations(obsRobot: int, obsHuman: int): map<Event, int>
  {
    map e | e in Events :: if HumanObserved(e) then obsHuman else obsRobot
  }

  /** window_data: the session row with every observation column overwritten. */
  function WindowRow(sessionData: Row, obsRobot: int, obsHuman: int): Row
  {
    sessionData.(observed := Observations(obsRobot, obsHuman))
  }

  /** The interval a pair's relation is measured from: the confirmation window of its first
      event, or a placeholder far in the future while that event is unconfirmed. */
  function FirstEventTime(eventTimes: map<Event, Interval>, p: Pair): Interval
  {
    if p.first in eventTimes then eventTimes[p.first] else Interval(FarFrame, FarFrame + 1)
  }

  /** The relation a round records for a pair: the extended relation of the first event's
      interval to the current window, replaced by 0 when the model does not know it. */
  function PairRelation(eventTimes: map<Event, Interval>, wTime: Interval, relationMap: Pair -> set<int>, p: Pair): (rel: int)
    ensures rel == 0 || rel in relationMap(p)
    ensures var a := FirstEventTime(eventTimes, p);
            EventRelation(a.start, a.end, wTime.start, wTime.end) in relationMap(p) ==>
              rel == EventRelation(a.start, a.end, wTime.start, wTime.end)
    ensures var a := FirstEventTime(eventTimes, p);
            EventRelation(a.start, a.end, wTime.start, wTime.end) !in relationMap(p) ==> rel == 0
    ensures p.first !in eventTimes && wTime.start < FarFrame && wTime.end < FarFrame ==> rel == (if 1 in relationMap(p) then 1 else 0)
  {
    var a := FirstEventTime(eventTimes, p);
    var r := EventRelation(a.start, a.end, wTime.start, wTime.end);
    if r in relationMap(p) then r else 0
  }

  /** window_rels: the items of the round's relation dictionary, in column order. */
  function WindowRels(eventTimes: map<Event, Interval>, wTime: Interval, relationMap: Pair -> set<int>): (rels: seq<(Pair, int)>)
    ensures |rels| == |TrackedPairs|
  {
    seq(|TrackedPairs|, k requires 0 <= k < |TrackedPairs| => (TrackedPairs[k], PairRelation(eventTimes, wTime, relationMap, TrackedPairs[k])))
  }

  /** The row an event is queried with: the window row without the event's own flag. */
  function QueryRow(windowData: Row, e: Event): Row
  {
    windowData.(confirmed := windowData.confirmed - {e})
  }

  /** The events a round confirms, in pending order: those the model predicts 'Y' for when
      each is queried with the same window row. */
  function Confirmed(pending: seq<Event>, windowData: Row, predicts: (Row, Event) -> bool): (newPreds: seq<Event>)
    ensures forall e :: e in newPreds <==> e in pending && predicts(QueryRow(windowData, e), e)
    ensures |newPreds| <= |pending|
  {
    if pending == [] then []
    else
      var last := pending[|pending| - 1];
      Confirmed(pending[..|pending| - 1], windowData, predicts)
      + (if predicts(QueryRow(windowData, last), last) then [last] else [])
  }

  /** Querying one more pending event appends it to the round's list exactly on a 'Y'. */
  lemma ConfirmedStep(pending: seq<Event>, j: nat, windowData: Row, predicts: (Row, Event) -> bool)
    requires j < |pending|
    ensures Confirmed(pending[..j + 1], windowData, predicts) ==
      Confirmed(pending[..j], windowData, predicts)
      + (if predicts(QueryRow(windowData, pending[j]), pending[j]) then [pending[j]] else [])
  {
    assert pending[..j + 1][..j] == pending[..j];
  }

  /** event_times after a round: every confirmed event recorded at the window, every other
      entry kept. */
  function RecordTimes(eventTimes: map<Event, Interval>, newPreds: seq<Event>, w: Interval): map<Event, Interval>
  {
    map e | e in eventTimes.Keys + (set x | x in newPreds) :: if e in newPreds then w else eventTimes[e]
  }

  /** A round records exactly its confirmed events, all at the window, and keeps every
      other entry. */
  lemma RecordTimesPointwise(eventTimes: map<Event, Interval>, newPreds: seq<Event>, w: Interval)
    ensures forall e :: e in RecordTimes(eventTimes, newPreds, w) <==> e in eventTimes || e in newPreds
    ensures forall e :: e in RecordTimes(eventTimes, newPreds, w) ==>
              RecordTimes(eventTimes, newPreds, w)[e] == if e in newPreds then w else eventTimes[e]
  {
  }

  /** Recording one more confirmed event is one more dictionary assignment. */
  lemma RecordOneMore(eventTimes: map<Event, Interval>, newPreds: seq<Event>, e: Event, w: Interval)
    ensures RecordTimes(eventTimes, newPreds + [e], w) == RecordTimes(eventTimes, newPreds, w)[e := w]
  {
    assert forall x :: x in newPreds + [e] <==> x in newPreds || x == e;
  }

  /** The dictionary a list of items builds: a later item for a key overrides an earlier one. */
  function ItemsToMap(items: seq<(Pair, int)>): map<Pair, int>
  {
    if items == [] then map[]
    else ItemsToMap(items[..|items| - 1])[items[|items| - 1].0 := items[|items| - 1].1]
  }

  /** session_data[event][0] = 'Y': the row with the event's flag set. */
  function Flagged(row: Row, e: Event): Row
  {
    row.(confirmed := row.confirmed[e := true])
  }

  /** The row after the relation columns of one confirmed event are written: the column
      of every pair that contains the event takes the pair's value in the round's
      dictionary, and every other column is kept. */
  function Written(row: Row, e: Event, windowRels: seq<(Pair, int)>): Row
  {
    row.(relations := map p | p in row.relations ::
      if (p.first == e || p.second == e) && p in ItemsToMap(windowRels) then ItemsToMap(windowRels)[p] else row.relations[p])
  }

  /** The session row after a round commits: the new events flagged, and the relation
      column of every pair that contains a new event set from the round's relations. */
  function Committed(sessionData: Row, newPreds: seq<Event>, windowRels: seq<(Pair, int)>): Row
  {
    Row(map e | e in sessionData.confirmed :: sessionData.confirmed[e] || e in newPreds,
        sessionData.observed,
        map p | p in sessionData.relations ::
          if (p.first in newPreds || p.second in newPreds) && p in ItemsToMap(windowRels)
          then ItemsToMap(windowRels)[p] else sessionData.relations[p])
  }

  // ---------------------------------------------------------------------------
  // The pending list

  predicate NoDuplicates(s: seq<Event>)
  {
    forall i, j :: 0 <= i < j < |s| ==> s[i] != s[j]
  }

  /** The events of s appear in the order of the table's event columns, each once. */
  predicate InTableOrder(s: seq<Event>)
  {
    forall i, j :: 0 <= i < j < |s| ==> EventIndex(s[i]) < EventIndex(s[j])
  }

  /** list.remove: the list without the first occurrence of x. */
  function RemoveFirst(s: seq<Event>, x: Event): (r: seq<Event>)
    requires x in s
    ensures |r| == |s| - 1
    ensures forall e :: e in r ==> e in s
  {
    if s[0] == x then s[1..] else [s[0]] + RemoveFirst(s[1..], x)
  }

  /** Removing an event from a list in table order removes exactly that event and keeps the
      rest in table order. */
  lemma {:induction false} RemoveFirstKeepsOrder(s: seq<Event>, x: Event)
    requires InTableOrder(s) && x in s
    ensures InTableOrder(RemoveFirst(s, x))
    ensures forall e :: e in RemoveFirst(s, x) <==> e in s && e != x
  {
    TailInTableOrder(s);
    if s[0] != x {
      RemoveFirstKeepsOrder(s[1..], x);
      ConsInTableOrder(s[0], RemoveFirst(s[1..], x));
    }
  }

  /** The tail of a list in table order is in table order and follows its head. */
  lemma TailInTableOrder(s: seq<Event>)
    requires InTableOrder(s) && s != []
    ensures InTableOrder(s[1..])
    ensures forall e :: e in s[1..] ==> EventIndex(s[0]) < EventIndex(e)
    ensures s == [s[0]] + s[1..]
  {
    var rest := s[1..];
    forall i, j | 0 <= i < j < |rest| ensures EventIndex(rest[i]) < EventIndex(rest[j]) {
      assert rest[i] == s[i + 1] && rest[j] == s[j + 1];
    }
    forall e | e in rest ensures EventIndex(s[0]) < EventIndex(e) {
      var m :| 0 <= m < |rest| && rest[m] == e;
      assert s[m + 1] == e;
    }
  }

  /** An event put before a list in table order whose events all follow it. */
  lemma ConsInTableOrder(x: Event, t: seq<Event>)
    requires InTableOrder(t) && forall e :: e in t ==> EventIndex(x) < EventIndex(e)
    ensures InTableOrder([x] + t)
  {
    var r := [x] + t;
    forall i, j | 0 <= i < j < |r| ensures EventIndex(r[i]) < EventIndex(r[j]) {
      assert r[j] == t[j - 1];
      if i > 0 {
        assert r[i] == t[i - 1];
      }
    }
  }

  /** Every event, in table order. */
  lemma EventsInTableOrder()
    ensures InTableOrder(Events)
    ensures forall e: Event :: e in Events
  {
    forall e: Event ensures e in Events {
      assert Events[EventIndex(e)] == e;
    }
  }

  /** A round confirms pending events in the pending list's order. */
  lemma {:induction false} ConfirmedKeepsOrder(pending: seq<Event>, windowData: Row, predicts: (Row, Event) -> bool)
    requires InTableOrder(pending)
    ensures InTableOrder(Confirmed(pending, windowData, predicts))
  {
    if pending != [] {
      var init := pending[..|pending| - 1];
      var last := pending[|pending| - 1];
      assert InTableOrder(init);
      ConfirmedKeepsOrder(init, windowData, predicts);
      var c := Confirmed(init, windowData, predicts);
      forall k | 0 <= k < |c| ensures EventIndex(c[k]) < EventIndex(last) {
        assert c[k] in init;
        var m :| 0 <= m < |init| && init[m] == c[k];
        assert pending[m] == c[k];
      }
    }
  }

  /** A list in table order holds no event twice. */
  lemma TableOrderNoDuplicates(s: seq<Event>)
    requires InTableOrder(s)
    ensures NoDuplicates(s)
  {
  }

  // ---------------------------------------------------------------------------
  // The table's columns


  /** The position of an event in the table's event columns. */
  function EventIndex(e: Event): (k: nat)
    ensures k < |Events| && Events[k] == e
  {
    match e
    case Abort => 0
    case Command => 1
    case Prompt => 2
    case Response => 3
    case Reward => 4
  }

  /** The table's columns: five flags, then the five observations in event order, then the
      five relations in pair order. */
  lemma ColumnsLayout(k: nat)
    requires k < |Columns|
    ensures k < 5 ==> Columns[k].Flag?
    ensures 5 <= k < 10 ==> Columns[k] == Observation(Events[k - 5]) && EventIndex(Events[k - 5]) == k - 5
    ensures 10 <= k ==> Columns[k] == RelationColumn(TrackedPairs[k - 10])
  {
  }

  // ---------------------------------------------------------------------------
  // The loops of a query round

  /** The column loop (:345-357): fills every observation column of the window row and
      records the relation of every tracked pair, in column order. */
  method PrepareWindow(sessionData: Row, obsRobot: int, obsHuman: int, eventTimes: map<Event, Interval>,
                       wTime: Interval, relationMap: Pair -> set<int>)
    returns (windowData: Row, windowRels: seq<(Pair, int)>)
    requires WellFormed(sessionData)
    ensures windowData == WindowRow(sessionData, obsRobot, obsHuman)
    ensures windowRels == WindowRels(eventTimes, wTime, relationMap)
  {
    windowData := sessionData;
    windowRels := [];
    var c := 0;
    ObservedNone(sessionData.observed, obsRobot, obsHuman);
    while c < |Columns|
      invariant 0 <= c <= |Columns|
      invariant windowData == sessionData.(observed := ObservedUpTo(sessionData.observed, obsRobot, obsHuman, c))
      invariant windowRels == WindowRels(eventTimes, wTime, relationMap)[..if c <= 10 then 0 else c - 10]
    {
      windowData, windowRels := FillColumn(sessionData, obsRobot, obsHuman, eventTimes, wTime, relationMap, c, windowData, windowRels);
      c := c + 1;
    }
    ObservedAll(sessionData.observed, obsRobot, obsHuman);
    assert WindowRels(eventTimes, wTime, relationMap)[..|TrackedPairs|] == WindowRels(eventTimes, wTime, relationMap);
  }

  /** One pass of the column loop: column c of the table is filled in the window row if it
      is an observation column, or its pair's relation recorded if it is a relation column. */
  method FillColumn(sessionData: Row, obsRobot: int, obsHuman: int, eventTimes: map<Event, Interval>,
                    wTime: Interval, relationMap: Pair -> set<int>, c: nat, windowData: Row, windowRels: seq<(Pair, int)>)
    returns (windowData': Row, windowRels': seq<(Pair, int)>)
    requires WellFormed(sessionData) && c < |Columns|
    requires windowData == sessionData.(observed := ObservedUpTo(sessionData.observed, obsRobot, obsHuman, c))
    requires windowRels == WindowRels(eventTimes, wTime, relationMap)[..if c <= 10 then 0 else c - 10]
    ensures windowData' == sessionData.(observed := ObservedUpTo(sessionData.observed, obsRobot, obsHuman, c + 1))
    ensures windowRels' == WindowRels(eventTimes, wTime, relationMap)[..if c + 1 <= 10 then 0 else c + 1 - 10]
  {
    ColumnsLayout(c);
    ObservedStep(sessionData.observed, obsRobot, obsHuman, c);
    windowData', windowRels' := windowData, windowRels;
    match Columns[c] {
      case Flag(_) =>
      case Observation(e) =>
        if HumanObserved(e) {
          windowData' := windowData.(observed := windowData.observed[e := obsHuman]);
        } else {
          windowData' := windowData.(observed := windowData.observed[e := obsRobot]);
        }
      case RelationColumn(p) =>
        var rel := PairRelation(eventTimes, wTime, relationMap, p);
        PrefixSnoc(WindowRels(eventTimes, wTime, relationMap), c - 10);
        windowRels' := windowRels + [(p, rel)];
    }
  }

  lemma PrefixSnoc<T>(s: seq<T>, k: nat)
    requires k < |s|
    ensures s[..k + 1] == s[..k] + [s[k]]
  {
  }

  /** The observation columns after the first c columns of the loop: those of events whose
      column is among them are overwritten, the rest are kept. */
  ghost function ObservedUpTo(observed: map<Event, int>, obsRobot: int, obsHuman: int, c: nat): map<Event, int>
  {
    map e | e in observed :: if 5 + EventIndex(e) < c then (if HumanObserved(e) then obsHuman else obsRobot) else observed[e]
  }

  lemma ObservedNone(observed: map<Event, int>, obsRobot: int, obsHuman: int)
    ensures ObservedUpTo(observed, obsRobot, obsHuman, 0) == observed
  {
  }

  /** Column c overwrites the observation of its event, if it is an observation column. */
  lemma ObservedStep(observed: map<Event, int>, obsRobot: int, obsHuman: int, c: nat)
    requires c < |Columns| && forall e: Event :: e in observed
    ensures 5 <= c < 10 ==>
      var e := Events[c - 5];
      ObservedUpTo(observed, obsRobot, obsHuman, c + 1)
        == ObservedUpTo(observed, obsRobot, obsHuman, c)[e := if HumanObserved(e) then obsHuman else obsRobot]
    ensures (c < 5 || 10 <= c) ==> ObservedUpTo(observed, obsRobot, obsHuman, c + 1) == ObservedUpTo(observed, obsRobot, obsHuman, c)
  {
    ColumnsLayout(c);
  }

  /** After every column, every observation column holds the round's observation. */
  lemma ObservedAll(observed: map<Event, int>, obsRobot: int, obsHuman: int)
    requires forall e: Event :: e in observed
    ensures ObservedUpTo(observed, obsRobot, obsHuman, |Columns|) == Observations(obsRobot, obsHuman)
  {
    EventsInTableOrder();
  }

  /** The query loop body's row (:360-365): a copy of the window row, overlaid with the
      items of window_rels whose key passes `events in events`, without the queried
      event's flag. A tuple is never one of its own items, so no item is overlaid and the
      query carries only the relations already committed to the session row. */
  method BuildQuery(windowData: Row, windowRels: seq<(Pair, int)>, event: Event) returns (query: Row)
    ensures query == QueryRow(windowData, event)
    ensures query.relations == windowData.relations
  {
    var tempWindow := windowData;
    var k := 0;
    while k < |windowRels|
      invariant 0 <= k <= |windowRels|
      invariant tempWindow == windowData
    {
      var (events, rel) := windowRels[k];
      if PyIn(PairKey(events), PairKey(events)) {
        tempWindow := tempWindow.(relations := tempWindow.relations[events := rel]);
      }
      k := k + 1;
    }
    query := tempWindow.(confirmed := tempWindow.confirmed - {event});
  }

  /** The inner commit loop (:376-379): writes the round's relation into the column of
      every pair that contains the confirmed event. */
  method WriteRelations(sessionData: Row, event: Event, windowRels: seq<(Pair, int)>) returns (updated: Row)
    requires forall i :: 0 <= i < |windowRels| ==> windowRels[i].0 in sessionData.relations
    ensures updated == Written(sessionData, event, windowRels)
  {
    updated := sessionData;
    var k := 0;
    assert Written(sessionData, event, windowRels[..0]).relations == sessionData.relations;
    while k < |windowRels|
      invariant 0 <= k <= |windowRels|
      invariant updated == Written(sessionData, event, windowRels[..k])
    {
      var (events, rel) := windowRels[k];
      WrittenStep(sessionData, event, windowRels, k);
      EventInPairKey(event, events);
      if PyIn(Str(Name(event)), PairKey(events)) {
        updated := updated.(relations := updated.relations[events := rel]);
      }
      k := k + 1;
    }
    assert windowRels[..|windowRels|] == windowRels;
  }

  /** One more item of the round's dictionary changes at most the column of its own pair. */
  lemma WrittenStep(row: Row, e: Event, windowRels: seq<(Pair, int)>, k: nat)
    requires k < |windowRels| && windowRels[k].0 in row.relations
    ensures var before := Written(row, e, windowRels[..k]);
            var p := windowRels[k].0;
            Written(row, e, windowRels[..k + 1]) ==
              if p.first == e || p.second == e then before.(relations := before.relations[p := windowRels[k].1]) else before
  {
    var p := windowRels[k].0;
    var m := ItemsToMap(windowRels[..k]);
    var m' := ItemsToMap(windowRels[..k + 1]);
    assert windowRels[..k + 1][..k] == windowRels[..k];
    assert m' == m[p := windowRels[k].1];
    var before := Written(row, e, windowRels[..k]).relations;
    var after := Written(row, e, windowRels[..k + 1]).relations;
    if p.first == e || p.second == e {
      assert after == before[p := windowRels[k].1];
    } else {
      assert after == before;
    }
  }
}
