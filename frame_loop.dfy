/** One session of the validator as a state machine (common/itbn_cnn_model_validator.py:257-383).
    The session's inputs (its length, its timing dictionary, the two classifiers, the
    temporal model's relation map and predict) are a value given to RunSession; the two
    confusion matrices are arrays shared with every other session of the run. The scoring
    variables and the itbn status are values threaded through the frame loop. */
module FrameLoop {
  import opened IntervalRelations
  import opened WindowLabeler
  import opened EventInference

  /** The session row agrees with the confirmed events: its flags are exactly the confirmed
      events, its observation columns are never written, and a relation column stays 0
      while both its events are unconfirmed. */
  ghost predicate RowState(sessionData: Row, eventTimes: map<Event, Interval>)
  {
    && WellFormed(sessionData)
    && sessionData.observed == InitialRow.observed
    && (forall e: Event :: sessionData.confirmed[e] <==> e in eventTimes)
    && (forall p :: p in TrackedPairs && p.first !in eventTimes && p.second !in eventTimes ==> sessionData.relations[p] == 0)
  }

  /** The confirmation order: every confirmed event once, the start event first, and
      confirmation windows ending in that order. */
  ghost predicate OrderState(order: seq<Event>, eventTimes: map<Event, Interval>)
  {
    && NoDuplicates(order)
    && (forall e :: e in order <==> e in eventTimes)
    && (forall a, b :: 0 <= a < b < |order| ==> eventTimes[order[a]].end <= eventTimes[order[b]].end)
    && (order != [] ==> order[0] == StartEvent)
  }

  /** What a session knows about events: the row and the order agree with the confirmed
      events, the pending list is the unconfirmed events in table order, and terminate is
      set exactly when abort or reward is confirmed. */
  ghost predicate EventState(sessionData: Row, pending: seq<Event>, eventTimes: map<Event, Interval>,
                             order: seq<Event>, terminate: bool)
  {
    && RowState(sessionData, eventTimes)
    && InTableOrder(pending) && (forall e: Event :: e in pending <==> e !in eventTimes)
    && OrderState(order, eventTimes)
    && (terminate <==> Abort in eventTimes || Reward in eventTimes)
  }

  /** A session starts in a consistent state: the initial row, every event pending,
      nothing confirmed. */
  lemma InitialEventState(sessionData: Row, pending: seq<Event>, eventTimes: map<Event, Interval>, order: seq<Event>)
    requires sessionData == InitialRow && pending == Events && eventTimes == map[] && order == []
    ensures EventState(sessionData, pending, eventTimes, order, false)
  {
    InitialRowState(eventTimes);
    EventsInTableOrder();
    assert OrderState(order, eventTimes);
  }

  lemma InitialRowState(eventTimes: map<Event, Interval>)
    requires eventTimes == map[]
    ensures RowState(InitialRow, eventTimes)
  {
    InitialRowWellFormed();
  }

  /** While the start event is pending nothing else has been confirmed either. */
  lemma {:induction false} StartPendingMeansNothingConfirmed(sessionData: Row, pending: seq<Event>,
                                                             eventTimes: map<Event, Interval>, order: seq<Event>, terminate: bool)
    requires EventState(sessionData, pending, eventTimes, order, terminate)
    ensures StartEvent in pending <==> eventTimes == map[]
    ensures StartEvent in pending ==> order == [] && !terminate
  {
    if StartEvent in pending {
      assert eventTimes.Keys == {};
    }
  }

  /** Confirming the start event while it is pending keeps the state consistent; it is
      then the only confirmed event. */
  lemma {:induction false} BootstrapKeepsEventState(sessionData: Row, pending: seq<Event>, eventTimes: map<Event, Interval>,
                                                    order: seq<Event>, terminate: bool, w: Interval)
    requires EventState(sessionData, pending, eventTimes, order, terminate) && StartEvent in pending
    ensures eventTimes == map[] && order == [] && !terminate
    ensures EventState(Flagged(sessionData, StartEvent),
                       RemoveFirst(pending, StartEvent), eventTimes[StartEvent := w], [StartEvent], terminate)
  {
    StartPendingMeansNothingConfirmed(sessionData, pending, eventTimes, order, terminate);
    RemoveFirstKeepsOrder(pending, StartEvent);
    BootstrapRow(sessionData, eventTimes, w);
    var started := eventTimes[StartEvent := w];
    BootstrapTimes(eventTimes, started, w);
    var pending' := RemoveFirst(pending, StartEvent);
    assert forall e: Event :: e in pending' <==> e !in started;
    AssembleEventState(Flagged(sessionData, StartEvent), pending', started, [StartEvent], terminate);
  }

  lemma AssembleEventState(sessionData: Row, pending: seq<Event>, eventTimes: map<Event, Interval>,
                           order: seq<Event>, terminate: bool)
    requires RowState(sessionData, eventTimes)
    requires InTableOrder(pending) && forall e: Event :: e in pending <==> e !in eventTimes
    requires OrderState(order, eventTimes)
    requires terminate <==> Abort in eventTimes || Reward in eventTimes
    ensures EventState(sessionData, pending, eventTimes, order, terminate)
  {
  }

  /** After the bootstrap the start event is the only confirmed event. */
  lemma BootstrapTimes(none: map<Event, Interval>, started: map<Event, Interval>, w: Interval)
    requires none == map[] && started == none[StartEvent := w]
    ensures forall e :: e in started <==> e == StartEvent
    ensures OrderState([StartEvent], started)
  {
  }

  lemma {:induction false} BootstrapRow(sessionData: Row, none: map<Event, Interval>, w: Interval)
    requires none == map[] && RowState(sessionData, none)
    ensures RowState(Flagged(sessionData, StartEvent), none[StartEvent := w])
  {
  }

  /** A committed query round keeps the state consistent: the events it confirms were
      pending, are confirmed once each, at a window ending no earlier than any earlier
      confirmation, and only relation columns of pairs that contain them are written. */
  lemma {:induction false} RoundKeepsEventState(
    sessionData: Row, pending: seq<Event>, eventTimes: map<Event, Interval>, order: seq<Event>,
    w: Interval, newPreds: seq<Event>, windowRels: seq<(Pair, int)>,
    pending': seq<Event>, eventTimes': map<Event, Interval>, terminate': bool)
    requires EventState(sessionData, pending, eventTimes, order, false) && StartEvent in eventTimes
    requires forall e :: e in eventTimes ==> eventTimes[e].end <= w.end
    requires NoDuplicates(newPreds) && forall e :: e in newPreds ==> e in pending
    requires InTableOrder(pending') && forall e :: e in pending' <==> e in pending && e !in newPreds
    requires eventTimes' == RecordTimes(eventTimes, newPreds, w)
    requires terminate' <==> exists e :: e in newPreds && IsTerminal(e)
    ensures EventState(Committed(sessionData, newPreds, windowRels), pending', eventTimes', order + newPreds, terminate')
  {
    RecordTimesPointwise(eventTimes, newPreds, w);
    assert forall e :: e in newPreds ==> e !in eventTimes;
    RoundRow(sessionData, eventTimes, newPreds, windowRels, eventTimes');
    RoundOrder(order, eventTimes, w, newPreds, eventTimes');
    TerminalConfirmed(newPreds);
  }

  /** Committing one more event: flagging it and then writing the relation columns of the
      pairs that contain it gives the row committed for the longer list. */
  lemma {:induction false} CommitOne(sessionData: Row, prefix: seq<Event>, event: Event, windowRels: seq<(Pair, int)>)
    requires event in sessionData.confirmed
    ensures Written(Flagged(Committed(sessionData, prefix, windowRels), event), event, windowRels)
            == Committed(sessionData, prefix + [event], windowRels)
  {
    var updated := Written(Flagged(Committed(sessionData, prefix, windowRels), event), event, windowRels);
    var after := Committed(sessionData, prefix + [event], windowRels);
    assert forall e :: e in prefix + [event] <==> e in prefix || e == event;
    assert updated.confirmed == after.confirmed;
    assert updated.relations == after.relations;
  }

  /** A round that confirms nothing leaves the row as it was. */
  lemma CommittedNothing(sessionData: Row, windowRels: seq<(Pair, int)>)
    ensures Committed(sessionData, [], windowRels) == sessionData
  {
    var r := Committed(sessionData, [], windowRels);
    assert r.confirmed == sessionData.confirmed;
    assert r.relations == sessionData.relations;
  }

  /** Extending a prefix of a list without duplicates by its next element adds an event
      the prefix does not hold. */
  lemma PrefixStep(s: seq<Event>, k: nat)
    requires k < |s| && NoDuplicates(s)
    ensures s[..k + 1] == s[..k] + [s[k]] && s[k] !in s[..k]
    ensures forall e :: e in s[..k + 1] <==> e in s[..k] || e == s[k]
    ensures (Abort in s[..k + 1] || Reward in s[..k + 1]) <==> Abort in s[..k] || Reward in s[..k] || IsTerminal(s[k])
  {
    assert s[..k + 1] == s[..k] + [s[k]];
  }

  lemma TerminalConfirmed(newPreds: seq<Event>)
    ensures (exists e :: e in newPreds && IsTerminal(e)) <==> Abort in newPreds || Reward in newPreds
  {
    if exists e :: e in newPreds && IsTerminal(e) {
      var e :| e in newPreds && IsTerminal(e);
      assert e == Abort || e == Reward;
    }
  }

  lemma {:induction false} RoundRow(sessionData: Row, eventTimes: map<Event, Interval>, newPreds: seq<Event>,
                                    windowRels: seq<(Pair, int)>, eventTimes': map<Event, Interval>)
    requires RowState(sessionData, eventTimes)
    requires forall e :: e in eventTimes' <==> e in eventTimes || e in newPreds
    ensures RowState(Committed(sessionData, newPreds, windowRels), eventTimes')
  {
  }

  lemma {:induction false} RoundOrder(order: seq<Event>, eventTimes: map<Event, Interval>, w: Interval,
                                      newPreds: seq<Event>, eventTimes': map<Event, Interval>)
    requires OrderState(order, eventTimes) && StartEvent in eventTimes
    requires forall e :: e in eventTimes ==> eventTimes[e].end <= w.end
    requires NoDuplicates(newPreds) && forall e :: e in newPreds ==> e !in eventTimes
    requires forall e :: e in eventTimes' <==> e in eventTimes || e in newPreds
    requires forall e :: e in eventTimes' ==> eventTimes'[e] == if e in newPreds then w else eventTimes[e]
    ensures OrderState(order + newPreds, eventTimes')
  {
    var order' := order + newPreds;
    assert order != [] by {
      assert StartEvent in order;
    }
    assert NoDuplicates(order') by {
      forall i, j | 0 <= i < j < |order'|
        ensures order'[i] != order'[j]
      {
        if j >= |order| && i < |order| {
          assert order'[i] in eventTimes && order'[j] in newPreds;
        }
      }
    }
    forall a, b | 0 <= a < b < |order'|
      ensures eventTimes'[order'[a]].end <= eventTimes'[order'[b]].end
    {
      if b < |order| {
        assert order'[a] !in newPreds && order'[b] !in newPreds;
      } else if a < |order| {
        assert order'[a] !in newPreds && order'[b] in newPreds;
      } else {
        assert order'[a] in newPreds && order'[b] in newPreds;
      }
    }
    assert order'[0] == order[0];
  }

  lemma NothingCounted(m: array2<nat>, base: seq<seq<nat>>)
    requires m.Length0 == 3 && m.Length1 == 3 && base == Cells(m)
    ensures MatrixMatches(m, base, [])
  {
  }

  /** Every relation the round records is for a column of the session row. */
  lemma WindowRelsTracked(sessionData: Row, eventTimes: map<Event, Interval>, wTime: Interval, relationMap: Pair -> set<int>)
    requires WellFormed(sessionData)
    ensures var rels := WindowRels(eventTimes, wTime, relationMap);
            forall i :: 0 <= i < |rels| ==> rels[i].0 in sessionData.relations
  {
  }

  /** The query loop (:358-372): every pending event is queried against the same window
      row; the ones predicted 'Y' are recorded at the current window. */
  method QueryPending(pending: seq<Event>, windowData: Row, windowRels: seq<(Pair, int)>,
                      predicts: (Row, Event) -> bool, w: Interval, obsRobot: int, obsHuman: int,
                      eventTimes: map<Event, Interval>, lastObsRobot: int, lastObsHuman: int)
    returns (newPreds: seq<Event>, eventTimes': map<Event, Interval>, lastObsRobot': int, lastObsHuman': int)
    ensures newPreds == Confirmed(pending, windowData, predicts)
    ensures eventTimes' == RecordTimes(eventTimes, newPreds, w)
    ensures if newPreds == [] then lastObsRobot' == lastObsRobot && lastObsHuman' == lastObsHuman
            else lastObsRobot' == obsRobot && lastObsHuman' == obsHuman
  {
    newPreds, eventTimes', lastObsRobot', lastObsHuman' := [], eventTimes, lastObsRobot, lastObsHuman;
    var j := 0;
    while j < |pending|
      invariant 0 <= j <= |pending|
      invariant newPreds == Confirmed(pending[..j], windowData, predicts)
      invariant eventTimes' == RecordTimes(eventTimes, newPreds, w)
      invariant if newPreds == [] then lastObsRobot' == lastObsRobot && lastObsHuman' == lastObsHuman
                else lastObsRobot' == obsRobot && lastObsHuman' == obsHuman
    {
      var preds := newPreds;
      newPreds, eventTimes', lastObsRobot', lastObsHuman' :=
        QueryEvent(pending, windowData, windowRels, predicts, w, obsRobot, obsHuman, j, eventTimes, preds,
                   eventTimes', lastObsRobot', lastObsHuman');
      j := j + 1;
    }
    assert pending[..j] == pending;
  }

  /** One step of the query loop: pending event j is queried with the window row and,
      when the model predicts it, appended and recorded at the current window. */
  method QueryEvent(pending: seq<Event>, windowData: Row, windowRels: seq<(Pair, int)>,
                    predicts: (Row, Event) -> bool, w: Interval, obsRobot: int, obsHuman: int,
                    j: nat, ghost times: map<Event, Interval>, preds: seq<Event>,
                    eventTimes: map<Event, Interval>, lastObsRobot: int, lastObsHuman: int)
    returns (newPreds: seq<Event>, eventTimes': map<Event, Interval>, lastObsRobot': int, lastObsHuman': int)
    requires j < |pending| && preds == Confirmed(pending[..j], windowData, predicts)
    requires eventTimes == RecordTimes(times, preds, w)
    ensures newPreds == Confirmed(pending[..j + 1], windowData, predicts)
    ensures eventTimes' == RecordTimes(times, newPreds, w)
    ensures newPreds == preds ==> lastObsRobot' == lastObsRobot && lastObsHuman' == lastObsHuman
    ensures newPreds != preds ==> newPreds != [] && lastObsRobot' == obsRobot && lastObsHuman' == obsHuman
  {
    newPreds, eventTimes', lastObsRobot', lastObsHuman' := preds, eventTimes, lastObsRobot, lastObsHuman;
    var event := pending[j];
    ConfirmedStep(pending, j, windowData, predicts);
    var tempWindow := BuildQuery(windowData, windowRels, event);
    if predicts(tempWindow, event) {
      RecordOneMore(times, preds, event, w);
      newPreds := newPreds + [event];
      eventTimes' := eventTimes'[event := w];
      lastObsHuman' := obsHuman;
      lastObsRobot' := obsRobot;
    }
  }

  /** The commit loop (:373-381): only after every query, each confirmed event is flagged,
      removed from the pending list and has the relation columns of its pairs written;
      terminate is set when abort or reward is among them. */
  method CommitRound(sessionData: Row, pending: seq<Event>, terminate: bool,
                     newPreds: seq<Event>, windowRels: seq<(Pair, int)>)
    returns (sessionData': Row, pending': seq<Event>, terminate': bool)
    requires WellFormed(sessionData) && NoDuplicates(newPreds)
    requires InTableOrder(pending) && forall e :: e in newPreds ==> e in pending
    requires forall i :: 0 <= i < |windowRels| ==> windowRels[i].0 in sessionData.relations
    ensures sessionData' == Committed(sessionData, newPreds, windowRels)
    ensures InTableOrder(pending') && forall e :: e in pending' <==> e in pending && e !in newPreds
    ensures terminate' <==> terminate || exists e :: e in newPreds && IsTerminal(e)
  {
    sessionData', pending', terminate' := sessionData, pending, terminate;
    CommittedNothing(sessionData, windowRels);
    var k := 0;
    while k < |newPreds|
      invariant 0 <= k <= |newPreds|
      invariant sessionData' == Committed(sessionData, newPreds[..k], windowRels)
      invariant forall i :: 0 <= i < |windowRels| ==> windowRels[i].0 in sessionData'.relations
      invariant InTableOrder(pending')
      invariant forall e :: e in pending' <==> e in pending && e !in newPreds[..k]
      invariant terminate' <==> terminate || Abort in newPreds[..k] || Reward in newPreds[..k]
    {
      var event := newPreds[k];
      PrefixStep(newPreds, k);
      sessionData', pending', terminate' := CommitEvent(sessionData', pending', terminate', event, windowRels);
      CommitOne(sessionData, newPreds[..k], event, windowRels);
      k := k + 1;
    }
    assert newPreds[..k] == newPreds;
    TerminalConfirmed(newPreds);
  }

  /** One step of the commit loop: flags the event, removes it from the pending list,
      writes the relation columns of the pairs that contain it and sets terminate when
      it is abort or reward. */
  method CommitEvent(sessionData: Row, pending: seq<Event>, terminate: bool, event: Event, windowRels: seq<(Pair, int)>)
    returns (sessionData': Row, pending': seq<Event>, terminate': bool)
    requires forall i :: 0 <= i < |windowRels| ==> windowRels[i].0 in sessionData.relations
    requires InTableOrder(pending) && event in pending
    ensures sessionData' == Written(Flagged(sessionData, event), event, windowRels)
    ensures InTableOrder(pending') && forall e :: e in pending' <==> e in pending && e != event
    ensures terminate' <==> terminate || IsTerminal(event)
  {
    sessionData' := Flagged(sessionData, event);
    RemoveFirstKeepsOrder(pending, event);
    pending' := RemoveFirst(pending, event);
    sessionData' := WriteRelations(sessionData', event, windowRels);
    terminate' := terminate;
    if IsTerminal(event) {
      terminate' := true;
    }
  }

  /** A query round (:344-381): the window row and the round's relations are built, every
      pending event is queried, and then the confirmed events are committed. The round
      keeps the event state consistent, with the confirmed events appended to the order. */
  method QueryRound(sessionData: Row, pending: seq<Event>, eventTimes: map<Event, Interval>, ghost order: seq<Event>,
                    w: Interval, relationMap: Pair -> set<int>, predicts: (Row, Event) -> bool,
                    obsRobot: int, obsHuman: int, lastObsRobot: int, lastObsHuman: int)
    returns (newPreds: seq<Event>, sessionData': Row, pending': seq<Event>, eventTimes': map<Event, Interval>,
             lastObsRobot': int, lastObsHuman': int, terminate': bool)
    requires EventState(sessionData, pending, eventTimes, order, false) && StartEvent !in pending
    requires forall e :: e in eventTimes ==> eventTimes[e].end <= w.end
    ensures newPreds == Confirmed(pending, WindowRow(sessionData, obsRobot, obsHuman), predicts)
    ensures EventState(sessionData', pending', eventTimes', order + newPreds, terminate')
    ensures eventTimes' == RecordTimes(eventTimes, newPreds, w)
    ensures forall e :: e in pending' <==> e in pending && e !in newPreds
    ensures sessionData' == Committed(sessionData, newPreds, WindowRels(eventTimes, w, relationMap))
    ensures if newPreds == [] then lastObsRobot' == lastObsRobot && lastObsHuman' == lastObsHuman
            else lastObsRobot' == obsRobot && lastObsHuman' == obsHuman
    ensures terminate' <==> exists e :: e in newPreds && IsTerminal(e)
  {
    var windowData, windowRels := PrepareWindow(sessionData, obsRobot, obsHuman, eventTimes, w, relationMap);
    WindowRelsTracked(sessionData, eventTimes, w, relationMap);
    newPreds, eventTimes', lastObsRobot', lastObsHuman' :=
      QueryPending(pending, windowData, windowRels, predicts, w, obsRobot, obsHuman, eventTimes, lastObsRobot, lastObsHuman);
    ConfirmedKeepsOrder(pending, windowData, predicts);
    TableOrderNoDuplicates(newPreds);
    sessionData', pending', terminate' := CommitRound(sessionData, pending, false, newPreds, windowRels);
    RoundKeepsEventState(sessionData, pending, eventTimes, order, w, newPreds, windowRels, pending', eventTimes', terminate');
  }

  /** The itbn status of a session (:267-289): the session row, the pending events, when
      each confirmed event was confirmed, the observations of the last round that
      confirmed something, and whether a terminal event was confirmed. */
  datatype ItbnStatus = ItbnStatus(sessionData: Row, pendingEvents: seq<Event>, eventTimes: map<Event, Interval>,
                                   lastObsRobot: int, lastObsHuman: int, terminate: bool)

  const InitialStatus := ItbnStatus(InitialRow, Events, map[], -1, -1, false)

  ghost predicate StatusValid(s: ItbnStatus, order: seq<Event>)
  {
    EventState(s.sessionData, s.pendingEvents, s.eventTimes, order, s.terminate)
  }

  /** The start event confirmed at window w without any query (:336-341). */
  ghost predicate Bootstrapped(s: ItbnStatus, s': ItbnStatus, w: Interval, obsHuman: int)
  {
    && StartEvent in s.pendingEvents
    && s' == ItbnStatus(Flagged(s.sessionData, StartEvent), RemoveFirst(s.pendingEvents, StartEvent),
                        map[StartEvent := w], 1, obsHuman, false)
  }

  /** A committed query round (:342-381): the events the model confirms against the one
      window row are recorded at window w and removed from the pending list, and only
      their flags and the relation columns of pairs containing them are written. */
  ghost predicate RoundCommitted(s: ItbnStatus, s': ItbnStatus, w: Interval, relationMap: Pair -> set<int>,
                                 predicts: (Row, Event) -> bool, obsRobot: int, obsHuman: int)
  {
    var newPreds := Confirmed(s.pendingEvents, WindowRow(s.sessionData, obsRobot, obsHuman), predicts);
    && s'.eventTimes == RecordTimes(s.eventTimes, newPreds, w)
    && (forall e :: e in s'.pendingEvents <==> e in s.pendingEvents && e !in newPreds)
    && s'.sessionData == Committed(s.sessionData, newPreds, WindowRels(s.eventTimes, w, relationMap))
    && (if newPreds == [] then s'.lastObsRobot == s.lastObsRobot && s'.lastObsHuman == s.lastObsHuman
        else s'.lastObsRobot == obsRobot && s'.lastObsHuman == obsHuman)
    && (s'.terminate <==> exists e :: e in newPreds && IsTerminal(e))
  }

  /** What the event half of a processed frame does (:328-381): the first robot
      observation confirms the start event; after that, observations that differ from those
      saved at the last confirmation (last_obs_robot/last_obs_human, which only a
      confirmation updates) run a query round; otherwise nothing changes. */
  ghost predicate StatusUpdated(s: ItbnStatus, s': ItbnStatus, w: Interval, relationMap: Pair -> set<int>,
                                predicts: (Row, Event) -> bool, obsRobot: int, obsHuman: int)
  {
    if StartEvent in s.pendingEvents && obsRobot == 1 then Bootstrapped(s, s', w, obsHuman)
    else if StartEvent !in s.pendingEvents && (obsRobot != s.lastObsRobot || obsHuman != s.lastObsHuman)
    then RoundCommitted(s, s', w, relationMap, predicts, obsRobot, obsHuman)
    else s' == s
  }

  /** The event half of a frame on which a window w was processed. It keeps the status
      consistent, confirms events only at w, and sets terminate only when a terminal
      event is confirmed at w. */
  method UpdateStatus(s: ItbnStatus, ghost order: seq<Event>, w: Interval, relationMap: Pair -> set<int>,
                      predicts: (Row, Event) -> bool, obsRobot: int, obsHuman: int)
    returns (s': ItbnStatus, ghost order': seq<Event>)
    requires StatusValid(s, order) && !s.terminate
    requires forall e :: e in s.eventTimes ==> s.eventTimes[e].end <= w.end
    ensures StatusValid(s', order') && forall e :: e in s'.eventTimes ==> s'.eventTimes[e].end <= w.end
    ensures StatusUpdated(s, s', w, relationMap, predicts, obsRobot, obsHuman)
    ensures s'.terminate ==> exists e :: IsTerminal(e) && e in s'.eventTimes && s'.eventTimes[e] == w
  {
    if StartEvent in s.pendingEvents && obsRobot == 1 {
      BootstrapKeepsEventState(s.sessionData, s.pendingEvents, s.eventTimes, order, s.terminate, w);
      s' := ItbnStatus(Flagged(s.sessionData, StartEvent), RemoveFirst(s.pendingEvents, StartEvent),
                       s.eventTimes[StartEvent := w], obsRobot, obsHuman, s.terminate);
      order' := order + [StartEvent];
    } else if StartEvent !in s.pendingEvents && (obsRobot != s.lastObsRobot || obsHuman != s.lastObsHuman) {
      var newPreds, sessionData, pending, eventTimes, lastObsRobot, lastObsHuman, terminate :=
        QueryRound(s.sessionData, s.pendingEvents, s.eventTimes, order, w, relationMap, predicts,
                   obsRobot, obsHuman, s.lastObsRobot, s.lastObsHuman);
      s' := ItbnStatus(sessionData, pending, eventTimes, lastObsRobot, lastObsHuman, terminate);
      order' := order + newPreds;
      RoundWithin(s.eventTimes, newPreds, w, eventTimes);
    } else {
      s', order' := s, order;
    }
  }

  /** The events a round confirms are recorded at its window, and every confirmation
      still ends no later than that window. */
  lemma RoundWithin(eventTimes: map<Event, Interval>, newPreds: seq<Event>, w: Interval, eventTimes': map<Event, Interval>)
    requires eventTimes' == RecordTimes(eventTimes, newPreds, w)
    requires forall e :: e in eventTimes ==> eventTimes[e].end <= w.end
    ensures forall e :: e in eventTimes' ==> eventTimes'[e].end <= w.end
    ensures forall e :: e in newPreds ==> e in eventTimes' && eventTimes'[e] == w
  {
    RecordTimesPointwise(eventTimes, newPreds, w);
  }

  /** A window count agrees with the frames seen: one more window completes at frame i
      exactly when i is that window's end. */
  lemma CompletedNext(count: nat, size: nat, stride: nat, i: nat)
    requires CompletedBy(count, size, stride, i) && 0 < stride
    ensures i == stride * count + size ==> CompletedBy(count + 1, size, stride, i + 1)
    ensures i != stride * count + size ==> CompletedBy(count, size, stride, i + 1)
  {
  }

  // ---------------------------------------------------------------------------
  // Scoring the audio and video windows

  /** What one session of the validator is given: its length, its timing dictionary, the
      two classifiers (aud_dqn and opt_dqn: the class predicted for window k, given its
      true class), the temporal model's relation map, and whether the model predicts 'Y'
      for an event on a query row. */
  datatype SessionInput = SessionInput(seqLen: nat, timing: map<string, int>,
                                       audClassifier: (nat, Class) -> Class, optClassifier: (nat, Class) -> Class,
                                       relationMap: Pair -> set<int>, predicts: (Row, Event) -> bool)

  predicate TimingOk(timing: map<string, int>)
  {
    TimingComplete(timing, AudRobotEvents) && TimingComplete(timing, AudHumanEvents)
    && TimingComplete(timing, OptRobotEvents) && TimingComplete(timing, OptHumanEvents)
  }

  /** The true class of audio window k and the class the audio classifier selects for it. */
  ghost function AudOutcome(input: SessionInput, k: nat): (Class, Class)
    requires TimingOk(input.timing)
  {
    var truth := GroundTruthClass(WindowSpan(AudFrameSize, AudStride, k, input.seqLen), input.timing,
                                  AudRobotEvents, AudHumanEvents);
    (truth, input.audClassifier(k, truth))
  }

  /** The same for video window k. */
  ghost function OptOutcome(input: SessionInput, k: nat): (Class, Class)
    requires TimingOk(input.timing)
  {
    var truth := GroundTruthClass(WindowSpan(OptFrameSize, OptStride, k, input.seqLen), input.timing,
                                  OptRobotEvents, OptHumanEvents);
    (truth, input.optClassifier(k, truth))
  }

  /** The loop's scoring variables: the window counters, each modality's latest selected
      class, and the current window. */
  datatype Scoring = Scoring(audChunkCounter: nat, optChunkCounter: nat,
                             audSelectedClass: Class, optSelectedClass: Class, wTime: Interval)

  const InitialScoring := Scoring(0, 0, 0, 0, Interval(0, 0))

  /** Exactly the audio windows whose last frame lies before frame f have been scored, in
      order, each in its own cell of the audio matrix on top of its cells `base`, and the
      selected class is that of the latest one. */
  ghost predicate AudScored(input: SessionInput, m: array2<nat>, base: seq<seq<nat>>, log: seq<(Class, Class)>,
                            sc: Scoring, f: nat)
    reads m
  {
    && TimingOk(input.timing)
    && MatrixMatches(m, base, log)
    && CompletedBy(sc.audChunkCounter, AudFrameSize, AudStride, f)
    && |log| == sc.audChunkCounter && (forall k :: 0 <= k < |log| ==> log[k] == AudOutcome(input, k))
    && sc.audSelectedClass == (if log == [] then 0 else log[|log| - 1].1)
  }

  /** The same for the video windows. */
  ghost predicate OptScored(input: SessionInput, m: array2<nat>, base: seq<seq<nat>>, log: seq<(Class, Class)>,
                            sc: Scoring, f: nat)
    reads m
  {
    && TimingOk(input.timing)
    && MatrixMatches(m, base, log)
    && CompletedBy(sc.optChunkCounter, OptFrameSize, OptStride, f)
    && |log| == sc.optChunkCounter && (forall k :: 0 <= k < |log| ==> log[k] == OptOutcome(input, k))
    && sc.optSelectedClass == (if log == [] then 0 else log[|log| - 1].1)
  }

  /** The audio block (:292-309): scores audio window audChunkCounter and makes it the
      current window. */
  method AudioWindow(input: SessionInput, audMatrix: array2<nat>, ghost base: seq<seq<nat>>, ghost log: seq<(Class, Class)>,
                     sc: Scoring)
    returns (sc': Scoring, ghost log': seq<(Class, Class)>)
    requires TimingOk(input.timing) && MatrixMatches(audMatrix, base, log)
    modifies audMatrix
    ensures sc' == sc.(audChunkCounter := sc.audChunkCounter + 1,
                       audSelectedClass := AudOutcome(input, sc.audChunkCounter).1,
                       wTime := Interval(AudStride * sc.audChunkCounter, AudStride * sc.audChunkCounter + AudFrameSize))
    ensures log' == log + [AudOutcome(input, sc.audChunkCounter)]
    ensures MatrixMatches(audMatrix, base, log')
  {
    var startFrame := AudStride * sc.audChunkCounter;
    var endFrame := AudStride * sc.audChunkCounter + AudFrameSize;
    var audLabelData := LabelDataAud(AudFrameSize, AudStride, sc.audChunkCounter, input.seqLen, input.timing);
    var k := ArgMax(audLabelData);
    ArgMaxOfOneHot(audLabelData, AudOutcome(input, sc.audChunkCounter).0, k);
    var realClass: Class := k;
    var audSelectedClass := input.audClassifier(sc.audChunkCounter, realClass);
    audMatrix[realClass, audSelectedClass] := audMatrix[realClass, audSelectedClass] + 1;
    log' := log + [(realClass, audSelectedClass)];
    assert log'[..|log'| - 1] == log;
    sc' := sc.(audChunkCounter := sc.audChunkCounter + 1, audSelectedClass := audSelectedClass,
               wTime := Interval(startFrame, endFrame));
  }

  /** The video block (:310-327): scores video window optChunkCounter and makes it the
      current window. */
  method VideoWindow(input: SessionInput, optMatrix: array2<nat>, ghost base: seq<seq<nat>>, ghost log: seq<(Class, Class)>,
                     sc: Scoring)
    returns (sc': Scoring, ghost log': seq<(Class, Class)>)
    requires TimingOk(input.timing) && MatrixMatches(optMatrix, base, log)
    modifies optMatrix
    ensures sc' == sc.(optChunkCounter := sc.optChunkCounter + 1,
                       optSelectedClass := OptOutcome(input, sc.optChunkCounter).1,
                       wTime := Interval(OptStride * sc.optChunkCounter, OptStride * sc.optChunkCounter + OptFrameSize))
    ensures log' == log + [OptOutcome(input, sc.optChunkCounter)]
    ensures MatrixMatches(optMatrix, base, log')
  {
    var startFrame := OptStride * sc.optChunkCounter;
    var endFrame := OptStride * sc.optChunkCounter + OptFrameSize;
    var optLabelData := LabelDataOpt(OptFrameSize, OptStride, sc.optChunkCounter, input.seqLen, input.timing);
    var k := ArgMax(optLabelData);
    ArgMaxOfOneHot(optLabelData, OptOutcome(input, sc.optChunkCounter).0, k);
    var realClass: Class := k;
    var optSelectedClass := input.optClassifier(sc.optChunkCounter, realClass);
    optMatrix[realClass, optSelectedClass] := optMatrix[realClass, optSelectedClass] + 1;
    log' := log + [(realClass, optSelectedClass)];
    assert log'[..|log'| - 1] == log;
    sc' := sc.(optChunkCounter := sc.optChunkCounter + 1, optSelectedClass := optSelectedClass,
               wTime := Interval(startFrame, endFrame));
  }

  /** The audio test of frame i (:292): the next audio window is scored when frame i is
      its end. */
  method AudioStep(input: SessionInput, audMatrix: array2<nat>, ghost base: seq<seq<nat>>, ghost log: seq<(Class, Class)>,
                   sc: Scoring, i: nat)
    returns (sc': Scoring, ghost log': seq<(Class, Class)>, fired: bool)
    requires AudScored(input, audMatrix, base, log, sc, i)
    modifies audMatrix
    ensures AudScored(input, audMatrix, base, log', sc', i + 1)
    ensures fired == (i == AudStride * sc.audChunkCounter + AudFrameSize)
    ensures sc'.optChunkCounter == sc.optChunkCounter && sc'.optSelectedClass == sc.optSelectedClass
    ensures sc'.audChunkCounter == sc.audChunkCounter + (if fired then 1 else 0)
    ensures sc'.audSelectedClass == if fired then AudOutcome(input, sc.audChunkCounter).1 else sc.audSelectedClass
    ensures sc'.wTime == if fired then Interval(AudStride * sc.audChunkCounter, i) else sc.wTime
  {
    CompletedNext(sc.audChunkCounter, AudFrameSize, AudStride, i);
    fired := i == AudStride * sc.audChunkCounter + AudFrameSize;
    sc', log' := sc, log;
    if fired {
      sc', log' := AudioWindow(input, audMatrix, base, log, sc);
    }
  }

  /** The video test of frame i (:310). */
  method VideoStep(input: SessionInput, optMatrix: array2<nat>, ghost base: seq<seq<nat>>, ghost log: seq<(Class, Class)>,
                   sc: Scoring, i: nat)
    returns (sc': Scoring, ghost log': seq<(Class, Class)>, fired: bool)
    requires OptScored(input, optMatrix, base, log, sc, i)
    modifies optMatrix
    ensures OptScored(input, optMatrix, base, log', sc', i + 1)
    ensures fired == (i == OptStride * sc.optChunkCounter + OptFrameSize)
    ensures sc'.audChunkCounter == sc.audChunkCounter && sc'.audSelectedClass == sc.audSelectedClass
    ensures sc'.optChunkCounter == sc.optChunkCounter + (if fired then 1 else 0)
    ensures sc'.optSelectedClass == if fired then OptOutcome(input, sc.optChunkCounter).1 else sc.optSelectedClass
    ensures sc'.wTime == if fired then Interval(OptStride * sc.optChunkCounter, i) else sc.wTime
  {
    CompletedNext(sc.optChunkCounter, OptFrameSize, OptStride, i);
    fired := i == OptStride * sc.optChunkCounter + OptFrameSize;
    sc', log' := sc, log;
    if fired {
      sc', log' := VideoWindow(input, optMatrix, base, log, sc);
    }
  }

  /** The scoring half of frame i (:290-327): the audio window and then the video window
      that end at frame i are scored; the later one becomes the current window, and the
      frame counts as processed when either was scored. */
  method ScoreFrame(input: SessionInput, audMatrix: array2<nat>, optMatrix: array2<nat>,
                    ghost audBase: seq<seq<nat>>, ghost optBase: seq<seq<nat>>,
                    ghost audLog: seq<(Class, Class)>, ghost optLog: seq<(Class, Class)>, sc: Scoring, i: nat)
    returns (sc': Scoring, ghost audLog': seq<(Class, Class)>, ghost optLog': seq<(Class, Class)>, processed: bool)
    requires audMatrix != optMatrix
    requires AudScored(input, audMatrix, audBase, audLog, sc, i) && OptScored(input, optMatrix, optBase, optLog, sc, i)
    modifies audMatrix, optMatrix
    ensures AudScored(input, audMatrix, audBase, audLog', sc', i + 1)
    ensures OptScored(input, optMatrix, optBase, optLog', sc', i + 1)
    ensures processed == Processed(sc, i)
    ensures ScoringStep(input, sc, sc', i)
  {
    var audFired, optFired;
    var mid;
    mid, audLog', audFired := AudioStep(input, audMatrix, audBase, audLog, sc, i);
    sc', optLog', optFired := VideoStep(input, optMatrix, optBase, optLog, mid, i);
    processed := audFired || optFired;
  }

  // ---------------------------------------------------------------------------
  // The frame loop

  /** Frame i ends the next audio window or the next video window (:292, :310, :328). */
  predicate Processed(sc: Scoring, i: nat)
  {
    i == AudStride * sc.audChunkCounter + AudFrameSize || i == OptStride * sc.optChunkCounter + OptFrameSize
  }

  /** The scoring variables after frame i (:292-327): each window ending at i advances its
      counter and selects its classifier's class; the video window, scored second, wins
      as the current window. */
  ghost predicate ScoringStep(input: SessionInput, sc: Scoring, sc': Scoring, i: nat)
    requires TimingOk(input.timing)
  {
    var audFired := i == AudStride * sc.audChunkCounter + AudFrameSize;
    var optFired := i == OptStride * sc.optChunkCounter + OptFrameSize;
    && sc'.audChunkCounter == sc.audChunkCounter + (if audFired then 1 else 0)
    && sc'.optChunkCounter == sc.optChunkCounter + (if optFired then 1 else 0)
    && sc'.audSelectedClass == (if audFired then AudOutcome(input, sc.audChunkCounter).1 else sc.audSelectedClass)
    && sc'.optSelectedClass == (if optFired then OptOutcome(input, sc.optChunkCounter).1 else sc.optSelectedClass)
    && sc'.wTime == (if optFired then Interval(OptStride * sc.optChunkCounter, i)
                     else if audFired then Interval(AudStride * sc.audChunkCounter, i)
                     else sc.wTime)
  }

  /** One frame of the loop (:290-381): the scoring step, and then, on a processed frame,
      the status update with the observations combined from the latest selected classes
      at the current window; on any other frame the status is unchanged. */
  ghost predicate FrameStep(input: SessionInput, sc: Scoring, sc': Scoring, s: ItbnStatus, s': ItbnStatus, i: nat)
    requires TimingOk(input.timing)
  {
    && ScoringStep(input, sc, sc', i)
    && if Processed(sc, i) then
         StatusUpdated(s, s', sc'.wTime, input.relationMap, input.predicts,
                       ObsRobot(sc'.audSelectedClass, sc'.optSelectedClass),
                       ObsHuman(sc'.audSelectedClass, sc'.optSelectedClass))
       else s' == s
  }

  /** A run of the first |scs| - 1 frames of a session: the scoring variables and the
      status before each frame and after the last, from the initial ones, each frame one
      FrameStep. */
  ghost predicate Trace(input: SessionInput, scs: seq<Scoring>, statuses: seq<ItbnStatus>)
    requires TimingOk(input.timing)
  {
    && |scs| == |statuses| && scs != []
    && scs[0] == InitialScoring && statuses[0] == InitialStatus
    && StepsUpTo(input, scs, statuses, |scs| - 1)
  }

  /** Each of the frames 0 .. n - 1 took entry k of the run to entry k + 1. */
  ghost predicate StepsUpTo(input: SessionInput, scs: seq<Scoring>, statuses: seq<ItbnStatus>, n: nat)
    requires TimingOk(input.timing) && n < |scs| && |scs| == |statuses|
    decreases n
  {
    n == 0 || (StepsUpTo(input, scs, statuses, n - 1) && FrameStep(input, scs[n - 1], scs[n], statuses[n - 1], statuses[n], n - 1))
  }

  /** The steps of a run are kept when further entries are appended to it. */
  lemma {:induction false} StepsAppend(input: SessionInput, scs: seq<Scoring>, statuses: seq<ItbnStatus>,
                                       sc': Scoring, s': ItbnStatus, n: nat)
    requires TimingOk(input.timing) && n < |scs| && |scs| == |statuses|
    requires StepsUpTo(input, scs, statuses, n)
    ensures StepsUpTo(input, scs + [sc'], statuses + [s'], n)
    decreases n
  {
    if n > 0 {
      StepsAppend(input, scs, statuses, sc', s', n - 1);
      assert (scs + [sc'])[n - 1] == scs[n - 1] && (scs + [sc'])[n] == scs[n];
      assert (statuses + [s'])[n - 1] == statuses[n - 1] && (statuses + [s'])[n] == statuses[n];
    }
  }

  /** A run of n frames followed by frame n is a run of n + 1 frames. */
  lemma TraceExtend(input: SessionInput, scs: seq<Scoring>, statuses: seq<ItbnStatus>, sc': Scoring, s': ItbnStatus)
    requires TimingOk(input.timing) && Trace(input, scs, statuses)
    requires FrameStep(input, scs[|scs| - 1], sc', statuses[|scs| - 1], s', |scs| - 1)
    ensures Trace(input, scs + [sc'], statuses + [s'])
  {
    StepsAppend(input, scs, statuses, sc', s', |scs| - 1);
  }

  /** The scoring variables sc and the status s are reached by the first |scs| frames of
      a session from the initial ones, scs and statuses holding the values before each of
      those frames. This is the form the frame loop keeps. */
  ghost predicate Reaches(input: SessionInput, scs: seq<Scoring>, statuses: seq<ItbnStatus>, sc: Scoring, s: ItbnStatus)
    requires TimingOk(input.timing)
    decreases |scs|
  {
    && |scs| == |statuses|
    && if scs == [] then sc == InitialScoring && s == InitialStatus
       else
         var n := |scs| - 1;
         && Reaches(input, scs[..n], statuses[..n], scs[n], statuses[n])
         && FrameStep(input, scs[n], sc, statuses[n], s, n)
  }

  /** Frame |scs| taken from a reached state reaches the next one. */
  lemma ReachesNext(input: SessionInput, scs: seq<Scoring>, statuses: seq<ItbnStatus>, sc: Scoring, s: ItbnStatus,
                    sc': Scoring, s': ItbnStatus)
    requires TimingOk(input.timing) && Reaches(input, scs, statuses, sc, s)
    requires FrameStep(input, sc, sc', s, s', |scs|)
    ensures Reaches(input, scs + [sc], statuses + [s], sc', s')
  {
    assert (scs + [sc])[..|scs|] == scs;
    assert (statuses + [s])[..|scs|] == statuses;
  }

  /** A reached state closes a run: the values before each frame followed by the reached
      ones form a Trace. */
  lemma {:induction false} ReachesTrace(input: SessionInput, scs: seq<Scoring>, statuses: seq<ItbnStatus>,
                                        sc: Scoring, s: ItbnStatus)
    requires TimingOk(input.timing) && Reaches(input, scs, statuses, sc, s)
    ensures Trace(input, scs + [sc], statuses + [s])
    decreases |scs|
  {
    if scs != [] {
      var n := |scs| - 1;
      ReachesTrace(input, scs[..n], statuses[..n], scs[n], statuses[n]);
      assert scs[..n] + [scs[n]] == scs;
      assert statuses[..n] + [statuses[n]] == statuses;
      TraceExtend(input, scs, statuses, sc, s);
    }
  }

  /** One iteration of the frame loop (:290-381) on frame i: the windows ending at i are
      scored and, when one was, the itbn status is updated with the observations of the
      latest selected classes. */
  method Frame(input: SessionInput, audMatrix: array2<nat>, optMatrix: array2<nat>,
               ghost audBase: seq<seq<nat>>, ghost optBase: seq<seq<nat>>,
               ghost audLog: seq<(Class, Class)>, ghost optLog: seq<(Class, Class)>, sc: Scoring,
               status: ItbnStatus, ghost order: seq<Event>, i: nat)
    returns (sc': Scoring, ghost audLog': seq<(Class, Class)>, ghost optLog': seq<(Class, Class)>,
             status': ItbnStatus, ghost order': seq<Event>)
    requires audMatrix != optMatrix
    requires AudScored(input, audMatrix, audBase, audLog, sc, i) && OptScored(input, optMatrix, optBase, optLog, sc, i)
    requires StatusValid(status, order) && !status.terminate
    requires forall e :: e in status.eventTimes ==> status.eventTimes[e].end < i
    modifies audMatrix, optMatrix
    ensures AudScored(input, audMatrix, audBase, audLog', sc', i + 1) && OptScored(input, optMatrix, optBase, optLog', sc', i + 1)
    ensures StatusValid(status', order')
    ensures forall e :: e in status'.eventTimes ==> status'.eventTimes[e].end < i + 1
    ensures status'.terminate ==> exists e :: IsTerminal(e) && e in status'.eventTimes && status'.eventTimes[e].end == i
    ensures FrameStep(input, sc, sc', status, status', i)
  {
    var processed;
    sc', audLog', optLog', processed := ScoreFrame(input, audMatrix, optMatrix, audBase, optBase, audLog, optLog, sc, i);
    status', order' := status, order;
    if processed {
      var obsRobot := ObsRobot(sc'.audSelectedClass, sc'.optSelectedClass);
      var obsHuman := ObsHuman(sc'.audSelectedClass, sc'.optSelectedClass);
      status', order' := UpdateStatus(status, order, sc'.wTime, input.relationMap, input.predicts, obsRobot, obsHuman);
    }
  }

  /** What holds after the first i frames of a session: exactly the windows that ended
      before frame i are scored into the matrices, the status is consistent, every
      confirmation ended before frame i, and the scoring variables and the status are
      reached by frames 0 .. i - 1. */
  ghost predicate Running(input: SessionInput, audMatrix: array2<nat>, optMatrix: array2<nat>,
                          audBase: seq<seq<nat>>, optBase: seq<seq<nat>>,
                          audLog: seq<(Class, Class)>, optLog: seq<(Class, Class)>, sc: Scoring,
                          status: ItbnStatus, order: seq<Event>, scs: seq<Scoring>, statuses: seq<ItbnStatus>, i: nat)
    reads audMatrix, optMatrix
  {
    && AudScored(input, audMatrix, audBase, audLog, sc, i) && OptScored(input, optMatrix, optBase, optLog, sc, i)
    && StatusValid(status, order)
    && (forall e :: e in status.eventTimes ==> status.eventTimes[e].end < i)
    && Reaches(input, scs, statuses, sc, status) && |scs| == i
  }

  /** No status of the run is terminated: every frame recorded so far was run from a
      status that had not ended the session. */
  ghost predicate Unterminated(statuses: seq<ItbnStatus>)
  {
    forall k :: 0 <= k < |statuses| ==> !statuses[k].terminate
  }

  /** Appending a status to a run keeps the statuses before it, and keeps the run
      unterminated when that status is. */
  lemma UnterminatedAppend(statuses: seq<ItbnStatus>, s: ItbnStatus)
    requires Unterminated(statuses)
    ensures (statuses + [s])[..|statuses|] == statuses
    ensures !s.terminate ==> Unterminated(statuses + [s])
  {
    assert (statuses + [s])[..|statuses|] == statuses;
  }

  /** The session was ended by frame f: abort or reward was confirmed at a window ending
      at frame f. */
  ghost predicate EndedAt(s: ItbnStatus, f: int)
  {
    || (Abort in s.eventTimes && s.eventTimes[Abort].end == f)
    || (Reward in s.eventTimes && s.eventTimes[Reward].end == f)
  }

  /** Frame i, recorded as the next step of the session's run. */
  method TracedFrame(input: SessionInput, audMatrix: array2<nat>, optMatrix: array2<nat>,
                     ghost audBase: seq<seq<nat>>, ghost optBase: seq<seq<nat>>,
                     ghost audLog: seq<(Class, Class)>, ghost optLog: seq<(Class, Class)>, sc: Scoring,
                     status: ItbnStatus, ghost order: seq<Event>,
                     ghost scs: seq<Scoring>, ghost statuses: seq<ItbnStatus>, i: nat)
    returns (sc': Scoring, ghost audLog': seq<(Class, Class)>, ghost optLog': seq<(Class, Class)>,
             status': ItbnStatus, ghost order': seq<Event>, ghost scs': seq<Scoring>, ghost statuses': seq<ItbnStatus>)
    requires audMatrix != optMatrix && !status.terminate
    requires Running(input, audMatrix, optMatrix, audBase, optBase, audLog, optLog, sc, status, order, scs, statuses, i)
    modifies audMatrix, optMatrix
    ensures Running(input, audMatrix, optMatrix, audBase, optBase, audLog', optLog', sc', status', order', scs', statuses', i + 1)
    ensures status'.terminate ==> EndedAt(status', i)
    ensures |statuses'| == |statuses| + 1 && (Unterminated(statuses) ==> Unterminated(statuses'))
  {
    sc', audLog', optLog', status', order' := Frame(input, audMatrix, optMatrix, audBase, optBase, audLog, optLog, sc, status, order, i);
    if status'.terminate {
      var e :| IsTerminal(e) && e in status'.eventTimes && status'.eventTimes[e].end == i;
      assert e == Abort || e == Reward;
    }
    ReachesNext(input, scs, statuses, sc, status, sc', status');
    if Unterminated(statuses) {
      UnterminatedAppend(statuses, status);
    }
    scs', statuses' := scs + [sc], statuses + [status];
  }

  /** The frame loop (:290-383) from the state a session starts in: every frame is run in
      order until the sequence ends or a frame confirms a terminal event, which ends the
      loop. */
  method RunFrames(input: SessionInput, audMatrix: array2<nat>, optMatrix: array2<nat>,
                   ghost audBase: seq<seq<nat>>, ghost optBase: seq<seq<nat>>, sc0: Scoring, status0: ItbnStatus)
    returns (sc: Scoring, status: ItbnStatus, ghost frames: nat, ghost audLog: seq<(Class, Class)>, ghost optLog: seq<(Class, Class)>,
             ghost order: seq<Event>, ghost scs: seq<Scoring>, ghost statuses: seq<ItbnStatus>)
    requires audMatrix != optMatrix && !status0.terminate
    requires Running(input, audMatrix, optMatrix, audBase, optBase, [], [], sc0, status0, [], [], [], 0)
    modifies audMatrix, optMatrix
    ensures Running(input, audMatrix, optMatrix, audBase, optBase, audLog, optLog, sc, status, order, scs, statuses, frames)
    ensures frames <= input.seqLen
    ensures !status.terminate ==> frames == input.seqLen
    ensures status.terminate ==> 0 < frames && EndedAt(status, frames - 1)
    ensures |statuses| == frames && Unterminated(statuses)
  {
    sc, status := sc0, status0;
    audLog, optLog, order := [], [], [];
    scs, statuses := [], [];
    var i := 0;
    while i < input.seqLen && !status.terminate
      invariant i <= input.seqLen
      invariant Running(input, audMatrix, optMatrix, audBase, optBase, audLog, optLog, sc, status, order, scs, statuses, i)
      invariant status.terminate ==> 0 < i && EndedAt(status, i - 1)
      invariant |statuses| == i && Unterminated(statuses)
    {
      sc, audLog, optLog, status, order, scs, statuses :=
        TracedFrame(input, audMatrix, optMatrix, audBase, optBase, audLog, optLog, sc, status, order, scs, statuses, i);
      i := i + 1;
    }
    frames := i;
  }

  /** One session of the validator (:257-383): every frame is scored in order, and on a
      processed frame the itbn status is updated, until the sequence ends or a terminal
      event is confirmed. The final status is the last of a run of FrameSteps from the
      initial status, and every status before it is unterminated: the loop stops at the
      first frame that confirms abort or reward, and no later window is scored. The matrices are shared with the other sessions of the run: each
      window scored adds one to the cell of its (real, predicted) classes, and nothing
      else is written. */
  method RunSession(input: SessionInput, audMatrix: array2<nat>, optMatrix: array2<nat>)
    returns (status: ItbnStatus, ghost frames: nat, ghost audLog: seq<(Class, Class)>, ghost optLog: seq<(Class, Class)>,
             ghost order: seq<Event>, ghost scs: seq<Scoring>, ghost statuses: seq<ItbnStatus>)
    requires TimingOk(input.timing) && audMatrix != optMatrix
    requires audMatrix.Length0 == 3 && audMatrix.Length1 == 3 && optMatrix.Length0 == 3 && optMatrix.Length1 == 3
    modifies audMatrix, optMatrix
    ensures StatusValid(status, order) && frames <= input.seqLen
    ensures Trace(input, scs, statuses) && |scs| == frames + 1 && statuses[frames] == status
    ensures !status.terminate ==> frames == input.seqLen
    ensures status.terminate ==> 0 < frames && EndedAt(status, frames - 1)
    ensures Unterminated(statuses[..frames])
    ensures forall e :: e in status.eventTimes ==> status.eventTimes[e].end < frames
    ensures CompletedBy(|audLog|, AudFrameSize, AudStride, frames) && forall k :: 0 <= k < |audLog| ==> audLog[k] == AudOutcome(input, k)
    ensures CompletedBy(|optLog|, OptFrameSize, OptStride, frames) && forall k :: 0 <= k < |optLog| ==> optLog[k] == OptOutcome(input, k)
    ensures forall r, p :: 0 <= r < 3 && 0 <= p < 3 ==> audMatrix[r, p] == old(audMatrix[r, p]) + Count(audLog, r, p)
    ensures forall r, p :: 0 <= r < 3 && 0 <= p < 3 ==> optMatrix[r, p] == old(optMatrix[r, p]) + Count(optLog, r, p)
    ensures MatrixTotal(audMatrix) == old(MatrixTotal(audMatrix)) + |audLog|
    ensures MatrixTotal(optMatrix) == old(MatrixTotal(optMatrix)) + |optLog|
  {
    ghost var audBase, optBase := Cells(audMatrix), Cells(optMatrix);
    NothingCounted(audMatrix, audBase);
    NothingCounted(optMatrix, optBase);
    InitialEventState(InitialStatus.sessionData, InitialStatus.pendingEvents, InitialStatus.eventTimes, []);
    var sc;
    ghost var before, statusesBefore;
    sc, status, frames, audLog, optLog, order, before, statusesBefore :=
      RunFrames(input, audMatrix, optMatrix, audBase, optBase, InitialScoring, InitialStatus);
    ReachesTrace(input, before, statusesBefore, sc, status);
    UnterminatedAppend(statusesBefore, status);
    scs, statuses := before + [sc], statusesBefore + [status];
    MatrixTotalCounts(audMatrix, audBase, audLog);
    MatrixTotalCounts(optMatrix, optBase, optLog);
  }
}
