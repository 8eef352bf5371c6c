/** Italy: what the consumer shows after any sequence of runs.  The visibility mark of a held
    lot and its row agree at every moment, so no tombstone is ever repeated. */
module ItalyView {
  import opened Common
  import opened Lifecycle
  import opened Sorting
  import opened ItalyLots
  import opened ItalyRuns

  datatype Input = Input(publisher: Publisher, target: int, now: Time)

  datatype System = System(cursor: Option<Cursor>, rows: Rows)

  function After(limits: Limits, inputs: seq<Input>): System
    requires limits.Valid()
  {
    if inputs == [] then System(None, map[])
    else Step(limits, After(limits, inputs[..|inputs| - 1]), inputs[|inputs| - 1])
  }

  function Step(limits: Limits, sys: System, input: Input): System
    requires limits.Valid()
  {
    var r := Run(limits, sys.cursor, input.publisher, input.target, input.now);
    if r.Err? then sys else System(Some(r.value.cursor), Folded(sys.rows, r.value.records, input.now))
  }

  ghost predicate Marked(m: Maps, x: Text) {
    (x in m.tracked && m.tracked[x].wasVisible) || (x in m.closed && m.closed[x].wasVisible)
  }

  /** A lot is on show exactly when it is held with its mark. */
  ghost predicate Linked(m: Maps, rows: Rows) {
    && Disjoint(m)
    && 0 !in m.tracked && 0 !in m.closed
    && forall x :: Shown(rows, SOURCE, x) <==> Marked(m, x)
  }

  lemma EventKeepsMarks(m: Maps, e: Event, x: Text)
    requires Disjoint(m)
    ensures Disjoint(StepEvent(m, e))
    ensures Marked(StepEvent(m, e), x) <==> Marked(m, x)
  {
    MergingKeepsTheMark(Lookup(m, e.lot), e);
    hide AtMost, Closing, MergeState;
  }

  lemma MergingKeepsTheMark(current: Option<LotState>, e: Event)
    ensures MergeState(current, e).wasVisible <==> current.Some? && current.value.wasVisible
  {
  }

  lemma {:induction false} EventsKeepLinks(m: Maps, events: seq<Event>, rows: Rows)
    requires Linked(m, rows) && Named(events)
    ensures Linked(Applied(m, events), rows)
  {
    if events != [] {
      var n := |events| - 1;
      EventsKeepLinks(m, events[..n], rows);
      var before := Applied(m, events[..n]);
      forall x ensures Marked(StepEvent(before, events[n]), x) <==> Marked(before, x) {
        EventKeepsMarks(before, events[n], x);
      }
      EventKeepsMarks(before, events[n], 0);
    }
  }

  lemma {:induction false} DaysKeepLinks(m: Maps, publisher: Publisher, start: int, count: nat, rows: Rows)
    requires Linked(m, rows) && Days(m, publisher, start, count).Ok?
    ensures Linked(Days(m, publisher, start, count).value, rows)
  {
    if count > 0 {
      DaysKeepLinks(m, publisher, start, count - 1, rows);
      SortingKeepsNames(publisher(start + count - 1).value);
      EventsKeepLinks(Days(m, publisher, start, count - 1).value, DayList(publisher(start + count - 1).value), rows);
    }
  }

  lemma ClosuresAreOwn(closed: map<Text, LotState>)
    requires 0 !in closed
    ensures EmitsOwn(ClosureEmitter(closed), SOURCE)
  {
    hide ClosureRecord;
    var c := ClosureEmitter(closed);
    forall x | c(x).Some?
      ensures Relevant(c(x).value) && c(x).value.source == SOURCE && c(x).value.externalId == x
    {
      assert c(x) == ClosureRecord(closed, x);
    }
  }

  lemma AnnouncementsAreOwn(tracked: map<Text, LotState>, now: Time)
    requires 0 !in tracked
    ensures EmitsOwn(TrackedEmitter(tracked, now), SOURCE)
  {
    hide TrackedRecord;
    var t := TrackedEmitter(tracked, now);
    forall x | t(x).Some?
      ensures Relevant(t(x).value) && t(x).value.source == SOURCE && t(x).value.externalId == x
    {
      assert t(x) == TrackedRecord(tracked, now, x);
    }
  }

  /** The row a caught-up run leaves for a lot. */
  lemma FinalRow(m: Maps, rows: Rows, now: Time, x: Text)
    requires 0 !in m.tracked && 0 !in m.closed
    ensures var after := Shown(Folded(rows, FinalRecords(m, now), now), SOURCE, x);
            var live, closing := TrackedRecord(m.tracked, now, x), ClosureRecord(m.closed, x);
            after <==> if live.Some? then live.value.isActionable.value
                       else if closing.Some? then closing.value.isActionable.value
                       else Shown(rows, SOURCE, x)
  {
    hide TrackedRecord, ClosureRecord, Folded, Emit, Listed;
    var closedKeys, trackedKeys := Listed(m.closed.Keys), Listed(m.tracked.Keys);
    var first, second := Emit(closedKeys, ClosureEmitter(m.closed)), Emit(trackedKeys, TrackedEmitter(m.tracked, now));
    ClosuresAreOwn(m.closed);
    AnnouncementsAreOwn(m.tracked, now);
    FoldedInBatches(rows, first, second, now);
    EmitRow(rows, closedKeys, ClosureEmitter(m.closed), SOURCE, now, x);
    EmitRow(Folded(rows, first, now), trackedKeys, TrackedEmitter(m.tracked, now), SOURCE, now, x);
    assert ClosureEmitter(m.closed)(x) == ClosureRecord(m.closed, x);
    assert TrackedEmitter(m.tracked, now)(x) == TrackedRecord(m.tracked, now, x);
  }

  /** After a caught-up run a lot is on show exactly when it is tracked with a future deadline. */
  lemma FinalShow(m: Maps, rows: Rows, now: Time, x: Text)
    requires Linked(m, rows)
    ensures Shown(Folded(rows, FinalRecords(m, now), now), SOURCE, x)
        <==> x in m.tracked && Future(m.tracked[x].event.deadline, now)
  {
    hide Folded, FinalRecords;
    FinalRow(m, rows, now, x);
    assert Shown(rows, SOURCE, x) <==> Marked(m, x);
  }

  /** The records of a caught-up run: which lots they are about and what they say. */
  lemma FinalRecordsMean(m: Maps, now: Time, r: Record)
    requires 0 !in m.tracked && 0 !in m.closed && Disjoint(m)
    ensures r in FinalRecords(m, now) <==>
              r.Record? && (TrackedRecord(m.tracked, now, r.externalId) == Some(r) || ClosureRecord(m.closed, r.externalId) == Some(r))
    ensures r in FinalRecords(m, now) ==> Relevant(r)
    ensures r in FinalRecords(m, now) && !r.isActionable.value ==> Marked(m, r.externalId)
  {
    var closedKeys, trackedKeys := Listed(m.closed.Keys), Listed(m.tracked.Keys);
    ClosuresAreOwn(m.closed);
    AnnouncementsAreOwn(m.tracked, now);
    EmitIsBatch(closedKeys, ClosureEmitter(m.closed), SOURCE);
    EmitIsBatch(trackedKeys, TrackedEmitter(m.tracked, now), SOURCE);
    if r.Record? {
      assert ClosureEmitter(m.closed)(r.externalId) == ClosureRecord(m.closed, r.externalId);
      assert TrackedEmitter(m.tracked, now)(r.externalId) == TrackedRecord(m.tracked, now, r.externalId);
    }
  }

  lemma FinishKeepsLinks(completed: int, m: Maps, target: int, now: Time, rows: Rows)
    requires Linked(m, rows)
    ensures var out := Finish(completed, m, target, now); Linked(out.cursor.maps, Folded(rows, out.records, now))
    ensures var out := Finish(completed, m, target, now);
            completed >= target ==> forall x ::
              Shown(Folded(rows, out.records, now), SOURCE, x)
              <==> x in out.cursor.maps.tracked && Future(out.cursor.maps.tracked[x].event.deadline, now)
  {
    hide Folded, FinalRecords;
    if completed >= target {
      forall x ensures Shown(Folded(rows, FinalRecords(m, now), now), SOURCE, x)
        <==> x in m.tracked && Future(m.tracked[x].event.deadline, now)
      {
        FinalShow(m, rows, now, x);
      }
    } else {
      NothingFolded(rows, now);
    }
  }

  function WorkingMaps(limits: Limits, sys: System, input: Input): Maps
    requires limits.Valid() && Run(limits, sys.cursor, input.publisher, input.target, input.now).Ok?
  {
    var start := FirstDay(limits, sys.cursor, input.target);
    Days(InitialMaps(sys.cursor), input.publisher, start, DayCount(start, input.target, limits.maxDays)).value
  }

  lemma RunFromWorkingMaps(limits: Limits, sys: System, input: Input)
    requires limits.Valid() && Run(limits, sys.cursor, input.publisher, input.target, input.now).Ok?
    requires Linked(InitialMaps(sys.cursor), sys.rows)
    ensures var m, out := WorkingMaps(limits, sys, input), Run(limits, sys.cursor, input.publisher, input.target, input.now).value;
            Linked(m, sys.rows) && out == Finish(out.cursor.completed, m, input.target, input.now)
  {
    var start := FirstDay(limits, sys.cursor, input.target);
    DaysKeepLinks(InitialMaps(sys.cursor), input.publisher, start, DayCount(start, input.target, limits.maxDays), sys.rows);
    hide Linked, Days;
  }

  lemma {:induction false} EveryRunKeepsLinks(limits: Limits, inputs: seq<Input>)
    requires limits.Valid()
    ensures var sys := After(limits, inputs); Linked(InitialMaps(sys.cursor), sys.rows)
  {
    if inputs != [] {
      var before, input := After(limits, inputs[..|inputs| - 1]), inputs[|inputs| - 1];
      EveryRunKeepsLinks(limits, inputs[..|inputs| - 1]);
      if Run(limits, before.cursor, input.publisher, input.target, input.now).Ok? {
        var out := Run(limits, before.cursor, input.publisher, input.target, input.now).value;
        RunFromWorkingMaps(limits, before, input);
        hide Run, Finish, Linked;
        FinishKeepsLinks(out.cursor.completed, WorkingMaps(limits, before, input), input.target, input.now, before.rows);
      }
    }
  }

  /** Safety over whole runs: a caught-up run leaves on show exactly the tracked lots with a
      future deadline, any other run says nothing, and a tombstone always withdraws a lot that
      is on show at that moment, so none is repeated. */
  lemma ViewIsExact(limits: Limits, history: seq<Input>, input: Input)
    requires limits.Valid()
    requires Run(limits, After(limits, history).cursor, input.publisher, input.target, input.now).Ok?
    ensures
      var before, after := After(limits, history), After(limits, history + [input]);
      var out := Run(limits, before.cursor, input.publisher, input.target, input.now).value;
      && (out.cursor.completed < input.target ==> out.records == [] && after.rows == before.rows)
      && (out.cursor.completed >= input.target ==> forall x ::
            Shown(after.rows, SOURCE, x)
            <==> x in out.cursor.maps.tracked && Future(out.cursor.maps.tracked[x].event.deadline, input.now))
      && (forall r | r in out.records ::
            Relevant(r) && (!r.isActionable.value ==> Shown(before.rows, SOURCE, r.externalId)))
  {
    var before := After(limits, history);
    var all := history + [input];
    assert all[..|all| - 1] == history;
    var out := Run(limits, before.cursor, input.publisher, input.target, input.now).value;
    EveryRunKeepsLinks(limits, history);
    RunFromWorkingMaps(limits, before, input);
    var m := WorkingMaps(limits, before, input);
    hide Run;
    FinishKeepsLinks(out.cursor.completed, m, input.target, input.now, before.rows);
    forall r | r in out.records ensures Relevant(r) && (!r.isActionable.value ==> Shown(before.rows, SOURCE, r.externalId)) {
      FinalRecordsMean(m, input.now, r);
    }
  }
}
