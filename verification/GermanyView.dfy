/** Germany: what the consumer shows after any sequence of runs. */
module GermanyView {
  import opened Common
  import opened Lifecycle
  import opened Sorting
  import opened GermanyLots
  import opened GermanyRuns

  /** The publisher as it answers one run, the latest closed day and the clock. */
  datatype Input = Input(publisher: Publisher, target: int, now: Time)

  /** The persisted cursor, the consumer's table, and every lot ever published as actionable.
      Cursor and observations are committed together; a run that raises commits neither. */
  datatype System = System(cursor: Option<Cursor>, rows: Rows, published: set<Text>)

  function Actionables(records: seq<Record>): set<Text> {
    set r | r in records && Relevant(r) && r.isActionable.value :: r.externalId
  }

  function After(limits: Limits, inputs: seq<Input>): System
    requires limits.Valid()
  {
    if inputs == [] then System(None, map[], {})
    else Step(limits, After(limits, inputs[..|inputs| - 1]), inputs[|inputs| - 1])
  }

  function Step(limits: Limits, sys: System, input: Input): System
    requires limits.Valid()
  {
    var r := Run(limits, sys.cursor, input.publisher, input.target, input.now);
    if r.Err? then sys
    else System(Some(r.value.cursor), Folded(sys.rows, r.value.records, input.now),
                sys.published + Actionables(r.value.records))
  }

  // ---- the invariant between the maps and the table ---------------------------------------

  /** A lot on show is held with its mark, and its closure is still to be announced; no lot
      carries the mark without having been published. */
  ghost predicate Linked(m: Maps, rows: Rows, published: set<Text>) {
    && Disjoint(m)
    && 0 !in m.tracked && 0 !in m.closed && 0 !in m.recent
    && (forall x | Shown(rows, SOURCE, x) ::
          && (x in m.tracked || x in m.closed)
          && (x in m.tracked ==> m.tracked[x].wasVisible)
          && (x in m.closed ==> m.closed[x].wasVisible && !m.closed[x].closureEmitted))
    && (forall x | x in m.tracked && m.tracked[x].wasVisible :: x in published)
    && (forall x | x in m.closed && m.closed[x].wasVisible :: x in published)
    && (forall x | x in m.recent && m.recent[x].wasVisible :: x in published)
  }

  lemma {:induction false} EventsKeepLinks(m: Maps, events: seq<Event>, rows: Rows, published: set<Text>)
    requires Linked(m, rows, published) && Named(events)
    ensures Linked(Applied(m, events), rows, published)
  {
    if events != [] {
      var n := |events| - 1;
      EventsKeepLinks(m, events[..n], rows, published);
      EventKeepsLinks(Applied(m, events[..n]), events[n], rows, published);
    }
  }

  lemma EventKeepsLinks(m: Maps, e: Event, rows: Rows, published: set<Text>)
    requires Linked(m, rows, published) && e.lot != 0
    ensures Linked(StepEvent(m, e), rows, published)
  {
  }

  lemma {:induction false} DaysKeepLinks(m: Maps, publisher: Publisher, start: int, count: nat, rows: Rows,
                                         published: set<Text>)
    requires Linked(m, rows, published) && Days(m, publisher, start, count).Ok?
    ensures Linked(Days(m, publisher, start, count).value, rows, published)
  {
    if count > 0 {
      DaysKeepLinks(m, publisher, start, count - 1, rows, published);
      EventsKeepLinks(Days(m, publisher, start, count - 1).value, publisher(start + count - 1).value, rows, published);
    }
  }

  // ---- finalisation ---------------------------------------------------------------------------

  lemma EmittersAreOwn(m: Maps, now: Time)
    requires 0 !in m.tracked && 0 !in m.closed
    ensures EmitsOwn(ClosureEmitter(m.closed), SOURCE)
    ensures EmitsOwn(TrackedEmitter(m.tracked, now), SOURCE)
  {
    var c, t := ClosureEmitter(m.closed), TrackedEmitter(m.tracked, now);
    forall x ensures OwnRecord(c(x), x) && OwnRecord(t(x), x) {
      assert c(x) == ClosureRecord(m.closed, x);
      assert t(x) == TrackedRecord(m.tracked, now, x);
      RecordsAreOwn(m, now, x);
      hide ClosureRecord, TrackedRecord, OwnRecord;
    }
    hide ClosureEmitter, TrackedEmitter;
  }

  ghost predicate OwnRecord(r: Option<Record>, x: Text) {
    r.Some? ==> Relevant(r.value) && r.value.source == SOURCE && r.value.externalId == x
  }

  lemma RecordsAreOwn(m: Maps, now: Time, x: Text)
    requires 0 !in m.tracked && 0 !in m.closed
    ensures OwnRecord(ClosureRecord(m.closed, x), x) && OwnRecord(TrackedRecord(m.tracked, now, x), x)
  {
    hide ClosureOf, TrackedOf;
  }

  /** The row a caught-up run leaves for a lot. */
  lemma FinalRow(m: Maps, rows: Rows, now: Time, x: Text)
    requires 0 !in m.tracked && 0 !in m.closed
    ensures var after := Shown(Folded(rows, FinalRecords(m, now), now), SOURCE, x);
            var live, closing := TrackedRecord(m.tracked, now, x), ClosureRecord(m.closed, x);
            && (live.Some? ==> live.value.Record? && live.value.isActionable.Some?)
            && (closing.Some? ==> closing.value.Record? && closing.value.isActionable.Some?)
            && (after <==> if live.Some? then live.value.isActionable.value
                           else if closing.Some? then closing.value.isActionable.value
                           else Shown(rows, SOURCE, x))
  {
    hide TrackedOf, ClosureOf, Folded, Emit, Listed;
    var closedKeys, trackedKeys := Listed(m.closed.Keys), Listed(m.tracked.Keys);
    var first, second := Emit(closedKeys, ClosureEmitter(m.closed)), Emit(trackedKeys, TrackedEmitter(m.tracked, now));
    EmittersAreOwn(m, now);
    AscendingIsDistinct(closedKeys);
    AscendingIsDistinct(trackedKeys);
    FoldedInBatches(rows, first, second, now);
    EmitRow(rows, closedKeys, ClosureEmitter(m.closed), SOURCE, now, x);
    EmitRow(Folded(rows, first, now), trackedKeys, TrackedEmitter(m.tracked, now), SOURCE, now, x);
    assert ClosureEmitter(m.closed)(x) == ClosureRecord(m.closed, x);
    assert TrackedEmitter(m.tracked, now)(x) == TrackedRecord(m.tracked, now, x);
  }

  /** After a caught-up run a lot is on show exactly when it is tracked with a future deadline. */
  lemma FinalShow(m: Maps, rows: Rows, published: set<Text>, now: Time, x: Text)
    requires Linked(m, rows, published)
    ensures Shown(Folded(rows, FinalRecords(m, now), now), SOURCE, x)
        <==> x in m.tracked && Future(m.tracked[x].body.deadline, now)
  {
    hide Folded, FinalRecords;
    FinalRow(m, rows, now, x);
    if Shown(rows, SOURCE, x) {
      assert x in m.tracked || x in m.closed;
    }
    hide Shown;
  }

  /** What a final record says: it is of a held lot, and a tombstone's lot carries the mark. */
  lemma FinalRecordsAreOwned(m: Maps, now: Time, r: Record)
    requires 0 !in m.tracked && 0 !in m.closed && r in FinalRecords(m, now)
    ensures Relevant(r) && r.source == SOURCE
    ensures r.isActionable.value <==> r.externalId in m.tracked && TrackedRecord(m.tracked, now, r.externalId) == Some(r)
                                      && Future(m.tracked[r.externalId].body.deadline, now)
    ensures !r.isActionable.value ==>
              || (r.externalId in m.tracked && m.tracked[r.externalId].wasVisible)
              || (r.externalId in m.closed && m.closed[r.externalId].wasVisible)
  {
    var closedKeys, trackedKeys := Listed(m.closed.Keys), Listed(m.tracked.Keys);
    EmittersAreOwn(m, now);
    AscendingIsDistinct(closedKeys);
    AscendingIsDistinct(trackedKeys);
    EmitIsBatch(closedKeys, ClosureEmitter(m.closed), SOURCE);
    EmitIsBatch(trackedKeys, TrackedEmitter(m.tracked, now), SOURCE);
  }

  /** Every tracked lot with a future deadline is announced. */
  lemma OpenLotsAreAnnounced(m: Maps, now: Time, x: Text)
    requires 0 !in m.tracked && 0 !in m.closed
    requires x in m.tracked && Future(m.tracked[x].body.deadline, now)
    ensures x in Actionables(FinalRecords(m, now))
  {
    var keys := Listed(m.tracked.Keys);
    EmittersAreOwn(m, now);
    AscendingIsDistinct(keys);
    EmitIsBatch(keys, TrackedEmitter(m.tracked, now), SOURCE);
    var r := TrackedRecord(m.tracked, now, x).value;
    assert TrackedEmitter(m.tracked, now)(x) == Some(r);
    assert r in Emit(keys, TrackedEmitter(m.tracked, now));
    assert r in FinalRecords(m, now);
  }

  lemma FinalKeepsLinks(m: Maps, rows: Rows, published: set<Text>, now: Time)
    requires Linked(m, rows, published)
    ensures Linked(FinalMaps(m, now), Folded(rows, FinalRecords(m, now), now),
                   published + Actionables(FinalRecords(m, now)))
  {
    var records := FinalRecords(m, now);
    var rows' := Folded(rows, records, now);
    var published' := published + Actionables(records);
    hide FinalRecords, Folded, Actionables, Shown;
    forall x ensures Shown(rows', SOURCE, x) <==> x in m.tracked && Future(m.tracked[x].body.deadline, now) {
      FinalShow(m, rows, published, now, x);
    }
    forall x | x in m.tracked && Future(m.tracked[x].body.deadline, now) ensures x in published' {
      OpenLotsAreAnnounced(m, now, x);
    }
  }

  lemma PruningKeepsLinks(m: Maps, cutoff: int, rows: Rows, published: set<Text>)
    requires Linked(m, rows, published)
    ensures Linked(m.(recent := Pruned(m.recent, cutoff)), rows, published)
  {
  }

  // ---- runs ---------------------------------------------------------------------------------------

  /** The maps a successful run works on just before it finishes. */
  function WorkingMaps(limits: Limits, sys: System, input: Input): Maps
    requires limits.Valid() && Run(limits, sys.cursor, input.publisher, input.target, input.now).Ok?
  {
    var start := FirstDay(limits, sys.cursor, input.target);
    Days(InitialMaps(sys.cursor), input.publisher, start, DayCount(start, input.target, limits.maxDays)).value
  }

  lemma RunFromWorkingMaps(limits: Limits, sys: System, input: Input)
    requires limits.Valid() && Run(limits, sys.cursor, input.publisher, input.target, input.now).Ok?
    ensures var m, out := WorkingMaps(limits, sys, input), Run(limits, sys.cursor, input.publisher, input.target, input.now).value;
            && Finish(limits, out.cursor.completed, m, input.target, input.now) == Ok(out)
            && (forall rows, published :: Linked(InitialMaps(sys.cursor), rows, published) ==> Linked(m, rows, published))
  {
    var start := FirstDay(limits, sys.cursor, input.target);
    var count := DayCount(start, input.target, limits.maxDays);
    forall rows, published | Linked(InitialMaps(sys.cursor), rows, published)
      ensures Linked(WorkingMaps(limits, sys, input), rows, published)
    {
      DaysKeepLinks(InitialMaps(sys.cursor), input.publisher, start, count, rows, published);
    }
  }

  lemma NothingPublished()
    ensures Actionables([]) == {}
  {
  }

  lemma FinishKeepsLinks(limits: Limits, completed: int, m: Maps, target: int, now: Time, rows: Rows, published: set<Text>)
    requires Linked(m, rows, published) && Finish(limits, completed, m, target, now).Ok?
    ensures var out := Finish(limits, completed, m, target, now).value;
            Linked(out.cursor.maps, Folded(rows, out.records, now), published + Actionables(out.records))
  {
    hide Linked, FinalMaps, FinalRecords, Pruned, Actionables;
    var cutoff := target - limits.retention;
    if completed >= target {
      FinalKeepsLinks(m, rows, published, now);
      PruningKeepsLinks(FinalMaps(m, now), cutoff, Folded(rows, FinalRecords(m, now), now),
                        published + Actionables(FinalRecords(m, now)));
    } else {
      PruningKeepsLinks(m, cutoff, rows, published);
      NothingPublished();
      assert published + {} == published;
    }
  }

  lemma {:induction false} EveryRunKeepsLinks(limits: Limits, inputs: seq<Input>)
    requires limits.Valid()
    ensures var sys := After(limits, inputs); Linked(InitialMaps(sys.cursor), sys.rows, sys.published)
  {
    if inputs != [] {
      var before, input := After(limits, inputs[..|inputs| - 1]), inputs[|inputs| - 1];
      EveryRunKeepsLinks(limits, inputs[..|inputs| - 1]);
      if Run(limits, before.cursor, input.publisher, input.target, input.now).Ok? {
        var out := Run(limits, before.cursor, input.publisher, input.target, input.now).value;
        RunFromWorkingMaps(limits, before, input);
        hide Run, Finish, Linked;
        FinishKeepsLinks(limits, out.cursor.completed, WorkingMaps(limits, before, input), input.target, input.now,
                         before.rows, before.published);
      }
    }
  }

  /** Safety over whole runs: after any history, a successful run that is caught up leaves on
      show exactly the tracked lots with a future deadline; one that is not says nothing; and
      every tombstone withdraws a lot that was published as actionable before. */
  lemma ViewIsExact(limits: Limits, history: seq<Input>, input: Input)
    requires limits.Valid()
    requires Run(limits, After(limits, history).cursor, input.publisher, input.target, input.now).Ok?
    ensures
      var before, after := After(limits, history), After(limits, history + [input]);
      var out := Run(limits, before.cursor, input.publisher, input.target, input.now).value;
      && (out.cursor.completed < input.target ==> out.records == [] && after.rows == before.rows)
      && (out.cursor.completed >= input.target ==> forall x ::
            Shown(after.rows, SOURCE, x)
            <==> x in out.cursor.maps.tracked && Future(out.cursor.maps.tracked[x].body.deadline, input.now))
      && (forall r | r in out.records :: Relevant(r) && (!r.isActionable.value ==> r.externalId in before.published))
  {
    hide *;
    var before := After(limits, history);
    var out := Run(limits, before.cursor, input.publisher, input.target, input.now).value;
    AfterOneMore(limits, history, input);
    EveryRunKeepsLinks(limits, history);
    RunFromWorkingMaps(limits, before, input);
    FinishedView(limits, out, WorkingMaps(limits, before, input), input.target, input.now, before.rows, before.published);
    NothingFolded(before.rows, input.now);
  }

  lemma AfterOneMore(limits: Limits, history: seq<Input>, input: Input)
    requires limits.Valid() && Run(limits, After(limits, history).cursor, input.publisher, input.target, input.now).Ok?
    ensures var before := After(limits, history);
            After(limits, history + [input]).rows
            == Folded(before.rows, Run(limits, before.cursor, input.publisher, input.target, input.now).value.records, input.now)
  {
    hide Run, Folded, Actionables;
    assert (history + [input])[..|history|] == history;
  }

  lemma FinishedView(limits: Limits, out: Outcome, m: Maps, target: int, now: Time, rows: Rows, published: set<Text>)
    requires Linked(m, rows, published) && Finish(limits, out.cursor.completed, m, target, now) == Ok(out)
    ensures out.cursor.completed < target ==> out.records == []
    ensures out.cursor.completed >= target ==> forall x ::
              Shown(Folded(rows, out.records, now), SOURCE, x)
              <==> x in out.cursor.maps.tracked && Future(out.cursor.maps.tracked[x].body.deadline, now)
    ensures forall r | r in out.records :: Relevant(r) && (!r.isActionable.value ==> r.externalId in published)
  {
    if out.cursor.completed >= target {
      forall x ensures Shown(Folded(rows, out.records, now), SOURCE, x)
        <==> x in out.cursor.maps.tracked && Future(out.cursor.maps.tracked[x].body.deadline, now)
      {
        FinalShow(m, rows, published, now, x);
      }
      forall r | r in out.records ensures Relevant(r) && (!r.isActionable.value ==> r.externalId in published) {
        FinalRecordsAreOwned(m, now, r);
      }
    }
  }

  // ---- tombstones for lots that are not on show ---------------------------------------------------------

  /** The maps that the last caught-up run of a history left in its cursor. */
  function LastFinal(limits: Limits, inputs: seq<Input>): Maps
    requires limits.Valid()
  {
    if inputs == [] then NOTHING
    else
      var init, input := inputs[..|inputs| - 1], inputs[|inputs| - 1];
      var r := Run(limits, After(limits, init).cursor, input.publisher, input.target, input.now);
      if r.Ok? && r.value.cursor.completed >= input.target then r.value.cursor.maps else LastFinal(limits, init)
  }

  ghost predicate Marked(m: Maps, x: Text) {
    Lookup(m, x).Some? && Lookup(m, x).value.wasVisible
  }

  /** Marks come from the last caught-up run, whose tracked marks are the lots on show. */
  ghost predicate Descends(m: Maps, final: Maps, rows: Rows) {
    && Disjoint(final) && final.closed == map[]
    && (forall x | Marked(m, x) :: Marked(final, x))
    && (forall x :: Shown(rows, SOURCE, x) <==> x in final.tracked && final.tracked[x].wasVisible)
  }

  lemma {:induction false} EventsSetNoMarks(m: Maps, events: seq<Event>, x: Text)
    ensures Marked(Applied(m, events), x) ==> Marked(m, x)
  {
    if events != [] {
      EventsSetNoMarks(m, events[..|events| - 1], x);
    }
  }

  lemma {:induction false} DaysSetNoMarks(m: Maps, publisher: Publisher, start: int, count: nat, x: Text)
    requires Days(m, publisher, start, count).Ok?
    ensures Marked(Days(m, publisher, start, count).value, x) ==> Marked(m, x)
  {
    hide Marked, Applied;
    if count > 0 {
      DaysSetNoMarks(m, publisher, start, count - 1, x);
      EventsSetNoMarks(Days(m, publisher, start, count - 1).value, publisher(start + count - 1).value, x);
    }
  }

  lemma WorkingSetsNoMarks(limits: Limits, sys: System, input: Input, x: Text)
    requires limits.Valid() && Run(limits, sys.cursor, input.publisher, input.target, input.now).Ok?
    ensures Marked(WorkingMaps(limits, sys, input), x) ==> Marked(InitialMaps(sys.cursor), x)
  {
    hide Marked, Days;
    var start := FirstDay(limits, sys.cursor, input.target);
    DaysSetNoMarks(InitialMaps(sys.cursor), input.publisher, start, DayCount(start, input.target, limits.maxDays), x);
  }

  /** What a caught-up run keeps: no closed lot, and a tracked one is marked while its deadline lies ahead. */
  lemma FinishMeans(limits: Limits, completed: int, m: Maps, target: int, now: Time, x: Text)
    requires Finish(limits, completed, m, target, now).Ok? && Disjoint(m)
    ensures var out := Finish(limits, completed, m, target, now).value;
            && out.cursor.completed == completed
            && (completed < target ==> out.records == [] && (Marked(out.cursor.maps, x) ==> Marked(m, x)))
            && (completed >= target ==>
                  && out.records == FinalRecords(m, now) && out.cursor.maps.closed == map[]
                  && (x in out.cursor.maps.tracked ==>
                        (out.cursor.maps.tracked[x].wasVisible <==> Future(out.cursor.maps.tracked[x].body.deadline, now))))
  {
    hide FinalRecords;
  }

  lemma {:induction false} MarksDescend(limits: Limits, inputs: seq<Input>)
    requires limits.Valid()
    ensures var sys := After(limits, inputs); Descends(InitialMaps(sys.cursor), LastFinal(limits, inputs), sys.rows)
  {
    if inputs != [] {
      var init, input := inputs[..|inputs| - 1], inputs[|inputs| - 1];
      var before := After(limits, init);
      MarksDescend(limits, init);
      EveryRunKeepsLinks(limits, init);
      EveryRunKeepsLinks(limits, inputs);
      if Run(limits, before.cursor, input.publisher, input.target, input.now).Ok? {
        RunDescends(limits, before, LastFinal(limits, init), input);
      }
    }
    hide Run, Linked, Marked, Shown;
  }

  lemma RunDescends(limits: Limits, sys: System, final: Maps, input: Input)
    requires limits.Valid() && Run(limits, sys.cursor, input.publisher, input.target, input.now).Ok?
    requires Linked(InitialMaps(sys.cursor), sys.rows, sys.published) && Descends(InitialMaps(sys.cursor), final, sys.rows)
    ensures var out := Run(limits, sys.cursor, input.publisher, input.target, input.now).value;
            Descends(out.cursor.maps, if out.cursor.completed >= input.target then out.cursor.maps else final,
                     Folded(sys.rows, out.records, input.now))
  {
    hide *;
    var m, out := WorkingMaps(limits, sys, input), Run(limits, sys.cursor, input.publisher, input.target, input.now).value;
    RunFromWorkingMaps(limits, sys, input);
    FinishKeepsLinks(limits, out.cursor.completed, m, input.target, input.now, sys.rows, sys.published);
    forall x ensures Marked(m, x) ==> Marked(InitialMaps(sys.cursor), x) {
      WorkingSetsNoMarks(limits, sys, input, x);
    }
    DescendsLater(InitialMaps(sys.cursor), m, final, sys.rows);
    FinishDescends(limits, out.cursor.completed, m, input.target, input.now, sys.rows, sys.published, final);
  }

  lemma DescendsLater(m: Maps, later: Maps, final: Maps, rows: Rows)
    requires Descends(m, final, rows) && forall x :: Marked(later, x) ==> Marked(m, x)
    ensures Descends(later, final, rows)
  {
    hide Marked, Shown;
  }

  lemma FinishDescends(limits: Limits, completed: int, m: Maps, target: int, now: Time, rows: Rows, published: set<Text>,
                       final: Maps)
    requires Linked(m, rows, published) && Descends(m, final, rows) && Finish(limits, completed, m, target, now).Ok?
    ensures var out := Finish(limits, completed, m, target, now).value;
            && out.cursor.completed == completed
            && Descends(out.cursor.maps, if completed >= target then out.cursor.maps else final,
                        Folded(rows, out.records, now))
  {
    hide *;
    var out := Finish(limits, completed, m, target, now).value;
    LinkedIsDisjoint(m, rows, published);
    FinishKeepsLinks(limits, completed, m, target, now, rows, published);
    LinkedIsDisjoint(out.cursor.maps, Folded(rows, out.records, now), published + Actionables(out.records));
    FinishMeans(limits, completed, m, target, now, 0);
    FinishedView(limits, out, m, target, now, rows, published);
    NothingFolded(rows, now);
    forall x
      ensures completed < target ==> (Marked(out.cursor.maps, x) ==> Marked(m, x))
      ensures completed >= target && x in out.cursor.maps.tracked ==>
                (out.cursor.maps.tracked[x].wasVisible <==> Future(out.cursor.maps.tracked[x].body.deadline, now))
    {
      FinishMeans(limits, completed, m, target, now, x);
    }
    if completed >= target {
      FinalDescends(out.cursor.maps, Folded(rows, out.records, now), now);
    } else {
      DescendsLater(m, out.cursor.maps, final, rows);
    }
  }

  lemma FinalDescends(m: Maps, rows: Rows, now: Time)
    requires Disjoint(m) && m.closed == map[]
    requires forall x | x in m.tracked :: m.tracked[x].wasVisible <==> Future(m.tracked[x].body.deadline, now)
    requires forall x :: Shown(rows, SOURCE, x) <==> x in m.tracked && Future(m.tracked[x].body.deadline, now)
    ensures Descends(m, m, rows)
  {
    hide Marked, Shown, Future;
  }

  lemma LinkedIsDisjoint(m: Maps, rows: Rows, published: set<Text>)
    requires Linked(m, rows, published)
    ensures Disjoint(m) && 0 !in m.tracked && 0 !in m.closed
  {
  }

  /** Whatever the history, a tombstone is for a lot that is not on show exactly when that lot was
      already among the recently closed ones when the catch-up began: a later event woke it up, and
      it was closed, or found elapsed, a second time with its old mark. */
  lemma RepeatedTombstones(limits: Limits, history: seq<Input>, input: Input, out: Outcome, r: Record)
    requires limits.Valid()
    requires Run(limits, After(limits, history).cursor, input.publisher, input.target, input.now) == Ok(out)
    requires r in out.records && r.Record? && r.isActionable == Some(false)
    ensures !Shown(After(limits, history).rows, SOURCE, r.externalId) <==> r.externalId in LastFinal(limits, history).recent
  {
    hide *;
    var sys, x := After(limits, history), r.externalId;
    var m := WorkingMaps(limits, sys, input);
    MarksDescend(limits, history);
    EveryRunKeepsLinks(limits, history);
    RunFromWorkingMaps(limits, sys, input);
    LinkedIsDisjoint(m, sys.rows, sys.published);
    FinishMeans(limits, out.cursor.completed, m, input.target, input.now, x);
    TombstoneIsMarked(m, input.now, r);
    WorkingSetsNoMarks(limits, sys, input, x);
    MarkedAndShown(InitialMaps(sys.cursor), LastFinal(limits, history), sys.rows, x);
  }

  /** It does happen: a result that is newer than a recently closed lot closes it again, and the lot
      is announced again exactly when it still carries its mark. */
  lemma SecondResultSpeaks(m: Maps, e: Event)
    requires Disjoint(m) && e.kind.Terminal? && e.lot in m.recent
    ensures ClosureRecord(StepEvent(m, e).closed, e.lot).Some?
        <==> Less(m.recent[e.lot].key, e.key) && m.recent[e.lot].wasVisible
  {
  }

  lemma TombstoneIsMarked(m: Maps, now: Time, r: Record)
    requires Disjoint(m) && 0 !in m.tracked && 0 !in m.closed
    requires r.Record? && r.isActionable == Some(false)
    ensures r in FinalRecords(m, now) ==> Marked(m, r.externalId)
  {
    hide FinalRecords;
    if r in FinalRecords(m, now) {
      FinalRecordsAreOwned(m, now, r);
    }
  }

  lemma MarkedAndShown(m: Maps, final: Maps, rows: Rows, x: Text)
    requires Descends(m, final, rows) && Marked(m, x)
    ensures !Shown(rows, SOURCE, x) <==> x in final.recent
  {
    assert Marked(final, x);
    hide Shown;
  }
}
