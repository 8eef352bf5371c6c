/** Estonia: what the consumer shows after any sequence of runs. */
module EstoniaView {
  import opened Common
  import opened Lifecycle
  import opened Sorting
  import opened EstoniaMonths
  import opened EstoniaLots
  import opened EstoniaRuns

  datatype Input = Input(publisher: Publisher, clock: Clock, now: Time)

  datatype System = System(cursor: Option<Cursor>, rows: Rows)

  ghost predicate ValidInputs(inputs: seq<Input>) {
    forall i | 0 <= i < |inputs| :: ValidPublisher(inputs[i].publisher)
  }

  ghost function After(limits: Limits, inputs: seq<Input>): System
    requires limits.Valid()
  {
    if inputs == [] then System(None, map[])
    else Step(limits, After(limits, inputs[..|inputs| - 1]), inputs[|inputs| - 1])
  }

  /** A run that raises changes nothing; any other commits its cursor and its observations together. */
  ghost function Step(limits: Limits, sys: System, input: Input): System
    requires limits.Valid()
  {
    var r := Run(limits, sys.cursor, input.publisher, input.clock, input.now);
    if r.Err? then sys else System(Some(r.value.cursor), Folded(sys.rows, r.value.records, input.now))
  }

  ghost predicate Marked(states: States, x: Text) {
    x in states && states[x].wasVisible
  }

  /** A lot is on show exactly when it is held with its mark. */
  ghost predicate Linked(states: States, rows: Rows) {
    0 !in states && forall x :: Shown(rows, SOURCE, x) <==> Marked(states, x)
  }

  lemma EventKeepsMarks(states: States, e: Event, x: Text)
    ensures Marked(StepEvent(states, e), x) <==> Marked(states, x)
  {
  }

  lemma {:induction false} EventsKeepMarks(states: States, events: seq<Event>, x: Text)
    ensures Marked(Applied(states, events), x) <==> Marked(states, x)
    ensures x in Applied(states, events) ==> x in states || exists e | e in events :: e.externalId == x
  {
    if events != [] {
      var init, last := events[..|events| - 1], events[|events| - 1];
      EventsKeepMarks(states, init, x);
      EventKeepsMarks(Applied(states, init), last, x);
      assert last in events && forall e | e in init :: e in events;
    }
  }

  lemma {:induction false} FirstsAreMembers(events: seq<Event>)
    ensures forall e | e in Firsts(events) :: e in events
  {
    if events != [] {
      FirstsAreMembers(events[..|events| - 1]);
    }
  }

  lemma {:induction false} SelectedAreMembers(awards: seq<Event>, folders: set<Text>)
    ensures forall e | e in Selected(awards, folders) :: e in awards
  {
    if awards != [] {
      SelectedAreMembers(awards[..|awards| - 1], folders);
    }
  }

  lemma PeriodKeepsMarks(states: States, p: Period, x: Text)
    requires p.Valid()
    ensures Marked(AfterPeriod(states, p), x) <==> Marked(states, x)
    ensures 0 !in states ==> 0 !in AfterPeriod(states, p)
  {
    var noticed := Applied(states, Firsts(p.notices));
    var selected := Selected(p.awards, Folders(noticed));
    hide Applied, Firsts, Selected, Folders;
    FirstsAreMembers(p.notices);
    FirstsAreMembers(selected);
    SelectedAreMembers(p.awards, Folders(noticed));
    EventsKeepMarks(states, Firsts(p.notices), x);
    EventsKeepMarks(states, Firsts(p.notices), 0);
    EventsKeepMarks(noticed, Firsts(selected), x);
    EventsKeepMarks(noticed, Firsts(selected), 0);
  }

  /** Reading months neither makes a lot visible nor loses a visible one. */
  lemma {:induction false} MonthsKeepLinks(states: States, publisher: Publisher, months: seq<Month>, rows: Rows)
    requires ValidPublisher(publisher) && Linked(states, rows)
    requires Months(states, publisher, months).Ok?
    ensures Linked(Months(states, publisher, months).value, rows)
  {
    if months != [] {
      var init, m := months[..|months| - 1], months[|months| - 1];
      MonthsKeepLinks(states, publisher, init, rows);
      var before := Months(states, publisher, init).value;
      hide AfterPeriod;
      forall x ensures Marked(AfterPeriod(before, publisher(m).value), x) <==> Marked(before, x) {
        PeriodKeepsMarks(before, publisher(m).value, x);
      }
      PeriodKeepsMarks(before, publisher(m).value, 0);
    }
  }

  lemma RecordsAreOwn(states: States, now: Time)
    requires 0 !in states
    ensures EmitsOwn(FinalEmitter(states, now), SOURCE)
  {
    hide FinalRecord;
    var f := FinalEmitter(states, now);
    forall x | f(x).Some?
      ensures Relevant(f(x).value) && f(x).value.source == SOURCE && f(x).value.externalId == x
    {
      assert f(x) == FinalRecord(states, now, x);
    }
  }

  /** After a caught-up run a lot is on show exactly when it survives the run. */
  lemma FinalShow(states: States, rows: Rows, now: Time, x: Text)
    requires Linked(states, rows)
    ensures Shown(Folded(rows, Emit(Listed(states.Keys), FinalEmitter(states, now)), now), SOURCE, x)
        <==> x in Survivors(states, now)
  {
    hide Folded, Emit, Listed;
    var keys := Listed(states.Keys);
    RecordsAreOwn(states, now);
    EmitRow(rows, keys, FinalEmitter(states, now), SOURCE, now, x);
    assert FinalEmitter(states, now)(x) == FinalRecord(states, now, x);
    assert Shown(rows, SOURCE, x) <==> Marked(states, x);
  }

  /** Which records a caught-up run emits. */
  lemma FinalRecordsMean(states: States, now: Time, r: Record)
    requires 0 !in states
    ensures r in Emit(Listed(states.Keys), FinalEmitter(states, now))
       <==> r.Record? && FinalRecord(states, now, r.externalId) == Some(r)
    ensures r in Emit(Listed(states.Keys), FinalEmitter(states, now)) ==>
              Relevant(r) && (r.isActionable.value || Marked(states, r.externalId))
  {
    var keys := Listed(states.Keys);
    RecordsAreOwn(states, now);
    EmitIsBatch(keys, FinalEmitter(states, now), SOURCE);
    if r.Record? {
      assert FinalEmitter(states, now)(r.externalId) == FinalRecord(states, now, r.externalId);
    }
  }

  /** The states a run finishes with. */
  ghost function Worked(limits: Limits, sys: System, input: Input): States
    requires limits.Valid() && Run(limits, sys.cursor, input.publisher, input.clock, input.now).Ok?
  {
    var start := Start(limits, sys.cursor, input.clock, input.now).value;
    Months(InitialStates(sys.cursor), input.publisher, EstoniaRuns.Batch(start, input.clock(input.now), limits.maxMonths)).value
  }

  function OpenLots(states: States, now: Time): set<Text> {
    set x | x in states && !states[x].closed && Future(states[x].deadline, now)
  }

  lemma RunFromWork(limits: Limits, sys: System, input: Input)
    requires limits.Valid() && ValidPublisher(input.publisher)
    requires Run(limits, sys.cursor, input.publisher, input.clock, input.now).Ok?
    requires Linked(InitialStates(sys.cursor), sys.rows)
    ensures Linked(Worked(limits, sys, input), sys.rows)
    ensures
      var out, states := Run(limits, sys.cursor, input.publisher, input.clock, input.now).value, Worked(limits, sys, input);
      if out.cursor.catchupNext == "" then
        && out.records == Emit(Listed(states.Keys), FinalEmitter(states, input.now))
        && out.cursor.tracked == Survivors(states, input.now)
      else out.records == [] && out.cursor.tracked == states
  {
    var start := Start(limits, sys.cursor, input.clock, input.now).value;
    var batch := EstoniaRuns.Batch(start, input.clock(input.now), limits.maxMonths);
    MonthsKeepLinks(InitialStates(sys.cursor), input.publisher, batch, sys.rows);
    hide Start, Months, Linked, Emit, Listed, Survivors, EstoniaRuns.Batch;
    TextIsNotEmpty(ShiftMonth(batch[|batch| - 1], 1));
  }

  /** Marks and rows after a run; what a completed cursor holds is exactly what is on show. */
  lemma RunKeepsLinks(limits: Limits, sys: System, input: Input)
    requires limits.Valid() && ValidPublisher(input.publisher)
    requires Run(limits, sys.cursor, input.publisher, input.clock, input.now).Ok?
    requires Linked(InitialStates(sys.cursor), sys.rows)
    ensures var after := Step(limits, sys, input);
            && Linked(InitialStates(after.cursor), after.rows)
            && (after.cursor.value.catchupNext == "" ==>
                  forall x :: Shown(after.rows, SOURCE, x) <==> x in after.cursor.value.tracked)
            && (after.cursor.value.catchupNext != "" ==> after.rows == sys.rows)
  {
    RunFromWork(limits, sys, input);
    var states := Worked(limits, sys, input);
    var out := Run(limits, sys.cursor, input.publisher, input.clock, input.now).value;
    assert Step(limits, sys, input) == System(Some(out.cursor), Folded(sys.rows, out.records, input.now));
    hide *;
    if out.cursor.catchupNext == "" {
      forall x ensures Shown(Folded(sys.rows, out.records, input.now), SOURCE, x) <==> x in Survivors(states, input.now) {
        FinalShow(states, sys.rows, input.now, x);
      }
      SurvivorsAreLinked(out.cursor, states, input.now, sys.rows, Folded(sys.rows, out.records, input.now));
    } else {
      NothingFolded(sys.rows, input.now);
      WorkStaysLinked(out.cursor, states);
    }
  }

  lemma SurvivorsAreLinked(cursor: Cursor, states: States, now: Time, rows: Rows, after: Rows)
    requires cursor.catchupNext == "" && cursor.tracked == Survivors(states, now)
    requires Linked(states, rows)
    requires forall x :: Shown(after, SOURCE, x) <==> x in Survivors(states, now)
    ensures Linked(InitialStates(Some(cursor)), after)
  {
    hide Shown;
  }

  lemma WorkStaysLinked(cursor: Cursor, states: States)
    requires cursor.catchupNext != "" && cursor.tracked == states
    ensures InitialStates(Some(cursor)) == states
  {
  }

  lemma {:induction false} EveryRunKeepsLinks(limits: Limits, inputs: seq<Input>)
    requires limits.Valid() && ValidInputs(inputs)
    ensures var sys := After(limits, inputs); Linked(InitialStates(sys.cursor), sys.rows)
  {
    if inputs != [] {
      var before, input := After(limits, inputs[..|inputs| - 1]), inputs[|inputs| - 1];
      EveryRunKeepsLinks(limits, inputs[..|inputs| - 1]);
      hide Run, Linked;
      if Run(limits, before.cursor, input.publisher, input.clock, input.now).Ok? {
        RunKeepsLinks(limits, before, input);
      }
    }
  }

  /** Safety over whole runs, whatever the publisher said and whichever runs failed: a caught-up
      run leaves on show exactly the lots it tracks, namely the open lots with a future deadline;
      any other run says nothing; a tombstone always withdraws a lot that is on show. */
  lemma ViewIsExact(limits: Limits, history: seq<Input>, input: Input)
    requires limits.Valid() && ValidInputs(history) && ValidPublisher(input.publisher)
    requires Run(limits, After(limits, history).cursor, input.publisher, input.clock, input.now).Ok?
    ensures
      var before, after := After(limits, history), After(limits, history + [input]);
      var out := Run(limits, before.cursor, input.publisher, input.clock, input.now).value;
      && (out.cursor.catchupNext != "" ==> out.records == [] && after.rows == before.rows)
      && (out.cursor.catchupNext == "" ==>
            && (forall x :: Shown(after.rows, SOURCE, x) <==> x in out.cursor.tracked)
            && out.cursor.tracked.Keys == OpenLots(Worked(limits, before, input), input.now))
      && (forall r | r in out.records ::
            Relevant(r) && (!r.isActionable.value ==> Shown(before.rows, SOURCE, r.externalId)))
  {
    var before := After(limits, history);
    var all := history + [input];
    assert all[..|all| - 1] == history;
    EveryRunKeepsLinks(limits, history);
    RunKeepsLinks(limits, before, input);
    RunFromWork(limits, before, input);
    var states := Worked(limits, before, input);
    var out := Run(limits, before.cursor, input.publisher, input.clock, input.now).value;
    assert After(limits, all) == Step(limits, before, input);
    hide Run, Worked, Emit, Listed, Folded, FinalEmitter;
    forall r | r in out.records ensures Relevant(r) && (!r.isActionable.value ==> Shown(before.rows, SOURCE, r.externalId)) {
      FinalRecordsMean(states, input.now, r);
    }
  }
}
