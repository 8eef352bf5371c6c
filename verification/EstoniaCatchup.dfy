/** Estonia: a catch-up in batches reads the same months, and says the same, as one pass. */
module EstoniaCatchup {
  import opened Common
  import opened Lifecycle
  import opened Sorting
  import opened EstoniaMonths
  import opened EstoniaLots
  import opened EstoniaRuns

  predicate CaughtUp(out: Outcome) {
    out.cursor.catchupNext == ""
  }

  /** The months still to be read from a cursor. */
  function Todo(limits: Limits, watermark: Option<Cursor>, clock: Clock, now: Time): seq<Month> {
    var start := Start(limits, watermark, clock, now);
    if start.Err? then [] else Pending(start.value, clock(now))
  }

  /** A cursor whose next month is a month the program accepts: what every cursor of a run from
      the year 2000 on is. */
  ghost predicate Readable(limits: Limits, watermark: Option<Cursor>, clock: Clock, now: Time) {
    var start := Start(limits, watermark, clock, now);
    start.Ok? && start.value.year >= 2000 && Calendar(start.value)
  }

  /** The same run with no limit on its months. */
  ghost function SinglePass(limits: Limits, watermark: Option<Cursor>, publisher: Publisher, clock: Clock, now: Time)
    : Result<Outcome>
    requires limits.Valid()
  {
    Run(limits.(maxMonths := Max(limits.maxMonths, |Todo(limits, watermark, clock, now)|)), watermark, publisher, clock, now)
  }

  /** Everything but the labels of the last batch. */
  function Unlabelled(r: Result<Outcome>): Result<Outcome> {
    if r.Err? then r else Ok(r.value.(cursor := r.value.cursor.(periods := [])))
  }

  lemma LastOfPending(start: Month, current: Month)
    requires Calendar(start) && Calendar(current)
    ensures var pending := Pending(start, current); pending[|pending| - 1] == current
  {
    RangeIsContiguous(start, current);
  }

  /** Only the last month of what is pending is the current one. */
  lemma BatchEndsAtCurrent(start: Month, current: Month, n: nat)
    requires Calendar(start) && Calendar(current)
    requires 0 < n <= |Pending(start, current)|
    ensures Pending(start, current)[n - 1] == current <==> n == |Pending(start, current)|
    ensures n < |Pending(start, current)| ==>
              && Pending(start, current) == MonthRange(start, current)
              && Pending(start, current)[n - 1] == ShiftMonth(start, n - 1)
              && ShiftMonth(Pending(start, current)[n - 1], 1) == ShiftMonth(start, n)
  {
    LastOfPending(start, current);
    RangeIsContiguous(start, current);
    if n < |Pending(start, current)| {
      ShiftComposes(start, n - 1, 1);
      ShiftComposes(start, |Pending(start, current)| - 1, 0);
    }
  }

  /** A run is caught up exactly when its batch holds everything pending. */
  lemma CaughtUpWhenNothingIsLeft(limits: Limits, watermark: Option<Cursor>, publisher: Publisher, clock: Clock, now: Time)
    requires limits.Valid() && ValidClock(clock)
    requires Readable(limits, watermark, clock, now)
    requires Run(limits, watermark, publisher, clock, now).Ok?
    ensures CaughtUp(Run(limits, watermark, publisher, clock, now).value)
       <==> |Todo(limits, watermark, clock, now)| <= limits.maxMonths
  {
    ReadableMeans(limits, watermark, clock, now);
    hide *;
    var start := Start(limits, watermark, clock, now).value;
    BatchReachesCurrent(start, clock(now), limits.maxMonths);
    RunEndsWithItsBatch(limits, watermark, publisher, clock, now, EstoniaRuns.Batch(start, clock(now), limits.maxMonths));
  }

  lemma BatchReachesCurrent(start: Month, current: Month, maxMonths: int)
    requires Calendar(start) && Calendar(current) && maxMonths >= 1
    ensures var batch := EstoniaRuns.Batch(start, current, maxMonths);
            batch != [] && (batch[|batch| - 1] == current <==> |Pending(start, current)| <= maxMonths)
  {
    hide *;
    var pending := Pending(start, current);
    var n := if maxMonths < |pending| then maxMonths else |pending|;
    BatchIs(start, current, maxMonths);
    BatchEndsAtCurrent(start, current, n);
  }

  lemma RunEndsWithItsBatch(limits: Limits, watermark: Option<Cursor>, publisher: Publisher, clock: Clock, now: Time,
                            batch: seq<Month>)
    requires limits.Valid() && Start(limits, watermark, clock, now).Ok? && limits.maxMonths >= 1
    requires batch == EstoniaRuns.Batch(Start(limits, watermark, clock, now).value, clock(now), limits.maxMonths)
    requires batch != [] && Run(limits, watermark, publisher, clock, now).Ok?
    ensures CaughtUp(Run(limits, watermark, publisher, clock, now).value) <==> batch[|batch| - 1] == clock(now)
  {
    hide *;
    UnfoldRun(limits, watermark, publisher, clock, now, batch);
    FinishIsCaughtUp(watermark, Months(InitialStates(watermark), publisher, batch).value, batch, clock(now), now);
  }

  lemma ReadableMeans(limits: Limits, watermark: Option<Cursor>, clock: Clock, now: Time)
    requires limits.Valid() && ValidClock(clock) && Readable(limits, watermark, clock, now)
    ensures var start := Start(limits, watermark, clock, now);
            && start.Ok? && Calendar(start.value) && Calendar(clock(now)) && limits.maxMonths >= 1
            && Todo(limits, watermark, clock, now) == Pending(start.value, clock(now))
  {
    hide Start, Calendar, Pending;
  }

  lemma BatchIs(start: Month, current: Month, maxMonths: int)
    requires maxMonths >= 1
    ensures var pending := Pending(start, current);
            EstoniaRuns.Batch(start, current, maxMonths)
            == pending[..if maxMonths < |pending| then maxMonths else |pending|]
  {
    hide Pending;
  }

  lemma FinishIsCaughtUp(watermark: Option<Cursor>, states: States, batch: seq<Month>, current: Month, now: Time)
    requires batch != []
    ensures CaughtUp(Finish(watermark, states, batch, current, now)) <==> batch[|batch| - 1] == current
  {
    TextIsNotEmpty(ShiftMonth(batch[|batch| - 1], 1));
    hide Emit, Listed, Survivors, Labels, MonthText, ShiftMonth;
  }

  /** A run without a cursor reads its initial months at once and is caught up. */
  lemma FirstRunCatchesUp(limits: Limits, publisher: Publisher, clock: Clock, now: Time)
    requires limits.Valid() && ValidClock(clock)
    requires Run(limits, None, publisher, clock, now).Ok?
    ensures CaughtUp(Run(limits, None, publisher, clock, now).value)
    ensures |Todo(limits, None, clock, now)| == limits.initial
  {
    hide Months, Emit, Listed, MonthText;
    var current := clock(now);
    ShiftComposes(current, -(limits.initial - 1), 0);
    var start := ShiftMonth(current, -(limits.initial - 1));
    hide ShiftMonth;
    RangeIsContiguous(start, current);
    BatchEndsAtCurrent(start, current, limits.initial);
  }

  /** A run that is not caught up emits nothing, keeps the mark, reads the first months of what
      is pending and leaves exactly the others; the text it stores reads back as the next month. */
  lemma BehindRun(limits: Limits, watermark: Option<Cursor>, publisher: Publisher, clock: Clock, now: Time, later: Time)
    requires limits.Valid() && ValidClock(clock)
    requires Readable(limits, watermark, clock, now)
    requires Run(limits, watermark, publisher, clock, now).Ok?
    requires !CaughtUp(Run(limits, watermark, publisher, clock, now).value)
    requires Index(clock(now)) <= Index(clock(later))
    ensures
      var out := Run(limits, watermark, publisher, clock, now).value;
      var start := Start(limits, watermark, clock, now).value;
      var n := limits.maxMonths;
      && out.records == []
      && (watermark.Some? ==> out.cursor.observed == watermark.value.observed)
      && n < |MonthRange(start, clock(now))|
      && Months(InitialStates(watermark), publisher, MonthRange(start, clock(now))[..n]) == Ok(out.cursor.tracked)
      && InitialStates(Some(out.cursor)) == out.cursor.tracked
      && Start(limits, Some(out.cursor), clock, later) == Ok(ShiftMonth(start, n))
      && Readable(limits, Some(out.cursor), clock, later)
      && Todo(limits, Some(out.cursor), clock, later) == MonthRange(start, clock(later))[n..]
      && Todo(limits, Some(out.cursor), clock, later) != []
      && n < |MonthRange(start, clock(later))|
      && MonthRange(start, clock(later))[..n] == MonthRange(start, clock(now))[..n]
  {
    hide Months, Emit, Listed, ShiftMonth, MonthText, ParseMonth;
    CaughtUpWhenNothingIsLeft(limits, watermark, publisher, clock, now);
    var start := Start(limits, watermark, clock, now).value;
    var n := limits.maxMonths;
    BatchEndsAtCurrent(start, clock(now), n);
    TextIsNotEmpty(ShiftMonth(start, n));
    NextMonth(start, n);
    LaterRange(start, clock(now), clock(later), n);
  }

  lemma NextMonth(start: Month, n: nat)
    requires start.year >= 2000 && Calendar(start)
    ensures ShiftMonth(start, n).year >= 2000 && Calendar(ShiftMonth(start, n))
    ensures ParseMonth(MonthText(ShiftMonth(start, n))) == Ok(ShiftMonth(start, n))
  {
    ShiftComposes(start, n, 0);
    hide MonthText, ParseMonth;
    MonthTextRoundTrip(ShiftMonth(start, n));
  }

  lemma LaterRange(start: Month, current: Month, later: Month, n: nat)
    requires Calendar(start) && Calendar(current) && Calendar(later)
    requires n < |MonthRange(start, current)| && Index(current) <= Index(later)
    ensures n < |MonthRange(start, later)|
    ensures MonthRange(start, later)[..n] == MonthRange(start, current)[..n]
    ensures Pending(ShiftMonth(start, n), later) == MonthRange(start, later)[n..]
  {
    RangeSplits(start, later, n);
  }

  /** One behind run changes nothing about what a single later pass yields. */
  lemma BehindRunThenPass(limits: Limits, watermark: Option<Cursor>, publisher: Publisher, clock: Clock, now: Time, later: Time)
    requires limits.Valid() && ValidClock(clock)
    requires watermark.Some? && Readable(limits, watermark, clock, later)
    requires Run(limits, watermark, publisher, clock, now).Ok?
    requires !CaughtUp(Run(limits, watermark, publisher, clock, now).value)
    requires Index(clock(now)) <= Index(clock(later))
    ensures var cursor := Run(limits, watermark, publisher, clock, now).value.cursor;
            Unlabelled(SinglePass(limits, Some(cursor), publisher, clock, later))
            == Unlabelled(SinglePass(limits, watermark, publisher, clock, later))
  {
    StartStays(limits, watermark, clock, now, later);
    assert Start(limits, watermark, clock, now).Ok?;
    hide *;
    BehindRun(limits, watermark, publisher, clock, now, later);
    var cursor := Run(limits, watermark, publisher, clock, now).value.cursor;
    var start := Start(limits, watermark, clock, now).value;
    var range, n := MonthRange(start, clock(later)), limits.maxMonths;
    TodoIsTheRange(limits, watermark, clock, later);
    MonthsAfterCut(InitialStates(watermark), publisher, range, n);
    PassReads(limits, watermark, publisher, clock, later, range);
    PassReads(limits, Some(cursor), publisher, clock, later, range[n..]);
  }

  lemma MonthsAfterCut(states: States, publisher: Publisher, range: seq<Month>, n: nat)
    requires n <= |range| && Months(states, publisher, range[..n]).Ok?
    ensures Months(states, publisher, range) == Months(Months(states, publisher, range[..n]).value, publisher, range[n..])
  {
    hide Months;
    assert range[..n] + range[n..] == range;
    MonthsInParts(states, publisher, range[..n], range[n..]);
  }

  lemma TodoIsTheRange(limits: Limits, watermark: Option<Cursor>, clock: Clock, now: Time)
    requires Start(limits, watermark, clock, now).Ok?
    requires MonthRange(Start(limits, watermark, clock, now).value, clock(now)) != []
    ensures Todo(limits, watermark, clock, now) == MonthRange(Start(limits, watermark, clock, now).value, clock(now))
  {
    hide Start, MonthRange;
  }

  /** What a single pass does, in terms of the months it reads. */
  lemma PassReads(limits: Limits, watermark: Option<Cursor>, publisher: Publisher, clock: Clock, now: Time, todo: seq<Month>)
    requires limits.Valid() && ValidClock(clock)
    requires Readable(limits, watermark, clock, now) && todo == Todo(limits, watermark, clock, now)
    ensures var read := Months(InitialStates(watermark), publisher, todo);
            Unlabelled(SinglePass(limits, watermark, publisher, clock, now)) ==
              if read.Err? then Err(read.error)
              else Ok(Outcome(Emit(Listed(read.value.Keys), FinalEmitter(read.value, now)),
                              Cursor(WholeSecond(now), Survivors(read.value, now), [], "")))
  {
    hide *;
    var start := Start(limits, watermark, clock, now);
    var widened := limits.(maxMonths := Max(limits.maxMonths, |todo|));
    PassIsTheWideRun(limits, watermark, publisher, clock, now, todo);
    LastOfPending(start.value, clock(now));
    BatchOfAll(start.value, clock(now), widened.maxMonths);
    RunIs(widened, watermark, publisher, clock, now, todo);
  }

  lemma PassIsTheWideRun(limits: Limits, watermark: Option<Cursor>, publisher: Publisher, clock: Clock, now: Time, todo: seq<Month>)
    requires limits.Valid() && ValidClock(clock)
    requires Readable(limits, watermark, clock, now) && todo == Todo(limits, watermark, clock, now)
    ensures var widened := limits.(maxMonths := Max(limits.maxMonths, |todo|));
            var start := Start(limits, watermark, clock, now);
            && widened.Valid() && widened.maxMonths >= |todo| && widened.maxMonths >= 1
            && SinglePass(limits, watermark, publisher, clock, now) == Run(widened, watermark, publisher, clock, now)
            && start.Ok? && Start(widened, watermark, clock, now) == start
            && todo == Pending(start.value, clock(now))
            && Calendar(start.value) && Calendar(clock(now))
  {
    hide Run, Pending, ShiftMonth, ParseMonth, Calendar;
  }

  lemma BatchOfAll(start: Month, current: Month, maxMonths: int)
    requires maxMonths >= |Pending(start, current)| && maxMonths >= 1
    ensures EstoniaRuns.Batch(start, current, maxMonths) == Pending(start, current)
  {
    hide Pending;
  }

  lemma RunIs(limits: Limits, watermark: Option<Cursor>, publisher: Publisher, clock: Clock, now: Time, batch: seq<Month>)
    requires limits.Valid() && Start(limits, watermark, clock, now).Ok? && limits.maxMonths >= 1
    requires batch == EstoniaRuns.Batch(Start(limits, watermark, clock, now).value, clock(now), limits.maxMonths)
    requires batch != [] && batch[|batch| - 1] == clock(now)
    ensures var read := Months(InitialStates(watermark), publisher, batch);
            Unlabelled(Run(limits, watermark, publisher, clock, now)) ==
              if read.Err? then Err(read.error)
              else Ok(Outcome(Emit(Listed(read.value.Keys), FinalEmitter(read.value, now)),
                              Cursor(WholeSecond(now), Survivors(read.value, now), [], "")))
  {
    hide *;
    UnfoldRun(limits, watermark, publisher, clock, now, batch);
    var read := Months(InitialStates(watermark), publisher, batch);
    if read.Ok? {
      FinishCaughtUp(watermark, read.value, batch, clock(now), now);
    }
    UnlabelledSays(Run(limits, watermark, publisher, clock, now));
  }

  lemma UnlabelledSays(r: Result<Outcome>)
    ensures r.Err? ==> Unlabelled(r) == r
    ensures r.Ok? ==> Unlabelled(r) == Ok(r.value.(cursor := r.value.cursor.(periods := [])))
  {
  }

  lemma UnfoldRun(limits: Limits, watermark: Option<Cursor>, publisher: Publisher, clock: Clock, now: Time, batch: seq<Month>)
    requires limits.Valid() && Start(limits, watermark, clock, now).Ok? && limits.maxMonths >= 1
    requires batch == EstoniaRuns.Batch(Start(limits, watermark, clock, now).value, clock(now), limits.maxMonths)
    requires batch != []
    ensures var read := Months(InitialStates(watermark), publisher, batch);
            Run(limits, watermark, publisher, clock, now)
            == if read.Err? then Err(read.error) else Ok(Finish(watermark, read.value, batch, clock(now), now))
  {
    hide Months, Finish, Start, InitialStates, EstoniaRuns.Batch;
  }

  lemma FinishCaughtUp(watermark: Option<Cursor>, states: States, batch: seq<Month>, current: Month, now: Time)
    requires batch != [] && batch[|batch| - 1] == current
    ensures Finish(watermark, states, batch, current, now)
         == Outcome(Emit(Listed(states.Keys), FinalEmitter(states, now)),
                    Cursor(WholeSecond(now), Survivors(states, now), Labels(batch), ""))
  {
    hide Emit, Listed, Survivors, Labels, MonthText;
  }

  /** A caught-up or failed run is the single pass itself, up to how far it read before failing. */
  lemma LastRunIsThePass(limits: Limits, watermark: Option<Cursor>, publisher: Publisher, clock: Clock, now: Time)
    requires limits.Valid() && ValidClock(clock) && Readable(limits, watermark, clock, now)
    requires var r := Run(limits, watermark, publisher, clock, now); r.Err? || CaughtUp(r.value)
    ensures Unlabelled(Run(limits, watermark, publisher, clock, now))
         == Unlabelled(SinglePass(limits, watermark, publisher, clock, now))
  {
    hide Finish, Months, MonthRange, ShiftMonth;
    if Run(limits, watermark, publisher, clock, now).Ok? {
      CaughtUpWhenNothingIsLeft(limits, watermark, publisher, clock, now);
    } else {
      var todo := Todo(limits, watermark, clock, now);
      MonthsStayRejected(InitialStates(watermark), publisher, todo, Min(limits.maxMonths, |todo|));
      PassReads(limits, watermark, publisher, clock, now, todo);
    }
  }

  // ---- chains of runs ---------------------------------------------------------------------------------

  /** The last of a chain of runs, each from the cursor of the one before. */
  ghost function Chain(limits: Limits, watermark: Option<Cursor>, publisher: Publisher, clock: Clock, nows: seq<Time>)
    : Result<Outcome>
    requires limits.Valid() && nows != []
    decreases |nows|
  {
    hide Run;
    var r := Run(limits, watermark, publisher, clock, nows[0]);
    if |nows| == 1 || r.Err? then r else Chain(limits, Some(r.value.cursor), publisher, clock, nows[1..])
  }

  /** Every run of the chain but the last is still behind. */
  ghost predicate StillBehind(limits: Limits, watermark: Option<Cursor>, publisher: Publisher, clock: Clock, nows: seq<Time>)
    requires limits.Valid()
    decreases |nows|
  {
    hide Run;
    |nows| > 1 ==>
      var r := Run(limits, watermark, publisher, clock, nows[0]);
      r.Ok? && !CaughtUp(r.value) && StillBehind(limits, Some(r.value.cursor), publisher, clock, nows[1..])
  }

  ghost predicate MonthsDoNotGoBack(clock: Clock, nows: seq<Time>) {
    forall i, j | 0 <= i < j < |nows| :: Index(clock(nows[i])) <= Index(clock(nows[j]))
  }

  /** Chunk independence: however a catch-up is cut into runs, and however far the calendar moves
      meanwhile, the run that catches up (or the failure that stops it) gives the observations,
      the tracked lots and the mark of a single pass from the first cursor at that last moment. */
  lemma {:induction false} ChunksAreOnePass(limits: Limits, watermark: Option<Cursor>, publisher: Publisher, clock: Clock,
                                            nows: seq<Time>)
    requires limits.Valid() && ValidClock(clock) && nows != [] && MonthsDoNotGoBack(clock, nows)
    requires watermark.Some? && Readable(limits, watermark, clock, nows[0])
    requires StillBehind(limits, watermark, publisher, clock, nows)
    requires var r := Chain(limits, watermark, publisher, clock, nows); r.Err? || CaughtUp(r.value)
    ensures Unlabelled(Chain(limits, watermark, publisher, clock, nows))
         == Unlabelled(SinglePass(limits, watermark, publisher, clock, nows[|nows| - 1]))
    decreases |nows|
  {
    hide *;
    if |nows| == 1 {
      ChainOfOne(limits, watermark, publisher, clock, nows);
      LastRunIsThePass(limits, watermark, publisher, clock, nows[0]);
    } else {
      var last := nows[|nows| - 1];
      ChainUnfolds(limits, watermark, publisher, clock, nows);
      var cursor := Run(limits, watermark, publisher, clock, nows[0]).value.cursor;
      StartStays(limits, watermark, clock, nows[0], last);
      BehindRun(limits, watermark, publisher, clock, nows[0], nows[1]);
      BehindRunThenPass(limits, watermark, publisher, clock, nows[0], last);
      ChunksAreOnePass(limits, Some(cursor), publisher, clock, nows[1..]);
    }
  }

  lemma StartStays(limits: Limits, watermark: Option<Cursor>, clock: Clock, now: Time, later: Time)
    requires watermark.Some?
    ensures Start(limits, watermark, clock, now) == Start(limits, watermark, clock, later)
    ensures Readable(limits, watermark, clock, now) <==> Readable(limits, watermark, clock, later)
  {
  }

  lemma ChainOfOne(limits: Limits, watermark: Option<Cursor>, publisher: Publisher, clock: Clock, nows: seq<Time>)
    requires limits.Valid() && |nows| == 1
    ensures Chain(limits, watermark, publisher, clock, nows) == Run(limits, watermark, publisher, clock, nows[0])
    ensures StillBehind(limits, watermark, publisher, clock, nows)
  {
    hide Run;
  }

  lemma ChainUnfolds(limits: Limits, watermark: Option<Cursor>, publisher: Publisher, clock: Clock, nows: seq<Time>)
    requires limits.Valid() && |nows| > 1
    ensures var r := Run(limits, watermark, publisher, clock, nows[0]);
            StillBehind(limits, watermark, publisher, clock, nows) <==>
              r.Ok? && !CaughtUp(r.value) && StillBehind(limits, Some(r.value.cursor), publisher, clock, nows[1..])
    ensures var r := Run(limits, watermark, publisher, clock, nows[0]);
            r.Ok? ==> Chain(limits, watermark, publisher, clock, nows)
                      == Chain(limits, Some(r.value.cursor), publisher, clock, nows[1..])
    ensures MonthsDoNotGoBack(clock, nows) ==>
              && MonthsDoNotGoBack(clock, nows[1..])
              && Index(clock(nows[0])) <= Index(clock(nows[1]))
              && Index(clock(nows[0])) <= Index(clock(nows[|nows| - 1]))
    ensures nows[1..][0] == nows[1] && nows[1..][|nows[1..]| - 1] == nows[|nows| - 1]
  {
    hide Run, Index;
  }

  /** The month labels the runs of a chain store, one after the other. */
  ghost function ChainLabels(limits: Limits, watermark: Option<Cursor>, publisher: Publisher, clock: Clock, nows: seq<Time>)
    : seq<string>
    requires limits.Valid()
    decreases |nows|
  {
    hide Run;
    if nows == [] then []
    else
      var r := Run(limits, watermark, publisher, clock, nows[0]);
      if r.Err? then []
      else r.value.cursor.periods + ChainLabels(limits, Some(r.value.cursor), publisher, clock, nows[1..])
  }

  lemma ChainLabelsUnfold(limits: Limits, watermark: Option<Cursor>, publisher: Publisher, clock: Clock, nows: seq<Time>)
    requires limits.Valid() && nows != []
    ensures var r := Run(limits, watermark, publisher, clock, nows[0]);
            r.Ok? ==> ChainLabels(limits, watermark, publisher, clock, nows)
                      == r.value.cursor.periods + ChainLabels(limits, Some(r.value.cursor), publisher, clock, nows[1..])
    ensures |nows| == 1 ==> forall w :: ChainLabels(limits, w, publisher, clock, nows[1..]) == []
  {
    hide Run;
  }

  lemma RunLabels(limits: Limits, watermark: Option<Cursor>, publisher: Publisher, clock: Clock, now: Time)
    requires limits.Valid() && ValidClock(clock) && Readable(limits, watermark, clock, now)
    requires Run(limits, watermark, publisher, clock, now).Ok?
    ensures var todo := Todo(limits, watermark, clock, now);
            Run(limits, watermark, publisher, clock, now).value.cursor.periods
            == Labels(todo[..if limits.maxMonths < |todo| then limits.maxMonths else |todo|])
  {
    ReadableMeans(limits, watermark, clock, now);
    hide *;
    var start := Start(limits, watermark, clock, now).value;
    BatchIs(start, clock(now), limits.maxMonths);
    BatchReachesCurrent(start, clock(now), limits.maxMonths);
    var batch := EstoniaRuns.Batch(start, clock(now), limits.maxMonths);
    UnfoldRun(limits, watermark, publisher, clock, now, batch);
    FinishLabels(watermark, Months(InitialStates(watermark), publisher, batch).value, batch, clock(now), now);
  }

  lemma FinishLabels(watermark: Option<Cursor>, states: States, batch: seq<Month>, current: Month, now: Time)
    requires batch != []
    ensures Finish(watermark, states, batch, current, now).cursor.periods == Labels(batch)
  {
    hide Emit, Listed, Survivors, Labels, MonthText;
  }

  lemma LabelsInParts(months: seq<Month>, n: nat)
    requires n <= |months|
    ensures Labels(months[..n]) + Labels(months[n..]) == Labels(months)
  {
  }

  /** The batches of a finished chain concatenate to the full contiguous range of months from the
      first one due to the month of the last run: each is read once, in order. */
  lemma {:induction false} BatchesConcatenate(limits: Limits, watermark: Option<Cursor>, publisher: Publisher, clock: Clock,
                                              nows: seq<Time>)
    requires limits.Valid() && ValidClock(clock) && nows != [] && MonthsDoNotGoBack(clock, nows)
    requires watermark.Some? && Readable(limits, watermark, clock, nows[0])
    requires StillBehind(limits, watermark, publisher, clock, nows)
    requires var r := Chain(limits, watermark, publisher, clock, nows); r.Ok? && CaughtUp(r.value)
    ensures ChainLabels(limits, watermark, publisher, clock, nows)
         == Labels(Todo(limits, watermark, clock, nows[|nows| - 1]))
    decreases |nows|
  {
    hide *;
    ChainLabelsUnfold(limits, watermark, publisher, clock, nows);
    if |nows| == 1 {
      ChainOfOne(limits, watermark, publisher, clock, nows);
      RunLabels(limits, watermark, publisher, clock, nows[0]);
      CaughtUpWhenNothingIsLeft(limits, watermark, publisher, clock, nows[0]);
      var todo := Todo(limits, watermark, clock, nows[0]);
      assert todo[..|todo|] == todo;
    } else {
      var last := nows[|nows| - 1];
      ChainUnfolds(limits, watermark, publisher, clock, nows);
      var cursor := Run(limits, watermark, publisher, clock, nows[0]).value.cursor;
      StartStays(limits, watermark, clock, nows[0], last);
      BehindRun(limits, watermark, publisher, clock, nows[0], nows[1]);
      BehindRun(limits, watermark, publisher, clock, nows[0], last);
      BatchesConcatenate(limits, Some(cursor), publisher, clock, nows[1..]);
      FirstOfTheRange(limits, watermark, publisher, clock, nows[0], last);
    }
  }

  lemma FirstOfTheRange(limits: Limits, watermark: Option<Cursor>, publisher: Publisher, clock: Clock, now: Time, later: Time)
    requires limits.Valid() && ValidClock(clock)
    requires watermark.Some? && Readable(limits, watermark, clock, now)
    requires Run(limits, watermark, publisher, clock, now).Ok?
    requires !CaughtUp(Run(limits, watermark, publisher, clock, now).value)
    requires Index(clock(now)) <= Index(clock(later))
    ensures var cursor := Run(limits, watermark, publisher, clock, now).value.cursor;
            cursor.periods + Labels(Todo(limits, Some(cursor), clock, later)) == Labels(Todo(limits, watermark, clock, later))
  {
    StartStays(limits, watermark, clock, now, later);
    assert Start(limits, watermark, clock, now).Ok?;
    hide *;
    BehindRun(limits, watermark, publisher, clock, now, now);
    BehindRun(limits, watermark, publisher, clock, now, later);
    RunLabels(limits, watermark, publisher, clock, now);
    var start, n := Start(limits, watermark, clock, now).value, limits.maxMonths;
    TodoIsTheRange(limits, watermark, clock, now);
    TodoIsTheRange(limits, watermark, clock, later);
    LabelsInParts(MonthRange(start, clock(later)), n);
  }

  function Repeated(now: Time, n: nat): (r: seq<Time>)
    ensures |r| == n && forall i | 0 <= i < n :: r[i] == now
  {
    seq(n, i => now)
  }

  /** How many runs a catch-up takes: the number of months over the batch size, rounded up. */
  function RunsNeeded(todo: int, perRun: int): (r: nat)
    requires todo >= 1 && perRun >= 1
    ensures r >= 1 && perRun * (r - 1) < todo <= perRun * r
  {
    if todo <= perRun then 1 else 1 + RunsNeeded(todo - perRun, perRun)
  }

  /** Progress: if every pending month can be read, the catch-up is complete after exactly the
      ceiling of months over batch size runs, and no run before that one is caught up. */
  lemma {:induction false} CatchesUpInTime(limits: Limits, watermark: Option<Cursor>, publisher: Publisher, clock: Clock, now: Time)
    requires limits.Valid() && ValidClock(clock)
    requires watermark.Some? && Readable(limits, watermark, clock, now)
    requires Months(InitialStates(watermark), publisher, Todo(limits, watermark, clock, now)).Ok?
    ensures
      var todo := Todo(limits, watermark, clock, now);
      todo != [] &&
      var nows := Repeated(now, RunsNeeded(|todo|, limits.maxMonths));
      && nows != []
      && StillBehind(limits, watermark, publisher, clock, nows)
      && Chain(limits, watermark, publisher, clock, nows).Ok?
      && CaughtUp(Chain(limits, watermark, publisher, clock, nows).value)
    decreases |Todo(limits, watermark, clock, now)|
  {
    assert limits.maxMonths >= 1;
    hide *;
    var todo, n := Todo(limits, watermark, clock, now), limits.maxMonths;
    RunReads(limits, watermark, publisher, clock, now);
    CaughtUpWhenNothingIsLeft(limits, watermark, publisher, clock, now);
    var nows := Repeated(now, RunsNeeded(|todo|, n));
    RunsNeededUnfolds(|todo|, n, now);
    if |todo| <= n {
      ChainOfOne(limits, watermark, publisher, clock, nows);
    } else {
      var cursor := Run(limits, watermark, publisher, clock, now).value.cursor;
      BehindRun(limits, watermark, publisher, clock, now, now);
      RestReads(limits, watermark, publisher, clock, now);
      CatchesUpInTime(limits, Some(cursor), publisher, clock, now);
      ChainUnfolds(limits, watermark, publisher, clock, nows);
    }
  }

  lemma RunsNeededUnfolds(todo: int, perRun: int, now: Time)
    requires todo >= 1 && perRun >= 1
    ensures todo <= perRun ==> RunsNeeded(todo, perRun) == 1
    ensures todo > perRun ==>
              && RunsNeeded(todo, perRun) > 1
              && Repeated(now, RunsNeeded(todo, perRun))[1..] == Repeated(now, RunsNeeded(todo - perRun, perRun))
  {
  }

  lemma RunReads(limits: Limits, watermark: Option<Cursor>, publisher: Publisher, clock: Clock, now: Time)
    requires limits.Valid() && Readable(limits, watermark, clock, now)
    requires Months(InitialStates(watermark), publisher, Todo(limits, watermark, clock, now)).Ok?
    ensures Todo(limits, watermark, clock, now) != []
    ensures Run(limits, watermark, publisher, clock, now).Ok?
  {
    hide Finish, Start;
    var todo := Todo(limits, watermark, clock, now);
    var batch := todo[..Min(limits.maxMonths, |todo|)];
    if Months(InitialStates(watermark), publisher, batch).Err? {
      MonthsStayRejected(InitialStates(watermark), publisher, todo, |batch|);
    }
  }

  lemma RestReads(limits: Limits, watermark: Option<Cursor>, publisher: Publisher, clock: Clock, now: Time)
    requires limits.Valid() && ValidClock(clock) && Readable(limits, watermark, clock, now)
    requires Run(limits, watermark, publisher, clock, now).Ok? && !CaughtUp(Run(limits, watermark, publisher, clock, now).value)
    requires Months(InitialStates(watermark), publisher, Todo(limits, watermark, clock, now)).Ok?
    ensures
      var cursor := Run(limits, watermark, publisher, clock, now).value.cursor;
      && Months(InitialStates(Some(cursor)), publisher, Todo(limits, Some(cursor), clock, now)).Ok?
      && |Todo(limits, Some(cursor), clock, now)| == |Todo(limits, watermark, clock, now)| - limits.maxMonths
  {
    BehindRun(limits, watermark, publisher, clock, now, now);
    RestOfTheRange(InitialStates(watermark), publisher, MonthRange(Start(limits, watermark, clock, now).value, clock(now)),
                   limits.maxMonths);
    hide Run, Start, Months, MonthRange, ShiftMonth;
  }

  lemma RestOfTheRange(states: States, publisher: Publisher, range: seq<Month>, n: nat)
    requires n <= |range| && Months(states, publisher, range).Ok?
    ensures var read := Months(states, publisher, range[..n]); read.Ok? && Months(read.value, publisher, range[n..]).Ok?
  {
    hide Months;
    if Months(states, publisher, range[..n]).Err? {
      MonthsStayRejected(states, publisher, range, n);
    } else {
      MonthsAfterCut(states, publisher, range, n);
    }
  }
}
