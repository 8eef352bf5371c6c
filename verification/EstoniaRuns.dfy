/** Estonia: whole runs over a range of months, in batches resumed through a textual cursor. */
module EstoniaRuns {
  import opened Common
  import opened Lifecycle
  import opened Sorting
  import opened EstoniaMonths
  import opened EstoniaLots

  const SOURCE: Text := 4

  /** The notices and awards of a month; None when its resources are rejected. */
  type Publisher = Month -> Option<Period>

  /** The month an instant falls in, in local time. */
  type Clock = Time -> Month

  ghost predicate ValidClock(clock: Clock) {
    forall t :: Calendar(clock(t))
  }

  ghost predicate ValidPublisher(publisher: Publisher) {
    forall m :: publisher(m).Some? ==> publisher(m).value.Valid()
  }

  datatype Cursor = Cursor(observed: Time, tracked: States, periods: seq<string>, catchupNext: string)

  datatype Outcome = Outcome(records: seq<Record>, cursor: Cursor)

  datatype Limits = Limits(initial: int, overlap: int, maxMonths: int) {
    predicate Valid() {
      initial >= 1 && overlap >= 0 && maxMonths >= initial
    }
  }

  function RecordOf(lot: Lot, x: Text, actionable: bool, status: string, reason: string): Record {
    Record(SOURCE, x, Some(actionable), status, reason, lot.stamp, lot.firstPublished)
  }

  function FinalRecord(states: States, now: Time, x: Text): (r: Option<Record>)
    ensures r.Some? ==> x in states && Observes(r.value, SOURCE, x)
  {
    if x !in states then None
    else
      var lot := states[x];
      if lot.closed then
        if lot.wasVisible then
          Some(RecordOf(lot, x, false, "result_published", "RHR ContractAwardNotice published for this procurement lot"))
        else None
      else if Future(lot.deadline, now) then
        Some(RecordOf(lot, x, true, "active", "RHR publishes a Works lot with a future submission deadline"))
      else if !lot.wasVisible then None
      else if lot.deadline.None? then
        Some(RecordOf(lot, x, false, "deadline_missing", "RHR Works lot no longer has a valid submission deadline"))
      else Some(RecordOf(lot, x, false, "deadline_elapsed", "RHR submission deadline has elapsed"))
  }

  function FinalEmitter(states: States, now: Time): Text -> Option<Record> {
    (x: Text) => FinalRecord(states, now, x)
  }

  predicate Survives(lot: Lot, now: Time) {
    !lot.closed && Future(lot.deadline, now)
  }

  function Survivors(states: States, now: Time): States {
    map x | x in states && Survives(states[x], now) :: states[x].(wasVisible := true)
  }

  function InitialStates(watermark: Option<Cursor>): States {
    if watermark.None? then map[]
    else if watermark.value.catchupNext != "" then watermark.value.tracked
    else map x | x in watermark.value.tracked :: watermark.value.tracked[x].(wasVisible := true)
  }

  function Start(limits: Limits, watermark: Option<Cursor>, clock: Clock, now: Time): Result<Month> {
    if watermark.None? then Ok(ShiftMonth(clock(now), -(limits.initial - 1)))
    else if watermark.value.catchupNext != "" then ParseMonth(watermark.value.catchupNext)
    else Ok(ShiftMonth(clock(watermark.value.observed), -limits.overlap))
  }

  function Pending(start: Month, current: Month): (r: seq<Month>)
    ensures r != []
  {
    var range := MonthRange(start, current);
    if range == [] then [current] else range
  }

  function Batch(start: Month, current: Month, maxMonths: int): (r: seq<Month>)
    requires maxMonths >= 1
    ensures r != []
  {
    var pending := Pending(start, current);
    pending[..Min(maxMonths, |pending|)]
  }

  ghost function Months(states: States, publisher: Publisher, months: seq<Month>): Result<States> {
    if months == [] then Ok(states)
    else
      var before, m := Months(states, publisher, months[..|months| - 1]), months[|months| - 1];
      if before.Err? then before
      else if publisher(m).None? then Err("cursor not advanced")
      else Ok(AfterPeriod(before.value, publisher(m).value))
  }

  function Labels(months: seq<Month>): (r: seq<string>)
    ensures |r| == |months|
    ensures forall i | 0 <= i < |months| :: r[i] == MonthText(months[i])
  {
    seq(|months|, i requires 0 <= i < |months| => MonthText(months[i]))
  }

  function Finish(watermark: Option<Cursor>, states: States, batch: seq<Month>, current: Month, now: Time): Outcome
    requires batch != []
  {
    var last := batch[|batch| - 1];
    if last == current then
      Outcome(Emit(Listed(states.Keys), FinalEmitter(states, now)),
              Cursor(WholeSecond(now), Survivors(states, now), Labels(batch), ""))
    else
      Outcome([], Cursor(if watermark.Some? then watermark.value.observed else WholeSecond(now),
                         states, Labels(batch), MonthText(ShiftMonth(last, 1))))
  }

  ghost function Run(limits: Limits, watermark: Option<Cursor>, publisher: Publisher, clock: Clock, now: Time): Result<Outcome>
    requires limits.Valid()
  {
    var start := Start(limits, watermark, clock, now);
    if start.Err? then Err(start.error)
    else
      var batch := Batch(start.value, clock(now), limits.maxMonths);
      var read := Months(InitialStates(watermark), publisher, batch);
      if read.Err? then Err(read.error) else Ok(Finish(watermark, read.value, batch, clock(now), now))
  }

  class EstonianConnector {
    const limits: Limits

    constructor (initialMonths: int, overlapMonths: int, maxMonths: int)
      ensures limits.Valid()
    {
      var initial := Max(1, initialMonths);
      limits := Limits(initial, Max(0, overlapMonths), Max(Max(initial, maxMonths), 1));
    }

    method Finalize(states: States, now: Time) returns (records: seq<Record>, tracked: States)
      ensures records == Emit(Listed(states.Keys), FinalEmitter(states, now))
      ensures tracked == Survivors(states, now)
    {
      hide Emit, Listed;
      var keys := Listed(states.Keys);
      records, tracked := [], map[];
      EmitStart(keys, FinalEmitter(states, now));
      for i := 0 to |keys|
        invariant records == Emit(keys[..i], FinalEmitter(states, now))
        invariant forall x | x in tracked ::
          x in states && Survives(states[x], now) && tracked[x] == states[x].(wasVisible := true)
        invariant forall k | 0 <= k < i :: Survives(states[keys[k]], now) ==> keys[k] in tracked
      {
        EmitNext(keys, i, FinalEmitter(states, now));
        var x := keys[i];
        var record := FinalRecord(states, now, x);
        assert FinalEmitter(states, now)(x) == record;
        if record.Some? {
          records := records + [record.value];
        }
        if Survives(states[x], now) {
          tracked := tracked[x := states[x].(wasVisible := true)];
        }
      }
      assert keys[..|keys|] == keys;
      assert forall x | x in states :: x in keys;
    }

    method ReadMonths(book: LotBook, publisher: Publisher, batch: seq<Month>) returns (ok: bool)
      requires ValidPublisher(publisher)
      modifies book
      ensures var read := Months(old(book.states), publisher, batch);
              if ok then read == Ok(book.states) else read == Err("cursor not advanced")
    {
      hide AfterPeriod;
      for i := 0 to |batch|
        invariant Months(old(book.states), publisher, batch[..i]) == Ok(book.states)
      {
        assert batch[..i + 1][..i] == batch[..i];
        var period := publisher(batch[i]);
        if period.None? {
          MonthsStayRejected(old(book.states), publisher, batch, i + 1);
          return false;
        }
        book.ApplyPeriod(period.value);
      }
      assert batch[..|batch|] == batch;
      ok := true;
    }

    method FetchIncremental(watermark: Option<Cursor>, publisher: Publisher, clock: Clock, now: Time)
      returns (r: Result<Outcome>)
      requires limits.Valid() && ValidPublisher(publisher)
      ensures r == Run(limits, watermark, publisher, clock, now)
    {
      hide Months, Emit, Listed, ParseMonth, MonthText, MonthRange, ShiftMonth;
      var current := clock(now);
      var book := new LotBook(InitialStates(watermark));
      var start: Month;
      if watermark.Some? && watermark.value.catchupNext != "" {
        var parsed := ParseMonth(watermark.value.catchupNext);
        if parsed.Err? {
          return Err(parsed.error);
        }
        start := parsed.value;
      } else if watermark.Some? {
        start := ShiftMonth(clock(watermark.value.observed), -limits.overlap);
      } else {
        start := ShiftMonth(current, -(limits.initial - 1));
      }
      var pending := MonthRange(start, current);
      if pending == [] {
        pending := [current];
      }
      var batch := pending[..Min(limits.maxMonths, |pending|)];
      var ok := ReadMonths(book, publisher, batch);
      if !ok {
        return Err("cursor not advanced");
      }
      if batch[|batch| - 1] != current {
        var next := ShiftMonth(batch[|batch| - 1], 1);
        var observed := if watermark.Some? then watermark.value.observed else WholeSecond(now);
        return Ok(Outcome([], Cursor(observed, book.states, Labels(batch), MonthText(next))));
      }
      var records, tracked := Finalize(book.states, now);
      r := Ok(Outcome(records, Cursor(WholeSecond(now), tracked, Labels(batch), "")));
    }
  }

  lemma {:induction false} MonthsStayRejected(states: States, publisher: Publisher, months: seq<Month>, i: nat)
    requires i <= |months| && Months(states, publisher, months[..i]).Err?
    ensures Months(states, publisher, months) == Months(states, publisher, months[..i])
    decreases |months|
  {
    if i == |months| {
      assert months[..i] == months;
    } else {
      var init := months[..|months| - 1];
      assert init[..i] == months[..i];
      MonthsStayRejected(states, publisher, init, i);
    }
  }

  /** Reading a list of months in two parts is reading it at once. */
  lemma {:induction false} MonthsInParts(states: States, publisher: Publisher, first: seq<Month>, second: seq<Month>)
    ensures var a := Months(states, publisher, first);
            Months(states, publisher, first + second) == if a.Err? then a else Months(a.value, publisher, second)
  {
    if second == [] {
      assert first + second == first;
    } else {
      var n := |second| - 1;
      MonthsInParts(states, publisher, first, second[..n]);
      assert (first + second)[..|first + second| - 1] == first + second[..n];
    }
  }
}
