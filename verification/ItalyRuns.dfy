/** Italy: whole runs.  A caught-up run announces what changed, then forgets every closed and
    every elapsed lot. */
module ItalyRuns {
  import opened Common
  import opened Lifecycle
  import opened Sorting
  import opened ItalyLots

  const SOURCE: Text := 2

  /** The events of a publication day; None when the day's pages are rejected. */
  type Publisher = int -> Option<seq<Event>>

  datatype Cursor = Cursor(completed: int, maps: Maps)

  datatype Outcome = Outcome(records: seq<Record>, cursor: Cursor)

  datatype Limits = Limits(lookback: int, maxDays: int, overlap: int) {
    predicate Valid() {
      lookback >= 1 && maxDays >= 1 && 0 <= overlap < maxDays
    }
  }

  function RecordOf(s: LotState, x: Text, actionable: bool, status: string, reason: string): Record {
    Record(SOURCE, x, Some(actionable), status, reason, s.event.key.published, s.firstPublished)
  }

  function ClosureRecord(closed: map<Text, LotState>, x: Text): (r: Option<Record>)
    ensures r.Some? ==> x in closed && Observes(r.value, SOURCE, x)
  {
    if x in closed && closed[x].wasVisible then
      var s := closed[x];
      Some(RecordOf(s, x, false,
                    if s.closing.Some? then s.closing.value.0 else "publisher_inactive",
                    if s.closing.Some? then s.closing.value.1 else "publisher no longer reports an actionable Works lot"))
    else None
  }

  function ClosureEmitter(closed: map<Text, LotState>): Text -> Option<Record> {
    (x: Text) => ClosureRecord(closed, x)
  }

  function TrackedRecord(tracked: map<Text, LotState>, now: Time, x: Text): (r: Option<Record>)
    ensures r.Some? ==> x in tracked && Observes(r.value, SOURCE, x)
  {
    if x !in tracked then None
    else
      var s := tracked[x];
      if Future(s.event.deadline, now) then
        Some(RecordOf(s, x, true, "active", "PVL reports active visible Lavori lot with future submission deadline"))
      else if !s.wasVisible then None
      else if s.event.deadline.None? then
        Some(RecordOf(s, x, false, "deadline_missing",
                      "PVL Works lot no longer has a valid structured submission deadline"))
      else Some(RecordOf(s, x, false, "deadline_elapsed", "PVL lot submission deadline has elapsed"))
  }

  function TrackedEmitter(tracked: map<Text, LotState>, now: Time): Text -> Option<Record> {
    (x: Text) => TrackedRecord(tracked, now, x)
  }

  /** The deadline is not over, or none was given. */
  predicate Lasting(deadline: Option<Time>, now: Time) {
    Future(deadline, now) || deadline.None?
  }

  predicate Survives(s: LotState, now: Time) {
    Lasting(s.event.deadline, now)
  }

  function Kept(s: LotState, now: Time): LotState {
    s.(wasVisible := Future(s.event.deadline, now))
  }

  function Survivors(tracked: map<Text, LotState>, now: Time): map<Text, LotState> {
    map x | x in tracked && Survives(tracked[x], now) :: Kept(tracked[x], now)
  }

  function FinalRecords(m: Maps, now: Time): seq<Record> {
    Emit(Listed(m.closed.Keys), ClosureEmitter(m.closed)) + Emit(Listed(m.tracked.Keys), TrackedEmitter(m.tracked, now))
  }

  function Days(m: Maps, publisher: Publisher, start: int, count: nat): Result<Maps> {
    if count == 0 then Ok(m)
    else
      var before := Days(m, publisher, start, count - 1);
      if before.Err? then before
      else
        var day := publisher(start + count - 1);
        if day.None? then Err("day scan rejected")
        else if !Named(day.value) then Err("event missing CIG identity")
        else Ok(Applied(before.value, DayList(day.value)))
  }

  function FirstDay(limits: Limits, watermark: Option<Cursor>, target: int): int {
    if watermark.Some? then watermark.value.completed + 1 - limits.overlap else target - limits.lookback + 1
  }

  function InitialMaps(watermark: Option<Cursor>): Maps {
    if watermark.Some? then watermark.value.maps else Maps(map[], map[])
  }

  function InitialDay(limits: Limits, watermark: Option<Cursor>, target: int): int {
    if watermark.Some? then watermark.value.completed else target - limits.lookback
  }

  function Finish(completed: int, m: Maps, target: int, now: Time): Outcome {
    if completed >= target then
      Outcome(FinalRecords(m, now), Cursor(completed, Maps(Survivors(m.tracked, now), map[])))
    else Outcome([], Cursor(completed, m))
  }

  function Run(limits: Limits, watermark: Option<Cursor>, publisher: Publisher, target: int, now: Time): Result<Outcome>
    requires limits.Valid()
  {
    var completed, start := InitialDay(limits, watermark, target), FirstDay(limits, watermark, target);
    if completed > target then Err("cursor is ahead of current PVL day")
    else
      var count := DayCount(start, target, limits.maxDays);
      var applied := Days(InitialMaps(watermark), publisher, start, count);
      if applied.Err? then Err(applied.error)
      else Ok(Finish(if count == 0 then completed else Max(completed, start + count - 1), applied.value, target, now))
  }

  class ItalianConnector {
    const limits: Limits

    constructor (lookback: int, maxDays: int, overlap: int)
      ensures limits.Valid()
    {
      var d := Max(1, maxDays);
      limits := Limits(Max(1, lookback), d, Min(Max(0, overlap), Max(0, d - 1)));
    }

    method FinalizeTracked(book: LotBook, now: Time) returns (records: seq<Record>)
      modifies book`tracked
      ensures records == Emit(Listed(old(book.tracked).Keys), TrackedEmitter(old(book.tracked), now))
      ensures book.tracked == Survivors(old(book.tracked), now)
    {
      hide Emit, Listed;
      var tracked0 := book.tracked;
      var keys := Listed(tracked0.Keys);
      var survivors: map<Text, LotState> := map[];
      records := [];
      EmitStart(keys, TrackedEmitter(tracked0, now));
      for i := 0 to |keys|
        invariant book.tracked == tracked0
        invariant records == Emit(keys[..i], TrackedEmitter(tracked0, now))
        invariant forall x | x in survivors ::
          x in tracked0 && Survives(tracked0[x], now) && survivors[x] == Kept(tracked0[x], now)
        invariant forall k | 0 <= k < i :: Survives(tracked0[keys[k]], now) ==> keys[k] in survivors
      {
        EmitNext(keys, i, TrackedEmitter(tracked0, now));
        var x := keys[i];
        var record := TrackedRecord(tracked0, now, x);
        assert TrackedEmitter(tracked0, now)(x) == record;
        if record.Some? {
          records := records + [record.value];
        }
        if Survives(tracked0[x], now) {
          survivors := survivors[x := Kept(tracked0[x], now)];
        }
      }
      assert keys[..|keys|] == keys;
      assert forall x | x in tracked0 :: x in keys;
      book.tracked := survivors;
    }

    method AnnounceClosed(book: LotBook) returns (records: seq<Record>)
      ensures records == Emit(Listed(book.closed.Keys), ClosureEmitter(book.closed))
    {
      var keys := Listed(book.closed.Keys);
      records := [];
      for i := 0 to |keys|
        invariant records == Emit(keys[..i], ClosureEmitter(book.closed))
      {
        EmitNext(keys, i, ClosureEmitter(book.closed));
        if book.closed[keys[i]].wasVisible {
          records := records + [ClosureRecord(book.closed, keys[i]).value];
        }
      }
      assert keys[..|keys|] == keys;
    }

    method ReadDays(book: LotBook, publisher: Publisher, start: int, days: seq<int>, completed: int)
      returns (r: Result<int>)
      requires forall i | 0 <= i < |days| :: days[i] == start + i
      modifies book
      ensures var spec := Days(old(book.Value()), publisher, start, |days|);
              if spec.Err? then r == Err(spec.error)
              else book.Value() == spec.value
                   && r == Ok(if |days| == 0 then completed else Max(completed, start + |days| - 1))
    {
      hide DayList, Applied;
      ghost var m := book.Value();
      var reached := completed;
      for i := 0 to |days|
        invariant Days(m, publisher, start, i) == Ok(book.Value())
        invariant reached == if i == 0 then completed else Max(completed, start + i - 1)
      {
        var events := publisher(days[i]);
        if events.None? {
          DaysStayRejected(m, publisher, start, i + 1, |days|);
          return Err("day scan rejected");
        }
        var ok := book.ApplyEvents(events.value);
        if !ok {
          DaysStayRejected(m, publisher, start, i + 1, |days|);
          return Err("event missing CIG identity");
        }
        if days[i] > reached {
          reached := days[i];
        }
      }
      r := Ok(reached);
    }

    method FetchIncremental(watermark: Option<Cursor>, publisher: Publisher, target: int, now: Time)
      returns (r: Result<Outcome>)
      requires limits.Valid()
      ensures r == Run(limits, watermark, publisher, target, now)
    {
      hide Days, Emit, Listed;
      var book := new LotBook(InitialMaps(watermark));
      var completed, start;
      if watermark.Some? {
        completed := watermark.value.completed;
        if completed > target {
          return Err("cursor is ahead of current PVL day");
        }
        start := completed + 1 - limits.overlap;
      } else {
        completed := target - limits.lookback;
        start := completed + 1;
      }
      var days := PlanDays(start, target, limits.maxDays);
      var reached := ReadDays(book, publisher, start, days, completed);
      if reached.Err? {
        return Err(reached.error);
      }
      var records: seq<Record> := [];
      if reached.value >= target {
        records := AnnounceClosed(book);
        var live := FinalizeTracked(book, now);
        records := records + live;
        book.closed := map[];
      }
      r := Ok(Outcome(records, Cursor(reached.value, book.Value())));
    }
  }

  lemma {:induction false} DaysStayRejected(m: Maps, publisher: Publisher, start: int, i: nat, count: nat)
    requires i <= count && Days(m, publisher, start, i).Err?
    ensures Days(m, publisher, start, count) == Days(m, publisher, start, i)
  {
    if i < count {
      DaysStayRejected(m, publisher, start, i, count - 1);
    }
  }
}
