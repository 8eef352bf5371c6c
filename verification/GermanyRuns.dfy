/** Germany: whole runs of the connector.  A run re-reads the overlap days, applies at most
    `maxDays` days and speaks to the consumer only when it has reached the target day. */
module GermanyRuns {
  import opened Common
  import opened Lifecycle
  import opened Sorting
  import opened GermanyLots

  const SOURCE: Text := 1

  /** The event list of a publication day; None when the download or the archive is rejected. */
  type Publisher = int -> Option<seq<Event>>

  datatype Cursor = Cursor(completed: int, maps: Maps)

  datatype Outcome = Outcome(records: seq<Record>, cursor: Cursor)

  datatype Limits = Limits(lookback: int, maxDays: int, overlap: int, retention: int, maxRecent: int) {
    predicate Valid() {
      lookback >= 1 && maxDays >= 1 && 0 <= overlap < maxDays && retention >= 1 && maxRecent >= 1
    }
  }

  const NOTHING := Maps(map[], map[], map[])

  // ---- finalisation --------------------------------------------------------------------

  /** What a closed lot has to say, and what a tracked one has. */
  function ClosureOf(s: LotState, x: Text): (r: Option<Record>)
    ensures r.Some? ==> Observes(r.value, SOURCE, x)
  {
    if s.wasVisible && !s.closureEmitted then
      Some(Record(SOURCE, x, Some(false),
                  if s.closure.Some? then s.closure.value.status else "closed",
                  if s.closure.Some? then s.closure.value.reason else "publisher result closes the tender opportunity",
                  s.key.time, s.body.firstPublished))
    else None
  }

  function TrackedOf(s: LotState, now: Time, x: Text): (r: Option<Record>)
    ensures r.Some? ==> Observes(r.value, SOURCE, x)
  {
    if Future(s.body.deadline, now) then
      Some(Record(SOURCE, x, Some(true), "active",
                  "publisher reports Works ContractNotice with future lot submission deadline",
                  s.key.time, s.body.firstPublished))
    else if !s.wasVisible then None
    else if s.body.deadline.None? then
      Some(Record(SOURCE, x, Some(false), "deadline_missing",
                  "tracked Works lot no longer has a valid structured submission deadline",
                  s.key.time, s.body.firstPublished))
    else
      Some(Record(SOURCE, x, Some(false), "deadline_elapsed", "lot submission deadline has elapsed",
                  s.key.time, s.body.firstPublished))
  }

  function ClosureRecord(closed: map<Text, LotState>, x: Text): Option<Record> {
    if x in closed then ClosureOf(closed[x], x) else None
  }

  function ClosureEmitter(closed: map<Text, LotState>): Text -> Option<Record> {
    (x: Text) => ClosureRecord(closed, x)
  }

  lemma ClosureIsLocal(a: map<Text, LotState>, b: map<Text, LotState>, x: Text)
    requires x in a && x in b && a[x] == b[x]
    ensures ClosureRecord(a, x) == ClosureEmitter(b)(x)
  {
  }

  function MarkEmitted(s: LotState): LotState {
    if s.wasVisible then s.(closureEmitted := true) else s
  }

  function AllMarked(closed: map<Text, LotState>): map<Text, LotState> {
    map x | x in closed :: MarkEmitted(closed[x])
  }

  function TrackedRecord(tracked: map<Text, LotState>, now: Time, x: Text): Option<Record> {
    if x in tracked then TrackedOf(tracked[x], now, x) else None
  }

  function TrackedEmitter(tracked: map<Text, LotState>, now: Time): Text -> Option<Record> {
    (x: Text) => TrackedRecord(tracked, now, x)
  }

  predicate Survives(s: LotState, now: Time) {
    Future(s.body.deadline, now) || s.body.deadline.None?
  }

  function Kept(s: LotState, now: Time): LotState {
    s.(wasVisible := Future(s.body.deadline, now))
  }

  function Survivors(tracked: map<Text, LotState>, now: Time): map<Text, LotState> {
    map x | x in tracked && Survives(tracked[x], now) :: Kept(tracked[x], now)
  }

  function FinalRecords(m: Maps, now: Time): seq<Record> {
    Emit(Listed(m.closed.Keys), ClosureEmitter(m.closed)) + Emit(Listed(m.tracked.Keys), TrackedEmitter(m.tracked, now))
  }

  function FinalMaps(m: Maps, now: Time): Maps {
    Maps(Survivors(m.tracked, now), map[], m.recent + AllMarked(m.closed))
  }

  function Pruned(recent: map<Text, LotState>, cutoff: int): map<Text, LotState> {
    map x | x in recent && recent[x].key.day >= cutoff :: recent[x]
  }

  // ---- one run ----------------------------------------------------------------------------

  /** Days are downloaded and applied one after the other; the first rejected one raises. */
  function Days(m: Maps, publisher: Publisher, start: int, count: nat): Result<Maps> {
    if count == 0 then Ok(m)
    else
      var before := Days(m, publisher, start, count - 1);
      if before.Err? then before
      else
        var day := publisher(start + count - 1);
        if day.None? then Err("daily export rejected")
        else if !Named(day.value) then Err("event missing external identity")
        else Ok(Applied(before.value, day.value))
  }

  function FirstDay(limits: Limits, watermark: Option<Cursor>, target: int): int {
    if watermark.Some? then watermark.value.completed + 1 - limits.overlap else target - limits.lookback + 1
  }

  function InitialMaps(watermark: Option<Cursor>): Maps {
    if watermark.Some? then watermark.value.maps else NOTHING
  }

  function InitialDay(limits: Limits, watermark: Option<Cursor>, target: int): int {
    if watermark.Some? then watermark.value.completed else target - limits.lookback
  }

  function Finish(limits: Limits, completed: int, m: Maps, target: int, now: Time): Result<Outcome> {
    var done := completed >= target;
    var final := if done then FinalMaps(m, now) else m;
    var kept := Pruned(final.recent, target - limits.retention);
    if |kept| > limits.maxRecent then Err("recently_closed exceeds its bound")
    else Ok(Outcome(if done then FinalRecords(m, now) else [],
                    Cursor(completed, Maps(final.tracked, final.closed, kept))))
  }

  /** From the first day to re-read, with the day already completed. */
  function Advance(limits: Limits, m: Maps, completed: int, start: int, publisher: Publisher, target: int, now: Time)
    : Result<Outcome>
    requires limits.Valid()
  {
    var count := DayCount(start, target, limits.maxDays);
    var applied := Days(m, publisher, start, count);
    if applied.Err? then Err(applied.error)
    else Finish(limits, if count == 0 then completed else Max(completed, start + count - 1), applied.value, target, now)
  }

  function Run(limits: Limits, watermark: Option<Cursor>, publisher: Publisher, target: int, now: Time): Result<Outcome>
    requires limits.Valid()
  {
    var m := InitialMaps(watermark);
    var completed := InitialDay(limits, watermark, target);
    if |m.recent| > limits.maxRecent then Err("recently_closed exceeds its bound")
    else if completed > target then Err("cursor is ahead of latest closed day")
    else Advance(limits, m, completed, FirstDay(limits, watermark, target), publisher, target, now)
  }

  class GermanConnector {
    const limits: Limits

    constructor (lookback: int, maxDays: int, overlap: int, retention: Option<int>, maxRecent: int)
      ensures limits.Valid()
    {
      var l, d := Max(1, lookback), Max(1, maxDays);
      limits := Limits(l, d, Min(Max(0, overlap), Max(0, d - 1)),
                       Max(1, if retention.None? then l else retention.value), Max(1, maxRecent));
    }

    method FinalizeClosed(book: LotBook) returns (records: seq<Record>)
      modifies book`closed
      ensures records == Emit(Listed(old(book.closed).Keys), ClosureEmitter(old(book.closed)))
      ensures book.closed == AllMarked(old(book.closed))
    {
      hide Emit, Listed, ClosureRecord, MarkEmitted;
      ghost var closed0 := book.closed;
      var keys := Listed(book.closed.Keys);
      records := [];
      EmitStart(keys, ClosureEmitter(closed0));
      for i := 0 to |keys|
        invariant records == Emit(keys[..i], ClosureEmitter(closed0))
        invariant book.closed.Keys == closed0.Keys
        invariant forall k | 0 <= k < i :: book.closed[keys[k]] == MarkEmitted(closed0[keys[k]])
        invariant forall k | i <= k < |keys| :: book.closed[keys[k]] == closed0[keys[k]]
      {
        EmitNext(keys, i, ClosureEmitter(closed0));
        var x := keys[i];
        var record := ClosureRecord(book.closed, x);
        ClosureIsLocal(book.closed, closed0, x);
        if record.Some? {
          records := records + [record.value];
        }
        book.closed := book.closed[x := MarkEmitted(book.closed[x])];
      }
      assert keys[..|keys|] == keys;
      assert forall x | x in closed0 :: x in keys;
    }

    method FinalizeTracked(book: LotBook, now: Time) returns (records: seq<Record>)
      modifies book`tracked
      ensures records == Emit(Listed(old(book.tracked).Keys), TrackedEmitter(old(book.tracked), now))
      ensures book.tracked == Survivors(old(book.tracked), now)
    {
      hide Emit, Listed;
      var tracked0 := book.tracked;
      var keys := Listed(tracked0.Keys);
      var survivors: map<Text, LotState> := map[];
      records := [];
      EmitStart(keys, TrackedEmitter(tracked0, now));
      for i := 0 to |keys|
        invariant book.tracked == tracked0
        invariant records == Emit(keys[..i], TrackedEmitter(tracked0, now))
        invariant forall x | x in survivors ::
          x in tracked0 && Survives(tracked0[x], now) && survivors[x] == Kept(tracked0[x], now)
        invariant forall k | 0 <= k < i :: Survives(tracked0[keys[k]], now) ==> keys[k] in survivors
      {
        EmitNext(keys, i, TrackedEmitter(tracked0, now));
        var x := keys[i];
        var record := TrackedRecord(tracked0, now, x);
        assert TrackedEmitter(tracked0, now)(x) == record;
        if record.Some? {
          records := records + [record.value];
        }
        if Survives(tracked0[x], now) {
          survivors := survivors[x := Kept(tracked0[x], now)];
        }
      }
      assert keys[..|keys|] == keys;
      assert forall x | x in tracked0 :: x in keys;
      book.tracked := survivors;
    }

    method PruneRecentlyClosed(book: LotBook, target: int)
      modifies book`recent
      ensures book.recent == Pruned(old(book.recent), target - limits.retention)
    {
      hide Listed;
      var cutoff := target - limits.retention;
      var recent0 := book.recent;
      var keys := Listed(recent0.Keys);
      for i := 0 to |keys|
        invariant forall x | x in book.recent :: x in recent0 && book.recent[x] == recent0[x]
        invariant forall k | 0 <= k < i :: keys[k] in book.recent <==> recent0[keys[k]].key.day >= cutoff
        invariant forall k | i <= k < |keys| :: keys[k] in book.recent
      {
        var x := keys[i];
        if recent0[x].key.day < cutoff {
          book.recent := book.recent - {x};
        }
      }
      forall x | x in recent0 ensures x in book.recent <==> recent0[x].key.day >= cutoff {
        assert x in keys;
      }
    }

    method ReadDays(book: LotBook, publisher: Publisher, start: int, days: seq<int>, completed: int)
      returns (r: Result<int>)
      requires forall i | 0 <= i < |days| :: days[i] == start + i
      modifies book
      ensures var spec := Days(old(book.Value()), publisher, start, |days|);
              if spec.Err? then r == Err(spec.error)
              else book.Value() == spec.value
                   && r == Ok(if |days| == 0 then completed else Max(completed, start + |days| - 1))
    {
      hide Applied;
      ghost var m := book.Value();
      var reached := completed;
      for i := 0 to |days|
        invariant Days(m, publisher, start, i) == Ok(book.Value())
        invariant reached == if i == 0 then completed else Max(completed, start + i - 1)
      {
        var events := publisher(days[i]);
        if events.None? {
          DaysStayRejected(m, publisher, start, i + 1, |days|);
          return Err("daily export rejected");
        }
        var ok := book.ApplyEvents(events.value);
        if !ok {
          DaysStayRejected(m, publisher, start, i + 1, |days|);
          return Err("event missing external identity");
        }
        if days[i] > reached {
          reached := days[i];
        }
      }
      r := Ok(reached);
    }

    method Publish(book: LotBook, completed: int, target: int, now: Time) returns (r: Result<Outcome>)
      modifies book
      ensures r == Finish(limits, completed, old(book.Value()), target, now)
    {
      var records: seq<Record> := [];
      if completed >= target {
        records := FinalizeClosed(book);
        var live := FinalizeTracked(book, now);
        records := records + live;
        book.recent := book.recent + book.closed;
        book.closed := map[];
      }
      PruneRecentlyClosed(book, target);
      if |book.recent| > limits.maxRecent {
        return Err("recently_closed exceeds its bound");
      }
      r := Ok(Outcome(records, Cursor(completed, book.Value())));
    }

    method FetchIncremental(watermark: Option<Cursor>, publisher: Publisher, target: int, now: Time)
      returns (r: Result<Outcome>)
      requires limits.Valid()
      ensures r == Run(limits, watermark, publisher, target, now)
    {
      hide Advance;
      var book := new LotBook(InitialMaps(watermark));
      if |book.recent| > limits.maxRecent {
        return Err("recently_closed exceeds its bound");
      }
      var completed, start;
      if watermark.Some? {
        completed := watermark.value.completed;
        if completed > target {
          return Err("cursor is ahead of latest closed day");
        }
        start := completed + 1 - limits.overlap;
      } else {
        completed := target - limits.lookback;
        start := completed + 1;
      }
      r := AdvanceTo(book, completed, start, publisher, target, now);
    }

    method AdvanceTo(book: LotBook, completed: int, start: int, publisher: Publisher, target: int, now: Time)
      returns (r: Result<Outcome>)
      requires limits.Valid()
      modifies book
      ensures r == Advance(limits, old(book.Value()), completed, start, publisher, target, now)
    {
      hide Days, Finish;
      var days := PlanDays(start, target, limits.maxDays);
      var reached := ReadDays(book, publisher, start, days, completed);
      if reached.Err? {
        return Err(reached.error);
      }
      r := Publish(book, reached.value, target, now);
    }
  }

  lemma {:induction false} DaysStayRejected(m: Maps, publisher: Publisher, start: int, i: nat, count: nat)
    requires i <= count && Days(m, publisher, start, i).Err?
    ensures Days(m, publisher, start, count) == Days(m, publisher, start, i)
  {
    if i < count {
      DaysStayRejected(m, publisher, start, i, count - 1);
    }
  }
}
