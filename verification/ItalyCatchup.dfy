/** Italy: catching up in small runs that re-read the overlap is catching up in one.  A run that
    stops short forgets nothing, so no lot has to be excepted. */
module ItalyCatchup {
  import opened Common
  import opened Sorting
  import opened ItalyLots
  import opened ItalyRuns

  // ---- the feed of a range of days --------------------------------------------------------------

  ghost predicate PublishedOn(publisher: Publisher, e: Event, d: int) {
    publisher(d).Some? && e in publisher(d).value
  }

  /** The day can be read: its pages are served and every event names its lot. */
  ghost predicate Legible(publisher: Publisher, d: int) {
    publisher(d).Some? && Named(publisher(d).value)
  }

  ghost predicate AllLegible(publisher: Publisher, from: int, target: int) {
    forall d | from <= d <= target :: Legible(publisher, d)
  }

  /** Nothing published on day a has a larger key than something published on day b. */
  ghost predicate NotBefore(publisher: Publisher, a: int, b: int) {
    forall e, f | PublishedOn(publisher, e, a) && PublishedOn(publisher, f, b) :: AtMost(e.key, f.key)
  }

  ghost predicate InDayOrder(publisher: Publisher, from: int, target: int) {
    forall a, b | from <= a < b <= target :: NotBefore(publisher, a, b)
  }

  function Feed(publisher: Publisher, start: int, count: nat): seq<Event> {
    if count == 0 then []
    else
      var day := publisher(start + count - 1);
      Feed(publisher, start, count - 1) + (if day.Some? then DayList(day.value) else [])
  }

  lemma {:induction false} DaysApplyTheFeed(m: Maps, publisher: Publisher, start: int, count: nat)
    requires AllLegible(publisher, start, start + count - 1)
    ensures Days(m, publisher, start, count) == Ok(Applied(m, Feed(publisher, start, count)))
  {
    hide DayList;
    if count > 0 {
      DaysApplyTheFeed(m, publisher, start, count - 1);
      assert Legible(publisher, start + count - 1);
      AppliedInPieces(m, Feed(publisher, start, count - 1), DayList(publisher(start + count - 1).value));
    }
  }

  lemma {:induction false} FeedHolds(publisher: Publisher, start: int, count: nat, e: Event)
    ensures e in Feed(publisher, start, count) <==> exists d :: start <= d < start + count && PublishedOn(publisher, e, d)
  {
    if count > 0 {
      var last := start + count - 1;
      FeedHolds(publisher, start, count - 1, e);
      if publisher(last).Some? {
        SortKeeps(publisher(last).value, InOrder());
      }
      assert e in Feed(publisher, start, count) <==> e in Feed(publisher, start, count - 1) || PublishedOn(publisher, e, last);
    }
  }

  lemma {:induction false} FeedSplits(publisher: Publisher, start: int, first: nat, second: nat)
    ensures Feed(publisher, start, first + second)
         == Feed(publisher, start, first) + Feed(publisher, start + first, second)
  {
    hide DayList;
    if second > 0 {
      FeedSplits(publisher, start, first, second - 1);
    }
  }

  lemma OrderOfKeys()
    ensures Orders(InOrder())
  {
  }

  lemma DayIsSorted(events: seq<Event>)
    ensures SortedByKey(DayList(events))
    ensures forall e :: e in DayList(events) <==> e in events
  {
    OrderOfKeys();
    SortSorts(events, InOrder());
    SortKeeps(events, InOrder());
    var list := DayList(events);
    forall i, j | 0 <= i < j < |list| ensures AtMost(list[i].key, list[j].key) {
      assert InOrder()(list[i], list[j]);
    }
  }

  lemma JoinedInDayOrder(earlier: seq<Event>, day: seq<Event>)
    requires SortedByKey(earlier) && SortedByKey(day)
    requires forall e, f | e in earlier && f in day :: AtMost(e.key, f.key)
    ensures SortedByKey(earlier + day)
  {
    var all := earlier + day;
    forall i, j | 0 <= i < |earlier| <= j < |all| ensures AtMost(all[i].key, all[j].key) {
      assert all[i] in earlier && all[j] in day;
    }
    hide AtMost;
  }

  lemma {:induction false} FeedIsSorted(publisher: Publisher, start: int, count: nat)
    requires InDayOrder(publisher, start, start + count - 1)
    ensures SortedByKey(Feed(publisher, start, count))
  {
    hide DayList, SortedByKey, AtMost;
    if count > 0 && publisher(start + count - 1).Some? {
      var last := start + count - 1;
      var earlier, day := Feed(publisher, start, count - 1), publisher(last).value;
      FeedIsSorted(publisher, start, count - 1);
      DayIsSorted(day);
      forall e, f | e in earlier && f in DayList(day) ensures AtMost(e.key, f.key) {
        FeedHolds(publisher, start, count - 1, e);
        var d :| start <= d < start + count - 1 && PublishedOn(publisher, e, d);
        assert NotBefore(publisher, d, last) && PublishedOn(publisher, f, last);
      }
      JoinedInDayOrder(earlier, DayList(day));
    } else if count > 0 {
      FeedIsSorted(publisher, start, count - 1);
      assert Feed(publisher, start, count) == Feed(publisher, start, count - 1);
    } else {
      NothingIsSorted();
    }
  }

  lemma NothingIsSorted()
    ensures SortedByKey([])
  {
  }

  // ---- re-reading -----------------------------------------------------------------------------------

  /** The event has left its mark in the maps: applying it again would change nothing. */
  predicate LeftItsMark(m: Maps, e: Event) {
    var current := Lookup(m, e.lot);
    if current.None? then !Open(e) else AtMost(e.key, current.value.event.key)
  }

  lemma MarkStays(m: Maps, e: Event, next: Event)
    requires LeftItsMark(m, e) && AtMost(e.key, next.key)
    ensures LeftItsMark(StepEvent(m, next), e)
  {
    hide Closing;
  }

  lemma {:induction false} SortedFeedLeavesItsMarks(m: Maps, events: seq<Event>)
    requires SortedByKey(events)
    ensures forall i | 0 <= i < |events| :: LeftItsMark(Applied(m, events), events[i])
  {
    hide LeftItsMark, StepEvent, AtMost;
    if events != [] {
      var n := |events| - 1;
      SortedFeedLeavesItsMarks(m, events[..n]);
      var before := Applied(m, events[..n]);
      forall i | 0 <= i < |events| ensures LeftItsMark(Applied(m, events), events[i]) {
        if i < n {
          assert LeftItsMark(before, events[..n][i]);
          MarkStays(before, events[i], events[n]);
        } else {
          OwnMark(before, events[n]);
        }
      }
    }
  }

  lemma OwnMark(m: Maps, e: Event)
    ensures LeftItsMark(StepEvent(m, e), e)
  {
    hide Closing;
  }

  lemma {:induction false} MarkedReplayIsIdle(m: Maps, replay: seq<Event>)
    requires forall i | 0 <= i < |replay| :: LeftItsMark(m, replay[i])
    ensures Applied(m, replay) == m
  {
    if replay != [] {
      var n := |replay| - 1;
      forall i | 0 <= i < n ensures LeftItsMark(m, replay[..n][i]) {
        assert replay[..n][i] == replay[i];
      }
      MarkedReplayIsIdle(m, replay[..n]);
    }
  }

  /** Re-reading any part of a sorted feed that was already applied changes neither map. */
  lemma OverlapIsIdempotent(m: Maps, events: seq<Event>, replay: seq<Event>)
    requires SortedByKey(events) && forall e :: e in replay ==> e in events
    ensures Applied(Applied(m, events), replay) == Applied(m, events)
  {
    SortedFeedLeavesItsMarks(m, events);
    var after := Applied(m, events);
    hide Applied, LeftItsMark, SortedByKey;
    forall i | 0 <= i < |replay| ensures LeftItsMark(after, replay[i]) {
      assert replay[i] in events;
      var k :| 0 <= k < |events| && events[k] == replay[i];
      assert LeftItsMark(after, events[k]);
    }
    MarkedReplayIsIdle(after, replay);
  }

  /** One chunk: the overlap it re-reads has been absorbed, the rest extends the feed. */
  lemma ChunkExtendsTheFeed(m0: Maps, publisher: Publisher, s0: int, done: nat, start: int, count: nat)
    requires s0 <= start <= s0 + done <= start + count
    requires AllLegible(publisher, s0, start + count - 1) && InDayOrder(publisher, s0, start + count - 1)
    ensures Days(Applied(m0, Feed(publisher, s0, done)), publisher, start, count)
         == Ok(Applied(m0, Feed(publisher, s0, start + count - s0)))
  {
    hide Applied, Days, Feed, SortedByKey, NotBefore, Legible;
    var skipped, again, added := start - s0, s0 + done - start, start + count - (s0 + done);
    var m := Applied(m0, Feed(publisher, s0, done));
    var replay, rest := Feed(publisher, start, again), Feed(publisher, s0 + done, added);
    FeedSplits(publisher, s0, skipped, again);
    FeedSplits(publisher, start, again, added);
    FeedSplits(publisher, s0, done, added);
    DaysApplyTheFeed(m, publisher, start, count);
    FeedIsSorted(publisher, s0, done);
    OverlapIsIdempotent(m0, Feed(publisher, s0, done), replay);
    AppliedInPieces(m, replay, rest);
    AppliedInPieces(m0, Feed(publisher, s0, done), rest);
  }

  // ---- runs -------------------------------------------------------------------------------------------

  /** Every run keeps or raises `completed`, and one that is not caught up raises it. */
  lemma RunsAdvance(limits: Limits, watermark: Option<Cursor>, publisher: Publisher, target: int, now: Time)
    requires limits.Valid() && Run(limits, watermark, publisher, target, now).Ok?
    ensures var c := Run(limits, watermark, publisher, target, now).value.cursor;
            && InitialDay(limits, watermark, target) <= c.completed <= target
            && (c.completed < target ==> InitialDay(limits, watermark, target) < c.completed)
  {
    hide FinalRecords, Days;
  }

  /** One call of the connector: the day it aims at, and the clock. */
  datatype Call = Call(target: int, now: Time)

  /** The result of a chain of calls, and the call that returned it. */
  datatype Pass = Pass(result: Result<Outcome>, call: Call) {
    predicate Finished() {
      result.Err? || result.value.cursor.completed >= call.target
    }
  }

  /** Calls one after the other, each from the cursor the last one stored, until one is refused or
      reaches its own target. */
  function Chain(limits: Limits, watermark: Option<Cursor>, publisher: Publisher, calls: seq<Call>): Pass
    requires limits.Valid() && calls != []
    decreases |calls|
  {
    var pass := Pass(Run(limits, watermark, publisher, calls[0].target, calls[0].now), calls[0]);
    if pass.Finished() || |calls| == 1 then pass
    else Chain(limits, Some(pass.result.value.cursor), publisher, calls[1..])
  }

  lemma ChainStep(limits: Limits, watermark: Option<Cursor>, publisher: Publisher, calls: seq<Call>)
    requires limits.Valid() && calls != []
    ensures var pass := Pass(Run(limits, watermark, publisher, calls[0].target, calls[0].now), calls[0]);
            Chain(limits, watermark, publisher, calls)
            == if pass.Finished() || |calls| == 1 then pass
               else Chain(limits, Some(pass.result.value.cursor), publisher, calls[1..])
  {
    hide Run;
  }

  /** The calendar does not go back from one call to the next. */
  ghost predicate Onwards(calls: seq<Call>) {
    forall i, j | 0 <= i < j < |calls| :: calls[i].target <= calls[j].target
  }

  lemma FinishReaches(completed: int, m: Maps, target: int, now: Time)
    ensures Finish(completed, m, target, now).cursor.completed == completed
    ensures completed < target ==> Finish(completed, m, target, now) == Outcome([], Cursor(completed, m))
  {
    hide FinalRecords, Survivors;
  }

  lemma RunFinishes(limits: Limits, watermark: Option<Cursor>, publisher: Publisher, target: int, now: Time, m: Maps)
    requires limits.Valid()
    requires InitialDay(limits, watermark, target) <= target && FirstDay(limits, watermark, target) <= target
    requires var start := FirstDay(limits, watermark, target);
             Days(InitialMaps(watermark), publisher, start, DayCount(start, target, limits.maxDays)) == Ok(m)
    ensures var start := FirstDay(limits, watermark, target);
            Run(limits, watermark, publisher, target, now)
            == Ok(Finish(start + DayCount(start, target, limits.maxDays) - 1, m, target, now))
  {
    hide Days, Finish;
    var start := FirstDay(limits, watermark, target);
    assert start + DayCount(start, target, limits.maxDays) - 1 >= InitialDay(limits, watermark, target);
  }

  /** The run after `done` days of the feed extends the feed by what it newly reaches. */
  lemma NextRun(limits: Limits, m0: Maps, publisher: Publisher, s0: int, done: nat, target: int, now: Time)
    returns (reached: int)
    requires limits.Valid() && AllLegible(publisher, s0, target) && InDayOrder(publisher, s0, target)
    requires s0 + done - 1 < target && limits.overlap <= done
    ensures s0 + done <= reached <= target
    ensures Run(limits, Some(Cursor(s0 + done - 1, Applied(m0, Feed(publisher, s0, done)))), publisher, target, now)
         == Ok(Finish(reached, Applied(m0, Feed(publisher, s0, reached - s0 + 1)), target, now))
  {
    hide Applied, Days, Feed, Finish, Run, Legible, NotBefore;
    var c := Cursor(s0 + done - 1, Applied(m0, Feed(publisher, s0, done)));
    var start := s0 + done - limits.overlap;
    var count := DayCount(start, target, limits.maxDays);
    reached := start + count - 1;
    ChunkExtendsTheFeed(m0, publisher, s0, done, start, count);
    RunFinishes(limits, Some(c), publisher, target, now, Applied(m0, Feed(publisher, s0, reached - s0 + 1)));
  }

  lemma {:induction false} RemainingRuns(limits: Limits, m0: Maps, publisher: Publisher, s0: int, done: nat, calls: seq<Call>,
                                         last: int)
    requires limits.Valid() && calls != [] && Onwards(calls) && calls[|calls| - 1].target == last
    requires AllLegible(publisher, s0, last) && InDayOrder(publisher, s0, last)
    requires s0 + done - 1 < calls[0].target && limits.overlap <= done
    ensures var pass := Chain(limits, Some(Cursor(s0 + done - 1, Applied(m0, Feed(publisher, s0, done)))), publisher, calls);
            && pass.call in calls && calls[0].target <= pass.call.target
            && (pass.Finished() ==>
                  pass.result == Ok(Finish(pass.call.target, Applied(m0, Feed(publisher, s0, pass.call.target - s0 + 1)),
                                           pass.call.target, pass.call.now)))
            && (|calls| >= last - (s0 + done - 1) ==> pass.Finished())
    decreases |calls|
  {
    hide Applied, Feed, Finish, Run, Chain, Legible, NotBefore;
    var target, now := calls[0].target, calls[0].now;
    var c := Cursor(s0 + done - 1, Applied(m0, Feed(publisher, s0, done)));
    Within(publisher, s0, last, calls);
    var reached := NextRun(limits, m0, publisher, s0, done, target, now);
    ChainStep(limits, Some(c), publisher, calls);
    FinishReaches(reached, Applied(m0, Feed(publisher, s0, reached - s0 + 1)), target, now);
    if reached < target && |calls| > 1 {
      RemainingRuns(limits, m0, publisher, s0, reached - s0 + 1, calls[1..], last);
    }
  }

  lemma Within(publisher: Publisher, s0: int, last: int, calls: seq<Call>)
    requires calls != [] && Onwards(calls) && calls[|calls| - 1].target == last
    requires AllLegible(publisher, s0, last) && InDayOrder(publisher, s0, last)
    ensures calls[0].target <= last && AllLegible(publisher, s0, calls[0].target) && InDayOrder(publisher, s0, calls[0].target)
    ensures |calls| > 1 ==> Onwards(calls[1..]) && calls[0].target <= calls[1].target
  {
    hide Legible, NotBefore;
  }

  /** The limits under which one run covers what a chain covers: it may read every day, and if
      there is no cursor it looks back to the first day of the first call. */
  function OneLongRun(limits: Limits, longRun: int, first: int, target: int): Limits {
    limits.(maxDays := longRun, lookback := limits.lookback + target - first)
  }

  /** Nothing to read, or refused outright: the first call decides, whatever its length. */
  lemma NothingToRead(limits: Limits, longRun: int, watermark: Option<Cursor>, publisher: Publisher, target: int, now: Time)
    requires limits.Valid() && longRun >= limits.maxDays
    requires InitialDay(limits, watermark, target) > target || FirstDay(limits, watermark, target) > target
    ensures Run(OneLongRun(limits, longRun, target, target), watermark, publisher, target, now)
         == Run(limits, watermark, publisher, target, now)
    ensures Pass(Run(limits, watermark, publisher, target, now), Call(target, now)).Finished()
  {
    hide Finish;
    FinishReaches(InitialDay(limits, watermark, target), InitialMaps(watermark), target, now);
  }

  lemma LongRunReads(limits: Limits, longRun: int, watermark: Option<Cursor>, publisher: Publisher, first: int, target: int,
                     now: Time)
    requires limits.Valid() && longRun >= limits.maxDays && first <= target
    requires InitialDay(limits, watermark, first) <= first && FirstDay(limits, watermark, first) <= first
    requires longRun >= target - FirstDay(limits, watermark, first) + 1
    requires AllLegible(publisher, FirstDay(limits, watermark, first), target)
    ensures OneLongRun(limits, longRun, first, target).Valid()
    ensures var s0 := FirstDay(limits, watermark, first);
            Run(OneLongRun(limits, longRun, first, target), watermark, publisher, target, now)
            == Ok(Finish(target, Applied(InitialMaps(watermark), Feed(publisher, s0, target - s0 + 1)), target, now))
  {
    hide Applied, Days, Feed, Run, Finish, Legible;
    var m0, s0 := InitialMaps(watermark), FirstDay(limits, watermark, first);
    DaysApplyTheFeed(m0, publisher, s0, target - s0 + 1);
    RunFinishes(OneLongRun(limits, longRun, first, target), watermark, publisher, target, now,
                Applied(m0, Feed(publisher, s0, target - s0 + 1)));
  }

  /** Chunk and overlap independence, for every cursor and every schedule: runs at moving instants and
      targets that re-read the overlap end, once one of them reaches its own target, with the very
      maps, observations and errors of one run at that instant, long enough to cover every day; and
      one of them does, if there are as many as days to read. */
  lemma ChunkIndependence(limits: Limits, longRun: int, watermark: Option<Cursor>, publisher: Publisher, calls: seq<Call>)
    requires limits.Valid() && longRun >= limits.maxDays && calls != [] && Onwards(calls)
    requires longRun >= calls[|calls| - 1].target - FirstDay(limits, watermark, calls[0].target) + 1
    requires AllLegible(publisher, FirstDay(limits, watermark, calls[0].target), calls[|calls| - 1].target)
    requires InDayOrder(publisher, FirstDay(limits, watermark, calls[0].target), calls[|calls| - 1].target)
    ensures var pass := Chain(limits, watermark, publisher, calls);
            && pass.call in calls && calls[0].target <= pass.call.target
            && OneLongRun(limits, longRun, calls[0].target, pass.call.target).Valid()
            && (pass.Finished() ==>
                  pass.result == Run(OneLongRun(limits, longRun, calls[0].target, pass.call.target), watermark, publisher,
                                     pass.call.target, pass.call.now))
            && (|calls| >= calls[|calls| - 1].target - InitialDay(limits, watermark, calls[0].target) ==> pass.Finished())
  {
    hide Chain, Run;
    var first := calls[0].target;
    if InitialDay(limits, watermark, first) <= first && FirstDay(limits, watermark, first) <= first {
      SomethingToRead(limits, longRun, watermark, publisher, calls);
    } else {
      NothingToRead(limits, longRun, watermark, publisher, first, calls[0].now);
      ChainStep(limits, watermark, publisher, calls);
    }
  }

  lemma SomethingToRead(limits: Limits, longRun: int, watermark: Option<Cursor>, publisher: Publisher, calls: seq<Call>)
    requires limits.Valid() && longRun >= limits.maxDays && calls != [] && Onwards(calls)
    requires longRun >= calls[|calls| - 1].target - FirstDay(limits, watermark, calls[0].target) + 1
    requires AllLegible(publisher, FirstDay(limits, watermark, calls[0].target), calls[|calls| - 1].target)
    requires InDayOrder(publisher, FirstDay(limits, watermark, calls[0].target), calls[|calls| - 1].target)
    requires InitialDay(limits, watermark, calls[0].target) <= calls[0].target
    requires FirstDay(limits, watermark, calls[0].target) <= calls[0].target
    ensures var pass := Chain(limits, watermark, publisher, calls);
            && pass.call in calls && calls[0].target <= pass.call.target
            && OneLongRun(limits, longRun, calls[0].target, pass.call.target).Valid()
            && (pass.Finished() ==>
                  pass.result == Run(OneLongRun(limits, longRun, calls[0].target, pass.call.target), watermark, publisher,
                                     pass.call.target, pass.call.now))
            && (|calls| >= calls[|calls| - 1].target - InitialDay(limits, watermark, calls[0].target) ==> pass.Finished())
  {
    hide Applied, Days, Feed, Chain, Run, Finish, Legible, NotBefore;
    var target, now, last := calls[0].target, calls[0].now, calls[|calls| - 1].target;
    var m0, s0 := InitialMaps(watermark), FirstDay(limits, watermark, target);
    var count := DayCount(s0, target, limits.maxDays);
    var reached := s0 + count - 1;
    Within(publisher, s0, last, calls);
    DaysApplyTheFeed(m0, publisher, s0, count);
    RunFinishes(limits, watermark, publisher, target, now, Applied(m0, Feed(publisher, s0, count)));
    FinishReaches(reached, Applied(m0, Feed(publisher, s0, count)), target, now);
    ChainStep(limits, watermark, publisher, calls);
    if reached < target && |calls| > 1 {
      RemainingRuns(limits, m0, publisher, s0, count, calls[1..], last);
    }
    var call := Chain(limits, watermark, publisher, calls).call;
    assert call.target <= last;
    LongRunReads(limits, longRun, watermark, publisher, target, call.target, call.now);
  }
}
