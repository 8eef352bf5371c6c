/** Germany: catching up in small runs is catching up in one. */
module GermanyCatchup {
  import opened Common
  import opened GermanyLots
  import opened GermanyRuns
  import opened GermanyExpiry

  /** Every run keeps or raises `completed`, and one that is not caught up raises it. */
  lemma RunsAdvance(limits: Limits, watermark: Option<Cursor>, publisher: Publisher, target: int, now: Time)
    requires limits.Valid() && Run(limits, watermark, publisher, target, now).Ok?
    ensures var c := Run(limits, watermark, publisher, target, now).value.cursor;
            && InitialDay(limits, watermark, target) <= c.completed <= target
            && (c.completed < target ==> InitialDay(limits, watermark, target) < c.completed)
  {
  }

  /** Runs repeated over the same publisher data, at the same instant, until the target is reached. */
  function CatchUp(limits: Limits, watermark: Option<Cursor>, publisher: Publisher, target: int, now: Time)
    : Result<Outcome>
    requires limits.Valid()
    decreases watermark.None?, if watermark.Some? then Max(0, target - watermark.value.completed) else 0
  {
    var r := Run(limits, watermark, publisher, target, now);
    if r.Err? || r.value.cursor.completed >= target then r
    else
      RunsAdvance(limits, watermark, publisher, target, now);
      CatchUp(limits, Some(r.value.cursor), publisher, target, now)
  }

  // ---- the feed of a range of days -------------------------------------------------------

  /** Every day of the range is served, sorted, and carries its own publication day. */
  ghost predicate Serves(publisher: Publisher, from: int, target: int) {
    forall d | from <= d <= target :: DayIsSound(publisher, d)
  }

  ghost predicate DayIsSound(publisher: Publisher, d: int) {
    && publisher(d).Some? && Named(publisher(d).value) && SortedByKey(publisher(d).value)
    && forall i | 0 <= i < |publisher(d).value| :: publisher(d).value[i].key.day == d
  }

  function Feed(publisher: Publisher, start: int, count: nat): seq<Event> {
    if count == 0 then []
    else
      var day := publisher(start + count - 1);
      Feed(publisher, start, count - 1) + (if day.Some? then day.value else [])
  }

  lemma {:induction false} DaysApplyTheFeed(m: Maps, publisher: Publisher, start: int, count: nat)
    requires Serves(publisher, start, start + count - 1)
    ensures Days(m, publisher, start, count) == Ok(Applied(m, Feed(publisher, start, count)))
  {
    if count > 0 {
      DaysApplyTheFeed(m, publisher, start, count - 1);
      assert DayIsSound(publisher, start + count - 1);
      AppliedInPieces(m, Feed(publisher, start, count - 1), publisher(start + count - 1).value);
    }
  }

  lemma {:induction false} FeedIsSorted(publisher: Publisher, start: int, count: nat)
    requires Serves(publisher, start, start + count - 1)
    ensures SortedByKey(Feed(publisher, start, count))
    ensures forall i | 0 <= i < |Feed(publisher, start, count)| :: Feed(publisher, start, count)[i].key.day < start + count
  {
    if count > 0 {
      FeedIsSorted(publisher, start, count - 1);
      assert DayIsSound(publisher, start + count - 1);
    }
  }

  lemma {:induction false} FeedSplits(publisher: Publisher, start: int, first: nat, second: nat)
    ensures Feed(publisher, start, first + second)
         == Feed(publisher, start, first) + Feed(publisher, start + first, second)
  {
    if second > 0 {
      FeedSplits(publisher, start, first, second - 1);
    }
  }

  /** One chunk: the overlap it re-reads has been absorbed, the rest extends the feed. */
  lemma ChunkExtendsTheFeed(m0: Maps, publisher: Publisher, s0: int, done: nat, start: int, count: nat)
    requires s0 <= start <= s0 + done <= start + count
    requires Serves(publisher, s0, start + count - 1)
    ensures Days(Applied(m0, Feed(publisher, s0, done)), publisher, start, count)
         == Ok(Applied(m0, Feed(publisher, s0, start + count - s0)))
  {
    hide Applied, Days, Feed, SortedByKey;
    var skipped, again, added := start - s0, s0 + done - start, start + count - (s0 + done);
    var m := Applied(m0, Feed(publisher, s0, done));
    var replay, rest := Feed(publisher, start, again), Feed(publisher, s0 + done, added);
    FeedSplits(publisher, s0, skipped, again);
    FeedSplits(publisher, start, again, added);
    FeedSplits(publisher, s0, done, added);
    DaysApplyTheFeed(m, publisher, start, count);
    FeedIsSorted(publisher, s0, done);
    OverlapIsIdempotent(m0, Feed(publisher, s0, done), replay);
    AppliedInPieces(m, replay, rest);
    AppliedInPieces(m0, Feed(publisher, s0, done), rest);
  }

  // ---- recently closed lots ----------------------------------------------------------------

  ghost predicate AllRetained(recent: map<Text, LotState>, cutoff: int) {
    forall x | x in recent :: recent[x].key.day >= cutoff
  }

  lemma {:induction false} RecentOnlyShrinks(m: Maps, events: seq<Event>)
    ensures Applied(m, events).recent.Keys <= m.recent.Keys
    ensures forall x | x in Applied(m, events).recent :: Applied(m, events).recent[x] == m.recent[x]
  {
    if events != [] {
      RecentOnlyShrinks(m, events[..|events| - 1]);
    }
  }

  lemma SubmapIsSmaller(small: map<Text, LotState>, large: map<Text, LotState>)
    requires small.Keys <= large.Keys
    ensures |small| <= |large|
  {
    SubsetIsSmaller(small.Keys, large.Keys);
  }

  /** A run that stops short only stores what it applied. */
  lemma UnfinishedKeepsMaps(limits: Limits, m0: Maps, events: seq<Event>, completed: int, target: int, now: Time)
    requires completed < target
    requires AllRetained(m0.recent, target - limits.retention) && |m0.recent| <= limits.maxRecent
    ensures Finish(limits, completed, Applied(m0, events), target, now)
         == Ok(Outcome([], Cursor(completed, Applied(m0, events))))
  {
    var m := Applied(m0, events);
    RecentOnlyShrinks(m0, events);
    hide Applied;
    assert Pruned(m.recent, target - limits.retention) == m.recent;
    hide Pruned;
    SubmapIsSmaller(m.recent, m0.recent);
  }

  // ---- the theorem -----------------------------------------------------------------------------

  lemma CatchUpStep(limits: Limits, watermark: Option<Cursor>, publisher: Publisher, target: int, now: Time)
    requires limits.Valid()
    ensures var r := Run(limits, watermark, publisher, target, now);
            CatchUp(limits, watermark, publisher, target, now)
            == if r.Err? || r.value.cursor.completed >= target then r
               else CatchUp(limits, Some(r.value.cursor), publisher, target, now)
  {
  }

  lemma FinishReaches(limits: Limits, completed: int, m: Maps, target: int, now: Time)
    ensures Finish(limits, completed, m, target, now).Ok? ==>
              Finish(limits, completed, m, target, now).value.cursor.completed == completed
  {
  }

  lemma FinishIgnoresRunLength(limits: Limits, longRun: int, completed: int, m: Maps, target: int, now: Time)
    ensures Finish(limits.(maxDays := longRun), completed, m, target, now) == Finish(limits, completed, m, target, now)
  {
    hide FinalMaps, FinalRecords, Pruned;
  }

  lemma RunFinishes(limits: Limits, watermark: Option<Cursor>, publisher: Publisher, target: int, now: Time, m: Maps)
    requires limits.Valid()
    requires |InitialMaps(watermark).recent| <= limits.maxRecent
    requires InitialDay(limits, watermark, target) <= target && FirstDay(limits, watermark, target) <= target
    requires var start := FirstDay(limits, watermark, target);
             Days(InitialMaps(watermark), publisher, start, DayCount(start, target, limits.maxDays)) == Ok(m)
    ensures var start := FirstDay(limits, watermark, target);
            Run(limits, watermark, publisher, target, now)
            == Finish(limits, start + DayCount(start, target, limits.maxDays) - 1, m, target, now)
  {
    hide Days, Finish;
    var start := FirstDay(limits, watermark, target);
    assert start + DayCount(start, target, limits.maxDays) - 1 >= InitialDay(limits, watermark, target);
  }

  /** The run after `done` days of the feed extends the feed by what it newly reaches. */
  lemma NextRun(limits: Limits, m0: Maps, publisher: Publisher, s0: int, done: nat, target: int, now: Time)
    returns (reached: int)
    requires limits.Valid() && Serves(publisher, s0, target)
    requires s0 + done - 1 < target && limits.overlap <= done
    requires |m0.recent| <= limits.maxRecent
    ensures s0 + done <= reached <= target
    ensures Run(limits, Some(Cursor(s0 + done - 1, Applied(m0, Feed(publisher, s0, done)))), publisher, target, now)
         == Finish(limits, reached, Applied(m0, Feed(publisher, s0, reached - s0 + 1)), target, now)
  {
    hide Applied, Days, Feed, Finish, Run;
    var c := Cursor(s0 + done - 1, Applied(m0, Feed(publisher, s0, done)));
    var start := s0 + done - limits.overlap;
    var count := DayCount(start, target, limits.maxDays);
    reached := start + count - 1;
    RecentOnlyShrinks(m0, Feed(publisher, s0, done));
    SubmapIsSmaller(c.maps.recent, m0.recent);
    ChunkExtendsTheFeed(m0, publisher, s0, done, start, count);
    RunFinishes(limits, Some(c), publisher, target, now, Applied(m0, Feed(publisher, s0, reached - s0 + 1)));
  }

  lemma {:induction false} RemainingRuns(limits: Limits, m0: Maps, publisher: Publisher, s0: int, done: nat, target: int,
                                         now: Time)
    requires limits.Valid() && Serves(publisher, s0, target)
    requires s0 + done - 1 < target && limits.overlap <= done
    requires AllRetained(m0.recent, target - limits.retention) && |m0.recent| <= limits.maxRecent
    ensures CatchUp(limits, Some(Cursor(s0 + done - 1, Applied(m0, Feed(publisher, s0, done)))), publisher, target, now)
         == Finish(limits, target, Applied(m0, Feed(publisher, s0, target - s0 + 1)), target, now)
    decreases target - (s0 + done)
  {
    hide *;
    var c := Cursor(s0 + done - 1, Applied(m0, Feed(publisher, s0, done)));
    var reached := NextRun(limits, m0, publisher, s0, done, target, now);
    var events := Feed(publisher, s0, reached - s0 + 1);
    CatchUpStep(limits, Some(c), publisher, target, now);
    FinishReaches(limits, reached, Applied(m0, events), target, now);
    if reached < target {
      UnfinishedKeepsMaps(limits, m0, events, reached, target, now);
      RemainingRuns(limits, m0, publisher, s0, reached - s0 + 1, target, now);
    }
  }

  /** Nothing to read, or refused outright: one run decides, whatever its length. */
  lemma NothingToRead(limits: Limits, longRun: int, watermark: Option<Cursor>, publisher: Publisher, target: int, now: Time)
    requires limits.Valid() && longRun >= limits.maxDays
    requires |InitialMaps(watermark).recent| > limits.maxRecent
          || InitialDay(limits, watermark, target) > target || FirstDay(limits, watermark, target) > target
    ensures Run(limits.(maxDays := longRun), watermark, publisher, target, now)
         == Run(limits, watermark, publisher, target, now)
    ensures var r := Run(limits, watermark, publisher, target, now);
            r.Err? || r.value.cursor.completed >= target
  {
    hide Finish;
    var completed := InitialDay(limits, watermark, target);
    FinishIgnoresRunLength(limits, longRun, completed, InitialMaps(watermark), target, now);
    FinishReaches(limits, completed, InitialMaps(watermark), target, now);
  }

  /** While no recently closed lot is past its retention, small runs that re-read the overlap end
      with the very maps, observations and errors of one run long enough to cover every day. */
  lemma RetainedChunks(limits: Limits, longRun: int, watermark: Option<Cursor>, publisher: Publisher, target: int,
                       now: Time)
    requires limits.Valid() && longRun >= limits.maxDays
    requires longRun >= target - FirstDay(limits, watermark, target) + 1
    requires Serves(publisher, FirstDay(limits, watermark, target), target)
    requires AllRetained(InitialMaps(watermark).recent, target - limits.retention)
    ensures CatchUp(limits, watermark, publisher, target, now)
         == Run(limits.(maxDays := longRun), watermark, publisher, target, now)
  {
    hide CatchUp, Run;
    if |InitialMaps(watermark).recent| <= limits.maxRecent && InitialDay(limits, watermark, target) <= target
       && FirstDay(limits, watermark, target) <= target {
      SomethingToRead(limits, longRun, watermark, publisher, target, now);
    } else {
      NothingToRead(limits, longRun, watermark, publisher, target, now);
      CatchUpStep(limits, watermark, publisher, target, now);
    }
  }

  lemma SomethingToRead(limits: Limits, longRun: int, watermark: Option<Cursor>, publisher: Publisher, target: int,
                        now: Time)
    requires limits.Valid() && longRun >= limits.maxDays
    requires longRun >= target - FirstDay(limits, watermark, target) + 1
    requires Serves(publisher, FirstDay(limits, watermark, target), target)
    requires AllRetained(InitialMaps(watermark).recent, target - limits.retention)
    requires |InitialMaps(watermark).recent| <= limits.maxRecent
    requires InitialDay(limits, watermark, target) <= target && FirstDay(limits, watermark, target) <= target
    ensures CatchUp(limits, watermark, publisher, target, now)
         == Run(limits.(maxDays := longRun), watermark, publisher, target, now)
  {
    hide Applied, Days, Feed, CatchUp, Run, Finish;
    var m0, s0 := InitialMaps(watermark), FirstDay(limits, watermark, target);
    var count := DayCount(s0, target, limits.maxDays);
    var reached := s0 + count - 1;
    var some, all := Feed(publisher, s0, count), Feed(publisher, s0, target - s0 + 1);
    DaysApplyTheFeed(m0, publisher, s0, count);
    DaysApplyTheFeed(m0, publisher, s0, target - s0 + 1);
    RunFinishes(limits.(maxDays := longRun), watermark, publisher, target, now, Applied(m0, all));
    FinishIgnoresRunLength(limits, longRun, target, Applied(m0, all), target, now);
    RunFinishes(limits, watermark, publisher, target, now, Applied(m0, some));
    FinishReaches(limits, reached, Applied(m0, some), target, now);
    CatchUpStep(limits, watermark, publisher, target, now);
    if reached < target {
      UnfinishedKeepsMaps(limits, m0, some, reached, target, now);
      RemainingRuns(limits, m0, publisher, s0, count, target, now);
    }
  }

  // ---- expired lots --------------------------------------------------------------------------

  /** Whether a first run stops short of the target. */
  predicate StopsShort(limits: Limits, watermark: Option<Cursor>, target: int)
    requires limits.Valid()
  {
    && |InitialMaps(watermark).recent| <= limits.maxRecent && InitialDay(limits, watermark, target) <= target
    && FirstDay(limits, watermark, target) + limits.maxDays - 1 < target
  }

  /** The maps a first run that stops short has applied, before it prunes them. */
  function FirstChunk(limits: Limits, watermark: Option<Cursor>, publisher: Publisher, target: int): Maps
    requires limits.Valid()
  {
    Applied(InitialMaps(watermark), Feed(publisher, FirstDay(limits, watermark, target), limits.maxDays))
  }

  /** The events the later runs read, the overlap with the first one included. */
  function LaterEvents(limits: Limits, watermark: Option<Cursor>, publisher: Publisher, target: int): seq<Event>
    requires limits.Valid() && StopsShort(limits, watermark, target)
  {
    var start := FirstDay(limits, watermark, target) + limits.maxDays - limits.overlap;
    Feed(publisher, start, target - start + 1)
  }

  /** Every lot that the first run prunes is forgotten without a trace in the outcome. */
  ghost predicate ExpiryIsHarmless(limits: Limits, watermark: Option<Cursor>, publisher: Publisher, target: int, now: Time)
    requires limits.Valid()
  {
    StopsShort(limits, watermark, target) ==>
      AllHarmless(FirstChunk(limits, watermark, publisher, target), LaterEvents(limits, watermark, publisher, target), now,
                  target - limits.retention)
  }

  /** Chunk and overlap independence, for every cursor.  Small runs that re-read the overlap end
      with the maps and observations of one run long enough to cover every day exactly when each
      lot that the first run prunes as expired is forgotten without a trace, or when both are
      refused. */
  lemma ChunkIndependence(limits: Limits, longRun: int, watermark: Option<Cursor>, publisher: Publisher, target: int,
                          now: Time)
    requires limits.Valid() && longRun >= limits.maxDays
    requires longRun >= target - FirstDay(limits, watermark, target) + 1
    requires Serves(publisher, FirstDay(limits, watermark, target), target)
    ensures var chunked := CatchUp(limits, watermark, publisher, target, now);
            var whole := Run(limits.(maxDays := longRun), watermark, publisher, target, now);
            chunked == whole
            <==> (chunked.Err? && whole.Err?) || ExpiryIsHarmless(limits, watermark, publisher, target, now)
  {
    if StopsShort(limits, watermark, target) {
      ChunksAfterExpiry(limits, longRun, watermark, publisher, target, now);
      hide *;
      ForgettingMatters(limits, FirstChunk(limits, watermark, publisher, target),
                        LaterEvents(limits, watermark, publisher, target), target, now);
      HarmlessMeans(limits, watermark, publisher, target, now);
    } else {
      OneRunIsEnough(limits, longRun, watermark, publisher, target, now);
      hide CatchUp, Run;
    }
  }

  lemma HarmlessMeans(limits: Limits, watermark: Option<Cursor>, publisher: Publisher, target: int, now: Time)
    requires limits.Valid() && StopsShort(limits, watermark, target)
    ensures ExpiryIsHarmless(limits, watermark, publisher, target, now)
       <==> AllHarmless(FirstChunk(limits, watermark, publisher, target), LaterEvents(limits, watermark, publisher, target),
                        now, target - limits.retention)
  {
    hide AllHarmless, FirstChunk, LaterEvents;
  }

  lemma OneRunIsEnough(limits: Limits, longRun: int, watermark: Option<Cursor>, publisher: Publisher, target: int, now: Time)
    requires limits.Valid() && longRun >= limits.maxDays
    requires longRun >= target - FirstDay(limits, watermark, target) + 1
    requires Serves(publisher, FirstDay(limits, watermark, target), target)
    requires !StopsShort(limits, watermark, target)
    ensures CatchUp(limits, watermark, publisher, target, now)
         == Run(limits.(maxDays := longRun), watermark, publisher, target, now)
  {
    CatchUpStep(limits, watermark, publisher, target, now);
    if |InitialMaps(watermark).recent| <= limits.maxRecent && InitialDay(limits, watermark, target) <= target
       && FirstDay(limits, watermark, target) <= target {
      hide CatchUp, Run, Serves;
      EverythingInOneRun(limits, longRun, watermark, publisher, target, now);
    } else {
      hide CatchUp, Run, Serves;
      NothingToRead(limits, longRun, watermark, publisher, target, now);
    }
  }

  lemma EverythingInOneRun(limits: Limits, longRun: int, watermark: Option<Cursor>, publisher: Publisher, target: int, now: Time)
    requires limits.Valid() && longRun >= limits.maxDays
    requires Serves(publisher, FirstDay(limits, watermark, target), target)
    requires |InitialMaps(watermark).recent| <= limits.maxRecent && InitialDay(limits, watermark, target) <= target
    requires FirstDay(limits, watermark, target) <= target <= FirstDay(limits, watermark, target) + limits.maxDays - 1
    ensures var r := Run(limits, watermark, publisher, target, now);
            && Run(limits.(maxDays := longRun), watermark, publisher, target, now) == r
            && (r.Err? || r.value.cursor.completed >= target)
  {
    hide Applied, Days, Feed, Finish, Run;
    var m0, s0 := InitialMaps(watermark), FirstDay(limits, watermark, target);
    var m := Applied(m0, Feed(publisher, s0, target - s0 + 1));
    DaysApplyTheFeed(m0, publisher, s0, target - s0 + 1);
    hide Serves;
    RunFinishes(limits.(maxDays := longRun), watermark, publisher, target, now, m);
    RunFinishes(limits, watermark, publisher, target, now, m);
    FinishIgnoresRunLength(limits, longRun, target, m, target, now);
    FinishReaches(limits, target, m, target, now);
  }

  /** A run that stops short stores what it applied, without the expired lots. */
  lemma UnfinishedForgets(limits: Limits, m0: Maps, events: seq<Event>, completed: int, target: int, now: Time)
    requires completed < target && |m0.recent| <= limits.maxRecent
    ensures var m := Forgetting(Applied(m0, events), target - limits.retention);
            && Finish(limits, completed, Applied(m0, events), target, now) == Ok(Outcome([], Cursor(completed, m)))
            && |m.recent| <= limits.maxRecent && AllRetained(m.recent, target - limits.retention)
  {
    var m := Applied(m0, events);
    RecentOnlyShrinks(m0, events);
    hide Applied;
    SubmapIsSmaller(Pruned(m.recent, target - limits.retention), m0.recent);
  }

  /** The outcome of both ways, in terms of the maps after the first run. */
  lemma ChunksAfterExpiry(limits: Limits, longRun: int, watermark: Option<Cursor>, publisher: Publisher, target: int,
                          now: Time)
    requires limits.Valid() && longRun >= limits.maxDays
    requires longRun >= target - FirstDay(limits, watermark, target) + 1
    requires Serves(publisher, FirstDay(limits, watermark, target), target)
    requires StopsShort(limits, watermark, target)
    ensures
      var m, later := FirstChunk(limits, watermark, publisher, target), LaterEvents(limits, watermark, publisher, target);
      && CatchUp(limits, watermark, publisher, target, now)
         == Finish(limits, target, Applied(Forgetting(m, target - limits.retention), later), target, now)
      && Run(limits.(maxDays := longRun), watermark, publisher, target, now)
         == Finish(limits, target, Applied(m, later), target, now)
  {
    hide Applied, Days, Feed, CatchUp, Run, Finish, Forgetting;
    var m0, s0, n := InitialMaps(watermark), FirstDay(limits, watermark, target), limits.maxDays;
    var reached := s0 + n - 1;
    var some := Feed(publisher, s0, n);
    DaysApplyTheFeed(m0, publisher, s0, n);
    RunFinishes(limits, watermark, publisher, target, now, Applied(m0, some));
    UnfinishedForgets(limits, m0, some, reached, target, now);
    CatchUpStep(limits, watermark, publisher, target, now);
    var c := Cursor(reached, Forgetting(Applied(m0, some), target - limits.retention));
    LaterRuns(limits, longRun, c, publisher, target, now);
    WholeRun(limits, longRun, watermark, publisher, target, now);
  }

  lemma LaterRuns(limits: Limits, longRun: int, c: Cursor, publisher: Publisher, target: int, now: Time)
    requires limits.Valid() && longRun >= limits.maxDays
    requires longRun >= target - (c.completed + 1 - limits.overlap) + 1
    requires c.completed < target && |c.maps.recent| <= limits.maxRecent
    requires AllRetained(c.maps.recent, target - limits.retention)
    requires Serves(publisher, c.completed + 1 - limits.overlap, target)
    ensures var start := c.completed + 1 - limits.overlap;
            CatchUp(limits, Some(c), publisher, target, now)
            == Finish(limits, target, Applied(c.maps, Feed(publisher, start, target - start + 1)), target, now)
  {
    hide Applied, Days, Feed, CatchUp, Run, Finish;
    var start := c.completed + 1 - limits.overlap;
    var all := Feed(publisher, start, target - start + 1);
    RetainedChunks(limits, longRun, Some(c), publisher, target, now);
    DaysApplyTheFeed(c.maps, publisher, start, target - start + 1);
    RunFinishes(limits.(maxDays := longRun), Some(c), publisher, target, now, Applied(c.maps, all));
    FinishIgnoresRunLength(limits, longRun, target, Applied(c.maps, all), target, now);
  }

  lemma WholeRun(limits: Limits, longRun: int, watermark: Option<Cursor>, publisher: Publisher, target: int, now: Time)
    requires limits.Valid() && longRun >= limits.maxDays
    requires longRun >= target - FirstDay(limits, watermark, target) + 1
    requires Serves(publisher, FirstDay(limits, watermark, target), target)
    requires StopsShort(limits, watermark, target)
    ensures Run(limits.(maxDays := longRun), watermark, publisher, target, now)
         == Finish(limits, target, Applied(FirstChunk(limits, watermark, publisher, target),
                                           LaterEvents(limits, watermark, publisher, target)), target, now)
  {
    hide Applied, Days, Feed, Run, Finish;
    var m0, s0, n := InitialMaps(watermark), FirstDay(limits, watermark, target), limits.maxDays;
    var all := Feed(publisher, s0, target - s0 + 1);
    DaysApplyTheFeed(m0, publisher, s0, target - s0 + 1);
    RunFinishes(limits.(maxDays := longRun), watermark, publisher, target, now, Applied(m0, all));
    FinishIgnoresRunLength(limits, longRun, target, Applied(m0, all), target, now);
    ChunkExtendsTheFeed(m0, publisher, s0, n, s0 + n - limits.overlap, target - (s0 + n - limits.overlap) + 1);
    DaysApplyTheFeed(Applied(m0, Feed(publisher, s0, n)), publisher, s0 + n - limits.overlap,
                     target - (s0 + n - limits.overlap) + 1);
  }

  /** In particular, if no later event names a pruned lot, chunks and one pass agree. */
  lemma QuietExpiryIsHarmless(limits: Limits, watermark: Option<Cursor>, publisher: Publisher, target: int, now: Time)
    requires limits.Valid()
    requires StopsShort(limits, watermark, target) ==>
               forall e | e in LaterEvents(limits, watermark, publisher, target) ::
                 e.lot !in Lost(FirstChunk(limits, watermark, publisher, target), target - limits.retention)
    ensures ExpiryIsHarmless(limits, watermark, publisher, target, now)
  {
    if StopsShort(limits, watermark, target) {
      var m, later := FirstChunk(limits, watermark, publisher, target), LaterEvents(limits, watermark, publisher, target);
      var cutoff := target - limits.retention;
      hide FirstChunk, LaterEvents, Harmless;
      forall x | x in Lost(m, cutoff) ensures Harmless(m.recent[x], OfLot(later, x), x, now, cutoff) {
        UnnamedLotHasNoEvents(later, x);
        QuietIsHarmless(m.recent[x], x, now, cutoff);
      }
    }
  }

  lemma {:induction false} UnnamedLotHasNoEvents(events: seq<Event>, x: Text)
    requires forall e | e in events :: e.lot != x
    ensures OfLot(events, x) == []
  {
    if events != [] {
      assert events[|events| - 1] in events;
      assert forall e | e in events[..|events| - 1] :: e in events;
      UnnamedLotHasNoEvents(events[..|events| - 1], x);
    }
  }

  /** With distinct keys per lot, what each pruned lot must satisfy is a check of its stored state
      against its own later events. */
  lemma ExpiryIsHarmlessExactly(limits: Limits, watermark: Option<Cursor>, publisher: Publisher, target: int, now: Time)
    requires limits.Valid() && Serves(publisher, FirstDay(limits, watermark, target), target)
    requires StopsShort(limits, watermark, target)
    requires DistinctKeysPerLot(LaterEvents(limits, watermark, publisher, target))
    ensures forall x :: Increasing(OfLot(LaterEvents(limits, watermark, publisher, target), x))
    ensures var m, later := FirstChunk(limits, watermark, publisher, target), LaterEvents(limits, watermark, publisher, target);
            var cutoff := target - limits.retention;
            ExpiryIsHarmless(limits, watermark, publisher, target, now)
            <==> forall x | x in Lost(m, cutoff) :: Unnoticeable(m.recent[x], OfLot(later, x), now, cutoff)
  {
    hide *;
    var m, later := FirstChunk(limits, watermark, publisher, target), LaterEvents(limits, watermark, publisher, target);
    LaterEventsAreSorted(limits, watermark, publisher, target);
    HarmlessMeans(limits, watermark, publisher, target, now);
    AllHarmlessExactly(m, later, now, target - limits.retention);
  }

  lemma LaterEventsAreSorted(limits: Limits, watermark: Option<Cursor>, publisher: Publisher, target: int)
    requires limits.Valid() && Serves(publisher, FirstDay(limits, watermark, target), target)
    requires StopsShort(limits, watermark, target)
    ensures SortedByKey(LaterEvents(limits, watermark, publisher, target))
  {
    hide SortedByKey, Feed;
    var start := FirstDay(limits, watermark, target) + limits.maxDays - limits.overlap;
    FeedIsSorted(publisher, start, target - start + 1);
  }

  // ---- an input where they differ ------------------------------------------------------------------

  const CLOSED_LONG_AGO := LotState(EventKey(-9, 1, 1, 1), Body(0, Some(100), 1), Some("clos-nw"),
                                    Some(Closure("closed", "no winner")), true, true)

  const REOPENED := Event(5, EventKey(3, 1, 1, 1), Reopen)

  function ReopeningOnDay3(): Publisher {
    (day: int) => Some(if day == 3 then [REOPENED] else [])
  }

  /** A lot closed on day -9 is within its retention of ten days when day 0 completes and past it
      when the target is day 3.  Runs of two days prune it before they read the result that reopens
      it on day 3; one long run reopens it and announces it. */
  lemma ExpiredLotIsLost()
    ensures
      var limits := Limits(30, 2, 1, 10, 100);
      var watermark := Some(Cursor(0, Maps(map[], map[], map[5 := CLOSED_LONG_AGO])));
      var chunked := CatchUp(limits, watermark, ReopeningOnDay3(), 3, 0);
      var whole := Run(limits.(maxDays := 4), watermark, ReopeningOnDay3(), 3, 0);
      && limits.Valid() && Serves(ReopeningOnDay3(), 0, 3)
      && !ExpiryIsHarmless(limits, watermark, ReopeningOnDay3(), 3, 0)
      && chunked.Ok? && whole.Ok?
      && 5 in whole.value.cursor.maps.tracked && 5 !in chunked.value.cursor.maps.tracked
  {
    var limits := Limits(30, 2, 1, 10, 100);
    var m0 := Maps(map[], map[], map[5 := CLOSED_LONG_AGO]);
    var watermark, publisher := Some(Cursor(0, m0)), ReopeningOnDay3();
    WitnessIsServed();
    WitnessStopsShort(limits, m0);
    hide CatchUp, Run, Serves, ExpiryIsHarmless, StopsShort, FirstChunk, LaterEvents, Finish, Applied, Forgetting;
    ChunksAfterExpiry(limits, 4, watermark, publisher, 3, 0);
    ChunkIndependence(limits, 4, watermark, publisher, 3, 0);
    EndsOfTheWitness(limits, m0);
  }

  lemma WitnessIsServed()
    ensures Serves(ReopeningOnDay3(), 0, 3)
  {
    forall d | 0 <= d <= 3 ensures DayIsSound(ReopeningOnDay3(), d) {
    }
  }

  lemma WitnessStopsShort(limits: Limits, m0: Maps)
    requires limits == Limits(30, 2, 1, 10, 100) && m0 == Maps(map[], map[], map[5 := CLOSED_LONG_AGO])
    ensures var watermark := Some(Cursor(0, m0));
            && limits.Valid() && FirstDay(limits, watermark, 3) == 0 && StopsShort(limits, watermark, 3)
            && FirstChunk(limits, watermark, ReopeningOnDay3(), 3) == m0
            && LaterEvents(limits, watermark, ReopeningOnDay3(), 3) == [REOPENED]
  {
    FeedOfTheWitness();
    assert Applied(m0, []) == m0;
    hide Feed, Applied;
  }

  lemma FeedOfTheWitness()
    ensures Feed(ReopeningOnDay3(), 0, 2) == [] && Feed(ReopeningOnDay3(), 1, 3) == [REOPENED]
  {
    assert Feed(ReopeningOnDay3(), 0, 1) == [];
    assert Feed(ReopeningOnDay3(), 1, 1) == [];
    assert Feed(ReopeningOnDay3(), 1, 2) == [];
  }

  lemma EndsOfTheWitness(limits: Limits, m0: Maps)
    requires limits == Limits(30, 2, 1, 10, 100) && m0 == Maps(map[], map[], map[5 := CLOSED_LONG_AGO])
    ensures var whole := Finish(limits, 3, Applied(m0, [REOPENED]), 3, 0);
            whole.Ok? && 5 in whole.value.cursor.maps.tracked
    ensures var chunked := Finish(limits, 3, Applied(Forgetting(m0, -7), [REOPENED]), 3, 0);
            chunked.Ok? && 5 !in chunked.value.cursor.maps.tracked
  {
    hide FinalRecords;
    assert [REOPENED][..0] == [];
    var forgotten := Forgetting(m0, -7);
    assert forgotten == Maps(map[], map[], map[]);
    assert Applied(forgotten, []) == forgotten;
    assert Applied(forgotten, [REOPENED]) == forgotten;
    assert FinalMaps(forgotten, 0) == forgotten;
    var reopened := LotState(REOPENED.key, CLOSED_LONG_AGO.body, Some(REOPENING), None, false, true);
    assert Applied(m0, []) == m0;
    assert Applied(m0, [REOPENED]) == Maps(map[5 := reopened], map[], map[]);
    assert FinalMaps(Maps(map[5 := reopened], map[], map[]), 0).recent == map[];
    assert Pruned(map[], -7) == map[];
  }
}
