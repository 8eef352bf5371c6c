/** Germany: which days are read, and what that makes of a lot.  Over any chain of runs that starts
    without a cursor, a lot that was never dropped is the summary of its own events from the first
    day of the look-back to the day completed, whatever the run lengths, overlaps and instants. */
module GermanyHistory {
  import opened Common
  import opened Lifecycle
  import opened GermanyLots
  import opened GermanyRuns
  import opened GermanyCatchup

  // ---- the days of one run -------------------------------------------------------------------------

  ghost predicate Readable(publisher: Publisher, from: int, until: int) {
    forall d | from <= d <= until :: ReadableDay(publisher, d)
  }

  ghost predicate ReadableDay(publisher: Publisher, d: int) {
    publisher(d).Some? && Named(publisher(d).value)
  }

  /** Reading days is applying what they list, unless one of them cannot be read. */
  lemma {:induction false} DaysAreRead(m: Maps, publisher: Publisher, start: int, count: nat)
    ensures Days(m, publisher, start, count).Ok? <==> Readable(publisher, start, start + count - 1)
    ensures Days(m, publisher, start, count).Ok? ==>
              Days(m, publisher, start, count).value == Applied(m, Feed(publisher, start, count))
  {
    hide Applied;
    if count > 0 {
      DaysAreRead(m, publisher, start, count - 1);
      assert Readable(publisher, start, start + count - 1)
        <==> Readable(publisher, start, start + count - 2) && ReadableDay(publisher, start + count - 1);
      if Days(m, publisher, start, count).Ok? {
        AppliedInPieces(m, Feed(publisher, start, count - 1), publisher(start + count - 1).value);
      }
    } else {
      NothingApplied(m);
    }
  }

  lemma NothingApplied(m: Maps)
    ensures Applied(m, []) == m
  {
  }

  /** The last day that one run reaches. */
  function LastDay(limits: Limits, before: int, target: int): int {
    Min(target, before + limits.maxDays)
  }

  /** A run without a cursor reads the days after `target - lookback`, as many as one run may read, and
      nothing else. */
  lemma FirstRunReads(limits: Limits, publisher: Publisher, target: int, now: Time)
    requires limits.Valid()
    ensures var before := target - limits.lookback;
            var last := LastDay(limits, before, target);
            var r := Run(limits, None, publisher, target, now);
            && last > before
            && (r.Ok? ==> r.value.cursor.completed == last && Readable(publisher, before + 1, last))
            && (Readable(publisher, before + 1, last) ==>
                  r == Finish(limits, last, Applied(Maps(map[], map[], map[]), Feed(publisher, before + 1, last - before)), target, now))
  {
    hide Days, Applied, Feed, FinalMaps, FinalRecords, Pruned, Readable;
    var before := target - limits.lookback;
    DaysAreRead(Maps(map[], map[], map[]), publisher, before + 1, LastDay(limits, before, target) - before);
  }

  /** A run from a cursor reads the days after `completed - overlap`, as many as one run may read. */
  lemma LaterRunReads(limits: Limits, c: Cursor, publisher: Publisher, target: int, now: Time)
    requires limits.Valid()
    ensures var before := c.completed - limits.overlap;
            var last := LastDay(limits, before, target);
            var r := Run(limits, Some(c), publisher, target, now);
            && (c.completed <= target ==> last >= c.completed && last >= before)
            && (r.Ok? ==> c.completed <= target && r.value.cursor.completed == last && Readable(publisher, before + 1, last))
            && (c.completed <= target && |c.maps.recent| <= limits.maxRecent && Readable(publisher, before + 1, last) ==>
                  r == Finish(limits, last, Applied(c.maps, Feed(publisher, before + 1, last - before)), target, now))
  {
    hide Days, Applied, Feed, FinalMaps, FinalRecords, Pruned, Readable;
    var before := c.completed - limits.overlap;
    if c.completed <= target {
      DaysAreRead(c.maps, publisher, before + 1, LastDay(limits, before, target) - before);
    }
  }

  // ---- a chain of runs --------------------------------------------------------------------------------

  datatype Call = Call(target: int, now: Time)

  /** A chain of runs: the stored cursor, every lot that some run held and did not store, the target of
      the first committed run, and how many were committed. */
  datatype Journal = Journal(cursor: Option<Cursor>, dropped: set<Text>, first: int, runs: nat)

  function Held(m: Maps): set<Text> {
    m.tracked.Keys + m.closed.Keys + m.recent.Keys
  }

  /** The day before the first one that a run reads. */
  function Before(limits: Limits, cursor: Option<Cursor>, target: int): int {
    if cursor.Some? then cursor.value.completed - limits.overlap else target - limits.lookback
  }

  /** The maps of a run after the days it reads. */
  function Working(limits: Limits, cursor: Option<Cursor>, publisher: Publisher, target: int): Maps
    requires limits.Valid()
  {
    var before := Before(limits, cursor, target);
    Applied(if cursor.Some? then cursor.value.maps else Maps(map[], map[], map[]),
            Feed(publisher, before + 1, Max(0, LastDay(limits, before, target) - before)))
  }

  function NextEntry(limits: Limits, j: Journal, publisher: Publisher, call: Call): Journal
    requires limits.Valid()
  {
    var r := Run(limits, j.cursor, publisher, call.target, call.now);
    if r.Err? then j
    else
      Journal(Some(r.value.cursor),
              j.dropped + (Held(Working(limits, j.cursor, publisher, call.target)) - Held(r.value.cursor.maps)),
              if j.runs == 0 then call.target else j.first, j.runs + 1)
  }

  function Kept(limits: Limits, publisher: Publisher, calls: seq<Call>): Journal
    requires limits.Valid()
  {
    if calls == [] then Journal(None, {}, 0, 0)
    else NextEntry(limits, Kept(limits, publisher, calls[..|calls| - 1]), publisher, calls[|calls| - 1])
  }

  lemma RunReads(limits: Limits, cursor: Option<Cursor>, publisher: Publisher, target: int, now: Time)
    requires limits.Valid() && Run(limits, cursor, publisher, target, now).Ok?
    ensures var before := Before(limits, cursor, target);
            var last := LastDay(limits, before, target);
            && last >= before && (cursor.Some? ==> cursor.value.completed <= last) && (cursor.None? ==> last > before)
            && Finish(limits, last, Working(limits, cursor, publisher, target), target, now)
               == Run(limits, cursor, publisher, target, now)
            && Run(limits, cursor, publisher, target, now).value.cursor.completed == last
  {
    hide *;
    WorkingMeans(limits, cursor, publisher, target);
    if cursor.Some? {
      LaterRunReads(limits, cursor.value, publisher, target, now);
      RefusedWhenFull(limits, cursor.value, publisher, target, now);
    } else {
      FirstRunReads(limits, publisher, target, now);
    }
  }

  lemma WorkingMeans(limits: Limits, cursor: Option<Cursor>, publisher: Publisher, target: int)
    requires limits.Valid()
    ensures var before := Before(limits, cursor, target);
            var last := LastDay(limits, before, target);
            && before == (if cursor.Some? then cursor.value.completed - limits.overlap else target - limits.lookback)
            && (last >= before ==>
                  Working(limits, cursor, publisher, target)
                  == Applied(if cursor.Some? then cursor.value.maps else Maps(map[], map[], map[]),
                             Feed(publisher, before + 1, last - before)))
  {
    hide Applied, Feed;
  }

  lemma RefusedWhenFull(limits: Limits, c: Cursor, publisher: Publisher, target: int, now: Time)
    requires limits.Valid() && Run(limits, Some(c), publisher, target, now).Ok?
    ensures |c.maps.recent| <= limits.maxRecent
  {
    hide Days, Finish;
  }

  // ---- one lot, its marks aside ---------------------------------------------------------------------------

  function Unmarked(s: LotState): LotState {
    s.(wasVisible := false, closureEmitted := false)
  }

  /** The same lot, whatever has been announced of it and whether its closing is recent. */
  ghost predicate Alike(a: Slot, b: Slot) {
    && (a.Absent? <==> b.Absent?)
    && (!a.Absent? ==> Unmarked(a.state) == Unmarked(b.state) && (a.Tracked? <==> b.Tracked?))
  }

  lemma StepAlike(a: Slot, b: Slot, e: Event)
    requires Alike(a, b)
    ensures Alike(StepSlot(a, e), StepSlot(b, e))
  {
  }

  lemma {:induction false} EventsAlike(a: Slot, b: Slot, events: seq<Event>)
    requires Alike(a, b)
    ensures Alike(SlotAfter(a, events), SlotAfter(b, events))
  {
    hide Alike, StepSlot;
    if events != [] {
      EventsAlike(a, b, events[..|events| - 1]);
      StepAlike(SlotAfter(a, events[..|events| - 1]), SlotAfter(b, events[..|events| - 1]), events[|events| - 1]);
    }
  }

  ghost predicate KeptAlike(m: Maps, kept: Maps, x: Text) {
    && Disjoint(kept) && Held(kept) <= Held(m)
    && (x in Held(kept) || x !in Held(m) ==> Alike(SlotOf(kept, x), SlotOf(m, x)))
  }

  lemma FinalAlike(m: Maps, now: Time, x: Text)
    requires Disjoint(m)
    ensures KeptAlike(m, FinalMaps(m, now), x)
  {
  }

  lemma PrunedAlike(m: Maps, cutoff: int, x: Text)
    requires Disjoint(m)
    ensures KeptAlike(m, m.(recent := Pruned(m.recent, cutoff)), x)
  {
  }

  lemma KeptTwice(m: Maps, mid: Maps, kept: Maps, x: Text)
    requires KeptAlike(m, mid, x) && KeptAlike(mid, kept, x)
    ensures KeptAlike(m, kept, x)
  {
    hide Disjoint, Held;
  }

  /** Finishing a run changes only the marks of a lot that it keeps. */
  lemma FinishedAlike(limits: Limits, completed: int, m: Maps, target: int, now: Time, x: Text)
    requires Disjoint(m) && Finish(limits, completed, m, target, now).Ok?
    ensures KeptAlike(m, Finish(limits, completed, m, target, now).value.cursor.maps, x)
  {
    hide *;
    var final := if completed >= target then FinalMaps(m, now) else m;
    if completed >= target {
      FinalAlike(m, now, x);
    } else {
      ItselfAlike(m, x);
    }
    KeptIsDisjoint(m, final, x);
    PrunedAlike(final, target - limits.retention, x);
    KeptTwice(m, final, final.(recent := Pruned(final.recent, target - limits.retention)), x);
    FinishStores(limits, completed, m, target, now);
  }

  lemma KeptIsDisjoint(m: Maps, kept: Maps, x: Text)
    requires KeptAlike(m, kept, x)
    ensures Disjoint(kept)
  {
  }

  lemma ItselfAlike(m: Maps, x: Text)
    requires Disjoint(m)
    ensures KeptAlike(m, m, x)
  {
  }

  lemma FinishStores(limits: Limits, completed: int, m: Maps, target: int, now: Time)
    requires Finish(limits, completed, m, target, now).Ok?
    ensures var final := if completed >= target then FinalMaps(m, now) else m;
            Finish(limits, completed, m, target, now).value.cursor
            == Cursor(completed, final.(recent := Pruned(final.recent, target - limits.retention)))
  {
    hide FinalRecords, FinalMaps, Pruned;
  }

  lemma AbsentIsNotHeld(m: Maps, x: Text)
    ensures SlotOf(m, x).Absent? <==> x !in Held(m)
  {
  }

  // ---- the lot that a range of days makes ------------------------------------------------------------------

  function OwnEvents(publisher: Publisher, from: int, until: int, x: Text): seq<Event> {
    if until < from then [] else OfLot(Feed(publisher, from, until - from + 1), x)
  }

  function MadeBy(publisher: Publisher, from: int, until: int, x: Text): Slot {
    SlotAfter(Absent, OwnEvents(publisher, from, until, x))
  }

  lemma NothingHeld(x: Text)
    ensures Disjoint(Maps(map[], map[], map[])) && SlotOf(Maps(map[], map[], map[]), x) == Absent
  {
  }

  /** Reading on from day r, with the days up to `until` already read. */
  lemma ReadingOn(publisher: Publisher, from: int, done: int, r: int, until: int, x: Text)
    requires from <= r <= done + 1 <= until + 1 && Serves(publisher, from, until)
    ensures SlotAfter(MadeBy(publisher, from, done, x), OwnEvents(publisher, r, until, x)) == MadeBy(publisher, from, until, x)
  {
    hide *;
    var nothing := Maps(map[], map[], map[]);
    var m := Applied(nothing, Feed(publisher, from, done - from + 1));
    NothingHeld(x);
    OwnEventsAre(publisher, from, done, x);
    OwnEventsAre(publisher, r, until, x);
    OwnEventsAre(publisher, from, until, x);
    MadeByIs(publisher, from, done, x);
    MadeByIs(publisher, from, until, x);
    EachLotAlone(nothing, Feed(publisher, from, done - from + 1), x);
    EachLotAlone(m, Feed(publisher, r, until - r + 1), x);
    EachLotAlone(nothing, Feed(publisher, from, until - from + 1), x);
    ChunkExtendsTheFeed(nothing, publisher, from, done - from + 1, r, until - r + 1);
    ServedWithin(publisher, from, until, r, until);
    DaysApplyTheFeed(m, publisher, r, until - r + 1);
  }

  lemma OwnEventsAre(publisher: Publisher, from: int, until: int, x: Text)
    requires until >= from - 1
    ensures OwnEvents(publisher, from, until, x) == OfLot(Feed(publisher, from, until - from + 1), x)
  {
  }

  lemma MadeByIs(publisher: Publisher, from: int, until: int, x: Text)
    ensures MadeBy(publisher, from, until, x) == SlotAfter(Absent, OwnEvents(publisher, from, until, x))
  {
  }

  lemma ServedWithin(publisher: Publisher, lo: int, hi: int, from: int, to: int)
    requires Serves(publisher, lo, hi) && lo <= from && to <= hi
    ensures Serves(publisher, from, to)
  {
    hide DayIsSound;
  }

  lemma {:induction false} OfLotJoins(a: seq<Event>, b: seq<Event>, x: Text)
    ensures OfLot(a + b, x) == OfLot(a, x) + OfLot(b, x)
  {
    if b == [] {
      assert a + b == a;
    } else {
      OfLotJoins(a, b[..|b| - 1], x);
      assert (a + b)[..|a + b| - 1] == a + b[..|b| - 1];
    }
  }

  lemma OwnEventsSplit(publisher: Publisher, from: int, mid: int, until: int, x: Text)
    requires from <= mid + 1 <= until + 1
    ensures OwnEvents(publisher, from, until, x) == OwnEvents(publisher, from, mid, x) + OwnEvents(publisher, mid + 1, until, x)
  {
    OwnEventsAre(publisher, from, until, x);
    OwnEventsAre(publisher, from, mid, x);
    OwnEventsAre(publisher, mid + 1, until, x);
    FeedSplits(publisher, from, mid - from + 1, until - mid);
    OfLotJoins(Feed(publisher, from, mid - from + 1), Feed(publisher, mid + 1, until - mid), x);
    hide OfLot, Feed, OwnEvents;
  }

  lemma {:induction false} OwnEventsOn(publisher: Publisher, from: int, until: int, x: Text)
    requires Serves(publisher, from, until)
    ensures forall e | e in OwnEvents(publisher, from, until, x) :: from <= e.key.day <= until && e.lot == x
    decreases until - from
  {
    if from <= until {
      assert DayIsSound(publisher, until);
      ServedWithin(publisher, from, until, from, until - 1);
      OwnEventsOn(publisher, from, until - 1, x);
      OwnEventsSplit(publisher, from, until - 1, until, x);
      assert Feed(publisher, until, 1) == Feed(publisher, until, 0) + publisher(until).value == publisher(until).value;
      OwnEventsAre(publisher, until, until, x);
      OfLotIsPart(publisher(until).value, x);
      hide OwnEvents, OfLot, Feed;
    }
  }

  lemma {:induction false} OfLotIsPart(events: seq<Event>, x: Text)
    ensures forall e | e in OfLot(events, x) :: e in events && e.lot == x
  {
    if events != [] {
      OfLotIsPart(events[..|events| - 1], x);
    }
  }

  lemma {:induction false} AbsentWithoutNotice(events: seq<Event>)
    ensures SlotAfter(Absent, events).Absent? <==> !HasNotice(events)
    ensures !SlotAfter(Absent, events).Absent? ==>
              exists i :: 0 <= i < |events| && SlotAfter(Absent, events).state.key == events[i].key
  {
    if events != [] {
      var n := |events| - 1;
      var before, after := SlotAfter(Absent, events[..n]), SlotAfter(Absent, events);
      AbsentWithoutNotice(events[..n]);
      if HasNotice(events[..n]) {
        var i :| 0 <= i < n && events[..n][i].kind.Notice?;
        assert events[i].kind.Notice?;
      }
      if !before.Absent? && after == before {
        var i :| 0 <= i < n && before.state.key == events[..n][i].key;
        assert after.state.key == events[i].key;
      } else if !after.Absent? {
        assert after.state.key == events[n].key;
      }
    }
  }

  lemma {:induction false} OlderEventsChangeNothing(slot: Slot, events: seq<Event>)
    requires !slot.Absent? && forall e | e in events :: AtMost(e.key, slot.state.key)
    ensures SlotAfter(slot, events) == slot
  {
    if events != [] {
      OlderEventsChangeNothing(slot, events[..|events| - 1]);
      assert events[|events| - 1] in events;
    }
  }

  lemma {:induction false} AfterInPieces(slot: Slot, a: seq<Event>, b: seq<Event>)
    ensures SlotAfter(slot, a + b) == SlotAfter(SlotAfter(slot, a), b)
  {
    if b == [] {
      assert a + b == a;
    } else {
      AfterInPieces(slot, a, b[..|b| - 1]);
      assert (a + b)[..|a + b| - 1] == a + b[..|b| - 1];
    }
  }

  /** A lot that is known is not changed by days before those it is made of. */
  lemma ReadingEarlier(publisher: Publisher, from: int, done: int, r: int, until: int, x: Text)
    requires r <= from <= done + 1 <= until + 1 && Serves(publisher, r, until)
    requires HasNotice(OwnEvents(publisher, from, done, x))
    ensures SlotAfter(MadeBy(publisher, from, done, x), OwnEvents(publisher, r, until, x)) == MadeBy(publisher, from, until, x)
  {
    hide *;
    var slot, older := MadeBy(publisher, from, done, x), OwnEvents(publisher, r, from - 1, x);
    ServedWithin(publisher, r, until, from, until);
    ServedWithin(publisher, r, until, from, done);
    ServedWithin(publisher, r, until, r, from - 1);
    OwnEventsSplit(publisher, r, from - 1, until, x);
    OwnEventsOn(publisher, r, from - 1, x);
    OwnEventsOn(publisher, from, done, x);
    MadeByIs(publisher, from, done, x);
    AbsentWithoutNotice(OwnEvents(publisher, from, done, x));
    forall e | e in older ensures AtMost(e.key, slot.state.key) {
      EarlierDay(e.key, slot.state.key);
    }
    OlderEventsChangeNothing(slot, older);
    AfterInPieces(slot, older, OwnEvents(publisher, from, until, x));
    ReadingOn(publisher, from, done, from, until, x);
  }

  lemma EarlierDay(a: EventKey, b: EventKey)
    requires a.day < b.day
    ensures AtMost(a, b)
  {
  }

  // ---- the theorem ------------------------------------------------------------------------------------------

  /** The first day a lot is made of: the first day of the look-back, unless the overlap is longer, the
      second run reads further back than the first, and the first found no notice of the lot. */
  ghost function Since(limits: Limits, first: int, runs: nat, publisher: Publisher, x: Text): int {
    if limits.overlap > limits.lookback && runs > 1 && !HasNotice(OwnEvents(publisher, first - limits.lookback + 1, first, x))
    then first - limits.overlap + 1
    else first - limits.lookback + 1
  }

  /** How far the runs of a chain are. */
  ghost predicate Reached(limits: Limits, j: Journal) {
    && (j.runs == 0 <==> j.cursor.None?)
    && (j.cursor.Some? ==>
          && Disjoint(j.cursor.value.maps)
          && j.cursor.value.completed >= Min(j.first, j.first - limits.lookback + limits.maxDays)
          && (j.runs == 1 ==> j.cursor.value.completed == Min(j.first, j.first - limits.lookback + limits.maxDays)))
  }

  ghost predicate MadeOfItsDays(limits: Limits, j: Journal, publisher: Publisher, x: Text) {
    j.cursor.Some? && x !in j.dropped ==>
      Alike(SlotOf(j.cursor.value.maps, x),
            MadeBy(publisher, Since(limits, j.first, j.runs, publisher, x), j.cursor.value.completed, x))
  }

  /** The days from `lo` to `hi` contain every day that the calls can read. */
  ghost predicate Spans(limits: Limits, calls: seq<Call>, lo: int, hi: int) {
    forall i | 0 <= i < |calls| :: lo <= calls[i].target - Max(limits.lookback, limits.overlap) + 1 && calls[i].target <= hi
  }

  lemma LaterReading(limits: Limits, j: Journal, publisher: Publisher, lo: int, hi: int, last: int, x: Text)
    requires limits.Valid() && Reached(limits, j) && j.cursor.Some? && j.cursor.value.completed <= last <= hi
    requires Serves(publisher, lo, hi) && lo <= j.first - Max(limits.lookback, limits.overlap) + 1
    ensures SlotAfter(MadeBy(publisher, Since(limits, j.first, j.runs, publisher, x), j.cursor.value.completed, x),
                      OwnEvents(publisher, j.cursor.value.completed - limits.overlap + 1, last, x))
         == MadeBy(publisher, Since(limits, j.first, j.runs + 1, publisher, x), last, x)
  {
    hide *;
    var c, since := j.cursor.value.completed, Since(limits, j.first, j.runs, publisher, x);
    var start, r := j.first - limits.lookback + 1, c - limits.overlap + 1;
    WhereItStarts(limits, j, publisher, lo, x);
    if since <= r {
      ServedWithin(publisher, lo, hi, since, last);
      ReadingOn(publisher, since, c, r, last, x);
    } else {
      ServedWithin(publisher, lo, hi, r, last);
      if HasNotice(OwnEvents(publisher, start, j.first, x)) {
        OwnEventsSplit(publisher, start, j.first, c, x);
        NoticeStays(OwnEvents(publisher, start, j.first, x), OwnEvents(publisher, j.first + 1, c, x));
        ReadingEarlier(publisher, start, c, r, last, x);
      } else {
        MadeByIs(publisher, start, c, x);
        MadeByIs(publisher, r, last, x);
        AbsentWithoutNotice(OwnEvents(publisher, start, c, x));
        AbsentIs(SlotAfter(Absent, OwnEvents(publisher, start, c, x)));
      }
    }
  }

  lemma AbsentIs(slot: Slot)
    ensures slot.Absent? ==> slot == Absent
  {
  }

  /** Where a lot starts, before and after one more run. */
  lemma WhereItStarts(limits: Limits, j: Journal, publisher: Publisher, lo: int, x: Text)
    requires limits.Valid() && Reached(limits, j) && j.cursor.Some?
    requires lo <= j.first - Max(limits.lookback, limits.overlap) + 1
    ensures var c, since, later := j.cursor.value.completed, Since(limits, j.first, j.runs, publisher, x),
                                   Since(limits, j.first, j.runs + 1, publisher, x);
            var start, r := j.first - limits.lookback + 1, c - limits.overlap + 1;
            && lo <= since <= c + 1 && lo <= r <= c + 1
            && (since <= r ==> later == since)
            && (since > r ==>
                  && since == start && start <= j.first <= c
                  && (if HasNotice(OwnEvents(publisher, start, j.first, x)) then later == start
                      else c == j.first && later == r))
  {
    hide HasNotice, OwnEvents, Disjoint;
  }

  lemma NoticeStays(a: seq<Event>, b: seq<Event>)
    requires HasNotice(a)
    ensures HasNotice(a + b)
  {
    var i :| 0 <= i < |a| && a[i].kind.Notice?;
    assert (a + b)[i].kind.Notice?;
  }

  lemma OneRunReaches(limits: Limits, j: Journal, publisher: Publisher, call: Call)
    requires limits.Valid() && Reached(limits, j)
    ensures Reached(limits, NextEntry(limits, j, publisher, call))
  {
    hide *;
    if Run(limits, j.cursor, publisher, call.target, call.now).Ok? {
      NextEntryMeans(limits, j, publisher, call, 0);
      RunReads(limits, j.cursor, publisher, call.target, call.now);
      RunStaysDisjoint(limits, j, publisher, call, 0);
      WorkingMeans(limits, j.cursor, publisher, call.target);
      ReachesFurther(limits, j, call.target, NextEntry(limits, j, publisher, call));
    } else {
      RefusedIsNoEntry(limits, j, publisher, call);
    }
  }

  lemma RefusedIsNoEntry(limits: Limits, j: Journal, publisher: Publisher, call: Call)
    requires limits.Valid() && Run(limits, j.cursor, publisher, call.target, call.now).Err?
    ensures NextEntry(limits, j, publisher, call) == j
  {
  }

  lemma ReachesFurther(limits: Limits, j: Journal, target: int, next: Journal)
    requires Reached(limits, j) && next.cursor.Some? && Disjoint(next.cursor.value.maps) && next.runs == j.runs + 1
    requires next.first == if j.cursor.Some? then j.first else target
    requires next.cursor.value.completed
          == LastDay(limits, if j.cursor.Some? then j.cursor.value.completed - limits.overlap else target - limits.lookback, target)
    requires j.cursor.Some? ==> j.cursor.value.completed <= next.cursor.value.completed
    ensures Reached(limits, next)
  {
    hide Disjoint;
  }

  /** One committed run, seen from one lot. */
  lemma RunStaysDisjoint(limits: Limits, j: Journal, publisher: Publisher, call: Call, x: Text)
    requires limits.Valid() && Reached(limits, j)
    requires Run(limits, j.cursor, publisher, call.target, call.now).Ok?
    ensures var kept, working := Run(limits, j.cursor, publisher, call.target, call.now).value.cursor.maps,
                                 Working(limits, j.cursor, publisher, call.target);
            && KeptAlike(working, kept, x) && Disjoint(kept)
            && var before := Before(limits, j.cursor, call.target);
               var last := LastDay(limits, before, call.target);
            SlotOf(working, x) == SlotAfter(if j.cursor.Some? then SlotOf(j.cursor.value.maps, x) else Absent,
                                            OwnEvents(publisher, before + 1, last, x))
  {
    hide *;
    var nothing := Maps(map[], map[], map[]);
    var before := Before(limits, j.cursor, call.target);
    var last := LastDay(limits, before, call.target);
    var working := Working(limits, j.cursor, publisher, call.target);
    ReachedMeans(limits, j);
    RunReads(limits, j.cursor, publisher, call.target, call.now);
    WorkingMeans(limits, j.cursor, publisher, call.target);
    NothingHeld(x);
    OwnEventsAre(publisher, before + 1, last, x);
    EachLotAlone(if j.cursor.Some? then j.cursor.value.maps else nothing, Feed(publisher, before + 1, last - before), x);
    FinishedAlike(limits, last, working, call.target, call.now, x);
    KeptIsDisjoint(working, Run(limits, j.cursor, publisher, call.target, call.now).value.cursor.maps, x);
  }

  lemma ReachedMeans(limits: Limits, j: Journal)
    requires Reached(limits, j)
    ensures j.cursor.Some? ==> Disjoint(j.cursor.value.maps)
  {
  }

  lemma OneRunMakesTheLot(limits: Limits, j: Journal, publisher: Publisher, call: Call, lo: int, hi: int, x: Text)
    requires limits.Valid() && Reached(limits, j) && Serves(publisher, lo, hi) && call.target <= hi
    requires j.cursor.Some? ==> lo <= j.first - Max(limits.lookback, limits.overlap) + 1
    requires MadeOfItsDays(limits, j, publisher, x)
    ensures MadeOfItsDays(limits, NextEntry(limits, j, publisher, call), publisher, x)
  {
    hide *;
    var after := NextEntry(limits, j, publisher, call);
    if Run(limits, j.cursor, publisher, call.target, call.now).Err? {
      RefusedIsNoEntry(limits, j, publisher, call);
    } else if x in after.dropped {
      DroppedIsExempt(limits, after, publisher, x);
    } else {
      NextEntryMeans(limits, j, publisher, call, x);
      if j.cursor.Some? {
        MadeOfMeans(limits, j, publisher, x);
        LaterRunMakesTheLot(limits, j, publisher, call, lo, hi, x);
      } else {
        FirstRunMakesTheLot(limits, j, publisher, call, x);
      }
      MadeOfIs(limits, after, publisher, x);
    }
  }

  lemma DroppedIsExempt(limits: Limits, j: Journal, publisher: Publisher, x: Text)
    requires x in j.dropped
    ensures MadeOfItsDays(limits, j, publisher, x)
  {
  }

  lemma NextEntryMeans(limits: Limits, j: Journal, publisher: Publisher, call: Call, x: Text)
    requires limits.Valid() && Reached(limits, j) && Run(limits, j.cursor, publisher, call.target, call.now).Ok?
    ensures var after, out := NextEntry(limits, j, publisher, call), Run(limits, j.cursor, publisher, call.target, call.now).value;
            && after.cursor == Some(out.cursor) && after.runs == j.runs + 1
            && after.first == (if j.cursor.Some? then j.first else call.target)
            && (x !in after.dropped ==>
                  x !in j.dropped && x !in Held(Working(limits, j.cursor, publisher, call.target)) - Held(out.cursor.maps))
    ensures j.cursor.None? ==> j.runs == 0
  {
    hide Run, Working, Held;
  }

  lemma MadeOfIs(limits: Limits, j: Journal, publisher: Publisher, x: Text)
    requires j.cursor.Some?
    requires Alike(SlotOf(j.cursor.value.maps, x),
                   MadeBy(publisher, Since(limits, j.first, j.runs, publisher, x), j.cursor.value.completed, x))
    ensures MadeOfItsDays(limits, j, publisher, x)
  {
  }

  lemma FirstRunMakesTheLot(limits: Limits, j: Journal, publisher: Publisher, call: Call, x: Text)
    requires limits.Valid() && Reached(limits, j) && j.cursor.None?
    requires Run(limits, j.cursor, publisher, call.target, call.now).Ok?
    requires var out := Run(limits, j.cursor, publisher, call.target, call.now).value;
             x !in Held(Working(limits, j.cursor, publisher, call.target)) - Held(out.cursor.maps)
    ensures var out := Run(limits, j.cursor, publisher, call.target, call.now).value;
            Alike(SlotOf(out.cursor.maps, x), MadeBy(publisher, Since(limits, call.target, 1, publisher, x), out.cursor.completed, x))
  {
    hide *;
    var before := Before(limits, j.cursor, call.target);
    var working := Working(limits, j.cursor, publisher, call.target);
    RunReads(limits, j.cursor, publisher, call.target, call.now);
    WorkingMeans(limits, j.cursor, publisher, call.target);
    RunStaysDisjoint(limits, j, publisher, call, x);
    StoredAlike(working, Run(limits, j.cursor, publisher, call.target, call.now).value.cursor.maps, x);
    MadeByIs(publisher, before + 1, LastDay(limits, before, call.target), x);
    SinceAtFirst(limits, call.target, publisher, x);
  }

  lemma SinceAtFirst(limits: Limits, first: int, publisher: Publisher, x: Text)
    ensures Since(limits, first, 1, publisher, x) == first - limits.lookback + 1
  {
  }

  lemma LaterRunMakesTheLot(limits: Limits, j: Journal, publisher: Publisher, call: Call, lo: int, hi: int, x: Text)
    requires limits.Valid() && Reached(limits, j) && j.cursor.Some? && Serves(publisher, lo, hi) && call.target <= hi
    requires lo <= j.first - Max(limits.lookback, limits.overlap) + 1
    requires Alike(SlotOf(j.cursor.value.maps, x),
                   MadeBy(publisher, Since(limits, j.first, j.runs, publisher, x), j.cursor.value.completed, x))
    requires Run(limits, j.cursor, publisher, call.target, call.now).Ok?
    requires var out := Run(limits, j.cursor, publisher, call.target, call.now).value;
             x !in Held(Working(limits, j.cursor, publisher, call.target)) - Held(out.cursor.maps)
    ensures var out := Run(limits, j.cursor, publisher, call.target, call.now).value;
            Alike(SlotOf(out.cursor.maps, x),
                  MadeBy(publisher, Since(limits, j.first, j.runs + 1, publisher, x), out.cursor.completed, x))
  {
    hide *;
    var before := Before(limits, j.cursor, call.target);
    var last := LastDay(limits, before, call.target);
    var working, kept := Working(limits, j.cursor, publisher, call.target), Run(limits, j.cursor, publisher, call.target, call.now).value.cursor.maps;
    RunReads(limits, j.cursor, publisher, call.target, call.now);
    WorkingMeans(limits, j.cursor, publisher, call.target);
    LastDayIsDue(limits, before, call.target);
    RunStaysDisjoint(limits, j, publisher, call, x);
    StoredAlike(working, kept, x);
    var made := MadeBy(publisher, Since(limits, j.first, j.runs, publisher, x), j.cursor.value.completed, x);
    var own := OwnEvents(publisher, before + 1, last, x);
    LaterReading(limits, j, publisher, lo, hi, last, x);
    EventsAlike(SlotOf(j.cursor.value.maps, x), made, own);
    AlikeTwice(SlotOf(kept, x), SlotOf(working, x), SlotAfter(made, own));
  }

  lemma LastDayIsDue(limits: Limits, before: int, target: int)
    ensures LastDay(limits, before, target) <= target
  {
  }

  lemma StoredAlike(working: Maps, kept: Maps, x: Text)
    requires KeptAlike(working, kept, x) && x !in Held(working) - Held(kept)
    ensures Alike(SlotOf(kept, x), SlotOf(working, x))
  {
  }

  lemma AlikeTwice(a: Slot, b: Slot, c: Slot)
    requires Alike(a, b) && Alike(b, c)
    ensures Alike(a, c)
  {
  }

  lemma {:induction false} ChainMakesTheLot(limits: Limits, publisher: Publisher, calls: seq<Call>, lo: int, hi: int, x: Text)
    requires limits.Valid() && Spans(limits, calls, lo, hi) && Serves(publisher, lo, hi)
    ensures var j := Kept(limits, publisher, calls);
            && Reached(limits, j) && MadeOfItsDays(limits, j, publisher, x)
            && (j.cursor.Some? ==> lo <= j.first - Max(limits.lookback, limits.overlap) + 1)
  {
    hide NextEntry, Serves, MadeOfItsDays;
    if calls == [] {
      NothingYet(limits, publisher, x);
    } else {
      var init, call := calls[..|calls| - 1], calls[|calls| - 1];
      ChainMakesTheLot(limits, publisher, init, lo, hi, x);
      OneRunReaches(limits, Kept(limits, publisher, init), publisher, call);
      OneRunMakesTheLot(limits, Kept(limits, publisher, init), publisher, call, lo, hi, x);
      FirstStays(limits, Kept(limits, publisher, init), publisher, call);
    }
  }

  lemma NothingYet(limits: Limits, publisher: Publisher, x: Text)
    ensures MadeOfItsDays(limits, Journal(None, {}, 0, 0), publisher, x)
  {
  }

  lemma FirstStays(limits: Limits, j: Journal, publisher: Publisher, call: Call)
    requires limits.Valid() && Reached(limits, j)
    ensures var after := NextEntry(limits, j, publisher, call);
            if j.cursor.Some? then after.first == j.first else after.cursor.Some? ==> after.first == call.target
  {
    hide Run, Working, Held;
  }

  /** What a lot is after its own events, its marks aside: known if a notice named it; open unless the last
      event is a terminal result, whose status and reason it then carries; with the content and deadline of
      the newest notice and the earliest publication of them all. */
  ghost predicate Represents(slot: Slot, events: seq<Event>) {
    && (slot.Absent? <==> !HasNotice(events))
    && (!slot.Absent? ==>
          && slot.state.key == events[|events| - 1].key
          && (slot.Tracked? <==> !events[|events| - 1].kind.Terminal?)
          && SaysLast(slot.state, events[|events| - 1].kind)
          && FirstStamp(events, slot.state.body.firstPublished)
          && (forall i | NewestNotice(events, i) ::
                && slot.state.body.content == events[i].kind.body.content
                && slot.state.body.deadline == events[i].kind.body.deadline))
  }

  lemma AlikeRepresents(slot: Slot, made: Slot, events: seq<Event>)
    requires Alike(slot, made) && Summarises(made, events)
    ensures Represents(slot, events)
  {
    hide FirstStamp, NewestNotice, HasNotice;
  }

  /** Every chain of runs from no cursor, over the same days, at any instants and targets and however
      short the runs: a lot that no run has dropped is stored as the summary of its own events from the
      first day of the first run's look-back up to the day completed.  Only where the overlap is longer
      than the look-back does a lot that the first run found no notice of go back to the overlap's first
      day. */
  lemma StoredLotIsItsHistory(limits: Limits, publisher: Publisher, calls: seq<Call>, lo: int, hi: int, x: Text)
    requires limits.Valid() && Spans(limits, calls, lo, hi) && Serves(publisher, lo, hi)
    requires forall d | lo <= d <= hi :: publisher(d).Some? ==> DistinctKeysPerLot(publisher(d).value)
    requires Kept(limits, publisher, calls).cursor.Some? && x !in Kept(limits, publisher, calls).dropped
    ensures var j := Kept(limits, publisher, calls);
            Represents(SlotOf(j.cursor.value.maps, x),
                       OwnEvents(publisher, Since(limits, j.first, j.runs, publisher, x), j.cursor.value.completed, x))
  {
    hide *;
    var j := Kept(limits, publisher, calls);
    ChainMakesTheLot(limits, publisher, calls, lo, hi, x);
    var since, completed := Since(limits, j.first, j.runs, publisher, x), j.cursor.value.completed;
    var own := OwnEvents(publisher, since, completed, x);
    SinceIsInside(limits, publisher, j, lo, x);
    ChainStaysBelow(limits, publisher, calls, lo, hi);
    MadeOfMeans(limits, j, publisher, x);
    ServedWithin(publisher, lo, hi, since, completed);
    DistinctOwnEvents(publisher, since, completed, x);
    HistoryOfALot(own);
    MadeByIs(publisher, since, completed, x);
    AlikeRepresents(SlotOf(j.cursor.value.maps, x), MadeBy(publisher, since, completed, x), own);
  }

  lemma MadeOfMeans(limits: Limits, j: Journal, publisher: Publisher, x: Text)
    requires MadeOfItsDays(limits, j, publisher, x) && j.cursor.Some? && x !in j.dropped
    ensures Alike(SlotOf(j.cursor.value.maps, x),
                  MadeBy(publisher, Since(limits, j.first, j.runs, publisher, x), j.cursor.value.completed, x))
  {
  }

  lemma SinceIsInside(limits: Limits, publisher: Publisher, j: Journal, lo: int, x: Text)
    requires lo <= j.first - Max(limits.lookback, limits.overlap) + 1
    ensures lo <= Since(limits, j.first, j.runs, publisher, x)
  {
    hide HasNotice, OwnEvents;
  }

  lemma {:induction false} ChainStaysBelow(limits: Limits, publisher: Publisher, calls: seq<Call>, lo: int, hi: int)
    requires limits.Valid() && Spans(limits, calls, lo, hi)
    ensures var j := Kept(limits, publisher, calls); j.cursor.Some? ==> j.cursor.value.completed <= hi
  {
    if calls != [] {
      var init, call := calls[..|calls| - 1], calls[|calls| - 1];
      ChainStaysBelow(limits, publisher, init, lo, hi);
      var j := Kept(limits, publisher, init);
      hide Run, Working, Held;
      if Run(limits, j.cursor, publisher, call.target, call.now).Ok? {
        RunReads(limits, j.cursor, publisher, call.target, call.now);
      }
    }
  }

  lemma {:induction false} DistinctOwnEvents(publisher: Publisher, from: int, until: int, x: Text)
    requires Serves(publisher, from, until)
    requires forall d | from <= d <= until :: publisher(d).Some? ==> DistinctKeysPerLot(publisher(d).value)
    ensures Increasing(OwnEvents(publisher, from, until, x))
    decreases until - from
  {
    if from <= until {
      assert DayIsSound(publisher, until);
      var day := publisher(until).value;
      ServedWithin(publisher, from, until, from, until - 1);
      DistinctOwnEvents(publisher, from, until - 1, x);
      OwnEventsOn(publisher, from, until - 1, x);
      OwnEventsSplit(publisher, from, until - 1, until, x);
      assert Feed(publisher, until, 1) == Feed(publisher, until, 0) + day == day;
      OwnEventsAre(publisher, until, until, x);
      OwnEventsIncrease(day, x);
      ServedWithin(publisher, from, until, until, until);
      OwnEventsOn(publisher, until, until, x);
      hide *;
      LaterDayIsLarger(OwnEvents(publisher, from, until - 1, x), OwnEvents(publisher, until, until, x), until);
    }
  }

  lemma LaterDayIsLarger(a: seq<Event>, b: seq<Event>, day: int)
    requires Increasing(a) && Increasing(b)
    requires (forall e | e in a :: e.key.day < day) && forall e | e in b :: e.key.day == day
    ensures Increasing(a + b)
  {
    var own := a + b;
    forall i, j | 0 <= i < |a| <= j < |own| ensures Less(own[i].key, own[j].key) {
      assert own[i] in a && own[j] in b;
    }
  }

  /** A run drops a held lot exactly when it finishes caught up and the lot's deadline is over, or when
      the lot's closing is older than the retention. */
  lemma DroppedExactly(limits: Limits, cursor: Option<Cursor>, publisher: Publisher, target: int, now: Time, x: Text)
    requires limits.Valid() && Run(limits, cursor, publisher, target, now).Ok?
    requires cursor.Some? ==> Disjoint(cursor.value.maps)
    ensures var working, out := Working(limits, cursor, publisher, target), Run(limits, cursor, publisher, target, now).value;
            && Disjoint(working)
            && (x in Held(working) && x !in Held(out.cursor.maps)
                <==> match SlotOf(working, x)
                     case Absent => false
                     case Tracked(s) => out.cursor.completed >= target && s.body.deadline.Some? && s.body.deadline.value <= now
                     case Closed(s) => out.cursor.completed >= target && s.key.day < target - limits.retention
                     case Recent(s) => s.key.day < target - limits.retention)
  {
    hide *;
    var before := Before(limits, cursor, target);
    var last := LastDay(limits, before, target);
    RunReads(limits, cursor, publisher, target, now);
    WorkingMeans(limits, cursor, publisher, target);
    NothingHeld(x);
    EachLotAlone(if cursor.Some? then cursor.value.maps else Maps(map[], map[], map[]), Feed(publisher, before + 1, last - before), x);
    FinishStores(limits, last, Working(limits, cursor, publisher, target), target, now);
    DroppedByFinish(Working(limits, cursor, publisher, target), last >= target, target - limits.retention, now, x);
  }

  lemma DroppedByFinish(m: Maps, done: bool, cutoff: int, now: Time, x: Text)
    requires Disjoint(m)
    ensures var final := if done then FinalMaps(m, now) else m;
            (x in Held(m) && x !in Held(final.(recent := Pruned(final.recent, cutoff))))
            <==> match SlotOf(m, x)
                 case Absent => false
                 case Tracked(s) => done && s.body.deadline.Some? && s.body.deadline.value <= now
                 case Closed(s) => done && s.key.day < cutoff
                 case Recent(s) => s.key.day < cutoff
  {
  }
}
