/** Italy: what a lot is, in the publisher's own terms.  The newest entry of a lot decides whether it is
    open, and over any chain of runs that starts without a cursor the lots on show are those whose newest
    entry is a works entry of an active, unobscured notice with a deadline ahead, although closed and
    elapsed lots are forgotten in between. */
module ItalyHistory {
  import opened Common
  import opened Lifecycle
  import opened Sorting
  import opened ItalyLots
  import opened ItalyRuns
  import opened ItalyCatchup
  import opened ItalyView
  import opened ItalyForgetting

  // ---- the history of a lot -------------------------------------------------------------------------

  ghost predicate Increasing(mine: seq<Event>) {
    forall i, j | 0 <= i < j < |mine| :: Less(mine[i].key, mine[j].key)
  }

  /** A works entry of a notice that is active and not obscured. */
  predicate IsTender(e: Event) {
    e.works && e.active && !e.obscured
  }

  /** Why an entry is no tender, the nature of the works first. */
  function WhyNot(e: Event): string {
    if !e.works then "not_construction" else if !e.active then "publisher_inactive" else "publisher_obscured"
  }

  ghost predicate OpensFirst(mine: seq<Event>, o: int) {
    0 <= o < |mine| && IsTender(mine[o]) && forall j | 0 <= j < o :: !IsTender(mine[j])
  }

  /** The least publication stamp of the entries from place o on. */
  ghost predicate FirstStamp(mine: seq<Event>, o: nat, stamp: Text) {
    && (forall j | o <= j < |mine| && mine[j].key.published != 0 :: 0 < stamp <= mine[j].key.published)
    && (stamp != 0 ==> exists j :: o <= j < |mine| && mine[j].key.published == stamp)
  }

  /** The declarative meaning of the loop for one lot: unknown until an entry is a tender, and from then on
      what its newest entry says. */
  ghost predicate Summarises(slot: Slot, mine: seq<Event>) {
    && (slot.Absent? <==> forall i | 0 <= i < |mine| :: !IsTender(mine[i]))
    && (!slot.Absent? ==>
          && mine != [] && slot.state.event == mine[|mine| - 1] && !slot.state.wasVisible
          && (slot.Tracked? <==> IsTender(mine[|mine| - 1]))
          && (slot.Tracked? ==> slot.state.closing.None?)
          && (slot.Closed? ==> slot.state.closing.Some? && slot.state.closing.value.0 == WhyNot(mine[|mine| - 1]))
          && exists o :: OpensFirst(mine, o) && FirstStamp(mine, o, slot.state.firstPublished))
  }

  lemma {:induction false} HistoryOfALot(mine: seq<Event>)
    requires Increasing(mine)
    ensures Summarises(SlotAfter(Absent, mine), mine)
  {
    if mine != [] {
      HistoryOfALot(mine[..|mine| - 1]);
      SummaryStep(SlotAfter(Absent, mine[..|mine| - 1]), mine);
    }
  }

  /** One newer entry. */
  lemma StepSays(before: Slot, e: Event)
    requires !before.Absent? ==> Less(before.state.event.key, e.key)
    ensures var after := StepSlot(before, e);
            if before.Absent? && !IsTender(e) then after.Absent?
            else
              && !after.Absent? && after.state.event == e && (after.Tracked? <==> IsTender(e))
              && (after.Tracked? ==> after.state.closing.None?)
              && (after.Closed? ==> after.state.closing.Some? && after.state.closing.value.0 == WhyNot(e))
              && after.state.wasVisible == (!before.Absent? && before.state.wasVisible)
              && after.state.firstPublished
                 == (if before.Absent? then e.key.published else MinPresent(before.state.firstPublished, e.key.published))
  {
  }

  lemma SummaryStep(before: Slot, mine: seq<Event>)
    requires mine != [] && Increasing(mine) && Summarises(before, mine[..|mine| - 1])
    ensures Summarises(StepSlot(before, mine[|mine| - 1]), mine)
  {
    hide *;
    var n := |mine| - 1;
    var init, e, after := mine[..n], mine[n], StepSlot(before, mine[n]);
    PreviousIsOlder(before, mine);
    StepSays(before, e);
    if before.Absent? {
      NoTenderYet(before, init);
      if IsTender(e) {
        OpensNow(mine);
        FirstStampOfOne(mine);
        SummaryIs(after, mine, n);
      } else {
        assert forall i | 0 <= i < |mine| :: !IsTender(mine[i]);
        NothingToSummarise(mine);
      }
    } else {
      var o := SummaryParts(before, init);
      OpensAsBefore(mine, o);
      OneMoreStamp(mine, o, before.state.firstPublished);
      SummaryIs(after, mine, o);
    }
  }

  lemma OpensNow(mine: seq<Event>)
    requires mine != [] && IsTender(mine[|mine| - 1]) && forall i | 0 <= i < |mine| - 1 :: !IsTender(mine[i])
    ensures OpensFirst(mine, |mine| - 1)
  {
    hide IsTender;
  }

  lemma OpensAsBefore(mine: seq<Event>, o: int)
    requires mine != [] && OpensFirst(mine[..|mine| - 1], o)
    ensures OpensFirst(mine, o) && 0 <= o < |mine| - 1
  {
    hide IsTender;
    assert forall i | 0 <= i < |mine| - 1 :: mine[..|mine| - 1][i] == mine[i];
  }

  lemma PreviousIsOlder(before: Slot, mine: seq<Event>)
    requires mine != [] && Increasing(mine) && Summarises(before, mine[..|mine| - 1])
    ensures !before.Absent? ==> Less(before.state.event.key, mine[|mine| - 1].key)
  {
    hide Less, IsTender, WhyNot, FirstStamp, OpensFirst;
  }

  lemma NoTenderYet(slot: Slot, mine: seq<Event>)
    requires slot.Absent? && Summarises(slot, mine)
    ensures forall i | 0 <= i < |mine| :: !IsTender(mine[i])
  {
  }

  lemma NothingToSummarise(mine: seq<Event>)
    requires forall i | 0 <= i < |mine| :: !IsTender(mine[i])
    ensures Summarises(Absent, mine)
  {
  }

  lemma SummaryParts(slot: Slot, mine: seq<Event>) returns (o: int)
    requires !slot.Absent? && Summarises(slot, mine)
    ensures OpensFirst(mine, o) && FirstStamp(mine, o, slot.state.firstPublished)
    ensures mine != [] && slot.state.event == mine[|mine| - 1] && !slot.state.wasVisible
  {
    o :| OpensFirst(mine, o) && FirstStamp(mine, o, slot.state.firstPublished);
  }

  lemma SummaryIs(slot: Slot, mine: seq<Event>, o: int)
    requires !slot.Absent? && mine != [] && slot.state.event == mine[|mine| - 1] && !slot.state.wasVisible
    requires slot.Tracked? <==> IsTender(mine[|mine| - 1])
    requires slot.Tracked? ==> slot.state.closing.None?
    requires slot.Closed? ==> slot.state.closing.Some? && slot.state.closing.value.0 == WhyNot(mine[|mine| - 1])
    requires OpensFirst(mine, o) && FirstStamp(mine, o, slot.state.firstPublished)
    ensures Summarises(slot, mine)
  {
    assert IsTender(mine[o]);
  }

  lemma FirstStampOfOne(mine: seq<Event>)
    requires mine != []
    ensures FirstStamp(mine, |mine| - 1, mine[|mine| - 1].key.published)
  {
  }

  lemma OneMoreStamp(mine: seq<Event>, o: nat, stamp: Text)
    requires mine != [] && o < |mine| && FirstStamp(mine[..|mine| - 1], o, stamp)
    ensures FirstStamp(mine, o, MinPresent(stamp, mine[|mine| - 1].key.published))
  {
    var n := |mine| - 1;
    if stamp != 0 {
      var j :| o <= j < n && mine[..n][j].key.published == stamp;
      assert mine[j].key.published == stamp;
    }
    assert forall j | o <= j < n :: mine[..n][j] == mine[j];
  }

  /** Read from nothing, every lot of a sorted feed is what its own entries say. */
  lemma EventLoopRefinesHistory(events: seq<Event>, x: Text)
    requires Increasing(OfLot(events, x))
    ensures Disjoint(Applied(Maps(map[], map[]), events))
    ensures Summarises(SlotOf(Applied(Maps(map[], map[]), events), x), OfLot(events, x))
    ensures forall e :: e in OfLot(events, x) <==> e in events && e.lot == x
  {
    EachLotAlone(Maps(map[], map[]), events, x);
    HistoryOfALot(OfLot(events, x));
    OfLotHolds(events, x);
  }

  // ---- the days of one run -------------------------------------------------------------------------

  /** The last day that one run reaches. */
  function LastDay(limits: Limits, before: int, target: int): int {
    Min(target, before + limits.maxDays)
  }

  /** A run without a cursor reads the days after `target - lookback`, as many as one run may read, and
      nothing else. */
  lemma FirstRunReads(limits: Limits, publisher: Publisher, target: int, now: Time)
    requires limits.Valid()
    ensures var before := target - limits.lookback;
            var last := LastDay(limits, before, target);
            var r := Run(limits, None, publisher, target, now);
            && last > before
            && (r.Ok? <==> AllLegible(publisher, before + 1, last))
            && (r.Ok? ==> r.value == Finish(last, Applied(Maps(map[], map[]), Feed(publisher, before + 1, last - before)), target, now))
  {
    hide Days, Applied, Feed, FinalRecords, Survivors, AllLegible;
    var before := target - limits.lookback;
    var count := LastDay(limits, before, target) - before;
    DaysAreLegible(Maps(map[], map[]), publisher, before + 1, count);
    if AllLegible(publisher, before + 1, before + count) {
      DaysApplyTheFeed(Maps(map[], map[]), publisher, before + 1, count);
    }
  }

  /** A run from a cursor reads the days after `completed - overlap`, as many as one run may read. */
  lemma LaterRunReads(limits: Limits, c: Cursor, publisher: Publisher, target: int, now: Time)
    requires limits.Valid()
    ensures var before := c.completed - limits.overlap;
            var last := LastDay(limits, before, target);
            var r := Run(limits, Some(c), publisher, target, now);
            && (c.completed <= target ==> last >= c.completed && last >= before)
            && (r.Ok? <==> c.completed <= target && AllLegible(publisher, before + 1, last))
            && (r.Ok? ==> r.value == Finish(last, Applied(c.maps, Feed(publisher, before + 1, last - before)), target, now))
  {
    hide Days, Applied, Feed, FinalRecords, Survivors, AllLegible;
    var before := c.completed - limits.overlap;
    if c.completed <= target {
      var count := LastDay(limits, before, target) - before;
      DaysAreLegible(c.maps, publisher, before + 1, count);
      if AllLegible(publisher, before + 1, before + count) {
        DaysApplyTheFeed(c.maps, publisher, before + 1, count);
      }
    }
  }

  // ---- one lot through one run -----------------------------------------------------------------------

  function OwnEvents(publisher: Publisher, from: int, until: int, x: Text): seq<Event> {
    if until < from then [] else OfLot(Feed(publisher, from, until - from + 1), x)
  }

  ghost predicate IsOver(e: Event, clock: Time) {
    e.deadline.Some? && e.deadline.value <= clock
  }

  /** A lot that is held reflects its newest entry, and one that is not has none, or one that is no tender,
      or one whose deadline is over. */
  ghost predicate ReflectsNewest(slot: Slot, mine: seq<Event>, clock: Time) {
    if slot.Absent? then
      mine == [] || !IsTender(mine[|mine| - 1]) || IsOver(mine[|mine| - 1], clock)
    else
      mine != [] && slot.state.event == mine[|mine| - 1] && (slot.Tracked? <==> IsTender(mine[|mine| - 1]))
  }

  lemma NewestIsGreatest(mine: seq<Event>, e: Event)
    requires Increasing(mine) && e in mine && forall f | f in mine :: AtMost(f.key, e.key)
    ensures e == mine[|mine| - 1]
  {
    assert mine[|mine| - 1] in mine;
  }

  ghost predicate ReflectsItsEntry(slot: Slot) {
    !slot.Absent? && (slot.Tracked? <==> IsTender(slot.state.event))
  }

  lemma StepKnown(slot: Slot, e: Event)
    requires ReflectsItsEntry(slot)
    ensures var after := StepSlot(slot, e);
            && ReflectsItsEntry(after) && (after.state.event == e || after.state.event == slot.state.event)
            && AtMost(slot.state.event.key, after.state.event.key) && AtMost(e.key, after.state.event.key)
  {
    OlderEntryIsIdle(slot, e);
    if Less(slot.state.event.key, e.key) {
      StepSays(slot, e);
      NewerKey(slot.state.event.key, e.key);
    }
    hide StepSlot, Less, IsTender, MinPresent, WhyNot;
  }

  lemma OlderEntryIsIdle(slot: Slot, e: Event)
    requires !slot.Absent?
    ensures !Less(slot.state.event.key, e.key) ==> StepSlot(slot, e) == slot && AtMost(e.key, slot.state.event.key)
    ensures AtMost(slot.state.event.key, slot.state.event.key)
  {
  }

  lemma NewerKey(a: EventKey, b: EventKey)
    requires Less(a, b)
    ensures AtMost(a, b) && AtMost(b, b)
  {
  }

  lemma {:induction false} KnownLotReads(slot: Slot, chunk: seq<Event>)
    requires ReflectsItsEntry(slot)
    ensures var after := SlotAfter(slot, chunk);
            && ReflectsItsEntry(after) && (after.state.event in chunk || after.state.event == slot.state.event)
            && AtMost(slot.state.event.key, after.state.event.key)
            && forall e | e in chunk :: AtMost(e.key, after.state.event.key)
  {
    if chunk != [] {
      var n := |chunk| - 1;
      var before, after := SlotAfter(slot, chunk[..n]), SlotAfter(slot, chunk);
      KnownLotReads(slot, chunk[..n]);
      StepKnown(before, chunk[n]);
      assert chunk == chunk[..n] + [chunk[n]];
      forall e | e in chunk[..n] || e == slot.state.event ensures AtMost(e.key, after.state.event.key) {
        AtMostTwice(e.key, before.state.event.key, after.state.event.key);
      }
      hide AtMost, StepSlot, ReflectsItsEntry;
    } else {
      AtMostItself(slot.state.event.key);
    }
  }

  lemma AtMostItself(a: EventKey)
    ensures AtMost(a, a)
  {
  }

  /** Reading on: `known` has been read, `chunk` is read now and may repeat some of it, `total` is both. */
  lemma ReadingOn(slot: Slot, known: seq<Event>, chunk: seq<Event>, total: seq<Event>, clock: Time)
    requires ReflectsNewest(slot, known, clock) && Increasing(known) && Increasing(chunk) && Increasing(total)
    requires forall e :: e in total <==> e in known || e in chunk
    requires chunk != [] ==> total != [] && total[|total| - 1] == chunk[|chunk| - 1]
    ensures ReflectsNewest(SlotAfter(slot, chunk), total, clock)
  {
    if slot.Absent? {
      HistoryOfALot(chunk);
      if chunk == [] {
        SameEntriesSameNewest(known, total);
      }
    } else {
      var after := SlotAfter(slot, chunk);
      KnownLotReads(slot, chunk);
      forall f | f in total ensures AtMost(f.key, after.state.event.key) {
        if f in known {
          NewestIsLast(known, f);
          AtMostTwice(f.key, slot.state.event.key, after.state.event.key);
        }
      }
      assert known[|known| - 1] in known;
      NewestIsGreatest(total, after.state.event);
    }
  }

  lemma AtMostTwice(a: EventKey, b: EventKey, c: EventKey)
    requires AtMost(a, b) && AtMost(b, c)
    ensures AtMost(a, c)
  {
  }

  lemma NewestIsLast(mine: seq<Event>, e: Event)
    requires Increasing(mine) && e in mine
    ensures AtMost(e.key, mine[|mine| - 1].key)
  {
  }

  lemma SameEntriesSameNewest(a: seq<Event>, b: seq<Event>)
    requires Increasing(a) && Increasing(b) && forall e :: e in a <==> e in b
    ensures a == [] <==> b == []
    ensures a != [] ==> a[|a| - 1] == b[|b| - 1]
  {
    if a != [] {
      assert a[|a| - 1] in b;
      forall f | f in b ensures AtMost(f.key, a[|a| - 1].key) {
        NewestIsLast(a, f);
      }
      NewestIsGreatest(b, a[|a| - 1]);
    }
    assert b != [] ==> b[0] in b;
  }

  /** What a run stores of a lot still says what its newest entry says. */
  lemma StoredReflects(completed: int, m: Maps, target: int, now: Time, x: Text, mine: seq<Event>, clock: Time)
    requires Disjoint(m) && ReflectsNewest(SlotOf(m, x), mine, clock) && clock <= now
    ensures ReflectsNewest(SlotOf(Finish(completed, m, target, now).cursor.maps, x), mine, now)
    ensures Disjoint(Finish(completed, m, target, now).cursor.maps)
    ensures completed >= target ==>
              var kept := Finish(completed, m, target, now).cursor.maps;
              (x in kept.tracked <==> mine != [] && IsTender(mine[|mine| - 1]) && !IsOver(mine[|mine| - 1], now))
              && (x in kept.tracked ==> kept.tracked[x].event == mine[|mine| - 1])
  {
    hide FinalRecords;
  }

  // ---- ranges of days ----------------------------------------------------------------------------------

  lemma OwnEventsAre(publisher: Publisher, from: int, until: int, x: Text)
    requires until >= from - 1
    ensures OwnEvents(publisher, from, until, x) == OfLot(Feed(publisher, from, until - from + 1), x)
  {
  }

  lemma OwnEventsSplit(publisher: Publisher, from: int, mid: int, until: int, x: Text)
    requires from <= mid + 1 <= until + 1
    ensures OwnEvents(publisher, from, until, x) == OwnEvents(publisher, from, mid, x) + OwnEvents(publisher, mid + 1, until, x)
  {
    OwnEventsAre(publisher, from, until, x);
    OwnEventsAre(publisher, from, mid, x);
    OwnEventsAre(publisher, mid + 1, until, x);
    FeedSplits(publisher, from, mid - from + 1, until - mid);
    OfLotJoins(Feed(publisher, from, mid - from + 1), Feed(publisher, mid + 1, until - mid), x);
    hide OfLot, Feed, OwnEvents;
  }

  lemma IncreasingParts(a: seq<Event>, b: seq<Event>)
    requires Increasing(a + b)
    ensures Increasing(a) && Increasing(b)
  {
    var all := a + b;
    assert forall i | 0 <= i < |a| :: a[i] == all[i];
    assert forall i | 0 <= i < |b| :: b[i] == all[|a| + i];
    hide Less;
  }

  lemma IncreasingWithin(publisher: Publisher, lo: int, hi: int, from: int, until: int, x: Text)
    requires lo <= from <= until + 1 <= hi + 1 && Increasing(OwnEvents(publisher, lo, hi, x))
    ensures Increasing(OwnEvents(publisher, from, until, x))
  {
    hide OwnEvents, Increasing;
    OwnEventsSplit(publisher, lo, until, hi, x);
    IncreasingParts(OwnEvents(publisher, lo, until, x), OwnEvents(publisher, until + 1, hi, x));
    OwnEventsSplit(publisher, lo, from - 1, until, x);
    IncreasingParts(OwnEvents(publisher, lo, from - 1, x), OwnEvents(publisher, from, until, x));
  }

  /** Days `from` to `done` are known and days `r` to `until` are read: together, days Min(from, r) to `until`. */
  lemma ReadingDaysOn(slot: Slot, publisher: Publisher, lo: int, hi: int, from: int, done: int, r: int, until: int, x: Text,
                      clock: Time)
    requires lo <= from <= done + 1 && lo <= r <= done + 1 <= until + 1 <= hi + 1
    requires Increasing(OwnEvents(publisher, lo, hi, x))
    requires ReflectsNewest(slot, OwnEvents(publisher, from, done, x), clock)
    ensures ReflectsNewest(SlotAfter(slot, OwnEvents(publisher, r, until, x)), OwnEvents(publisher, Min(from, r), until, x), clock)
  {
    hide *;
    MinIs(from, r);
    var known, chunk, total := OwnEvents(publisher, from, done, x), OwnEvents(publisher, r, until, x),
                               OwnEvents(publisher, Min(from, r), until, x);
    IncreasingWithin(publisher, lo, hi, from, done, x);
    IncreasingWithin(publisher, lo, hi, r, until, x);
    IncreasingWithin(publisher, lo, hi, Min(from, r), until, x);
    OwnEventsSplit(publisher, r, done, until, x);
    if from <= r {
      OwnEventsSplit(publisher, from, r - 1, done, x);
      OwnEventsSplit(publisher, from, r - 1, until, x);
    } else {
      OwnEventsSplit(publisher, r, from - 1, done, x);
    }
    ReadingOn(slot, known, chunk, total, clock);
  }

  // ---- a chain of runs -----------------------------------------------------------------------------------

  /** How many runs of a chain were committed, and the target of the first. */
  datatype Commits = Commits(runs: nat, first: int)

  function Committed(limits: Limits, inputs: seq<Input>): Commits
    requires limits.Valid()
  {
    if inputs == [] then Commits(0, 0)
    else
      var init, input := inputs[..|inputs| - 1], inputs[|inputs| - 1];
      NextCommit(limits, After(limits, init).cursor, Committed(limits, init), input)
  }

  function NextCommit(limits: Limits, cursor: Option<Cursor>, done: Commits, input: Input): Commits
    requires limits.Valid()
  {
    if Run(limits, cursor, input.publisher, input.target, input.now).Err? then done
    else Commits(done.runs + 1, if done.runs == 0 then input.target else done.first)
  }

  /** The first day that any run of the chain has read: of the first run's look-back, or, if the overlap is
      longer, of the second run's overlap. */
  function Earliest(limits: Limits, done: Commits): int {
    if limits.overlap > limits.lookback && done.runs > 1 then done.first - limits.overlap + 1
    else done.first - limits.lookback + 1
  }

  ghost predicate Reached(limits: Limits, cursor: Option<Cursor>, done: Commits) {
    && (done.runs == 0 <==> cursor.None?)
    && (cursor.Some? ==>
          && Disjoint(cursor.value.maps)
          && cursor.value.completed >= Min(done.first, done.first - limits.lookback + limits.maxDays)
          && (done.runs == 1 ==> cursor.value.completed == Min(done.first, done.first - limits.lookback + limits.maxDays)))
  }

  /** A lot as a chain has left it. */
  ghost predicate LotReflects(limits: Limits, cursor: Option<Cursor>, done: Commits, publisher: Publisher, x: Text, clock: Time) {
    cursor.Some? ==>
      ReflectsNewest(SlotOf(cursor.value.maps, x),
                     OwnEvents(publisher, Earliest(limits, done), cursor.value.completed, x), clock)
  }

  ghost predicate Spans(limits: Limits, inputs: seq<Input>, lo: int, hi: int) {
    forall i | 0 <= i < |inputs| :: Inside(limits, inputs[i], lo, hi)
  }

  ghost predicate Inside(limits: Limits, input: Input, lo: int, hi: int) {
    lo <= input.target - Max(limits.lookback, limits.overlap) + 1 && input.target <= hi
  }

  /** The same days for every run, and a clock that does not go back. */
  ghost predicate SameDays(inputs: seq<Input>, publisher: Publisher) {
    && (forall i | 0 <= i < |inputs| :: inputs[i].publisher == publisher)
    && (forall i, j | 0 <= i < j < |inputs| :: inputs[i].now <= inputs[j].now)
  }

  /** What one committed run reads, in days. */
  lemma RunReads(limits: Limits, cursor: Option<Cursor>, publisher: Publisher, target: int, now: Time, x: Text)
    returns (m: Maps)
    requires limits.Valid() && Run(limits, cursor, publisher, target, now).Ok?
    requires cursor.Some? ==> Disjoint(cursor.value.maps)
    ensures var before := if cursor.Some? then cursor.value.completed - limits.overlap else target - limits.lookback;
            var last := LastDay(limits, before, target);
            && before <= last <= target && (cursor.Some? ==> cursor.value.completed <= last) && (cursor.None? ==> before < last)
            && Run(limits, cursor, publisher, target, now).value == Finish(last, m, target, now)
            && Disjoint(m)
            && SlotOf(m, x) == SlotAfter(if cursor.Some? then SlotOf(cursor.value.maps, x) else Absent,
                                         OwnEvents(publisher, before + 1, last, x))
  {
    hide *;
    LastDayMeans(limits, if cursor.Some? then cursor.value.completed - limits.overlap else target - limits.lookback, target);
    var before := if cursor.Some? then cursor.value.completed - limits.overlap else target - limits.lookback;
    var last := LastDay(limits, before, target);
    if cursor.Some? {
      LaterRunReads(limits, cursor.value, publisher, target, now);
      m := Applied(cursor.value.maps, Feed(publisher, before + 1, last - before));
      EachLotAlone(cursor.value.maps, Feed(publisher, before + 1, last - before), x);
    } else {
      FirstRunReads(limits, publisher, target, now);
      m := Applied(Maps(map[], map[]), Feed(publisher, before + 1, last - before));
      NothingIsHeld(x);
      EachLotAlone(Maps(map[], map[]), Feed(publisher, before + 1, last - before), x);
    }
    OwnEventsAre(publisher, before + 1, last, x);
  }

  lemma LastDayMeans(limits: Limits, before: int, target: int)
    ensures LastDay(limits, before, target) <= target
  {
  }

  lemma NothingIsHeld(x: Text)
    ensures Disjoint(Maps(map[], map[])) && SlotOf(Maps(map[], map[]), x) == Absent
  {
  }

  /** Where the reading stands, before and after one more run. */
  lemma WhereItStarts(limits: Limits, cursor: Option<Cursor>, done: Commits, input: Input, lo: int, hi: int)
    requires limits.Valid() && Reached(limits, cursor, done) && Inside(limits, input, lo, hi)
    requires cursor.Some? ==> lo <= done.first - Max(limits.lookback, limits.overlap) + 1
    requires Run(limits, cursor, input.publisher, input.target, input.now).Ok?
    ensures var next := NextCommit(limits, cursor, done, input);
            && next.runs == done.runs + 1 && next.first == (if cursor.Some? then done.first else input.target)
            && lo <= next.first - Max(limits.lookback, limits.overlap) + 1
            && (cursor.None? ==> Earliest(limits, next) == input.target - limits.lookback + 1)
            && (cursor.Some? ==>
                  var c, e := cursor.value.completed, Earliest(limits, done);
                  && lo <= e <= c + 1 && lo <= c - limits.overlap + 1 <= c + 1
                  && Earliest(limits, next) == Min(e, c - limits.overlap + 1))
  {
    hide Run, Disjoint;
  }

  lemma OneRunReflects(limits: Limits, cursor: Option<Cursor>, done: Commits, input: Input, lo: int, hi: int, x: Text, clock: Time)
    requires limits.Valid() && Reached(limits, cursor, done) && Inside(limits, input, lo, hi) && clock <= input.now
    requires cursor.Some? ==> lo <= done.first - Max(limits.lookback, limits.overlap) + 1
    requires Increasing(OwnEvents(input.publisher, lo, hi, x))
    requires LotReflects(limits, cursor, done, input.publisher, x, clock)
    requires Run(limits, cursor, input.publisher, input.target, input.now).Ok?
    ensures var out, next := Run(limits, cursor, input.publisher, input.target, input.now).value, NextCommit(limits, cursor, done, input);
            && LotReflects(limits, Some(out.cursor), next, input.publisher, x, input.now)
            && Disjoint(out.cursor.maps)
            && (out.cursor.completed >= input.target ==>
                  var mine := OwnEvents(input.publisher, Earliest(limits, next), out.cursor.completed, x);
                  (x in out.cursor.maps.tracked <==> mine != [] && IsTender(mine[|mine| - 1]) && !IsOver(mine[|mine| - 1], input.now))
                  && (x in out.cursor.maps.tracked ==> out.cursor.maps.tracked[x].event == mine[|mine| - 1]))
  {
    hide *;
    var publisher, target, now := input.publisher, input.target, input.now;
    var next := NextCommit(limits, cursor, done, input);
    ReachedMeans(limits, cursor, done);
    WhereItStarts(limits, cursor, done, input, lo, hi);
    InsideMeans(limits, input, lo, hi);
    var m := RunReads(limits, cursor, publisher, target, now, x);
    var before := if cursor.Some? then cursor.value.completed - limits.overlap else target - limits.lookback;
    var last := LastDay(limits, before, target);
    FinishReaches(last, m, target, now);
    var mine := OwnEvents(publisher, Earliest(limits, next), last, x);
    if cursor.Some? {
      LotReflectsMeans(limits, cursor, done, publisher, x, clock);
      ReadingDaysOn(SlotOf(cursor.value.maps, x), publisher, lo, hi, Earliest(limits, done), cursor.value.completed, before + 1,
                    last, x, clock);
    } else {
      IncreasingWithin(publisher, lo, hi, before + 1, last, x);
      NothingKnownYet(mine, clock);
    }
    StoredReflects(last, m, target, now, x, mine, clock);
    LotReflectsIs(limits, Finish(last, m, target, now).cursor, next, publisher, x, now);
  }

  lemma ReachedMeans(limits: Limits, cursor: Option<Cursor>, done: Commits)
    requires Reached(limits, cursor, done)
    ensures cursor.Some? ==> Disjoint(cursor.value.maps)
  {
  }

  lemma InsideMeans(limits: Limits, input: Input, lo: int, hi: int)
    requires Inside(limits, input, lo, hi)
    ensures lo <= input.target - limits.lookback + 1 && input.target <= hi
  {
  }

  lemma LotReflectsMeans(limits: Limits, cursor: Option<Cursor>, done: Commits, publisher: Publisher, x: Text, clock: Time)
    requires LotReflects(limits, cursor, done, publisher, x, clock) && cursor.Some?
    ensures ReflectsNewest(SlotOf(cursor.value.maps, x), OwnEvents(publisher, Earliest(limits, done), cursor.value.completed, x), clock)
  {
  }

  lemma LotReflectsIs(limits: Limits, c: Cursor, done: Commits, publisher: Publisher, x: Text, clock: Time)
    requires ReflectsNewest(SlotOf(c.maps, x), OwnEvents(publisher, Earliest(limits, done), c.completed, x), clock)
    ensures LotReflects(limits, Some(c), done, publisher, x, clock)
  {
  }

  lemma NothingKnownYet(mine: seq<Event>, clock: Time)
    requires Increasing(mine)
    ensures ReflectsNewest(SlotAfter(Absent, mine), mine, clock)
  {
    HistoryOfALot(mine);
    hide SlotAfter;
  }

  lemma OneRunReaches(limits: Limits, cursor: Option<Cursor>, done: Commits, input: Input)
    requires limits.Valid() && Reached(limits, cursor, done)
    requires Run(limits, cursor, input.publisher, input.target, input.now).Ok?
    requires Disjoint(Run(limits, cursor, input.publisher, input.target, input.now).value.cursor.maps)
    ensures Reached(limits, Some(Run(limits, cursor, input.publisher, input.target, input.now).value.cursor),
                    NextCommit(limits, cursor, done, input))
  {
    hide *;
    ReachedMeans(limits, cursor, done);
    var m := RunReads(limits, cursor, input.publisher, input.target, input.now, 0);
    var before := if cursor.Some? then cursor.value.completed - limits.overlap else input.target - limits.lookback;
    FinishReaches(LastDay(limits, before, input.target), m, input.target, input.now);
    NextCommitMeans(limits, cursor, done, input);
    ReachesFurther(limits, cursor, done, Run(limits, cursor, input.publisher, input.target, input.now).value.cursor,
                   NextCommit(limits, cursor, done, input), input.target);
  }

  lemma NextCommitMeans(limits: Limits, cursor: Option<Cursor>, done: Commits, input: Input)
    requires limits.Valid() && Run(limits, cursor, input.publisher, input.target, input.now).Ok?
    ensures NextCommit(limits, cursor, done, input) == Commits(done.runs + 1, if done.runs == 0 then input.target else done.first)
  {
  }

  lemma ReachesFurther(limits: Limits, cursor: Option<Cursor>, done: Commits, c: Cursor, next: Commits, target: int)
    requires Reached(limits, cursor, done) && Disjoint(c.maps)
    requires next == Commits(done.runs + 1, if done.runs == 0 then target else done.first)
    requires c.completed == LastDay(limits, if cursor.Some? then cursor.value.completed - limits.overlap else target - limits.lookback, target)
    requires cursor.Some? ==> cursor.value.completed <= c.completed
    ensures Reached(limits, Some(c), next)
  {
    hide Disjoint;
  }

  lemma {:induction false} ChainReflects(limits: Limits, publisher: Publisher, inputs: seq<Input>, lo: int, hi: int, x: Text, clock: Time)
    requires limits.Valid() && Spans(limits, inputs, lo, hi) && SameDays(inputs, publisher)
    requires Increasing(OwnEvents(publisher, lo, hi, x)) && forall i | 0 <= i < |inputs| :: inputs[i].now <= clock
    ensures var cursor, done := After(limits, inputs).cursor, Committed(limits, inputs);
            && Reached(limits, cursor, done) && LotReflects(limits, cursor, done, publisher, x, clock)
            && (cursor.Some? ==> lo <= done.first - Max(limits.lookback, limits.overlap) + 1)
    decreases |inputs|
  {
    hide Run, Reached, LotReflects, OwnEvents, Increasing, NextCommit, Folded;
    if inputs == [] {
      NoRunYet(limits, publisher, x, clock);
    } else {
      var init, input := inputs[..|inputs| - 1], inputs[|inputs| - 1];
      var cursor, done := After(limits, init).cursor, Committed(limits, init);
      ChainReflects(limits, publisher, init, lo, hi, x, input.now);
      assert Inside(limits, input, lo, hi);
      if Run(limits, cursor, publisher, input.target, input.now).Ok? {
        var out := Run(limits, cursor, publisher, input.target, input.now).value;
        OneRunReflects(limits, cursor, done, input, lo, hi, x, input.now);
        OneRunReaches(limits, cursor, done, input);
        WhereItStarts(limits, cursor, done, input, lo, hi);
        LaterClock(limits, Some(out.cursor), NextCommit(limits, cursor, done, input), publisher, x, input.now, clock);
      } else {
        RefusedIsNoCommit(limits, cursor, done, input);
        LaterClock(limits, cursor, done, publisher, x, input.now, clock);
      }
    }
  }

  lemma NoRunYet(limits: Limits, publisher: Publisher, x: Text, clock: Time)
    ensures Reached(limits, None, Commits(0, 0)) && LotReflects(limits, None, Commits(0, 0), publisher, x, clock)
  {
  }

  lemma RefusedIsNoCommit(limits: Limits, cursor: Option<Cursor>, done: Commits, input: Input)
    requires limits.Valid() && Run(limits, cursor, input.publisher, input.target, input.now).Err?
    ensures NextCommit(limits, cursor, done, input) == done
  {
  }

  lemma LaterClock(limits: Limits, cursor: Option<Cursor>, done: Commits, publisher: Publisher, x: Text, clock: Time, later: Time)
    requires LotReflects(limits, cursor, done, publisher, x, clock) && clock <= later
    ensures LotReflects(limits, cursor, done, publisher, x, later)
  {
    hide OwnEvents;
  }

  /** The newest entry decides.  Over any chain of runs that starts without a cursor and reads the same days,
      however short the runs, whatever was refused, and with a clock that does not go back: a caught-up run
      leaves a lot on show if and only if the newest of its own entries, from the first day read to the day
      completed, is a works entry of an active and unobscured notice with a deadline ahead.  It then holds that
      very entry.  That closed and elapsed lots are forgotten in between never shows. */
  lemma NewestEntryDecides(limits: Limits, publisher: Publisher, history: seq<Input>, input: Input, lo: int, hi: int, x: Text)
    requires limits.Valid() && Spans(limits, history + [input], lo, hi) && SameDays(history + [input], publisher)
    requires Increasing(OwnEvents(publisher, lo, hi, x))
    requires var r := Run(limits, After(limits, history).cursor, publisher, input.target, input.now);
             r.Ok? && r.value.cursor.completed >= input.target
    ensures var sys, done := After(limits, history + [input]), Committed(limits, history + [input]);
            && sys.cursor.Some? && sys.cursor.value.completed == input.target
            && var mine := OwnEvents(publisher, Earliest(limits, done), input.target, x);
            && (Shown(sys.rows, SOURCE, x)
                <==> mine != [] && mine[|mine| - 1].works && mine[|mine| - 1].active && !mine[|mine| - 1].obscured
                     && mine[|mine| - 1].deadline.Some? && mine[|mine| - 1].deadline.value > input.now)
            && (Shown(sys.rows, SOURCE, x) ==>
                  x in sys.cursor.value.maps.tracked && sys.cursor.value.maps.tracked[x].event == mine[|mine| - 1])
  {
    hide Run, Reached, LotReflects, OwnEvents, Increasing, NextCommit, Folded, Shown, Earliest;
    var all := history + [input];
    assert all[..|all| - 1] == history && all[|history|] == input;
    assert forall i | 0 <= i < |history| :: all[i] == history[i];
    assert Inside(limits, all[|history|], lo, hi);
    var cursor, done := After(limits, history).cursor, Committed(limits, history);
    assert Spans(limits, history, lo, hi) by {
      forall i | 0 <= i < |history| ensures Inside(limits, history[i], lo, hi) {
        assert Inside(limits, all[i], lo, hi);
      }
    }
    ChainReflects(limits, publisher, history, lo, hi, x, input.now);
    OneRunReflects(limits, cursor, done, input, lo, hi, x, input.now);
    RunsAdvance(limits, cursor, publisher, input.target, input.now);
    ViewIsExact(limits, history, input);
  }

  // ---- what a run says and stores -------------------------------------------------------------------------

  /** What a caught-up run says of a lot, and what it stores of it: an open lot with a deadline ahead is
      announced and kept; any other is withdrawn if it carries its mark, and only an open one without a
      deadline is kept. */
  ghost predicate Judged(slot: Slot, now: Time, record: Option<Record>, kept: Slot) {
    match slot
    case Absent => record.None? && kept == Absent
    case Tracked(s) =>
      var open := s.event.deadline.Some? && s.event.deadline.value > now;
      && kept == (if open || s.event.deadline.None? then Tracked(s.(wasVisible := open)) else Absent)
      && (record.Some? <==> open || s.wasVisible)
      && (record.Some? ==> Tells(record.value, s, open, if open then "active"
                                                        else if s.event.deadline.None? then "deadline_missing" else "deadline_elapsed"))
    case Closed(s) =>
      && kept == Absent
      && (record.Some? <==> s.wasVisible)
      && (record.Some? ==> Tells(record.value, s, false, if s.closing.Some? then s.closing.value.0 else "publisher_inactive"))
  }

  ghost predicate Tells(r: Record, s: LotState, open: bool, status: string) {
    r.Record? && r.isActionable == Some(open) && r.status == status && r.updatedAt == s.event.key.published
    && r.publishedAt == s.firstPublished
  }

  lemma JudgedFinally(m: Maps, now: Time, x: Text)
    requires Disjoint(m)
    ensures var live, closing := TrackedRecord(m.tracked, now, x), ClosureRecord(m.closed, x);
            && Judged(SlotOf(m, x), now, if live.Some? then live else closing, SlotOf(Maps(Survivors(m.tracked, now), map[]), x))
            && (live.None? || closing.None?)
  {
    if x in m.tracked {
      TrackedJudged(m.tracked, now, x);
    } else if x in m.closed {
      ClosedJudged(m.closed, now, x);
    }
    hide Judged, TrackedRecord, ClosureRecord;
    NothingJudged(m, now, x);
  }

  lemma NothingJudged(m: Maps, now: Time, x: Text)
    ensures x !in m.tracked ==> TrackedRecord(m.tracked, now, x).None?
    ensures x !in m.closed ==> ClosureRecord(m.closed, x).None?
    ensures Judged(Absent, now, None, Absent)
  {
  }

  lemma TrackedJudged(tracked: map<Text, LotState>, now: Time, x: Text)
    requires x in tracked
    ensures Judged(Tracked(tracked[x]), now, TrackedRecord(tracked, now, x), SlotOf(Maps(Survivors(tracked, now), map[]), x))
  {
  }

  lemma ClosedJudged(closed: map<Text, LotState>, now: Time, x: Text)
    requires x in closed
    ensures Judged(Closed(closed[x]), now, ClosureRecord(closed, x), Absent)
  {
  }

  lemma FinishJudges(completed: int, m: Maps, target: int, now: Time, x: Text) returns (record: Option<Record>)
    requires Disjoint(m) && 0 !in m.tracked && 0 !in m.closed
    ensures var out := Finish(completed, m, target, now);
            && OnlyRecord(out.records, x, record)
            && (if completed < target then record.None? && out.cursor.maps == m
                else Judged(SlotOf(m, x), now, record, SlotOf(out.cursor.maps, x)))
  {
    var live, closing := TrackedRecord(m.tracked, now, x), ClosureRecord(m.closed, x);
    JudgedFinally(m, now, x);
    hide Judged, FinalRecords, TrackedRecord, ClosureRecord, Survivors;
    record := None;
    if completed >= target {
      record := if live.Some? then live else closing;
      forall r: Record ensures r in FinalRecords(m, now) && r.Record? && r.externalId == x <==> record == Some(r) {
        FinalRecordsMean(m, now, r);
      }
    }
  }

  /** Every run, lot by lot: a lot becomes what its own entries of the days read make of what the cursor held;
      a run behind its target keeps exactly that and says nothing; a caught-up one judges it. */
  lemma RunJudges(limits: Limits, cursor: Option<Cursor>, publisher: Publisher, target: int, now: Time, x: Text)
    returns (record: Option<Record>)
    requires limits.Valid() && Run(limits, cursor, publisher, target, now).Ok?
    requires cursor.Some? ==> Tidy(cursor.value.maps)
    ensures var out := Run(limits, cursor, publisher, target, now).value;
            var before := if cursor.Some? then cursor.value.completed - limits.overlap else target - limits.lookback;
            var slot := SlotAfter(if cursor.Some? then SlotOf(cursor.value.maps, x) else Absent,
                                  OwnEvents(publisher, before + 1, LastDay(limits, before, target), x));
            && out.cursor.completed == LastDay(limits, before, target)
            && OnlyRecord(out.records, x, record)
            && (if out.cursor.completed < target then record.None? && SlotOf(out.cursor.maps, x) == slot
                else Judged(slot, now, record, SlotOf(out.cursor.maps, x)))
  {
    hide *;
    var before := if cursor.Some? then cursor.value.completed - limits.overlap else target - limits.lookback;
    var last := LastDay(limits, before, target);
    var m := if cursor.Some? then cursor.value.maps else Maps(map[], map[]);
    LastDayMeans(limits, before, target);
    NothingIsHeld(x);
    if cursor.Some? {
      LaterRunReads(limits, cursor.value, publisher, target, now);
    } else {
      FirstRunReads(limits, publisher, target, now);
      NothingIsTidy();
    }
    var events := Feed(publisher, before + 1, last - before);
    TidyMeans(m);
    FeedKeepsTidy(m, publisher, before + 1, last - before);
    TidyMeans(Applied(m, events));
    EachLotAlone(m, events, x);
    OwnEventsAre(publisher, before + 1, last, x);
    FinishReaches(last, Applied(m, events), target, now);
    record := FinishJudges(last, Applied(m, events), target, now, x);
  }

  lemma TidyMeans(m: Maps)
    requires Tidy(m)
    ensures Disjoint(m) && 0 !in m.tracked && 0 !in m.closed
  {
  }

  lemma NothingIsTidy()
    ensures Tidy(Maps(map[], map[]))
  {
  }
}
