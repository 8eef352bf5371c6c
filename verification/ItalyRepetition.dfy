/** Italy: which publisher data make every repetition of a caught-up run silent.  The loop keeps the
    first entry of each lot and version; a repetition can differ only where a version lists a lot
    first as closed and then as open, or where the first run looked back less than the overlap. */
module ItalyRepetition {
  import opened Common
  import opened Sorting
  import opened ItalyLots
  import opened ItalyRuns
  import opened ItalyCatchup
  import opened ItalyForgetting

  // ---- several entries of one lot and version -----------------------------------------------------

  ghost predicate Relists(list: seq<Event>, e: Event) {
    exists i :: 0 <= i < |list| && list[i].lot == e.lot && list[i].key == e.key
  }

  /** Each lot of a version once, at its first place. */
  ghost function Cleaned(list: seq<Event>): seq<Event> {
    if list == [] then []
    else
      var init, last := list[..|list| - 1], list[|list| - 1];
      if Relists(init, last) then Cleaned(init) else Cleaned(init) + [last]
  }

  /** No version lists a lot first as closed and then as open. */
  ghost predicate Unsplit(list: seq<Event>) {
    forall i, j | 0 <= i < j < |list| && list[i].lot == list[j].lot && list[i].key == list[j].key && Open(list[j]) :: Open(list[i])
  }

  lemma RepeatedEntryIsIdle(m: Maps, list: seq<Event>)
    requires SortedByKey(list) && Unsplit(list)
    requires list != [] && Relists(list[..|list| - 1], list[|list| - 1])
    ensures Applied(m, list) == Applied(m, list[..|list| - 1])
  {
    var init, last := list[..|list| - 1], list[|list| - 1];
    var i :| 0 <= i < |init| && init[i].lot == last.lot && init[i].key == last.key;
    assert list[i] == init[i];
    SortedFeedLeavesItsMarks(m, init);
    assert LeftItsMark(Applied(m, init), init[i]);
    assert LeftItsMark(Applied(m, init), last);
    hide MergeState, Closing, AtMost, Open;
  }

  /** Applying a sorted list is applying each lot of a version once. */
  lemma {:induction false} CleaningChangesNothing(m: Maps, list: seq<Event>)
    requires SortedByKey(list) && Unsplit(list)
    ensures Applied(m, list) == Applied(m, Cleaned(list))
  {
    if list != [] {
      var init, last := list[..|list| - 1], list[|list| - 1];
      CleaningChangesNothing(m, init);
      if Relists(init, last) {
        RepeatedEntryIsIdle(m, list);
      } else {
        assert (Cleaned(init) + [last])[..|Cleaned(init)|] == Cleaned(init);
      }
    }
  }

  // ---- cursors built from the publisher's data --------------------------------------------------------

  function DayOf(publisher: Publisher, d: int): seq<Event> {
    if publisher(d).Some? then DayList(publisher(d).value) else []
  }

  /** Entry i of a day, the first of its lot and version. */
  ghost predicate FirstEntry(list: seq<Event>, i: int) {
    0 <= i < |list| && !Relists(list[..i], list[i])
  }

  lemma FirstEntryIsLeast(list: seq<Event>, i: int, j: int)
    requires FirstEntry(list, j) && 0 <= i < |list| && list[i].lot == list[j].lot && list[i].key == list[j].key
    ensures j <= i
  {
    assert forall k | 0 <= k < j :: list[..j][k] == list[k];
  }

  /** The slot holds the outcome of the first entry of a lot and version on a day of the range. */
  ghost predicate From(publisher: Publisher, slot: Slot, x: Text, lo: int, hi: int) {
    exists d, i :: lo <= d <= hi && Holds(slot, x, DayOf(publisher, d), i)
  }

  ghost predicate Holds(slot: Slot, x: Text, list: seq<Event>, i: int) {
    FirstEntry(list, i) && list[i].lot == x && Reflects(slot, list[i])
  }

  ghost predicate Grounded(m: Maps, publisher: Publisher, lo: int, hi: int) {
    Tidy(m) && forall x :: SlotOf(m, x).Absent? || From(publisher, SlotOf(m, x), x, lo, hi)
  }

  ghost predicate UnsplitDays(publisher: Publisher, lo: int, hi: int) {
    forall d | lo <= d <= hi :: Unsplit(DayOf(publisher, d))
  }

  /** A lot that a list changes holds the outcome of a first entry of its own. */
  lemma {:induction false} ListSetsFirstEntries(m: Maps, list: seq<Event>, x: Text)
    requires Disjoint(m) && SortedByKey(list) && Unsplit(list)
    ensures var slot := SlotOf(Applied(m, list), x);
            slot == SlotOf(m, x) || exists i :: Holds(slot, x, list, i)
  {
    if list != [] {
      var n := |list| - 1;
      var before, after := SlotOf(Applied(m, list[..n]), x), SlotOf(Applied(m, list), x);
      ListSetsFirstEntries(m, list[..n], x);
      if Relists(list[..n], list[n]) {
        RepeatedEntryIsIdle(m, list);
      } else {
        EachLotAlone(m, list[..n], x);
        StepTouchesOneLot(Applied(m, list[..n]), list[n], x);
        StepReflects(before, list[n]);
        assert FirstEntry(list, n);
        assert after == before || Holds(after, x, list, n);
      }
      hide Applied, SlotOf, Reflects;
      if after == before && before != SlotOf(m, x) {
        var i :| Holds(before, x, list[..n], i);
        assert list[..n][..i] == list[..i];
        assert Holds(after, x, list, i);
      }
    }
  }

  lemma StepReflects(slot: Slot, e: Event)
    ensures StepSlot(slot, e) == slot || Reflects(StepSlot(slot, e), e)
  {
  }

  lemma DayKeepsGround(m: Maps, publisher: Publisher, d: int, lo: int, hi: int)
    requires Grounded(m, publisher, lo, hi) && lo <= d <= hi && Legible(publisher, d) && Unsplit(DayOf(publisher, d))
    ensures Grounded(Applied(m, DayOf(publisher, d)), publisher, lo, hi)
  {
    var list := DayOf(publisher, d);
    var after := Applied(m, list);
    DayKeepsTidy(m, publisher, d);
    DayIsSorted(publisher(d).value);
    hide Applied, DayOf, Tidy, SlotOf, Holds;
    forall x ensures SlotOf(after, x).Absent? || From(publisher, SlotOf(after, x), x, lo, hi) {
      ListSetsFirstEntries(m, list, x);
    }
  }

  lemma DayKeepsTidy(m: Maps, publisher: Publisher, d: int)
    requires Tidy(m) && Legible(publisher, d)
    ensures Disjoint(m) && Tidy(Applied(m, DayOf(publisher, d)))
  {
    assert Feed(publisher, d, 1) == Feed(publisher, d, 0) + DayOf(publisher, d) == DayOf(publisher, d);
    FeedKeepsTidy(m, publisher, d, 1);
    hide Applied;
  }

  lemma {:induction false} DaysKeepGround(m: Maps, publisher: Publisher, start: int, count: nat, lo: int, hi: int)
    requires Grounded(m, publisher, lo, hi) && lo <= start && (count > 0 ==> start + count - 1 <= hi)
    requires UnsplitDays(publisher, lo, hi) && AllLegible(publisher, start, start + count - 1)
    ensures Grounded(Applied(m, Feed(publisher, start, count)), publisher, lo, hi)
  {
    if count > 0 {
      var d := start + count - 1;
      assert Legible(publisher, d) && Unsplit(DayOf(publisher, d));
      var before := Feed(publisher, start, count - 1);
      DaysKeepGround(m, publisher, start, count - 1, lo, hi);
      AppliedInPieces(m, before, DayOf(publisher, d));
      assert Feed(publisher, start, count) == before + DayOf(publisher, d);
      hide Grounded, Applied, Feed, DayOf, Unsplit;
      DayKeepsGround(Applied(m, before), publisher, d, lo, hi);
    }
  }

  lemma GroundedLater(m: Maps, publisher: Publisher, lo: int, hi: int, later: int)
    requires Grounded(m, publisher, lo, hi) && hi <= later
    ensures Grounded(m, publisher, lo, later)
  {
    hide Holds, DayOf, SlotOf, Tidy;
    forall x ensures SlotOf(m, x).Absent? || From(publisher, SlotOf(m, x), x, lo, later) {
      if !SlotOf(m, x).Absent? {
        assert From(publisher, SlotOf(m, x), x, lo, hi);
      }
    }
  }

  lemma FinishKeepsGround(completed: int, m: Maps, target: int, now: Time, publisher: Publisher, lo: int, hi: int)
    requires Grounded(m, publisher, lo, hi)
    ensures Grounded(Finish(completed, m, target, now).cursor.maps, publisher, lo, hi)
  {
    hide FinalRecords, Relists, DayOf;
    var kept := Finish(completed, m, target, now).cursor.maps;
    forall x ensures SlotOf(kept, x).Absent? || From(publisher, SlotOf(kept, x), x, lo, hi) {
      if !SlotOf(kept, x).Absent? {
        assert !SlotOf(m, x).Absent? && From(publisher, SlotOf(m, x), x, lo, hi);
        var d, i :| lo <= d <= hi && Holds(SlotOf(m, x), x, DayOf(publisher, d), i);
        assert Holds(SlotOf(kept, x), x, DayOf(publisher, d), i);
      }
    }
  }

  lemma RunIsFinish(limits: Limits, watermark: Option<Cursor>, publisher: Publisher, target: int, now: Time, out: Outcome)
    requires limits.Valid() && Run(limits, watermark, publisher, target, now) == Ok(out)
    ensures var start := FirstDay(limits, watermark, target);
            var count := DayCount(start, target, limits.maxDays);
            var reached := if count == 0 then InitialDay(limits, watermark, target) else start + count - 1;
            && reached >= InitialDay(limits, watermark, target) && AllLegible(publisher, start, start + count - 1)
            && out == Finish(reached, Applied(InitialMaps(watermark), Feed(publisher, start, count)), target, now)
  {
    hide Days, FinalRecords, Survivors, Applied, Feed, AllLegible;
    var start := FirstDay(limits, watermark, target);
    var count := DayCount(start, target, limits.maxDays);
    DaysAreLegible(InitialMaps(watermark), publisher, start, count);
    if AllLegible(publisher, start, start + count - 1) {
      DaysApplyTheFeed(InitialMaps(watermark), publisher, start, count);
    }
  }

  /** The empty cursor is grounded, and a successful run over unsplit days keeps the cursor grounded:
      the premise of the theorem below holds along every chain of runs over the same data. */
  lemma RunsStayGrounded(limits: Limits, watermark: Option<Cursor>, publisher: Publisher, lo: int, target: int, now: Time,
                         out: Outcome)
    requires limits.Valid() && UnsplitDays(publisher, lo, target) && lo <= FirstDay(limits, watermark, target)
    requires watermark.Some? ==> Grounded(watermark.value.maps, publisher, lo, watermark.value.completed)
    requires Run(limits, watermark, publisher, target, now) == Ok(out)
    ensures Grounded(out.cursor.maps, publisher, lo, out.cursor.completed)
  {
    var m0, start, completed := InitialMaps(watermark), FirstDay(limits, watermark, target), InitialDay(limits, watermark, target);
    var count := DayCount(start, target, limits.maxDays);
    var reached := if count == 0 then completed else start + count - 1;
    RunIsFinish(limits, watermark, publisher, target, now, out);
    RunsAdvance(limits, watermark, publisher, target, now);
    FinishReaches(reached, Applied(m0, Feed(publisher, start, count)), target, now);
    NothingIsGrounded(publisher, lo, completed);
    hide Run, Finish, Applied, Feed, Grounded, AllLegible;
    assert UnsplitDays(publisher, lo, reached);
    GroundedLater(m0, publisher, lo, completed, reached);
    DaysKeepGround(m0, publisher, start, count, lo, reached);
    FinishKeepsGround(reached, Applied(m0, Feed(publisher, start, count)), target, now, publisher, lo, reached);
  }

  lemma NothingIsGrounded(publisher: Publisher, lo: int, hi: int)
    ensures Grounded(Maps(map[], map[]), publisher, lo, hi)
  {
  }

  // ---- data that a repetition reads in silence --------------------------------------------------------

  /** What is published on day b is stamped later than what is published on day a. */
  ghost predicate Later(publisher: Publisher, a: int, b: int) {
    forall e, f | PublishedOn(publisher, e, a) && PublishedOn(publisher, f, b) :: Less(e.key, f.key)
  }

  /** No version splits its verdict on a lot, and later days carry later stamps. */
  ghost predicate Consistent(publisher: Publisher, lo: int, hi: int) {
    UnsplitDays(publisher, lo, hi) && forall a, b | lo <= a < b <= hi :: Later(publisher, a, b)
  }

  lemma ConsistentWithin(publisher: Publisher, lo: int, hi: int, from: int, to: int)
    requires Consistent(publisher, lo, hi) && lo <= from && to <= hi
    ensures UnsplitDays(publisher, from, to) && InDayOrder(publisher, from, to)
  {
    hide PublishedOn;
    forall a, b | from <= a < b <= to ensures NotBefore(publisher, a, b) {
      assert Later(publisher, a, b);
    }
  }

  lemma LaterDays(publisher: Publisher, lo: int, hi: int, e: Event, a: int, f: Event, b: int)
    requires Consistent(publisher, lo, hi) && lo <= a <= hi && lo <= b <= hi
    requires PublishedOn(publisher, e, a) && PublishedOn(publisher, f, b)
    ensures a < b ==> Less(e.key, f.key)
  {
    if a < b {
      assert Later(publisher, a, b);
    }
  }

  lemma EntryIsPublished(publisher: Publisher, d: int, i: int)
    requires 0 <= i < |DayOf(publisher, d)|
    ensures PublishedOn(publisher, DayOf(publisher, d)[i], d)
  {
    DayIsSorted(publisher(d).value);
    hide DayList;
    assert DayOf(publisher, d)[i] in DayOf(publisher, d);
  }

  /** Two slots that reflect a day's first entries, one of them from the overlap, hold the same entry
      as soon as neither is behind the other. */
  lemma HeldAlike(publisher: Publisher, lo: int, again: int, target: int, one: Slot, two: Slot, x: Text)
    requires Consistent(publisher, lo, target) && lo <= again
    requires From(publisher, one, x, lo, target) && From(publisher, two, x, again, target)
    requires AtMost(two.state.event.key, one.state.event.key)
    requires forall e, d | again <= d <= target && PublishedOn(publisher, e, d) && e.lot == x :: AtMost(e.key, two.state.event.key)
    ensures one.state.event == two.state.event && (one.Tracked? <==> two.Tracked?)
  {
    hide Relists, DayOf, PublishedOn, Consistent;
    var d, i :| lo <= d <= target && Holds(one, x, DayOf(publisher, d), i);
    var b, j :| again <= b <= target && Holds(two, x, DayOf(publisher, b), j);
    var e, f := DayOf(publisher, d)[i], DayOf(publisher, b)[j];
    EntryIsPublished(publisher, d, i);
    EntryIsPublished(publisher, b, j);
    LaterDays(publisher, lo, target, e, d, f, b);
    LaterDays(publisher, lo, target, f, b, e, d);
    KeysDiffer(f.key, e.key);
    if d == b {
      FirstEntryIsLeast(DayOf(publisher, d), i, j);
      FirstEntryIsLeast(DayOf(publisher, d), j, i);
    }
  }

  lemma ReadAgainIsGrounded(publisher: Publisher, lo: int, again: int, target: int, x: Text)
    requires Consistent(publisher, lo, target) && lo <= again <= target + 1 && AllLegible(publisher, again, target)
    ensures var mine := OfLot(Feed(publisher, again, target + 1 - again), x);
            var slot := SlotAfter(Absent, mine);
            && SortedByKey(mine)
            && (slot.Absent? || From(publisher, slot, x, again, target))
  {
    hide *;
    var nothing: Maps := Maps(map[], map[]);
    var recent := Feed(publisher, again, target + 1 - again);
    ConsistentWithin(publisher, lo, target, again, target);
    FeedIsSorted(publisher, again, target + 1 - again);
    OfLotHolds(recent, x);
    NothingIsGrounded(publisher, again, target);
    DaysKeepGround(nothing, publisher, again, target + 1 - again, again, target);
    GroundedMeans(nothing, publisher, again, target, x);
    GroundedMeans(Applied(nothing, recent), publisher, again, target, x);
    EachLotAlone(nothing, recent, x);
    NothingIsHeld(x);
  }

  lemma NothingIsHeld(x: Text)
    ensures SlotOf(Maps(map[], map[]), x) == Absent
  {
  }

  lemma GroundedMeans(m: Maps, publisher: Publisher, lo: int, hi: int, x: Text)
    requires Grounded(m, publisher, lo, hi)
    ensures Disjoint(m) && (SlotOf(m, x).Absent? || From(publisher, SlotOf(m, x), x, lo, hi))
  {
  }

  /** An entry that makes a lot rise is open and of the lot's last version. */
  lemma RisingEntry(mine: seq<Event>, now: Time) returns (e: Event)
    requires SortedByKey(mine) && RisesFromNothing(mine, now)
    ensures e in mine && Open(e) && forall f | f in mine :: AtMost(f.key, e.key)
  {
    var i :| Decides(mine, i) && Open(mine[i]) && Lasting(mine[i].deadline, now);
    e := mine[i];
  }

  /** A lot that is held after a run which read the overlap survives if it rises from the overlap. */
  lemma HeldLotDoesNotRise(m0: Maps, publisher: Publisher, lo: int, again: int, start: int, target: int, now: Time, x: Text)
    requires Consistent(publisher, lo, target) && lo <= again <= target + 1 && lo <= start <= target + 1
    requires AllLegible(publisher, Min(start, again), target)
    requires Grounded(m0, publisher, lo, target) && (again < start ==> m0 == Maps(map[], map[]))
    requires RisesFromNothing(OfLot(Feed(publisher, again, target + 1 - again), x), now)
    ensures var m := Applied(m0, Feed(publisher, start, target + 1 - start));
            SlotOf(m, x).Absent? || x in Survivors(m.tracked, now)
  {
    hide *;
    var unread, read := Unread(publisher, again, start), Feed(publisher, start, target + 1 - start);
    var recent := Feed(publisher, again, target + 1 - again);
    var m, mine := Applied(m0, read), OfLot(recent, x);
    MinIs(start, again);
    LegibleWithin(publisher, Min(start, again), start, target);
    LegibleWithin(publisher, Min(start, again), again, target);
    ConsistentWithin(publisher, lo, target, Min(start, again), target);
    ConsistentWithin(publisher, lo, target, lo, target);
    GroundedMeans(m0, publisher, lo, target, x);
    EachLotAlone(m0, read, x);
    if !SlotOf(m, x).Absent? {
      DaysKeepGround(m0, publisher, start, target + 1 - start, lo, target);
      GroundedMeans(m, publisher, lo, target, x);
      ReadAgainIsGrounded(publisher, lo, again, target, x);
      RisingIsRead(mine, now);
      OverlapIsCovered(publisher, again, start, target);
      OfLotJoins(unread, read, x);
      OfLotHolds(unread + read, x);
      OfLotHolds(recent, x);
      StartsFromNothing(m0, publisher, again, start, x);
      forall e | e in mine ensures Absorbed(SlotOf(m, x), e) && AtMost(e.key, SlotAfter(Absent, mine).state.event.key) {
        EntryIsAbsorbed(SlotOf(m0, x), OfLot(unread, x), OfLot(read, x), e);
        ReadEntryIsBehind(mine, e);
      }
      HeldEntryIsRead(Absent, mine);
      RisingLotSurvives(m, publisher, lo, again, target, now, x);
    }
  }

  lemma ReadEntryIsBehind(mine: seq<Event>, e: Event)
    requires SortedByKey(mine) && e in mine && !SlotAfter(Absent, mine).Absent?
    ensures AtMost(e.key, SlotAfter(Absent, mine).state.event.key)
  {
    SortedFeedIsAbsorbed(Absent, mine);
    hide SlotAfter, SortedByKey;
    var i :| 0 <= i < |mine| && mine[i] == e;
    assert Absorbed(SlotAfter(Absent, mine), mine[i]);
  }

  lemma RisingLotSurvives(m: Maps, publisher: Publisher, lo: int, again: int, target: int, now: Time, x: Text)
    requires Consistent(publisher, lo, target) && lo <= again <= target + 1
    requires var mine := OfLot(Feed(publisher, again, target + 1 - again), x);
             var one, two := SlotOf(m, x), SlotAfter(Absent, mine);
             && From(publisher, one, x, lo, target) && From(publisher, two, x, again, target)
             && two.Tracked? && Survives(two.state, now) && !one.Absent?
             && (forall e | e in mine :: Absorbed(one, e) && AtMost(e.key, two.state.event.key))
             && (two.state.event in mine)
    ensures x in Survivors(m.tracked, now)
  {
    hide *;
    var recent := Feed(publisher, again, target + 1 - again);
    var one, two := SlotOf(m, x), SlotAfter(Absent, OfLot(recent, x));
    OfLotHolds(recent, x);
    forall e, d | again <= d <= target && PublishedOn(publisher, e, d) && e.lot == x ensures AtMost(e.key, two.state.event.key) {
      FeedHolds(publisher, again, target + 1 - again, e);
    }
    AbsorbedByHeld(one, two.state.event);
    HeldAlike(publisher, lo, again, target, one, two, x);
    HeldAlikeSurvives(m, two, now, x);
  }

  lemma AbsorbedByHeld(slot: Slot, e: Event)
    requires !slot.Absent? && Absorbed(slot, e)
    ensures AtMost(e.key, slot.state.event.key)
  {
  }

  lemma HeldAlikeSurvives(m: Maps, two: Slot, now: Time, x: Text)
    requires two.Tracked? && Survives(two.state, now)
    requires SlotOf(m, x).Tracked? && SlotOf(m, x).state.event == two.state.event
    ensures x in Survivors(m.tracked, now)
  {
  }

  /** A dropped lot rises from the overlap exactly when the days read have nothing of it, and it
      rises from the unread ones. */
  lemma RisesFromUnreadDays(m0: Maps, publisher: Publisher, lo: int, again: int, start: int, target: int, now: Time, x: Text)
    requires Consistent(publisher, lo, target) && lo <= again <= target + 1 && lo <= start <= target + 1
    requires AllLegible(publisher, Min(start, again), target)
    requires Grounded(m0, publisher, lo, target) && (again < start ==> m0 == Maps(map[], map[]))
    ensures var unread, read := Unread(publisher, again, start), Feed(publisher, start, target + 1 - start);
            var m, recent := Applied(m0, read), Feed(publisher, again, target + 1 - again);
            (x !in Survivors(m.tracked, now) && RisesFromNothing(OfLot(recent, x), now))
            <==> (OfLot(read, x) == [] && RisesFromNothing(OfLot(unread, x), now))
  {
    hide *;
    var unread, read := Unread(publisher, again, start), Feed(publisher, start, target + 1 - start);
    var recent := Feed(publisher, again, target + 1 - again);
    var m := Applied(m0, read);
    MinIs(start, again);
    GroundedMeans(m0, publisher, lo, target, x);
    ConsistentWithin(publisher, lo, target, Min(start, again), target);
    OverlapIsCovered(publisher, again, start, target);
    OfLotJoins(unread, read, x);
    OfLotHolds(recent, x);
    if x !in Survivors(m.tracked, now) && RisesFromNothing(OfLot(recent, x), now) {
      HeldLotDoesNotRise(m0, publisher, lo, again, start, target, now, x);
      RisenLotIsUnread(m0, publisher, lo, again, start, target, now, x);
      assert OfLot(unread, x) + [] == OfLot(unread, x);
    } else if OfLot(read, x) == [] && RisesFromNothing(OfLot(unread, x), now) {
      UnreadLotIsDropped(m0, publisher, again, start, target, now, x);
      assert OfLot(unread, x) + [] == OfLot(unread, x);
    }
  }

  lemma UnreadLotIsDropped(m0: Maps, publisher: Publisher, again: int, start: int, target: int, now: Time, x: Text)
    requires start <= target + 1 && (again < start ==> m0 == Maps(map[], map[]))
    requires OfLot(Feed(publisher, start, target + 1 - start), x) == []
    requires RisesFromNothing(OfLot(Unread(publisher, again, start), x), now)
    ensures again < start && x !in Survivors(Applied(m0, Feed(publisher, start, target + 1 - start)).tracked, now)
  {
    hide Feed, Applied, Survives, Kept;
    EachLotAlone(m0, Feed(publisher, start, target + 1 - start), x);
  }

  lemma RisenLotIsUnread(m0: Maps, publisher: Publisher, lo: int, again: int, start: int, target: int, now: Time, x: Text)
    requires Consistent(publisher, lo, target) && lo <= again <= target + 1 && lo <= start <= target + 1
    requires Disjoint(m0)
    requires SlotOf(Applied(m0, Feed(publisher, start, target + 1 - start)), x).Absent?
    requires SortedByKey(OfLot(Feed(publisher, again, target + 1 - again), x))
    requires RisesFromNothing(OfLot(Feed(publisher, again, target + 1 - again), x), now)
    ensures again < start && OfLot(Feed(publisher, start, target + 1 - start), x) == []
  {
    hide *;
    var read, recent := Feed(publisher, start, target + 1 - start), Feed(publisher, again, target + 1 - again);
    var e := RisingEntry(OfLot(recent, x), now);
    OfLotHolds(recent, x);
    OfLotHolds(read, x);
    EachLotAlone(m0, read, x);
    FeedHolds(publisher, again, target + 1 - again, e);
    var d :| again <= d <= target && PublishedOn(publisher, e, d);
    if e in OfLot(read, x) {
      OpenEntryIsHeld(SlotOf(m0, x), OfLot(read, x), e);
    }
    FeedHolds(publisher, start, target + 1 - start, e);
    if OfLot(read, x) != [] {
      var f := OfLot(read, x)[0];
      assert f in OfLot(read, x);
      FeedHolds(publisher, start, target + 1 - start, f);
      var b :| start <= b <= target && PublishedOn(publisher, f, b);
      FeedHolds(publisher, again, target + 1 - again, f);
      LaterDays(publisher, lo, target, e, d, f, b);
      assert f in OfLot(recent, x);
      LessIsNotAtMost(e.key, f.key);
    }
  }

  lemma LessIsNotAtMost(a: EventKey, b: EventKey)
    ensures Less(a, b) <==> !AtMost(b, a)
  {
  }

  lemma {:induction false} OpenEntryIsHeld(slot: Slot, mine: seq<Event>, e: Event)
    requires e in mine && Open(e)
    ensures !SlotAfter(slot, mine).Absent?
  {
    var n := |mine| - 1;
    if e in mine[..n] {
      OpenEntryIsHeld(slot, mine[..n], e);
    } else {
      assert mine == mine[..n] + [mine[n]];
    }
  }

  /** No lot without entries on the days the run read rises from the overlap days it did not read. */
  ghost predicate NothingRisesUnread(unread: seq<Event>, read: seq<Event>, now: Time) {
    forall x | OfLot(read, x) == [] :: !RisesFromNothing(OfLot(unread, x), now)
  }

  lemma OnlyUnreadDaysRise(m0: Maps, publisher: Publisher, lo: int, again: int, start: int, target: int, now: Time)
    requires Consistent(publisher, lo, target) && lo <= again <= target + 1 && lo <= start <= target + 1
    requires AllLegible(publisher, Min(start, again), target)
    requires Grounded(m0, publisher, lo, target) && (again < start ==> m0 == Maps(map[], map[]))
    ensures var unread, read := Unread(publisher, again, start), Feed(publisher, start, target + 1 - start);
            var m, recent := Applied(m0, read), Feed(publisher, again, target + 1 - again);
            NothingRises(recent, Survivors(m.tracked, now), now) <==> NothingRisesUnread(unread, read, now)
  {
    hide Feed, OfLot, RisesFromNothing, Survivors, Applied, Consistent, Grounded, AllLegible, Unread;
    var unread, read := Unread(publisher, again, start), Feed(publisher, start, target + 1 - start);
    var m, recent := Applied(m0, read), Feed(publisher, again, target + 1 - again);
    forall x
      ensures (x !in Survivors(m.tracked, now) && RisesFromNothing(OfLot(recent, x), now))
        <==> (OfLot(read, x) == [] && RisesFromNothing(OfLot(unread, x), now))
    {
      RisesFromUnreadDays(m0, publisher, lo, again, start, target, now, x);
    }
  }

  lemma ReadOverlapRisesNothing(publisher: Publisher, again: int, start: int, read: seq<Event>, now: Time)
    requires start <= again
    ensures NothingRisesUnread(Unread(publisher, again, start), read, now)
  {
    forall x ensures !RisesFromNothing(OfLot(Unread(publisher, again, start), x), now) {
      assert OfLot(Unread(publisher, again, start), x) == [];
    }
  }

  /** Over consistent data, and from a cursor built from them, a run that has read the overlap is
      always repeated without a trace; one that looked back less is repeated if and only if no lot
      rises from the overlap days it did not read. */
  lemma ConsistentDataIsRepeated(limits: Limits, watermark: Option<Cursor>, publisher: Publisher, lo: int, target: int, now: Time)
    requires limits.Valid() && Consistent(publisher, lo, target)
    requires lo <= FirstDay(limits, watermark, target) && lo <= OverlapStart(limits, target)
    requires Grounded(InitialMaps(watermark), publisher, lo, target)
    requires var r := Run(limits, watermark, publisher, target, now); r.Ok? && r.value.cursor.completed >= target
    ensures
      var first := Run(limits, watermark, publisher, target, now).value;
      var second := Run(limits, Some(first.cursor), publisher, target, now);
      var again, start := OverlapStart(limits, target), FirstDay(limits, watermark, target);
      && (watermark.Some? || limits.lookback >= limits.overlap ==> second.Ok? && Repeats(first, second.value))
      && start <= target + 1
      && (second.Ok? ==>
            (Repeats(first, second.value)
             <==> NothingRisesUnread(Unread(publisher, again, start), Feed(publisher, start, target + 1 - start), now)))
  {
    var m0, start, again := InitialMaps(watermark), FirstDay(limits, watermark, target), OverlapStart(limits, target);
    hide Run, Repeats, NothingRises, NothingRisesUnread, Finish, Applied, Feed, Remembered, Consistent, Grounded, AllLegible,
         InDayOrder, Unread, Tidy;
    ConsistentWithin(publisher, lo, target, Min(start, again), target);
    GroundedIsTidy(m0, publisher, lo, target);
    CaughtUpRun(limits, watermark, publisher, target, now);
    ForgettingIsSafe(limits, watermark, publisher, target, now);
    var m := Applied(m0, Feed(publisher, start, target + 1 - start));
    RememberedTracks(m, now);
    if AllLegible(publisher, again, target) {
      LegibleFromEarlier(publisher, start, again, target);
      OnlyUnreadDaysRise(m0, publisher, lo, again, start, target, now);
    }
    if start <= again {
      ReadOverlapRisesNothing(publisher, again, start, Feed(publisher, start, target + 1 - start), now);
    }
  }

  lemma GroundedIsTidy(m: Maps, publisher: Publisher, lo: int, hi: int)
    requires Grounded(m, publisher, lo, hi)
    ensures Tidy(m)
  {
  }

  lemma LegibleFromEarlier(publisher: Publisher, start: int, again: int, target: int)
    requires AllLegible(publisher, start, target) && AllLegible(publisher, again, target)
    ensures AllLegible(publisher, Min(start, again), target)
  {
  }

  // ---- inputs where a repetition differs ------------------------------------------------------------

  const OPENED := Event(5, EventKey(1, 1, 1), true, true, false, 0, Some(100))

  function OpenedOnDay9(): Publisher {
    (day: int) => Some(if day == 9 then [OPENED] else [])
  }

  /** A first run that looks back one day with an overlap of two days: the repetition reads day 9,
      which the first run never saw, and tracks a lot the first run did not know. */
  lemma ShortLookbackRises()
    ensures
      var limits := Limits(1, 3, 2);
      var first := Run(limits, None, OpenedOnDay9(), 10, 0);
      && limits.Valid() && first.Ok? && first.value.cursor.completed == 10
      && var second := Run(limits, Some(first.value.cursor), OpenedOnDay9(), 10, 0);
      && second.Ok?
      && 5 !in first.value.cursor.maps.tracked && 5 in second.value.cursor.maps.tracked
  {
    var limits, publisher := Limits(1, 3, 2), OpenedOnDay9();
    var nothing: Maps := Maps(map[], map[]);
    hide FinalRecords;
    assert DayList([]) == [] && Applied(nothing, []) == nothing;
    assert Days(nothing, publisher, 10, 1) == Ok(nothing);
    assert Run(limits, None, publisher, 10, 0) == Ok(Finish(10, nothing, 10, 0));
    assert Finish(10, nothing, 10, 0).cursor == Cursor(10, nothing);
    assert [OPENED][1..] == [] && DayList([OPENED]) == [OPENED];
    var state := LotState(OPENED, 1, None, false);
    assert [OPENED][..0] == [] && Applied(nothing, [OPENED]) == Maps(map[5 := state], map[]);
    assert Days(nothing, publisher, 9, 1) == Ok(Maps(map[5 := state], map[]));
    assert Applied(Maps(map[5 := state], map[]), []) == Maps(map[5 := state], map[]);
    assert Days(nothing, publisher, 9, 2) == Ok(Maps(map[5 := state], map[]));
  }

  const CLOSED_FIRST := Event(5, EventKey(2, 2, 2), false, true, false, 0, Some(100))

  const OPENED_AGAIN := Event(5, EventKey(2, 2, 2), true, true, false, 1, Some(100))

  /** Entries of one notice differ only in what each lot carries: whether the notice is active and
      whether it is obscured is said once for all its lots. */
  ghost predicate OfOneNotice(list: seq<Event>) {
    forall i, j | 0 <= i < |list| && 0 <= j < |list| && list[i].key == list[j].key ::
      list[i].active == list[j].active && list[i].obscured == list[j].obscured
  }

  /** On day 1 one notice lists lot 5 twice, first as supplies and then as works. */
  function SplitOnDay1(): Publisher {
    (day: int) => Some(if day == 1 then [CLOSED_FIRST, OPENED_AGAIN] else [])
  }

  /** The first run knows the lot, so the closing entry wins and the lot is forgotten; the
      repetition no longer knows it, passes over the closing entry, and takes the opening one. */
  lemma SplitVersionReturns()
    ensures
      var limits := Limits(1, 2, 1);
      var watermark := Some(Cursor(0, Maps(map[5 := LotState(OPENED, 1, None, true)], map[])));
      var first := Run(limits, watermark, SplitOnDay1(), 1, 0);
      && limits.Valid() && OfOneNotice(DayOf(SplitOnDay1(), 1)) && !Unsplit(DayOf(SplitOnDay1(), 1))
      && first.Ok? && first.value.cursor.completed == 1
      && var second := Run(limits, Some(first.value.cursor), SplitOnDay1(), 1, 0);
      && second.Ok?
      && 5 !in first.value.cursor.maps.tracked && 5 in second.value.cursor.maps.tracked
  {
    var limits, publisher := Limits(1, 2, 1), SplitOnDay1();
    var list := [CLOSED_FIRST, OPENED_AGAIN];
    var known, nothing: Maps := Maps(map[5 := LotState(OPENED, 1, None, true)], map[]), Maps(map[], map[]);
    assert list[0].lot == list[1].lot && list[0].key == list[1].key && Open(list[1]) && !Open(list[0]);
    SplitDayIsListed();
    SplitEffects(known, nothing);
    SplitDays(known, nothing);
    hide FinalRecords, Days, Applied, DayList;
    assert Finish(1, Applied(known, list), 1, 0).cursor.maps == nothing;
  }

  lemma SplitDays(known: Maps, nothing: Maps)
    requires known == Maps(map[5 := LotState(OPENED, 1, None, true)], map[]) && nothing == Maps(map[], map[])
    ensures Days(known, SplitOnDay1(), 0, 2) == Ok(Applied(known, [CLOSED_FIRST, OPENED_AGAIN]))
    ensures Days(nothing, SplitOnDay1(), 1, 1) == Ok(Applied(nothing, [CLOSED_FIRST, OPENED_AGAIN]))
  {
    SplitDayIsListed();
    assert DayList([]) == [];
    assert Applied(known, []) == known;
    hide Applied, DayList;
    assert Days(known, SplitOnDay1(), 0, 1) == Ok(known);
  }

  lemma SplitDayIsListed()
    ensures DayList([CLOSED_FIRST, OPENED_AGAIN]) == [CLOSED_FIRST, OPENED_AGAIN]
  {
    var list := [CLOSED_FIRST, OPENED_AGAIN];
    assert list[1..] == [OPENED_AGAIN] && [OPENED_AGAIN][1..] == [];
    assert Sort([OPENED_AGAIN], InOrder()) == [OPENED_AGAIN];
    assert InOrder()(CLOSED_FIRST, OPENED_AGAIN);
    assert Insert(CLOSED_FIRST, [OPENED_AGAIN], InOrder()) == list;
  }

  lemma SplitEffects(known: Maps, nothing: Maps)
    requires known == Maps(map[5 := LotState(OPENED, 1, None, true)], map[]) && nothing == Maps(map[], map[])
    ensures 5 !in Applied(known, [CLOSED_FIRST, OPENED_AGAIN]).tracked
    ensures Applied(known, [CLOSED_FIRST, OPENED_AGAIN]).tracked == map[]
    ensures Applied(nothing, [CLOSED_FIRST, OPENED_AGAIN]) == Maps(map[5 := LotState(OPENED_AGAIN, 2, None, false)], map[])
  {
    var list := [CLOSED_FIRST, OPENED_AGAIN];
    assert list[..1] == [CLOSED_FIRST] && [CLOSED_FIRST][..0] == [];
    assert Applied(known, []) == known && Applied(nothing, []) == nothing;
    assert Applied(nothing, [CLOSED_FIRST]) == nothing;
    var after := Applied(known, [CLOSED_FIRST]);
    assert after == StepEvent(known, CLOSED_FIRST);
    assert after.tracked == map[] && 5 in after.closed && after.closed[5].event == CLOSED_FIRST;
    assert Applied(known, list) == StepEvent(after, OPENED_AGAIN) == after;
  }
}
