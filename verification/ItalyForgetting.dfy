/** Italy: what forgetting closed and elapsed lots costs.  Repeating a caught-up run over the same
    publisher data re-reads the overlap days with those lots forgotten; it announces the same
    actionable lots and no tombstone, unless a forgotten lot rises from those days again. */
module ItalyForgetting {
  import opened Common
  import opened Lifecycle
  import opened Sorting
  import opened ItalyLots
  import opened ItalyRuns
  import opened ItalyCatchup
  import opened ItalyView

  // ---- one lot read from nothing ---------------------------------------------------------------

  /** A version other than the one with this key opens the lot. */
  ghost predicate OpenedElsewhere(mine: seq<Event>, key: EventKey) {
    exists j :: 0 <= j < |mine| && Open(mine[j]) && mine[j].key != key
  }

  /** Entry i decides what becomes of a lot that is read from nothing: it belongs to the lot's last
      version, and is the first entry of that version if the lot was opened before, or else the
      first entry that opens the lot. */
  ghost predicate Decides(mine: seq<Event>, i: int) {
    && 0 <= i < |mine| && mine[i].key == mine[|mine| - 1].key
    && (if OpenedElsewhere(mine, mine[i].key) then forall j | 0 <= j < i :: mine[j].key != mine[i].key
        else Open(mine[i]) && forall j | 0 <= j < i :: !Open(mine[j]))
  }

  /** The entry that decides is open and its deadline is not over. */
  ghost predicate RisesFromNothing(mine: seq<Event>, now: Time) {
    exists i :: Decides(mine, i) && Open(mine[i]) && Lasting(mine[i].deadline, now)
  }

  /** A lot read from nothing stays unknown while nothing opens it, and otherwise ends where the
      deciding entry puts it, unannounced. */
  lemma {:induction false} ReadFromNothing(mine: seq<Event>)
    requires SortedByKey(mine)
    ensures var slot := SlotAfter(Absent, mine);
            && (slot.Absent? <==> forall i | 0 <= i < |mine| :: !Open(mine[i]))
            && (!slot.Absent? ==> !slot.state.wasVisible && exists i :: Decides(mine, i) && Reflects(slot, mine[i]))
  {
    if mine != [] {
      var n := |mine| - 1;
      ReadFromNothing(mine[..n]);
      var before := SlotAfter(Absent, mine[..n]);
      if !before.Absent? {
        var d :| Decides(mine[..n], d) && Reflects(before, mine[..n][d]);
        LaterEntryDecides(mine, d);
        assert Reflects(SlotAfter(Absent, mine), mine[if mine[n].key == mine[d].key then d else n]);
      } else if Open(mine[n]) {
        assert Decides(mine, n);
      }
    }
  }

  lemma LaterEntryDecides(mine: seq<Event>, d: nat)
    requires mine != [] && SortedByKey(mine) && Decides(mine[..|mine| - 1], d)
    requires exists i :: 0 <= i < |mine| - 1 && Open(mine[i])
    ensures var n := |mine| - 1; Decides(mine, if mine[n].key == mine[d].key then d else n)
  {
    var n := |mine| - 1;
    var o :| 0 <= o < n && Open(mine[o]);
    assert mine[..n][o] == mine[o];
    assert AtMost(mine[n - 1].key, mine[n].key);
    if mine[n].key == mine[d].key {
      assert OpenedElsewhere(mine, mine[d].key) <==> OpenedElsewhere(mine[..n], mine[d].key);
    } else {
      forall j | 0 <= j < n ensures mine[j].key != mine[n].key {
        assert j == n - 1 || AtMost(mine[j].key, mine[n - 1].key);
      }
      assert OpenedElsewhere(mine, mine[n].key);
    }
  }

  lemma OneEntryDecides(mine: seq<Event>, i: int, j: int)
    requires Decides(mine, i) && Decides(mine, j)
    ensures i == j
  {
  }

  lemma RisingIsRead(mine: seq<Event>, now: Time)
    requires SortedByKey(mine)
    ensures var slot := SlotAfter(Absent, mine);
            && (RisesFromNothing(mine, now) <==> slot.Tracked? && Survives(slot.state, now))
            && (!slot.Absent? ==> !slot.state.wasVisible)
  {
    ReadFromNothing(mine);
    var slot := SlotAfter(Absent, mine);
    hide Decides, SlotAfter;
    if !slot.Absent? {
      var d :| Decides(mine, d) && Reflects(slot, mine[d]);
      forall i | Decides(mine, i) ensures i == d {
        OneEntryDecides(mine, i, d);
      }
    } else {
      forall i | Decides(mine, i) ensures !Open(mine[i]) {
        DecidingIsInside(mine, i);
      }
    }
  }

  lemma DecidingIsInside(mine: seq<Event>, i: int)
    requires Decides(mine, i)
    ensures 0 <= i < |mine|
  {
  }

  // ---- one lot through the repeated run -------------------------------------------------------------

  /** What a caught-up run stores: the surviving lots. */
  function Remembered(m: Maps, now: Time): Maps {
    Maps(Survivors(m.tracked, now), map[])
  }

  function Survivor(slot: Slot, now: Time): Slot {
    if slot.Tracked? && Survives(slot.state, now) then Tracked(Kept(slot.state, now)) else Absent
  }

  lemma RememberedSlot(m: Maps, now: Time, x: Text)
    ensures Disjoint(Remembered(m, now))
    ensures SlotOf(Remembered(m, now), x) == Survivor(SlotOf(m, x), now)
  {
  }


  /** One lot through a run that reads `read`, and a repetition that reads `recent`, perhaps with
      entries the run did not read when it started from nothing.  A lot that was kept is left alone;
      a lot that was dropped comes back, unannounced, if and only if it rises from nothing. */
  lemma OverlapOnOneLot(slot: Slot, unread: seq<Event>, read: seq<Event>, recent: seq<Event>, now: Time)
    requires SortedByKey(unread + read) && SortedByKey(recent)
    requires forall e | e in recent :: e in unread + read
    requires slot.Absent? || unread == []
    ensures var kept := Survivor(SlotAfter(slot, read), now);
            var after := SlotAfter(kept, recent);
            && (kept.Tracked? ==> after == kept)
            && (kept.Absent? ==> (after.Tracked? && Survives(after.state, now) <==> RisesFromNothing(recent, now)))
            && (kept.Absent? && !after.Absent? ==> !after.state.wasVisible)
  {
    var reached := SlotAfter(slot, read);
    var kept := Survivor(reached, now);
    if kept.Tracked? {
      forall i | 0 <= i < |recent| ensures Absorbed(kept, recent[i]) {
        assert recent[i] in unread + read;
        EntryIsAbsorbed(slot, unread, read, recent[i]);
      }
      ReplayChangesNothing(kept, recent);
    } else {
      RisingIsRead(recent, now);
    }
  }

  lemma EntryIsAbsorbed(slot: Slot, unread: seq<Event>, read: seq<Event>, e: Event)
    requires SortedByKey(unread + read) && e in unread + read
    requires slot.Absent? || unread == []
    requires !SlotAfter(slot, read).Absent?
    ensures Absorbed(SlotAfter(slot, read), e)
  {
    SortedInHalves(unread, read);
    SortedFeedIsAbsorbed(slot, read);
    HeldEntryIsRead(slot, read);
    var reached := SlotAfter(slot, read);
    hide SlotAfter, SortedByKey;
    if e in read {
      var i :| 0 <= i < |read| && read[i] == e;
      assert Absorbed(reached, read[i]);
    }
  }

  lemma SortedInHalves(a: seq<Event>, b: seq<Event>)
    requires SortedByKey(a + b)
    ensures SortedByKey(a) && SortedByKey(b)
    ensures forall e, f | e in a && f in b :: AtMost(e.key, f.key)
  {
    var all := a + b;
    forall i, j | 0 <= i < j < |a| ensures AtMost(a[i].key, a[j].key) {
      assert a[i] == all[i] && a[j] == all[j];
    }
    forall i, j | 0 <= i < j < |b| ensures AtMost(b[i].key, b[j].key) {
      assert b[i] == all[|a| + i] && b[j] == all[|a| + j];
    }
    forall e, f | e in a && f in b ensures AtMost(e.key, f.key) {
      var i :| 0 <= i < |a| && a[i] == e;
      var j :| 0 <= j < |b| && b[j] == f;
      assert all[i] == e && all[|a| + j] == f;
    }
  }

  /** A slot holds what it held, or an entry that was read. */
  lemma {:induction false} HeldEntryIsRead(slot: Slot, mine: seq<Event>)
    ensures var after := SlotAfter(slot, mine);
            after == slot || (!after.Absent? && after.state.event in mine)
  {
    if mine != [] {
      HeldEntryIsRead(slot, mine[..|mine| - 1]);
    }
  }

  lemma {:induction false} NamelessLotHasNoEvents(events: seq<Event>)
    requires Named(events)
    ensures OfLot(events, 0) == []
  {
    if events != [] {
      NamelessLotHasNoEvents(events[..|events| - 1]);
    }
  }

  // ---- all lots through the repeated run -------------------------------------------------------------

  /** The maps of a cursor as runs store it: no lot in both, none without a name. */
  ghost predicate Tidy(m: Maps) {
    Disjoint(m) && 0 !in m.tracked && 0 !in m.closed
  }

  /** A survivor is untouched; whatever is rebuilt of a dropped lot is unannounced and does not survive. */
  ghost predicate OneLotSettled(m: Maps, again: Maps, now: Time, x: Text) {
    var before, after := SlotOf(Remembered(m, now), x), SlotOf(again, x);
    && (before.Tracked? ==> after == before)
    && (before.Absent? && !after.Absent? ==> !after.state.wasVisible)
    && (before.Absent? && after.Tracked? ==> !Survives(after.state, now))
  }

  lemma SettledMaps(m: Maps, again: Maps, now: Time)
    requires Tidy(m)
    requires Tidy(again)
    requires forall x :: OneLotSettled(m, again, now, x)
    ensures Survivors(again.tracked, now) == Survivors(m.tracked, now)
    ensures forall r :: r in FinalRecords(again, now) <==> r in FinalRecords(m, now) && Opens(r)
  {
    hide FinalRecords;
    forall x ensures x in Survivors(again.tracked, now) <==> x in Survivors(m.tracked, now)
      ensures x in Survivors(m.tracked, now) ==> Survivors(again.tracked, now)[x] == Survivors(m.tracked, now)[x]
    {
      assert OneLotSettled(m, again, now, x);
    }
    forall r ensures r in FinalRecords(again, now) <==> r in FinalRecords(m, now) && Opens(r) {
      if r.Record? {
        assert OneLotSettled(m, again, now, r.externalId);
        SettledRecord(m, again, now, r);
      } else {
        FinalRecordsMean(m, now, r);
        FinalRecordsMean(again, now, r);
      }
    }
  }

  lemma SettledRecord(m: Maps, again: Maps, now: Time, r: Record)
    requires Tidy(m)
    requires Tidy(again)
    requires r.Record? && OneLotSettled(m, again, now, r.externalId)
    ensures r in FinalRecords(again, now) <==> r in FinalRecords(m, now) && Opens(r)
  {
    FinalRecordsMean(m, now, r);
    FinalRecordsMean(again, now, r);
    SettledEmission(m, again, now, r.externalId);
    hide FinalRecords, TrackedRecord, ClosureRecord;
  }

  /** The second run announces a lot exactly when the first announced it as actionable. */
  lemma SettledEmission(m: Maps, again: Maps, now: Time, x: Text)
    requires Disjoint(m) && Disjoint(again) && OneLotSettled(m, again, now, x)
    ensures ClosureRecord(again.closed, x).None?
    ensures ClosureRecord(m.closed, x).Some? ==> !Opens(ClosureRecord(m.closed, x).value)
    ensures var first, second := TrackedRecord(m.tracked, now, x), TrackedRecord(again.tracked, now, x);
            second == if first.Some? && Opens(first.value) then first else None
  {
    var before, after := SlotOf(Remembered(m, now), x), SlotOf(again, x);
    if before.Tracked? {
      assert x in m.tracked && Survives(m.tracked[x], now) && before.state == Kept(m.tracked[x], now);
      assert x in again.tracked && again.tracked[x] == Kept(m.tracked[x], now);
      KeptSpeaksAlike(m.tracked, again.tracked, now, x);
    } else {
      assert x in m.tracked ==> !Survives(m.tracked[x], now);
      assert x in again.tracked ==> !Survives(again.tracked[x], now) && !again.tracked[x].wasVisible;
      DroppedIsSilent(m.tracked, now, x);
      DroppedIsSilent(again.tracked, now, x);
    }
    hide TrackedRecord, Survives, Kept;
  }

  lemma KeptSpeaksAlike(tracked: map<Text, LotState>, again: map<Text, LotState>, now: Time, x: Text)
    requires x in tracked && Survives(tracked[x], now) && x in again && again[x] == Kept(tracked[x], now)
    ensures var first, second := TrackedRecord(tracked, now, x), TrackedRecord(again, now, x);
            second == if first.Some? && Opens(first.value) then first else None
  {
  }

  lemma DroppedIsSilent(tracked: map<Text, LotState>, now: Time, x: Text)
    requires x in tracked ==> !Survives(tracked[x], now)
    ensures TrackedRecord(tracked, now, x).Some? ==> !Opens(TrackedRecord(tracked, now, x).value)
    ensures TrackedRecord(tracked, now, x).Some? ==> tracked[x].wasVisible
  {
  }

  /** What a repetition of a caught-up run must yield: the same cursor, no tombstone, and exactly the
      lots the run announced as actionable. */
  ghost predicate Repeats(first: Outcome, second: Outcome) {
    && second.cursor == first.cursor
    && (forall r :: r in second.records <==> r in first.records && Opens(r))
  }

  /** Lots that are all settled give a repetition; one that is not gives a different cursor. */
  lemma SettledIsRepeated(m: Maps, again: Maps, target: int, now: Time)
    requires Tidy(m)
    requires Tidy(again)
    requires forall x :: KeepsSurvivor(m, again, now, x)
    ensures Repeats(Finish(target, m, target, now), Finish(target, again, target, now))
       <==> forall x :: OneLotSettled(m, again, now, x)
  {
    hide FinalRecords;
    if forall x :: OneLotSettled(m, again, now, x) {
      SettledMaps(m, again, now);
    }
    if Survivors(again.tracked, now) == Survivors(m.tracked, now) {
      SameSurvivorsSettle(m, again, now);
    }
    hide OneLotSettled, SlotOf, Survivors;
  }

  lemma SameSurvivorsSettle(m: Maps, again: Maps, now: Time)
    requires Disjoint(m) && Disjoint(again) && Survivors(again.tracked, now) == Survivors(m.tracked, now)
    requires forall x :: KeepsSurvivor(m, again, now, x)
    ensures forall x :: OneLotSettled(m, again, now, x)
  {
    forall x ensures OneLotSettled(m, again, now, x) {
      assert KeepsSurvivor(m, again, now, x);
      assert x in Survivors(again.tracked, now) <==> x in Survivors(m.tracked, now);
    }
  }

  /** A survivor is left alone, and a lot that was dropped comes back unannounced if at all. */
  ghost predicate KeepsSurvivor(m: Maps, again: Maps, now: Time, x: Text) {
    var before, after := SlotOf(Remembered(m, now), x), SlotOf(again, x);
    && (before.Tracked? ==> after == before)
    && (before.Absent? && !after.Absent? ==> !after.state.wasVisible)
  }

  lemma CaughtUpRunReadsEverything(limits: Limits, watermark: Option<Cursor>, publisher: Publisher, target: int, now: Time,
                                   out: Outcome, count: nat)
    requires limits.Valid() && FirstDay(limits, watermark, target) + count == target + 1
    requires Run(limits, watermark, publisher, target, now) == Ok(out) && out.cursor.completed >= target
    ensures var days := Days(InitialMaps(watermark), publisher, FirstDay(limits, watermark, target), count);
            days.Ok? && out == Finish(target, days.value, target, now)
  {
    hide Days, FinalRecords, Survivors;
  }

  // ---- the theorem --------------------------------------------------------------------------------------

  lemma {:induction false} DaysAreLegible(m: Maps, publisher: Publisher, start: int, count: nat)
    ensures Days(m, publisher, start, count).Ok? <==> AllLegible(publisher, start, start + count - 1)
  {
    hide Applied, DayList;
    if count > 0 {
      DaysAreLegible(m, publisher, start, count - 1);
      assert AllLegible(publisher, start, start + count - 1)
        <==> AllLegible(publisher, start, start + count - 2) && Legible(publisher, start + count - 1);
    }
  }

  lemma {:induction false} FeedIsNamed(publisher: Publisher, start: int, count: nat)
    requires AllLegible(publisher, start, start + count - 1)
    ensures Named(Feed(publisher, start, count))
  {
    if count > 0 {
      FeedIsNamed(publisher, start, count - 1);
      assert Legible(publisher, start + count - 1);
      SortingKeepsNames(publisher(start + count - 1).value);
    }
  }

  lemma FeedKeepsTidy(m: Maps, publisher: Publisher, start: int, count: nat)
    requires Tidy(m) && AllLegible(publisher, start, start + count - 1)
    ensures Tidy(Applied(m, Feed(publisher, start, count)))
  {
    var events := Feed(publisher, start, count);
    EachLotAlone(m, events, 0);
    FeedIsNamed(publisher, start, count);
    NamelessLotHasNoEvents(events);
    hide Applied, Feed, AllLegible;
    assert SlotOf(Applied(m, events), 0) == SlotOf(m, 0) == Absent;
  }

  lemma RememberedIsTidy(m: Maps, now: Time)
    requires Tidy(m)
    ensures Tidy(Remembered(m, now))
  {
  }

  /** The first day of the overlap that a repetition of a caught-up run re-reads. */
  function OverlapStart(limits: Limits, target: int): int {
    target + 1 - limits.overlap
  }

  /** The events of the overlap days that the run itself did not read. */
  function Unread(publisher: Publisher, again: int, start: int): seq<Event> {
    if again >= start then [] else Feed(publisher, again, start - again)
  }

  /** The overlap is part of what the run read, with the unread days before it. */
  lemma OverlapIsCovered(publisher: Publisher, again: int, start: int, target: int)
    requires again <= target + 1 && start <= target + 1 && InDayOrder(publisher, Min(start, again), target)
    ensures var unread, read := Unread(publisher, again, start), Feed(publisher, start, target + 1 - start);
            var recent := Feed(publisher, again, target + 1 - again);
            && SortedByKey(unread + read) && SortedByKey(recent)
            && (forall e | e in recent :: e in unread + read)
            && (start > again ==> recent == unread + read)
  {
    hide Feed, SortedByKey, NotBefore;
    FeedIsSorted(publisher, again, target + 1 - again);
    FeedIsSorted(publisher, start, target + 1 - start);
    var read, recent := Feed(publisher, start, target + 1 - start), Feed(publisher, again, target + 1 - again);
    if start <= again {
      FeedSplits(publisher, start, again - start, target + 1 - again);
      assert [] + read == read;
    } else {
      FeedSplits(publisher, again, start - again, target + 1 - start);
    }
  }

  lemma OneLotRepeated(m0: Maps, publisher: Publisher, again: int, start: int, target: int, now: Time, x: Text)
    requires again <= target + 1 && start <= target + 1 && InDayOrder(publisher, Min(start, again), target)
    requires Disjoint(m0) && (again < start ==> m0 == Maps(map[], map[]))
    ensures var m, recent := Applied(m0, Feed(publisher, start, target + 1 - start)), Feed(publisher, again, target + 1 - again);
            var after := Applied(Remembered(m, now), recent);
            && KeepsSurvivor(m, after, now, x)
            && (OneLotSettled(m, after, now, x) <==> x in Survivors(m.tracked, now) || !RisesFromNothing(OfLot(recent, x), now))
  {
    hide *;
    var unread, read := Unread(publisher, again, start), Feed(publisher, start, target + 1 - start);
    var recent := Feed(publisher, again, target + 1 - again);
    var m := Applied(m0, read);
    OverlapIsCovered(publisher, again, start, target);
    OfLotJoins(unread, read, x);
    OfLotHolds(unread + read, x);
    OfLotHolds(recent, x);
    EachLotAlone(m0, read, x);
    RememberedSlot(m, now, x);
    EachLotAlone(Remembered(m, now), recent, x);
    StartsFromNothing(m0, publisher, again, start, x);
    OverlapOnOneLot(SlotOf(m0, x), OfLot(unread, x), OfLot(read, x), OfLot(recent, x), now);
    OneLotInMaps(m, Applied(Remembered(m, now), recent), now, x, RisesFromNothing(OfLot(recent, x), now));
  }

  lemma StartsFromNothing(m0: Maps, publisher: Publisher, again: int, start: int, x: Text)
    requires again < start ==> m0 == Maps(map[], map[])
    ensures SlotOf(m0, x).Absent? || OfLot(Unread(publisher, again, start), x) == []
  {
  }

  lemma OneLotInMaps(m: Maps, again: Maps, now: Time, x: Text, rises: bool)
    requires var kept, after := Survivor(SlotOf(m, x), now), SlotOf(again, x);
             && (kept.Tracked? ==> after == kept)
             && (kept.Absent? ==> (after.Tracked? && Survives(after.state, now) <==> rises))
             && (kept.Absent? && !after.Absent? ==> !after.state.wasVisible)
    ensures KeepsSurvivor(m, again, now, x)
    ensures OneLotSettled(m, again, now, x) <==> x in Survivors(m.tracked, now) || !rises
  {
  }

  /** No lot that the run dropped rises from the overlap days. */
  ghost predicate NothingRises(recent: seq<Event>, tracked: map<Text, LotState>, now: Time) {
    forall x | x !in tracked :: !RisesFromNothing(OfLot(recent, x), now)
  }

  lemma LegibleWithin(publisher: Publisher, lo: int, from: int, target: int)
    requires AllLegible(publisher, lo, target) && lo <= from
    ensures AllLegible(publisher, from, target)
  {
  }

  lemma SettledMeansNothingRises(m: Maps, again: Maps, recent: seq<Event>, now: Time)
    requires forall x ::
      OneLotSettled(m, again, now, x) <==> x in Survivors(m.tracked, now) || !RisesFromNothing(OfLot(recent, x), now)
    ensures NothingRises(recent, Survivors(m.tracked, now), now) <==> forall x :: OneLotSettled(m, again, now, x)
  {
    hide OneLotSettled, Survivors, RisesFromNothing, OfLot;
  }

  lemma MapsAreRepeated(m0: Maps, publisher: Publisher, again: int, start: int, target: int, now: Time)
    requires again <= target + 1 && start <= target + 1 && InDayOrder(publisher, Min(start, again), target)
    requires Tidy(m0) && (again < start ==> m0 == Maps(map[], map[]))
    requires AllLegible(publisher, Min(start, again), target)
    ensures var m, recent := Applied(m0, Feed(publisher, start, target + 1 - start)), Feed(publisher, again, target + 1 - again);
            Repeats(Finish(target, m, target, now), Finish(target, Applied(Remembered(m, now), recent), target, now))
            <==> NothingRises(recent, Survivors(m.tracked, now), now)
  {
    hide *;
    var recent := Feed(publisher, again, target + 1 - again);
    var m := Applied(m0, Feed(publisher, start, target + 1 - start));
    var after := Applied(Remembered(m, now), recent);
    MinIs(start, again);
    LegibleWithin(publisher, Min(start, again), start, target);
    LegibleWithin(publisher, Min(start, again), again, target);
    FeedKeepsTidy(m0, publisher, start, target + 1 - start);
    RememberedIsTidy(m, now);
    FeedKeepsTidy(Remembered(m, now), publisher, again, target + 1 - again);
    TidyIsDisjoint(m0);
    forall x
      ensures KeepsSurvivor(m, after, now, x)
      ensures OneLotSettled(m, after, now, x) <==> x in Survivors(m.tracked, now) || !RisesFromNothing(OfLot(recent, x), now)
    {
      OneLotRepeated(m0, publisher, again, start, target, now, x);
    }
    SettledIsRepeated(m, after, target, now);
    SettledMeansNothingRises(m, after, recent, now);
  }

  lemma TidyIsDisjoint(m: Maps)
    requires Tidy(m)
    ensures Disjoint(m)
  {
  }

  /** A caught-up run reads every day up to the target, and stores the survivors. */
  lemma CaughtUpRun(limits: Limits, watermark: Option<Cursor>, publisher: Publisher, target: int, now: Time)
    requires limits.Valid()
    requires var r := Run(limits, watermark, publisher, target, now); r.Ok? && r.value.cursor.completed >= target
    ensures
      var start := FirstDay(limits, watermark, target);
      && start <= target + 1 && AllLegible(publisher, start, target)
      && (watermark.Some? || limits.lookback >= limits.overlap ==> start <= OverlapStart(limits, target))
      && (OverlapStart(limits, target) < start ==> InitialMaps(watermark) == Maps(map[], map[]))
      && var m := Applied(InitialMaps(watermark), Feed(publisher, start, target + 1 - start));
      Run(limits, watermark, publisher, target, now) == Ok(Finish(target, m, target, now))
      && Finish(target, m, target, now).cursor == Cursor(target, Remembered(m, now))
  {
    hide Days, FinalRecords, Survivors, Applied, Feed, AllLegible;
    var start := FirstDay(limits, watermark, target);
    var count := target + 1 - start;
    assert count >= 0;
    CaughtUpRunReadsEverything(limits, watermark, publisher, target, now, Run(limits, watermark, publisher, target, now).value, count);
    DaysAreLegible(InitialMaps(watermark), publisher, start, count);
    DaysApplyTheFeed(InitialMaps(watermark), publisher, start, count);
  }

  /** The repetition reads the overlap days, and fails only if one of them cannot be read. */
  lemma OverlapRun(limits: Limits, kept: Maps, publisher: Publisher, target: int, now: Time)
    requires limits.Valid()
    ensures var again := OverlapStart(limits, target);
            var second := Run(limits, Some(Cursor(target, kept)), publisher, target, now);
            && (second.Ok? <==> AllLegible(publisher, again, target))
            && (second.Ok? ==> second.value == Finish(target, Applied(kept, Feed(publisher, again, limits.overlap)), target, now))
  {
    hide Days, Finish, Applied, Feed, AllLegible;
    var again := OverlapStart(limits, target);
    assert DayCount(again, target, limits.maxDays) == limits.overlap;
    DaysAreLegible(kept, publisher, again, limits.overlap);
    if AllLegible(publisher, again, target) {
      DaysApplyTheFeed(kept, publisher, again, limits.overlap);
    }
  }

  /** Forgetting is safe, exactly.  After a caught-up run from any cursor as runs store it, a second
      run over the same data at the same instant succeeds if the overlap can be read.  It repeats the
      first, with the same cursor, no tombstone and the same actionable lots, if and only if no lot
      the first run dropped rises from the overlap days: that can be read off each lot's own entries
      there, whatever the order and the verdicts in which a version lists it. */
  lemma ForgettingIsSafe(limits: Limits, watermark: Option<Cursor>, publisher: Publisher, target: int, now: Time)
    requires limits.Valid() && Tidy(InitialMaps(watermark))
    requires InDayOrder(publisher, Min(FirstDay(limits, watermark, target), OverlapStart(limits, target)), target)
    requires var r := Run(limits, watermark, publisher, target, now); r.Ok? && r.value.cursor.completed >= target
    ensures
      var first := Run(limits, watermark, publisher, target, now).value;
      var second := Run(limits, Some(first.cursor), publisher, target, now);
      var recent := Feed(publisher, OverlapStart(limits, target), limits.overlap);
      && (second.Ok? <==> AllLegible(publisher, OverlapStart(limits, target), target))
      && (watermark.Some? || limits.lookback >= limits.overlap ==> second.Ok?)
      && (second.Ok? ==> (Repeats(first, second.value) <==> NothingRises(recent, first.cursor.maps.tracked, now)))
  {
    var start, again := FirstDay(limits, watermark, target), OverlapStart(limits, target);
    hide Run, Repeats, NothingRises, Finish, Applied, Feed, Remembered, Tidy, AllLegible, InDayOrder;
    CaughtUpRun(limits, watermark, publisher, target, now);
    var m := Applied(InitialMaps(watermark), Feed(publisher, start, target + 1 - start));
    OverlapRun(limits, Remembered(m, now), publisher, target, now);
    if start <= again {
      LegibleWithin(publisher, start, again, target);
    }
    if AllLegible(publisher, again, target) {
      MapsAreRepeated(InitialMaps(watermark), publisher, again, start, target, now);
      RememberedTracks(m, now);
    }
  }

  lemma RememberedTracks(m: Maps, now: Time)
    ensures Remembered(m, now).tracked == Survivors(m.tracked, now)
  {
  }
}
