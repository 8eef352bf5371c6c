/** Germany: what a run says and stores of every lot, from the lot's state after the days it read. */
module GermanyVerdicts {
  import opened Common
  import opened Lifecycle
  import opened Sorting
  import opened GermanyLots
  import opened GermanyRuns
  import opened GermanyCatchup
  import opened GermanyView
  import opened GermanyHistory

  /** What a caught-up run says of a lot: an open one with a deadline ahead is announced, and one that is
      closed, elapsed or without a deadline is withdrawn if it carries its mark and was not withdrawn yet. */
  ghost predicate Said(slot: Slot, now: Time, record: Option<Record>) {
    match slot
    case Tracked(s) =>
      var open := s.body.deadline.Some? && s.body.deadline.value > now;
      && (record.Some? <==> open || s.wasVisible)
      && (record.Some? ==> Tells(record.value, s, open, if open then "active"
                                                        else if s.body.deadline.None? then "deadline_missing" else "deadline_elapsed"))
    case Closed(s) =>
      && (record.Some? <==> s.wasVisible && !s.closureEmitted)
      && (record.Some? ==> Tells(record.value, s, false, if s.closure.Some? then s.closure.value.status else "closed"))
    case _ => record.None?
  }

  ghost predicate Tells(r: Record, s: LotState, open: bool, status: string) {
    r.Record? && r.isActionable == Some(open) && r.status == status && r.updatedAt == s.key.time
    && r.publishedAt == s.body.firstPublished
  }

  /** What a caught-up run stores of a lot: an open one unless its deadline is over, marked if it is announced;
      a closed one as recently closed, its withdrawal noted; a recently closed one as it was; the last two
      while they are within retention. */
  ghost predicate StoredAs(slot: Slot, now: Time, cutoff: int, kept: Slot) {
    match slot
    case Tracked(s) =>
      var open := s.body.deadline.Some? && s.body.deadline.value > now;
      kept == if open || s.body.deadline.None? then Tracked(s.(wasVisible := open)) else Absent
    case Closed(s) =>
      kept == if s.key.day >= cutoff then Recent(s.(closureEmitted := s.closureEmitted || s.wasVisible)) else Absent
    case Recent(s) => kept == if s.key.day >= cutoff then slot else Absent
    case Absent => kept == Absent
  }

  lemma SaidOfLot(m: Maps, now: Time, x: Text) returns (record: Option<Record>)
    requires Disjoint(m) && 0 !in m.tracked && 0 !in m.closed
    ensures OnlyRecord(FinalRecords(m, now), x, record) && Said(SlotOf(m, x), now, record)
  {
    var live, closing := TrackedRecord(m.tracked, now, x), ClosureRecord(m.closed, x);
    record := if live.Some? then live else closing;
    SaidByRule(m, now, x);
    hide TrackedRecord, ClosureRecord, FinalRecords;
    forall r: Record ensures r in FinalRecords(m, now) && r.Record? && r.externalId == x <==> record == Some(r) {
      FinalRecordsAre(m, now, r);
    }
  }

  lemma TrackedSays(s: LotState, now: Time, x: Text)
    ensures Said(Tracked(s), now, TrackedOf(s, now, x))
  {
    var record := TrackedOf(s, now, x);
    if Future(s.body.deadline, now) {
      assert Tells(record.value, s, true, "active");
    } else if s.wasVisible {
      assert Tells(record.value, s, false, if s.body.deadline.None? then "deadline_missing" else "deadline_elapsed");
    }
    hide Tells, TrackedOf;
  }

  lemma ClosedSays(s: LotState, now: Time, x: Text)
    ensures Said(Closed(s), now, ClosureOf(s, x))
  {
  }

  lemma OthersSayNothing(now: Time, s: LotState)
    ensures Said(Absent, now, None) && Said(Recent(s), now, None)
  {
  }

  lemma SaidByRule(m: Maps, now: Time, x: Text)
    requires Disjoint(m)
    ensures var live, closing := TrackedRecord(m.tracked, now, x), ClosureRecord(m.closed, x);
            && Said(SlotOf(m, x), now, if live.Some? then live else closing) && (live.None? || closing.None?)
            && (live.Some? ==> live.value.Record? && live.value.externalId == x)
            && (closing.Some? ==> closing.value.Record? && closing.value.externalId == x)
  {
    hide Said, TrackedOf, ClosureOf;
    if x in m.tracked {
      TrackedSays(m.tracked[x], now, x);
    } else if x in m.closed {
      ClosedSays(m.closed[x], now, x);
    } else if x in m.recent {
      OthersSayNothing(now, m.recent[x]);
    } else {
      NobodySays(now);
    }
  }

  lemma NobodySays(now: Time)
    ensures Said(Absent, now, None)
  {
  }

  lemma FinalRecordsAre(m: Maps, now: Time, r: Record)
    requires 0 !in m.tracked && 0 !in m.closed
    ensures r in FinalRecords(m, now)
       <==> r.Record? && (TrackedRecord(m.tracked, now, r.externalId) == Some(r) || ClosureRecord(m.closed, r.externalId) == Some(r))
  {
    var closedKeys, trackedKeys := Listed(m.closed.Keys), Listed(m.tracked.Keys);
    EmittersAreOwn(m, now);
    AscendingIsDistinct(closedKeys);
    AscendingIsDistinct(trackedKeys);
    EmitIsBatch(closedKeys, ClosureEmitter(m.closed), SOURCE);
    EmitIsBatch(trackedKeys, TrackedEmitter(m.tracked, now), SOURCE);
    if r.Record? {
      assert ClosureEmitter(m.closed)(r.externalId) == ClosureRecord(m.closed, r.externalId);
      assert TrackedEmitter(m.tracked, now)(r.externalId) == TrackedRecord(m.tracked, now, r.externalId);
      RecordsOfHeldLots(m, now, r.externalId);
    }
    hide Emit, Listed, ClosureOf, TrackedOf;
  }

  lemma RecordsOfHeldLots(m: Maps, now: Time, x: Text)
    ensures TrackedRecord(m.tracked, now, x).Some? ==> x in m.tracked
    ensures ClosureRecord(m.closed, x).Some? ==> x in m.closed
  {
  }

  lemma StoredByRule(m: Maps, now: Time, cutoff: int, x: Text)
    requires Disjoint(m)
    ensures var final := FinalMaps(m, now);
            StoredAs(SlotOf(m, x), now, cutoff, SlotOf(final.(recent := Pruned(final.recent, cutoff)), x))
  {
  }

  /** Every run, lot by lot: behind its target it says nothing; caught up, it says and stores of every lot what
      the lot's state after the days read calls for. */
  lemma RunJudges(limits: Limits, cursor: Option<Cursor>, publisher: Publisher, target: int, now: Time, x: Text)
    returns (record: Option<Record>)
    requires limits.Valid() && Run(limits, cursor, publisher, target, now).Ok?
    requires cursor.Some? ==> var m := cursor.value.maps; Disjoint(m) && 0 !in Held(m)
    ensures var working, out := Working(limits, cursor, publisher, target), Run(limits, cursor, publisher, target, now).value;
            && OnlyRecord(out.records, x, record)
            && (if out.cursor.completed < target then record.None?
                else
                  && Said(SlotOf(working, x), now, record)
                  && StoredAs(SlotOf(working, x), now, target - limits.retention, SlotOf(out.cursor.maps, x)))
  {
    hide *;
    var before := Before(limits, cursor, target);
    var last := LastDay(limits, before, target);
    var working := Working(limits, cursor, publisher, target);
    RunReads(limits, cursor, publisher, target, now);
    WorkingIsNamed(limits, cursor, publisher, target, now);
    FinishStores(limits, last, working, target, now);
    FinishSays(limits, last, working, target, now);
    record := None;
    if last >= target {
      record := SaidOfLot(working, now, x);
      StoredByRule(working, now, target - limits.retention, x);
    } else {
      NothingSaid(x);
    }
  }

  lemma NothingSaid(x: Text)
    ensures OnlyRecord([], x, None)
  {
  }

  lemma FinishSays(limits: Limits, completed: int, m: Maps, target: int, now: Time)
    requires Finish(limits, completed, m, target, now).Ok?
    ensures Finish(limits, completed, m, target, now).value.records == if completed >= target then FinalRecords(m, now) else []
  {
    hide FinalRecords, FinalMaps, Pruned;
  }

  lemma WorkingIsNamed(limits: Limits, cursor: Option<Cursor>, publisher: Publisher, target: int, now: Time)
    requires limits.Valid() && Run(limits, cursor, publisher, target, now).Ok?
    requires cursor.Some? ==> var m := cursor.value.maps; Disjoint(m) && 0 !in Held(m)
    ensures var m := Working(limits, cursor, publisher, target); Disjoint(m) && 0 !in m.tracked && 0 !in m.closed
  {
    hide *;
    var m0 := if cursor.Some? then cursor.value.maps else Maps(map[], map[], map[]);
    var before := Before(limits, cursor, target);
    var last := LastDay(limits, before, target);
    RunReads(limits, cursor, publisher, target, now);
    WorkingMeans(limits, cursor, publisher, target);
    NothingHeld(0);
    if cursor.Some? {
      LaterRunReads(limits, cursor.value, publisher, target, now);
      AbsentIsNotHeld(m0, 0);
    } else {
      FirstRunReads(limits, publisher, target, now);
    }
    NoNamelessEvents(publisher, before + 1, last - before);
    EachLotAlone(m0, Feed(publisher, before + 1, last - before), 0);
    SlotOfNothing(SlotOf(m0, 0));
    AbsentIsNotHeld(Working(limits, cursor, publisher, target), 0);
    NotHeldMeans(Working(limits, cursor, publisher, target), 0);
  }

  lemma SlotOfNothing(slot: Slot)
    ensures SlotAfter(slot, []) == slot
  {
  }

  lemma NotHeldMeans(m: Maps, x: Text)
    ensures x !in Held(m) ==> x !in m.tracked && x !in m.closed && x !in m.recent
  {
  }

  lemma {:induction false} NoNamelessEvents(publisher: Publisher, start: int, count: nat)
    requires Readable(publisher, start, start + count - 1)
    ensures OfLot(Feed(publisher, start, count), 0) == []
  {
    if count > 0 {
      NoNamelessEvents(publisher, start, count - 1);
      assert ReadableDay(publisher, start + count - 1);
      var day := publisher(start + count - 1).value;
      OfLotJoins(Feed(publisher, start, count - 1), day, 0);
      NoNamelessEventsOf(day);
    }
  }

  lemma {:induction false} NoNamelessEventsOf(events: seq<Event>)
    requires Named(events)
    ensures OfLot(events, 0) == []
  {
    if events != [] {
      NoNamelessEventsOf(events[..|events| - 1]);
    }
  }
}
