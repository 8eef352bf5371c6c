/** Estonia: which months a run reads, and what they make of a lot.  A lot is its own first entries of those
    months in order, the notices of a month before its awards; a run says and keeps of it what that says. */
module EstoniaHistory {
  import opened Common
  import opened Lifecycle
  import opened Sorting
  import opened EstoniaMonths
  import opened EstoniaLots
  import opened EstoniaRuns
  import opened EstoniaView

  // ---- one month ------------------------------------------------------------------------------------

  ghost predicate Stamped(events: seq<Event>) {
    forall e | e in events :: e.stamp != 0
  }

  lemma {:induction false} OwnFirstsAreIn(file: seq<Event>, counts: Event -> bool, x: Text)
    ensures forall e | e in OwnFirsts(file, counts, x) :: e in file && counts(e) && e.externalId == x
  {
    if file != [] {
      OwnFirstsAreIn(file[..|file| - 1], counts, x);
    }
  }

  /** A lot first noticed in a month ends the month closed if and only if one of its awards of that month that
      count is stamped no earlier than any of its notices. */
  lemma MonthCloses(states: States, p: Period, x: Text)
    requires p.Valid() && x !in states && NoticesOf(p, x) != []
    requires Stamped(NoticesOf(p, x)) && Stamped(AwardsOf(states, p, x))
    ensures var lot := Lookup(AfterPeriod(states, p), x);
            && lot.Some?
            && (lot.value.closed <==> exists a | a in AwardsOf(states, p, x) ::
                                        forall n | n in NoticesOf(p, x) :: n.stamp <= a.stamp)
  {
    var ns, awards := NoticesOf(p, x), AwardsOf(states, p, x);
    MonthLotByLot(states, p, x);
    EntriesAreOfTheirKind(states, p, x);
    hide AfterPeriod, NoticesOf, AwardsOf;
    assert (ns + awards)[0] == ns[0] && ns[0] in ns;
    var d, c := HistoryOfALot(ns + awards);
    hide LotHistory, GivesContent;
    DecidedByTheGreatestStamp(ns, awards, d);
  }

  lemma EntriesAreOfTheirKind(states: States, p: Period, x: Text)
    requires p.Valid()
    ensures (forall e | e in NoticesOf(p, x) :: e.Notice?) && (forall e | e in AwardsOf(states, p, x) :: e.Award?)
  {
    OwnFirstsAreIn(p.notices, (e: Event) => true, x);
    OwnFirstsAreIn(p.awards, (e: Event) => e.Award? && (e.works || (e.procedure != 0 && HeldAfterNotices(states, p, e.procedure))), x);
    hide OwnFirsts, HeldAfterNotices;
  }

  lemma DecidedByTheGreatestStamp(ns: seq<Event>, awards: seq<Event>, d: nat)
    requires (forall e | e in ns :: e.Notice?) && (forall e | e in awards :: e.Award?)
    requires Decisive(ns + awards, d)
    ensures (ns + awards)[d].Award? <==> exists a | a in awards :: forall n | n in ns :: n.stamp <= a.stamp
  {
    var all := ns + awards;
    assert all[d] in all;
    if d >= |ns| {
      var a := all[d];
      assert a in awards;
      forall n | n in ns ensures n.stamp <= a.stamp {
        var i :| 0 <= i < |ns| && ns[i] == n;
        assert all[i] == n;
      }
    } else {
      assert all[d] in ns;
      forall a | a in awards ensures exists n | n in ns :: n.stamp > a.stamp {
        var j :| 0 <= j < |awards| && awards[j] == a;
        assert all[|ns| + j] == a;
        assert all[d].stamp > a.stamp;
      }
    }
  }

  // ---- a range of months --------------------------------------------------------------------------------

  /** Lot x's own entries of the months, in the order a run reads them. */
  ghost function EntriesOf(states: States, publisher: Publisher, months: seq<Month>, x: Text): seq<Event>
    requires Months(states, publisher, months).Ok?
  {
    if months == [] then []
    else
      var init, p := months[..|months| - 1], publisher(months[|months| - 1]).value;
      EntriesOf(states, publisher, init, x)
      + (NoticesOf(p, x) + AwardsOf(Months(states, publisher, init).value, p, x))
  }

  lemma {:induction false} MonthsLotByLot(states: States, publisher: Publisher, months: seq<Month>, x: Text)
    requires ValidPublisher(publisher) && Months(states, publisher, months).Ok?
    ensures Lookup(Months(states, publisher, months).value, x)
         == LotHistory(Lookup(states, x), EntriesOf(states, publisher, months, x))
  {
    hide AfterPeriod, NoticesOf, AwardsOf, LotHistory;
    if months == [] {
      NoEntries(Lookup(states, x));
    } else {
      var init, p := months[..|months| - 1], publisher(months[|months| - 1]).value;
      var before := Months(states, publisher, init).value;
      MonthsLotByLot(states, publisher, init, x);
      MonthLotByLot(before, p, x);
      MonthOfLotIs(before, p, x);
      HistoryInPieces(Lookup(states, x), EntriesOf(states, publisher, init, x), NoticesOf(p, x) + AwardsOf(before, p, x));
    }
  }

  lemma NoEntries(lot: Option<Lot>)
    ensures LotHistory(lot, []) == lot
  {
  }

  lemma MonthOfLotIs(states: States, p: Period, x: Text)
    ensures MonthOfLot(states, p, x) == LotHistory(Lookup(states, x), NoticesOf(p, x) + AwardsOf(states, p, x))
  {
  }

  lemma {:induction false} NoNamelessEntry(file: seq<Event>, counts: Event -> bool)
    requires forall e | e in file :: e.externalId != 0
    ensures OwnFirsts(file, counts, 0) == []
  {
    if file != [] {
      NoNamelessEntry(file[..|file| - 1], counts);
      assert file[|file| - 1] in file;
    }
  }

  /** No file has entries without a lot. */
  lemma {:induction false} NamelessLotIsNotHeld(states: States, publisher: Publisher, months: seq<Month>)
    requires ValidPublisher(publisher) && Months(states, publisher, months).Ok? && 0 !in states
    ensures 0 !in Months(states, publisher, months).value
  {
    hide AfterPeriod;
    if months != [] {
      var init, p := months[..|months| - 1], publisher(months[|months| - 1]).value;
      var before := Months(states, publisher, init).value;
      NamelessLotIsNotHeld(states, publisher, init);
      MonthLotByLot(before, p, 0);
      NoNamelessEntry(p.notices, (e: Event) => true);
      NoNamelessEntry(p.awards, (e: Event) => e.Award? && (e.works || (e.procedure != 0 && HeldAfterNotices(before, p, e.procedure))));
      assert NoticesOf(p, 0) + AwardsOf(before, p, 0) == [];
      NoEntries(Lookup(before, 0));
    }
  }

  // ---- the months of one run ----------------------------------------------------------------------------

  /** The n calendar months from the one with this index on. */
  function MonthsFrom(first: int, n: nat): seq<Month> {
    seq(n, k requires 0 <= k < n => OfIndex(first + k))
  }

  /** The months a run reads whose first one has this index: no more than a run may read, none after the
      current one, and the current one if all are after it. */
  function MonthsRead(first: int, current: Month, maxMonths: nat): seq<Month> {
    if first > Index(current) then [current] else MonthsFrom(first, Min(maxMonths, Index(current) - first + 1))
  }

  lemma BatchIsRead(start: Month, current: Month, maxMonths: nat)
    requires maxMonths >= 1
    ensures EstoniaRuns.Batch(start, current, maxMonths) == MonthsRead(Index(start), current, maxMonths)
  {
    RangeLength(start, current);
    var range := MonthRange(start, current);
    hide Index, OfIndex, MonthRange;
    forall i | 0 <= i < |range| ensures range[i] == OfIndex(Index(start) + i) {
      RangeAt(start, current, i);
    }
  }

  /** The index of the first month a run reads: `initial - 1` months before the current one without a cursor,
      the stored month of an unfinished catch-up, or else `overlap` months before the last completed one. */
  function FirstIndex(limits: Limits, watermark: Option<Cursor>, clock: Clock, now: Time): int {
    if watermark.None? then Index(clock(now)) - limits.initial + 1
    else if watermark.value.catchupNext != "" then
      var stored := ParseMonth(watermark.value.catchupNext);
      if stored.Ok? then Index(stored.value) else 0
    else Index(clock(watermark.value.observed)) - limits.overlap
  }

  /** A lot as a cursor hands it on: after a finished catch-up it is on show. */
  function Prior(watermark: Option<Cursor>, x: Text): Option<Lot> {
    if watermark.None? || x !in watermark.value.tracked then None
    else if watermark.value.catchupNext != "" then Some(watermark.value.tracked[x])
    else Some(watermark.value.tracked[x].(wasVisible := true))
  }

  lemma RunReads(limits: Limits, watermark: Option<Cursor>, publisher: Publisher, clock: Clock, now: Time)
    requires limits.Valid() && Run(limits, watermark, publisher, clock, now).Ok?
    ensures var months := MonthsRead(FirstIndex(limits, watermark, clock, now), clock(now), limits.maxMonths);
            && months != [] && Months(InitialStates(watermark), publisher, months).Ok?
            && Run(limits, watermark, publisher, clock, now).value
               == Finish(watermark, Months(InitialStates(watermark), publisher, months).value, months, clock(now), now)
  {
    hide Months, Finish, ShiftMonth, Index, ParseMonth, MonthsRead;
    var start := Start(limits, watermark, clock, now).value;
    BatchIsRead(start, clock(now), limits.maxMonths);
    if watermark.None? {
      ShiftComposes(clock(now), -(limits.initial - 1), 0);
    } else {
      ShiftComposes(clock(watermark.value.observed), -limits.overlap, 0);
    }
  }

  lemma PriorIs(watermark: Option<Cursor>, x: Text)
    ensures Lookup(InitialStates(watermark), x) == Prior(watermark, x)
  {
  }

  // ---- one lot through one run -------------------------------------------------------------------------------

  /** What a caught-up run says and keeps of a lot. */
  ghost predicate Judged(lot: Option<Lot>, now: Time, record: Option<Record>, tracked: Option<Lot>) {
    var open := lot.Some? && !lot.value.closed && lot.value.deadline.Some? && lot.value.deadline.value > now;
    && tracked == (if open then Some(lot.value.(wasVisible := true)) else None)
    && (record.Some? <==> open || (lot.Some? && lot.value.wasVisible))
    && (record.Some? ==>
          && record.value.Record? && record.value.isActionable == Some(open)
          && record.value.updatedAt == lot.value.stamp && record.value.publishedAt == lot.value.firstPublished
          && record.value.status == (if open then "active"
                                     else if lot.value.closed then "result_published"
                                     else if lot.value.deadline.None? then "deadline_missing" else "deadline_elapsed"))
  }

  /** One run, lot by lot: a lot is what its own entries of the months read make of what the cursor held; a run
      that does not reach the current month keeps exactly that and says nothing; one that does announces the
      open lots with a deadline ahead, withdraws the others that were on show, and keeps only the former. */
  lemma RunLotByLot(limits: Limits, watermark: Option<Cursor>, publisher: Publisher, clock: Clock, now: Time, x: Text)
    returns (record: Option<Record>)
    requires limits.Valid() && ValidPublisher(publisher) && (watermark.Some? ==> 0 !in watermark.value.tracked)
    requires Run(limits, watermark, publisher, clock, now).Ok?
    ensures
      var out := Run(limits, watermark, publisher, clock, now).value;
      var months := MonthsRead(FirstIndex(limits, watermark, clock, now), clock(now), limits.maxMonths);
      && months != [] && Months(InitialStates(watermark), publisher, months).Ok?
      && OnlyRecord(out.records, x, record)
      && var lot := LotHistory(Prior(watermark, x), EntriesOf(InitialStates(watermark), publisher, months, x));
      if months[|months| - 1] == clock(now) then
        && Judged(lot, now, record, Lookup(out.cursor.tracked, x))
        && out.cursor.observed == now - now % 1_000_000 && out.cursor.catchupNext == ""
      else
        && record.None? && Lookup(out.cursor.tracked, x) == lot
        && out.cursor.observed == (if watermark.Some? then watermark.value.observed else now - now % 1_000_000)
  {
    var months := MonthsRead(FirstIndex(limits, watermark, clock, now), clock(now), limits.maxMonths);
    hide *;
    RunReads(limits, watermark, publisher, clock, now);
    var states := Months(InitialStates(watermark), publisher, months).value;
    PriorIs(watermark, x);
    NothingNameless(watermark);
    MonthsLotByLot(InitialStates(watermark), publisher, months, x);
    NamelessLotIsNotHeld(InitialStates(watermark), publisher, months);
    record := FinishedLot(watermark, states, months, clock(now), now, x);
  }

  lemma NothingNameless(watermark: Option<Cursor>)
    requires watermark.Some? ==> 0 !in watermark.value.tracked
    ensures 0 !in InitialStates(watermark)
  {
  }

  lemma FinishedLot(watermark: Option<Cursor>, states: States, batch: seq<Month>, current: Month, now: Time, x: Text)
    returns (record: Option<Record>)
    requires batch != [] && 0 !in states
    ensures var out := Finish(watermark, states, batch, current, now);
            && OnlyRecord(out.records, x, record)
            && (if batch[|batch| - 1] == current then
                  && Judged(Lookup(states, x), now, record, Lookup(out.cursor.tracked, x))
                  && out.cursor.observed == now - now % 1_000_000 && out.cursor.catchupNext == ""
                else
                  && record.None? && Lookup(out.cursor.tracked, x) == Lookup(states, x)
                  && out.cursor.observed == (if watermark.Some? then watermark.value.observed else now - now % 1_000_000))
  {
    hide Emit, Listed, FinalRecord, Labels, MonthText;
    var out := Finish(watermark, states, batch, current, now);
    record := None;
    if batch[|batch| - 1] == current {
      record := FinalRecord(states, now, x);
      JudgedFinally(states, now, x);
      forall r: Record ensures r in out.records && r.Record? && r.externalId == x <==> FinalRecord(states, now, x) == Some(r) {
        FinalRecordsMean(states, now, r);
        RecordNamesItsLot(states, now, x);
      }
    }
  }

  lemma RecordNamesItsLot(states: States, now: Time, x: Text)
    ensures var r := FinalRecord(states, now, x); r.Some? ==> r.value.Record? && r.value.externalId == x
  {
  }

  lemma JudgedFinally(states: States, now: Time, x: Text)
    ensures Judged(Lookup(states, x), now, FinalRecord(states, now, x), Lookup(Survivors(states, now), x))
  {
  }
}
