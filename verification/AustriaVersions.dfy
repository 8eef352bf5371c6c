/** Austria: which version of a lot survives.  However many notices of a lot a catch-up folds, over
    however many runs, the lot ends with what its newest version says, and is announced, withdrawn
    or passed over by that version's deadline. */
module AustriaVersions {
  import opened Common
  import opened Lifecycle
  import opened Sorting
  import opened AustriaState
  import opened AustriaCatchup
  import opened AustriaBudget
  import opened AustriaNoSkip
  import opened AustriaRuns
  import opened AustriaIdentity
  import opened AustriaView

  // ---- what is left of several versions ------------------------------------------------------------

  /** The last of the versions with the greatest modification stamp. */
  ghost predicate Newest(versions: seq<State>, i: int) {
    && 0 <= i < |versions|
    && (forall j | 0 <= j < i :: versions[j].updated <= versions[i].updated)
    && (forall j | i < j < |versions| :: versions[j].updated < versions[i].updated)
  }

  /** The least publication stamp that any version carries. */
  ghost predicate FirstStamp(versions: seq<State>, stamp: Text) {
    && (forall j | 0 <= j < |versions| && versions[j].firstPublished != 0 :: 0 < stamp <= versions[j].firstPublished)
    && (stamp != 0 ==> exists j :: 0 <= j < |versions| && versions[j].firstPublished == stamp)
  }

  ghost predicate SomeHasAlias(versions: seq<State>, a: Text) {
    exists j :: 0 <= j < |versions| && a in versions[j].aliases
  }

  ghost predicate SomeIsVisible(versions: seq<State>) {
    exists j :: 0 <= j < |versions| && versions[j].wasVisible
  }

  ghost predicate SaysTheSame(lot: State, version: State) {
    && lot.updated == version.updated && lot.content == version.content
    && lot.deadline == version.deadline && (lot.legacy <==> version.legacy)
  }

  /** A lot made of these versions: the newest says what it is, the first publication is the earliest,
      and no alias is lost or made up. */
  ghost predicate MadeOf(lot: State, versions: seq<State>) {
    && (exists i :: Newest(versions, i) && SaysTheSame(lot, versions[i]))
    && FirstStamp(versions, lot.firstPublished)
    && (forall a | a != 0 :: a in lot.aliases <==> SomeHasAlias(versions, a))
  }

  lemma OneVersion(s: State)
    ensures MadeOf(s, [s]) && (SomeIsVisible([s]) <==> s.wasVisible)
  {
    assert Newest([s], 0);
    assert [s][0].firstPublished == s.firstPublished;
    forall a | a in s.aliases ensures SomeHasAlias([s], a) {
      assert a in [s][0].aliases;
    }
    if s.wasVisible {
      assert [s][0].wasVisible;
    }
  }

  /** One merge: the later version in stamp, or on arrival when the stamps are equal, takes over. */
  lemma MergingOneVersion(lot: State, versions: seq<State>, s: State)
    requires MadeOf(lot, versions) && (lot.wasVisible <==> SomeIsVisible(versions))
    ensures var merged := Merged(Some(lot), s);
            MadeOf(merged, versions + [s]) && (merged.wasVisible <==> SomeIsVisible(versions + [s]))
  {
    var all, merged, n := versions + [s], Merged(Some(lot), s), |versions|;
    assert all[n] == s && forall j | 0 <= j < n :: all[j] == versions[j];
    NewestOfMore(lot, versions, s);
    DedupKeepsMembers(lot.aliases + s.aliases);
    forall a | a != 0 ensures a in merged.aliases <==> SomeHasAlias(all, a) {
      OneMoreAlias(versions, s, a);
      assert a in lot.aliases <==> SomeHasAlias(versions, a);
    }
    OneMoreStamp(versions, s, lot.firstPublished);
    if SomeIsVisible(versions) {
      var j :| 0 <= j < n && versions[j].wasVisible;
      assert all[j].wasVisible;
    }
    if s.wasVisible {
      assert all[n].wasVisible;
    }
  }

  lemma NewestOfMore(lot: State, versions: seq<State>, s: State)
    requires exists i :: Newest(versions, i) && SaysTheSame(lot, versions[i])
    ensures exists i :: Newest(versions + [s], i) && SaysTheSame(if s.updated >= lot.updated then s else lot, (versions + [s])[i])
  {
    var all, n := versions + [s], |versions|;
    var i :| Newest(versions, i) && SaysTheSame(lot, versions[i]);
    NewestIsInside(versions, i);
    assert all[n] == s && all[i] == versions[i];
    NextNewest(versions, s, i);
    hide Newest;
    if s.updated >= lot.updated {
      assert SaysTheSame(s, all[n]);
    } else {
      assert SaysTheSame(lot, all[i]);
    }
  }

  lemma NewestIsInside(versions: seq<State>, i: int)
    requires Newest(versions, i)
    ensures 0 <= i < |versions|
  {
  }

  lemma NextNewest(versions: seq<State>, s: State, i: int)
    requires Newest(versions, i)
    ensures Newest(versions + [s], if s.updated >= versions[i].updated then |versions| else i)
  {
    var all := versions + [s];
    forall j | 0 <= j < |versions| ensures all[j].updated == versions[j].updated <= versions[i].updated {
    }
  }

  lemma OneMoreAlias(versions: seq<State>, s: State, a: Text)
    ensures SomeHasAlias(versions + [s], a) <==> SomeHasAlias(versions, a) || a in s.aliases
  {
    var all, n := versions + [s], |versions|;
    assert all[n] == s && forall j | 0 <= j < n :: all[j] == versions[j];
    if SomeHasAlias(versions, a) {
      var j :| 0 <= j < n && a in versions[j].aliases;
      assert a in all[j].aliases;
    }
  }

  lemma OneMoreStamp(versions: seq<State>, s: State, stamp: Text)
    requires FirstStamp(versions, stamp)
    ensures FirstStamp(versions + [s], MinPresent(stamp, s.firstPublished))
  {
    var all, n := versions + [s], |versions|;
    assert all[n] == s && forall j | 0 <= j < n :: all[j] == versions[j];
    if stamp != 0 {
      var j :| 0 <= j < n && versions[j].firstPublished == stamp;
      assert all[j].firstPublished == stamp;
    }
  }

  // ---- one lot through a fold ----------------------------------------------------------------------

  /** The states of a fold that are stored under lot x, as they came. */
  function OwnVersions(pending: States, states: seq<State>, x: Text): seq<State> {
    if states == [] then []
    else
      var init, last := states[..|states| - 1], states[|states| - 1];
      OwnVersions(pending, init, x) + (if Anchored(FoldStates(pending, init), last).externalId == x then [last] else [])
  }

  function Known(pending: States, x: Text): seq<State> {
    if x in pending then [pending[x]] else []
  }

  ghost predicate FoldedFrom(lot: Option<State>, versions: seq<State>) {
    && (lot.None? <==> versions == [])
    && (lot.Some? ==> MadeOf(lot.value, versions) && (lot.value.wasVisible <==> SomeIsVisible(versions)))
  }

  lemma AnchoringRenames(pending: States, state: State)
    ensures var s := Anchored(pending, state);
            s == state.(externalId := s.externalId, procedureId := s.procedureId)
  {
  }

  /** Names are not part of what a version says. */
  lemma RenamedVersion(versions: seq<State>, s: State, t: State)
    requires t == s.(externalId := t.externalId, procedureId := t.procedureId)
    ensures forall lot | MadeOf(lot, versions + [t]) :: MadeOf(lot, versions + [s])
    ensures SomeIsVisible(versions + [t]) <==> SomeIsVisible(versions + [s])
  {
    var a, b, n := versions + [t], versions + [s], |versions|;
    assert forall j | 0 <= j < |a| :: SaysTheSame(a[j], b[j]) && a[j].firstPublished == b[j].firstPublished
                                      && a[j].aliases == b[j].aliases && a[j].wasVisible == b[j].wasVisible;
    forall lot | MadeOf(lot, a) ensures MadeOf(lot, b) {
      var i :| Newest(a, i) && SaysTheSame(lot, a[i]);
      assert Newest(b, i) && SaysTheSame(lot, b[i]);
      forall x ensures SomeHasAlias(a, x) <==> SomeHasAlias(b, x) {
        SameAliases(a, b, x);
        SameAliases(b, a, x);
      }
      if lot.firstPublished != 0 {
        var j :| 0 <= j < |a| && a[j].firstPublished == lot.firstPublished;
        assert b[j].firstPublished == lot.firstPublished;
      }
    }
    SameVisibility(a, b);
    SameVisibility(b, a);
  }

  lemma SameAliases(a: seq<State>, b: seq<State>, x: Text)
    requires |a| == |b| && forall j | 0 <= j < |a| :: a[j].aliases == b[j].aliases
    ensures SomeHasAlias(a, x) ==> SomeHasAlias(b, x)
  {
    if SomeHasAlias(a, x) {
      var j :| 0 <= j < |a| && x in a[j].aliases;
      assert x in b[j].aliases;
    }
  }

  lemma SameVisibility(a: seq<State>, b: seq<State>)
    requires |a| == |b| && forall j | 0 <= j < |a| :: a[j].wasVisible == b[j].wasVisible
    ensures SomeIsVisible(a) ==> SomeIsVisible(b)
  {
    if SomeIsVisible(a) {
      var j :| 0 <= j < |a| && a[j].wasVisible;
      assert b[j].wasVisible;
    }
  }

  /** Each lot of a fold is made of what was known of it and the states stored under it. */
  lemma {:induction false} FoldedLot(pending: States, states: seq<State>, x: Text)
    ensures FoldedFrom(Get(FoldStates(pending, states), x), Known(pending, x) + OwnVersions(pending, states, x))
  {
    hide MadeOf, Anchored, Merged, SomeIsVisible;
    if states == [] {
      if x in pending {
        OneVersion(pending[x]);
        assert [pending[x]] + [] == [pending[x]];
      }
    } else {
      var init, last := states[..|states| - 1], states[|states| - 1];
      FoldedLot(pending, init, x);
      var before, versions := FoldStates(pending, init), Known(pending, x) + OwnVersions(pending, init, x);
      var s := Anchored(before, last);
      AnchoringRenames(before, last);
      if s.externalId == x {
        assert Known(pending, x) + OwnVersions(pending, states, x) == versions + [last];
        StoringOneVersion(Get(before, x), versions, last, s);
      } else {
        assert OwnVersions(pending, states, x) == OwnVersions(pending, init, x);
      }
    }
  }

  lemma StoringOneVersion(lot: Option<State>, versions: seq<State>, state: State, s: State)
    requires FoldedFrom(lot, versions) && s == state.(externalId := s.externalId, procedureId := s.procedureId)
    ensures FoldedFrom(Some(Merged(lot, s)), versions + [state])
  {
    if lot.None? {
      OneVersion(s);
      assert versions + [s] == [s];
    } else {
      MergingOneVersion(lot.value, versions, s);
    }
    RenamedVersion(versions, state, s);
    hide MadeOf, SomeIsVisible;
  }

  // ---- the verdict of a completed catch-up -------------------------------------------------------------

  function Failure(d: Deadline): string {
    match d
    case Missing => "deadline_missing"
    case Invalid => "deadline_invalid"
    case At(_) => "deadline_elapsed"
  }

  /** What the consumer is told, and what stays tracked, of a lot made of these versions: all of it is
      said by the newest version and by whether the lot was on show before. */
  ghost predicate Judged(previous: Option<State>, versions: seq<State>, i: int, now: Time, record: Option<Record>,
                         tracked: Option<State>) {
    && Newest(versions, i)
    && var d := versions[i].deadline;
       var open, shown := d.At? && d.time > now, previous.Some? && previous.value.wasVisible;
    && (tracked.Some? <==> open || (shown && !d.At?))
    && (tracked.Some? ==> MadeOf(tracked.value, versions) && tracked.value.wasVisible)
    && (record.Some? <==> if open then tracked != previous else shown)
    && (record.Some? ==>
          && record.value.Record? && record.value.isActionable == Some(open)
          && record.value.status == (if open then "open" else Failure(d))
          && record.value.updatedAt == versions[i].updated && FirstStamp(versions, record.value.publishedAt))
  }

  lemma JudgedLot(previous: Option<State>, own: seq<State>, pending: State, now: Time) returns (i: int)
    requires FoldedFrom(Some(pending), (if previous.Some? then [previous.value] else []) + own)
    ensures var (record, tracked) := ReconcileOne(previous, Some(pending), now);
            Judged(previous, (if previous.Some? then [previous.value] else []) + own, i, now, record, tracked)
  {
    hide *;
    var versions := (if previous.Some? then [previous.value] else []) + own;
    MadeOfWhatItFolds(Some(pending), versions);
    if previous.Some? {
      MergedAgain(previous.value, versions, pending);
    } else {
      FirstMerge(pending);
    }
    i := NewestOf(Merged(previous, pending), versions);
    JudgedByTheNewest(previous, pending, versions, i, now);
  }

  lemma MadeOfWhatItFolds(lot: Option<State>, versions: seq<State>)
    requires FoldedFrom(lot, versions) && lot.Some?
    ensures MadeOf(lot.value, versions)
  {
  }

  lemma FirstMerge(s: State)
    ensures Merged(None, s) == s
  {
  }

  lemma NewestOf(lot: State, versions: seq<State>) returns (i: int)
    requires MadeOf(lot, versions)
    ensures Newest(versions, i) && 0 <= i < |versions| && SaysTheSame(lot, versions[i])
    ensures FirstStamp(versions, lot.firstPublished) && MadeOf(lot.(wasVisible := true), versions)
  {
    i :| Newest(versions, i) && SaysTheSame(lot, versions[i]);
    assert SaysTheSame(lot.(wasVisible := true), versions[i]);
  }

  lemma JudgedByTheNewest(previous: Option<State>, pending: State, versions: seq<State>, i: int, now: Time)
    requires Newest(versions, i) && 0 <= i < |versions| && SaysTheSame(Merged(previous, pending), versions[i])
    requires FirstStamp(versions, Merged(previous, pending).firstPublished)
    requires MadeOf(Merged(previous, pending).(wasVisible := true), versions)
    ensures var (record, tracked) := ReconcileOne(previous, Some(pending), now);
            Judged(previous, versions, i, now, record, tracked)
  {
    hide Merged, Newest, FirstStamp, MadeOf;
  }

  /** The pending state already holds the baseline it is merged with once more. */
  lemma MergedAgain(previous: State, versions: seq<State>, pending: State)
    requires versions != [] && versions[0] == previous && MadeOf(pending, versions)
    ensures MadeOf(Merged(Some(previous), pending), versions)
  {
    var merged := Merged(Some(previous), pending);
    var i :| Newest(versions, i) && SaysTheSame(pending, versions[i]);
    assert versions[0].updated <= versions[i].updated;
    assert SaysTheSame(merged, versions[i]);
    DedupKeepsMembers(previous.aliases + pending.aliases);
    forall a | a != 0 ensures a in merged.aliases <==> SomeHasAlias(versions, a) {
      assert a in versions[0].aliases ==> SomeHasAlias(versions, a);
    }
  }

  // ---- lots that no notice names -----------------------------------------------------------------------

  ghost predicate Clean(aliases: seq<Text>) {
    0 !in aliases && forall i, j | 0 <= i < j < |aliases| :: aliases[i] != aliases[j]
  }

  lemma {:induction false} DedupIsClean(xs: seq<Text>)
    ensures Clean(Dedup(xs))
    ensures Clean(xs) ==> Dedup(xs) == xs
  {
    if xs != [] {
      var init := xs[..|xs| - 1];
      DedupIsClean(init);
      DedupKeepsMembers(init);
      assert xs == init + [xs[|xs| - 1]];
      if Clean(xs) {
        assert xs[|xs| - 1] !in init && Clean(init);
      }
    }
  }

  lemma {:induction false} DedupAddsNothing(xs: seq<Text>, ys: seq<Text>)
    requires forall y | y in ys :: y in xs
    ensures Dedup(xs + ys) == Dedup(xs)
  {
    if ys == [] {
      assert xs + ys == xs;
    } else {
      var init := ys[..|ys| - 1];
      assert (xs + ys)[..|xs + ys| - 1] == xs + init;
      DedupAddsNothing(xs, init);
      DedupKeepsMembers(xs);
      assert ys[|ys| - 1] in ys;
    }
  }

  /** A lot on show whose deadline lies ahead and that no notice named is announced again if and only
      if its aliases are not yet in the form that merging gives them. */
  lemma UnnamedLotIsQuiet(lot: State, now: Time)
    requires lot.wasVisible && FutureDeadline(lot, now)
    ensures ReconcileOne(Some(lot), Some(lot), now).0.None? <==> Clean(lot.aliases)
    ensures Clean(lot.aliases) ==> ReconcileOne(Some(lot), Some(lot), now).1 == Some(lot)
  {
    DedupAddsNothing(lot.aliases, lot.aliases);
    DedupIsClean(lot.aliases);
    hide Dedup, Clean;
  }

  // ---- whole histories -----------------------------------------------------------------------------------

  /** The states of the notices of these items, in the order they were folded. */
  function StatesOf(items: seq<(Text, Item)>): seq<State> {
    if items == [] then [] else StatesOf(items[..|items| - 1]) + items[|items| - 1].1.states
  }

  lemma {:induction false} FoldingItemsFoldsStates(pending: States, items: seq<(Text, Item)>)
    ensures FoldItems(pending, items) == FoldStates(pending, StatesOf(items))
  {
    if items != [] {
      var init := items[..|items| - 1];
      FoldingItemsFoldsStates(pending, init);
      FoldStatesInPieces(pending, StatesOf(init), items[|items| - 1].1.states);
    }
  }

  /** The items that the catch-up under way has folded in committed runs. */
  function FoldedSoFar(settings: Settings, history: seq<Attempt>): seq<(Text, Item)> {
    if history == [] then []
    else
      var init, a := history[..|history| - 1], history[|history| - 1];
      var r := Run(settings, a.budget, AustriaRuns.After(settings, init).cursor, a.input);
      if r.Err? then FoldedSoFar(settings, init)
      else if r.value.cursor.catchup.None? then []
      else FoldedSoFar(settings, init) + FoldedBy(settings, AustriaRuns.After(settings, init).cursor, a)
  }

  /** The items that a successful run folds. */
  function FoldedBy(settings: Settings, cursor: Cursor, a: Attempt): seq<(Text, Item)>
    requires Run(settings, a.budget, cursor, a.input).Ok?
  {
    Swept(cursor, Resumed(settings, cursor, a.input).value, a.input.world, a.budget).value.log
  }

  lemma RunFolds(settings: Settings, cursor: Cursor, a: Attempt) returns (c: Catchup, s: Sweep)
    requires Run(settings, a.budget, cursor, a.input).Ok?
    ensures c.through.Some? && Run(settings, a.budget, cursor, a.input) == Settle(cursor, c, s, a.input.now)
    ensures VisitAll(StartOf(cursor, c, a.budget), Listed(c.kdqs.Keys), a.input.world, c.through.value) == Some(s)
    ensures c.pending == PendingOf(cursor)
    ensures s.pending == FoldItems(PendingOf(cursor), FoldedBy(settings, cursor, a))
  {
    c, s := RunParts(settings, a.budget, cursor, a.input);
    hide VisitAll, FoldItems, Settle, Listed;
    SweepAccounts(StartOf(cursor, c, a.budget), Listed(c.kdqs.Keys), a.input.world, c.through.value);
    assert s.log[0..] == s.log;
  }

  /** A pending catch-up is the tracked states with what it has folded so far. */
  lemma {:induction false} PendingIsFolded(settings: Settings, history: seq<Attempt>)
    ensures var cursor := AustriaRuns.After(settings, history).cursor;
            PendingOf(cursor) == FoldItems(cursor.tracked, FoldedSoFar(settings, history))
  {
    if history != [] {
      var init, a := history[..|history| - 1], history[|history| - 1];
      var cursor := AustriaRuns.After(settings, init).cursor;
      PendingIsFolded(settings, init);
      if Run(settings, a.budget, cursor, a.input).Ok? {
        hide Run, Settle, FoldItems, FoldedBy, ReconcileRecords, Reconciled, Swept;
        var c, s := RunFolds(settings, cursor, a);
        SettleParts(cursor, c, s, a.input.now);
        FoldItemsInPieces(cursor.tracked, FoldedSoFar(settings, init), FoldedBy(settings, cursor, a));
        NothingToFold(AustriaRuns.After(settings, history).cursor.tracked);
      }
    }
  }

  lemma NothingToFold(pending: States)
    ensures FoldItems(pending, []) == pending
  {
  }

  /** The versions of a lot that a completed catch-up has to judge: the state tracked before it was
      frozen, and the states its notices yielded, in the order they were folded. */
  function VersionsOf(settings: Settings, history: seq<Attempt>, a: Attempt, x: Text): seq<State>
    requires Run(settings, a.budget, AustriaRuns.After(settings, history).cursor, a.input).Ok?
  {
    var cursor := AustriaRuns.After(settings, history).cursor;
    Known(cursor.tracked, x)
    + OwnVersions(cursor.tracked, StatesOf(FoldedSoFar(settings, history) + FoldedBy(settings, cursor, a)), x)
  }

  lemma CompletedPending(settings: Settings, history: seq<Attempt>, a: Attempt, x: Text) returns (c: Catchup, s: Sweep)
    requires Run(settings, a.budget, AustriaRuns.After(settings, history).cursor, a.input).Ok?
    ensures var cursor := AustriaRuns.After(settings, history).cursor;
            && c.through.Some? && Run(settings, a.budget, cursor, a.input) == Settle(cursor, c, s, a.input.now)
            && s.pending == FoldItems(PendingOf(cursor), FoldedBy(settings, cursor, a))
            && FoldedFrom(Get(s.pending, x), VersionsOf(settings, history, a, x))
  {
    var cursor := AustriaRuns.After(settings, history).cursor;
    var items := FoldedSoFar(settings, history) + FoldedBy(settings, cursor, a);
    hide Run, Settle, FoldItems, FoldedBy, FoldedSoFar, FoldedFrom, FoldStates, StatesOf, AustriaRuns.After;
    PendingIsFolded(settings, history);
    c, s := RunFolds(settings, cursor, a);
    FoldItemsInPieces(cursor.tracked, FoldedSoFar(settings, history), FoldedBy(settings, cursor, a));
    FoldingItemsFoldsStates(cursor.tracked, items);
    FoldedLot(cursor.tracked, StatesOf(items), x);
  }

  lemma ReconciledRecord(baseline: States, pending: States, rows: Rows, at: Time, now: Time, x: Text)
    requires Linked(baseline, rows, at) && OwnKeys(pending)
    ensures OnlyRecord(ReconcileRecords(baseline, pending, now), x, ReconcileOne(Get(baseline, x), Get(pending, x), now).0)
  {
    hide ReconcileOne, Linked, OwnKeys;
    var keys, emitter := Listed(AllKeys(baseline, pending)), Emitter(baseline, pending, now);
    EmitterIsOwn(baseline, pending, rows, at, now);
    AscendingIsDistinct(keys);
    EmitIsBatch(keys, emitter, SOURCE);
    UnheldLotIsSilent(baseline, pending, now, x);
    var record := emitter(x);
    forall r: Record ensures r in ReconcileRecords(baseline, pending, now) && r.Record? && r.externalId == x <==> record == Some(r) {
      if record == Some(r) {
        assert x in keys && r.externalId == x;
      }
    }
  }

  /** The newest version decides.  When a catch-up completes, after any history of runs with any
      failures, every lot is judged by the newest of the version tracked before and the versions its
      notices yielded meanwhile: it is on show with that content if that deadline lies ahead, and is
      announced if this changes anything; it is withdrawn if it was on show and that deadline is over,
      missing or invalid; and a lot without versions is neither tracked nor spoken of. */
  lemma NewestVersionDecides(settings: Settings, history: seq<Attempt>, a: Attempt, x: Text, out: Outcome)
    returns (record: Option<Record>, i: int)
    requires NamedWorld(a.input.world) && forall k | 0 <= k < |history| :: NamedWorld(history[k].input.world)
    requires Run(settings, a.budget, AustriaRuns.After(settings, history).cursor, a.input) == Ok(out) && out.cursor.catchup.None?
    ensures OnlyRecord(out.records, x, record)
    ensures var previous, versions := Get(AustriaRuns.After(settings, history).cursor.tracked, x), VersionsOf(settings, history, a, x);
            if versions == [] then record.None? && x !in out.cursor.tracked
            else Judged(previous, versions, i, a.input.now, record, Get(out.cursor.tracked, x))
  {
    hide *;
    var sys := AustriaRuns.After(settings, history);
    var previous, now := Get(sys.cursor.tracked, x), a.input.now;
    var c, s := CompletedPending(settings, history, a, x);
    SettleCompletes(sys.cursor, c, s, now, out);
    PendingHasOwnKeys(settings, history, a, s);
    ReconciledRecord(sys.cursor.tracked, s.pending, sys.rows, sys.reconciledAt, now, x);
    TrackedAfterReconcile(sys.cursor.tracked, s.pending, now, x);
    record := ReconcileOne(previous, Get(s.pending, x), now).0;
    i := VersionsDecide(settings, history, a, x, s);
    NotTracked(out.cursor.tracked, x);
  }

  lemma NotTracked(tracked: States, x: Text)
    ensures Get(tracked, x).None? <==> x !in tracked
  {
  }

  lemma SettleCompletes(cursor: Cursor, c: Catchup, s: Sweep, now: Time, out: Outcome)
    requires c.through.Some? && Settle(cursor, c, s, now) == Ok(out) && out.cursor.catchup.None?
    ensures out.records == ReconcileRecords(cursor.tracked, s.pending, now)
    ensures out.cursor.tracked == Reconciled(cursor.tracked, s.pending, now)
  {
    hide ReconcileRecords, Reconciled;
  }

  lemma PendingHasOwnKeys(settings: Settings, history: seq<Attempt>, a: Attempt, s: Sweep)
    requires NamedWorld(a.input.world) && forall k | 0 <= k < |history| :: NamedWorld(history[k].input.world)
    requires var cursor := AustriaRuns.After(settings, history).cursor;
             && Run(settings, a.budget, cursor, a.input).Ok?
             && s.pending == FoldItems(PendingOf(cursor), FoldedBy(settings, cursor, a))
    ensures var sys := AustriaRuns.After(settings, history);
            Linked(sys.cursor.tracked, sys.rows, sys.reconciledAt) && OwnKeys(s.pending)
  {
    var sys := AustriaRuns.After(settings, history);
    EveryRunKeepsConsistent(settings, history);
    LinkedHasOwnKeys(sys.cursor.tracked, sys.rows, sys.reconciledAt);
    hide Run, OwnKeys, Linked, VisitAll, NamedWorld, FoldItems, AustriaRuns.After;
    var c', s' := RunFolds(settings, sys.cursor, a);
    SweepKeepsOwnKeys(StartOf(sys.cursor, c', a.budget), Listed(c'.kdqs.Keys), a.input.world, c'.through.value);
  }

  lemma VersionsDecide(settings: Settings, history: seq<Attempt>, a: Attempt, x: Text, s: Sweep) returns (i: int)
    requires Run(settings, a.budget, AustriaRuns.After(settings, history).cursor, a.input).Ok?
    requires FoldedFrom(Get(s.pending, x), VersionsOf(settings, history, a, x))
    ensures var previous, versions := Get(AustriaRuns.After(settings, history).cursor.tracked, x), VersionsOf(settings, history, a, x);
            var (record, tracked) := ReconcileOne(previous, Get(s.pending, x), a.input.now);
            if versions == [] then record.None? && tracked.None?
            else Judged(previous, versions, i, a.input.now, record, tracked)
  {
    var cursor := AustriaRuns.After(settings, history).cursor;
    var own := OwnVersions(cursor.tracked, StatesOf(FoldedSoFar(settings, history) + FoldedBy(settings, cursor, a)), x);
    hide Run, FoldedBy, FoldedSoFar, StatesOf, OwnVersions, AustriaRuns.After, Judged, MadeOf, SomeIsVisible, Merged;
    i := 0;
    if Get(s.pending, x).Some? {
      i := JudgedLot(Get(cursor.tracked, x), own, Get(s.pending, x).value, a.input.now);
    }
  }

  // ---- no announcement without a change ------------------------------------------------------------------

  ghost predicate CleanStates(tracked: States) {
    forall x | x in tracked :: Clean(tracked[x].aliases)
  }

  /** The parser yields the one alias of a notice. */
  ghost predicate CleanWorld(world: World) {
    forall st | YieldedBy(world, st) :: Clean(st.aliases)
  }

  lemma MergedIsClean(current: Option<State>, s: State)
    requires Clean(s.aliases)
    ensures Clean(Merged(current, s).aliases)
  {
    if current.Some? {
      DedupIsClean(current.value.aliases + s.aliases);
    }
    hide Clean, Dedup;
  }

  lemma {:induction false} FoldingKeepsClean(pending: States, states: seq<State>)
    requires CleanStates(pending) && forall st | st in states :: Clean(st.aliases)
    ensures CleanStates(FoldStates(pending, states))
  {
    hide Clean, Anchored, Merged;
    if states != [] {
      var init, last := states[..|states| - 1], states[|states| - 1];
      var before := FoldStates(pending, init);
      assert last in states && forall st | st in init :: st in states;
      FoldingKeepsClean(pending, init);
      AnchoringRenames(before, last);
      var s := Anchored(before, last);
      MergedIsClean(Get(before, s.externalId), s);
    }
  }

  lemma ReconcilingKeepsClean(baseline: States, pending: States, now: Time)
    requires CleanStates(baseline) && CleanStates(pending)
    ensures CleanStates(Reconciled(baseline, pending, now))
  {
    var tracked := Reconciled(baseline, pending, now);
    hide Clean, Merged, Reconciled;
    forall x | x in tracked ensures Clean(tracked[x].aliases) {
      TrackedAfterReconcile(baseline, pending, now, x);
      if x in pending {
        MergedIsClean(Get(baseline, x), pending[x]);
      }
    }
  }

  lemma {:induction false} EveryRunKeepsClean(settings: Settings, history: seq<Attempt>)
    requires forall k | 0 <= k < |history| :: CleanWorld(history[k].input.world)
    ensures var cursor := AustriaRuns.After(settings, history).cursor; CleanStates(cursor.tracked) && CleanStates(PendingOf(cursor))
  {
    if history != [] {
      var init, a := history[..|history| - 1], history[|history| - 1];
      var cursor := AustriaRuns.After(settings, init).cursor;
      EveryRunKeepsClean(settings, init);
      if Run(settings, a.budget, cursor, a.input).Ok? {
        hide Run, Settle, VisitAll, CleanStates, CleanWorld, ReconcileRecords, Reconciled, Folded;
        var c, s := RunParts(settings, a.budget, cursor, a.input);
        SettleParts(cursor, c, s, a.input.now);
        SweepKeepsClean(StartOf(cursor, c, a.budget), Listed(c.kdqs.Keys), a.input.world, c.through.value);
        if AllListsDone(s.kdqs) {
          ReconcilingKeepsClean(cursor.tracked, s.pending, a.input.now);
        }
      }
    }
  }

  lemma SweepKeepsClean(s: Sweep, urls: seq<Text>, world: World, through: Time)
    requires forall i | 0 <= i < |urls| :: urls[i] in s.kdqs
    requires CleanStates(s.pending) && CleanWorld(world) && VisitAll(s, urls, world, through).Some?
    ensures CleanStates(VisitAll(s, urls, world, through).value.pending)
  {
    hide VisitAll, Clean;
    var states := SweepFolds(s, urls, world, through);
    FoldingKeepsClean(s.pending, states);
  }

  /** Over whole histories, a lot whose deadline lies ahead and that no notice named since the last
      completed catch-up is not announced again, and stays tracked as it was. */
  lemma UnnamedLotIsNotAnnouncedAgain(settings: Settings, history: seq<Attempt>, a: Attempt, x: Text, out: Outcome)
    requires NamedWorld(a.input.world) && forall k | 0 <= k < |history| :: NamedWorld(history[k].input.world)
    requires forall k | 0 <= k < |history| :: CleanWorld(history[k].input.world)
    requires Run(settings, a.budget, AustriaRuns.After(settings, history).cursor, a.input) == Ok(out) && out.cursor.catchup.None?
    requires var cursor := AustriaRuns.After(settings, history).cursor;
             && x in cursor.tracked && FutureDeadline(cursor.tracked[x], a.input.now)
             && OwnVersions(cursor.tracked, StatesOf(FoldedSoFar(settings, history) + FoldedBy(settings, cursor, a)), x) == []
    ensures OnlyRecord(out.records, x, None)
    ensures Get(out.cursor.tracked, x) == Get(AustriaRuns.After(settings, history).cursor.tracked, x)
  {
    hide *;
    var sys, now := AustriaRuns.After(settings, history), a.input.now;
    var items := FoldedSoFar(settings, history) + FoldedBy(settings, sys.cursor, a);
    var c, s := CompletedPending(settings, history, a, x);
    SettleCompletes(sys.cursor, c, s, now, out);
    PendingHasOwnKeys(settings, history, a, s);
    ReconciledRecord(sys.cursor.tracked, s.pending, sys.rows, sys.reconciledAt, now, x);
    TrackedAfterReconcile(sys.cursor.tracked, s.pending, now, x);
    EveryRunKeepsClean(settings, history);
    FoldItemsInPieces(sys.cursor.tracked, FoldedSoFar(settings, history), FoldedBy(settings, sys.cursor, a));
    PendingIsFolded(settings, history);
    FoldingItemsFoldsStates(sys.cursor.tracked, items);
    UntouchedByFold(sys.cursor.tracked, StatesOf(items), x);
    TrackedIsShown(sys, x);
    UnnamedLotIsQuiet(sys.cursor.tracked[x], now);
  }

  lemma {:induction false} UntouchedByFold(pending: States, states: seq<State>, x: Text)
    requires OwnVersions(pending, states, x) == []
    ensures Get(FoldStates(pending, states), x) == Get(pending, x)
  {
    hide Anchored, Merged;
    if states != [] {
      UntouchedByFold(pending, states[..|states| - 1], x);
    }
  }

  lemma TrackedIsShown(sys: System, x: Text)
    requires Linked(sys.cursor.tracked, sys.rows, sys.reconciledAt) && x in sys.cursor.tracked
    requires CleanStates(sys.cursor.tracked)
    ensures Get(sys.cursor.tracked, x) == Some(sys.cursor.tracked[x])
    ensures sys.cursor.tracked[x].wasVisible && Clean(sys.cursor.tracked[x].aliases)
  {
    assert LotLinked(Get(sys.cursor.tracked, x), RowAt(sys.rows, x), x, sys.reconciledAt);
  }
}
