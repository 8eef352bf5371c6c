/** Austria: diff emission keeps the consumer exact.  Unchanged lots are not announced again, and
    still, after any sequence of runs, the lots on show are the tracked lots whose deadline was
    valid and in the future at the last completed reconcile, each with its current row. */
module AustriaView {
  import opened Common
  import opened Lifecycle
  import opened Sorting
  import opened AustriaState
  import opened AustriaCatchup
  import opened AustriaRuns
  import opened AustriaIdentity

  // ---- states stored under their own identity ------------------------------------------------

  ghost predicate OwnKeys(tracked: States) {
    0 !in tracked && forall x | x in tracked :: tracked[x].externalId == x
  }

  /** The parser never yields a state without identity. */
  ghost predicate NamedWorld(world: World) {
    forall st | YieldedBy(world, st) :: st.externalId != 0
  }

  lemma AnchoredStaysNamed(pending: States, state: State)
    requires OwnKeys(pending) && state.externalId != 0
    ensures Anchored(pending, state).externalId != 0
  {
    var index := AliasIndex(pending);
    var matched := set a | a in state.aliases && a in index :: index[a];
    if state.legacy && |matched| == 1 {
      var key := Least(matched);
      var a :| a in index && index[a] == key;
      assert key in Owners(pending, a);
    }
  }

  lemma {:induction false} FoldingKeepsOwnKeys(pending: States, states: seq<State>)
    requires OwnKeys(pending) && forall st | st in states :: st.externalId != 0
    ensures OwnKeys(FoldStates(pending, states))
  {
    if states != [] {
      var init := states[..|states| - 1];
      assert forall st | st in init :: st in states;
      FoldingKeepsOwnKeys(pending, init);
      AnchoredStaysNamed(FoldStates(pending, init), states[|states| - 1]);
      hide Anchored;
    }
  }

  lemma SweepKeepsOwnKeys(s: Sweep, urls: seq<Text>, world: World, through: Time)
    requires forall i | 0 <= i < |urls| :: urls[i] in s.kdqs
    requires OwnKeys(s.pending) && NamedWorld(world) && VisitAll(s, urls, world, through).Some?
    ensures OwnKeys(VisitAll(s, urls, world, through).value.pending)
  {
    hide VisitAll;
    var states := SweepFolds(s, urls, world, through);
    FoldingKeepsOwnKeys(s.pending, states);
  }

  // ---- one lot ---------------------------------------------------------------------------------

  predicate FutureDeadline(s: State, now: Time) {
    s.deadline.At? && s.deadline.time > now
  }

  /** Two rows that say the same, whenever they were written. */
  predicate SameContent(a: Row, b: Row) {
    a.(observedAt := 0) == b.(observedAt := 0)
  }

  /** The row that shows a state as open. */
  function OpenRow(s: State): Row {
    Row(true, "open", "future_submission_deadline", if s.updated != 0 then s.updated else s.firstPublished, 0)
  }

  /** A tracked state and the consumer's row of the lot, after a reconcile at `at`. */
  ghost predicate LotLinked(tracked: Option<State>, row: Option<Row>, x: Text, at: Time) {
    && (tracked.Some? ==>
          && x != 0 && tracked.value.externalId == x && tracked.value.wasVisible
          && (tracked.value.deadline.At? ==> tracked.value.deadline.time > at))
    && ((row.Some? && row.value.actionable) <==> (tracked.Some? && tracked.value.deadline.At?))
    && (tracked.Some? && tracked.value.deadline.At? ==>
          SameContent(row.value, OpenRow(tracked.value)))
  }

  /** Reconciling one lot moves its link to the new instant, whatever the clock did meanwhile. */
  lemma ReconcilingOneLot(previous: Option<State>, pending: Option<State>, row: Option<Row>, x: Text, at: Time, now: Time)
    requires LotLinked(previous, row, x, at) && x != 0
    requires pending.Some? ==> pending.value.externalId == x
    ensures var (record, tracked) := ReconcileOne(previous, pending, now);
            && (record.Some? ==> Relevant(record.value) && record.value.source == SOURCE && record.value.externalId == x)
            && LotLinked(tracked, if record.Some? then Some(RowOf(record.value, now)) else row, x, now)
  {
  }

  // ---- the whole table ---------------------------------------------------------------------------

  function RowAt(rows: Rows, x: Text): Option<Row> {
    if (SOURCE, x) in rows then Some(rows[(SOURCE, x)]) else None
  }

  ghost predicate Linked(tracked: States, rows: Rows, at: Time) {
    forall x :: LotLinked(Get(tracked, x), RowAt(rows, x), x, at)
  }

  lemma LinkedHasOwnKeys(tracked: States, rows: Rows, at: Time)
    requires Linked(tracked, rows, at)
    ensures OwnKeys(tracked)
  {
    forall x | x in tracked ensures x != 0 && tracked[x].externalId == x {
      assert LotLinked(Get(tracked, x), RowAt(rows, x), x, at);
    }
  }

  lemma EmitterIsOwn(baseline: States, pending: States, rows: Rows, at: Time, now: Time)
    requires Linked(baseline, rows, at) && OwnKeys(pending)
    ensures EmitsOwn(Emitter(baseline, pending, now), SOURCE)
  {
    LinkedHasOwnKeys(baseline, rows, at);
    var emitter := Emitter(baseline, pending, now);
    forall x | emitter(x).Some?
      ensures Relevant(emitter(x).value) && emitter(x).value.source == SOURCE && emitter(x).value.externalId == x
    {
      assert LotLinked(Get(baseline, x), RowAt(rows, x), x, at);
      assert x in baseline || x in pending;
      ReconcilingOneLot(Get(baseline, x), Get(pending, x), RowAt(rows, x), x, at, now);
    }
  }

  /** The row of one lot after the observations of a reconcile are persisted. */
  lemma RowAfterReconcile(baseline: States, pending: States, rows: Rows, at: Time, now: Time, x: Text)
    requires Linked(baseline, rows, at) && OwnKeys(pending)
    ensures var record := ReconcileOne(Get(baseline, x), Get(pending, x), now).0;
            && (record.Some? ==> Relevant(record.value))
            && RowAt(Folded(rows, ReconcileRecords(baseline, pending, now), now), x)
               == if record.Some? then Some(RowOf(record.value, now)) else RowAt(rows, x)
  {
    hide Emit, Folded, Linked, OwnKeys, ReconcileOne, RowOf, Relevant;
    var keys := Listed(AllKeys(baseline, pending));
    var emitter := Emitter(baseline, pending, now);
    EmitterIsOwn(baseline, pending, rows, at, now);
    AscendingIsDistinct(keys);
    EmitRow(rows, keys, emitter, SOURCE, now, x);
    assert emitter(x) == ReconcileOne(Get(baseline, x), Get(pending, x), now).0;
    UnheldLotIsSilent(baseline, pending, now, x);
  }

  lemma UnheldLotIsSilent(baseline: States, pending: States, now: Time, x: Text)
    ensures x !in AllKeys(baseline, pending) ==> ReconcileOne(Get(baseline, x), Get(pending, x), now).0.None?
  {
  }

  lemma TrackedAfterReconcile(baseline: States, pending: States, now: Time, x: Text)
    ensures Get(Reconciled(baseline, pending, now), x) == ReconcileOne(Get(baseline, x), Get(pending, x), now).1
  {
  }

  lemma ReconcileKeepsLinks(baseline: States, pending: States, rows: Rows, at: Time, now: Time)
    requires Linked(baseline, rows, at) && OwnKeys(pending)
    ensures Linked(Reconciled(baseline, pending, now), Folded(rows, ReconcileRecords(baseline, pending, now), now), now)
  {
    LinkedHasOwnKeys(baseline, rows, at);
    var tracked, after := Reconciled(baseline, pending, now), Folded(rows, ReconcileRecords(baseline, pending, now), now);
    assert OwnKeys(pending);
    hide Reconciled, ReconcileRecords, Folded, RowOf;
    forall x ensures LotLinked(Get(tracked, x), RowAt(after, x), x, now) {
      TrackedAfterReconcile(baseline, pending, now, x);
      RowAfterReconcile(baseline, pending, rows, at, now, x);
      if x != 0 {
        assert LotLinked(Get(baseline, x), RowAt(rows, x), x, at);
        ReconcilingOneLot(Get(baseline, x), Get(pending, x), RowAt(rows, x), x, at, now);
      } else {
        assert LotLinked(Get(baseline, x), RowAt(rows, x), x, at);
      }
    }
  }

  // ---- every run -------------------------------------------------------------------------------------

  ghost predicate Consistent(sys: System) {
    && Linked(sys.cursor.tracked, sys.rows, sys.reconciledAt)
    && (sys.cursor.catchup.Some? ==> OwnKeys(sys.cursor.catchup.value.pending))
  }

  lemma RunKeepsConsistent(settings: Settings, sys: System, a: Attempt)
    requires Consistent(sys) && NamedWorld(a.input.world)
    ensures Consistent(Step(settings, sys, a))
  {
    if Run(settings, a.budget, sys.cursor, a.input).Ok? {
      LinkedHasOwnKeys(sys.cursor.tracked, sys.rows, sys.reconciledAt);
      hide Run, Settle, OwnKeys, Linked, VisitAll, ReconcileRecords, Reconciled, NamedWorld, Folded;
      var c, s := RunParts(settings, a.budget, sys.cursor, a.input);
      SettleParts(sys.cursor, c, s, a.input.now);
      assert OwnKeys(PendingOf(sys.cursor));
      SweepKeepsOwnKeys(StartOf(sys.cursor, c, a.budget), Listed(c.kdqs.Keys), a.input.world, c.through.value);
      if AllListsDone(s.kdqs) {
        ReconcileKeepsLinks(sys.cursor.tracked, s.pending, sys.rows, sys.reconciledAt, a.input.now);
      } else {
        NothingFolded(sys.rows, a.input.now);
      }
    }
  }

  lemma NothingYet()
    ensures Consistent(System(EMPTY, map[], 0))
  {
  }

  lemma {:induction false} EveryRunKeepsConsistent(settings: Settings, history: seq<Attempt>)
    requires forall i | 0 <= i < |history| :: NamedWorld(history[i].input.world)
    ensures Consistent(After(settings, history))
  {
    hide Consistent, Step, NamedWorld;
    if history == [] {
      NothingYet();
    } else {
      EveryRunKeepsConsistent(settings, history[..|history| - 1]);
      RunKeepsConsistent(settings, After(settings, history[..|history| - 1]), history[|history| - 1]);
    }
  }

  /** Diff emission is exact over whole runs, with any failures, budgets and clock readings. */
  lemma ViewIsExact(settings: Settings, history: seq<Attempt>, x: Text)
    requires forall i | 0 <= i < |history| :: NamedWorld(history[i].input.world)
    ensures var sys := After(settings, history);
            && (Shown(sys.rows, SOURCE, x)
                <==> x in sys.cursor.tracked && FutureDeadline(sys.cursor.tracked[x], sys.reconciledAt))
            && (Shown(sys.rows, SOURCE, x) ==>
                  SameContent(sys.rows[(SOURCE, x)], OpenRow(sys.cursor.tracked[x])))
  {
    EveryRunKeepsConsistent(settings, history);
    var sys := After(settings, history);
    assert LotLinked(Get(sys.cursor.tracked, x), RowAt(sys.rows, x), x, sys.reconciledAt);
    hide After, OpenRow;
  }
}
