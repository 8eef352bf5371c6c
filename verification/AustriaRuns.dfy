/** Austria: whole runs.  A run resumes or freezes a catch-up, sweeps it within its budget, and
    reconciles with the consumer only when every list of the frozen catalogue is done. */
module AustriaRuns {
  import opened Common
  import opened Lifecycle
  import opened Sorting
  import opened AustriaState
  import opened AustriaCatchup

  const SOURCE: Text := 3

  /** `lists` is the frozen catalogue: each publisher list with the dataset it belongs to. */
  datatype Catchup = Catchup(through: Option<Time>, lists: map<Text, Text>, kdqs: map<Text, Progress>, pending: States)

  datatype Cursor = Cursor(observed: Option<Time>, lists: map<Text, Text>, kdqObserved: map<Text, Time>, tracked: States,
                           catchup: Option<Catchup>)

  const EMPTY := Cursor(None, map[], map[], map[], None)

  datatype Outcome = Outcome(records: seq<Record>, cursor: Cursor)

  /** What a run finds: the catalogue (None when discovery is rejected), the publishers, the clock. */
  datatype Input = Input(catalogue: Option<map<Text, Text>>, world: World, now: Time)

  datatype Settings = Settings(lookback: Time, overlap: Time)

  // ---- reconciliation ------------------------------------------------------------------------

  function RecordOf(s: State, actionable: bool, status: string): Record {
    Record(SOURCE, s.externalId, Some(actionable), status,
           if actionable then "future_submission_deadline" else status, s.updated, s.firstPublished)
  }

  predicate KeepsWaiting(status: string) {
    status == "deadline_missing" || status == "deadline_invalid"
  }

  /** What happens to one lot: the observation, if any, and the state that stays tracked, if any. */
  function ReconcileOne(previous: Option<State>, pending: Option<State>, now: Time): (Option<Record>, Option<State>) {
    if pending.Some? then
      var incoming := Merged(previous, pending.value);
      var (actionable, reason) := DeadlineStatus(incoming, now);
      var shown := incoming.(wasVisible := true);
      if actionable then
        (if previous != Some(shown) then Some(RecordOf(shown, true, "open")) else None, Some(shown))
      else if previous.Some? && previous.value.wasVisible then
        (Some(RecordOf(shown, false, reason)), if KeepsWaiting(reason) then Some(shown) else None)
      else (None, None)
    else if previous.None? then (None, None)
    else
      var (actionable, reason) := DeadlineStatus(previous.value, now);
      if actionable then (None, previous)
      else (if previous.value.wasVisible then Some(RecordOf(previous.value, false, reason)) else None,
            if KeepsWaiting(reason) then previous else None)
  }

  function Emitter(baseline: States, pending: States, now: Time): Text -> Option<Record> {
    (x: Text) => ReconcileOne(Get(baseline, x), Get(pending, x), now).0
  }

  function AllKeys(baseline: States, pending: States): set<Text> {
    baseline.Keys + pending.Keys
  }

  function ReconcileRecords(baseline: States, pending: States, now: Time): seq<Record> {
    Emit(Listed(AllKeys(baseline, pending)), Emitter(baseline, pending, now))
  }

  function Reconciled(baseline: States, pending: States, now: Time): States {
    map x | x in AllKeys(baseline, pending) && ReconcileOne(Get(baseline, x), Get(pending, x), now).1.Some?
      :: ReconcileOne(Get(baseline, x), Get(pending, x), now).1.value
  }

  /** The tracked states once the lots of `done` have been reconciled. */
  ghost predicate ReconciledUpTo(tracked: States, baseline: States, pending: States, now: Time, done: set<Text>) {
    forall x :: Get(tracked, x) ==
      if x in done then ReconcileOne(Get(baseline, x), Get(pending, x), now).1 else Get(baseline, x)
  }

  method ReconcileLot(tracked: States, key: Text, pending: States, now: Time) returns (record: Option<Record>, r: States)
    ensures var one := ReconcileOne(Get(tracked, key), Get(pending, key), now);
            record == one.0 && Get(r, key) == one.1 && forall x :: x != key ==> Get(r, x) == Get(tracked, x)
  {
    var previous, incoming := Get(tracked, key), Get(pending, key);
    r, record := tracked, None;
    if incoming.Some? {
      var merged := MergeState(previous, incoming.value);
      var (actionable, reason) := DeadlineStatus(merged, now);
      if actionable {
        merged := merged.(wasVisible := true);
        r := r[key := merged];
        if previous != Some(merged) {
          record := Some(RecordOf(merged, true, "open"));
        }
        return;
      }
      if previous.Some? && previous.value.wasVisible {
        merged := merged.(wasVisible := true);
        if KeepsWaiting(reason) {
          r := r[key := merged];
        } else {
          r := r - {key};
        }
        record := Some(RecordOf(merged, false, reason));
      } else {
        r := r - {key};
      }
      return;
    }
    if previous.None? {
      return;
    }
    var (actionable, reason) := DeadlineStatus(previous.value, now);
    if actionable {
      return;
    }
    if previous.value.wasVisible {
      record := Some(RecordOf(previous.value, false, reason));
    }
    if !KeepsWaiting(reason) {
      r := r - {key};
    }
  }

  method Reconcile(baseline: States, pending: States, now: Time) returns (records: seq<Record>, tracked: States)
    ensures records == ReconcileRecords(baseline, pending, now)
    ensures tracked == Reconciled(baseline, pending, now)
  {
    hide Emit, Listed, ReconcileOne;
    var keys := Listed(AllKeys(baseline, pending));
    tracked, records := baseline, [];
    EmitStart(keys, Emitter(baseline, pending, now));
    ghost var done: set<Text> := {};
    for i := 0 to |keys|
      invariant records == Emit(keys[..i], Emitter(baseline, pending, now))
      invariant ReconciledUpTo(tracked, baseline, pending, now, done)
      invariant forall k | 0 <= k < i :: keys[k] in done
      invariant forall k | i <= k < |keys| :: keys[k] !in done
    {
      EmitNext(keys, i, Emitter(baseline, pending, now));
      assert Get(tracked, keys[i]) == Get(baseline, keys[i]);
      var record;
      record, tracked := ReconcileLot(tracked, keys[i], pending, now);
      assert Emitter(baseline, pending, now)(keys[i]) == record;
      if record.Some? {
        records := records + [record.value];
      }
      done := done + {keys[i]};
    }
    assert keys[..|keys|] == keys;
    EverythingReconciled(tracked, baseline, pending, now, keys, done);
  }

  lemma EverythingReconciled(tracked: States, baseline: States, pending: States, now: Time, keys: seq<Text>, done: set<Text>)
    requires ReconciledUpTo(tracked, baseline, pending, now, done)
    requires forall x :: x in keys <==> x in AllKeys(baseline, pending)
    requires forall k | 0 <= k < |keys| :: keys[k] in done
    ensures tracked == Reconciled(baseline, pending, now)
  {
    forall x ensures Get(tracked, x) == Get(Reconciled(baseline, pending, now), x) {
      assert x in keys ==> x in done;
    }
    SameLookupsSameMap(tracked, Reconciled(baseline, pending, now));
  }

  lemma SameLookupsSameMap(a: States, b: States)
    requires forall x :: Get(a, x) == Get(b, x)
    ensures a == b
  {
    forall x ensures x in a <==> x in b ensures x in a ==> a[x] == b[x] {
      assert Get(a, x) == Get(b, x);
    }
  }

  // ---- a run ---------------------------------------------------------------------------------------

  function NewCatchup(settings: Settings, cursor: Cursor, lists: map<Text, Text>, now: Time): Catchup {
    Catchup(Some(WholeSecond(now)), lists,
            map u | u in lists :: Progress(lists[u], Some(WholeSecond(
                                    if u in cursor.kdqObserved then cursor.kdqObserved[u] - settings.overlap
                                    else now - settings.lookback)), None, false),
            cursor.tracked)
  }

  /** The catch-up a run works on, or None when it must raise before any list is read. */
  function Resumed(settings: Settings, cursor: Cursor, input: Input): Option<Catchup> {
    if cursor.observed.Some? && cursor.observed.value > input.now + 5 * MINUTE then None
    else
      var c := if cursor.catchup.Some? then cursor.catchup
               else if input.catalogue.None? then None
               else Some(NewCatchup(settings, cursor, input.catalogue.value, input.now));
      if c.None? || c.value.through.None? || c.value.through.value > input.now + 5 * MINUTE || c.value.kdqs == map[]
      then None else c
  }

  function StartOf(cursor: Cursor, c: Catchup, budget: nat): Sweep {
    Sweep(c.kdqs, c.pending, cursor.kdqObserved, budget, 0, 0, 0, [])
  }

  predicate AllListsDone(kdqs: map<Text, Progress>) {
    forall u | u in kdqs :: kdqs[u].done
  }

  function Settle(cursor: Cursor, c: Catchup, s: Sweep, now: Time): Result<Outcome>
    requires c.through.Some?
  {
    if AllListsDone(s.kdqs) then
      Ok(Outcome(ReconcileRecords(cursor.tracked, s.pending, now),
                 Cursor(Some(WholeSecond(c.through.value)), c.lists, s.observed,
                        Reconciled(cursor.tracked, s.pending, now), None)))
    else if s.progressed == 0 && s.completed == 0 && s.errors > 0 then Err("catchup made no progress")
    else
      Ok(Outcome([], Cursor(cursor.observed, c.lists, s.observed, cursor.tracked,
                            Some(c.(kdqs := s.kdqs, pending := s.pending)))))
  }

  function Swept(cursor: Cursor, c: Catchup, world: World, budget: nat): Option<Sweep>
    requires c.through.Some?
  {
    VisitAll(StartOf(cursor, c, budget), Listed(c.kdqs.Keys), world, c.through.value)
  }

  function Run(settings: Settings, budget: nat, cursor: Cursor, input: Input): Result<Outcome> {
    var c := Resumed(settings, cursor, input);
    if c.None? then Err("cursor not advanced")
    else
      var s := Swept(cursor, c.value, input.world, budget);
      if s.None? then Err("invalid KDQ catchup bounds") else Settle(cursor, c.value, s.value, input.now)
  }

  class AustrianConnector {
    const settings: Settings
    const maxFetches: nat

    /** Raises on a cap below one; the model's constructor is called with a legal cap. */
    constructor (settings: Settings, maxFetches: nat)
      requires maxFetches >= 1
      ensures this.settings == settings && this.maxFetches == maxFetches
    {
      this.settings, this.maxFetches := settings, maxFetches;
    }

    method FetchIncremental(cursor: Cursor, input: Input) returns (r: Result<Outcome>)
      ensures r == Run(settings, maxFetches, cursor, input)
    {
      hide VisitAll, Listed, ReconcileRecords, Reconciled;
      if cursor.observed.Some? && cursor.observed.value > input.now + 5 * MINUTE {
        return Err("cursor not advanced");
      }
      var c;
      if cursor.catchup.Some? {
        c := cursor.catchup.value;
      } else {
        if input.catalogue.None? {
          return Err("cursor not advanced");
        }
        c := NewCatchup(settings, cursor, input.catalogue.value, input.now);
      }
      if c.through.None? || c.through.value > input.now + 5 * MINUTE || c.kdqs == map[] {
        return Err("cursor not advanced");
      }
      r := SweepAndSettle(cursor, c, input.world, input.now);
    }

    method SweepAndSettle(cursor: Cursor, c: Catchup, world: World, now: Time) returns (r: Result<Outcome>)
      requires c.through.Some?
      ensures var s := Swept(cursor, c, world, maxFetches);
              r == if s.None? then Err("invalid KDQ catchup bounds") else Settle(cursor, c, s.value, now)
    {
      hide VisitAll, Listed, ReconcileRecords, Reconciled;
      var book := new SweepBook(c.kdqs, c.pending, cursor.kdqObserved, maxFetches);
      var ok := book.SweepLists(Listed(c.kdqs.Keys), world, c.through.value);
      if !ok {
        return Err("invalid KDQ catchup bounds");
      }
      if !AllListsDone(book.kdqs) {
        if book.progressed == 0 && book.completed == 0 && book.errors > 0 {
          return Err("catchup made no progress");
        }
        return Ok(Outcome([], Cursor(cursor.observed, c.lists, book.observed, cursor.tracked,
                                     Some(c.(kdqs := book.kdqs, pending := book.pending)))));
      }
      var records, tracked := Reconcile(cursor.tracked, book.pending, now);
      r := Ok(Outcome(records, Cursor(Some(WholeSecond(c.through.value)), c.lists, book.observed, tracked, None)));
    }
  }

  /** No observation and no change of a tracked state leaves a run before every list is done. */
  lemma NothingIsReleasedEarly(settings: Settings, budget: nat, cursor: Cursor, input: Input)
    requires Run(settings, budget, cursor, input).Ok?
    ensures var out := Run(settings, budget, cursor, input).value;
            && (out.cursor.catchup.Some? ==>
                  && out.records == [] && out.cursor.tracked == cursor.tracked && out.cursor.observed == cursor.observed
                  && !AllListsDone(out.cursor.catchup.value.kdqs))
            && (out.cursor.catchup.None? ==>
                  AllListsDone(Swept(cursor, Resumed(settings, cursor, input).value, input.world, budget).value.kdqs))
  {
    hide Swept, ReconcileRecords, Reconciled;
  }

  /** The pending states a run starts from. */
  function PendingOf(cursor: Cursor): States {
    if cursor.catchup.Some? then cursor.catchup.value.pending else cursor.tracked
  }

  /** A successful run: the catch-up it resumed or froze, and what its sweep left. */
  lemma RunParts(settings: Settings, budget: nat, cursor: Cursor, input: Input) returns (c: Catchup, s: Sweep)
    requires Run(settings, budget, cursor, input).Ok?
    ensures Resumed(settings, cursor, input) == Some(c) && c.through.Some? && c.pending == PendingOf(cursor)
    ensures VisitAll(StartOf(cursor, c, budget), Listed(c.kdqs.Keys), input.world, c.through.value) == Some(s)
    ensures Run(settings, budget, cursor, input) == Settle(cursor, c, s, input.now)
  {
    hide VisitAll, Settle, Listed;
    c := Resumed(settings, cursor, input).value;
    s := Swept(cursor, c, input.world, budget).value;
  }

  /** What a successful run stores and says. */
  lemma SettleParts(cursor: Cursor, c: Catchup, s: Sweep, now: Time)
    requires c.through.Some? && Settle(cursor, c, s, now).Ok?
    ensures var out := Settle(cursor, c, s, now).value;
            if AllListsDone(s.kdqs) then
              && out.cursor.catchup.None?
              && out.records == ReconcileRecords(cursor.tracked, s.pending, now)
              && out.cursor.tracked == Reconciled(cursor.tracked, s.pending, now)
            else
              && out.records == [] && out.cursor.tracked == cursor.tracked
              && out.cursor.catchup == Some(c.(kdqs := s.kdqs, pending := s.pending))
  {
  }

  // ---- histories of runs ---------------------------------------------------------------------------

  /** The cursor, the consumer's table and the instant of the last completed reconcile. */
  datatype System = System(cursor: Cursor, rows: Rows, reconciledAt: Time)

  datatype Attempt = Attempt(input: Input, budget: nat)

  function After(settings: Settings, history: seq<Attempt>): System {
    if history == [] then System(EMPTY, map[], 0)
    else Step(settings, After(settings, history[..|history| - 1]), history[|history| - 1])
  }

  function Step(settings: Settings, sys: System, a: Attempt): System {
    var r := Run(settings, a.budget, sys.cursor, a.input);
    if r.Err? then sys
    else System(r.value.cursor, Folded(sys.rows, r.value.records, a.input.now),
                if r.value.cursor.catchup.None? then a.input.now else sys.reconciledAt)
  }
}
