/** The consumer of every connector: a table with one row per (source, lot), overwritten
    by each observation that carries an explicit actionability. */
module Lifecycle {
  import opened Common

  datatype Record =
    | NotAnObject
    | Record(source: Text, externalId: Text, isActionable: Option<bool>, status: string, reason: string,
             updatedAt: Text, publishedAt: Text)

  datatype Row = Row(actionable: bool, status: string, reason: string, updatedAt: Text, observedAt: Time)

  type Key = (Text, Text)
  type Rows = map<Key, Row>

  /** Records outside the lifecycle protocol are passed over. */
  predicate Relevant(r: Record) {
    r.Record? && r.isActionable.Some? && r.source != 0 && r.externalId != 0
  }

  /** An observation that puts its lot on show. */
  predicate Opens(r: Record) {
    r.Record? && r.isActionable == Some(true)
  }

  /** An explicit observation of one source about lot x. */
  predicate Observes(r: Record, source: Text, x: Text) {
    r.Record? && r.source == source && r.externalId == x && r.isActionable.Some?
  }

  /** The one observation of lot x among the records, if any. */
  ghost predicate OnlyRecord(records: seq<Record>, x: Text, record: Option<Record>) {
    forall r: Record :: r in records && r.Record? && r.externalId == x <==> record == Some(r)
  }

  function KeyOf(r: Record): Key
    requires Relevant(r)
  {
    (r.source, r.externalId)
  }

  function RowOf(r: Record, observed: Time): Row
    requires Relevant(r)
  {
    Row(r.isActionable.value, r.status, r.reason,
        if r.updatedAt != 0 then r.updatedAt else r.publishedAt, observed)
  }

  function Put(rows: Rows, r: Record, observed: Time): Rows {
    if Relevant(r) then rows[KeyOf(r) := RowOf(r, observed)] else rows
  }

  function Folded(rows: Rows, records: seq<Record>, observed: Time): Rows {
    if records == [] then rows
    else Put(Folded(rows, records[..|records| - 1], observed), records[|records| - 1], observed)
  }

  function RelevantCount(records: seq<Record>): nat {
    if records == [] then 0
    else RelevantCount(records[..|records| - 1]) + if Relevant(records[|records| - 1]) then 1 else 0
  }

  class LifecycleTable {
    var rows: Rows

    constructor ()
      ensures rows == map[]
    {
      rows := map[];
    }

    method Persist(records: seq<Record>, observed: Time) returns (written: nat)
      modifies this
      ensures rows == Folded(old(rows), records, observed)
      ensures written == RelevantCount(records)
    {
      written := 0;
      for i := 0 to |records|
        invariant rows == Folded(old(rows), records[..i], observed)
        invariant written == RelevantCount(records[..i])
      {
        var r := records[i];
        assert records[..i + 1][..i] == records[..i];
        if Relevant(r) {
          rows := rows[KeyOf(r) := RowOf(r, observed)];
          written := written + 1;
        }
      }
      assert records[..|records|] == records;
    }
  }

  ghost predicate Touches(r: Record, key: Key) {
    Relevant(r) && KeyOf(r) == key
  }

  /** A key no record names keeps its row, or stays without one. */
  lemma {:induction false} UntouchedRowStays(rows: Rows, records: seq<Record>, observed: Time, key: Key)
    requires forall i | 0 <= i < |records| :: !Touches(records[i], key)
    ensures key in Folded(rows, records, observed) <==> key in rows
    ensures key in rows ==> Folded(rows, records, observed)[key] == rows[key]
  {
    if records != [] {
      UntouchedRowStays(rows, records[..|records| - 1], observed, key);
      assert !Touches(records[|records| - 1], key);
    }
  }

  /** The last record that names a key decides its row, whatever the earlier ones said. */
  lemma {:induction false} LastRecordWins(rows: Rows, records: seq<Record>, observed: Time, key: Key, i: nat)
    requires i < |records| && Touches(records[i], key)
    requires forall j | i < j < |records| :: !Touches(records[j], key)
    ensures key in Folded(rows, records, observed)
    ensures Folded(rows, records, observed)[key] == RowOf(records[i], observed)
    ensures var row, r := Folded(rows, records, observed)[key], records[i];
            && r.isActionable == Some(row.actionable) && row.status == r.status && row.reason == r.reason
            && row.updatedAt == (if r.updatedAt == 0 then r.publishedAt else r.updatedAt) && row.observedAt == observed
  {
    var n := |records| - 1;
    if i < n {
      LastRecordWins(rows, records[..n], observed, key, i);
      assert !Touches(records[n], key);
    }
  }

  /** The places of the records that say outright whether a named lot of a named source can be acted on. */
  ghost function Explicit(records: seq<Record>): set<nat> {
    set i: nat | i < |records| && records[i].Record? && records[i].isActionable.Some?
                 && records[i].source != 0 && records[i].externalId != 0
  }

  /** Exactly the explicit records are counted, each once, whether or not a later one overwrites them. */
  lemma {:induction false} ExplicitRecordsAreCounted(records: seq<Record>)
    ensures RelevantCount(records) == |Explicit(records)|
  {
    if records != [] {
      var n := |records| - 1;
      ExplicitRecordsAreCounted(records[..n]);
      assert Explicit(records) == Explicit(records[..n]) + if Relevant(records[n]) then {n} else {};
    }
  }

  lemma NothingFolded(rows: Rows, observed: Time)
    ensures Folded(rows, [], observed) == rows
  {
  }

  /** Persisting in two batches is persisting once. */
  lemma {:induction false} FoldedInBatches(rows: Rows, first: seq<Record>, second: seq<Record>, observed: Time)
    ensures Folded(rows, first + second, observed) == Folded(Folded(rows, first, observed), second, observed)
  {
    if second == [] {
      assert first + second == first;
    } else {
      var n := |second| - 1;
      FoldedInBatches(rows, first, second[..n], observed);
      assert (first + second)[..|first + second| - 1] == first + second[..n];
    }
  }

  // ---- one source's view -------------------------------------------------------

  /** What the consumer shows for a lot of one source. */
  function Shown(rows: Rows, source: Text, id: Text): bool {
    (source, id) in rows && rows[(source, id)].actionable
  }

  /** A batch of one connector: every record is explicit, from that source, and no lot occurs twice. */
  ghost predicate Batch(records: seq<Record>, source: Text) {
    && (forall i | 0 <= i < |records| :: Relevant(records[i]) && records[i].source == source)
    && (forall i, j | 0 <= i < j < |records| :: records[i].externalId != records[j].externalId)
  }

  /** Folding a batch sets the row of each of its lots ... */
  lemma BatchSets(rows: Rows, records: seq<Record>, source: Text, observed: Time, i: nat)
    requires Batch(records, source) && i < |records|
    ensures (source, records[i].externalId) in Folded(rows, records, observed)
    ensures Folded(rows, records, observed)[(source, records[i].externalId)] == RowOf(records[i], observed)
  {
    LastRecordWins(rows, records, observed, (source, records[i].externalId), i);
  }

  /** ... and leaves every other lot of the source as it was. */
  lemma BatchKeeps(rows: Rows, records: seq<Record>, source: Text, observed: Time, id: Text)
    requires Batch(records, source)
    requires forall i | 0 <= i < |records| :: records[i].externalId != id
    ensures (source, id) in Folded(rows, records, observed) <==> (source, id) in rows
    ensures (source, id) in rows ==> Folded(rows, records, observed)[(source, id)] == rows[(source, id)]
  {
    UntouchedRowStays(rows, records, observed, (source, id));
  }

  // ---- emission in key order -----------------------------------------------------

  /** One optional observation per lot, in the order of the listing. */
  function Emit(keys: seq<Text>, emitter: Text -> Option<Record>): seq<Record> {
    if keys == [] then []
    else
      var last := emitter(keys[|keys| - 1]);
      Emit(keys[..|keys| - 1], emitter) + (if last.Some? then [last.value] else [])
  }

  lemma EmitStart(keys: seq<Text>, emitter: Text -> Option<Record>)
    ensures Emit(keys[..0], emitter) == []
  {
  }

  lemma EmitNext(keys: seq<Text>, i: nat, emitter: Text -> Option<Record>)
    requires i < |keys|
    ensures Emit(keys[..i + 1], emitter)
         == Emit(keys[..i], emitter) + (if emitter(keys[i]).Some? then [emitter(keys[i]).value] else [])
  {
    assert keys[..i + 1][..i] == keys[..i];
  }

  ghost predicate EmitsOwn(emitter: Text -> Option<Record>, source: Text) {
    forall x | emitter(x).Some? ::
      Relevant(emitter(x).value) && emitter(x).value.source == source && emitter(x).value.externalId == x
  }

  lemma {:induction false} EmitIsBatch(keys: seq<Text>, emitter: Text -> Option<Record>, source: Text)
    requires EmitsOwn(emitter, source)
    requires forall i, j | 0 <= i < j < |keys| :: keys[i] != keys[j]
    ensures Batch(Emit(keys, emitter), source)
    ensures forall r :: r in Emit(keys, emitter) <==> r.Record? && r.externalId in keys && emitter(r.externalId) == Some(r)
  {
    if keys != [] {
      var init := keys[..|keys| - 1];
      var x := keys[|keys| - 1];
      EmitIsBatch(init, emitter, source);
      assert keys == init + [x] && x !in init;
      var records := Emit(keys, emitter);
      forall i, j | 0 <= i < j < |records| ensures records[i].externalId != records[j].externalId {
        assert records[i] in Emit(init, emitter);
      }
    }
  }

  /** What an emission does to the row of one lot. */
  lemma EmitRow(rows: Rows, keys: seq<Text>, emitter: Text -> Option<Record>, source: Text, observed: Time, x: Text)
    requires EmitsOwn(emitter, source)
    requires forall i, j | 0 <= i < j < |keys| :: keys[i] != keys[j]
    ensures
      var after := Folded(rows, Emit(keys, emitter), observed);
      if x in keys && emitter(x).Some? then
        (source, x) in after && after[(source, x)] == RowOf(emitter(x).value, observed)
      else
        ((source, x) in after <==> (source, x) in rows)
        && ((source, x) in rows ==> after[(source, x)] == rows[(source, x)])
  {
    var records := Emit(keys, emitter);
    EmitIsBatch(keys, emitter, source);
    if x in keys && emitter(x).Some? {
      assert emitter(x).value in records;
      var i :| 0 <= i < |records| && records[i] == emitter(x).value;
      BatchSets(rows, records, source, observed, i);
    } else {
      forall i | 0 <= i < |records| ensures records[i].externalId != x {
        assert records[i] in records;
      }
      BatchKeeps(rows, records, source, observed, x);
    }
  }
}
