/** Socrata: keyset pagination equals the unpaged query.  Every page asks for the rows beyond the
    last (timestamp, id) of the page before it. */
module Socrata {
  import opened Common

  /** A row of the published table; an empty stamp or id is 0. */
  datatype Row = Row(stamp: Text, id: Text, content: int)

  datatype Cursor = Cursor(stamp: Text, id: Text)

  predicate Less(a: Cursor, b: Cursor) {
    a.stamp < b.stamp || (a.stamp == b.stamp && a.id < b.id)
  }

  function Position(row: Row): Cursor {
    Cursor(row.stamp, row.id)
  }

  /** The table in the publisher's order, with distinct (stamp, id) pairs, both present. */
  ghost predicate Ordered(table: seq<Row>) {
    && (forall i | 0 <= i < |table| :: table[i].stamp != 0 && table[i].id != 0)
    && (forall i, j | 0 <= i < j < |table| :: Less(Position(table[i]), Position(table[j])))
  }

  /** The where clause: strictly beyond `after` when there is one, otherwise from the start stamp on. */
  predicate IncrementalWhere(row: Row, start: Text, after: Option<Cursor>) {
    if after.Some? then
      row.stamp > after.value.stamp || (row.stamp == after.value.stamp && row.id > after.value.id)
    else row.stamp >= start
  }

  function Matching(table: seq<Row>, start: Text, after: Option<Cursor>): seq<Row> {
    if table == [] then []
    else
      var rest := Matching(table[1..], start, after);
      if IncrementalWhere(table[0], start, after) then [table[0]] + rest else rest
  }

  /** The publisher's answer to one page request. */
  function Page(table: seq<Row>, start: Text, after: Option<Cursor>, pageSize: nat): seq<Row> {
    var rows := Matching(table, start, after);
    rows[..Min(pageSize, |rows|)]
  }

  function CursorFromRow(row: Row): Option<Cursor> {
    if row.stamp == 0 || row.id == 0 then None else Some(Position(row))
  }

  datatype Fetched = Fetched(rows: seq<Row>, cursor: Option<Cursor>)

  // ---- what a page leaves -----------------------------------------------------------------------

  lemma {:induction false} MatchingHolds(table: seq<Row>, start: Text, after: Option<Cursor>, row: Row)
    ensures row in Matching(table, start, after) <==> row in table && IncrementalWhere(row, start, after)
  {
    if table != [] {
      MatchingHolds(table[1..], start, after, row);
      assert table == [table[0]] + table[1..];
    }
  }

  lemma {:induction false} MatchingIsOrdered(table: seq<Row>, start: Text, after: Option<Cursor>)
    requires Ordered(table)
    ensures Ordered(Matching(table, start, after))
  {
    if table != [] {
      MatchingIsOrdered(table[1..], start, after);
      var rest := Matching(table[1..], start, after);
      forall i | 0 <= i < |rest| ensures Less(Position(table[0]), Position(rest[i])) && rest[i].stamp != 0 && rest[i].id != 0 {
        assert rest[i] in rest;
        MatchingHolds(table[1..], start, after, rest[i]);
        var k :| 0 <= k < |table[1..]| && table[1..][k] == rest[i];
        assert table[k + 1] == rest[i];
      }
    }
  }

  lemma {:induction false} Narrowed(table: seq<Row>, start: Text, before: Option<Cursor>, after: Cursor)
    requires forall row :: IncrementalWhere(row, start, Some(after)) ==> IncrementalWhere(row, start, before)
    ensures Matching(Matching(table, start, before), start, Some(after)) == Matching(table, start, Some(after))
  {
    if table != [] {
      Narrowed(table[1..], start, before, after);
      var rest := Matching(table[1..], start, before);
      assert ([table[0]] + rest)[1..] == rest;
    }
  }

  lemma {:induction false} DropsThePrefix(rows: seq<Row>, start: Text, k: nat)
    requires Ordered(rows) && 0 < k <= |rows|
    ensures Matching(rows, start, Some(Position(rows[k - 1]))) == rows[k..]
  {
    var after := Some(Position(rows[k - 1]));
    forall i | 0 <= i < |rows| ensures IncrementalWhere(rows[i], start, after) <==> i >= k {
      if i < k - 1 {
        assert Less(Position(rows[i]), Position(rows[k - 1]));
      } else if i >= k {
        assert Less(Position(rows[k - 1]), Position(rows[i]));
      }
    }
    MatchingSuffix(rows, start, after, k);
  }

  lemma {:induction false} MatchingSuffix(rows: seq<Row>, start: Text, after: Option<Cursor>, k: nat)
    requires k <= |rows|
    requires forall i | 0 <= i < |rows| :: IncrementalWhere(rows[i], start, after) <==> i >= k
    ensures Matching(rows, start, after) == rows[k..]
  {
    if rows != [] {
      forall i | 0 <= i < |rows| - 1 ensures IncrementalWhere(rows[1..][i], start, after) <==> i >= k - 1 {
        assert rows[1..][i] == rows[i + 1];
      }
      MatchingSuffix(rows[1..], start, after, if k > 0 then k - 1 else 0);
      assert IncrementalWhere(rows[0], start, after) <==> 0 >= k;
    }
  }

  /** The rows still to come once the first k of the unpaged result have been paged. */
  lemma PagesAdvance(table: seq<Row>, start: Text, k: nat)
    requires Ordered(table) && 0 < k <= |Matching(table, start, None)|
    ensures var all := Matching(table, start, None);
            Matching(table, start, Some(Position(all[k - 1]))) == all[k..]
  {
    var all := Matching(table, start, None);
    MatchingIsOrdered(table, start, None);
    var after := Position(all[k - 1]);
    assert all[k - 1] in all;
    MatchingHolds(table, start, None, all[k - 1]);
    Narrowed(table, start, None, after);
    DropsThePrefix(all, start, k);
  }

  // ---- the loop ------------------------------------------------------------------------------------

  /** Where the loop stands after k rows. */
  ghost predicate AtRow(all: seq<Row>, k: nat, after: Option<Cursor>) {
    k <= |all| && after == if k == 0 then None else Some(Position(all[k - 1]))
  }

  /** The next page continues the unpaged result, and its last row gives a new, complete cursor. */
  lemma NextPage(table: seq<Row>, start: Text, k: nat, after: Option<Cursor>, pageSize: nat)
    requires Ordered(table) && pageSize >= 1 && AtRow(Matching(table, start, None), k, after)
    ensures var all, batch := Matching(table, start, None), Page(table, start, after, pageSize);
            && |batch| == Min(pageSize, |all| - k)
            && batch == all[k..k + |batch|]
            && (batch != [] ==>
                  && CursorFromRow(batch[|batch| - 1]).Some? && CursorFromRow(batch[|batch| - 1]) != after
                  && AtRow(all, k + |batch|, CursorFromRow(batch[|batch| - 1])))
  {
    var all, batch := Matching(table, start, None), Page(table, start, after, pageSize);
    MatchingIsOrdered(table, start, None);
    if k > 0 {
      PagesAdvance(table, start, k);
    }
    hide Matching;
    if batch != [] {
      assert batch[|batch| - 1] == all[k + |batch| - 1];
      assert k > 0 ==> Less(Position(all[k - 1]), Position(all[k + |batch| - 1]));
    }
  }

  lemma LastRowHasACursor(table: seq<Row>, start: Text)
    requires Ordered(table)
    ensures var all := Matching(table, start, None);
            all != [] ==> CursorFromRow(all[|all| - 1]) == Some(Position(all[|all| - 1]))
  {
    MatchingIsOrdered(table, start, None);
  }

  /** The rows to fetch are those stamped no earlier than the start stamp, in the table's order. */
  lemma RowsFromTheStart(table: seq<Row>, start: Text)
    requires Ordered(table)
    ensures Ordered(Matching(table, start, None))
    ensures forall row :: row in Matching(table, start, None) <==> row in table && row.stamp >= start
  {
    MatchingIsOrdered(table, start, None);
    forall row ensures row in Matching(table, start, None) <==> row in table && row.stamp >= start {
      MatchingHolds(table, start, None, row);
    }
  }

  /** Over a static table with n matching rows: all of them, in order, once each, with the last one
      as the new mark, exactly when the page budget allows floor(n / pageSize) + 1 requests;
      otherwise the fetch raises. */
  method FetchRawIncremental(table: seq<Row>, start: Text, pageSize: nat, maxPages: int) returns (r: Result<Fetched>)
    requires Ordered(table) && pageSize >= 1
    ensures var all := Matching(table, start, None);
            && (r.Ok? <==> |all| / pageSize + 1 <= Max(1, maxPages))
            && (r.Ok? ==> r.value.rows == all
                          && r.value.cursor == if all == [] then None else Some(Position(all[|all| - 1])))
    ensures r.Ok? ==> Ordered(r.value.rows) && forall row :: row in r.value.rows <==> row in table && row.stamp >= start
  {
    hide Matching, Page, Ordered, CursorFromRow;
    ghost var all := Matching(table, start, None);
    var after: Option<Cursor> := None;
    var rows: seq<Row> := [];
    var complete, page := false, 0;
    ghost var paged := 0;
    while page < Max(1, maxPages) && !complete
      invariant 0 <= page <= Max(1, maxPages) && paged == page * pageSize
      invariant rows <= all && AtRow(all, |rows|, after)
      invariant !complete ==> |rows| == paged
      invariant complete ==> rows == all && page >= 1 && paged - pageSize <= |all| < paged
      decreases Max(1, maxPages) - page, if complete then 0 else 1
    {
      var batch := Page(table, start, after, pageSize);
      NextPage(table, start, |rows|, after, pageSize);
      OneMore(page, pageSize);
      page, paged := page + 1, paged + pageSize;
      if batch == [] {
        complete := true;
      } else {
        rows := rows + batch;
        var nextAfter := CursorFromRow(batch[|batch| - 1]);
        if nextAfter.None? {
          return Err("cannot advance cursor");
        }
        if after == nextAfter {
          return Err("cursor did not advance");
        }
        after := nextAfter;
        complete := |batch| < pageSize;
      }
    }
    PageCount(|all|, pageSize, page, paged);
    if !complete {
      return Err("reached max_pages");
    }
    LastRowHasACursor(table, start);
    RowsFromTheStart(table, start);
    r := Ok(Fetched(rows, if rows == [] then None else CursorFromRow(rows[|rows| - 1])));
  }

  lemma PageCount(n: nat, pageSize: nat, page: nat, paged: nat)
    requires pageSize >= 1 && paged == page * pageSize
    ensures paged <= n ==> n / pageSize >= page
    ensures page >= 1 && paged - pageSize <= n < paged ==> n / pageSize + 1 == page
  {
    var q := n / pageSize;
    assert n == q * pageSize + n % pageSize;
    OneMore(q, pageSize);
    if paged <= n && q < page {
      MultiplyKeepsOrder(q + 1, page, pageSize);
    }
    if page >= 1 && paged - pageSize <= n < paged {
      OneMore(page - 1, pageSize);
      if q + 1 < page {
        MultiplyKeepsOrder(q + 1, page - 1, pageSize);
      }
      if q >= page {
        MultiplyKeepsOrder(page, q, pageSize);
      }
    }
  }
}
