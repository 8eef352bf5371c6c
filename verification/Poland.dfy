/** Poland: completeness of the interval fetch.  The publisher counts before it lists; an interval
    whose counts do not fit a page is halved, and the halves share their common instant. */
module Poland {
  import opened Common

  datatype NoticeType = ContractNotice | NoticeUpdateNotice | TenderResultNotice

  const TYPES: seq<NoticeType> := [ContractNotice, NoticeUpdateNotice, TenderResultNotice]

  datatype Notice = Notice(objectId: Text, kind: NoticeType, at: Time)

  /** The register: no two notices share an object id, and every notice has one. */
  ghost predicate Register(notices: set<Notice>) {
    && (forall n | n in notices :: n.objectId != 0)
    && (forall m, n | m in notices && n in notices && m.objectId == n.objectId :: m == n)
  }

  /** Both ends of a query interval belong to it. */
  function Matching(notices: set<Notice>, kind: NoticeType, start: Time, end: Time): set<Notice> {
    set n | n in notices && n.kind == kind && start <= n.at <= end
  }

  function Within(notices: set<Notice>, start: Time, end: Time): set<Notice> {
    set n | n in notices && start <= n.at <= end
  }

  /** The publisher as the connector sees it: counts per type, and lists whose contents it may
      choose; None is a failed or malformed answer. */
  datatype Publisher = Publisher(stats: (Time, Time) -> Option<map<NoticeType, int>>,
                                 list: (NoticeType, Time, Time, nat) -> Option<seq<Notice>>)

  /** Counts are true and lists are genuine; that a list is complete is not assumed. */
  ghost predicate Consistent(p: Publisher, notices: set<Notice>) {
    && (forall s, e | p.stats(s, e).Some? :: TrueCounts(p.stats(s, e).value, notices, s, e))
    && (forall k, s, e, size | p.list(k, s, e, size).Some? ::
          forall n | n in p.list(k, s, e, size).value :: n in Matching(notices, k, s, e))
  }

  ghost predicate TrueCounts(counts: map<NoticeType, int>, notices: set<Notice>, s: Time, e: Time) {
    forall k :: k in counts && counts[k] == |Matching(notices, k, s, e)|
  }

  function ObjectIds(rows: seq<Notice>): set<Text> {
    set n | n in rows :: n.objectId
  }

  ghost predicate DistinctIds(rows: seq<Notice>) {
    forall i, j | 0 <= i < j < |rows| :: rows[i].objectId != rows[j].objectId
  }

  /** Half of a span as the program computes it: to the nearest microsecond, ties to even. */
  function Half(span: int): int {
    if span % 2 == 0 then span / 2
    else if (span / 2) % 2 == 0 then span / 2 else span / 2 + 1
  }

  lemma HalfIsInside(span: int)
    requires span >= 0
    ensures 0 <= Half(span) <= span
  {
  }

  // ---- checks over sequences ------------------------------------------------------------------

  lemma {:induction false} AllIdsDistinct(rows: seq<Notice>)
    ensures |ObjectIds(rows)| <= |rows|
    ensures |ObjectIds(rows)| == |rows| ==> DistinctIds(rows)
  {
    if rows != [] {
      var n := |rows| - 1;
      var init, last := rows[..n], rows[n];
      AllIdsDistinct(init);
      assert ObjectIds(rows) == ObjectIds(init) + {last.objectId} by {
        assert rows == init + [last];
      }
      if |ObjectIds(rows)| == |rows| {
        assert last.objectId !in ObjectIds(init);
        forall i | 0 <= i < n ensures rows[i].objectId != last.objectId {
          assert init[i] in init;
        }
      }
    }
  }

  function Members(rows: seq<Notice>): set<Notice> {
    set n | n in rows
  }

  lemma {:induction false} DistinctRowsCount(rows: seq<Notice>)
    requires DistinctIds(rows)
    ensures |Members(rows)| == |rows|
  {
    if rows != [] {
      var n := |rows| - 1;
      DistinctRowsCount(rows[..n]);
      assert rows == rows[..n] + [rows[n]];
      assert Members(rows) == Members(rows[..n]) + {rows[n]};
      assert rows[n] !in Members(rows[..n]);
    }
  }

  lemma SameSizeSubset(a: set<Notice>, b: set<Notice>)
    requires a <= b && |a| == |b|
    ensures a == b
  {
    if a != b {
      var x :| x in b && x !in a;
      SubsetIsSmaller(a, b - {x});
    }
  }

  /** The pigeonhole behind the mismatch check: as many distinct genuine rows as were counted are all of them. */
  lemma CheckedListIsComplete(rows: seq<Notice>, notices: set<Notice>, kind: NoticeType, s: Time, e: Time)
    requires |rows| == |Matching(notices, kind, s, e)| && |ObjectIds(rows)| == |rows|
    requires forall n | n in rows :: n in Matching(notices, kind, s, e)
    ensures Members(rows) == Matching(notices, kind, s, e) && DistinctIds(rows)
  {
    AllIdsDistinct(rows);
    DistinctRowsCount(rows);
    SameSizeSubset(Members(rows), Matching(notices, kind, s, e));
  }

  /** Exactly the notices of the interval, each once. */
  ghost predicate Complete(rows: seq<Notice>, notices: set<Notice>, start: Time, end: Time) {
    Members(rows) == Within(notices, start, end) && DistinctIds(rows)
  }

  /** What `_list` accepts: as many rows as counted, none without an object id, no id twice. */
  ghost predicate Acceptable(rows: Option<seq<Notice>>, expected: int) {
    rows.Some? && |rows.value| == expected && 0 !in ObjectIds(rows.value) && |ObjectIds(rows.value)| == expected
  }

  lemma CountsAreTrue(p: Publisher, notices: set<Notice>, start: Time, end: Time)
    requires Consistent(p, notices)
    ensures p.stats(start, end).Some? ==> TrueCounts(p.stats(start, end).value, notices, start, end)
    ensures Answers(p, notices) ==> p.stats(start, end).Some?
  {
  }

  // ---- the connector ------------------------------------------------------------------------------

  class BZPConnector {
    const maxPageSize: int
    const maxSplitDepth: int
    const maxRequests: int
    const publisher: Publisher
    var requests: int
    ghost var largestPage: int

    constructor (maxPageSize: int, maxSplitDepth: int, maxRequests: int, publisher: Publisher)
      ensures this.maxPageSize == Max(1, maxPageSize) && this.maxSplitDepth == Max(1, maxSplitDepth)
      ensures this.maxRequests == Max(1, maxRequests) && this.publisher == publisher
      ensures requests == 0 && largestPage == 0
    {
      this.maxPageSize, this.maxSplitDepth := Max(1, maxPageSize), Max(1, maxSplitDepth);
      this.maxRequests, this.publisher := Max(1, maxRequests), publisher;
      requests, largestPage := 0, 0;
    }

    method Stats(start: Time, end: Time) returns (r: Result<map<NoticeType, int>>)
      modifies this`requests
      ensures requests == old(requests) + 1
      ensures r.Ok? <==> requests <= maxRequests && publisher.stats(start, end).Some?
      ensures r.Ok? ==> r.value == publisher.stats(start, end).value
    {
      requests := requests + 1;
      if requests > maxRequests { return Err("exceeded max_requests_per_sync"); }
      var counts := publisher.stats(start, end);
      if counts.None? { return Err("stats response rejected"); }
      r := Ok(counts.value);
    }

    method List(kind: NoticeType, start: Time, end: Time, expected: int) returns (r: Result<seq<Notice>>)
      modifies this`requests, this`largestPage
      ensures requests == old(requests) + (if expected > 0 then 1 else 0)
      ensures largestPage == Max(old(largestPage), expected)
      ensures expected <= 0 ==> r == Ok([])
      ensures expected > 0 ==>
                (r.Ok? <==> requests <= maxRequests && Acceptable(publisher.list(kind, start, end, expected), expected))
      ensures expected > 0 && r.Ok? ==> publisher.list(kind, start, end, expected) == Some(r.value)
    {
      largestPage := Max(largestPage, expected);
      if expected <= 0 { return Ok([]); }
      requests := requests + 1;
      if requests > maxRequests { return Err("exceeded max_requests_per_sync"); }
      var rows := publisher.list(kind, start, end, expected);
      if rows.None? { return Err("list response rejected"); }
      if |rows.value| != expected { return Err("stats/list mismatch"); }
      if 0 in ObjectIds(rows.value) || |ObjectIds(rows.value)| != expected {
        return Err("missing or duplicate objectId");
      }
      r := Ok(rows.value);
    }

    /** Either raises, or returns exactly the notices of the interval, each once, without ever
        asking for a page above the limit.  Against a publisher that always answers it raises
        exactly when halving runs out of depth or the request budget is too small. */
    method FetchInterval(start: Time, end: Time, depth: int, ghost notices: set<Notice>) returns (r: Result<seq<Notice>>)
      requires start <= end && 0 <= depth
      requires Register(notices) && Consistent(publisher, notices)
      modifies this`requests, this`largestPage
      ensures requests >= old(requests) && largestPage <= Max(old(largestPage), maxPageSize)
      ensures r.Ok? ==> requests <= maxRequests && Complete(r.value, notices, start, end)
      ensures depth <= maxSplitDepth && Answers(publisher, notices) ==>
                var cost := Cost(notices, start, end, maxPageSize, maxSplitDepth - depth);
                && (r.Ok? <==> Resolves(notices, start, end, maxPageSize, maxSplitDepth - depth)
                               && old(requests) + cost <= maxRequests)
                && (r.Ok? ==> requests == old(requests) + cost)
      decreases maxSplitDepth - depth, 1
    {
      hide Matching, Within, Complete, Answers, Register, Consistent;
      CountsAreTrue(publisher, notices, start, end);
      var counts := Stats(start, end);
      if counts.Err? { return Err(counts.error); }
      if counts.value[ContractNotice] > maxPageSize || counts.value[NoticeUpdateNotice] > maxPageSize
         || counts.value[TenderResultNotice] > maxPageSize {
        if depth >= maxSplitDepth || end - start <= SECOND {
          return Err("interval cannot be split to complete page");
        }
        r := FetchHalves(start, end, depth, notices);
        return;
      }
      forall k | k in counts.value ensures counts.value[k] <= maxPageSize {
        match k
        case ContractNotice =>
        case NoticeUpdateNotice =>
        case TenderResultNotice =>
      }
      r := ListAll(start, end, counts.value, notices);
    }

    method FetchHalves(start: Time, end: Time, depth: int, ghost notices: set<Notice>) returns (r: Result<seq<Notice>>)
      requires start <= end && 0 <= depth < maxSplitDepth
      requires Register(notices) && Consistent(publisher, notices) && requests <= maxRequests
      modifies this`requests, this`largestPage
      ensures requests >= old(requests) && largestPage <= Max(old(largestPage), maxPageSize)
      ensures r.Ok? ==> requests <= maxRequests && Complete(r.value, notices, start, end)
      ensures Answers(publisher, notices) ==>
                var midpoint, splits := start + Half(end - start), maxSplitDepth - depth - 1;
                var cost := Cost(notices, start, midpoint, maxPageSize, splits) + Cost(notices, midpoint, end, maxPageSize, splits);
                && (r.Ok? <==> Resolves(notices, start, midpoint, maxPageSize, splits)
                               && Resolves(notices, midpoint, end, maxPageSize, splits)
                               && old(requests) + cost <= maxRequests)
                && (r.Ok? ==> requests == old(requests) + cost)
      decreases maxSplitDepth - depth, 0
    {
      hide Matching, Within, Complete, Answers, Register, Consistent, Cost, Resolves;
      HalfIsInside(end - start);
      var midpoint := start + Half(end - start);
      var left := FetchInterval(start, midpoint, depth + 1, notices);
      if left.Err? { return left; }
      var right := FetchInterval(midpoint, end, depth + 1, notices);
      if right.Err? { return right; }
      HalvesAreRegistered(left.value, right.value, notices, start, midpoint, end);
      var rows := Merge(left.value + right.value);
      MergedHalves(left.value, right.value, rows, notices, start, midpoint, end);
      r := Ok(rows);
    }

    method ListAll(start: Time, end: Time, counts: map<NoticeType, int>, ghost notices: set<Notice>)
      returns (r: Result<seq<Notice>>)
      requires Register(notices) && Consistent(publisher, notices) && TrueCounts(counts, notices, start, end)
      requires forall k | k in counts :: counts[k] <= maxPageSize
      requires requests <= maxRequests
      modifies this`requests, this`largestPage
      ensures requests >= old(requests) && largestPage <= Max(old(largestPage), maxPageSize)
      ensures r.Ok? ==> requests <= maxRequests && Complete(r.value, notices, start, end)
      ensures Answers(publisher, notices) ==>
                && (r.Ok? <==> old(requests) + Lists(notices, start, end, TYPES) <= maxRequests)
                && (r.Ok? ==> requests == old(requests) + Lists(notices, start, end, TYPES))
    {
      var rows: seq<Notice> := [];
      for i := 0 to 3
        invariant Answers(publisher, notices) ==> requests == old(requests) + Lists(notices, start, end, TYPES[..i])
        invariant requests >= old(requests) && requests <= maxRequests
        invariant largestPage <= Max(old(largestPage), maxPageSize)
        invariant Members(rows) == OfFirstTypes(notices, start, end, i) && DistinctIds(rows)
      {
        var page := List(TYPES[i], start, end, counts[TYPES[i]]);
        ListsNext(publisher, notices, start, end, i);
        if page.Err? { return Err(page.error); }
        TypeIsListed(page.value, notices, publisher, counts, i, start, end);
        TypesAreDisjoint(rows, page.value, notices, start, end, i);
        rows := rows + page.value;
      }
      AllTypes(notices, start, end);
      r := Ok(rows);
    }
  }

  /** A dictionary keyed by object id: the first occurrence keeps its place, the last its value. */
  method Merge(rows: seq<Notice>) returns (merged: seq<Notice>)
    requires forall n | n in rows :: n.objectId != 0
    requires forall m, n | m in rows && n in rows && m.objectId == n.objectId :: m == n
    ensures Members(merged) == Members(rows) && DistinctIds(merged)
  {
    merged := [];
    for i := 0 to |rows|
      invariant Members(merged) == Members(rows[..i]) && DistinctIds(merged)
    {
      assert rows[..i + 1] == rows[..i] + [rows[i]];
      assert Members(rows[..i + 1]) == Members(rows[..i]) + {rows[i]};
      assert rows[i] in rows;
      if rows[i].objectId !in ObjectIds(merged) {
        assert forall k | 0 <= k < |merged| :: merged[k].objectId in ObjectIds(merged);
        merged := merged + [rows[i]];
      } else {
        var n :| n in merged && n.objectId == rows[i].objectId;
        assert n in Members(merged) && n in Members(rows[..i]) && n in rows && n == rows[i];
      }
    }
    assert rows[..|rows|] == rows;
  }

  lemma HalvesAreRegistered(left: seq<Notice>, right: seq<Notice>, notices: set<Notice>, start: Time, midpoint: Time,
                            end: Time)
    requires Register(notices)
    requires Complete(left, notices, start, midpoint) && Complete(right, notices, midpoint, end)
    ensures forall n | n in left + right :: n in notices && n.objectId != 0
    ensures forall m, n | m in left + right && n in left + right && m.objectId == n.objectId :: m == n
  {
    forall n | n in left + right ensures n in notices {
      assert n in Members(left) || n in Members(right);
    }
  }

  lemma AllTypes(notices: set<Notice>, start: Time, end: Time)
    ensures OfFirstTypes(notices, start, end, 3) == Within(notices, start, end)
    ensures TYPES[..3] == TYPES
  {
    assert TYPES[..3] == TYPES;
    forall k: NoticeType ensures k in TYPES {
      match k
      case ContractNotice => assert TYPES[0] == k;
      case NoticeUpdateNotice => assert TYPES[1] == k;
      case TenderResultNotice => assert TYPES[2] == k;
    }
  }

  lemma HalvesCover(notices: set<Notice>, start: Time, midpoint: Time, end: Time)
    requires start <= midpoint <= end
    ensures Within(notices, start, end) == Within(notices, start, midpoint) + Within(notices, midpoint, end)
  {
  }

  lemma MergedHalves(left: seq<Notice>, right: seq<Notice>, rows: seq<Notice>, notices: set<Notice>,
                     start: Time, midpoint: Time, end: Time)
    requires start <= midpoint <= end
    requires Complete(left, notices, start, midpoint) && Complete(right, notices, midpoint, end)
    requires Members(rows) == Members(left + right) && DistinctIds(rows)
    ensures Complete(rows, notices, start, end)
  {
    HalvesCover(notices, start, midpoint, end);
    assert Members(left + right) == Members(left) + Members(right);
  }

  /** The notices of an interval whose type is among the first i requested. */
  function OfFirstTypes(notices: set<Notice>, start: Time, end: Time, i: nat): set<Notice>
    requires i <= 3
  {
    set n | n in notices && start <= n.at <= end && n.kind in TYPES[..i]
  }

  lemma TypeIsListed(page: seq<Notice>, notices: set<Notice>, p: Publisher, counts: map<NoticeType, int>, i: nat,
                     start: Time, end: Time)
    requires i < 3 && Consistent(p, notices) && TrueCounts(counts, notices, start, end)
    requires counts[TYPES[i]] <= 0 ==> page == []
    requires counts[TYPES[i]] > 0 ==> p.list(TYPES[i], start, end, counts[TYPES[i]]) == Some(page)
                                      && |page| == counts[TYPES[i]] == |ObjectIds(page)|
    ensures Members(page) == Matching(notices, TYPES[i], start, end) && DistinctIds(page)
  {
    if counts[TYPES[i]] > 0 {
      CheckedListIsComplete(page, notices, TYPES[i], start, end);
    }
  }

  lemma TypesAreDisjoint(rows: seq<Notice>, page: seq<Notice>, notices: set<Notice>, start: Time, end: Time, i: nat)
    requires i < 3 && Register(notices)
    requires Members(rows) == OfFirstTypes(notices, start, end, i) && DistinctIds(rows)
    requires Members(page) == Matching(notices, TYPES[i], start, end) && DistinctIds(page)
    ensures Members(rows + page) == OfFirstTypes(notices, start, end, i + 1) && DistinctIds(rows + page)
  {
    assert Members(rows + page) == Members(rows) + Members(page);
    assert TYPES[..i + 1] == TYPES[..i] + [TYPES[i]];
    assert TYPES[i] !in TYPES[..i];
    forall a, b | 0 <= a < |rows| && 0 <= b < |page| ensures rows[a].objectId != page[b].objectId {
      assert rows[a] in Members(rows) && page[b] in Members(page);
    }
  }

  // ---- exactly when the fetch succeeds ---------------------------------------------------------------

  predicate Fits(notices: set<Notice>, start: Time, end: Time, pageSize: int) {
    && |Matching(notices, ContractNotice, start, end)| <= pageSize
    && |Matching(notices, NoticeUpdateNotice, start, end)| <= pageSize
    && |Matching(notices, TenderResultNotice, start, end)| <= pageSize
  }

  /** Halving reaches intervals that fit a page before the depth or the second runs out. */
  predicate Resolves(notices: set<Notice>, start: Time, end: Time, pageSize: int, splits: nat)
    decreases splits
  {
    Fits(notices, start, end, pageSize)
    || (splits > 0 && end - start > SECOND
        && Resolves(notices, start, start + Half(end - start), pageSize, splits - 1)
        && Resolves(notices, start + Half(end - start), end, pageSize, splits - 1))
  }

  function Lists(notices: set<Notice>, start: Time, end: Time, types: seq<NoticeType>): nat {
    if types == [] then 0
    else Lists(notices, start, end, types[..|types| - 1])
         + if Matching(notices, types[|types| - 1], start, end) != {} then 1 else 0
  }

  /** The requests a successful fetch makes: one count per interval, one list per type present in a leaf. */
  function Cost(notices: set<Notice>, start: Time, end: Time, pageSize: int, splits: nat): nat
    decreases splits
  {
    if Fits(notices, start, end, pageSize) then 1 + Lists(notices, start, end, TYPES)
    else if splits > 0 && end - start > SECOND then
      1 + Cost(notices, start, start + Half(end - start), pageSize, splits - 1)
        + Cost(notices, start + Half(end - start), end, pageSize, splits - 1)
    else 1
  }

  /** A publisher that never fails: it always counts, and lists every notice it is asked for. */
  ghost predicate Answers(p: Publisher, notices: set<Notice>) {
    && (forall s, e :: p.stats(s, e).Some?)
    && (forall k, s, e :: ListsFully(p, notices, k, s, e))
  }

  ghost predicate ListsFully(p: Publisher, notices: set<Notice>, k: NoticeType, s: Time, e: Time) {
    var size := |Matching(notices, k, s, e)|;
    && p.list(k, s, e, size).Some?
    && |p.list(k, s, e, size).value| == size == |ObjectIds(p.list(k, s, e, size).value)|
  }

  lemma ListsNext(p: Publisher, notices: set<Notice>, start: Time, end: Time, i: nat)
    requires i < 3 && Register(notices) && Consistent(p, notices)
    ensures Lists(notices, start, end, TYPES[..i + 1])
         == Lists(notices, start, end, TYPES[..i]) + if |Matching(notices, TYPES[i], start, end)| > 0 then 1 else 0
    ensures Lists(notices, start, end, TYPES[..i + 1]) <= Lists(notices, start, end, TYPES)
    ensures var size := |Matching(notices, TYPES[i], start, end)|;
            Answers(p, notices) ==> Acceptable(p.list(TYPES[i], start, end, size), size)
  {
    assert TYPES[..i + 1][..i] == TYPES[..i];
    ListsGrow(notices, start, end, i + 1);
    if Answers(p, notices) {
      var size := |Matching(notices, TYPES[i], start, end)|;
      assert ListsFully(p, notices, TYPES[i], start, end);
      var rows := p.list(TYPES[i], start, end, size).value;
      forall n | n in rows ensures n.objectId != 0 {
        assert n in Matching(notices, TYPES[i], start, end);
      }
    }
  }

  lemma {:induction false} ListsGrow(notices: set<Notice>, start: Time, end: Time, i: nat)
    requires i <= 3
    ensures Lists(notices, start, end, TYPES[..i]) <= Lists(notices, start, end, TYPES)
    decreases 3 - i
  {
    if i == 3 {
      assert TYPES[..3] == TYPES;
    } else {
      ListsGrow(notices, start, end, i + 1);
      assert TYPES[..i + 1][..i] == TYPES[..i];
    }
  }

  // ---- where halving gets ------------------------------------------------------------------------------

  /** 2 to the n. */
  function Doubled(n: nat): (r: nat)
    ensures r >= 1
  {
    if n == 0 then 1 else 2 * Doubled(n - 1)
  }

  /** If no second of the interval is too full, and the depth allows for halving down to a second, the fetch
      resolves ... */
  lemma {:induction false} QuietSecondsResolve(notices: set<Notice>, start: Time, end: Time, pageSize: int, splits: nat)
    requires start <= end && end - start <= Doubled(splits) * 1_000_000
    requires forall s, e | start <= s <= e <= end && e - s <= 1_000_000 :: Fits(notices, s, e, pageSize)
    ensures Resolves(notices, start, end, pageSize, splits)
    decreases splits
  {
    if end - start > 1_000_000 {
      var half := Half(end - start);
      HalvesAreHalf(end - start, Doubled(splits - 1) * 1_000_000);
      QuietSecondsResolve(notices, start, start + half, pageSize, splits - 1);
      QuietSecondsResolve(notices, start + half, end, pageSize, splits - 1);
      hide Fits;
    }
  }

  lemma HalvesAreHalf(span: int, half: int)
    requires 0 <= span <= 2 * half
    ensures 0 <= Half(span) <= half && 0 <= span - Half(span) <= half
  {
  }

  /** ... and if one instant of it is too full, no depth is enough. */
  lemma {:induction false} CrowdedInstantNeverResolves(notices: set<Notice>, start: Time, end: Time, pageSize: int, splits: nat,
                                                       t: Time)
    requires start <= t <= end && !Fits(notices, t, t, pageSize)
    ensures !Resolves(notices, start, end, pageSize, splits)
    decreases splits
  {
    WiderIsFuller(notices, start, end, t, pageSize);
    if splits > 0 && end - start > SECOND {
      var midpoint := start + Half(end - start);
      HalfIsInside(end - start);
      if t <= midpoint {
        CrowdedInstantNeverResolves(notices, start, midpoint, pageSize, splits - 1, t);
      } else {
        CrowdedInstantNeverResolves(notices, midpoint, end, pageSize, splits - 1, t);
      }
    }
  }

  lemma WiderIsFuller(notices: set<Notice>, start: Time, end: Time, t: Time, pageSize: int)
    requires start <= t <= end
    ensures Fits(notices, start, end, pageSize) ==> Fits(notices, t, t, pageSize)
  {
    SubsetIsSmaller(Matching(notices, ContractNotice, t, t), Matching(notices, ContractNotice, start, end));
    SubsetIsSmaller(Matching(notices, NoticeUpdateNotice, t, t), Matching(notices, NoticeUpdateNotice, start, end));
    SubsetIsSmaller(Matching(notices, TenderResultNotice, t, t), Matching(notices, TenderResultNotice, start, end));
  }
}
