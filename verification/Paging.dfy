/** Client-driven paging against a server that may break ties differently on every request:
    `read_all` of live_checks/odata_live_check.py and `fetch_all` of data-generator/cpi_discovery.py.

    OData Version 2.0, URI Conventions: `$orderby` (section 4.2), `$top` (4.3), `$skip` (4.4). */
module Paging {
  import opened Arithmetic
  import opened Wrappers
  import opened Sequences

  /** A row: the values of its key properties, in key order, and everything else it carries. */
  datatype Row = Row(key: seq<int>, rest: int)

  /** What the server answers to its n-th request, asked to order by the first `order` key
      properties and to send `top` rows after `skip`; None is a refusal or a failure. */
  type Server = (nat, nat, nat, nat) -> Option<seq<Row>>

  ghost predicate KeyedTable(table: seq<Row>, keyCount: nat) {
    && (forall r | r in table :: |r.key| == keyCount)
    && (forall i, j | 0 <= i < j < |table| :: table[i].key != table[j].key)
  }

  // --- order ---------------------------------------------------------------------

  predicate LexLe(a: seq<int>, b: seq<int>) {
    a == [] || (b != [] && (a[0] < b[0] || (a[0] == b[0] && LexLe(a[1..], b[1..]))))
  }

  function Prefix(r: Row, order: nat): seq<int> {
    if order <= |r.key| then r.key[..order] else r.key
  }

  function Prefixes(rows: seq<Row>, order: nat): seq<seq<int>> {
    seq(|rows|, i requires 0 <= i < |rows| => Prefix(rows[i], order))
  }

  ghost predicate LexSorted(ps: seq<seq<int>>) {
    ps == [] || ((forall x | x in ps[1..] :: LexLe(ps[0], x)) && LexSorted(ps[1..]))
  }

  /** `s` is the table in some order that `$orderby` on the first `order` key properties allows. */
  ghost predicate IsOrdering(s: seq<Row>, table: seq<Row>, order: nat) {
    multiset(s) == multiset(table) && LexSorted(Prefixes(s, order))
  }

  function Window(s: seq<Row>, skip: nat, top: nat): seq<Row> {
    if skip >= |s| then [] else if skip + top >= |s| then s[skip..] else s[skip..skip + top]
  }

  /** Every page is a window of the table in an allowed order, a new order each time. */
  ghost predicate OrdersByPrefix(server: Server, table: seq<Row>) {
    forall n, order, top, skip | server(n, order, top, skip).Some? ::
      exists s :: IsOrdering(s, table, order) && server(n, order, top, skip).value == Window(s, skip, top)
  }

  /** Every row sent is a row of the table; nothing is said of order, repetition or page length. */
  ghost predicate Serves(server: Server, table: seq<Row>) {
    forall n, order, top, skip | server(n, order, top, skip).Some? ::
      forall r | r in server(n, order, top, skip).value :: r in table
  }

  ghost predicate ReadsTable(server: Server, table: seq<Row>, keyCount: nat) {
    OrdersByPrefix(server, table) && KeyedTable(table, keyCount)
  }

  ghost predicate RunsOut(server: Server, bound: nat) {
    forall n, order, top, skip | skip >= bound && server(n, order, top, skip).Some? ::
      server(n, order, top, skip).value == []
  }

  // --- reading -------------------------------------------------------------------

  datatype ReadError = NoKeyToOrderBy | AllOrdersRefused | PageFailed(skip: nat)

  datatype ReadOut = ReadOut(
    rows: seq<Row>, total: Option<nat>, orderBy: nat, degraded: bool, pages: nat,
    duplicates: nat, sampled: bool, error: Option<ReadError>)
  {
    predicate Complete() {
      error == None && !sampled && (total == None || |rows| == total.value)
    }
  }

  function KeysOf(rows: seq<Row>): set<seq<int>> {
    set r | r in rows :: r.key
  }

  ghost predicate SamePrefixes(rows: seq<Row>, s: seq<Row>, order: nat) {
    |rows| <= |s| && Prefixes(rows, order) == Prefixes(s, order)[..|rows|]
  }

  /** The rows read so far stand, prefix by prefix, where an allowed order of the table puts them. */
  ghost predicate ReadInOrder(rows: seq<Row>, table: seq<Row>, order: nat) {
    && (forall r | r in rows :: r in table)
    && exists s :: IsOrdering(s, table, order) && SamePrefixes(rows, s, order)
  }

  /** As many keys of the table are missing as `duplicates` says; none, and the read is the table. */
  ghost predicate MissesWhatItRepeats(out: ReadOut, table: seq<Row>) {
    && |KeysOf(table) - KeysOf(out.rows)| == out.duplicates
    && (out.duplicates == 0 ==> multiset(out.rows) == multiset(table))
  }

  /** The orders by more key properties, asked for first, were refused, and this one was not. */
  ghost predicate LongestAccepted(server: Server, keyCount: nat, order: nat, size: nat) {
    && LongerRefused(server, keyCount, order, size)
    && (0 < order <= keyCount ==> server(keyCount - order, order, size, 0).Some?)
  }

  ghost predicate LongerRefused(server: Server, keyCount: nat, order: nat, size: nat) {
    forall n: nat, k: nat | n + k == keyCount && k > order :: server(n, k, size, 0) == None
  }

  /** Tries `$orderby` on the whole key, then on ever fewer key properties. */
  method NegotiateOrder(server: Server, keyCount: nat, size: nat) returns (order: nat, first: Option<seq<Row>>)
    ensures order <= keyCount && LongestAccepted(server, keyCount, order, size)
    ensures first == if order == 0 then None else server(keyCount - order, order, size, 0)
  {
    var asked: nat := 0;
    order := keyCount;
    while order > 0
      invariant asked + order == keyCount && LongerRefused(server, keyCount, order, size)
    {
      first := server(asked, order, size, 0);
      if first.Some? {
        return;
      }
      asked := asked + 1;
      order := order - 1;
    }
    first := None;
  }

  /** What the first `pages` requests after the refused ones were answered, joined: each request skips what
      the ones before it brought. */
  function Answered(server: Server, asked: nat, order: nat, size: nat, pages: nat): seq<Row> {
    if pages == 0 then []
    else
      var before := Answered(server, asked, order, size, pages - 1);
      match server(asked + pages - 1, order, size, |before|) case None => before case Some(page) => before + page
  }

  /** The request that would follow `pages` pages. */
  function Next(server: Server, asked: nat, order: nat, size: nat, pages: nat): Option<seq<Row>> {
    server(asked + pages, order, size, |Answered(server, asked, order, size, pages)|)
  }

  /** The last of `pages` pages is full, and neither `$count` nor `limit` has been reached with it. */
  ghost predicate WantsMore(server: Server, asked: nat, order: nat, size: nat, limit: nat, total: Option<nat>, pages: nat) {
    pages > 0 ==>
      var rows := Answered(server, asked, order, size, pages);
      && |rows| >= |Answered(server, asked, order, size, pages - 1)| + size
      && (total.Some? ==> |rows| < total.value) && (limit > 0 ==> |rows| < limit)
  }

  /** Pages were read for as long as more was wanted and there was a page with rows: the first always, and
      no other unless the one before it was full and neither `$count` nor `limit` had been reached. */
  ghost predicate ReadsOn(server: Server, asked: nat, order: nat, size: nat, limit: nat, total: Option<nat>, pages: nat) {
    forall n: nat | n < pages ::
      && WantsMore(server, asked, order, size, limit, total, n) && Next(server, asked, order, size, n).Some?
      && (n > 0 ==> Next(server, asked, order, size, n) != Some([]))
  }

  /** How the read ended: with an error exactly if more was wanted and the request for it failed, and as a
      sample exactly if `limit` was reached with a full page short of `$count`. */
  ghost predicate EndsAsAnswered(server: Server, asked: nat, order: nat, size: nat, limit: nat, total: Option<nat>,
                                 rows: seq<Row>, pages: nat, sampled: bool, error: Option<ReadError>)
  {
    var more, next := WantsMore(server, asked, order, size, limit, total, pages), Next(server, asked, order, size, pages);
    && pages > 0 && rows == Answered(server, asked, order, size, pages)
    && ReadsOn(server, asked, order, size, limit, total, pages)
    && (more ==> next == None || next == Some([]))
    && error == (if more && next == None then Some(PageFailed(|rows|)) else None)
    && (sampled <==> 0 < limit <= |rows| && (total.Some? ==> |rows| < total.value)
                     && |rows| >= |Answered(server, asked, order, size, pages - 1)| + size)
  }

  /** Every request for an ordered page is answered. */
  ghost predicate AnswersAll(server: Server) {
    forall n: nat, order: nat, top: nat, skip: nat | order > 0 :: server(n, order, top, skip).Some?
  }

  method ReadAll(server: Server, keyCount: nat, limit: nat, pageSize: nat, total: Option<nat>,
                 ghost table: seq<Row>, ghost bound: nat)
    returns (out: ReadOut)
    requires pageSize > 0
    // without $count the reader stops only when the server stops sending rows
    requires total == None ==> RunsOut(server, bound)
    ensures out.total == total
    // the longest accepted $orderby is used
    ensures out.orderBy <= keyCount && (out.degraded <==> 0 < out.orderBy < keyCount)
    ensures LongestAccepted(server, keyCount, out.orderBy, if 0 < limit < pageSize then limit else pageSize)
    // without an accepted $orderby nothing is read; with one, the answers are, and an error is a request that failed
    ensures out.orderBy == 0 ==> out.rows == [] && out.pages == 0 && !out.sampled
    ensures out.orderBy == 0 ==> out.error == Some(if keyCount == 0 then NoKeyToOrderBy else AllOrdersRefused)
    ensures out.orderBy > 0 ==>
              EndsAsAnswered(server, keyCount - out.orderBy, out.orderBy, if 0 < limit < pageSize then limit else pageSize,
                             limit, total, out.rows, out.pages, out.sampled, out.error)
    // so a server that answers is read without an error, and without a limit completely
    ensures AnswersAll(server) && keyCount > 0 ==> out.error == None
    ensures (AnswersAll(server) && keyCount > 0 && ReadsTable(server, table, keyCount) && limit == 0
             && (total == None || total == Some(|table|))) ==> out.Complete() && |out.rows| == |table|
    ensures out.duplicates == |out.rows| - |KeysOf(out.rows)|
    ensures Serves(server, table) ==> forall r | r in out.rows :: r in table
    ensures ReadsTable(server, table, keyCount) && out.orderBy > 0 ==>
              ReadInOrder(out.rows, table, out.orderBy)
    // nothing failed and nothing was cut short: the read has the table's size
    ensures (ReadsTable(server, table, keyCount) && out.error == None && !out.sampled
             && (total == None || total == Some(|table|))) ==> |out.rows| == |table|
    // a complete read against a correct $count, in any order at all
    ensures (Serves(server, table) && KeyedTable(table, keyCount) && total == Some(|table|) && out.Complete()) ==>
              MissesWhatItRepeats(out, table)
  {
    hide LongestAccepted, EndsAsAnswered, AnswersAll, ReadsTable, Serves, RunsOut, KeyedTable, ReadInOrder;
    hide MissesWhatItRepeats;
    var size := if limit > 0 && limit < pageSize then limit else pageSize;
    var order, first := NegotiateOrder(server, keyCount, size);
    AllRefused(server, keyCount, order, size);
    out := ReadOut([], total, order, 0 < order < keyCount, 0, 0, false, None);
    if first == None {
      out := out.(error := Some(if keyCount == 0 then NoKeyToOrderBy else AllOrdersRefused));
      assert KeysOf([]) == {};
      return;
    }

    var rows, pages, sampled, error := ReadPages(server, keyCount, order, size, limit, total, first.value, bound);
    out := out.(rows := rows, pages := pages, sampled := sampled, error := error);
    KeysAtMostRows(rows);
    out := out.(duplicates := |rows| - |KeysOf(rows)|);
    ReadIs(server, table, keyCount, keyCount - order, order, size, limit, total, out);
    CompleteReadMisses(out, table, keyCount, Serves(server, table));
  }

  /** An order by one key property at least is accepted by a server that answers. */
  lemma AllRefused(server: Server, keyCount: nat, order: nat, size: nat)
    requires LongestAccepted(server, keyCount, order, size) && order <= keyCount
    ensures order > 0 ==> server(keyCount - order, order, size, 0).Some?
    ensures AnswersAll(server) && keyCount > 0 ==> order > 0
  {
    if order == 0 && keyCount > 0 {
      assert server(0, keyCount, size, 0) == None;
    }
  }

  lemma ReadIs(server: Server, table: seq<Row>, keyCount: nat, asked: nat, order: nat, size: nat, limit: nat,
               total: Option<nat>, out: ReadOut)
    requires size > 0 && order > 0
    requires EndsAsAnswered(server, asked, order, size, limit, total, out.rows, out.pages, out.sampled, out.error)
    ensures Serves(server, table) ==> forall r | r in out.rows :: r in table
    ensures ReadsTable(server, table, keyCount) ==> ReadInOrder(out.rows, table, order)
    ensures (ReadsTable(server, table, keyCount) && out.error == None && !out.sampled
             && (total == None || total == Some(|table|))) ==> |out.rows| == |table|
    ensures AnswersAll(server) ==> out.error == None
    ensures out.sampled ==> limit > 0
  {
    hide Serves, ReadsTable, ReadInOrder, ReadsOn, WantsMore, Answered;
    if Serves(server, table) {
      AnsweredAreServed(server, table, asked, order, size, out.pages);
    }
    if ReadsTable(server, table, keyCount) {
      EndsWithTable(server, table, keyCount, asked, order, size, limit, total, out.rows, out.pages, out.sampled, out.error);
    }
  }

  /** Reads on from the first page: to a short page, to `$count`, to `limit` or to a failure. */
  method ReadPages(server: Server, keyCount: nat, order: nat, size: nat, limit: nat, total: Option<nat>,
                   first: seq<Row>, ghost bound: nat)
    returns (rows: seq<Row>, pages: nat, sampled: bool, error: Option<ReadError>)
    requires size > 0 && 0 < order <= keyCount && server(keyCount - order, order, size, 0) == Some(first)
    requires total == None ==> RunsOut(server, bound)
    ensures EndsAsAnswered(server, keyCount - order, order, size, limit, total, rows, pages, sampled, error)
  {
    rows, pages, sampled, error := [], 0, false, None;
    var page := first;
    var asked: nat := keyCount - order;
    ghost var start := asked;
    hide RunsOut, Answered, WantsMore, ReadsOn, EndsAsAnswered;
    FirstPage(server, start, order, size, limit, total);
    while true
      invariant error == None && !sampled
      invariant asked == start + pages && rows == Answered(server, start, order, size, pages)
      invariant ReadsOn(server, start, order, size, limit, total, pages)
      invariant WantsMore(server, start, order, size, limit, total, pages) && (pages > 0 ==> page != [])
      invariant server(asked, order, size, |rows|) == Some(page)
      invariant total.Some? ==> rows == [] || |rows| < total.value
      decreases if total.Some? then total.value - |rows| else bound - |rows|, rows == []
    {
      PageRead(server, start, order, size, limit, total, pages, page);
      StillSends(server, bound, asked, order, size, |rows|, total);
      rows := rows + page;
      pages := pages + 1;
      if |page| < size {
        EndsHere(server, start, order, size, limit, total, rows, pages, page, false, None);
        return;
      }
      if total.Some? && |rows| >= total.value {
        EndsHere(server, start, order, size, limit, total, rows, pages, page, false, None);
        return;
      }
      if limit > 0 && |rows| >= limit {
        sampled := total == None || |rows| < total.value;
        EndsHere(server, start, order, size, limit, total, rows, pages, page, true, None);
        return;
      }
      asked := asked + 1;
      var next := server(asked, order, size, |rows|);
      if next == None {
        error := Some(PageFailed(|rows|));
        EndsHere(server, start, order, size, limit, total, rows, pages, page, false, error);
        return;
      }
      if next == Some([]) {
        EndsHere(server, start, order, size, limit, total, rows, pages, page, false, None);
        return;
      }
      page := next.value;
    }
  }

  /** What was answered stands where an allowed order of the table puts it, and is the table once a page is short
      or there is nothing after a full one. */
  lemma {:induction false} AnsweredInOrder(server: Server, table: seq<Row>, keyCount: nat, asked: nat, order: nat, size: nat,
                                           limit: nat, total: Option<nat>, pages: nat)
    requires ReadsTable(server, table, keyCount) && size > 0 && pages > 0 && ReadsOn(server, asked, order, size, limit, total, pages)
    ensures ReadInOrder(Answered(server, asked, order, size, pages), table, order)
    ensures var rows := Answered(server, asked, order, size, pages);
            |rows| <= |table| && (|rows| < |Answered(server, asked, order, size, pages - 1)| + size ==> |rows| == |table|)
  {
    hide ReadsTable, ReadInOrder, WantsMore;
    var before := Answered(server, asked, order, size, pages - 1);
    var page := Next(server, asked, order, size, pages - 1).value;
    if pages == 1 {
      EmptyReadInOrder(server, table, keyCount, asked, order, size);
    } else {
      AnsweredInOrder(server, table, keyCount, asked, order, size, limit, total, pages - 1);
    }
    ExtendRead(server, table, keyCount, asked + pages - 1, order, size, before, page);
  }

  /** A read in which nothing failed and nothing was cut short has the table's size. */
  lemma EndsWithTable(server: Server, table: seq<Row>, keyCount: nat, asked: nat, order: nat, size: nat, limit: nat,
                      total: Option<nat>, rows: seq<Row>, pages: nat, sampled: bool, error: Option<ReadError>)
    requires ReadsTable(server, table, keyCount) && size > 0
    requires EndsAsAnswered(server, asked, order, size, limit, total, rows, pages, sampled, error)
    ensures ReadInOrder(rows, table, order)
    ensures error == None && !sampled && (total == None || total == Some(|table|)) ==> |rows| == |table|
  {
    AnsweredInOrder(server, table, keyCount, asked, order, size, limit, total, pages);
    hide ReadsTable, ReadInOrder, ReadsOn, Answered;
    if Next(server, asked, order, size, pages) == Some([]) {
      ExtendRead(server, table, keyCount, asked + pages, order, size, rows, []);
      assert rows + [] == rows;
    }
  }

  lemma {:induction false} AnsweredAreServed(server: Server, table: seq<Row>, asked: nat, order: nat, size: nat, pages: nat)
    requires Serves(server, table)
    ensures forall r | r in Answered(server, asked, order, size, pages) :: r in table
  {
    if pages > 0 {
      AnsweredAreServed(server, table, asked, order, size, pages - 1);
    }
  }

  /** After a page the read ends here, and so. */
  lemma EndsHere(server: Server, asked: nat, order: nat, size: nat, limit: nat, total: Option<nat>,
                 rows: seq<Row>, pages: nat, page: seq<Row>, sampled: bool, error: Option<ReadError>)
    requires pages > 0 && rows == Answered(server, asked, order, size, pages) == Answered(server, asked, order, size, pages - 1) + page
    requires ReadsOn(server, asked, order, size, limit, total, pages)
    requires var next := server(asked + pages, order, size, |rows|);
             && (WantsMore(server, asked, order, size, limit, total, pages) ==> next == None || next == Some([]))
             && error == if WantsMore(server, asked, order, size, limit, total, pages) && next == None then Some(PageFailed(|rows|)) else None
    requires sampled <==> 0 < limit <= |rows| && (total.Some? ==> |rows| < total.value) && |page| >= size
    ensures EndsAsAnswered(server, asked, order, size, limit, total, rows, pages, sampled, error)
  {
    hide Answered, WantsMore, ReadsOn;
  }

  lemma FirstPage(server: Server, asked: nat, order: nat, size: nat, limit: nat, total: Option<nat>)
    ensures Answered(server, asked, order, size, 0) == []
    ensures ReadsOn(server, asked, order, size, limit, total, 0) && WantsMore(server, asked, order, size, limit, total, 0)
  {
  }

  lemma PageRead(server: Server, asked: nat, order: nat, size: nat, limit: nat, total: Option<nat>, pages: nat, page: seq<Row>)
    requires ReadsOn(server, asked, order, size, limit, total, pages) && WantsMore(server, asked, order, size, limit, total, pages)
    requires Next(server, asked, order, size, pages) == Some(page) && (pages > 0 ==> page != [])
    ensures ReadsOn(server, asked, order, size, limit, total, pages + 1)
    ensures var rows := Answered(server, asked, order, size, pages) + page;
            && rows == Answered(server, asked, order, size, pages + 1)
            && (WantsMore(server, asked, order, size, limit, total, pages + 1) <==>
                  |page| >= size && (total.Some? ==> |rows| < total.value) && (limit > 0 ==> |rows| < limit))
  {
  }

  /** Without `$count`, a page with rows starts before the server runs out. */
  lemma StillSends(server: Server, bound: nat, n: nat, order: nat, size: nat, skip: nat, total: Option<nat>)
    requires total == None ==> RunsOut(server, bound)
    ensures total == None && server(n, order, size, skip).Some? && skip >= bound ==> server(n, order, size, skip).value == []
  {
  }

  lemma {:induction false} KeysAtMostRows(rows: seq<Row>)
    ensures |KeysOf(rows)| <= |rows|
  {
    if rows == [] {
      assert KeysOf(rows) == {};
    } else {
      KeysAtMostRows(rows[1..]);
      assert KeysOf(rows) == {rows[0].key} + KeysOf(rows[1..]);
    }
  }

  lemma EmptyReadInOrder(server: Server, table: seq<Row>, keyCount: nat, n: nat, order: nat, size: nat)
    requires ReadsTable(server, table, keyCount) && server(n, order, size, 0).Some?
    ensures ReadInOrder([], table, order)
  {
    var s :| IsOrdering(s, table, order) && server(n, order, size, 0).value == Window(s, 0, size);
    assert SamePrefixes([], s, order);
  }

  lemma ExtendRead(server: Server, table: seq<Row>, keyCount: nat, n: nat, order: nat, size: nat,
                   rows: seq<Row>, page: seq<Row>)
    requires ReadsTable(server, table, keyCount) && size > 0
    requires server(n, order, size, |rows|) == Some(page) && ReadInOrder(rows, table, order)
    ensures ReadInOrder(rows + page, table, order)
    ensures |rows + page| <= |table| && (|page| < size || page == [] ==> |rows + page| == |table|)
  {
    var s :| IsOrdering(s, table, order) && SamePrefixes(rows, s, order);
    var q :| IsOrdering(q, table, order) && server(n, order, size, |rows|).value == Window(q, |rows|, size);
    SameElements(s, table);
    SameElements(q, table);
    OrderingsAgreeOnPrefixes(s, q, order);
    PageExtends(rows, page, s, q, order, size);
  }

  lemma PageExtends(rows: seq<Row>, page: seq<Row>, s: seq<Row>, q: seq<Row>, order: nat, size: nat)
    requires SamePrefixes(rows, s, order) && Prefixes(s, order) == Prefixes(q, order)
    requires page == Window(q, |rows|, size) && size > 0
    ensures SamePrefixes(rows + page, s, order) && forall r | r in page :: r in q
    ensures |page| < size ==> |rows + page| == |s|
  {
    assert |s| == |Prefixes(s, order)| == |Prefixes(q, order)| == |q|;
    PrefixesConcat(rows, page, order);
  }

  // --- any two allowed orders agree on the prefixes --------------------------------

  lemma OrderingsAgreeOnPrefixes(s: seq<Row>, q: seq<Row>, order: nat)
    requires multiset(s) == multiset(q)
    requires LexSorted(Prefixes(s, order)) && LexSorted(Prefixes(q, order))
    ensures Prefixes(s, order) == Prefixes(q, order)
  {
    PrefixesKeepMultiset(s, q, order);
    SortedIsUnique(Prefixes(s, order), Prefixes(q, order));
  }

  lemma PrefixesConcat(a: seq<Row>, b: seq<Row>, order: nat)
    ensures Prefixes(a + b, order) == Prefixes(a, order) + Prefixes(b, order)
  {
  }

  lemma {:induction false} PrefixesKeepMultiset(s: seq<Row>, q: seq<Row>, order: nat)
    requires multiset(s) == multiset(q)
    ensures multiset(Prefixes(s, order)) == multiset(Prefixes(q, order))
  {
    SameElements(s, q);
    if s != [] {
      assert s[0] in q;
      var j :| 0 <= j < |q| && q[j] == s[0];
      var rest := q[..j] + q[j + 1..];
      WithoutFirst(s);
      WithoutOne(q, j);
      PrefixesKeepMultiset(s[1..], rest, order);
      PrefixesWithBack(s, q, j, order);
    }
  }

  lemma PrefixesWithBack(s: seq<Row>, q: seq<Row>, j: nat, order: nat)
    requires s != [] && j < |q| && q[j] == s[0]
    requires multiset(Prefixes(s[1..], order)) == multiset(Prefixes(q[..j] + q[j + 1..], order))
    ensures multiset(Prefixes(s, order)) == multiset(Prefixes(q, order))
  {
    hide Prefixes, Prefix;
    var x := Prefix(s[0], order);
    assert multiset(Prefixes(q, order)) == multiset(Prefixes(s[1..], order)) + multiset{x} by {
      PrefixesWithoutOne(q, j, order);
    }
    assert multiset(Prefixes(s, order)) == multiset(Prefixes(s[1..], order)) + multiset{x} by {
      PrefixesFirst(s, order);
    }
  }

  lemma PrefixesFirst(s: seq<Row>, order: nat)
    requires s != []
    ensures multiset(Prefixes(s, order)) == multiset(Prefixes(s[1..], order)) + multiset{Prefix(s[0], order)}
  {
    assert Prefixes(s, order) == [Prefix(s[0], order)] + Prefixes(s[1..], order);
  }

  lemma PrefixesWithoutOne(q: seq<Row>, j: nat, order: nat)
    requires j < |q|
    ensures multiset(Prefixes(q, order)) ==
            multiset(Prefixes(q[..j] + q[j + 1..], order)) + multiset{Prefix(q[j], order)}
  {
    PrefixesOfRest(q, j, order);
    WithoutOne(Prefixes(q, order), j);
  }

  lemma PrefixesOfRest(q: seq<Row>, j: nat, order: nat)
    requires j < |q|
    ensures Prefixes(q[..j] + q[j + 1..], order) == Prefixes(q, order)[..j] + Prefixes(q, order)[j + 1..]
  {
  }

  lemma {:induction false} LexLeAntisymmetric(a: seq<int>, b: seq<int>)
    requires LexLe(a, b) && LexLe(b, a)
    ensures a == b
  {
    if a != [] && b != [] {
      LexLeAntisymmetric(a[1..], b[1..]);
      assert a == [a[0]] + a[1..] && b == [b[0]] + b[1..];
    }
  }

  lemma {:induction false} LexLeReflexive(a: seq<int>)
    ensures LexLe(a, a)
  {
    if a != [] {
      LexLeReflexive(a[1..]);
    }
  }

  lemma FirstIsLeast(a: seq<seq<int>>, x: seq<int>)
    requires LexSorted(a) && x in a
    ensures LexLe(a[0], x)
  {
    if x == a[0] {
      LexLeReflexive(x);
    } else {
      assert a == [a[0]] + a[1..];
    }
  }

  lemma {:induction false} SortedIsUnique(a: seq<seq<int>>, b: seq<seq<int>>)
    requires LexSorted(a) && LexSorted(b) && multiset(a) == multiset(b)
    ensures a == b
  {
    SameElements(a, b);
    if a != [] {
      FirstIsLeast(a, b[0]);
      FirstIsLeast(b, a[0]);
      LexLeAntisymmetric(a[0], b[0]);
      WithoutFirst(a);
      WithoutFirst(b);
      SortedIsUnique(a[1..], b[1..]);
      assert a == [a[0]] + a[1..] && b == [b[0]] + b[1..];
    }
  }

  // --- what a finished read lets the reader conclude --------------------------------

  /** A read of the table's size has the table's prefix values with their multiplicities, so a
      missing key and a repeated key each lie in a group of rows tied on the accepted prefix. */
  lemma FullReadHasTablePrefixes(rows: seq<Row>, table: seq<Row>, keyCount: nat, order: nat)
    requires KeyedTable(table, keyCount) && ReadInOrder(rows, table, order) && |rows| == |table|
    ensures multiset(Prefixes(rows, order)) == multiset(Prefixes(table, order))
    ensures forall t | t in table && t !in rows ::
              exists u :: u in table && u != t && Prefix(u, order) == Prefix(t, order)
    ensures forall i, j | 0 <= i < j < |rows| && rows[i].key == rows[j].key ::
              exists u :: u in table && u != rows[i] && Prefix(u, order) == Prefix(rows[i], order)
  {
    var s: seq<Row> :| IsOrdering(s, table, order) && SamePrefixes(rows, s, order);
    SameElements(s, table);
    assert Prefixes(rows, order) == Prefixes(s, order);
    PrefixesKeepMultiset(s, table, order);
    forall t | t in table && t !in rows
      ensures exists u :: u in table && u != t && Prefix(u, order) == Prefix(t, order)
    {
      var i :| 0 <= i < |s| && s[i] == t;
      assert rows[i] in rows && rows[i] in table;
      assert Prefixes(rows, order)[i] == Prefixes(s, order)[i];
    }
    forall i, j | 0 <= i < j < |rows| && rows[i].key == rows[j].key
      ensures exists u :: u in table && u != rows[i] && Prefix(u, order) == Prefix(rows[i], order)
    {
      KeyedHasNoRepeats(table, keyCount);
      NoRepeatsKept(table, s);
      assert s[i] in table && s[j] in table && rows[i] in table && rows[j] in table;
      assert Prefixes(rows, order)[i] == Prefixes(s, order)[i] && Prefixes(rows, order)[j] == Prefixes(s, order)[j];
    }
  }

  /** With the whole key accepted, what was read is the beginning of the table in key order. */
  lemma FullKeyReadIsExact(rows: seq<Row>, table: seq<Row>, keyCount: nat)
    requires KeyedTable(table, keyCount) && ReadInOrder(rows, table, keyCount)
    ensures exists s :: IsOrdering(s, table, keyCount) && rows <= s
    ensures forall i, j | 0 <= i < j < |rows| :: rows[i] != rows[j]
    ensures |rows| == |table| ==> multiset(rows) == multiset(table)
  {
    var s: seq<Row> :| IsOrdering(s, table, keyCount) && SamePrefixes(rows, s, keyCount);
    SameElements(s, table);
    forall i | 0 <= i < |rows| ensures rows[i] == s[i] {
      assert rows[i] in table && s[i] in table;
      assert Prefixes(rows, keyCount)[i] == Prefixes(s, keyCount)[i];
      SameKeySameRow(rows[i], s[i], table, keyCount);
    }
    assert rows == s[..|rows|];
    assert |rows| == |s| ==> rows == s;
    KeyedHasNoRepeats(table, keyCount);
    NoRepeatsKept(table, s);
  }

  lemma SameKeySameRow(r: Row, u: Row, table: seq<Row>, keyCount: nat)
    requires KeyedTable(table, keyCount) && r in table && u in table
    requires Prefix(r, keyCount) == Prefix(u, keyCount)
    ensures r == u
  {
    assert r.key == r.key[..keyCount] == u.key[..keyCount] == u.key;
  }

  lemma KeyedHasNoRepeats(table: seq<Row>, keyCount: nat)
    requires KeyedTable(table, keyCount)
    ensures NoRepeats(table)
  {
  }

  /** In any order whatever: a read that has the table's size misses exactly as many keys as it
      repeats, so a read without duplicates is the table. */
  lemma MissingEqualsDuplicates(rows: seq<Row>, table: seq<Row>, keyCount: nat)
    requires KeyedTable(table, keyCount) && |rows| == |table|
    requires forall r | r in rows :: r in table
    ensures |KeysOf(table) - KeysOf(rows)| == |rows| - |KeysOf(rows)|
    ensures |rows| == |KeysOf(rows)| ==> multiset(rows) == multiset(table)
  {
    DistinctKeys(table);
    assert KeysOf(rows) <= KeysOf(table);
    assert KeysOf(table) == KeysOf(rows) + (KeysOf(table) - KeysOf(rows));
    if |rows| == |KeysOf(rows)| {
      assert KeysOf(rows) == KeysOf(table);
      AllKeysOnce(rows);
      SameKeysSameRows(rows, table);
    }
  }

  lemma CompleteReadMisses(out: ReadOut, table: seq<Row>, keyCount: nat, served: bool)
    requires served ==> forall r | r in out.rows :: r in table
    requires out.duplicates == |out.rows| - |KeysOf(out.rows)|
    ensures served && KeyedTable(table, keyCount) && out.total == Some(|table|) && out.Complete() ==>
              MissesWhatItRepeats(out, table)
  {
    if served && KeyedTable(table, keyCount) && |out.rows| == |table| {
      MissingEqualsDuplicates(out.rows, table, keyCount);
    }
  }

  lemma {:induction false} DistinctKeys(table: seq<Row>)
    requires forall i, j | 0 <= i < j < |table| :: table[i].key != table[j].key
    ensures |KeysOf(table)| == |table|
  {
    if table == [] {
      assert KeysOf(table) == {};
    } else {
      DistinctKeys(table[1..]);
      assert KeysOf(table) == {table[0].key} + KeysOf(table[1..]);
    }
  }

  lemma {:induction false} AllKeysOnce(rows: seq<Row>)
    requires |KeysOf(rows)| == |rows|
    ensures forall i, j | 0 <= i < j < |rows| :: rows[i].key != rows[j].key
  {
    if rows != [] {
      KeysAtMostRows(rows[1..]);
      assert KeysOf(rows) == {rows[0].key} + KeysOf(rows[1..]);
      assert rows[0].key !in KeysOf(rows[1..]);
      AllKeysOnce(rows[1..]);
    }
  }

  lemma SameKeysSameRows(rows: seq<Row>, table: seq<Row>)
    requires NoRepeats(rows) && NoRepeats(table)
    requires forall i, j | 0 <= i < j < |table| :: table[i].key != table[j].key
    requires KeysOf(rows) == KeysOf(table) && forall r | r in rows :: r in table
    ensures multiset(rows) == multiset(table)
  {
    forall r ensures multiset(rows)[r] == multiset(table)[r] {
      CountsOnce(rows, r);
      CountsOnce(table, r);
      if r in table {
        assert r.key in KeysOf(rows);
        var o :| o in rows && o.key == r.key;
        assert o in table;
      }
    }
  }

  // --- fetch_all --------------------------------------------------------------------

  /** What the gateway answers to the n-th request with `$top` and `$skip`; None is any status but 200. */
  type Gateway = (nat, nat, nat) -> Option<seq<Row>>

  datatype Fetch = Fetch(rows: seq<Row>, pages: nat, truncated: bool)

  function FetchFrom(gateway: Gateway, page: nat, maxPages: nat, rows: seq<Row>, pages: nat): Fetch
    decreases maxPages - pages
  {
    if pages >= maxPages then Fetch(rows, pages, true)
    else match gateway(pages, page, pages * page)
      case None => Fetch(rows, pages, false)
      case Some(data) =>
        if |data| < page then Fetch(rows + data, pages + 1, false)
        else FetchFrom(gateway, page, maxPages, rows + data, pages + 1)
  }

  method FetchAll(gateway: Gateway, page: nat, maxPages: nat) returns (fetch: Fetch)
    ensures fetch == FetchFrom(gateway, page, maxPages, [], 0)
  {
    var rows, skip, pages, truncated := [], 0, 0, false;
    while true
      invariant skip == pages * page && !truncated
      invariant FetchFrom(gateway, page, maxPages, rows, pages) == FetchFrom(gateway, page, maxPages, [], 0)
      decreases maxPages - pages
    {
      if pages >= maxPages {
        truncated := true;
        break;
      }
      var reply := gateway(pages, page, skip);
      if reply == None {
        break;
      }
      rows := rows + reply.value;
      pages := pages + 1;
      if |reply.value| < page {
        break;
      }
      skip := skip + page;
    }
    fetch := Fetch(rows, pages, truncated);
  }

  /** The gateway keeps one order of the table across requests. */
  ghost predicate KeepsOrder(gateway: Gateway, table: seq<Row>) {
    forall n, top, skip | gateway(n, top, skip).Some? :: gateway(n, top, skip).value == Window(table, skip, top)
  }

  /** One of the requests needed to read the table within `maxPages` pages is not answered. */
  ghost predicate NeededRequestFails(gateway: Gateway, table: seq<Row>, page: nat, maxPages: nat) {
    exists n: nat :: n < maxPages && n * page < |table| && gateway(n, page, n * page) == None
  }

  /** When the needed requests are answered, `fetch_all` returns the table, or its first
      `maxPages` pages and says that it stopped there. When one of them fails it returns a
      part of the table and says nothing: the promise that truncation is never silent holds
      exactly without such a failure. */
  lemma FetchAllReads(gateway: Gateway, table: seq<Row>, page: nat, maxPages: nat)
    requires page > 0 && KeepsOrder(gateway, table)
    ensures var f := FetchFrom(gateway, page, maxPages, [], 0);
            && f.rows <= table
            && (f.rows == table || f.truncated <==> !NeededRequestFails(gateway, table, page, maxPages))
            && (f.rows == table || f.truncated ==>
                  if |table| < maxPages * page then f.rows == table && !f.truncated
                  else f.rows == table[..maxPages * page] && f.truncated)
            && PagesCounted(gateway, table, page, maxPages, f)
  {
    FetchFromReads(gateway, table, page, maxPages, 0);
  }

  /** The pages counted are those answered: all that are allowed, or the table ended with the last of
      them, or the request for the next one failed. */
  ghost predicate PagesCounted(gateway: Gateway, table: seq<Row>, page: nat, maxPages: nat, f: Fetch) {
    if f.truncated then f.pages == maxPages
    else if f.rows == table && (f.pages > 0 && |table| < f.pages * page) then (f.pages - 1) * page <= |table|
    else f.pages < maxPages && |f.rows| == f.pages * page && gateway(f.pages, page, f.pages * page) == None
  }

  lemma {:induction false} FetchFromReads(gateway: Gateway, table: seq<Row>, page: nat, maxPages: nat, pages: nat)
    requires page > 0 && KeepsOrder(gateway, table) && pages <= maxPages && pages * page <= |table|
    requires forall n: nat | n < pages :: gateway(n, page, n * page).Some?
    ensures var f := FetchFrom(gateway, page, maxPages, table[..pages * page], pages);
            && f.rows <= table
            && (NeededRequestFails(gateway, table, page, maxPages) ==> !f.truncated && f.rows != table)
            && (!NeededRequestFails(gateway, table, page, maxPages) ==>
                  if |table| < maxPages * page then f.rows == table && !f.truncated
                  else f.rows == table[..maxPages * page] && f.truncated)
            && PagesCounted(gateway, table, page, maxPages, f)
    decreases maxPages - pages
  {
    Multiples(page, maxPages, pages);
    if pages < maxPages {
      var reply := gateway(pages, page, pages * page);
      if reply.Some? {
        assert table[..pages * page] + reply.value ==
               if |table| < pages * page + page then table else table[..(pages + 1) * page];
        if pages * page + page <= |table| {
          FetchFromReads(gateway, table, page, maxPages, pages + 1);
        }
      }
    }
  }

  lemma Multiples(page: nat, maxPages: nat, pages: nat)
    requires pages <= maxPages
    ensures (pages + 1) * page == pages * page + page
    ensures pages < maxPages ==> (pages + 1) * page <= maxPages * page
    ensures forall n: nat | n < maxPages :: n * page + page <= maxPages * page
    ensures forall n: nat | n >= pages :: n * page >= pages * page
    ensures forall n: nat | n > pages :: n * page >= pages * page + page
  {
    forall m: nat, n: nat | m <= n ensures m * page <= n * page {
      MulLe(m, n, page);
    }
    forall n: nat | n < maxPages ensures n * page + page <= maxPages * page {
      MulLe(n + 1, maxPages, page);
      assert (n + 1) * page == n * page + page;
    }
    forall n: nat | n > pages ensures n * page >= pages * page + page {
      MulLe(pages + 1, n, page);
    }
  }

  /** Three rows, pages of two, a failure on the second page: two rows and no warning. */
  lemma FailedPageIsSilent(table: seq<Row>)
    requires |table| == 3
    ensures var gateway: Gateway := (n: nat, top: nat, skip: nat) => if n == 0 then Some(Window(table, skip, top)) else None;
            KeepsOrder(gateway, table) && FetchFrom(gateway, 2, 200, [], 0) == Fetch(table[..2], 1, false)
  {
    var gateway: Gateway := (n: nat, top: nat, skip: nat) => if n == 0 then Some(Window(table, skip, top)) else None;
    assert FetchFrom(gateway, 2, 200, [] + table[..2], 1) == Fetch(table[..2], 1, false);
  }
}
