/** The catalog's listing of current Cogs (cogs/catalog.py): the newest row per Cog is chosen first, and the
    filters test that row. The in-memory store sorts, keeps the first of each Cog and filters; the SQL statement
    prefilters its candidates by an index. Both list the same rows, page by page. */
module Catalog {
  import opened Wrappers
  import opened Containment
  import opened LikePattern

  /** A row, at its place: a source, a repository, a digest. Columns the listing does not read are left out. */
  datatype Row = Row(
    source: string, repository: string, digest: string,
    pushedAt: Option<int>, indexedAt: int, indexed: bool, removed: bool,
    cog: Option<string>, name: Option<string>, kind: Option<string>, publisher: Option<string>, card: Option<Json>)

  datatype Filter = Filter(kind: Option<string>, publisher: Option<string>, source: Option<string>, card: CardFilter, q: Option<string>)

  const MAX_LIST_LIMIT := 1000

  // ---- Order ------------------------------------------------------------------------------------

  /** Code-point order. */
  predicate TextLess(a: string, b: string) {
    b != "" && (a == "" || a[0] < b[0] || (a[0] == b[0] && TextLess(a[1..], b[1..])))
  }

  /** `_sort_key`: pushed last first, unknown pushes last; then indexed last first; then by place. */
  predicate Newer(a: Row, b: Row) {
    if a.pushedAt.None? != b.pushedAt.None? then a.pushedAt.Some?
    else if a.pushedAt != b.pushedAt then a.pushedAt.value > b.pushedAt.value
    else if a.indexedAt != b.indexedAt then a.indexedAt > b.indexedAt
    else if a.source != b.source then TextLess(a.source, b.source)
    else if a.repository != b.repository then TextLess(a.repository, b.repository)
    else TextLess(a.digest, b.digest)
  }

  predicate CogLess(a: Row, b: Row) {
    TextLess(a.cog.GetOr(""), b.cog.GetOr(""))
  }

  lemma {:induction false} TextLessTotal(a: string, b: string)
    ensures !(TextLess(a, b) && TextLess(b, a))
    ensures TextLess(a, b) || TextLess(b, a) || a == b
    ensures TextLess(a, b) ==> a != b
  {
    if a != "" && b != "" {
      TextLessTotal(a[1..], b[1..]);
      assert a == [a[0]] + a[1..] && b == [b[0]] + b[1..];
    }
  }

  lemma {:induction false} TextLessTransitive(a: string, b: string, c: string)
    requires TextLess(a, b) && TextLess(b, c)
    ensures TextLess(a, c)
  {
    if a != "" && a[0] == b[0] && b[0] == c[0] {
      TextLessTransitive(a[1..], b[1..], c[1..]);
    }
  }

  predicate SamePlace(a: Row, b: Row) {
    a.source == b.source && a.repository == b.repository && a.digest == b.digest
  }

  /** A strict order in which "not before" chains: what sorting by a key gives. */
  ghost predicate Orders(less: (Row, Row) -> bool) {
    && (forall a, b :: less(a, b) ==> !less(b, a))
    && (forall a, b, c :: !less(b, a) && !less(c, b) ==> !less(c, a))
  }

  lemma NewerTotal(a: Row, b: Row)
    ensures !(Newer(a, b) && Newer(b, a))
    ensures !SamePlace(a, b) ==> Newer(a, b) || Newer(b, a)
  {
    TextLessTotal(a.source, b.source);
    TextLessTotal(a.repository, b.repository);
    TextLessTotal(a.digest, b.digest);
    hide TextLess;
  }

  lemma NotTextLess(a: string, b: string, c: string)
    requires !TextLess(b, a) && !TextLess(c, b)
    ensures !TextLess(c, a)
    ensures a == c ==> a == b
  {
    hide TextLess;
    TextLessTotal(a, b);
    TextLessTotal(b, c);
    TextLessTotal(c, a);
    if TextLess(c, a) {
      if a != b {
        TextLessTransitive(c, a, b);
      }
    } else if a == c && a != b {
      TextLessTransitive(a, b, c);
      TextLessTotal(a, a);
    }
  }

  lemma NotNewerChains(a: Row, b: Row, c: Row)
    requires !Newer(b, a) && !Newer(c, b)
    ensures !Newer(c, a)
  {
    hide TextLess;
    TextLessTotal(a.source, b.source);
    TextLessTotal(b.source, c.source);
    TextLessTotal(a.repository, b.repository);
    TextLessTotal(b.repository, c.repository);
    if !TextLess(b.source, a.source) && !TextLess(c.source, b.source) {
      NotTextLess(a.source, b.source, c.source);
    }
    if !TextLess(b.repository, a.repository) && !TextLess(c.repository, b.repository) {
      NotTextLess(a.repository, b.repository, c.repository);
    }
    if !TextLess(b.digest, a.digest) && !TextLess(c.digest, b.digest) {
      NotTextLess(a.digest, b.digest, c.digest);
    }
  }

  lemma NewerOrders()
    ensures Orders(Newer)
  {
    hide Newer;
    forall a, b | Newer(a, b) ensures !Newer(b, a) {
      NewerTotal(a, b);
    }
    forall a, b, c | !Newer(b, a) && !Newer(c, b) ensures !Newer(c, a) {
      NotNewerChains(a, b, c);
    }
  }

  lemma CogLessOrders()
    ensures Orders(CogLess)
  {
    hide TextLess;
    forall a, b | CogLess(a, b) ensures !CogLess(b, a) {
      TextLessTotal(a.cog.GetOr(""), b.cog.GetOr(""));
    }
    forall a, b, c | !CogLess(b, a) && !CogLess(c, b) ensures !CogLess(c, a) {
      NotTextLess(a.cog.GetOr(""), b.cog.GetOr(""), c.cog.GetOr(""));
    }
  }

  // ---- `list.sort` ------------------------------------------------------------------------------

  predicate Sorted(less: (Row, Row) -> bool, rows: seq<Row>) {
    forall i, j :: 0 <= i < j < |rows| ==> !less(rows[j], rows[i])
  }

  function Insert(less: (Row, Row) -> bool, row: Row, sorted: seq<Row>): seq<Row> {
    if sorted == [] || less(row, sorted[0]) then [row] + sorted else [sorted[0]] + Insert(less, row, sorted[1..])
  }

  /** The language's stable sort. */
  function SortBy(less: (Row, Row) -> bool, rows: seq<Row>): seq<Row> {
    if rows == [] then [] else Insert(less, rows[|rows| - 1], SortBy(less, rows[..|rows| - 1]))
  }

  lemma {:induction false} InsertHolds(less: (Row, Row) -> bool, row: Row, sorted: seq<Row>)
    ensures multiset(Insert(less, row, sorted)) == multiset(sorted) + multiset{row}
    ensures forall r :: r in Insert(less, row, sorted) <==> r == row || r in sorted
  {
    if !(sorted == [] || less(row, sorted[0])) {
      InsertHolds(less, row, sorted[1..]);
      assert sorted == [sorted[0]] + sorted[1..];
    }
  }

  lemma SortedCons(less: (Row, Row) -> bool, first: Row, rest: seq<Row>)
    requires Sorted(less, rest) && forall r :: r in rest ==> !less(r, first)
    ensures Sorted(less, [first] + rest)
  {
  }

  lemma SortedTail(less: (Row, Row) -> bool, sorted: seq<Row>)
    requires Sorted(less, sorted) && sorted != []
    ensures Sorted(less, sorted[1..]) && forall r :: r in sorted[1..] ==> !less(r, sorted[0])
  {
  }

  lemma {:induction false} InsertSorts(less: (Row, Row) -> bool, row: Row, sorted: seq<Row>)
    requires Orders(less) && Sorted(less, sorted)
    ensures Sorted(less, Insert(less, row, sorted))
  {
    hide Sorted;
    if sorted == [] {
      One(less, row);
    } else {
      SortedTail(less, sorted);
      assert sorted == [sorted[0]] + sorted[1..];
      if less(row, sorted[0]) {
        SortedCons(less, row, sorted);
      } else {
        InsertSorts(less, row, sorted[1..]);
        InsertHolds(less, row, sorted[1..]);
        SortedCons(less, sorted[0], Insert(less, row, sorted[1..]));
      }
    }
  }

  lemma One(less: (Row, Row) -> bool, row: Row)
    ensures Sorted(less, [row] + [])
  {
  }

  lemma {:induction false} SortBySorts(less: (Row, Row) -> bool, rows: seq<Row>)
    requires Orders(less)
    ensures Sorted(less, SortBy(less, rows))
    ensures multiset(SortBy(less, rows)) == multiset(rows)
  {
    if rows != [] {
      var n := |rows| - 1;
      SortBySorts(less, rows[..n]);
      InsertSorts(less, rows[n], SortBy(less, rows[..n]));
      InsertHolds(less, rows[n], SortBy(less, rows[..n]));
      assert rows == rows[..n] + [rows[n]];
    }
  }

  // ---- What is listed ---------------------------------------------------------------------------

  predicate Candidate(row: Row, f: Filter) {
    !row.removed && row.indexed && row.cog.Some? && (f.source.Some? ==> row.source == f.source.value)
  }

  /** `matches_query` */
  predicate Matches(row: Row, q: string) {
    || (row.name.Some? && Occurs(Lower(row.name.value), Lower(q)))
    || (row.card.Some? && Field(row.card.value, "description").Some? && Field(row.card.value, "description").value.Str?
        && Occurs(Lower(Field(row.card.value, "description").value.s), Lower(q)))
  }

  predicate PassesCard(row: Row, f: Filter) {
    Document(f.card).Some? ==> Contains(row.card.GetOr(Null), Document(f.card).value, true)
  }

  predicate Tests(row: Row, f: Filter) {
    && (f.kind.Some? ==> row.kind == f.kind)
    && (f.publisher.Some? ==> row.publisher == f.publisher)
    && PassesCard(row, f)
    && (f.q.Some? ==> Matches(row, f.q.value))
  }

  /** The newest candidate of its Cog. */
  predicate Current(rows: set<Row>, f: Filter, row: Row) {
    row in rows && Candidate(row, f) && forall other :: other in rows && Candidate(other, f) && other.cog == row.cog ==> !Newer(other, row)
  }

  /** Choosing the newest row of each Cog, and then filtering. */
  function ListedRows(rows: set<Row>, f: Filter): set<Row> {
    set row | row in rows && Current(rows, f, row) && Tests(row, f)
  }

  // ---- What the SQL statement selects ------------------------------------------------------------

  /** `cog_id IN (SELECT cog_id ... WHERE card @> needle)`: any row of the Cog, current or not, in any source. */
  predicate Prefiltered(rows: set<Row>, f: Filter, row: Row) {
    Document(f.card).Some? ==> exists some :: some in rows && some.cog == row.cog && PassesCard(some, f)
  }

  predicate InnerRow(rows: set<Row>, f: Filter, row: Row) {
    row in rows && Candidate(row, f) && Prefiltered(rows, f, row)
  }

  /** `DISTINCT ON (cog_id)` over the prefiltered candidates, then the outer tests, `q` by `ILIKE`. */
  predicate OuterTests(row: Row, f: Filter) {
    && (f.kind.Some? ==> row.kind == f.kind)
    && (f.publisher.Some? ==> row.publisher == f.publisher)
    && PassesCard(row, f)
    && (f.q.Some? ==>
          || (row.name.Some? && ILike(row.name.value, Pattern(f.q.value)))
          || (row.card.Some? && Field(row.card.value, "description").Some? && Field(row.card.value, "description").value.Str?
              && ILike(Field(row.card.value, "description").value.s, Pattern(f.q.value))))
  }

  function QueryRows(rows: set<Row>, f: Filter): set<Row> {
    set row | row in rows && InnerRow(rows, f, row)
              && (forall other :: other in rows && InnerRow(rows, f, other) && other.cog == row.cog ==> !Newer(other, row))
              && OuterTests(row, f)
  }

  lemma TestsAgree(row: Row, f: Filter)
    ensures OuterTests(row, f) <==> Tests(row, f)
  {
    hide ILike, Occurs, Contains, Document, Pattern, Lower;
    if f.q.Some? {
      if row.name.Some? {
        ILikeIsSubstring(row.name.value, f.q.value);
      }
      if row.card.Some? && Field(row.card.value, "description").Some? && Field(row.card.value, "description").value.Str? {
        ILikeIsSubstring(Field(row.card.value, "description").value.s, f.q.value);
      }
    }
  }

  /** The prefilter never changes the answer: the statement selects the rows that choosing the newest of each Cog
      and then filtering does, whatever older, removed or other sources' rows match. */
  lemma PrefilterChangesNothing(rows: set<Row>, f: Filter)
    ensures QueryRows(rows, f) == ListedRows(rows, f)
  {
    hide Tests, OuterTests, PassesCard, Newer, Document, Candidate;
    forall row ensures row in QueryRows(rows, f) <==> row in ListedRows(rows, f) {
      TestsAgree(row, f);
      if row in rows && Tests(row, f) {
        TestsPassCard(row, f);
        assert Prefiltered(rows, f, row);
        assert forall other :: other in rows && Candidate(other, f) && other.cog == row.cog ==> InnerRow(rows, f, other);
      }
    }
  }

  lemma TestsPassCard(row: Row, f: Filter)
    ensures Tests(row, f) ==> PassesCard(row, f)
  {
    hide PassesCard, Matches;
  }

  // ---- What a listed row is, column by column ---------------------------------------------------

  /** Code-point order, said of the texts: one begins the other, or differs first by a smaller character. */
  predicate Precedes(a: string, b: string) {
    exists n :: 0 <= n < |b| && n <= |a| && a[..n] == b[..n] && (n == |a| || a[n] < b[n])
  }

  lemma {:induction false} TextLessPrecedes(a: string, b: string)
    ensures TextLess(a, b) <==> Precedes(a, b)
  {
    forall n | 0 < n <= |a| && n <= |b| && a[..n] == b[..n] ensures a[0] == b[0] {
      assert a[..n][0] == b[..n][0];
    }
    if a != "" && b != "" && a[0] == b[0] {
      TextLessPrecedes(a[1..], b[1..]);
      if n :| 0 <= n < |b| - 1 && n <= |a| - 1 && a[1..][..n] == b[1..][..n] && (n == |a| - 1 || a[1..][n] < b[1..][n]) {
        assert a[..n + 1] == [a[0]] + a[1..][..n] && b[..n + 1] == [b[0]] + b[1..][..n];
      }
      if n :| 0 <= n < |b| && n <= |a| && a[..n] == b[..n] && (n == |a| || a[n] < b[n]) {
        assert n > 0;
        assert a[1..][..n - 1] == a[..n][1..] && b[1..][..n - 1] == b[..n][1..];
      }
    } else {
      assert a[..0] == b[..0];
    }
  }

  /** Its place comes first: by source, then repository, then digest. */
  predicate PlacedBefore(a: Row, b: Row) {
    || Precedes(a.source, b.source)
    || (a.source == b.source && Precedes(a.repository, b.repository))
    || (a.source == b.source && a.repository == b.repository && Precedes(a.digest, b.digest))
  }

  /** No other is preferred to it: pushed later; pushed at all, where it was not; pushed at the same time and indexed
      later; or, all else the same, at an earlier place. */
  predicate NotBeaten(row: Row, other: Row) {
    && (row.pushedAt.Some? && other.pushedAt.Some? ==> other.pushedAt.value <= row.pushedAt.value)
    && (row.pushedAt.None? ==> other.pushedAt.None?)
    && (other.pushedAt == row.pushedAt ==> other.indexedAt <= row.indexedAt)
    && (other.pushedAt == row.pushedAt && other.indexedAt == row.indexedAt ==> !PlacedBefore(other, row))
  }

  lemma NewerBeats(row: Row, other: Row)
    ensures Newer(other, row) <==> !NotBeaten(row, other)
  {
    hide TextLess, Precedes;
    TextLessPrecedes(other.source, row.source);
    TextLessPrecedes(other.repository, row.repository);
    TextLessPrecedes(other.digest, row.digest);
    TextLessTotal(other.source, row.source);
    TextLessTotal(other.repository, row.repository);
  }

  /** Present, indexed, of a Cog, and in the source asked for. */
  predicate Eligible(row: Row, f: Filter) {
    && !row.removed && row.indexed && row.cog.Some?
    && (f.source.None? || f.source.value == row.source)
  }

  /** What a listed row is. */
  predicate Listed(rows: set<Row>, f: Filter, row: Row) {
    && row in rows && Eligible(row, f)
    && (forall other :: other in rows && Eligible(other, f) && other.cog == row.cog ==> NotBeaten(row, other))
    && (f.kind.Some? ==> row.kind == Some(f.kind.value)) && (f.publisher.Some? ==> row.publisher == Some(f.publisher.value))
    && Asks(row.card.GetOr(Null), f.card)
    && (f.q.Some? ==> Mentions(row, f.q.value))
  }

  /** Its name mentions the text, or its card's description does, case aside. */
  predicate Mentions(row: Row, q: string) {
    || (row.name.Some? && OccursButCase(row.name.value, q))
    || (row.card.Some? && row.card.value.Obj? && "description" in row.card.value.fields
        && row.card.value.fields["description"].Str? && OccursButCase(row.card.value.fields["description"].s, q))
  }

  lemma MatchesMentions(row: Row, q: string)
    ensures Matches(row, q) <==> Mentions(row, q)
  {
    hide Occurs, OccursButCase, Lower;
    if row.name.Some? {
      FoldedOccurs(row.name.value, q);
    }
    if row.card.Some? && Field(row.card.value, "description").Some? && Field(row.card.value, "description").value.Str? {
      FoldedOccurs(Field(row.card.value, "description").value.s, q);
    }
  }

  lemma TestsSay(row: Row, f: Filter)
    ensures Tests(row, f) <==>
              && (f.kind.Some? ==> row.kind == Some(f.kind.value)) && (f.publisher.Some? ==> row.publisher == Some(f.publisher.value))
              && Asks(row.card.GetOr(Null), f.card) && (f.q.Some? ==> Mentions(row, f.q.value))
  {
    hide Matches, Mentions, Asks, Contains, Document;
    PassesIsAsks(row.card.GetOr(Null), f.card);
    if f.q.Some? {
      MatchesMentions(row, f.q.value);
    }
  }

  /** The rows listed, in memory and by the statement, are exactly those, said column by column. */
  lemma ListedExactly(rows: set<Row>, f: Filter)
    ensures forall row :: row in ListedRows(rows, f) <==> Listed(rows, f, row)
    ensures forall row :: row in QueryRows(rows, f) <==> Listed(rows, f, row)
  {
    PrefilterChangesNothing(rows, f);
    hide QueryRows;
    forall row ensures row in ListedRows(rows, f) <==> Listed(rows, f, row) {
      hide Tests, Newer, NotBeaten, Asks, Mentions;
      TestsSay(row, f);
      forall other | other in rows ensures Newer(other, row) <==> !NotBeaten(row, other) {
        NewerBeats(row, other);
      }
    }
  }

  // ---- Listing ----------------------------------------------------------------------------------

  /** A listing of some rows, one per Cog, in the order of their Cogs' ids. */
  ghost predicate IsListing(rows: set<Row>, listing: seq<Row>) {
    && (forall row :: row in listing <==> row in rows)
    && forall i, j :: 0 <= i < j < |listing| ==> CogLess(listing[i], listing[j])
  }

  /** There is one listing of given rows, so a page of it is the same page on either backend. */
  lemma {:induction false} OneListing(rows: set<Row>, a: seq<Row>, b: seq<Row>)
    requires IsListing(rows, a) && IsListing(rows, b)
    ensures a == b
    decreases |a|
  {
    hide CogLess;
    CogLessOrders();
    if a == [] || b == [] {
      NothingListed(rows, a, b);
    } else {
      FirstIsLeast(rows, a, b);
      FirstIsLeast(rows, b, a);
      DropFirst(rows, a);
      DropFirst(rows, b);
      OneListing(rows - {a[0]}, a[1..], b[1..]);
      assert a == [a[0]] + a[1..] && b == [b[0]] + b[1..];
    }
  }

  lemma NothingListed(rows: set<Row>, a: seq<Row>, b: seq<Row>)
    requires (a == [] || b == []) && (forall row :: row in a <==> row in rows) && (forall row :: row in b <==> row in rows)
    ensures a == b
  {
    if a != [] {
      First(a);
    }
    if b != [] {
      First(b);
    }
  }

  lemma First(a: seq<Row>)
    requires a != []
    ensures a[0] in a
  {
  }

  lemma FirstIsLeast(rows: set<Row>, a: seq<Row>, b: seq<Row>)
    requires Orders(CogLess) && IsListing(rows, a) && IsListing(rows, b) && a != [] && b != []
    ensures a[0] == b[0]
  {
    hide CogLess;
    assert a[0] in b && b[0] in a;
    var i :| 0 <= i < |b| && b[i] == a[0];
    var j :| 0 <= j < |a| && a[j] == b[0];
  }

  lemma DropFirst(rows: set<Row>, a: seq<Row>)
    requires Orders(CogLess) && IsListing(rows, a) && a != []
    ensures IsListing(rows - {a[0]}, a[1..])
  {
    hide CogLess;
    forall row ensures row in a[1..] <==> row in rows - {a[0]} {
      if row in a && row != a[0] {
        var i :| 0 <= i < |a| && a[i] == row;
        assert a[1..][i - 1] == row;
      }
      if row in a[1..] {
        var i :| 0 <= i < |a| - 1 && a[1..][i] == row;
        assert a[i + 1] == row && CogLess(a[0], a[i + 1]);
      }
    }
  }

  function Page(listing: seq<Row>, limit: nat, offset: nat): (page: seq<Row>)
    ensures |page| <= limit && forall i :: 0 <= i < |page| ==> offset + i < |listing| && page[i] == listing[offset + i]
    ensures |page| < limit ==> |listing| <= offset + |page|
  {
    if offset >= |listing| then []
    else if offset + limit >= |listing| then listing[offset..] else listing[offset..offset + limit]
  }

  // ---- Rows kept apart --------------------------------------------------------------------------

  predicate OtherPlace(a: Row, b: Row) {
    !SamePlace(a, b)
  }

  predicate OtherCog(a: Row, b: Row) {
    a.cog != b.cog
  }

  predicate Apart(differ: (Row, Row) -> bool, rows: seq<Row>) {
    forall i, j :: 0 <= i < j < |rows| ==> differ(rows[i], rows[j]) && differ(rows[j], rows[i])
  }

  lemma ApartCons(differ: (Row, Row) -> bool, first: Row, rest: seq<Row>)
    requires Apart(differ, rest) && forall r :: r in rest ==> differ(r, first) && differ(first, r)
    ensures Apart(differ, [first] + rest)
  {
  }

  lemma ApartSnoc(differ: (Row, Row) -> bool, rows: seq<Row>, row: Row)
    requires Apart(differ, rows) && forall r :: r in rows ==> differ(r, row) && differ(row, r)
    ensures Apart(differ, rows + [row])
  {
  }

  lemma ApartAt(differ: (Row, Row) -> bool, rows: seq<Row>, i: nat)
    requires Apart(differ, rows) && i < |rows|
    ensures forall r :: r in rows[..i] ==> differ(r, rows[i]) && differ(rows[i], r)
  {
  }

  lemma ApartTail(differ: (Row, Row) -> bool, rows: seq<Row>)
    requires Apart(differ, rows) && rows != []
    ensures Apart(differ, rows[1..]) && forall r :: r in rows[1..] ==> differ(r, rows[0]) && differ(rows[0], r)
  {
  }

  lemma ApartLast(differ: (Row, Row) -> bool, rows: seq<Row>)
    requires Apart(differ, rows) && rows != []
    ensures var n := |rows| - 1;
            Apart(differ, rows[..n]) && forall r :: r in rows[..n] ==> differ(r, rows[n]) && differ(rows[n], r)
  {
  }

  lemma {:induction false} InsertApart(less: (Row, Row) -> bool, differ: (Row, Row) -> bool, row: Row, sorted: seq<Row>)
    requires Apart(differ, sorted) && forall r :: r in sorted ==> differ(r, row) && differ(row, r)
    ensures Apart(differ, Insert(less, row, sorted))
  {
    hide Apart;
    if sorted == [] || less(row, sorted[0]) {
      ApartCons(differ, row, sorted);
    } else {
      ApartTail(differ, sorted);
      assert sorted == [sorted[0]] + sorted[1..];
      InsertApart(less, differ, row, sorted[1..]);
      InsertHolds(less, row, sorted[1..]);
      ApartCons(differ, sorted[0], Insert(less, row, sorted[1..]));
    }
  }

  lemma {:induction false} SortByApart(less: (Row, Row) -> bool, differ: (Row, Row) -> bool, rows: seq<Row>)
    requires Apart(differ, rows)
    ensures Apart(differ, SortBy(less, rows))
    ensures forall r :: r in SortBy(less, rows) <==> r in rows
  {
    hide Apart;
    if rows == [] {
      NothingApart(differ);
    } else {
      var n := |rows| - 1;
      ApartLast(differ, rows);
      SortByApart(less, differ, rows[..n]);
      InsertOneApart(less, differ, rows[..n], rows[n]);
      assert rows == rows[..n] + [rows[n]];
    }
  }

  lemma InsertOneApart(less: (Row, Row) -> bool, differ: (Row, Row) -> bool, rows: seq<Row>, row: Row)
    requires Apart(differ, SortBy(less, rows)) && (forall r :: r in SortBy(less, rows) <==> r in rows)
    requires forall r :: r in rows ==> differ(r, row) && differ(row, r)
    ensures Apart(differ, Insert(less, row, SortBy(less, rows)))
    ensures forall r :: r in Insert(less, row, SortBy(less, rows)) <==> r in rows || r == row
  {
    hide Apart, SortBy, Insert;
    InsertApart(less, differ, row, SortBy(less, rows));
    InsertHolds(less, row, SortBy(less, rows));
  }

  lemma NothingApart(differ: (Row, Row) -> bool)
    ensures Apart(differ, [])
  {
  }

  // ---- The in-memory store ----------------------------------------------------------------------

  predicate FirstOfCog(sorted: seq<Row>, k: nat) {
    k < |sorted| && forall j :: 0 <= j < k ==> sorted[j].cog != sorted[k].cog
  }

  predicate HasCog(rows: seq<Row>, cog: Option<string>) {
    exists r :: r in rows && r.cog == cog
  }

  function Firsts(sorted: seq<Row>): seq<Row> {
    if sorted == [] then []
    else
      var row, before := sorted[|sorted| - 1], Firsts(sorted[..|sorted| - 1]);
      if HasCog(before, row.cog) then before else before + [row]
  }

  /** `newest.setdefault(row.cog_id, row)` down the sorted rows. */
  method Newest(sorted: seq<Row>) returns (newest: seq<Row>)
    ensures newest == Firsts(sorted)
  {
    newest := [];
    for i := 0 to |sorted|
      invariant newest == Firsts(sorted[..i])
    {
      assert sorted[..i + 1][..i] == sorted[..i];
      if !HasCog(newest, sorted[i].cog) {
        newest := newest + [sorted[i]];
      }
    }
    assert sorted[..|sorted|] == sorted;
  }

  lemma {:induction false} FirstsHold(sorted: seq<Row>, row: Row)
    ensures row in Firsts(sorted) <==> exists k: nat :: FirstOfCog(sorted, k) && sorted[k] == row
    ensures Apart(OtherCog, Firsts(sorted))
    ensures HasCog(sorted, row.cog) <==> HasCog(Firsts(sorted), row.cog)
  {
    hide Apart, HasCog, FirstOfCog;
    if sorted == [] {
      FirstsOfNothing(row);
    } else {
      var n := |sorted| - 1;
      var before, last := sorted[..n], sorted[n];
      assert sorted == before + [last];
      FirstsHold(before, row);
      FirstsHold(before, last);
      HasCogSnoc(before, last, row.cog);
      FirstOfCogSnoc(before, last, row);
      if !HasCog(Firsts(before), last.cog) {
        HasCogSnoc(Firsts(before), last, row.cog);
        NewCogApart(Firsts(before), last);
      } else if last.cog == row.cog {
        assert HasCog(Firsts(before), row.cog);
      }
    }
  }

  lemma FirstsOfNothing(row: Row)
    ensures !HasCog([], row.cog) && Firsts([]) == [] && Apart(OtherCog, []) && forall k: nat :: !FirstOfCog([], k)
  {
  }

  lemma HasCogSnoc(rows: seq<Row>, last: Row, cog: Option<string>)
    ensures HasCog(rows + [last], cog) <==> HasCog(rows, cog) || last.cog == cog
  {
    assert last in rows + [last];
  }

  lemma NewCogApart(rows: seq<Row>, row: Row)
    requires Apart(OtherCog, rows) && !HasCog(rows, row.cog)
    ensures Apart(OtherCog, rows + [row])
  {
    ApartSnoc(OtherCog, rows, row);
  }

  lemma FirstOfCogSnoc(rows: seq<Row>, last: Row, row: Row)
    ensures (exists k: nat :: FirstOfCog(rows + [last], k) && (rows + [last])[k] == row)
       <==> (exists k: nat :: FirstOfCog(rows, k) && rows[k] == row) || (row == last && !HasCog(rows, last.cog))
  {
    var all := rows + [last];
    if k: nat :| FirstOfCog(all, k) && all[k] == row {
      if k < |rows| {
        assert forall j :: 0 <= j < k ==> all[j] == rows[j];
        assert FirstOfCog(rows, k);
      } else {
        assert forall j :: 0 <= j < k ==> all[j] == rows[j];
        assert !HasCog(rows, last.cog);
      }
    }
    if k: nat :| FirstOfCog(rows, k) && rows[k] == row {
      assert FirstOfCog(all, k) && all[k] == row;
    }
    if row == last && !HasCog(rows, last.cog) {
      forall j | 0 <= j < |rows| ensures all[j].cog != last.cog {
        assert rows[j] in rows;
      }
      assert FirstOfCog(all, |rows|) && all[|rows|] == row;
    }
  }

  lemma FirstIsCurrent(rows: set<Row>, f: Filter, sorted: seq<Row>, row: Row)
    requires Sorted(Newer, sorted) && Apart(OtherPlace, sorted)
    requires forall r :: r in sorted <==> r in rows && Candidate(r, f)
    ensures (exists k: nat :: FirstOfCog(sorted, k) && sorted[k] == row) <==> Current(rows, f, row)
  {
    hide Newer, Candidate;
    if k: nat :| FirstOfCog(sorted, k) && sorted[k] == row {
      forall other | other in rows && Candidate(other, f) && other.cog == row.cog ensures !Newer(other, row) {
        var j :| 0 <= j < |sorted| && sorted[j] == other;
        if j == k {
          NewerTotal(row, row);
        }
      }
    }
    if Current(rows, f, row) {
      assert row in sorted;
      var k: nat :| k < |sorted| && sorted[k] == row;
      forall j | 0 <= j < k ensures sorted[j].cog != row.cog {
        assert sorted[j] in sorted;
        NewerTotal(sorted[j], row);
      }
      assert FirstOfCog(sorted, k);
    }
  }

  datatype Refusal = LimitTooSmall | NegativeOffset

  /** An artifact as it is indexed: its row, the status it is to have, and whether its times carry a zone. */
  datatype Artifact = Artifact(row: Row, status: string, pushedAware: bool, indexedAware: bool)

  datatype Unstorable = UnknownStatus | NaiveTime | CardWithNul

  const INDEXED := "indexed"
  const STATUSES := {INDEXED, "non_cog", "failed"}

  /** `contains_nul`: a NUL in some string of the tree, a key included. */
  predicate ContainsNul(j: Json) {
    match j
    case Str(s) => '\0' in s
    case Arr(items) => exists item :: item in items && ContainsNul(item)
    case Obj(fields) => exists k :: k in fields && ('\0' in k || ContainsNul(fields[k]))
    case _ => false
  }

  /** Every text of a tree: its strings, and its fields' names. */
  function Texts(j: Json): set<string> {
    match j
    case Str(s) => {s}
    case Arr(items) => set i, t | 0 <= i < |items| && t in Texts(items[i]) :: t
    case Obj(fields) => fields.Keys + set k, t | k in fields && t in Texts(fields[k]) :: t
    case _ => {}
  }

  /** The search for a NUL misses none of them, and finds none elsewhere. */
  lemma {:induction false} NulIsInAText(j: Json)
    ensures ContainsNul(j) <==> exists t :: t in Texts(j) && '\0' in t
    decreases j
  {
    match j
    case Str(s) => assert s in Texts(j);
    case Arr(items) =>
      forall i | 0 <= i < |items| ensures ContainsNul(items[i]) <==> exists t :: t in Texts(items[i]) && '\0' in t {
        NulIsInAText(items[i]);
      }
      if ContainsNul(j) {
        var item :| item in items && ContainsNul(item);
        var i :| 0 <= i < |items| && items[i] == item;
        var t :| t in Texts(items[i]) && '\0' in t;
        assert t in Texts(j);
      }
    case Obj(fields) =>
      forall k | k in fields ensures ContainsNul(fields[k]) <==> exists t :: t in Texts(fields[k]) && '\0' in t {
        NulIsInAText(fields[k]);
      }
      if ContainsNul(j) {
        var k :| k in fields && ('\0' in k || ContainsNul(fields[k]));
        if '\0' in k {
          assert k in Texts(j);
        } else {
          var t :| t in Texts(fields[k]) && '\0' in t;
          assert t in Texts(j);
        }
      }
    case _ =>
  }

  /** No time is stored that a session would read in its own zone, and no card that `jsonb` refuses. */
  predicate Storable(a: Artifact) {
    && a.status in STATUSES
    && (a.row.pushedAt.Some? ==> a.pushedAware) && a.indexedAware
    && (a.row.card.Some? ==> !ContainsNul(a.row.card.value))
  }

  /** The row stored of an artifact: present, and listed only if it was indexed. */
  function Stored(a: Artifact): Row {
    a.row.(indexed := a.status == INDEXED, removed := false)
  }

  class InMemoryCogCatalogStore {
    var rows: seq<Row>

    constructor ()
      ensures Valid() && rows == []
    {
      rows := [];
    }

    /** The rows are keyed by place. */
    predicate Valid()
      reads this
    {
      Apart(OtherPlace, rows)
    }

    function All(): set<Row>
      reads this
    {
      set row | row in rows
    }

    /** The row at its place becomes this one, present again; every other row is as it was. What cannot be stored is
        refused, and changes nothing. */
    method Upsert(artifact: Artifact) returns (refused: Option<Unstorable>)
      requires Valid()
      modifies this
      ensures Valid()
      ensures refused.None? <==> Storable(artifact)
      ensures refused == Some(UnknownStatus) <==> artifact.status !in {"indexed", "non_cog", "failed"}
      ensures refused == Some(CardWithNul) ==> artifact.row.card.Some? && ContainsNul(artifact.row.card.value)
      ensures refused == Some(NaiveTime) ==> !artifact.indexedAware || (artifact.row.pushedAt.Some? && !artifact.pushedAware)
      ensures refused.Some? ==> rows == old(rows)
      ensures refused.None? ==>
                forall r :: r in All() <==> r == Stored(artifact) || (r in old(All()) && OtherPlace(r, artifact.row))
    {
      refused := Refuses(artifact);
      if refused.Some? {
        return;
      }
      var stored := Stored(artifact);
      var i := 0;
      while i < |rows| && OtherPlace(rows[i], stored)
        invariant i <= |rows| && rows == old(rows)
        invariant forall j :: 0 <= j < i ==> OtherPlace(rows[j], stored)
      {
        i := i + 1;
      }
      if i < |rows| {
        rows := rows[i := stored];
      } else {
        rows := rows + [stored];
      }
      Holds(old(rows), rows, i, stored);
    }

    static method Refuses(artifact: Artifact) returns (refused: Option<Unstorable>)
      ensures refused.None? <==> Storable(artifact)
      ensures refused == Some(UnknownStatus) <==> artifact.status !in STATUSES
      ensures refused == Some(CardWithNul) ==> artifact.row.card.Some? && ContainsNul(artifact.row.card.value)
      ensures refused == Some(NaiveTime) ==> !artifact.indexedAware || (artifact.row.pushedAt.Some? && !artifact.pushedAware)
    {
      if artifact.status !in STATUSES {
        return Some(UnknownStatus);
      }
      if (artifact.row.pushedAt.Some? && !artifact.pushedAware) || !artifact.indexedAware {
        return Some(NaiveTime);
      }
      if artifact.row.card.Some? && ContainsNul(artifact.row.card.value) {
        return Some(CardWithNul);
      }
      return None;
    }

    /** `mark_removed`: exactly this source's present rows that the sweep enumerated neither by digest nor
        shielded by repository are marked; the number marked is returned, and no row is dropped. */
    method MarkRemoved(source: string, present: map<string, set<string>>, shielded: set<string>) returns (marked: nat)
      requires Valid()
      modifies this
      ensures Valid() && |rows| == |old(rows)|
      ensures forall i :: 0 <= i < |rows| ==> rows[i] == Swept(old(rows)[i], source, present, shielded)
      ensures marked == CountGone(old(rows), source, present, shielded)
      ensures forall i :: 0 <= i < |rows| ==>
                && rows[i] == old(rows)[i].(removed := rows[i].removed)
                && (rows[i].removed <==>
                      || old(rows)[i].removed
                      || (rows[i].source == source && rows[i].repository !in shielded
                          && (rows[i].repository in present ==> rows[i].digest !in present[rows[i].repository])))
      ensures marked == |set i | 0 <= i < |rows| && rows[i].removed && !old(rows)[i].removed|
    {
      hide Gone, Apart;
      marked := 0;
      for i := 0 to |rows|
        invariant |rows| == |old(rows)| && marked == CountGone(old(rows)[..i], source, present, shielded)
        invariant forall j :: 0 <= j < i ==> rows[j] == Swept(old(rows)[j], source, present, shielded)
        invariant forall j :: i <= j < |rows| ==> rows[j] == old(rows)[j]
      {
        assert old(rows)[..i + 1][..i] == old(rows)[..i];
        if Gone(rows[i], source, present, shielded) {
          rows := rows[i := rows[i].(removed := true)];
          marked := marked + 1;
        }
      }
      assert old(rows)[..|old(rows)|] == old(rows);
      SweptApart(old(rows), rows, source, present, shielded);
      SweptSays(old(rows), rows, source, present, shielded);
      SweptCounts(old(rows), rows, source, present, shielded);
    }

    /** `list_current`: a page of the listing of each Cog's newest row, where it passes the filters. */
    method ListCurrent(f: Filter, limit: int, offset: int) returns (r: Result<seq<Row>, Refusal>)
      requires Valid()
      ensures r == Err(LimitTooSmall) <==> limit < 1
      ensures r == Err(NegativeOffset) <==> limit >= 1 && offset < 0
      ensures r.Ok? ==> exists listing :: IsListing(ListedRows(All(), f), listing)
                                          && r.value == Page(listing, if limit <= MAX_LIST_LIMIT then limit else MAX_LIST_LIMIT, offset)
      ensures r.Ok? ==> |r.value| <= limit && |r.value| <= 1000
      ensures r.Ok? ==> forall row :: row in r.value ==> Listed(All(), f, row)
      ensures r.Ok? ==> forall i, j :: 0 <= i < j < |r.value| ==> Precedes(r.value[i].cog.GetOr(""), r.value[j].cog.GetOr(""))
    {
      hide Candidate, Tests, Newer, CogLess, Sorted, Apart;
      if limit < 1 {
        return Err(LimitTooSmall);
      }
      if offset < 0 {
        return Err(NegativeOffset);
      }
      var candidates := Candidates(rows, f);
      NewerOrders();
      SortBySorts(Newer, candidates);
      SortByApart(Newer, OtherPlace, candidates);
      var sorted := SortBy(Newer, candidates);
      var newest := Newest(sorted);
      forall row ensures row in newest <==> Current(All(), f, row) {
        FirstsHold(sorted, row);
        FirstIsCurrent(All(), f, sorted, row);
      }
      FirstsHold(sorted, NOWHERE);
      CurrentHasCog(All(), f);
      var matching := Matching(newest, f);
      CogLessOrders();
      SortBySorts(CogLess, matching);
      SortByApart(CogLess, OtherCog, matching);
      var listing := SortBy(CogLess, matching);
      StrictByCog(listing);
      assert IsListing(ListedRows(All(), f), listing);
      var size := if limit <= MAX_LIST_LIMIT then limit else MAX_LIST_LIMIT;
      PageIsListed(All(), f, listing, size, offset);
      r := Ok(Page(listing, size, offset));
    }
  }

  lemma PageIsListed(rows: set<Row>, f: Filter, listing: seq<Row>, limit: nat, offset: nat)
    requires IsListing(ListedRows(rows, f), listing)
    ensures var page := Page(listing, limit, offset);
            && (forall row :: row in page ==> Listed(rows, f, row))
            && forall i, j :: 0 <= i < j < |page| ==> Precedes(page[i].cog.GetOr(""), page[j].cog.GetOr(""))
  {
    hide Listed, Precedes, ListedRows, TextLess;
    ListedExactly(rows, f);
    var page := Page(listing, limit, offset);
    forall row | row in page ensures Listed(rows, f, row) {
      var i :| 0 <= i < |page| && page[i] == row;
      assert listing[offset + i] in listing;
    }
    forall i, j | 0 <= i < j < |page| ensures Precedes(page[i].cog.GetOr(""), page[j].cog.GetOr("")) {
      assert CogLess(listing[offset + i], listing[offset + j]);
      TextLessPrecedes(page[i].cog.GetOr(""), page[j].cog.GetOr(""));
    }
  }

  predicate Gone(row: Row, source: string, present: map<string, set<string>>, shielded: set<string>) {
    && row.source == source && !row.removed && row.repository !in shielded
    && !(row.repository in present && row.digest in present[row.repository])
  }

  function Swept(row: Row, source: string, present: map<string, set<string>>, shielded: set<string>): Row {
    if Gone(row, source, present, shielded) then row.(removed := true) else row
  }

  function CountGone(rows: seq<Row>, source: string, present: map<string, set<string>>, shielded: set<string>): nat {
    if rows == [] then 0
    else
      CountGone(rows[..|rows| - 1], source, present, shielded)
      + if Gone(rows[|rows| - 1], source, present, shielded) then 1 else 0
  }

  lemma SweptSays(before: seq<Row>, after: seq<Row>, source: string, present: map<string, set<string>>, shielded: set<string>)
    requires |after| == |before| && forall i :: 0 <= i < |after| ==> after[i] == Swept(before[i], source, present, shielded)
    ensures forall i :: 0 <= i < |after| ==>
              && after[i] == before[i].(removed := after[i].removed)
              && (after[i].removed <==>
                    || before[i].removed
                    || (after[i].source == source && after[i].repository !in shielded
                        && (after[i].repository in present ==> after[i].digest !in present[after[i].repository])))
  {
  }

  lemma {:induction false} SweptCounts(before: seq<Row>, after: seq<Row>, source: string, present: map<string, set<string>>, shielded: set<string>)
    requires |after| == |before| && forall i :: 0 <= i < |after| ==> after[i] == Swept(before[i], source, present, shielded)
    ensures CountGone(before, source, present, shielded) == |set i | 0 <= i < |after| && after[i].removed && !before[i].removed|
  {
    if before != [] {
      var n := |before| - 1;
      SweptCounts(before[..n], after[..n], source, present, shielded);
      var fewer := set i | 0 <= i < n && after[..n][i].removed && !before[..n][i].removed;
      var all := set i | 0 <= i < |after| && after[i].removed && !before[i].removed;
      assert all == if after[n].removed && !before[n].removed then fewer + {n} else fewer;
    }
  }

  lemma SweptApart(before: seq<Row>, after: seq<Row>, source: string, present: map<string, set<string>>, shielded: set<string>)
    requires Apart(OtherPlace, before) && |after| == |before|
    requires forall i :: 0 <= i < |after| ==> after[i] == Swept(before[i], source, present, shielded)
    ensures Apart(OtherPlace, after)
  {
    hide Gone;
    forall i, j | 0 <= i < j < |after| ensures OtherPlace(after[i], after[j]) && OtherPlace(after[j], after[i]) {
      assert OtherPlace(before[i], before[j]);
    }
  }

  lemma Holds(before: seq<Row>, after: seq<Row>, i: nat, stored: Row)
    requires Apart(OtherPlace, before) && i <= |before|
    requires forall j :: 0 <= j < i ==> OtherPlace(before[j], stored)
    requires if i < |before| then SamePlace(before[i], stored) && after == before[i := stored] else after == before + [stored]
    ensures Apart(OtherPlace, after)
    ensures forall r :: r in after <==> r == stored || (r in before && OtherPlace(r, stored))
  {
    assert after[i] == stored;
    forall j | 0 <= j < |before| && j != i ensures OtherPlace(before[j], stored) && after[j] == before[j] {
      if i < j {
        assert OtherPlace(before[i], before[j]);
      }
    }
    forall r ensures r in after <==> r == stored || (r in before && OtherPlace(r, stored)) {
      if r in before && OtherPlace(r, stored) {
        var j :| 0 <= j < |before| && before[j] == r;
        assert after[j] == r;
      }
      if r in after && r != stored {
        var j :| 0 <= j < |after| && after[j] == r;
        assert before[j] == r;
      }
    }
  }

  method Candidates(rows: seq<Row>, f: Filter) returns (found: seq<Row>)
    requires Apart(OtherPlace, rows)
    ensures Apart(OtherPlace, found)
    ensures forall r :: r in found <==> r in rows && Candidate(r, f)
  {
    hide Candidate, Apart;
    found := [];
    NothingApart(OtherPlace);
    for i := 0 to |rows|
      invariant Apart(OtherPlace, found)
      invariant forall r :: r in found <==> r in rows[..i] && Candidate(r, f)
    {
      assert rows[..i + 1] == rows[..i] + [rows[i]];
      ApartAt(OtherPlace, rows, i);
      if Candidate(rows[i], f) {
        ApartSnoc(OtherPlace, found, rows[i]);
        found := found + [rows[i]];
      }
    }
    assert rows[..|rows|] == rows;
  }

  method Matching(newest: seq<Row>, f: Filter) returns (matching: seq<Row>)
    requires Apart(OtherCog, newest)
    ensures Apart(OtherCog, matching)
    ensures forall r :: r in matching <==> r in newest && Tests(r, f)
  {
    hide Tests, Apart;
    matching := [];
    NothingApart(OtherCog);
    for i := 0 to |newest|
      invariant Apart(OtherCog, matching)
      invariant forall r :: r in matching <==> r in newest[..i] && Tests(r, f)
    {
      assert newest[..i + 1] == newest[..i] + [newest[i]];
      ApartAt(OtherCog, newest, i);
      if Tests(newest[i], f) {
        ApartSnoc(OtherCog, matching, newest[i]);
        matching := matching + [newest[i]];
      }
    }
    assert newest[..|newest|] == newest;
  }

  const NOWHERE := Row("", "", "", None, 0, false, false, None, None, None, None, None)

  lemma CurrentHasCog(rows: set<Row>, f: Filter)
    ensures forall row :: Current(rows, f, row) ==> row.cog.Some?
  {
  }

  lemma StrictByCog(listing: seq<Row>)
    requires Sorted(CogLess, listing) && Apart(OtherCog, listing) && forall r :: r in listing ==> r.cog.Some?
    ensures forall i, j :: 0 <= i < j < |listing| ==> CogLess(listing[i], listing[j])
  {
    hide TextLess;
    forall i, j | 0 <= i < j < |listing| ensures CogLess(listing[i], listing[j]) {
      assert listing[i] in listing && listing[j] in listing;
      TextLessTotal(listing[i].cog.value, listing[j].cog.value);
    }
  }
}
