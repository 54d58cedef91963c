/**
 * The pure part of the search service (lib/services/searchService.ts): the
 * two SQL queries that select and score stalls and items, and the merge that
 * concatenates them, sorts by relevance and keeps the first ten.
 *
 * A query row is matched with `LOWER(column) LIKE '%q%'` (contains) and
 * `LOWER(column) LIKE 'q%'` (starts with), where q is the lower-cased query;
 * a NULL column never matches. The CASE arms are written in the source's
 * order, so the starts-with arm (80) is shadowed by the contains arm (100)
 * before it, and the ELSE arm (20) is excluded by the WHERE clause.
 */
module Ranking {
  import opened Common
  import opened Text

  /** `LIMIT 20` in each SQL query. */
  const RowLimit: nat := 20
  /** `.slice(0, 10)` on the merged list. */
  const ResultLimit: nat := 10

  /** The `type` tag of a SearchResult (lib/search.ts). */
  datatype EntityType = Stall | Item

  /**
   * lib/search.ts `SearchResult`. Prices are carried as the database's numeric
   * text: their `parseFloat` is not modelled.
   */
  datatype SearchResult = SearchResult(
    id: int,
    name: string,
    kind: EntityType,
    description: Option<string>,
    price: Option<string>,
    category: Option<string>,
    imageUrl: Option<string>,
    stallName: Option<string>,
    inStock: Option<bool>,
    relevanceScore: int)

  /** One row of the `stalls` table joined with its profile image. */
  datatype StallRow = StallRow(
    stallId: int,
    stallName: string,
    stallDescription: Option<string>,
    category: Option<string>,
    imageUrl: Option<string>)

  /** One row of `stall_items` joined with its stall and its product image. */
  datatype ItemRow = ItemRow(
    itemId: int,
    itemName: string,
    itemDescription: Option<string>,
    price: string,
    inStock: Option<bool>,
    stallName: string,
    category: Option<string>,
    imageUrl: Option<string>)

  // ---------------------------------------------------------------- matching

  /** `LOWER(col) LIKE '%q%'`; NULL LIKE anything is not true. */
  predicate LikeAnywhere(col: Option<string>, q: string) {
    col.Some? && Contains(Lower(col.value), q)
  }

  /** `LOWER(col) LIKE 'q%'`. */
  predicate LikePrefix(col: Option<string>, q: string) {
    col.Some? && StartsWith(Lower(col.value), q)
  }

  /** The CASE expression of the stall query, arm by arm. */
  function StallScore(r: StallRow, q: string): int {
    if LikeAnywhere(Some(r.stallName), q) then 100
    else if LikePrefix(Some(r.stallName), q) then 80
    else if LikeAnywhere(r.category, q) then 60
    else if LikeAnywhere(r.stallDescription, q) then 40
    else 20
  }

  /** The WHERE clause of the stall query. */
  predicate StallWhere(r: StallRow, q: string) {
    LikeAnywhere(Some(r.stallName), q) || LikeAnywhere(r.category, q) || LikeAnywhere(r.stallDescription, q)
  }

  /** The CASE expression of the item query, arm by arm. */
  function ItemScore(r: ItemRow, q: string): int {
    if LikeAnywhere(Some(r.itemName), q) then 100
    else if LikePrefix(Some(r.itemName), q) then 80
    else if LikeAnywhere(r.itemDescription, q) then 60
    else if LikeAnywhere(Some(r.stallName), q) then 40
    else 20
  }

  /** The WHERE clause of the item query, with `AND si.in_stock = true` unless out-of-stock items are wanted. */
  predicate ItemWhere(r: ItemRow, q: string, includeOutOfStock: bool) {
    && (LikeAnywhere(Some(r.itemName), q) || LikeAnywhere(r.itemDescription, q) || LikeAnywhere(Some(r.stallName), q))
    && (includeOutOfStock || r.inStock == Some(true))
  }

  /** The starts-with arm can never fire: a prefix is also contained. */
  lemma PrefixArmShadowed(col: Option<string>, q: string)
    requires LikePrefix(col, q)
    ensures LikeAnywhere(col, q)
  {
    PrefixIsContained(Lower(col.value), q);
  }

  /**
   * For a row the WHERE clause admits, the stall score is 100 iff the name
   * contains q, else 60 iff the category does, else 40 (the description does);
   * 80 and 20 never occur.
   */
  lemma StallScoreTiers(r: StallRow, q: string)
    requires StallWhere(r, q)
    ensures StallScore(r, q) in {100, 60, 40}
    ensures StallScore(r, q) == 100 <==> LikeAnywhere(Some(r.stallName), q)
    ensures StallScore(r, q) == 60 <==> !LikeAnywhere(Some(r.stallName), q) && LikeAnywhere(r.category, q)
    ensures StallScore(r, q) == 40 <==>
      !LikeAnywhere(Some(r.stallName), q) && !LikeAnywhere(r.category, q) && LikeAnywhere(r.stallDescription, q)
  {
    if LikePrefix(Some(r.stallName), q) {
      PrefixArmShadowed(Some(r.stallName), q);
    }
  }

  /**
   * For a row the WHERE clause admits, the item score is 100 iff the item
   * name contains q, else 60 iff the description does, else 40 (the owning
   * stall's name does); 80 and 20 never occur.
   */
  lemma ItemScoreTiers(r: ItemRow, q: string, includeOutOfStock: bool)
    requires ItemWhere(r, q, includeOutOfStock)
    ensures ItemScore(r, q) in {100, 60, 40}
    ensures ItemScore(r, q) == 100 <==> LikeAnywhere(Some(r.itemName), q)
    ensures ItemScore(r, q) == 60 <==> !LikeAnywhere(Some(r.itemName), q) && LikeAnywhere(r.itemDescription, q)
    ensures ItemScore(r, q) == 40 <==>
      !LikeAnywhere(Some(r.itemName), q) && !LikeAnywhere(r.itemDescription, q) && LikeAnywhere(Some(r.stallName), q)
  {
    if LikePrefix(Some(r.itemName), q) {
      PrefixArmShadowed(Some(r.itemName), q);
    }
  }

  /** A stall whose name equals the query, ignoring case, scores the top tier. */
  lemma ExactStallNameScoresTop(r: StallRow, query: string)
    requires Lower(r.stallName) == Lower(query)
    ensures StallWhere(r, Lower(query)) && StallScore(r, Lower(query)) == 100
  {
    PrefixIsContained(Lower(r.stallName), Lower(query));
  }

  // ---------------------------------------------------------------- rows to results

  /** The `rows.map` of searchStalls. */
  function StallResult(r: StallRow, q: string): SearchResult {
    SearchResult(r.stallId, r.stallName, Stall, r.stallDescription, None, r.category, r.imageUrl, None, None, StallScore(r, q))
  }

  /** The `rows.map` of searchItems. */
  function ItemResult(r: ItemRow, q: string): SearchResult {
    SearchResult(r.itemId, r.itemName, Item, r.itemDescription, Some(r.price), r.category, r.imageUrl,
                 Some(r.stallName), r.inStock, ItemScore(r, q))
  }

  /** The stall rows the WHERE clause admits, as results, in table order. */
  function StallCandidates(rows: seq<StallRow>, q: string): (r: seq<SearchResult>)
    ensures |r| <= |rows|
  {
    if rows == [] then []
    else (if StallWhere(rows[0], q) then [StallResult(rows[0], q)] else []) + StallCandidates(rows[1..], q)
  }

  /** The stall candidates are exactly the admitted rows, as stall results scored 100, 60 or 40. */
  lemma {:induction false} StallCandidatesExact(rows: seq<StallRow>, q: string)
    ensures forall x :: x in StallCandidates(rows, q) ==> x.kind == Stall && x.relevanceScore in {100, 60, 40}
    ensures forall row :: row in rows && StallWhere(row, q) ==> StallResult(row, q) in StallCandidates(rows, q)
    ensures forall x :: x in StallCandidates(rows, q) ==>
      exists row :: row in rows && StallWhere(row, q) && x == StallResult(row, q)
  {
    if rows != [] {
      StallCandidatesExact(rows[1..], q);
      if StallWhere(rows[0], q) {
        StallScoreTiers(rows[0], q);
      }
      assert rows == [rows[0]] + rows[1..];
    }
  }

  /** The item rows the WHERE clause admits, as results, in table order. */
  function ItemCandidates(rows: seq<ItemRow>, q: string, includeOutOfStock: bool): (r: seq<SearchResult>)
    ensures |r| <= |rows|
  {
    if rows == [] then []
    else
      (if ItemWhere(rows[0], q, includeOutOfStock) then [ItemResult(rows[0], q)] else [])
      + ItemCandidates(rows[1..], q, includeOutOfStock)
  }

  /**
   * The item candidates are exactly the admitted rows, as item results scored
   * 100, 60 or 40; without out-of-stock items, every one is in stock.
   */
  lemma {:induction false} ItemCandidatesExact(rows: seq<ItemRow>, q: string, includeOutOfStock: bool)
    ensures forall x :: x in ItemCandidates(rows, q, includeOutOfStock) ==>
      x.kind == Item && x.relevanceScore in {100, 60, 40}
    ensures forall x :: x in ItemCandidates(rows, q, includeOutOfStock) && !includeOutOfStock ==> x.inStock == Some(true)
    ensures forall row :: row in rows && ItemWhere(row, q, includeOutOfStock) ==>
      ItemResult(row, q) in ItemCandidates(rows, q, includeOutOfStock)
    ensures forall x :: x in ItemCandidates(rows, q, includeOutOfStock) ==>
      exists row :: row in rows && ItemWhere(row, q, includeOutOfStock) && x == ItemResult(row, q)
  {
    if rows != [] {
      ItemCandidatesExact(rows[1..], q, includeOutOfStock);
      if ItemWhere(rows[0], q, includeOutOfStock) {
        ItemScoreTiers(rows[0], q, includeOutOfStock);
      }
      assert rows == [rows[0]] + rows[1..];
    }
  }

  /** The results whose stock flag is exactly true, in order. */
  function InStockOnly(s: seq<SearchResult>): (r: seq<SearchResult>)
    ensures multiset(r) <= multiset(s)
    ensures forall x :: x in r ==> x.inStock == Some(true)
  {
    if s == [] then []
    else
      assert s == [s[0]] + s[1..];
      (if s[0].inStock == Some(true) then [s[0]] else []) + InStockOnly(s[1..])
  }

  /**
   * Turning the stock filter on removes exactly the items whose stock flag is
   * not true, and keeps the order of the rest: the candidate set without the
   * filter is a superset.
   */
  lemma {:induction false} StockFilterRestricts(rows: seq<ItemRow>, q: string)
    ensures ItemCandidates(rows, q, false) == InStockOnly(ItemCandidates(rows, q, true))
    ensures multiset(ItemCandidates(rows, q, false)) <= multiset(ItemCandidates(rows, q, true))
  {
    if rows != [] {
      var head := ItemResult(rows[0], q);
      var keep := ItemWhere(rows[0], q, true);
      var restAll := ItemCandidates(rows[1..], q, true);
      StockFilterRestricts(rows[1..], q);
      assert ItemCandidates(rows, q, true) == (if keep then [head] else []) + restAll;
      assert ItemCandidates(rows, q, false)
          == (if keep && head.inStock == Some(true) then [head] else []) + ItemCandidates(rows[1..], q, false);
      InStockOnlyCons(keep, head, restAll);
    }
  }

  /** The stock filter on an optional head and a rest. */
  lemma InStockOnlyCons(keep: bool, head: SearchResult, rest: seq<SearchResult>)
    ensures InStockOnly((if keep then [head] else []) + rest)
         == (if keep && head.inStock == Some(true) then [head] else []) + InStockOnly(rest)
  {
    if keep {
      assert ([head] + rest)[1..] == rest;
    } else {
      assert [] + rest == rest;
    }
  }

  // ---------------------------------------------------------------- ordering

  /** Non-increasing relevance: what `ORDER BY relevance_score DESC` and the descending sort produce. */
  ghost predicate Sorted(s: seq<SearchResult>) {
    forall i, j :: 0 <= i < j < |s| ==> s[i].relevanceScore >= s[j].relevanceScore
  }

  /** The results of score v, in their order. */
  function WithScore(s: seq<SearchResult>, v: int): seq<SearchResult> {
    if s == [] then []
    else (if s[0].relevanceScore == v then [s[0]] else []) + WithScore(s[1..], v)
  }

  lemma {:induction false} WithScoreConcat(a: seq<SearchResult>, b: seq<SearchResult>, v: int)
    ensures WithScore(a + b, v) == WithScore(a, v) + WithScore(b, v)
  {
    if a != [] {
      assert (a + b)[0] == a[0];
      assert (a + b)[1..] == a[1..] + b;
      WithScoreConcat(a[1..], b, v);
    } else {
      assert a + b == b;
    }
  }

  lemma {:induction false} WithScoreAbsent(s: seq<SearchResult>, v: int)
    requires forall i :: 0 <= i < |s| ==> s[i].relevanceScore != v
    ensures WithScore(s, v) == []
  {
    if s != [] {
      WithScoreAbsent(s[1..], v);
    }
  }

  /** A head scoring at least the first of a sorted list keeps it sorted. */
  lemma SortedCons(h: SearchResult, t: seq<SearchResult>)
    requires Sorted(t)
    requires t != [] ==> h.relevanceScore >= t[0].relevanceScore
    ensures Sorted([h] + t)
  {
    var r := [h] + t;
    forall i, j | 0 <= i < j < |r|
      ensures r[i].relevanceScore >= r[j].relevanceScore
    {
      assert r[j] == t[j - 1];
      if i > 0 {
        assert r[i] == t[i - 1];
      }
    }
  }

  /** Insert x after every element scoring at least as much: later equals stay later. */
  function Insert(x: SearchResult, s: seq<SearchResult>): (r: seq<SearchResult>)
    ensures |r| == |s| + 1
    ensures r[0] == x || (s != [] && r[0] == s[0])
  {
    if s == [] then [x]
    else if s[0].relevanceScore >= x.relevanceScore then [s[0]] + Insert(x, s[1..])
    else [x] + s
  }

  /** Inserting into a sorted list keeps it sorted. */
  lemma {:induction false} InsertSorted(x: SearchResult, s: seq<SearchResult>)
    requires Sorted(s)
    ensures Sorted(Insert(x, s))
  {
    if s == [] {
    } else if s[0].relevanceScore >= x.relevanceScore {
      InsertSorted(x, s[1..]);
      SortedCons(s[0], Insert(x, s[1..]));
    } else {
      SortedCons(x, s);
    }
  }

  /** Inserting adds exactly the new element. */
  lemma {:induction false} InsertPermutes(x: SearchResult, s: seq<SearchResult>)
    ensures multiset(Insert(x, s)) == multiset(s) + multiset{x}
  {
    if s != [] && s[0].relevanceScore >= x.relevanceScore {
      InsertPermutes(x, s[1..]);
      assert s == [s[0]] + s[1..];
    }
  }

  /** A stable descending sort by relevanceScore (insertion sort, last element inserted last). */
  function SortByScore(s: seq<SearchResult>): (r: seq<SearchResult>)
    ensures |r| == |s|
  {
    if s == [] then []
    else Insert(s[|s| - 1], SortByScore(s[..|s| - 1]))
  }

  /** The sort yields a permutation of its input in non-increasing relevance order. */
  lemma {:induction false} SortByScoreSorted(s: seq<SearchResult>)
    ensures Sorted(SortByScore(s))
    ensures multiset(SortByScore(s)) == multiset(s)
  {
    if s != [] {
      var init := s[..|s| - 1];
      SortByScoreSorted(init);
      InsertSorted(s[|s| - 1], SortByScore(init));
      InsertPermutes(s[|s| - 1], SortByScore(init));
      assert s == init + [s[|s| - 1]];
    }
  }

  lemma WithScoreSingle(y: SearchResult, v: int)
    ensures WithScore([y], v) == if y.relevanceScore == v then [y] else []
  {
    assert [y][1..] == [];
  }

  lemma {:induction false} InsertStable(x: SearchResult, s: seq<SearchResult>, v: int)
    requires Sorted(s)
    ensures WithScore(Insert(x, s), v) == WithScore(s, v) + (if x.relevanceScore == v then [x] else [])
  {
    if s == [] {
      WithScoreSingle(x, v);
    } else if s[0].relevanceScore >= x.relevanceScore {
      InsertStable(x, s[1..], v);
      InsertBehind(x, s, v);
    } else {
      InsertInFront(x, s, v);
    }
  }

  /** Inserting behind the head: the head's contribution comes first. */
  lemma InsertBehind(x: SearchResult, s: seq<SearchResult>, v: int)
    requires Sorted(s) && s != [] && s[0].relevanceScore >= x.relevanceScore
    requires WithScore(Insert(x, s[1..]), v) == WithScore(s[1..], v) + (if x.relevanceScore == v then [x] else [])
    ensures WithScore(Insert(x, s), v) == WithScore(s, v) + (if x.relevanceScore == v then [x] else [])
  {
    assert s == [s[0]] + s[1..];
    ConsKeepsScoreOrder(s[0], s[1..], Insert(x, s[1..]), if x.relevanceScore == v then [x] else [], v);
  }

  /** Putting the same head before two lists keeps a relation between their results of score v. */
  lemma ConsKeepsScoreOrder(h: SearchResult, rest: seq<SearchResult>, t: seq<SearchResult>,
                            own: seq<SearchResult>, v: int)
    requires WithScore(t, v) == WithScore(rest, v) + own
    ensures WithScore([h] + t, v) == WithScore([h] + rest, v) + own
  {
    WithScoreCons(h, t, v);
    WithScoreCons(h, rest, v);
    var hd := if h.relevanceScore == v then [h] else [];
    assert hd + (WithScore(rest, v) + own) == (hd + WithScore(rest, v)) + own;
  }

  lemma WithScoreCons(h: SearchResult, t: seq<SearchResult>, v: int)
    ensures WithScore([h] + t, v) == (if h.relevanceScore == v then [h] else []) + WithScore(t, v)
  {
    assert ([h] + t)[1..] == t;
  }

  /** Inserting in front of a lower head: nothing of the list has x's score. */
  lemma InsertInFront(x: SearchResult, s: seq<SearchResult>, v: int)
    requires Sorted(s) && s != [] && s[0].relevanceScore < x.relevanceScore
    ensures WithScore(Insert(x, s), v) == WithScore(s, v) + (if x.relevanceScore == v then [x] else [])
  {
    assert Insert(x, s) == [x] + s;
    WithScoreConcat([x], s, v);
    WithScoreSingle(x, v);
    if x.relevanceScore == v {
      forall i | 0 <= i < |s|
        ensures s[i].relevanceScore != v
      {
        assert s[0].relevanceScore >= s[i].relevanceScore;
      }
      WithScoreAbsent(s, v);
    }
  }

  /** Stability: for every score, the results with that score keep their relative order. */
  lemma {:induction false} SortStable(s: seq<SearchResult>, v: int)
    ensures WithScore(SortByScore(s), v) == WithScore(s, v)
  {
    if s != [] {
      var init, last := s[..|s| - 1], s[|s| - 1];
      SortStable(init, v);
      SortByScoreSorted(init);
      InsertStable(last, SortByScore(init), v);
      assert s == init + [last];
      AppendScore(init, last, v);
    }
  }

  /** Appending one result adds it to the results of its score, at the end. */
  lemma AppendScore(init: seq<SearchResult>, last: SearchResult, v: int)
    ensures WithScore(init + [last], v) == WithScore(init, v) + (if last.relevanceScore == v then [last] else [])
  {
    WithScoreConcat(init, [last], v);
    WithScoreSingle(last, v);
  }

  /** `.slice(0, n)` / `LIMIT n`. */
  function Take(s: seq<SearchResult>, n: nat): (r: seq<SearchResult>)
    ensures |r| == if |s| <= n then |s| else n
    ensures r <= s
  {
    if |s| <= n then s else s[..n]
  }

  // ---------------------------------------------------------------- the three queries

  /** searchStalls: `WHERE … ORDER BY relevance_score DESC LIMIT 20`. */
  function SearchStalls(rows: seq<StallRow>, q: string): seq<SearchResult> {
    Take(SortByScore(StallCandidates(rows, q)), RowLimit)
  }

  /** searchItems: `WHERE … [AND si.in_stock = true] ORDER BY relevance_score DESC LIMIT 20`. */
  function SearchItems(rows: seq<ItemRow>, q: string, includeOutOfStock: bool): seq<SearchResult> {
    Take(SortByScore(ItemCandidates(rows, q, includeOutOfStock)), RowLimit)
  }

  /** `[...stallResults, ...itemResults].sort(by score, descending).slice(0, 10)`. */
  function Merge(stalls: seq<SearchResult>, items: seq<SearchResult>): seq<SearchResult> {
    Take(SortByScore(stalls + items), ResultLimit)
  }

  /** What searchAll computes on a cache miss: both queries on the lower-cased query, then the merge. */
  function RankedResults(stallRows: seq<StallRow>, itemRows: seq<ItemRow>, query: string, includeOutOfStock: bool): seq<SearchResult> {
    var q := Lower(query);
    Merge(SearchStalls(stallRows, q), SearchItems(itemRows, q, includeOutOfStock))
  }

  /** A SQL query returns at most 20 rows, in non-increasing score order, all drawn from the admitted rows. */
  lemma SearchStallsBounds(rows: seq<StallRow>, q: string)
    ensures |SearchStalls(rows, q)| <= RowLimit
    ensures Sorted(SearchStalls(rows, q))
    ensures multiset(SearchStalls(rows, q)) <= multiset(StallCandidates(rows, q))
  {
    var s := SortByScore(StallCandidates(rows, q));
    SortByScoreSorted(StallCandidates(rows, q));
    TakeSorted(s, RowLimit);
  }

  lemma TakeSorted(s: seq<SearchResult>, n: nat)
    requires Sorted(s)
    ensures Sorted(Take(s, n))
    ensures multiset(Take(s, n)) <= multiset(s)
  {
    if |s| > n {
      assert s == s[..n] + s[n..];
    }
  }

  /**
   * The merged list: at most ten results, as many as there are candidates up
   * to ten, in non-increasing score order, each one of the candidates.
   */
  lemma MergeBounds(stalls: seq<SearchResult>, items: seq<SearchResult>)
    ensures |Merge(stalls, items)| == if |stalls| + |items| <= ResultLimit then |stalls| + |items| else ResultLimit
    ensures Sorted(Merge(stalls, items))
    ensures multiset(Merge(stalls, items)) <= multiset(stalls + items)
  {
    SortByScoreSorted(stalls + items);
    TakeSorted(SortByScore(stalls + items), ResultLimit);
  }

  /** Truncation keeps the best: no candidate left out scores above any result kept. */
  lemma MergeKeepsBest(stalls: seq<SearchResult>, items: seq<SearchResult>, x: SearchResult, y: SearchResult)
    requires x in multiset(stalls + items) - multiset(Merge(stalls, items))
    requires y in Merge(stalls, items)
    ensures y.relevanceScore >= x.relevanceScore
  {
    var s := SortByScore(stalls + items);
    var r := Merge(stalls, items);
    SortByScoreSorted(stalls + items);
    if |s| <= ResultLimit {
      assert false;
    }
    assert s == r + s[ResultLimit..];
    assert x in s[ResultLimit..];
    var j :| 0 <= j < |s[ResultLimit..]| && s[ResultLimit..][j] == x;
    var i :| 0 <= i < |r| && r[i] == y;
    assert s[i] == y && s[ResultLimit + j] == x;
  }

  /**
   * Ties keep stalls before items: among the merged results of any one score,
   * the list is a prefix of that score's stalls (in query order) followed by
   * that score's items (in query order).
   */
  lemma MergeTieOrder(stalls: seq<SearchResult>, items: seq<SearchResult>, v: int)
    ensures WithScore(Merge(stalls, items), v) <= WithScore(stalls, v) + WithScore(items, v)
  {
    var s := SortByScore(stalls + items);
    var r := Merge(stalls, items);
    SortStable(stalls + items, v);
    WithScoreConcat(stalls, items, v);
    assert s == r + s[|r|..];
    WithScoreConcat(r, s[|r|..], v);
  }

  /** The search result of one query: at most ten entries, sorted, items in stock unless asked otherwise. */
  lemma RankedResultsBounds(stallRows: seq<StallRow>, itemRows: seq<ItemRow>, query: string, includeOutOfStock: bool)
    ensures |RankedResults(stallRows, itemRows, query, includeOutOfStock)| <= ResultLimit
    ensures Sorted(RankedResults(stallRows, itemRows, query, includeOutOfStock))
    ensures forall x :: x in RankedResults(stallRows, itemRows, query, includeOutOfStock) ==> x.relevanceScore in {100, 60, 40}
    ensures !includeOutOfStock ==>
      forall x :: x in RankedResults(stallRows, itemRows, query, includeOutOfStock) && x.kind == Item ==> x.inStock == Some(true)
  {
    var q := Lower(query);
    var st := SearchStalls(stallRows, q);
    var it := SearchItems(itemRows, q, includeOutOfStock);
    SearchStallsBounds(stallRows, q);
    SortByScoreSorted(ItemCandidates(itemRows, q, includeOutOfStock));
    TakeSorted(SortByScore(ItemCandidates(itemRows, q, includeOutOfStock)), RowLimit);
    MergeBounds(st, it);
    var r := Merge(st, it);
    forall x | x in r
      ensures x.relevanceScore in {100, 60, 40}
      ensures !includeOutOfStock && x.kind == Item ==> x.inStock == Some(true)
    {
      assert x in multiset(r);
      assert x in multiset(st + it);
      assert x in st + it;
      if x in st {
        assert x in multiset(StallCandidates(stallRows, q));
        StallCandidatesExact(stallRows, q);
      } else {
        assert x in multiset(ItemCandidates(itemRows, q, includeOutOfStock));
        ItemCandidatesExact(itemRows, q, includeOutOfStock);
      }
    }
  }

  /** Matching ignores the query's case: "Toma" and "toma" rank the same results. */
  lemma RankedResultsIgnoreCase(stallRows: seq<StallRow>, itemRows: seq<ItemRow>, query: string, includeOutOfStock: bool)
    ensures RankedResults(stallRows, itemRows, query, includeOutOfStock)
         == RankedResults(stallRows, itemRows, Lower(query), includeOutOfStock)
  {
    LowerIdempotent(query);
  }
}
