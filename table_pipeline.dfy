/**
 * The derived view of the three table screens (Stocks, Inventory,
 * Billing): the search filter, the page window and the filler-row count,
 * the row-selection toggle, select-all and the header checkbox state.
 * All of these are expressions over the screen's state.
 */
module TablePipeline {
  import opened Values
  import opened Sorting

  // ---------------------------------------------------------------------
  // Search filter
  // ---------------------------------------------------------------------

  /** A non-null field value whose text, lower-cased, includes the lower-cased term. */
  predicate FieldMatches(v: Value, term: string) {
    v != Null && Contains(Lower(Str(v)), Lower(term))
  }

  /** `Object.values(item).some(...)`: some field of the record matches. */
  predicate Matches(row: Row, term: string) {
    exists f :: f in row && FieldMatches(row[f], term)
  }

  /** `data.filter(...)`: the matching records, in their original order. */
  function Filter(s: seq<Row>, term: string): (r: seq<Row>)
    ensures |r| <= |s|
    ensures forall x :: x in r <==> x in s && Matches(x, term)
    decreases |s|
  {
    if s == [] then []
    else if Matches(s[0], term) then [s[0]] + Filter(s[1..], term)
    else Filter(s[1..], term)
  }

  /** Filtering a concatenation filters each part: the kept records stay in order. */
  lemma {:induction false} FilterAppend(a: seq<Row>, b: seq<Row>, term: string)
    ensures Filter(a + b, term) == Filter(a, term) + Filter(b, term)
    decreases |a|
  {
    if a != [] {
      assert (a + b)[0] == a[0] && (a + b)[1..] == a[1..] + b;
      FilterAppend(a[1..], b, term);
    } else {
      assert a + b == b;
    }
  }

  /** Each record is kept as many times as it occurs if it matches, and dropped otherwise. */
  lemma {:induction false} FilterCounts(s: seq<Row>, term: string, x: Row)
    ensures multiset(Filter(s, term))[x] == if Matches(x, term) then multiset(s)[x] else 0
    decreases |s|
  {
    if s != [] {
      FilterCounts(s[1..], term, x);
      assert s == [s[0]] + s[1..];
    }
  }

  /** With an empty search term the filter keeps exactly the records with a non-null field. */
  lemma FilterEmptyTerm(row: Row)
    ensures Matches(row, "") <==> exists f :: f in row && row[f] != Null
  {
    forall f | f in row && row[f] != Null
      ensures FieldMatches(row[f], "")
    {
      ContainsEmpty(Lower(Str(row[f])));
    }
  }

  /** A record none of whose fields matches is dropped, so the filtered list is strictly shorter. */
  lemma {:induction false} FilterDropsNonMatching(s: seq<Row>, term: string, k: int)
    requires 0 <= k < |s| && !Matches(s[k], term)
    ensures |Filter(s, term)| < |s|
    decreases |s|
  {
    if k > 0 {
      FilterDropsNonMatching(s[1..], term, k - 1);
    }
  }

  // ---------------------------------------------------------------------
  // Page window and filler rows
  // ---------------------------------------------------------------------

  /** `s.slice(start, end)` for non-negative bounds: both are clamped to the length. */
  function Slice<T>(s: seq<T>, start: nat, end: nat): (r: seq<T>)
    ensures |r| == Max(0, Min(end, |s|) - Min(start, |s|))
    ensures forall k :: 0 <= k < |r| ==> r[k] == s[start + k]
  {
    var lo, hi := Min(start, |s|), Min(end, |s|);
    if lo >= hi then [] else s[lo..hi]
  }

  /** `sorted.slice(page * rowsPerPage, page * rowsPerPage + rowsPerPage)`. */
  function Window<T>(s: seq<T>, page: nat, rowsPerPage: nat): (w: seq<T>)
    ensures |w| == Min(rowsPerPage, Max(0, |s| - page * rowsPerPage))
    ensures forall k :: 0 <= k < |w| ==> w[k] == s[page * rowsPerPage + k]
  {
    Slice(s, page * rowsPerPage, page * rowsPerPage + rowsPerPage)
  }

  /** `emptyRows`: filler rows that keep later pages at full height. */
  function EmptyRows(page: nat, rowsPerPage: nat, filteredLength: nat): nat {
    if page > 0 then Max(0, (1 + page) * rowsPerPage - filteredLength) else 0
  }

  /** Page 0 never has filler; a later page that starts within the list is completed to exactly a page. */
  lemma EmptyRowsFillPage<T>(s: seq<T>, page: nat, rowsPerPage: nat)
    ensures page == 0 ==> EmptyRows(page, rowsPerPage, |s|) == 0
    ensures page > 0 && page * rowsPerPage <= |s| ==>
      |Window(s, page, rowsPerPage)| + EmptyRows(page, rowsPerPage, |s|) == rowsPerPage
  {
  }

  /**
   * A page that starts past the end of the list (the search narrowed the
   * list while the page stayed where it was) shows no records and more
   * filler than a whole page.
   */
  lemma EmptyRowsPastEnd<T>(s: seq<T>, page: nat, rowsPerPage: nat)
    requires page > 0 && rowsPerPage > 0 && |s| < page * rowsPerPage
    ensures Window(s, page, rowsPerPage) == []
    ensures EmptyRows(page, rowsPerPage, |s|) > rowsPerPage
  {
  }

  /** The rows the table body renders: the page window of the stably sorted, filtered records. */
  function View(c: Comparator, data: seq<Row>, term: string, page: nat, rowsPerPage: nat): seq<Row> {
    Window(StableSorted(c, Filter(data, term)), page, rowsPerPage)
  }

  /** Every visible row is a matching record, and there are as many as the window allows. */
  lemma ViewShape(c: Comparator, data: seq<Row>, term: string, page: nat, rowsPerPage: nat)
    ensures |View(c, data, term, page, rowsPerPage)| ==
      Min(rowsPerPage, Max(0, |Filter(data, term)| - page * rowsPerPage))
    ensures forall x :: x in View(c, data, term, page, rowsPerPage) ==> x in data && Matches(x, term)
  {
    var f := Filter(data, term);
    StableSortIsPermutation(c, f);
    assert |StableSorted(c, f)| == |multiset(StableSorted(c, f))| == |f|;
    var v := View(c, data, term, page, rowsPerPage);
    forall x | x in v
      ensures x in data && Matches(x, term)
    {
      var k :| 0 <= k < |v| && v[k] == x;
      assert x in multiset(StableSorted(c, f));
    }
  }

  // ---------------------------------------------------------------------
  // Selection
  // ---------------------------------------------------------------------

  /** `selected.indexOf(id)`: the first position of `id`, or -1. */
  function IndexOf<T(==)>(s: seq<T>, x: T): (i: int)
    ensures -1 <= i < |s|
    ensures i == -1 <==> x !in s
    ensures 0 <= i ==> s[i] == x && x !in s[..i]
    decreases |s|
  {
    if s == [] then -1
    else if s[0] == x then 0
    else
      var j := IndexOf(s[1..], x);
      if j == -1 then -1
      else
        assert s[..j + 1] == [s[0]] + s[1..][..j];
        j + 1
  }

  /** `handleClick(event, id)`: the four branches on `selected.indexOf(id)`. */
  function Toggle<T(==)>(selected: seq<T>, id: T): seq<T> {
    var i := IndexOf(selected, id);
    if i == -1 then selected + [id]
    else if i == 0 then selected[1..]
    else if i == |selected| - 1 then selected[..|selected| - 1]
    else selected[..i] + selected[i + 1..]
  }

  predicate NoDuplicates<T(==)>(s: seq<T>) {
    forall i, j :: 0 <= i < j < |s| ==> s[i] != s[j]
  }

  /** An absent id is appended at the end. */
  lemma ToggleAbsentAppends<T>(selected: seq<T>, id: T)
    requires id !in selected
    ensures Toggle(selected, id) == selected + [id]
  {
  }

  /** A present id loses its first occurrence; the others keep their order. */
  lemma TogglePresentRemovesFirst<T>(selected: seq<T>, id: T)
    requires id in selected
    ensures var i := IndexOf(selected, id);
      Toggle(selected, id) == selected[..i] + selected[i + 1..]
  {
    var i := IndexOf(selected, id);
    if i == 0 {
      assert selected[..0] + selected[1..] == selected[1..];
    } else if i == |selected| - 1 {
      assert selected[i + 1..] == [];
    }
  }

  /** Clicking an absent id twice restores the selection exactly. */
  lemma ToggleTwiceRestores<T>(selected: seq<T>, id: T)
    requires id !in selected
    ensures Toggle(Toggle(selected, id), id) == selected
  {
    var t := selected + [id];
    assert t[..|selected|] == selected;
    assert IndexOf(t, id) == |selected|;
    TogglePresentRemovesFirst(t, id);
  }

  /** The toggle never introduces a duplicate, and flips exactly the membership of `id`. */
  lemma ToggleKeepsNoDuplicates<T>(selected: seq<T>, id: T)
    requires NoDuplicates(selected)
    ensures NoDuplicates(Toggle(selected, id))
    ensures id in Toggle(selected, id) <==> id !in selected
    ensures forall y :: y != id ==> (y in Toggle(selected, id) <==> y in selected)
  {
    if id in selected {
      TogglePresentRemovesFirst(selected, id);
      var i := IndexOf(selected, id);
      var r := selected[..i] + selected[i + 1..];
      forall a, b | 0 <= a < b < |r|
        ensures r[a] != r[b]
      {
        var a' := if a < i then a else a + 1;
        var b' := if b < i then b else b + 1;
        assert r[a] == selected[a'] && r[b] == selected[b'];
      }
      forall k | 0 <= k < |r|
        ensures r[k] != id
      {
        var k' := if k < i then k else k + 1;
        assert r[k] == selected[k'] && k' != i;
      }
      forall y | y != id
        ensures y in r <==> y in selected
      {
        if y in selected {
          var k :| 0 <= k < |selected| && selected[k] == y;
          assert k != i;
          if k < i {
            assert r[k] == y;
          } else {
            assert r[k - 1] == y;
          }
        }
      }
    }
  }

  /** `handleSelectAllClick`: every record's id when checked, in list order; nothing otherwise. */
  function SelectAllIds(checked: bool, source: seq<Row>, idField: string): (r: seq<Value>)
    ensures checked ==> |r| == |source| && forall k :: 0 <= k < |source| ==> r[k] == Get(source[k], idField)
    ensures !checked ==> r == []
  {
    if checked then seq(|source|, k requires 0 <= k < |source| => Get(source[k], idField)) else []
  }

  /** The header checkbox is checked when every filtered record's worth of ids is selected. */
  predicate HeaderChecked(numSelected: nat, rowCount: nat) {
    rowCount > 0 && numSelected == rowCount
  }

  predicate HeaderIndeterminate(numSelected: nat, rowCount: nat) {
    numSelected > 0 && numSelected < rowCount
  }

  /** The header shows at most one of its two states. */
  lemma HeaderStatesExclusive(numSelected: nat, rowCount: nat)
    ensures !(HeaderChecked(numSelected, rowCount) && HeaderIndeterminate(numSelected, rowCount))
  {
  }

  /**
   * Select-all picks every loaded record, but the header counts the
   * filtered ones: once the search hides a record, select-all leaves the
   * header neither checked nor indeterminate.
   */
  lemma SelectAllUnderFilterShowsNeither(source: seq<Row>, term: string, idField: string, k: int)
    requires 0 <= k < |source| && !Matches(source[k], term)
    ensures var n := |SelectAllIds(true, source, idField)|;
      !HeaderChecked(n, |Filter(source, term)|) && !HeaderIndeterminate(n, |Filter(source, term)|)
  {
    FilterDropsNonMatching(source, term, k);
  }
}
