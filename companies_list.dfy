/**
 * The logic of the Companies list view that decides which rows appear, in
 * which order, and which are selected: the comparators, `applySortFilter`
 * (a stable sort, or a case-insensitive filter on `name`), the page window,
 * the `emptyRows` padding, the single-row selection toggle and the load
 * guard.
 */
module CompaniesList {
  import Strings
  import opened CompanyRecord
  import opened Permutations
  import opened CompanyStore

  // ----- Comparators -----

  /** `descendingComparator(a, b, orderBy)`: -1 when `b[orderBy] < a[orderBy]`,
      1 when `b[orderBy] > a[orderBy]`, 0 otherwise. */
  function DescendingComparator(a: Company, b: Company, orderBy: string): (r: int)
    ensures r == -1 || r == 0 || r == 1
  {
    if LessThan(Field(b, orderBy), Field(a, orderBy)) then -1
    else if LessThan(Field(a, orderBy), Field(b, orderBy)) then 1
    else 0
  }

  /** Swapping the arguments negates the result. */
  lemma DescendingAntisymmetric(a: Company, b: Company, orderBy: string)
    ensures DescendingComparator(a, b, orderBy) == -DescendingComparator(b, a, orderBy)
  {
    LessThanAsymmetric(Field(a, orderBy), Field(b, orderBy));
  }

  /** The comparator calls two companies equal exactly when their `orderBy`
      values are equal. */
  lemma DescendingZero(a: Company, b: Company, orderBy: string)
    ensures DescendingComparator(a, b, orderBy) == 0 <==> Field(a, orderBy) == Field(b, orderBy)
  {
    FieldSameKind(a, b, orderBy);
    LessThanTotal(Field(a, orderBy), Field(b, orderBy));
    LessThanIrreflexive(Field(a, orderBy));
  }

  /** The closure `getComparator(order, orderBy)` returns, kept as data: its
      direction and its key. */
  datatype Comparator = Comparator(descending: bool, orderBy: string)

  function GetComparator(order: string, orderBy: string): Comparator
  {
    Comparator(order == "desc", orderBy)
  }

  /** Calling the closure on `(a, b)`. */
  function Compare(c: Comparator, a: Company, b: Company): int
  {
    if c.descending then DescendingComparator(a, b, c.orderBy)
    else -DescendingComparator(a, b, c.orderBy)
  }

  /** `'desc'` selects `descendingComparator`; every other order, `'asc'` or
      not, selects its exact negation. */
  lemma GetComparatorDirection(order: string, orderBy: string, a: Company, b: Company)
    ensures order == "desc" ==> Compare(GetComparator(order, orderBy), a, b) == DescendingComparator(a, b, orderBy)
    ensures order != "desc" ==> Compare(GetComparator(order, orderBy), a, b) == -DescendingComparator(a, b, orderBy)
    ensures order != "desc" ==> Compare(GetComparator(order, orderBy), a, b) == -Compare(GetComparator("desc", orderBy), a, b)
  {
  }

  /** What a comparator's sign means: negative when `a` goes first (smaller
      value ascending, larger value descending), zero on equal values; and it
      is antisymmetric. */
  lemma CompareMeaning(c: Comparator, a: Company, b: Company)
    ensures Compare(c, a, b) < 0 <==>
      if c.descending then LessThan(Field(b, c.orderBy), Field(a, c.orderBy))
      else LessThan(Field(a, c.orderBy), Field(b, c.orderBy))
    ensures Compare(c, a, b) == 0 <==> Field(a, c.orderBy) == Field(b, c.orderBy)
    ensures Compare(c, a, b) == -Compare(c, b, a)
  {
    DescendingAntisymmetric(a, b, c.orderBy);
    DescendingZero(a, b, c.orderBy);
    LessThanAsymmetric(Field(a, c.orderBy), Field(b, c.orderBy));
  }

  // ----- The stable sort -----

  /** An element of `stabilizedThis`: a company and its index in the input. */
  type Tagged = (Company, nat)

  /** The comparison handed to `stabilizedThis.sort`: the comparator's
      verdict, or the difference of the original indices on a tie. */
  function StableCompare(c: Comparator, p: Tagged, q: Tagged): int
  {
    var order := Compare(c, p.0, q.0);
    if order != 0 then order else p.1 - q.1
  }

  lemma StableAntisymmetric(c: Comparator, p: Tagged, q: Tagged)
    ensures StableCompare(c, p, q) > 0 ==> StableCompare(c, q, p) < 0
  {
    CompareMeaning(c, p.0, q.0);
  }

  /** With the index tie-break the stable comparison is a strict order. */
  lemma StableTransitive(c: Comparator, p: Tagged, q: Tagged, r: Tagged)
    requires StableCompare(c, p, q) < 0 && StableCompare(c, q, r) < 0
    ensures StableCompare(c, p, r) < 0
  {
    CompareMeaning(c, p.0, q.0);
    CompareMeaning(c, q.0, r.0);
    CompareMeaning(c, p.0, r.0);
    var fp, fq, fr := Field(p.0, c.orderBy), Field(q.0, c.orderBy), Field(r.0, c.orderBy);
    if c.descending {
      if LessThan(fr, fq) && LessThan(fq, fp) {
        LessThanTransitive(fr, fq, fp);
      }
    } else {
      if LessThan(fp, fq) && LessThan(fq, fr) {
        LessThanTransitive(fp, fq, fr);
      }
    }
  }

  /** `s` holds each input position once, each with the company found there. */
  ghost predicate TaggedFrom(s: seq<Tagged>, input: seq<Company>)
  {
    && |s| == |input|
    && (forall k :: 0 <= k < |s| ==> s[k].1 < |input| && s[k].0 == input[s[k].1])
    && (forall k, l :: 0 <= k < l < |s| ==> s[k].1 != s[l].1)
  }

  /** What a comparison sort guarantees: no neighbours out of order. */
  ghost predicate AdjacentSorted(c: Comparator, s: seq<Tagged>)
  {
    forall k :: 0 <= k < |s| - 1 ==> StableCompare(c, s[k], s[k + 1]) <= 0
  }

  lemma SwapKeepsTagged(s: seq<Tagged>, i: nat, j: nat, input: seq<Company>)
    requires TaggedFrom(s, input) && i < j < |s|
    ensures TaggedFrom(s[i := s[j]][j := s[i]], input)
  {
    var t := s[i := s[j]][j := s[i]];
    forall k, l | 0 <= k < l < |t|
      ensures t[k].1 != t[l].1
    {
      var k' := if k == i then j else if k == j then i else k;
      var l' := if l == i then j else if l == j then i else l;
      assert t[k] == s[k'] && t[l] == s[l'] && k' != l';
      if k' > l' {
        assert s[l'].1 != s[k'].1;
      }
    }
  }

  /** The first `m` elements of `s` are in order, neighbour by neighbour. */
  ghost predicate PrefixSorted(c: Comparator, s: seq<Tagged>, m: int)
    requires m <= |s|
  {
    forall k :: 0 <= k < m - 1 ==> StableCompare(c, s[k], s[k + 1]) <= 0
  }

  /** While element `i` sinks to its place at `j`: the part before `j` and the
      part from `j` to `i` are each in order, and the elements on both sides
      of `j` are in order with each other. */
  ghost predicate Sinking(c: Comparator, s: seq<Tagged>, j: int, i: int)
    requires 0 <= j <= i < |s|
  {
    && PrefixSorted(c, s, j)
    && (forall k :: j <= k < i ==> StableCompare(c, s[k], s[k + 1]) <= 0)
    && (0 < j < i ==> StableCompare(c, s[j - 1], s[j + 1]) <= 0)
  }

  lemma SinkStep(c: Comparator, s: seq<Tagged>, j: int, i: int)
    requires 0 < j <= i < |s| && Sinking(c, s, j, i)
    requires StableCompare(c, s[j - 1], s[j]) > 0
    ensures Sinking(c, s[j - 1 := s[j]][j := s[j - 1]], j - 1, i)
  {
    StableAntisymmetric(c, s[j - 1], s[j]);
  }

  lemma SinkDone(c: Comparator, s: seq<Tagged>, j: int, i: int)
    requires 0 <= j <= i < |s| && Sinking(c, s, j, i)
    requires j == 0 || StableCompare(c, s[j - 1], s[j]) <= 0
    ensures PrefixSorted(c, s, i + 1)
  {
  }

  /** Exchanges `a[j - 1]` and `a[j]`. */
  method SwapNeighbours(a: array<Tagged>, j: int)
    requires 0 < j < a.Length
    modifies a
    ensures a[..] == old(a[..])[j - 1 := old(a[j])][j := old(a[j - 1])]
  {
    a[j - 1], a[j] := a[j], a[j - 1];
  }

  /** One pass of insertion sort: `a[i]` sinks into the sorted prefix. */
  method SinkInto(a: array<Tagged>, c: Comparator, i: int, ghost input: seq<Company>)
    requires 0 <= i < a.Length
    requires TaggedFrom(a[..], input) && PrefixSorted(c, a[..], i)
    modifies a
    ensures TaggedFrom(a[..], input) && PrefixSorted(c, a[..], i + 1)
  {
    var j := i;
    while j > 0 && StableCompare(c, a[j - 1], a[j]) > 0
      invariant 0 <= j <= i
      invariant TaggedFrom(a[..], input)
      invariant Sinking(c, a[..], j, i)
      decreases j
    {
      SinkStep(c, a[..], j, i);
      SwapKeepsTagged(a[..], j - 1, j, input);
      SwapNeighbours(a, j);
      j := j - 1;
    }
    SinkDone(c, a[..], j, i);
  }

  /** `stabilizedThis.sort(...)`, in place. The engine's algorithm is not
      fixed; any comparison sort yields this same order here, because on
      distinct indices the stable comparison is a strict total order. This
      is insertion sort by adjacent swaps. */
  method SortTagged(a: array<Tagged>, c: Comparator, ghost input: seq<Company>)
    requires TaggedFrom(a[..], input)
    modifies a
    ensures TaggedFrom(a[..], input)
    ensures AdjacentSorted(c, a[..])
  {
    var i := 0;
    while i < a.Length
      invariant 0 <= i <= a.Length
      invariant TaggedFrom(a[..], input)
      invariant PrefixSorted(c, a[..], i)
    {
      SinkInto(a, c, i, input);
      i := i + 1;
    }
  }

  /** Neighbours in order and distinct indices put every pair in order. */
  lemma {:induction false} AdjacentToPairwise(c: Comparator, s: seq<Tagged>)
    requires AdjacentSorted(c, s)
    requires forall k, l :: 0 <= k < l < |s| ==> s[k].1 != s[l].1
    ensures forall k, l :: 0 <= k < l < |s| ==> StableCompare(c, s[k], s[l]) < 0
  {
    if |s| > 1 {
      var n := |s| - 1;
      var front := s[..n];
      assert forall k :: 0 <= k < |front| ==> front[k] == s[k];
      AdjacentToPairwise(c, front);
      forall k | 0 <= k < n
        ensures StableCompare(c, s[k], s[n]) < 0
      {
        assert s[n - 1].1 != s[n].1;
        if k < n - 1 {
          assert front[k] == s[k] && front[n - 1] == s[n - 1];
          StableTransitive(c, s[k], s[n - 1], s[n]);
        }
      }
    }
  }

  // ----- The filter -----

  /** The filter predicate:
      `name.toLowerCase().indexOf(query.toLowerCase()) !== -1`. */
  predicate NameMatches(c: Company, query: string)
  {
    Strings.Contains(Strings.Lower(c.name), Strings.Lower(query))
  }

  /** `filter(array, NameMatches)`: the matching companies, in input order. */
  function Filter(s: seq<Company>, query: string): (r: seq<Company>)
    ensures |r| <= |s|
    ensures forall x :: x in r <==> x in s && NameMatches(x, query)
  {
    if s == [] then []
    else (if NameMatches(s[0], query) then [s[0]] else []) + Filter(s[1..], query)
  }

  /** The filter keeps the input order: filtering a concatenation filters each
      part in turn. */
  lemma {:induction false} FilterAppend(s: seq<Company>, t: seq<Company>, query: string)
    ensures Filter(s + t, query) == Filter(s, query) + Filter(t, query)
  {
    if s == [] {
      assert s + t == t;
    } else {
      assert (s + t)[1..] == s[1..] + t;
      FilterAppend(s[1..], t, query);
    }
  }

  /** The query's letter case does not matter. */
  lemma {:induction false} FilterCaseInsensitive(s: seq<Company>, query: string)
    ensures Filter(s, query) == Filter(s, Strings.Lower(query))
  {
    Strings.LowerIdempotent(query);
    if s != [] {
      FilterCaseInsensitive(s[1..], query);
    }
  }

  /** `applySortFilter(array, comparator, query)`. It always sorts a copy of
      the input tagged with positions; with a non-empty query it returns the
      filtered input instead, in input order. With an empty query the result
      is the input reordered by the permutation `origin` (row k is input row
      `origin[k]`), ordered by the comparator, with ties kept in input order. */
  method ApplySortFilter(rows: seq<Company>, comparator: Comparator, query: string)
    returns (r: seq<Company>, ghost origin: seq<nat>)
    ensures query != "" ==> r == Filter(rows, query)
    ensures forall x :: x in r ==> x in rows
    ensures query == "" ==> |r| == |rows| && IsPermutation(origin, |rows|)
    ensures query == "" ==> forall i :: 0 <= i < |rows| ==> i in origin
    ensures query == "" ==> forall k :: 0 <= k < |r| ==> r[k] == rows[origin[k]]
    ensures query == "" ==> forall k, l :: 0 <= k < l < |r| ==> Compare(comparator, r[k], r[l]) <= 0
    ensures query == "" ==> forall k, l :: 0 <= k < l < |r| && Compare(comparator, r[k], r[l]) == 0 ==> origin[k] < origin[l]
  {
    var stabilizedThis := new Tagged[|rows|](i requires 0 <= i < |rows| => (rows[i], i));
    assert TaggedFrom(stabilizedThis[..], rows);
    SortTagged(stabilizedThis, comparator, rows);
    if query != "" {
      r, origin := Filter(rows, query), [];
      return;
    }
    var sorted := stabilizedThis[..];
    AdjacentToPairwise(comparator, sorted);
    r := seq(|sorted|, k requires 0 <= k < |sorted| => sorted[k].0);
    origin := seq(|sorted|, k requires 0 <= k < |sorted| => sorted[k].1);
    assert forall k :: 0 <= k < |r| ==> r[k] == rows[origin[k]];
    forall i | 0 <= i < |rows|
      ensures i in origin
    {
      PermutationOnto(origin, |rows|, i);
    }
  }

  // ----- Pagination -----

  /** A position argument of `slice`: negative counts from the end; the
      result is clamped to `0 .. n`. */
  function ClampIndex(i: int, n: nat): (r: nat)
    ensures r <= n
  {
    if i < 0 then (if n + i < 0 then 0 else n + i) else if i > n then n else i
  }

  /** `Array.prototype.slice(begin, end)`. */
  function JsSlice<T>(s: seq<T>, begin: int, end: int): seq<T>
  {
    var b, e := ClampIndex(begin, |s|), ClampIndex(end, |s|);
    if b < e then s[b..e] else []
  }

  /** The visible rows:
      `rows.slice(page * rowsPerPage, page * rowsPerPage + rowsPerPage)`. */
  function PageRows(rows: seq<Company>, page: int, rowsPerPage: int): (r: seq<Company>)
    ensures page >= 0 && rowsPerPage >= 0 ==>
      |r| == (if |rows| <= page * rowsPerPage then 0
              else if |rows| - page * rowsPerPage < rowsPerPage then |rows| - page * rowsPerPage
              else rowsPerPage)
    ensures page >= 0 && rowsPerPage >= 0 ==>
      forall k :: 0 <= k < |r| ==> page * rowsPerPage + k < |rows| && r[k] == rows[page * rowsPerPage + k]
  {
    JsSlice(rows, page * rowsPerPage, page * rowsPerPage + rowsPerPage)
  }

  /** The visible rows are rows of the list they are cut from. */
  lemma PageRowsWithin(rows: seq<Company>, page: int, rowsPerPage: int)
    ensures forall x :: x in PageRows(rows, page, rowsPerPage) ==> x in rows
  {
    var b, e := ClampIndex(page * rowsPerPage, |rows|), ClampIndex(page * rowsPerPage + rowsPerPage, |rows|);
    if b < e {
      forall x | x in rows[b..e]
        ensures x in rows
      {
        var k :| 0 <= k < e - b && rows[b..e][k] == x;
        assert rows[b + k] == x;
      }
    }
  }

  /** A page of a list in comparator order is in comparator order. */
  lemma PageRowsSorted(c: Comparator, rows: seq<Company>, page: int, rowsPerPage: int)
    requires forall k, l :: 0 <= k < l < |rows| ==> Compare(c, rows[k], rows[l]) <= 0
    ensures forall k, l :: 0 <= k < l < |PageRows(rows, page, rowsPerPage)| ==>
      Compare(c, PageRows(rows, page, rowsPerPage)[k], PageRows(rows, page, rowsPerPage)[l]) <= 0
  {
    var b, e := ClampIndex(page * rowsPerPage, |rows|), ClampIndex(page * rowsPerPage + rowsPerPage, |rows|);
    if b < e {
      assert forall k :: 0 <= k < e - b ==> rows[b..e][k] == rows[b + k];
    }
  }

  /** `emptyRows`: on a page after the first, how many rows short of a full
      page the unfiltered collection of `count` companies falls; 0 on the
      first page. */
  function EmptyRows(page: int, rowsPerPage: int, count: nat): (r: int)
    ensures r >= 0
    ensures page <= 0 ==> r == 0
    ensures page > 0 ==> r >= (1 + page) * rowsPerPage - count && (r == 0 || r == (1 + page) * rowsPerPage - count)
  {
    if page > 0 then
      var short := (1 + page) * rowsPerPage - count;
      if short > 0 then short else 0
    else 0
  }

  /** On a later page that is not past the end, with no filter, the visible
      rows and the padding together make up exactly one page. */
  lemma PagePadded(rows: seq<Company>, page: int, rowsPerPage: int)
    requires page > 0 && rowsPerPage >= 0 && page * rowsPerPage <= |rows|
    ensures |PageRows(rows, page, rowsPerPage)| + EmptyRows(page, rowsPerPage, |rows|) == rowsPerPage
  {
    assert (1 + page) * rowsPerPage == page * rowsPerPage + rowsPerPage;
  }

  /** Five rows per page, second page, seven companies: rows 5 and 6 show,
      padded by three empty rows. */
  lemma PaginationExample(rows: seq<Company>)
    requires |rows| == 7
    ensures PageRows(rows, 1, 5) == rows[5..7]
    ensures EmptyRows(1, 5, |rows|) == 3
  {
  }

  // ----- Selection -----

  /** `s.indexOf(x)`: the first position holding `x`, or -1. */
  function IndexOf(s: seq<string>, x: string): (i: int)
    ensures -1 <= i < |s|
    ensures i == -1 <==> x !in s
    ensures 0 <= i ==> s[i] == x && x !in s[..i]
  {
    if s == [] then -1
    else if s[0] == x then 0
    else
      var j := IndexOf(s[1..], x);
      if j == -1 then -1
      else
        assert s[..j + 1] == [s[0]] + s[1..][..j];
        j + 1
  }

  /** `isItemSelected`: `selected.indexOf(name) !== -1`. */
  function IsItemSelected(selected: seq<string>, name: string): (r: bool)
    ensures r <==> name in selected
  {
    IndexOf(selected, name) != -1
  }

  /** `s` without the first occurrence of `x`. */
  function RemoveFirst(s: seq<string>, x: string): seq<string>
  {
    if s == [] then []
    else if s[0] == x then s[1..]
    else [s[0]] + RemoveFirst(s[1..], x)
  }

  /** What a click on a row's checkbox does to `selected`: an absent name is
      appended, a present one loses its first occurrence. */
  function Toggle(selected: seq<string>, name: string): seq<string>
  {
    if name in selected then RemoveFirst(selected, name) else selected + [name]
  }

  /** Removing the first `x` cuts it out at its first position; everything
      before and after keeps its order. */
  lemma {:induction false} RemoveFirstAt(s: seq<string>, x: string)
    requires x in s
    ensures RemoveFirst(s, x) == s[..IndexOf(s, x)] + s[IndexOf(s, x) + 1..]
  {
    if s[0] != x {
      RemoveFirstAt(s[1..], x);
      var j := IndexOf(s[1..], x);
      assert s[..j + 1] == [s[0]] + s[1..][..j];
      assert s[j + 2..] == s[1..][j + 1..];
    }
  }

  /** Toggling a name that is not selected, twice, restores the selection. */
  lemma ToggleTwice(s: seq<string>, x: string)
    requires x !in s
    ensures Toggle(Toggle(s, x), x) == s
  {
    var t := s + [x];
    assert x in t;
    RemoveFirstAt(t, x);
    assert IndexOf(t, x) == |s| by {
      assert t[..|s|] == s;
    }
    assert t[..|s|] == s;
  }

  /** A toggle adds one occurrence of an absent name, or drops one occurrence
      of a present name; no other name's count changes. */
  lemma ToggleCounts(s: seq<string>, x: string)
    ensures multiset(Toggle(s, x)) == if x in s then multiset(s) - multiset{x} else multiset(s) + multiset{x}
  {
    if x in s {
      RemoveFirstAt(s, x);
      var i := IndexOf(s, x);
      assert s == s[..i] + [x] + s[i + 1..];
    }
  }

  /** `slice` with positions inside the sequence is an ordinary subsequence. */
  lemma JsSliceInside<T>(s: seq<T>, begin: int, end: int)
    requires 0 <= begin <= end <= |s|
    ensures JsSlice(s, begin, end) == s[begin..end]
  {
  }

  /** `slice(0, -1)` drops the last element. */
  lemma JsSliceDropLast<T>(s: seq<T>)
    requires |s| > 0
    ensures JsSlice(s, 0, -1) == s[..|s| - 1]
  {
  }

  /** `handleClick`'s computation of `newSelected`, branch for branch. */
  method ClickSelection(selected: seq<string>, name: string) returns (newSelected: seq<string>)
    ensures newSelected == Toggle(selected, name)
  {
    var selectedIndex := IndexOf(selected, name);
    newSelected := [];
    if selectedIndex == -1 {
      newSelected := newSelected + selected + [name];
    } else if selectedIndex == 0 {
      newSelected := newSelected + JsSlice(selected, 1, |selected|);
      JsSliceInside(selected, 1, |selected|);
      RemoveFirstAt(selected, name);
    } else if selectedIndex == |selected| - 1 {
      newSelected := newSelected + JsSlice(selected, 0, -1);
      JsSliceDropLast(selected);
      RemoveFirstAt(selected, name);
      assert selected[selectedIndex + 1..] == [];
    } else if selectedIndex > 0 {
      newSelected := newSelected + JsSlice(selected, 0, selectedIndex) + JsSlice(selected, selectedIndex + 1, |selected|);
      JsSliceInside(selected, 0, selectedIndex);
      JsSliceInside(selected, selectedIndex + 1, |selected|);
      RemoveFirstAt(selected, name);
    }
  }

  /** The names of the loaded companies, in entity order:
      `Object.values(companies).map((n) => n.name)`. */
  function Names(companies: seq<Company>): (r: seq<string>)
    ensures |r| == |companies|
  {
    seq(|companies|, k requires 0 <= k < |companies| => companies[k].name)
  }

  /** After select-all every loaded company shows as selected, on any page. */
  lemma SelectAllCoversEveryRow(companies: seq<Company>, c: Company)
    requires c in companies
    ensures IsItemSelected(Names(companies), c.name)
  {
    var k :| 0 <= k < |companies| && companies[k] == c;
    assert Names(companies)[k] == c.name;
  }

  /** Selection is keyed by name, which need not be unique: after select-all,
      one click on a row whose name another row shares leaves that row shown
      as selected. */
  lemma SharedNameStaysSelected(companies: seq<Company>, i: nat, j: nat)
    requires i < j < |companies| && companies[i].name == companies[j].name
    ensures IsItemSelected(Toggle(Names(companies), companies[i].name), companies[i].name)
  {
    var names, x := Names(companies), companies[i].name;
    assert names[i] == x && names[j] == x;
    assert names == names[..j] + [x] + names[j + 1..];
    assert x in names[..j];
    assert multiset(names)[x] >= 2;
    ToggleCounts(names, x);
    assert multiset(Toggle(names, x))[x] >= 1;
  }

  // ----- The load guard -----

  /** `!errors.length`: true for an empty array, and also for an `Error`
      object, whose `length` is undefined. */
  predicate LengthIsFalsy(e: Errors)
  {
    match e
    case ErrorList(messages) => |messages| == 0
    case ErrorObject(_) => true
  }

  /** `shouldPerformFn` as written: `!loaded && !loading && !errors.length`. */
  predicate ShouldPerformAsWritten(s: State)
  {
    !s.loaded && !s.loading && LengthIsFalsy(s.errors)
  }

  /** As written, the guard opens again after every failed load, although the
      failure is recorded in `errors`: the load may be retried. */
  lemma GuardReopensAfterFailedLoad(s: State, mock: seq<Company>)
    ensures ShouldPerformAsWritten(ReduceAll(s, LoadDispatches(mock))) <==> |mock| == 0
  {
    LoadOutcome(s, mock);
  }

  /** Whether any error is recorded: a non-empty array or an `Error` object. */
  predicate HasErrors(e: Errors)
  {
    match e
    case ErrorList(messages) => |messages| > 0
    case ErrorObject(_) => true
  }

  /** The load guard as intended: nothing loaded, nothing loading, no error
      recorded. */
  predicate ShouldPerform(s: State)
  {
    !s.loaded && !s.loading && !HasErrors(s.errors)
  }

  lemma GuardOpenInitially()
    ensures ShouldPerform(InitialState) && ShouldPerformAsWritten(InitialState)
  {
  }

  /** The two guards agree on every state whose errors are an array. */
  lemma GuardsAgreeOnArrays(s: State)
    requires s.errors.ErrorList?
    ensures ShouldPerform(s) == ShouldPerformAsWritten(s)
  {
  }

  /** With the intended guard a load, successful or not, closes the guard:
      the collection is loaded at most once. */
  lemma GuardClosesAfterLoad(s: State, mock: seq<Company>)
    ensures !ShouldPerform(ReduceAll(s, LoadDispatches(mock)))
  {
    LoadOutcome(s, mock);
  }
}
