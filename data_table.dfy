/** The "Industry Leaders" performance dashboard: eight fixed company rows,
    filtered by a case-insensitive search on the company name and by a
    category, then sorted on one column in one direction. */
module DataTable {

  /** One row of the table. */
  datatype DataItem = DataItem(
    id: int,
    company: string,
    revenue: int,
    growth: int,
    employees: int,
    category: string)

  /** The keys of a DataItem, i.e. the columns a sort may be asked for.
      The headers pass Company, Category, Revenue, Growth and Employees;
      Id is a key too, so it is admitted. */
  datatype SortField = Id | Company | Revenue | Growth | Employees | Category

  datatype SortDirection = Asc | Desc

  /** The value of one field of a row: a number or a string. */
  datatype FieldValue = Num(n: int) | Text(s: string)

  /** Whether a growth figure is shown with the rising or the falling arrow. */
  datatype Trend = Rising | Falling

  /** What the growth cell shows: an arrow and an unsigned percentage. */
  datatype GrowthBadge = GrowthBadge(trend: Trend, magnitude: nat)

  /** The sentinel category that disables the category filter. */
  const All: string := "All"

  const SampleData: seq<DataItem> := [
    DataItem(1, "TechCorp Inc.", 45000000, 27, 250, "Technology"),
    DataItem(2, "FinanceHub", 32000000, -5, 180, "Finance"),
    DataItem(3, "HealthPlus", 28000000, 15, 320, "Healthcare"),
    DataItem(4, "EduTech Pro", 19000000, 42, 95, "Education"),
    DataItem(5, "RetailMax", 51000000, 8, 410, "Retail"),
    DataItem(6, "CloudSystems", 38000000, 33, 175, "Technology"),
    DataItem(7, "MediCare Solutions", 22000000, -3, 205, "Healthcare"),
    DataItem(8, "FinTrack", 41000000, 19, 145, "Finance")
  ]

  // ---------------------------------------------------------------------
  // Strings: lower-casing, substring search, lexicographic order
  // ---------------------------------------------------------------------

  /** Lower-casing of one character, restricted to ASCII letters. */
  function LowerChar(c: char): (r: char)
    ensures !('A' <= r <= 'Z')
    ensures 'A' <= c <= 'Z' ==> 'a' <= r <= 'z' && r as int - 'a' as int == c as int - 'A' as int
    ensures !('A' <= c <= 'Z') ==> r == c
  {
    if 'A' <= c <= 'Z' then (c as int + 32) as char else c
  }

  function Lower(s: string): string {
    seq(|s|, i requires 0 <= i < |s| => LowerChar(s[i]))
  }

  /** `needle` occurs in `hay` starting at position `i`. */
  ghost predicate OccursAt(hay: string, needle: string, i: int) {
    0 <= i && i + |needle| <= |hay| && hay[i..i + |needle|] == needle
  }

  /** The characters of `needle` from `j` on agree with `hay` from `i + j` on. */
  predicate MatchAt(hay: string, needle: string, i: nat, j: nat)
    requires i + |needle| <= |hay|
    decreases |needle| - j
  {
    j >= |needle| || (hay[i + j] == needle[j] && MatchAt(hay, needle, i, j + 1))
  }

  /** `needle` occurs in `hay` at some position at or after `i`. */
  predicate IncludesFrom(hay: string, needle: string, i: nat)
    decreases |hay| - i
  {
    i + |needle| <= |hay| && (MatchAt(hay, needle, i, 0) || IncludesFrom(hay, needle, i + 1))
  }

  /** String.prototype.includes: the empty needle is found in every string. */
  predicate Includes(hay: string, needle: string) {
    IncludesFrom(hay, needle, 0)
  }

  lemma {:induction false} MatchAtSpec(hay: string, needle: string, i: nat, j: nat)
    requires i + |needle| <= |hay| && j <= |needle|
    ensures MatchAt(hay, needle, i, j) <==> hay[i + j..i + |needle|] == needle[j..]
    decreases |needle| - j
  {
    if j < |needle| {
      MatchAtSpec(hay, needle, i, j + 1);
      assert hay[i + j..i + |needle|] == [hay[i + j]] + hay[i + j + 1..i + |needle|];
      assert needle[j..] == [needle[j]] + needle[j + 1..];
    }
  }

  lemma {:induction false} IncludesFromSpec(hay: string, needle: string, i: nat)
    ensures IncludesFrom(hay, needle, i) <==> exists k :: i <= k && OccursAt(hay, needle, k)
    decreases |hay| - i
  {
    if i + |needle| <= |hay| {
      MatchAtSpec(hay, needle, i, 0);
      assert needle[0..] == needle;
      IncludesFromSpec(hay, needle, i + 1);
      if MatchAt(hay, needle, i, 0) {
        assert OccursAt(hay, needle, i);
      }
      if exists k :: i <= k && OccursAt(hay, needle, k) {
        var k :| i <= k && OccursAt(hay, needle, k);
        if k == i {
          assert MatchAt(hay, needle, i, 0);
        } else {
          assert i + 1 <= k && OccursAt(hay, needle, k);
        }
      }
    }
  }

  /** The search the source runs finds `needle` exactly when it occurs somewhere. */
  lemma IncludesSpec(hay: string, needle: string)
    ensures Includes(hay, needle) <==> exists k :: OccursAt(hay, needle, k)
  {
    IncludesFromSpec(hay, needle, 0);
    if exists k :: OccursAt(hay, needle, k) {
      var k :| OccursAt(hay, needle, k);
      assert 0 <= k;
    }
  }

  /** Occurrence is transitive: a part of a part of `hay` is a part of `hay`. */
  lemma IncludesTransitive(hay: string, mid: string, needle: string)
    requires Includes(hay, mid) && Includes(mid, needle)
    ensures Includes(hay, needle)
  {
    IncludesSpec(hay, mid);
    IncludesSpec(mid, needle);
    IncludesSpec(hay, needle);
    var i :| OccursAt(hay, mid, i);
    var k :| OccursAt(mid, needle, k);
    assert mid == hay[i..i + |mid|];
    forall t | 0 <= t < |needle|
      ensures hay[i + k + t] == needle[t]
    {
      assert mid[k + t] == needle[t];
    }
    assert hay[i + k..i + k + |needle|] == needle;
    assert OccursAt(hay, needle, i + k);
  }

  /** Lower-casing keeps occurrences. */
  lemma IncludesLower(hay: string, needle: string)
    requires Includes(hay, needle)
    ensures Includes(Lower(hay), Lower(needle))
  {
    IncludesSpec(hay, needle);
    IncludesSpec(Lower(hay), Lower(needle));
    var i :| OccursAt(hay, needle, i);
    assert Lower(hay)[i..i + |needle|] == Lower(needle);
    assert OccursAt(Lower(hay), Lower(needle), i);
  }

  /** JavaScript's `a > b` on strings: lexicographic on characters, and a
      proper prefix is smaller than the longer string. */
  predicate TextGreater(a: string, b: string)
    decreases |a|
  {
    |a| > 0 && (|b| == 0 || a[0] > b[0] || (a[0] == b[0] && TextGreater(a[1..], b[1..])))
  }

  lemma {:induction false} TextGreaterIrreflexive(a: string)
    ensures !TextGreater(a, a)
    decreases |a|
  {
    if |a| > 0 {
      TextGreaterIrreflexive(a[1..]);
    }
  }

  lemma {:induction false} TextGreaterTransitive(a: string, b: string, c: string)
    requires TextGreater(a, b) && TextGreater(b, c)
    ensures TextGreater(a, c)
    decreases |a|
  {
    if |c| > 0 && a[0] == b[0] == c[0] {
      TextGreaterTransitive(a[1..], b[1..], c[1..]);
    }
  }

  /** Two different strings are always ordered one way or the other. */
  lemma {:induction false} TextGreaterTotal(a: string, b: string)
    requires a != b
    ensures TextGreater(a, b) || TextGreater(b, a)
    decreases |a|
  {
    if |a| > 0 && |b| > 0 && a[0] == b[0] {
      assert a == [a[0]] + a[1..] && b == [b[0]] + b[1..];
      TextGreaterTotal(a[1..], b[1..]);
    }
  }

  // ---------------------------------------------------------------------
  // Field values and the comparator
  // ---------------------------------------------------------------------

  function FieldOf(item: DataItem, f: SortField): FieldValue {
    match f
    case Id => Num(item.id)
    case Company => Text(item.company)
    case Revenue => Num(item.revenue)
    case Growth => Num(item.growth)
    case Employees => Num(item.employees)
    case Category => Text(item.category)
  }

  /** JavaScript's `a > b` for two values of the same field. */
  predicate Greater(a: FieldValue, b: FieldValue) {
    match (a, b)
    case (Num(x), Num(y)) => x > y
    case (Text(x), Text(y)) => TextGreater(x, y)
    case _ => false
  }

  /** `x` may stand before `y` in a table sorted on `f` in direction `d`:
      not larger when ascending, not smaller when descending. */
  predicate Precedes(x: DataItem, y: DataItem, f: SortField, d: SortDirection) {
    if d == Asc then !Greater(FieldOf(x, f), FieldOf(y, f))
    else !Greater(FieldOf(y, f), FieldOf(x, f))
  }

  ghost predicate SortedBy(s: seq<DataItem>, f: SortField, d: SortDirection) {
    forall i, j :: 0 <= i < j < |s| ==> Precedes(s[i], s[j], f, d)
  }

  /** The comparator handed to Array.prototype.sort: `multiplier` if `a` is
      larger, `-multiplier` otherwise, so it never answers 0. A positive
      answer asks for `b` to go first, a negative one for `a` to go first;
      either request agrees with the order the table promises. */
  function Compare(a: DataItem, b: DataItem, f: SortField, d: SortDirection): (r: int)
    ensures r == 1 || r == -1
    ensures r > 0 ==> Precedes(b, a, f, d)
    ensures r < 0 ==> Precedes(a, b, f, d)
  {
    var multiplier := if d == Asc then 1 else -1;
    var result := if Greater(FieldOf(a, f), FieldOf(b, f)) then multiplier else -multiplier;
    GreaterAsymmetric(FieldOf(a, f), FieldOf(b, f));
    result
  }

  /** On equal keys the comparator claims both `a` before `b` and `b` before
      `a` (or the reverse of both), so it is not a consistent comparator and
      the relative order of tied rows is left to the engine. */
  lemma CompareInconsistentOnTies(a: DataItem, b: DataItem, f: SortField, d: SortDirection)
    requires FieldOf(a, f) == FieldOf(b, f)
    ensures Compare(a, b, f, d) == Compare(b, a, f, d) == (if d == Asc then -1 else 1)
  {
    GreaterIrreflexive(FieldOf(a, f));
  }

  lemma GreaterIrreflexive(v: FieldValue)
    ensures !Greater(v, v)
  {
    if v.Text? {
      TextGreaterIrreflexive(v.s);
    }
  }

  lemma GreaterAsymmetric(u: FieldValue, v: FieldValue)
    ensures Greater(u, v) ==> !Greater(v, u)
  {
    if u.Text? && v.Text? && TextGreater(u.s, v.s) && TextGreater(v.s, u.s) {
      TextGreaterTransitive(u.s, v.s, u.s);
      TextGreaterIrreflexive(u.s);
    }
  }

  /** Two values of one field that neither exceeds are equal. */
  lemma NotGreaterAntisymmetric(x: DataItem, y: DataItem, f: SortField)
    requires !Greater(FieldOf(x, f), FieldOf(y, f)) && !Greater(FieldOf(y, f), FieldOf(x, f))
    ensures FieldOf(x, f) == FieldOf(y, f)
  {
    if f == Company && x.company != y.company {
      TextGreaterTotal(x.company, y.company);
    } else if f == Category && x.category != y.category {
      TextGreaterTotal(x.category, y.category);
    }
  }

  /** "Not larger" is transitive on the values of one field. */
  lemma NotGreaterTransitive(x: DataItem, y: DataItem, z: DataItem, f: SortField)
    requires !Greater(FieldOf(x, f), FieldOf(y, f)) && !Greater(FieldOf(y, f), FieldOf(z, f))
    ensures !Greater(FieldOf(x, f), FieldOf(z, f))
  {
    if f == Company || f == Category {
      var a, b, c := FieldOf(x, f).s, FieldOf(y, f).s, FieldOf(z, f).s;
      if TextGreater(a, c) {
        if a != b && b != c {
          TextGreaterTotal(a, b);
          TextGreaterTotal(b, c);
          TextGreaterTransitive(c, b, a);
          GreaterAsymmetric(FieldOf(x, f), FieldOf(z, f));
        }
      }
    }
  }

  lemma PrecedesTransitive(x: DataItem, y: DataItem, z: DataItem, f: SortField, d: SortDirection)
    requires Precedes(x, y, f, d) && Precedes(y, z, f, d)
    ensures Precedes(x, z, f, d)
  {
    if d == Asc {
      NotGreaterTransitive(x, y, z, f);
    } else {
      NotGreaterTransitive(z, y, x, f);
    }
  }

  // ---------------------------------------------------------------------
  // Filtering
  // ---------------------------------------------------------------------

  /** The filter predicate: the lower-cased term occurs in the lower-cased
      company name, and the category is All or the row's own. */
  predicate Matches(item: DataItem, searchTerm: string, selectedCategory: string) {
    Includes(Lower(item.company), Lower(searchTerm))
    && (selectedCategory == All || item.category == selectedCategory)
  }

  /** Array.prototype.filter with the predicate above: the matching rows in
      their original order. */
  function Filter(data: seq<DataItem>, searchTerm: string, selectedCategory: string): (rows: seq<DataItem>)
    ensures |rows| <= |data|
    ensures forall x :: x in rows ==> x in data && Matches(x, searchTerm, selectedCategory)
  {
    if |data| == 0 then []
    else
      (if Matches(data[0], searchTerm, selectedCategory) then [data[0]] else [])
      + Filter(data[1..], searchTerm, selectedCategory)
  }

  /** A row is shown exactly when it is one of the data rows and matches. */
  lemma {:induction false} FilterMembership(data: seq<DataItem>, searchTerm: string, selectedCategory: string, x: DataItem)
    ensures x in Filter(data, searchTerm, selectedCategory) <==> x in data && Matches(x, searchTerm, selectedCategory)
  {
    if |data| > 0 {
      FilterMembership(data[1..], searchTerm, selectedCategory, x);
      assert data == [data[0]] + data[1..];
    }
  }

  ghost predicate DistinctIds(s: seq<DataItem>) {
    forall i, j :: 0 <= i < j < |s| ==> s[i].id != s[j].id
  }

  /** Filtering keeps each row at most once. */
  lemma {:induction false} FilterKeepsDistinctIds(data: seq<DataItem>, searchTerm: string, selectedCategory: string)
    requires DistinctIds(data)
    ensures DistinctIds(Filter(data, searchTerm, selectedCategory))
  {
    if |data| > 0 {
      var rest := Filter(data[1..], searchTerm, selectedCategory);
      FilterKeepsDistinctIds(data[1..], searchTerm, selectedCategory);
      forall x | x in rest
        ensures x.id != data[0].id
      {
        var k :| 0 <= k < |data[1..]| && data[1..][k] == x;
        assert data[k + 1] == x;
      }
    }
  }

  /** With an empty search term and the All category every row is kept. */
  lemma {:induction false} EmptyQueryKeepsAll(data: seq<DataItem>)
    ensures Filter(data, "", All) == data
  {
    if |data| > 0 {
      EmptyQueryKeepsAll(data[1..]);
      assert MatchAt(Lower(data[0].company), Lower(""), 0, 0);
    }
  }

  /** A concrete category never shows more than the All category does. */
  lemma {:induction false} CategoryNarrows(data: seq<DataItem>, searchTerm: string, selectedCategory: string)
    ensures |Filter(data, searchTerm, selectedCategory)| <= |Filter(data, searchTerm, All)|
    ensures forall x :: x in Filter(data, searchTerm, selectedCategory) ==> x in Filter(data, searchTerm, All)
  {
    if |data| > 0 {
      CategoryNarrows(data[1..], searchTerm, selectedCategory);
    }
  }

  /** Extending the search term to a longer term containing it never shows more rows. */
  lemma {:induction false} SuperstringNarrows(data: seq<DataItem>, term: string, longer: string, selectedCategory: string)
    requires Includes(longer, term)
    ensures |Filter(data, longer, selectedCategory)| <= |Filter(data, term, selectedCategory)|
    ensures forall x :: x in Filter(data, longer, selectedCategory) ==> x in Filter(data, term, selectedCategory)
  {
    if |data| > 0 {
      SuperstringNarrows(data[1..], term, longer, selectedCategory);
      if Matches(data[0], longer, selectedCategory) {
        IncludesLower(longer, term);
        IncludesTransitive(Lower(data[0].company), Lower(longer), Lower(term));
      }
    }
  }

  // ---------------------------------------------------------------------
  // Sorting
  // ---------------------------------------------------------------------

  /** The first `n` cells of `a` are in table order. */
  ghost predicate SortedPrefix(a: array<DataItem>, n: int, f: SortField, d: SortDirection)
    reads a
  {
    forall p, q :: 0 <= p < q < n && q < a.Length ==> Precedes(a[p], a[q], f, d)
  }

  /** Sorts the rows in place by insertion, asking the comparator about
      adjacent rows and swapping them while it answers positive. */
  method SortRows(a: array<DataItem>, f: SortField, d: SortDirection)
    modifies a
    ensures SortedBy(a[..], f, d)
    ensures multiset(a[..]) == multiset(old(a[..]))
  {
    var i := 0;
    while i < a.Length
      invariant i <= a.Length
      invariant SortedPrefix(a, i, f, d)
      invariant multiset(a[..]) == multiset(old(a[..]))
    {
      InsertLast(a, i, f, d);
      i := i + 1;
    }
  }

  /** Exchanges the rows at `j - 1` and `j`. */
  method Swap(a: array<DataItem>, j: nat)
    requires 0 < j < a.Length
    modifies a
    ensures a[j - 1] == old(a[j]) && a[j] == old(a[j - 1])
    ensures forall k :: 0 <= k < a.Length && k != j - 1 && k != j ==> a[k] == old(a[k])
    ensures multiset(a[..]) == multiset(old(a[..]))
  {
    a[j - 1], a[j] := a[j], a[j - 1];
  }

  /** One insertion step: moves `a[i]` left into the sorted prefix `a[..i]`. */
  method InsertLast(a: array<DataItem>, i: nat, f: SortField, d: SortDirection)
    requires i < a.Length && SortedPrefix(a, i, f, d)
    modifies a
    ensures SortedPrefix(a, i + 1, f, d)
    ensures a[i + 1..] == old(a[i + 1..])
    ensures multiset(a[..]) == multiset(old(a[..]))
  {
    var j := i;
    while j > 0 && Compare(a[j - 1], a[j], f, d) > 0
      invariant 0 <= j <= i
      invariant forall p, q :: 0 <= p < q <= i && p != j && q != j ==> Precedes(a[p], a[q], f, d)
      invariant forall q :: j < q <= i ==> Precedes(a[j], a[q], f, d)
      invariant a[i + 1..] == old(a[i + 1..])
      invariant multiset(a[..]) == multiset(old(a[..]))
    {
      Swap(a, j);
      j := j - 1;
    }
    forall p | 0 <= p < j
      ensures Precedes(a[p], a[j], f, d)
    {
      if p < j - 1 {
        PrecedesTransitive(a[p], a[j - 1], a[j], f, d);
      }
    }
  }

  /** The memoised view: the matching rows of `data`, sorted on `sortField`
      in `sortDirection`; no row is added or dropped by the sort. */
  method FilterAndSort(data: seq<DataItem>, searchTerm: string, selectedCategory: string,
                       sortField: SortField, sortDirection: SortDirection)
    returns (rows: seq<DataItem>)
    ensures multiset(rows) == multiset(Filter(data, searchTerm, selectedCategory))
    ensures SortedBy(rows, sortField, sortDirection)
    ensures forall x :: x in rows <==> x in data && Matches(x, searchTerm, selectedCategory)
    ensures |rows| <= |data|
    ensures DistinctIds(data) ==> DistinctIds(rows)
  {
    var filtered := Filter(data, searchTerm, selectedCategory);
    var a := new DataItem[|filtered|](i requires 0 <= i < |filtered| => filtered[i]);
    assert a[..] == filtered;
    SortRows(a, sortField, sortDirection);
    rows := a[..];
    forall x
      ensures x in rows <==> x in data && Matches(x, searchTerm, selectedCategory)
    {
      FilterMembership(data, searchTerm, selectedCategory, x);
      assert x in rows <==> x in multiset(rows);
    }
    assert |rows| == |multiset(rows)| == |filtered|;
    if DistinctIds(data) {
      FilterKeepsDistinctIds(data, searchTerm, selectedCategory);
      PermutationKeepsDistinctIds(filtered, rows);
    }
  }

  lemma PermutationKeepsDistinctIds(s: seq<DataItem>, t: seq<DataItem>)
    requires multiset(s) == multiset(t) && DistinctIds(s)
    ensures DistinctIds(t)
  {
    forall i, j | 0 <= i < j < |t|
      ensures t[i].id != t[j].id
    {
      if t[i].id == t[j].id {
        assert t[i] in multiset(s) && t[j] in multiset(s);
        var p :| 0 <= p < |s| && s[p] == t[i];
        var q :| 0 <= q < |s| && s[q] == t[j];
        if t[i] == t[j] {
          var m := multiset(t);
          assert t == t[..i] + [t[i]] + t[i + 1..j] + [t[j]] + t[j + 1..];
          assert m[t[i]] >= 2;
          assert multiset(s)[t[i]] >= 2;
          SingleOccurrence(s, p);
        }
      }
    }
  }

  /** With distinct ids a row occurs once. */
  lemma SingleOccurrence(s: seq<DataItem>, p: nat)
    requires DistinctIds(s) && p < |s|
    ensures multiset(s)[s[p]] == 1
  {
    assert s == s[..p] + [s[p]] + s[p + 1..];
    assert s[p] !in s[..p];
    assert s[p] !in s[p + 1..];
    assert multiset(s[..p])[s[p]] == 0;
    assert multiset(s[p + 1..])[s[p]] == 0;
  }

  /** Two sorted arrangements of the same rows start with the same row
      when the sort key tells all rows apart. */
  lemma SortedHeadsAgree(s: seq<DataItem>, t: seq<DataItem>, f: SortField, d: SortDirection)
    requires |s| > 0 && multiset(s) == multiset(t)
    requires SortedBy(s, f, d) && SortedBy(t, f, d)
    requires forall i, j :: 0 <= i < j < |s| ==> FieldOf(s[i], f) != FieldOf(s[j], f)
    ensures |t| > 0 && s[0] == t[0]
  {
    assert s[0] in multiset(t);
    var k :| 0 <= k < |t| && t[k] == s[0];
    assert t[0] in multiset(s);
    var m :| 0 <= m < |s| && s[m] == t[0];
    assert Precedes(t[0], s[0], f, d) by {
      if k > 0 {
        assert Precedes(t[0], t[k], f, d);
      } else {
        GreaterIrreflexive(FieldOf(t[0], f));
      }
    }
    assert Precedes(s[0], t[0], f, d) by {
      if m > 0 {
        assert Precedes(s[0], s[m], f, d);
      } else {
        GreaterIrreflexive(FieldOf(s[0], f));
      }
    }
    NotGreaterAntisymmetric(s[0], t[0], f);
    assert m == 0;
  }

  /** When the sort key tells all rows apart, the sorted arrangement of a
      set of rows is unique: whatever order the engine picks, the table
      reads the same. */
  lemma {:induction false} SortedPermutationUnique(s: seq<DataItem>, t: seq<DataItem>, f: SortField, d: SortDirection)
    requires multiset(s) == multiset(t)
    requires SortedBy(s, f, d) && SortedBy(t, f, d)
    requires forall i, j :: 0 <= i < j < |s| ==> FieldOf(s[i], f) != FieldOf(s[j], f)
    ensures s == t
    decreases |s|
  {
    assert |s| == |multiset(s)| == |t|;
    if |s| > 0 {
      SortedHeadsAgree(s, t, f, d);
      assert s == [s[0]] + s[1..] && t == [t[0]] + t[1..];
      assert multiset(s[1..]) == multiset(s) - multiset{s[0]};
      assert multiset(t[1..]) == multiset(t) - multiset{t[0]};
      SortedPermutationUnique(s[1..], t[1..], f, d);
    }
  }

  function Ids(s: seq<DataItem>): seq<int> {
    seq(|s|, i requires 0 <= i < |s| => s[i].id)
  }

  /** Adjacent rows in table order make the whole table in order. */
  lemma {:induction false} SortedFromAdjacent(s: seq<DataItem>, f: SortField, d: SortDirection)
    requires forall i :: 0 <= i < |s| - 1 ==> Precedes(s[i], s[i + 1], f, d)
    ensures SortedBy(s, f, d)
    decreases |s|
  {
    if |s| > 1 {
      SortedFromAdjacent(s[1..], f, d);
      forall j | 1 < j < |s|
        ensures Precedes(s[0], s[j], f, d)
      {
        assert Precedes(s[1], s[j], f, d) by {
          assert s[1..][0] == s[1] && s[1..][j - 1] == s[j];
        }
        PrecedesTransitive(s[0], s[1], s[j], f, d);
      }
      forall i, j | 0 <= i < j < |s|
        ensures Precedes(s[i], s[j], f, d)
      {
        if i > 0 {
          assert s[1..][i - 1] == s[i] && s[1..][j - 1] == s[j];
        }
      }
    }
  }

  // ---------------------------------------------------------------------
  // Categories and the growth cell
  // ---------------------------------------------------------------------

  /** The position at which `x` first appears in `s`. */
  function FirstIndex(s: seq<string>, x: string): (k: nat)
    requires x in s
    ensures k < |s| && s[k] == x
    ensures forall p :: 0 <= p < k ==> s[p] != x
  {
    if s[0] == x then 0 else 1 + FirstIndex(s[1..], x)
  }

  /** Extending a list at the end moves no first appearance, and a value new
      to the list first appears at the end. */
  lemma FirstIndexExtend(init: seq<string>, last: string)
    ensures forall x :: x in init ==> FirstIndex(init + [last], x) == FirstIndex(init, x)
    ensures last !in init ==> FirstIndex(init + [last], last) == |init|
  {
    var s := init + [last];
    forall x | x in init
      ensures FirstIndex(s, x) == FirstIndex(init, x)
    {
      var k0, k1 := FirstIndex(init, x), FirstIndex(s, x);
      assert s[k0] == x;
    }
  }

  /** Array.from(new Set(s)): each value once, in order of first appearance. */
  function DistinctInOrder(s: seq<string>): (r: seq<string>)
    ensures forall x :: x in r <==> x in s
    ensures forall i, j :: 0 <= i < j < |r| ==> r[i] != r[j]
  {
    if |s| == 0 then []
    else
      var prefix := DistinctInOrder(s[..|s| - 1]);
      var last := s[|s| - 1];
      assert s == s[..|s| - 1] + [last];
      if last in prefix then prefix else prefix + [last]
  }

  /** The values DistinctInOrder keeps come in the order in which each
      first appears in `s`. */
  lemma {:induction false} DistinctInOrderFirstAppearance(s: seq<string>)
    ensures forall i, j :: 0 <= i < j < |DistinctInOrder(s)| ==>
      FirstIndex(s, DistinctInOrder(s)[i]) < FirstIndex(s, DistinctInOrder(s)[j])
  {
    if |s| > 0 {
      var init, last := s[..|s| - 1], s[|s| - 1];
      assert s == init + [last];
      DistinctInOrderFirstAppearance(init);
      FirstIndexExtend(init, last);
      var prefix, r := DistinctInOrder(init), DistinctInOrder(s);
      forall i, j | 0 <= i < j < |r|
        ensures FirstIndex(s, r[i]) < FirstIndex(s, r[j])
      {
        assert r[i] == prefix[i] && r[i] in init;
        if j < |prefix| {
          assert r[j] == prefix[j];
        }
      }
    }
  }

  /** A list without repeats is its own set of distinct values. */
  lemma {:induction false} DistinctInOrderOfDistinct(s: seq<string>)
    requires forall i, j :: 0 <= i < j < |s| ==> s[i] != s[j]
    ensures DistinctInOrder(s) == s
  {
    if |s| > 0 {
      var init := s[..|s| - 1];
      DistinctInOrderOfDistinct(init);
      assert s[|s| - 1] !in init;
      assert s == init + [s[|s| - 1]];
    }
  }

  /** The category of every row, in row order. */
  function CategoryColumn(data: seq<DataItem>): (cats: seq<string>)
    ensures |cats| == |data|
    ensures forall c :: c in cats <==> exists x :: x in data && x.category == c
  {
    var cats := seq(|data|, i requires 0 <= i < |data| => data[i].category);
    assert forall c :: c in cats <==> exists x :: x in data && x.category == c by {
      forall c | c in cats ensures exists x :: x in data && x.category == c {
        var i :| 0 <= i < |cats| && cats[i] == c;
        assert data[i] in data;
      }
      forall c | exists x :: x in data && x.category == c ensures c in cats {
        var x :| x in data && x.category == c;
        var i :| 0 <= i < |data| && data[i] == x;
        assert cats[i] == c;
      }
    }
    cats
  }

  /** The options of the category selector: All, then every category of the
      data once, in order of first appearance. */
  function Categories(data: seq<DataItem>): (r: seq<string>)
    ensures |r| >= 1 && r[0] == All
    ensures forall c :: c in r[1..] <==> exists x :: x in data && x.category == c
    ensures forall i, j :: 1 <= i < j < |r| ==> r[i] != r[j]
  {
    [All] + DistinctInOrder(CategoryColumn(data))
  }

  /** The categories after All come in the order in which each first
      appears in the rows. */
  lemma CategoriesFirstAppearance(data: seq<DataItem>)
    ensures forall c :: c in Categories(data)[1..] ==> c in CategoryColumn(data)
    ensures forall i, j :: 1 <= i < j < |Categories(data)| ==>
      FirstIndex(CategoryColumn(data), Categories(data)[i]) < FirstIndex(CategoryColumn(data), Categories(data)[j])
  {
    var cats := CategoryColumn(data);
    var r := Categories(data);
    assert r[1..] == DistinctInOrder(cats);
    DistinctInOrderFirstAppearance(cats);
    forall i, j | 1 <= i < j < |r|
      ensures FirstIndex(cats, r[i]) < FirstIndex(cats, r[j])
    {
      assert r[i] == r[1..][i - 1] && r[j] == r[1..][j - 1];
    }
  }

  /** The growth cell: the rising arrow for zero and up, the falling one
      below zero, next to the absolute value. Arrow and number together
      give back the growth figure. */
  function Badge(growth: int): (b: GrowthBadge)
    ensures b.trend == Rising <==> growth >= 0
    ensures (if b.trend == Rising then b.magnitude as int else -(b.magnitude as int)) == growth
  {
    if growth >= 0 then GrowthBadge(Rising, growth) else GrowthBadge(Falling, -growth)
  }

  // ---------------------------------------------------------------------
  // Query state
  // ---------------------------------------------------------------------

  /** The column-header rule: the current column flips direction, another
      column becomes current and starts descending. */
  function ToggleSort(field: SortField, direction: SortDirection, clicked: SortField): (r: (SortField, SortDirection))
    ensures r.0 == clicked
    ensures clicked == field ==> r.1 != direction
    ensures clicked != field ==> r.1 == Desc
  {
    if field == clicked then (field, if direction == Asc then Desc else Asc)
    else (clicked, Desc)
  }

  /** Clicking the current column twice restores its direction. */
  lemma ToggleTwice(field: SortField, direction: SortDirection)
    ensures ToggleSort(field, direction, field).1 != direction
    ensures ToggleSort(ToggleSort(field, direction, field).0, ToggleSort(field, direction, field).1, field) == (field, direction)
  {
  }

  /** Clicking another column twice leaves it current and ascending. */
  lemma ToggleOtherTwice(field: SortField, direction: SortDirection, clicked: SortField)
    requires clicked != field
    ensures var (f1, d1) := ToggleSort(field, direction, clicked); ToggleSort(f1, d1, clicked) == (clicked, Asc)
  {
  }

  /** The sample records carry ids 1 to 8, each once. */
  lemma SampleDataDistinctIds()
    ensures DistinctIds(SampleData)
  {
    assert forall i :: 0 <= i < |SampleData| ==> SampleData[i].id == i + 1;
  }

  /** The four fields of query state the table keeps. */
  class QueryState {
    var searchTerm: string
    var selectedCategory: string
    var sortField: SortField
    var sortDirection: SortDirection

    constructor ()
      ensures searchTerm == "" && selectedCategory == All
      ensures sortField == Revenue && sortDirection == Desc
    {
      searchTerm := "";
      selectedCategory := All;
      sortField := Revenue;
      sortDirection := Desc;
    }

    /** The search box's change handler. */
    method SetSearchTerm(value: string)
      modifies this`searchTerm
      ensures searchTerm == value
    {
      searchTerm := value;
    }

    /** The category selector's change handler. */
    method SetSelectedCategory(value: string)
      modifies this`selectedCategory
      ensures selectedCategory == value
    {
      selectedCategory := value;
    }

    /** handleSort: a click on a column header. */
    method HandleSort(field: SortField)
      modifies this`sortField, this`sortDirection
      ensures (sortField, sortDirection) == ToggleSort(old(sortField), old(sortDirection), field)
    {
      sortField, sortDirection := ToggleSort(sortField, sortDirection, field).0, ToggleSort(sortField, sortDirection, field).1;
    }

    /** The rows the table renders for the current state. */
    method View() returns (rows: seq<DataItem>)
      ensures multiset(rows) == multiset(Filter(SampleData, searchTerm, selectedCategory))
      ensures SortedBy(rows, sortField, sortDirection)
      ensures forall x :: x in rows <==> x in SampleData && Matches(x, searchTerm, selectedCategory)
      ensures |rows| <= |SampleData| && DistinctIds(rows)
    {
      SampleDataDistinctIds();
      rows := FilterAndSort(SampleData, searchTerm, selectedCategory, sortField, sortDirection);
    }
  }
}
