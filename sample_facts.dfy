/** Facts about the eight sample rows the dashboard ships with: the view
    shown on load, the rows a sample search finds, and the category list. */
module SampleFacts {
  import opened DataTable

  /** The sample rows by revenue, largest first. */
  const RevenueOrder: seq<DataItem> := [SampleData[4], SampleData[0], SampleData[7], SampleData[5],
                                        SampleData[1], SampleData[2], SampleData[6], SampleData[3]]

  lemma RevenueOrderSorted()
    ensures SortedBy(RevenueOrder, Revenue, Desc)
    ensures forall i, j :: 0 <= i < j < |RevenueOrder| ==> FieldOf(RevenueOrder[i], Revenue) != FieldOf(RevenueOrder[j], Revenue)
  {
    SortedFromAdjacent(RevenueOrder, Revenue, Desc);
  }

  /** Rearranging eight values keeps the same multiset. */
  lemma Permute8<T>(x: seq<T>)
    requires |x| == 8
    ensures multiset([x[4], x[0], x[7], x[5], x[1], x[2], x[6], x[3]]) == multiset(x)
  {
    var y := [x[4], x[0], x[7], x[5], x[1], x[2], x[6], x[3]];
    assert x == [x[0]] + [x[1]] + [x[2]] + [x[3]] + [x[4]] + [x[5]] + [x[6]] + [x[7]];
    assert y == [x[4]] + [x[0]] + [x[7]] + [x[5]] + [x[1]] + [x[2]] + [x[6]] + [x[3]];
    assert multiset(x) == multiset{x[0]} + multiset{x[1]} + multiset{x[2]} + multiset{x[3]}
                          + multiset{x[4]} + multiset{x[5]} + multiset{x[6]} + multiset{x[7]};
    assert multiset(y) == multiset{x[4]} + multiset{x[0]} + multiset{x[7]} + multiset{x[5]}
                          + multiset{x[1]} + multiset{x[2]} + multiset{x[6]} + multiset{x[3]};
  }

  /** Sorting all sample rows by revenue, largest first, can only list
      ids 5, 1, 8, 6, 2, 3, 7, 4: the revenues are all different, so the
      order the engine picks for ties never matters here. */
  lemma RevenueView(rows: seq<DataItem>)
    requires multiset(rows) == multiset(SampleData)
    requires SortedBy(rows, Revenue, Desc)
    ensures rows == RevenueOrder
  {
    RevenueOrderSorted();
    Permute8(SampleData);
    SortedPermutationUnique(RevenueOrder, rows, Revenue, Desc);
  }

  lemma RevenueOrderIds()
    ensures Ids(RevenueOrder) == [5, 1, 8, 6, 2, 3, 7, 4]
  {
  }

  /** A freshly mounted table (empty term, All, revenue, descending) shows
      ids 5, 1, 8, 6, 2, 3, 7, 4. */
  method InitialTable() returns (rows: seq<DataItem>)
    ensures Ids(rows) == [5, 1, 8, 6, 2, 3, 7, 4]
  {
    var q := new QueryState();
    rows := q.View();
    EmptyQueryKeepsAll(SampleData);
    RevenueView(rows);
    RevenueOrderIds();
  }

  lemma TechMatchesCompanies()
    ensures Matches(SampleData[0], "tech", All) && Matches(SampleData[3], "tech", All)
  {
    assert Lower("tech") == "tech";
    assert Lower(SampleData[0].company) == "techcorp inc.";
    assert Lower(SampleData[3].company) == "edutech pro";
    assert Includes("techcorp inc.", "tech");
    assert Includes("edutech pro", "tech");
  }

  lemma TechMissesFinanceHub()
    ensures !Matches(SampleData[1], "tech", All)
  {
    assert Lower("tech") == "tech";
    assert Lower(SampleData[1].company) == "financehub";
    assert !IncludesFrom("financehub", "tech", 5);
    assert !Includes("financehub", "tech");
  }

  lemma TechMissesHealthPlus()
    ensures !Matches(SampleData[2], "tech", All)
  {
    assert Lower("tech") == "tech";
    assert Lower(SampleData[2].company) == "healthplus";
    assert !IncludesFrom("healthplus", "tech", 5);
    assert !Includes("healthplus", "tech");
  }

  lemma TechMissesRetailMax()
    ensures !Matches(SampleData[4], "tech", All)
  {
    assert Lower("tech") == "tech";
    assert Lower(SampleData[4].company) == "retailmax";
    assert !IncludesFrom("retailmax", "tech", 5);
    assert !Includes("retailmax", "tech");
  }

  lemma TechMissesCloudSystems()
    ensures !Matches(SampleData[5], "tech", All)
  {
    assert Lower("tech") == "tech";
    assert Lower(SampleData[5].company) == "cloudsystems";
    assert !IncludesFrom("cloudsystems", "tech", 7);
    assert !Includes("cloudsystems", "tech");
  }

  lemma TechMissesMediCare()
    ensures !Matches(SampleData[6], "tech", All)
  {
    assert Lower("tech") == "tech";
    assert Lower(SampleData[6].company) == "medicare solutions";
    assert !IncludesFrom("medicare solutions", "tech", 7);
    assert !Includes("medicare solutions", "tech");
  }

  lemma TechMissesFinTrack()
    ensures !Matches(SampleData[7], "tech", All)
  {
    assert Lower("tech") == "tech";
    assert Lower(SampleData[7].company) == "fintrack";
    assert !Includes("fintrack", "tech");
  }

  /** Filtering eight rows of which exactly the first and the fourth match. */
  lemma FilterFirstAndFourth(data: seq<DataItem>, t: string, c: string)
    requires |data| == 8
    requires Matches(data[0], t, c) && Matches(data[3], t, c)
    requires !Matches(data[1], t, c) && !Matches(data[2], t, c) && !Matches(data[4], t, c)
    requires !Matches(data[5], t, c) && !Matches(data[6], t, c) && !Matches(data[7], t, c)
    ensures Filter(data, t, c) == [data[0], data[3]]
  {
    assert Filter(data[8..], t, c) == [];
    assert Filter(data[7..], t, c) == [];
    assert Filter(data[6..], t, c) == [];
    assert Filter(data[5..], t, c) == [];
    assert Filter(data[4..], t, c) == [];
    assert Filter(data[3..], t, c) == [data[3]];
    assert Filter(data[2..], t, c) == [data[3]];
    assert Filter(data[1..], t, c) == [data[3]];
  }

  /** Searching for "tech" finds TechCorp Inc. (id 1) and EduTech Pro (id 4) only. */
  lemma TechSearch()
    ensures Filter(SampleData, "tech", All) == [SampleData[0], SampleData[3]]
  {
    TechMatchesCompanies();
    TechMissesFinanceHub();
    TechMissesHealthPlus();
    TechMissesRetailMax();
    TechMissesCloudSystems();
    TechMissesMediCare();
    TechMissesFinTrack();
    FilterFirstAndFourth(SampleData, "tech", All);
  }

  /** A value already seen leaves DistinctInOrder unchanged. */
  lemma RepeatSkipped(init: seq<string>, last: string, seen: seq<string>)
    requires DistinctInOrder(init) == seen && last in seen
    ensures DistinctInOrder(init + [last]) == seen
  {
    assert (init + [last])[..|init|] == init;
  }

  lemma SampleCategoryColumn()
    ensures CategoryColumn(SampleData) == ["Technology", "Finance", "Healthcare", "Education", "Retail", "Technology", "Healthcare", "Finance"]
  {
  }

  /** Eight values where the last three repeat the first, third and
      second: the first five survive, in order. */
  lemma DistinctFiveOfEight(cats: seq<string>)
    requires |cats| == 8 && cats[5] == cats[0] && cats[6] == cats[2] && cats[7] == cats[1]
    requires forall i, j :: 0 <= i < j < 5 ==> cats[i] != cats[j]
    ensures DistinctInOrder(cats) == cats[..5]
  {
    FirstFiveDistinct(cats);
    LastThreeRepeat(cats, cats[..5]);
  }

  lemma FirstFiveDistinct(cats: seq<string>)
    requires |cats| == 8
    requires forall i, j :: 0 <= i < j < 5 ==> cats[i] != cats[j]
    ensures DistinctInOrder(cats[..5]) == cats[..5]
  {
    DistinctInOrderOfDistinct(cats[..5]);
  }

  /** Three values already seen leave DistinctInOrder unchanged. */
  lemma ThreeRepeatsSkipped(init: seq<string>, x: string, y: string, z: string)
    requires DistinctInOrder(init) == init && x in init && y in init && z in init
    ensures DistinctInOrder(init + [x] + [y] + [z]) == init
  {
    RepeatSkipped(init, x, init);
    RepeatSkipped(init + [x], y, init);
    RepeatSkipped(init + [x] + [y], z, init);
  }

  lemma LastThreeRepeat(cats: seq<string>, five: seq<string>)
    requires |cats| == 8 && five == cats[..5] && DistinctInOrder(five) == five
    requires cats[5] == cats[0] && cats[6] == cats[2] && cats[7] == cats[1]
    ensures DistinctInOrder(cats) == five
  {
    assert cats == five + [cats[5]] + [cats[6]] + [cats[7]];
    assert cats[5] == five[0] && cats[6] == five[2] && cats[7] == five[1];
    ThreeRepeatsSkipped(five, cats[5], cats[6], cats[7]);
  }

  /** The category selector offers All, Technology, Finance, Healthcare,
      Education and Retail, in that order. */
  lemma SampleCategories()
    ensures Categories(SampleData) == [All, "Technology", "Finance", "Healthcare", "Education", "Retail"]
  {
    SampleCategoryColumn();
    DistinctFiveOfEight(["Technology", "Finance", "Healthcare", "Education", "Retail", "Technology", "Healthcare", "Finance"]);
  }
}
