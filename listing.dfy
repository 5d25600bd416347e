/**
 * The listing page's server load: every sample row, projected for the page, plus the distinct
 * material types and environments in first-seen order, or empty lists when the store fails.
 */
module Listing {
  import opened Types

  // ---------------------------------------------------------------------------------------------
  // First-occurrence deduplication, as a set built in insertion order and read back as a list

  /** The distinct elements of `xs`, each where it first occurs. */
  function Distinct<T(==)>(xs: seq<T>): (r: seq<T>)
    ensures |r| <= |xs|
    ensures xs != [] ==> r != [] && r[0] == xs[0]
    decreases |xs|
  {
    if xs == [] then []
    else
      var seen := Distinct(xs[..|xs| - 1]);
      var x := xs[|xs| - 1];
      if x in seen then seen else seen + [x]
  }

  /** The position of the first occurrence of `x` in `xs`. */
  function FirstIndex<T(==)>(xs: seq<T>, x: T): (i: nat)
    requires x in xs
    ensures i < |xs| && xs[i] == x
    ensures forall j :: 0 <= j < i ==> xs[j] != x
    decreases |xs|
  {
    if xs[0] == x then 0 else 1 + FirstIndex(xs[1..], x)
  }

  predicate NoDuplicates<T(==)>(s: seq<T>)
  {
    forall i, j :: 0 <= i < j < |s| ==> s[i] != s[j]
  }

  /** The elements of `r` occur in `xs`, ordered by where they first occur there. */
  predicate FirstSeenOrder<T(==)>(xs: seq<T>, r: seq<T>)
  {
    && (forall k :: 0 <= k < |r| ==> r[k] in xs)
    && (forall i, j :: 0 <= i < j < |r| ==> FirstIndex(xs, r[i]) < FirstIndex(xs, r[j]))
  }

  /** The first occurrence of an element of a prefix is found in that prefix. */
  lemma FirstIndexInPrefix<T>(xs: seq<T>, n: nat, x: T)
    requires n <= |xs| && x in xs[..n]
    ensures FirstIndex(xs, x) == FirstIndex(xs[..n], x)
  {
    var i := FirstIndex(xs[..n], x);
    var k := FirstIndex(xs, x);
    assert xs[i] == x;
    assert k <= i;
    assert xs[..n][k] == x;
  }

  /** Dropping the last element keeps the first occurrences of everything before it. */
  lemma FirstIndicesOfPrefix<T>(xs: seq<T>)
    requires xs != []
    ensures forall y :: y in xs[..|xs| - 1] ==> FirstIndex(xs, y) == FirstIndex(xs[..|xs| - 1], y) < |xs| - 1
  {
    forall y | y in xs[..|xs| - 1]
      ensures FirstIndex(xs, y) == FirstIndex(xs[..|xs| - 1], y) < |xs| - 1
    {
      FirstIndexInPrefix(xs, |xs| - 1, y);
    }
  }

  lemma {:induction false} DistinctElements<T>(xs: seq<T>)
    ensures forall x :: x in Distinct(xs) <==> x in xs
    ensures |Distinct(xs)| <= |xs|
    decreases |xs|
  {
    if xs != [] {
      var before := xs[..|xs| - 1];
      DistinctElements(before);
      assert xs == before + [xs[|xs| - 1]];
    }
  }

  lemma {:induction false} DistinctNoDuplicates<T>(xs: seq<T>)
    ensures NoDuplicates(Distinct(xs))
    decreases |xs|
  {
    if xs != [] {
      DistinctNoDuplicates(xs[..|xs| - 1]);
    }
  }

  lemma {:induction false} DistinctFirstSeenOrder<T>(xs: seq<T>)
    ensures FirstSeenOrder(xs, Distinct(xs))
    decreases |xs|
  {
    if xs != [] {
      var n := |xs|;
      var before := xs[..n - 1];
      var x := xs[n - 1];
      var s := Distinct(before);
      DistinctFirstSeenOrder(before);
      DistinctElements(before);
      DistinctElements(xs);
      assert xs == before + [x];
      forall y | y in s
        ensures FirstIndex(xs, y) == FirstIndex(before, y) < n - 1
      {
        FirstIndexInPrefix(xs, n - 1, y);
      }
      if x !in s {
        assert FirstIndex(xs, x) == n - 1;
      }
    }
  }

  /** A new last element comes last in any list of first-seen order that contains it. */
  lemma NewLastComesLast<T>(before: seq<T>, x: T, r: seq<T>)
    requires x !in before && x in r
    requires FirstSeenOrder(before + [x], r)
    ensures r[|r| - 1] == x
  {
    var xs := before + [x];
    assert FirstIndex(xs, x) == |xs| - 1;
    var k :| 0 <= k < |r| && r[k] == x;
    assert FirstIndex(xs, r[|r| - 1]) <= FirstIndex(xs, r[k]);
  }

  /**
   * When the last element `x` occurs nowhere before it, what precedes `x` in a duplicate-free
   * list of the elements of `before + [x]` in first-seen order has the same three properties
   * for `before`.
   */
  lemma DropNewLast<T>(before: seq<T>, x: T, r': seq<T>)
    requires x !in before
    requires NoDuplicates(r' + [x])
    requires forall y :: y in r' + [x] <==> y in before + [x]
    requires FirstSeenOrder(before + [x], r' + [x])
    ensures NoDuplicates(r')
    ensures forall y :: y in r' <==> y in before
    ensures FirstSeenOrder(before, r')
  {
    var xs := before + [x];
    var r := r' + [x];
    FirstIndicesOfPrefix(xs);
    assert xs[..|xs| - 1] == before;
    forall y
      ensures y in r' <==> y in before
    {
      assert y in r <==> y in r' || y == x;
      assert y in xs <==> y in before || y == x;
      if y in r' {
        var i :| 0 <= i < |r'| && r'[i] == y;
        assert r[i] == y && r[|r| - 1] == x;
      }
    }
    forall i | 0 <= i < |r'|
      ensures r'[i] in before && FirstIndex(xs, r'[i]) == FirstIndex(before, r'[i])
    {
      assert r'[i] in r';
    }
    forall i, j | 0 <= i < j < |r'|
      ensures FirstIndex(before, r'[i]) < FirstIndex(before, r'[j])
    {
      assert r[i] == r'[i] && r[j] == r'[j];
    }
  }

  /**
   * The three properties pin the result down: a duplicate-free list of exactly the elements of
   * `xs`, in first-seen order, is `Distinct(xs)`.
   */
  lemma {:induction false} DistinctIsUnique<T>(xs: seq<T>, r: seq<T>)
    requires NoDuplicates(r)
    requires forall x :: x in r <==> x in xs
    requires FirstSeenOrder(xs, r)
    ensures r == Distinct(xs)
    decreases |xs|
  {
    if xs != [] {
      var n := |xs|;
      var before := xs[..n - 1];
      var x := xs[n - 1];
      assert xs == before + [x];
      DistinctElements(before);
      if x in before {
        FirstIndicesOfPrefix(xs);
        assert forall y :: y in r <==> y in before;
        DistinctIsUnique(before, r);
      } else {
        NewLastComesLast(before, x, r);
        var r' := r[..|r| - 1];
        assert r == r' + [x];
        DropNewLast(before, x, r');
        DistinctIsUnique(before, r');
      }
    }
  }

  // ---------------------------------------------------------------------------------------------
  // The load function

  /** A row as the store returns it: the decimal columns arrive as text. */
  datatype DbRow = DbRow(
    sampleId: int,
    materialType: string,
    environment: string,
    timeDays: int,
    degradationPct: string,
    temperatureC: string,
    humidityPct: string)

  /** The outcome of selecting every row of the sample table. */
  datatype Fetch = Rows(rows: seq<DbRow>) | StoreError(reason: string)

  datatype PageData = PageData(
    points: seq<Sample>,
    materialTypes: seq<string>,
    environments: seq<string>,
    session: Option<Session>)

  /** A row as the page sees it; `toNumber` is the numeric conversion of a decimal column. */
  function Project(row: DbRow, toNumber: string -> Hundredths): (s: Sample)
    ensures s.sampleId == row.sampleId && s.materialType == row.materialType
    ensures s.environment == row.environment && s.timeDays == row.timeDays
    ensures s.degradationPct == toNumber(row.degradationPct)
    ensures s.temperatureC == toNumber(row.temperatureC) && s.humidityPct == toNumber(row.humidityPct)
  {
    Sample(row.sampleId, row.materialType, row.environment, row.timeDays,
           toNumber(row.degradationPct), toNumber(row.temperatureC), toNumber(row.humidityPct))
  }

  function Points(rows: seq<DbRow>, toNumber: string -> Hundredths): (points: seq<Sample>)
    ensures |points| == |rows|
    ensures forall i :: 0 <= i < |rows| ==> points[i] == Project(rows[i], toNumber)
  {
    seq(|rows|, i requires 0 <= i < |rows| => Project(rows[i], toNumber))
  }

  function MaterialTypes(points: seq<Sample>): (r: seq<string>)
    ensures |r| == |points| && forall i :: 0 <= i < |points| ==> r[i] == points[i].materialType
  {
    seq(|points|, i requires 0 <= i < |points| => points[i].materialType)
  }

  function Environments(points: seq<Sample>): (r: seq<string>)
    ensures |r| == |points| && forall i :: 0 <= i < |points| ==> r[i] == points[i].environment
  {
    seq(|points|, i requires 0 <= i < |points| => points[i].environment)
  }

  /**
   * The page data: the projected rows and their distinct material types and environments; on a
   * store failure, empty lists. The session is passed through on both paths.
   */
  function Load(fetch: Fetch, toNumber: string -> Hundredths, session: Option<Session>): (page: PageData)
    ensures page.session == session
    ensures fetch.StoreError? ==> page.points == [] && page.materialTypes == [] && page.environments == []
    ensures fetch.Rows? ==>
              && page.points == Points(fetch.rows, toNumber)
              && page.materialTypes == Distinct(MaterialTypes(page.points))
              && page.environments == Distinct(Environments(page.points))
  {
    match fetch
    case StoreError(_) => PageData([], [], [], session)
    case Rows(rows) =>
      var points := Points(rows, toNumber);
      PageData(points, Distinct(MaterialTypes(points)), Distinct(Environments(points)), session)
  }

  /** The values occurring in the points are exactly the entries of the facet column. */
  lemma MaterialTypesOccur(points: seq<Sample>)
    ensures forall m :: m in MaterialTypes(points) <==> exists i :: 0 <= i < |points| && points[i].materialType == m
  {
    var types := MaterialTypes(points);
    forall m | m in types
      ensures exists i :: 0 <= i < |points| && points[i].materialType == m
    {
      var i :| 0 <= i < |types| && types[i] == m;
      assert points[i].materialType == m;
    }
  }

  lemma EnvironmentsOccur(points: seq<Sample>)
    ensures forall e :: e in Environments(points) <==> exists i :: 0 <= i < |points| && points[i].environment == e
  {
    var envs := Environments(points);
    forall e | e in envs
      ensures exists i :: 0 <= i < |points| && points[i].environment == e
    {
      var i :| 0 <= i < |envs| && envs[i] == e;
      assert points[i].environment == e;
    }
  }

  /** What `Distinct` promises, gathered: no duplicates, the same elements, first-seen order. */
  lemma DistinctProperties<T>(xs: seq<T>)
    ensures NoDuplicates(Distinct(xs))
    ensures forall x :: x in Distinct(xs) <==> x in xs
    ensures FirstSeenOrder(xs, Distinct(xs))
    ensures |Distinct(xs)| <= |xs|
  {
    DistinctElements(xs);
    DistinctNoDuplicates(xs);
    DistinctFirstSeenOrder(xs);
  }

  /**
   * Each facet list has no duplicates, holds exactly the values occurring in the points, in the
   * order they first occur, and is no longer than the points.
   */
  lemma LoadFacets(fetch: Fetch, toNumber: string -> Hundredths, session: Option<Session>)
    ensures var page := Load(fetch, toNumber, session);
      && NoDuplicates(page.materialTypes)
      && (forall m :: m in page.materialTypes <==> exists i :: 0 <= i < |page.points| && page.points[i].materialType == m)
      && FirstSeenOrder(MaterialTypes(page.points), page.materialTypes)
      && |page.materialTypes| <= |page.points|
      && NoDuplicates(page.environments)
      && (forall e :: e in page.environments <==> exists i :: 0 <= i < |page.points| && page.points[i].environment == e)
      && FirstSeenOrder(Environments(page.points), page.environments)
      && |page.environments| <= |page.points|
  {
    var page := Load(fetch, toNumber, session);
    DistinctProperties(MaterialTypes(page.points));
    DistinctProperties(Environments(page.points));
    MaterialTypesOccur(page.points);
    EnvironmentsOccur(page.points);
  }

  /** The first-seen distinct values of two small columns. */
  lemma DistinctExamples()
    ensures Distinct(["PLA", "PHA", "PLA"]) == ["PLA", "PHA"]
    ensures Distinct(["Compost", "Soil", "Marine"]) == ["Compost", "Soil", "Marine"]
  {
    var types := ["PLA", "PHA", "PLA"];
    var envs := ["Compost", "Soil", "Marine"];
    assert types[..2] == ["PLA", "PHA"] && types[..2][..1] == ["PLA"] && types[..2][..1][..0] == [];
    assert Distinct(types[..2][..1]) == ["PLA"];
    assert Distinct(types[..2]) == ["PLA", "PHA"];
    assert envs[..2] == ["Compost", "Soil"] && envs[..2][..1] == ["Compost"] && envs[..2][..1][..0] == [];
    assert Distinct(envs[..2][..1]) == ["Compost"];
    assert Distinct(envs[..2]) == ["Compost", "Soil"];
  }

  /** PLA/Compost, PHA/Soil, PLA/Marine give the facets [PLA, PHA] and [Compost, Soil, Marine]. */
  lemma LoadExample(toNumber: string -> Hundredths, session: Option<Session>)
    ensures var page := Load(Rows([DbRow(1, "PLA", "Compost", 0, "0", "0", "0"),
                                   DbRow(2, "PHA", "Soil", 0, "0", "0", "0"),
                                   DbRow(3, "PLA", "Marine", 0, "0", "0", "0")]), toNumber, session);
      page.materialTypes == ["PLA", "PHA"] && page.environments == ["Compost", "Soil", "Marine"]
  {
    var points := Points([DbRow(1, "PLA", "Compost", 0, "0", "0", "0"),
                          DbRow(2, "PHA", "Soil", 0, "0", "0", "0"),
                          DbRow(3, "PLA", "Marine", 0, "0", "0", "0")], toNumber);
    assert MaterialTypes(points) == ["PLA", "PHA", "PLA"];
    assert Environments(points) == ["Compost", "Soil", "Marine"];
    DistinctExamples();
  }
}
