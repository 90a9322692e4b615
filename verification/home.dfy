/** The landing page: the top-rated cars and the most common brands, both computed from
    the car list in the store. */
module HomePage {
  import opened Seqs
  import opened Domain

  /** `typeof car.rating === 'number' && car.rating >= 4.5` */
  predicate HighlyRated(c: Car)
  {
    c.rating.Some? && c.rating.value >= 4.5
  }

  /** `car.rating ?? 0`, the key the cars are sorted by. */
  function RatingKey(c: Car): real
  {
    if c.rating.Some? then c.rating.value else 0.0
  }

  /** `topRatedCars`: the highly rated cars, best first, at most six. No car left out is
      rated above one that is shown. */
  function TopRatedCars(cars: seq<Car>): (top: seq<Car>)
    ensures |top| <= 6
    ensures SortedDesc(top, RatingKey)
    ensures forall i :: 0 <= i < |top| ==> top[i] in cars && HighlyRated(top[i])
    ensures forall j :: 0 <= j < |cars| && HighlyRated(cars[j]) ==>
      cars[j] in top || (|top| == 6 && forall i :: 0 <= i < |top| ==> RatingKey(top[i]) >= RatingKey(cars[j]))
  {
    var rated := Filter(cars, HighlyRated);
    SortTakeMembers(rated, RatingKey, 6);
    forall j | 0 <= j < |cars| && HighlyRated(cars[j])
      ensures var top := Take(SortDesc(rated, RatingKey), 6);
        cars[j] in top || (|top| == 6 && forall i :: 0 <= i < |top| ==> RatingKey(top[i]) >= RatingKey(cars[j]))
    {
      SortTakeDominates(rated, RatingKey, 6, cars[j]);
    }
    Take(SortDesc(rated, RatingKey), 6)
  }

  /** Fewer than seven highly rated cars are all shown. */
  lemma FewRatedCarsAllShown(cars: seq<Car>)
    requires Count(cars, HighlyRated) <= 6
    ensures |TopRatedCars(cars)| == Count(cars, HighlyRated)
  {
  }

  function Brand(c: Car): string
  {
    c.brand
  }

  /** How many cars carry brand `b`. */
  function BrandTotal(cars: seq<Car>, b: string): nat
  {
    Count(cars, KeyIs(Brand, b))
  }

  /** The brands in order of first appearance: the key order of the object the reduce builds. */
  function BrandOrder(cars: seq<Car>): (order: seq<string>)
    ensures Distinct(order)
    ensures forall b :: b in order <==> exists j :: 0 <= j < |cars| && cars[j].brand == b
    decreases |cars|
  {
    if cars == [] then []
    else
      var front := cars[..|cars| - 1];
      var b := cars[|cars| - 1].brand;
      var p := BrandOrder(front);
      assert forall j :: 0 <= j < |front| ==> front[j] == cars[j];
      if b in p then p else p + [b]
  }

  /** A brand that appears counts at least one car. */
  lemma BrandTotalPositive(cars: seq<Car>, b: string)
    requires b in BrandOrder(cars)
    ensures BrandTotal(cars, b) >= 1
  {
    var j :| 0 <= j < |cars| && cars[j].brand == b;
    KeyIsApplied(Brand, b, cars[j]);
    assert cars[j] in Filter(cars, KeyIs(Brand, b));
  }

  /** A brand that does not appear counts no car. */
  lemma BrandTotalZero(cars: seq<Car>, b: string)
    requires b !in BrandOrder(cars)
    ensures BrandTotal(cars, b) == 0
  {
    var r := Filter(cars, KeyIs(Brand, b));
    if r != [] {
      assert r[0] in cars;
      KeyIsApplied(Brand, b, r[0]);
    }
  }

  /** Adding one car adds one to its own brand's total and nothing to any other. */
  lemma BrandTotalSnoc(cars: seq<Car>, c: Car, b: string)
    ensures BrandTotal(cars + [c], b) == BrandTotal(cars, b) + (if c.brand == b then 1 else 0)
  {
    CountSnoc(cars, c, KeyIs(Brand, b));
    KeyIsApplied(Brand, b, c);
  }

  /** Appending a car appends its brand to the order unless the brand already appears. */
  lemma BrandOrderSnoc(cars: seq<Car>, c: Car)
    ensures BrandOrder(cars + [c]) ==
      if c.brand in BrandOrder(cars) then BrandOrder(cars) else BrandOrder(cars) + [c.brand]
  {
    assert (cars + [c])[..|cars|] == cars;
  }

  /** `brandCounts`: the reduce over the cars, one object key per brand in order of first
      appearance, each holding the number of cars of that brand. */
  method BrandCounts(cars: seq<Car>) returns (counts: map<string, nat>, order: seq<string>)
    ensures order == BrandOrder(cars)
    ensures forall b :: b in counts <==> b in order
    ensures forall b :: b in counts ==> counts[b] == BrandTotal(cars, b) && counts[b] >= 1
  {
    counts := map[];
    order := [];
    var i := 0;
    while i < |cars|
      invariant 0 <= i <= |cars|
      invariant order == BrandOrder(cars[..i])
      invariant forall b :: b in counts <==> b in order
      invariant forall b :: b in counts ==> counts[b] == BrandTotal(cars[..i], b) && counts[b] >= 1
    {
      var c := cars[i];
      assert cars[..i + 1] == cars[..i] + [c];
      BrandOrderSnoc(cars[..i], c);
      if c.brand !in counts {
        BrandTotalZero(cars[..i], c.brand);
      }
      forall b ensures BrandTotal(cars[..i + 1], b) == BrandTotal(cars[..i], b) + (if c.brand == b then 1 else 0)
      {
        BrandTotalSnoc(cars[..i], c, b);
      }
      if c.brand in counts {
        counts := counts[c.brand := counts[c.brand] + 1];
      } else {
        counts := counts[c.brand := 1];
        order := order + [c.brand];
      }
      i := i + 1;
    }
    assert cars[..|cars|] == cars;
  }

  /** The per-brand totals add up to the number of cars: every car is counted under exactly
      one brand. */
  lemma {:induction false} BrandTotalsCoverCars(cars: seq<Car>)
    ensures Sum(BrandOrder(cars), (b: string) => BrandTotal(cars, b)) == |cars|
    decreases |cars|
  {
    if cars != [] {
      var front := cars[..|cars| - 1];
      var c := cars[|cars| - 1];
      assert cars == front + [c];
      BrandTotalsCoverCars(front);
      BrandOrderSnoc(front, c);
      BrandTotalsSnoc(front, c);
    }
  }

  /** The step of BrandTotalsCoverCars: one more car raises the sum by one. */
  lemma BrandTotalsSnoc(front: seq<Car>, c: Car)
    ensures Sum(BrandOrder(front + [c]), (b: string) => BrandTotal(front + [c], b)) ==
      Sum(BrandOrder(front), (b: string) => BrandTotal(front, b)) + 1
  {
    var p := BrandOrder(front);
    var wNew := (b: string) => BrandTotal(front + [c], b);
    var wOld := (b: string) => BrandTotal(front, b);
    forall i | 0 <= i < |p| ensures wNew(p[i]) == wOld(p[i]) + (if p[i] == c.brand then 1 else 0)
    {
      BrandTotalSnoc(front, c, p[i]);
    }
    SumBump(p, wNew, wOld, c.brand);
    BrandOrderSnoc(front, c);
    if c.brand !in p {
      SumConcat(p, [c.brand], wNew);
      BrandTotalZero(front, c.brand);
      BrandTotalSnoc(front, c, c.brand);
    }
  }

  /** One `{ brand, count }` entry of `topBrands`. */
  datatype BrandTally = BrandTally(brand: string, count: nat)

  function TallyKey(t: BrandTally): real
  {
    t.count as real
  }

  /** `Object.entries(brandCounts)`, in key order. */
  function Tallies(cars: seq<Car>): (r: seq<BrandTally>)
    ensures |r| == |BrandOrder(cars)|
    ensures forall i :: 0 <= i < |r| ==> r[i] == BrandTally(BrandOrder(cars)[i], BrandTotal(cars, BrandOrder(cars)[i]))
  {
    var order := BrandOrder(cars);
    seq(|order|, i requires 0 <= i < |order| => BrandTally(order[i], BrandTotal(cars, order[i])))
  }

  /** Every entry is the exact total of a brand that appears, and no two entries are equal. */
  lemma TalliesExact(cars: seq<Car>)
    ensures forall t :: t in Tallies(cars) ==>
      t.brand in BrandOrder(cars) && t.count == BrandTotal(cars, t.brand) && t.count >= 1
    ensures Distinct(Tallies(cars))
  {
    var order := BrandOrder(cars);
    forall t | t in Tallies(cars)
      ensures t.brand in order && t.count == BrandTotal(cars, t.brand) && t.count >= 1
    {
      var k :| 0 <= k < |Tallies(cars)| && Tallies(cars)[k] == t;
      BrandTotalPositive(cars, order[k]);
    }
  }

  /** `topBrands`: at most eight brands, most cars first, each with its exact total and no
      brand twice; a brand left out has no more cars than any brand shown. */
  function TopBrands(cars: seq<Car>): (top: seq<BrandTally>)
    ensures |top| <= 8
    ensures SortedDesc(top, TallyKey)
    ensures forall i :: 0 <= i < |top| ==>
      top[i].brand in BrandOrder(cars) && top[i].count == BrandTotal(cars, top[i].brand) && top[i].count >= 1
    ensures forall i, j :: 0 <= i < j < |top| ==> top[i].brand != top[j].brand
    ensures forall b :: b in BrandOrder(cars) ==>
      (exists i :: 0 <= i < |top| && top[i].brand == b) ||
      (|top| == 8 && forall i :: 0 <= i < |top| ==> top[i].count >= BrandTotal(cars, b))
  {
    var entries := Tallies(cars);
    TalliesExact(cars);
    SortTakeMembers(entries, TallyKey, 8);
    SortTakeDistinct(entries, TallyKey, 8);
    BrandsCovered(cars);
    Take(SortDesc(entries, TallyKey), 8)
  }

  /** Helper for TopBrands: each brand is shown or outranked by all eight shown. */
  lemma BrandsCovered(cars: seq<Car>)
    ensures var top := Take(SortDesc(Tallies(cars), TallyKey), 8);
      forall b :: b in BrandOrder(cars) ==>
        (exists i :: 0 <= i < |top| && top[i].brand == b) ||
        (|top| == 8 && forall i :: 0 <= i < |top| ==> top[i].count >= BrandTotal(cars, b))
  {
    var order := BrandOrder(cars);
    var entries := Tallies(cars);
    var top := Take(SortDesc(entries, TallyKey), 8);
    forall b | b in order
      ensures (exists i :: 0 <= i < |top| && top[i].brand == b) ||
              (|top| == 8 && forall i :: 0 <= i < |top| ==> top[i].count >= BrandTotal(cars, b))
    {
      var k :| 0 <= k < |order| && order[k] == b;
      SortTakeDominates(entries, TallyKey, 8, entries[k]);
      if entries[k] in top {
        var i :| 0 <= i < |top| && top[i] == entries[k];
        assert top[i].brand == b;
      }
    }
  }

  /** A list with at most eight brands shows every one of them. */
  lemma FewBrandsAllShown(cars: seq<Car>)
    requires |BrandOrder(cars)| <= 8
    ensures |TopBrands(cars)| == |BrandOrder(cars)|
  {
  }
}
