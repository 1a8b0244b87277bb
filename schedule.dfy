/**
 * The hard-coded schedule: eleven thresholds zipped with twelve rate
 * increments into a dictionary. Zipping truncates to the shorter list, so
 * the twelfth increment (0) is dropped; the dictionary keeps its keys in
 * insertion order, and the engine walks them in that order.
 */
module TaxSchedule {
  import opened TaxEngine

  /** Pairs the elements of two sequences up to the length of the shorter one. */
  function Zip<A, B>(xs: seq<A>, ys: seq<B>): (r: seq<(A, B)>)
    ensures |r| == if |xs| <= |ys| then |xs| else |ys|
    ensures forall i :: 0 <= i < |r| ==> r[i] == (xs[i], ys[i])
  {
    if xs == [] || ys == [] then [] else [(xs[0], ys[0])] + Zip(xs[1..], ys[1..])
  }

  // ---------------------------------------------------------------------
  // An insertion-ordered dictionary
  // ---------------------------------------------------------------------

  /** A dictionary: its keys in insertion order, and the value stored under each. */
  datatype Dict<K, V> = Dict(keys: seq<K>, values: map<K, V>)

  /** Each key occurs once in the order, and the order lists exactly the stored keys. */
  ghost predicate ValidDict<K(!new), V>(d: Dict<K, V>) {
    && (forall i, j :: 0 <= i < j < |d.keys| ==> d.keys[i] != d.keys[j])
    && (forall k :: k in d.values <==> k in d.keys)
  }

  /**
   * Storing `v` under `k`: an existing key keeps its place in the order and
   * gets the new value; a new key goes last. Every other entry is untouched.
   */
  function Store<K(!new), V>(d: Dict<K, V>, k: K, v: V): (r: Dict<K, V>)
    requires ValidDict(d)
    ensures ValidDict(r)
    ensures k in r.values && r.values[k] == v
    ensures forall k' :: k' != k ==> (k' in r.values <==> k' in d.values)
    ensures forall k' :: k' != k && k' in d.values ==> r.values[k'] == d.values[k']
    ensures r.keys == if k in d.values then d.keys else d.keys + [k]
  {
    if k in d.values then Dict(d.keys, d.values[k := v])
    else Dict(d.keys + [k], d.values[k := v])
  }

  /** Python's dict(pairs): the pairs stored one after the other. */
  function DictOf<K(!new), V>(pairs: seq<(K, V)>): (d: Dict<K, V>)
    ensures ValidDict(d)
  {
    if pairs == [] then Dict([], map[]) else
      var last := pairs[|pairs| - 1];
      Store(DictOf(pairs[..|pairs| - 1]), last.0, last.1)
  }

  /**
   * Iterating over a dictionary's keys and looking each one up: every stored
   * entry is visited, and no key is visited twice.
   */
  function Items<K(!new), V>(d: Dict<K, V>): (items: seq<(K, V)>)
    requires ValidDict(d)
    ensures |items| == |d.keys|
    ensures forall i :: 0 <= i < |d.keys| ==> items[i] == (d.keys[i], d.values[d.keys[i]])
    ensures DistinctKeys(items)
    ensures forall k :: k in d.values ==> (k, d.values[k]) in items
  {
    seq(|d.keys|, i requires 0 <= i < |d.keys| => (d.keys[i], d.values[d.keys[i]]))
  }

  /** Keys that are pairwise distinct. */
  predicate DistinctKeys<K(==), V>(pairs: seq<(K, V)>) {
    forall i, j :: 0 <= i < j < |pairs| ==> pairs[i].0 != pairs[j].0
  }

  /** With distinct keys, building the dictionary loses and reorders nothing. */
  lemma {:induction false} DictOfDistinct<K(!new), V>(pairs: seq<(K, V)>)
    requires DistinctKeys(pairs)
    ensures Items(DictOf(pairs)) == pairs
    decreases |pairs|
  {
    if pairs != [] {
      var init, last := pairs[..|pairs| - 1], pairs[|pairs| - 1];
      DistinctInit(pairs);
      DictOfDistinct(init);
      var d := DictOf(init);
      LastKeyIsNew(pairs, d);
      StoreNewKey(d, last.0, last.1);
      assert init + [last] == pairs;
    }
  }

  /** The last key of distinct pairs is not among the keys of a dictionary holding the others. */
  lemma LastKeyIsNew<K(!new), V>(pairs: seq<(K, V)>, d: Dict<K, V>)
    requires pairs != [] && DistinctKeys(pairs)
    requires ValidDict(d) && Items(d) == pairs[..|pairs| - 1]
    ensures pairs[|pairs| - 1].0 !in d.keys
  {
    forall i | 0 <= i < |d.keys| ensures d.keys[i] != pairs[|pairs| - 1].0 {
      assert Items(d)[i] == pairs[i];
      assert pairs[i].0 != pairs[|pairs| - 1].0;
    }
  }

  lemma DistinctInit<K, V>(pairs: seq<(K, V)>)
    requires pairs != [] && DistinctKeys(pairs)
    ensures DistinctKeys(pairs[..|pairs| - 1])
  {
    var init := pairs[..|pairs| - 1];
    forall i, j | 0 <= i < j < |init| ensures init[i].0 != init[j].0 {
      assert pairs[i].0 != pairs[j].0;
    }
  }

  /** Storing a new key appends its pair to the items. */
  lemma StoreNewKey<K(!new), V>(d: Dict<K, V>, k: K, v: V)
    requires ValidDict(d)
    requires k !in d.keys
    ensures Items(Store(d, k, v)) == Items(d) + [(k, v)]
  {
    var r := Store(d, k, v);
    assert r.keys == d.keys + [k];
    forall i | 0 <= i < |d.keys| ensures Items(r)[i] == Items(d)[i] {
      assert d.keys[i] != k;
    }
  }

  // ---------------------------------------------------------------------
  // Running sums
  // ---------------------------------------------------------------------

  /** numpy's add.accumulate: the k-th entry is the sum of the first k + 1 elements. */
  function Accumulate(xs: seq<real>): (r: seq<real>)
    ensures |r| == |xs|
  {
    if xs == [] then [] else Accumulate(xs[..|xs| - 1]) + [Sum(xs)]
  }

  lemma {:induction false} AccumulateIsPrefixSum(xs: seq<real>, k: nat)
    requires k < |xs|
    ensures Accumulate(xs)[k] == Sum(xs[..k + 1])
    decreases |xs|
  {
    if k < |xs| - 1 {
      var init := xs[..|xs| - 1];
      AccumulateIsPrefixSum(init, k);
      assert init[..k + 1] == xs[..k + 1];
    } else {
      assert xs[..k + 1] == xs;
    }
  }

  /**
   * The running sums are the one sequence that starts at the first element
   * and adds each next element to the previous entry.
   */
  lemma {:induction false} AccumulateStepwise(xs: seq<real>, sums: seq<real>)
    requires |sums| == |xs|
    requires xs != [] ==> sums[0] == xs[0]
    requires forall j :: 0 < j < |xs| ==> sums[j] == sums[j - 1] + xs[j]
    ensures Accumulate(xs) == sums
    decreases |xs|
  {
    if xs != [] {
      var n := |xs| - 1;
      AccumulateStepwise(xs[..n], sums[..n]);
      if n > 0 {
        AccumulateIsPrefixSum(xs[..n], n - 1);
        assert xs[..n][..n] == xs[..n];
        assert Sum(xs) == sums[n - 1] + xs[n];
      } else {
        assert xs[..0] == [];
      }
      assert Accumulate(xs) == sums[..n] + [sums[n]];
      assert sums[..n] + [sums[n]] == sums;
    }
  }

  // ---------------------------------------------------------------------
  // The configured schedule
  // ---------------------------------------------------------------------

  const Tiers: seq<real> :=
    [0.0, 20_000.0, 30_000.0, 40_000.0, 80_000.0, 120_000.0,
     160_000.0, 200_000.0, 240_000.0, 280_000.0, 320_000.0]

  const TaxIncrements: seq<real> :=
    [0.0, 0.02, 0.015, 0.035, 0.045, 0.035, 0.03, 0.01, 0.005, 0.005, 0.02, 0.0]

  /** The brackets the engine walks, as ScheduleConstruction derives them from the two lists. */
  const Schedule: seq<Bracket> :=
    [(0.0, 0.0), (20_000.0, 0.02), (30_000.0, 0.015), (40_000.0, 0.035),
     (80_000.0, 0.045), (120_000.0, 0.035), (160_000.0, 0.03), (200_000.0, 0.01),
     (240_000.0, 0.005), (280_000.0, 0.005), (320_000.0, 0.02)]

  /** The rates the source reports: running sums of all twelve increments. */
  const AccumulatedRates: seq<real> :=
    [0.0, 0.02, 0.035, 0.07, 0.115, 0.15, 0.18, 0.19, 0.195, 0.2, 0.22, 0.22]

  /** Thresholds that increase from each bracket to the next increase throughout. */
  lemma {:induction false} StepwiseAscending(s: seq<Bracket>)
    requires forall i :: 0 <= i < |s| - 1 ==> s[i].0 < s[i + 1].0
    ensures Ascending(s)
    decreases |s|
  {
    if |s| > 1 {
      var init := s[..|s| - 1];
      StepwiseAscending(init);
      forall i, j | 0 <= i < j < |s| ensures s[i].0 < s[j].0 {
        if j < |s| - 1 {
          assert init[i].0 < init[j].0;
        } else if i < |s| - 2 {
          assert init[i].0 < init[|s| - 2].0;
        }
      }
    }
  }

  /** The configured schedule starts at 0, ascends and has no negative increment. */
  lemma ScheduleWellFormed()
    ensures WellFormed(Schedule)
  {
    StepwiseAscending(Schedule);
  }

  /** The schedule's increments are the first eleven of the configured twelve. */
  lemma ScheduleRates()
    ensures Rates(Schedule) == TaxIncrements[..11]
  {
  }

  /**
   * dict(zip(tiers, tax_increments)), for the two configured lists, holds
   * exactly the eleven brackets of Schedule, in this order: zip drops the
   * twelfth increment and every threshold is a new key.
   */
  lemma ScheduleConstruction()
    ensures |Zip(Tiers, TaxIncrements)| == 11
    ensures Items(DictOf(Zip(Tiers, TaxIncrements))) == Schedule
  {
    ZipOfConfiguredLists();
    ScheduleDistinct();
    DictOfDistinct(Schedule);
  }

  lemma ZipOfConfiguredLists()
    ensures Zip(Tiers, TaxIncrements) == Schedule
  {
    assert forall i :: 0 <= i < 11 ==> Schedule[i] == (Tiers[i], TaxIncrements[i]);
    ZipElementwise(Tiers, TaxIncrements, Schedule);
  }

  /** Zip is determined by its length and its elements. */
  lemma ZipElementwise<A, B>(xs: seq<A>, ys: seq<B>, pairs: seq<(A, B)>)
    requires |pairs| == if |xs| <= |ys| then |xs| else |ys|
    requires forall i :: 0 <= i < |pairs| ==> pairs[i] == (xs[i], ys[i])
    ensures Zip(xs, ys) == pairs
  {
  }

  lemma ScheduleDistinct()
    ensures DistinctKeys(Schedule)
  {
    ScheduleWellFormed();
    forall i, j | 0 <= i < j < |Schedule| ensures Schedule[i].0 != Schedule[j].0 {
      assert Schedule[i].0 < Schedule[j].0;
    }
  }

  /** The printed rates are the running sums of the increments: 0% up to 22%, the last repeated because the dropped increment is 0. */
  lemma AccumulatedRatesValues()
    ensures Accumulate(TaxIncrements) == AccumulatedRates
  {
    AccumulateStepwise(TaxIncrements, AccumulatedRates);
  }

  /** The marginal rate from the k-th threshold up to the next is the k-th printed rate. */
  lemma MarginalRateIsAccumulated(k: nat)
    requires k < 11
    ensures RateSum(Schedule[..k + 1]) == AccumulatedRates[k]
  {
    ScheduleRates();
    assert Rates(Schedule[..k + 1]) == TaxIncrements[..k + 1];
    AccumulateIsPrefixSum(TaxIncrements, k);
    AccumulatedRatesValues();
  }

  /** The top marginal rate, above 320000, is 22%. */
  lemma TopRate()
    ensures RateSum(Schedule) == 0.22
  {
    MarginalRateIsAccumulated(10);
    assert Schedule[..11] == Schedule;
  }

  /** No tax is payable on income up to 20000: the increment at threshold 0 is 0. */
  lemma NoTaxUpTo20000(income: real)
    requires income <= 20_000.0
    ensures TaxOf(Schedule, income) == 0.0
  {
    ScheduleWellFormed();
    TaxFreeBand(Schedule, income);
  }

  /** Above 320000 every further unit of income is taxed at 22%. */
  lemma TopBracketSlope(x: real, y: real)
    requires 320_000.0 <= x <= y
    ensures TaxOf(Schedule, y) - TaxOf(Schedule, x) == (y - x) * 0.22
  {
    ScheduleWellFormed();
    TopRate();
    TaxSlope(Schedule, 10, x, y);
    assert Schedule[..11] == Schedule;
  }
}
