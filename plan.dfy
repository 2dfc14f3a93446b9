/**
 * What the row loop of one provider produces, as a list of slots: for each
 * product in order, for each offered video type in the order movie,
 * episode, short, one slot per unit of the configured count, numbered from 1.
 * A zero count skips the pair; a negative count passes the zero test but
 * `range(count)` is empty, so it also yields no slot.
 */
module Plan {
  import opened Seqs
  import opened Catalog
  import opened Config

  /** One generated item: its product, video type and 1-based position in its batch. */
  datatype Slot = Slot(product: string, v: VideoType, number: nat)

  /** `range(count)`, as the numbers 1..count. */
  function Batch(product: string, v: VideoType, count: int): (r: seq<Slot>)
    ensures |r| == if count > 0 then count else 0
    ensures forall k :: 0 <= k < |r| ==> r[k] == Slot(product, v, k + 1)
  {
    seq(if count > 0 then count else 0, k requires k >= 0 => Slot(product, v, k + 1))
  }

  /** The slots of one (product, video type) pair; shorts only where offered. */
  function TypeSlots(provider: string, product: string, v: VideoType, counts: CountTable): seq<Slot> {
    if Offered(v, provider, product) then Batch(product, v, Count(counts, v, provider, product)) else []
  }

  function ProductSlots(provider: string, product: string, counts: CountTable): seq<Slot> {
    TypeSlots(provider, product, FullMovie, counts)
      + TypeSlots(provider, product, FullEpisode, counts)
      + TypeSlots(provider, product, ShortVideo, counts)
  }

  function ProviderSlots(provider: string, products: seq<string>, counts: CountTable): seq<Slot> {
    if products == [] then []
    else ProviderSlots(provider, products[..|products| - 1], counts)
           + ProductSlots(provider, products[|products| - 1], counts)
  }

  /** The slots of a whole plan. */
  function PlanSlots(plan: Plan, counts: CountTable): seq<(string, Slot)> {
    if plan == [] then []
    else
      var last := plan[|plan| - 1];
      PlanSlots(plan[..|plan| - 1], counts)
        + seq(|ProviderSlots(last.0, last.1, counts)|, k requires 0 <= k < |ProviderSlots(last.0, last.1, counts)| =>
                (last.0, ProviderSlots(last.0, last.1, counts)[k]))
  }

  /** The slots of one (product, video type) pair, in order. */
  function Select(slots: seq<Slot>, x: string, v: VideoType): (r: seq<Slot>)
    ensures |r| <= |slots|
    ensures forall k :: 0 <= k < |r| ==> r[k].product == x && r[k].v == v
  {
    if slots == [] then []
    else
      var last := slots[|slots| - 1];
      Select(slots[..|slots| - 1], x, v) + (if last.product == x && last.v == v then [last] else [])
  }

  lemma {:induction false} SelectAppend(a: seq<Slot>, b: seq<Slot>, x: string, v: VideoType)
    ensures Select(a + b, x, v) == Select(a, x, v) + Select(b, x, v)
    decreases |b|
  {
    if b == [] {
      assert a + b == a;
    } else {
      var b' := b[..|b| - 1];
      assert (a + b)[..|a + b| - 1] == a + b';
      SelectAppend(a, b', x, v);
    }
  }

  lemma {:induction false} SelectBatch(product: string, w: VideoType, n: int, x: string, v: VideoType)
    ensures Select(Batch(product, w, n), x, v) == if product == x && w == v then Batch(product, w, n) else []
    decreases if n > 0 then n else 0
  {
    var b := Batch(product, w, n);
    if n > 0 {
      var b' := Batch(product, w, n - 1);
      assert b[..|b| - 1] == b';
      SelectBatch(product, w, n - 1, x, v);
      assert Select(b, x, v) == Select(b', x, v) + (if product == x && w == v then [b[|b| - 1]] else []);
      if product == x && w == v {
        assert b' + [b[|b| - 1]] == b;
      }
    }
  }

  lemma TypeSlotsSelect(provider: string, product: string, w: VideoType, counts: CountTable, x: string, v: VideoType)
    ensures Select(TypeSlots(provider, product, w, counts), x, v)
         == if product == x && w == v then TypeSlots(provider, product, w, counts) else []
  {
    if Offered(w, provider, product) {
      SelectBatch(product, w, Count(counts, w, provider, product), x, v);
    }
  }

  lemma ProductSlotsSelect(provider: string, product: string, counts: CountTable, x: string, v: VideoType)
    ensures Select(ProductSlots(provider, product, counts), x, v)
         == if product == x then TypeSlots(provider, product, v, counts) else []
  {
    var m, e, s := TypeSlots(provider, product, FullMovie, counts), TypeSlots(provider, product, FullEpisode, counts),
                   TypeSlots(provider, product, ShortVideo, counts);
    SelectAppend(m + e, s, x, v);
    SelectAppend(m, e, x, v);
    TypeSlotsSelect(provider, product, FullMovie, counts, x, v);
    TypeSlotsSelect(provider, product, FullEpisode, counts, x, v);
    TypeSlotsSelect(provider, product, ShortVideo, counts, x, v);
  }

  predicate Distinct(xs: seq<string>) {
    forall i, j :: 0 <= i < j < |xs| ==> xs[i] != xs[j]
  }

  /** For a product listed once, its slots of one video type are exactly that pair's batch. */
  lemma {:induction false} ProviderSlotsSelect(provider: string, products: seq<string>, counts: CountTable, x: string, v: VideoType)
    requires Distinct(products)
    ensures Select(ProviderSlots(provider, products, counts), x, v)
         == if x in products then TypeSlots(provider, x, v, counts) else []
  {
    if products != [] {
      var init, last := products[..|products| - 1], products[|products| - 1];
      assert Distinct(init);
      ProviderSlotsSelect(provider, init, counts, x, v);
      SelectAppend(ProviderSlots(provider, init, counts), ProductSlots(provider, last, counts), x, v);
      ProductSlotsSelect(provider, last, counts, x, v);
      InButLast(products, x);
      if x == last {
        assert x !in init;
      }
    }
  }

  /**
   * The number of items of each (product, video type) pair is its
   * configured count when the pair is offered and the count is positive,
   * and zero otherwise; they are numbered 1, 2, ... in generation order.
   */
  lemma ItemsPerPair(provider: string, products: seq<string>, counts: CountTable, x: string, v: VideoType)
    requires Distinct(products)
    ensures var items := Select(ProviderSlots(provider, products, counts), x, v);
            var n := Count(counts, v, provider, x);
            && |items| == (if x in products && Offered(v, provider, x) && n > 0 then n else 0)
            && forall k :: 0 <= k < |items| ==> items[k].number == k + 1
  {
    ProviderSlotsSelect(provider, products, counts, x, v);
  }

  /** The series-registry keys of the products in `products` whose episode count is not zero. */
  function SeriesKeys(provider: string, products: seq<string>, counts: CountTable): set<string> {
    if products == [] then {}
    else
      var last := products[|products| - 1];
      SeriesKeys(provider, products[..|products| - 1], counts)
        + if Count(counts, FullEpisode, provider, last) != 0 then {SeriesKey(provider, last)} else {}
  }

  lemma SeriesKeyInjective(provider: string, x: string, y: string)
    requires SeriesKey(provider, x) == SeriesKey(provider, y)
    ensures x == y
  {
  }

  /** A provider's registry holds one series per product that has a non-zero episode count, and no other. */
  lemma {:induction false} SeriesKeysExactly(provider: string, products: seq<string>, counts: CountTable, x: string)
    ensures SeriesKey(provider, x) in SeriesKeys(provider, products, counts)
        <==> x in products && Count(counts, FullEpisode, provider, x) != 0
  {
    if products != [] {
      var init, last := products[..|products| - 1], products[|products| - 1];
      SeriesKeysExactly(provider, init, counts, x);
      assert products == init + [last];
      if SeriesKey(provider, x) == SeriesKey(provider, last) {
        SeriesKeyInjective(provider, x, last);
      }
    }
  }

  /** Each product of the default catalogue yields two items, and `others`/`twc` three. */
  lemma DefaultProductSlots(p: string, x: string)
    requires p in PROVIDERS && InPlan(CATALOG, p, x)
    ensures |ProductSlots(p, x, DefaultTable(CATALOG))| == if SupportsShorts(p, x) then 3 else 2
  {
    DefaultModeCounts(FullMovie, p, x);
    DefaultModeCounts(FullEpisode, p, x);
    DefaultModeCounts(ShortVideo, p, x);
  }

  lemma ProviderSlotsSnoc(provider: string, products: seq<string>, x: string, counts: CountTable)
    ensures ProviderSlots(provider, products + [x], counts)
         == ProviderSlots(provider, products, counts) + ProductSlots(provider, x, counts)
  {
    assert (products + [x])[..|products|] == products;
  }

  /** The slots of the first `i + 1` products extend those of the first `i` by the slots of product `i`. */
  lemma ProviderSlotsPrefix(provider: string, products: seq<string>, i: nat, counts: CountTable)
    requires i < |products|
    ensures ProviderSlots(provider, products[..i + 1], counts)
         == ProviderSlots(provider, products[..i], counts) + ProductSlots(provider, products[i], counts)
  {
    assert products[..i + 1][..i] == products[..i];
  }

  /** The series of the first `i + 1` products: those of the first `i`, and product `i`'s if it has episodes. */
  lemma SeriesKeysPrefix(provider: string, products: seq<string>, i: nat, counts: CountTable)
    requires i < |products|
    ensures SeriesKeys(provider, products[..i + 1], counts)
         == SeriesKeys(provider, products[..i], counts)
            + if Count(counts, FullEpisode, provider, products[i]) != 0 then {SeriesKey(provider, products[i])} else {}
  {
    assert products[..i + 1][..i] == products[..i];
  }

  lemma PlanSlotsLength(plan: Plan, last: (string, seq<string>), counts: CountTable)
    ensures |PlanSlots(plan + [last], counts)| == |PlanSlots(plan, counts)| + |ProviderSlots(last.0, last.1, counts)|
  {
    assert (plan + [last])[..|plan|] == plan;
  }

  /** In default mode the `others` products yield seven items: two each, and three for `twc`. */
  lemma DefaultOthersSlots()
    ensures |ProviderSlots(OTHERS, ["localnow", TWC, "hbcugo"], DefaultTable(CATALOG))| == 7
  {
    var c := DefaultTable(CATALOG);
    assert InPlan(CATALOG, OTHERS, "localnow") && InPlan(CATALOG, OTHERS, TWC) && InPlan(CATALOG, OTHERS, "hbcugo") by {
      assert CATALOG[0] == (OTHERS, ["localnow", TWC, "hbcugo"]);
    }
    DefaultProductSlots(OTHERS, "localnow");
    DefaultProductSlots(OTHERS, TWC);
    DefaultProductSlots(OTHERS, "hbcugo");
    ProviderSlotsSnoc(OTHERS, [], "localnow", c);
    ProviderSlotsSnoc(OTHERS, ["localnow"], TWC, c);
    ProviderSlotsSnoc(OTHERS, ["localnow", TWC], "hbcugo", c);
    assert [] + ["localnow"] == ["localnow"];
    assert ["localnow"] + [TWC] == ["localnow", TWC];
    assert ["localnow", TWC] + ["hbcugo"] == ["localnow", TWC, "hbcugo"];
  }

  /** In default mode the one `warnerbros` product yields two items. */
  lemma DefaultWarnerSlots()
    ensures |ProviderSlots(WARNERBROS, ["localnow"], DefaultTable(CATALOG))| == 2
  {
    var c := DefaultTable(CATALOG);
    assert InPlan(CATALOG, WARNERBROS, "localnow") by {
      assert CATALOG[1] == (WARNERBROS, ["localnow"]);
    }
    DefaultProductSlots(WARNERBROS, "localnow");
    ProviderSlotsSnoc(WARNERBROS, [], "localnow", c);
    assert [] + ["localnow"] == ["localnow"];
  }

  /** Default mode plans nine items: two per catalogued product plus the `twc` short. */
  lemma DefaultModeItemCount()
    ensures |PlanSlots(CATALOG, DefaultTable(CATALOG))| == 9
  {
    var c := DefaultTable(CATALOG);
    DefaultOthersSlots();
    DefaultWarnerSlots();
    PlanSlotsLength([], CATALOG[0], c);
    PlanSlotsLength([CATALOG[0]], CATALOG[1], c);
    assert [] + [CATALOG[0]] == [CATALOG[0]];
    assert [CATALOG[0]] + [CATALOG[1]] == CATALOG;
  }
}
