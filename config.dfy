/**
 * Configuration resolution: the generation mode and, in manual mode, the
 * nested provider -> product -> count-string configuration become the list of
 * providers and products to visit and a flat count table keyed by
 * `CountKey`.
 */
module Config {
  import opened Options
  import opened Seqs
  import opened Text
  import opened Catalog

  /** One product's form values: count name ("full_movie", ...) to the string typed in. */
  type ProductData = map<string, string>

  /** `manual_configs`: providers, each with its products, in insertion order. */
  type ManualConfig = seq<(string, seq<(string, ProductData)>)>

  /** The flat count table `config`. */
  type CountTable = map<string, int>

  /** The providers to visit, each with the products to visit, in order. */
  type Plan = seq<(string, seq<string>)>

  const DEFAULT_MODE: string := "default"
  const MANUAL_MODE: string := "manual"
  const MISSING_MANUAL_MESSAGE: string := "Manual configuration data is missing."
  const INVALID_MODE_MESSAGE: string := "Invalid generation mode specified."

  predicate DistinctKeys<V>(s: seq<(string, V)>) {
    forall i, j :: 0 <= i < j < |s| ==> s[i].0 != s[j].0
  }

  /**
   * What a manual configuration must satisfy: dictionary keys are distinct,
   * and every provider has a source table (otherwise `load_csv_rows` raises
   * `KeyError`).
   */
  predicate WellFormedManual(m: ManualConfig) {
    && DistinctKeys(m)
    && forall i :: 0 <= i < |m| ==> m[i].0 in PROVIDERS && DistinctKeys(m[i].1)
  }

  function KeysOf<V>(s: seq<(string, V)>): (r: seq<string>)
    ensures |r| == |s| && forall i :: 0 <= i < |s| ==> r[i] == s[i].0
  {
    seq(|s|, i requires 0 <= i < |s| => s[i].0)
  }

  /** `provider_products` in manual mode: each provider with the keys of its products. */
  function PlanOf(m: ManualConfig): (r: Plan)
    ensures |r| == |m| && forall i :: 0 <= i < |m| ==> r[i] == (m[i].0, KeysOf(m[i].1))
  {
    seq(|m|, i requires 0 <= i < |m| => (m[i].0, KeysOf(m[i].1)))
  }

  /** `config.get(count_key, 0)`. */
  function Count(cfg: CountTable, v: VideoType, provider: string, product: string): int {
    var k := CountKey(v, provider, product);
    if k in cfg then cfg[k] else 0
  }

  /** `int(product_data.get(raw, 0))`: an absent field reads as 0; `None` is a `ValueError`. */
  function ReadCount(data: ProductData, raw: string): Option<int> {
    if raw in data then ParseInt(data[raw]) else Some(0)
  }

  // ----- The count table of default mode -----

  /** The assignments the default branch makes for one product. */
  function WriteDefaultProduct(cfg: CountTable, p: string, x: string): CountTable {
    var c := cfg[CountKey(FullMovie, p, x) := 1][CountKey(FullEpisode, p, x) := 1];
    if SupportsShorts(p, x) then c[CountKey(ShortVideo, p, x) := 1] else c
  }

  function WriteDefaultProvider(cfg: CountTable, p: string, xs: seq<string>): CountTable {
    if xs == [] then cfg else WriteDefaultProduct(WriteDefaultProvider(cfg, p, xs[..|xs| - 1]), p, xs[|xs| - 1])
  }

  function WriteDefault(cfg: CountTable, plan: Plan): CountTable {
    if plan == [] then cfg
    else WriteDefaultProvider(WriteDefault(cfg, plan[..|plan| - 1]), plan[|plan| - 1].0, plan[|plan| - 1].1)
  }

  /** The table the default branch writes, later assignments winning. */
  function DefaultTable(plan: Plan): CountTable {
    WriteDefault(map[], plan)
  }

  // ----- The count table of manual mode -----

  /** The assignments the manual branch makes for one product; `None` when an `int(...)` raises. */
  function WriteManualProduct(cfg: CountTable, p: string, x: string, data: ProductData): Option<CountTable> {
    var m, e, s := ReadCount(data, FullMovie.RawName()), ReadCount(data, FullEpisode.RawName()),
                   ReadCount(data, ShortVideo.RawName());
    if m.None? || e.None? then None
    else
      var c := cfg[CountKey(FullMovie, p, x) := m.value][CountKey(FullEpisode, p, x) := e.value];
      if !SupportsShorts(p, x) then Some(c)
      else if s.None? then None
      else Some(c[CountKey(ShortVideo, p, x) := s.value])
  }

  function WriteManualProvider(cfg: CountTable, p: string, xs: seq<(string, ProductData)>): Option<CountTable> {
    if xs == [] then Some(cfg)
    else
      match WriteManualProvider(cfg, p, xs[..|xs| - 1])
      case None => None
      case Some(c) => WriteManualProduct(c, p, xs[|xs| - 1].0, xs[|xs| - 1].1)
  }

  function WriteManual(cfg: CountTable, m: ManualConfig): Option<CountTable> {
    if m == [] then Some(cfg)
    else
      match WriteManual(cfg, m[..|m| - 1])
      case None => None
      case Some(c) => WriteManualProvider(c, m[|m| - 1].0, m[|m| - 1].1)
  }

  /** The table the manual branch writes, or `None` when some `int(...)` raises. */
  function ManualTable(m: ManualConfig): Option<CountTable> {
    WriteManual(map[], m)
  }

  datatype Resolution =
    | Resolved(plan: Plan, counts: CountTable)
    | Rejected(message: string)
    | CountNotInteger

  /**
   * What the configuration step yields: the catalogue with its default
   * counts, the manual providers and products with their parsed counts, or
   * the reason generation stops before it starts.
   */
  function Configuration(mode: string, manual: Option<ManualConfig>): Resolution {
    if mode == DEFAULT_MODE then Resolved(CATALOG, DefaultTable(CATALOG))
    else if mode != MANUAL_MODE then Rejected(INVALID_MODE_MESSAGE)
    else if manual.None? || manual.value == [] then Rejected(MISSING_MANUAL_MESSAGE)
    else match ManualTable(manual.value)
      case None => CountNotInteger
      case Some(t) => Resolved(PlanOf(manual.value), t)
  }

  /** The configuration step of `run_generation`. */
  method ResolveConfig(mode: string, manual: Option<ManualConfig>) returns (r: Resolution)
    ensures r == Configuration(mode, manual)
    ensures mode == DEFAULT_MODE ==> r == Resolved(CATALOG, DefaultTable(CATALOG))
    ensures mode == MANUAL_MODE && (manual.None? || manual.value == []) ==> r == Rejected(MISSING_MANUAL_MESSAGE)
    ensures mode != DEFAULT_MODE && mode != MANUAL_MODE ==> r == Rejected(INVALID_MODE_MESSAGE)
    ensures mode == MANUAL_MODE && manual.Some? && manual.value != [] ==>
              match ManualTable(manual.value)
              case None => r == CountNotInteger
              case Some(t) => r == Resolved(PlanOf(manual.value), t)
  {
    if mode == DEFAULT_MODE {
      var cfg := BuildDefaultTable();
      r := Resolved(CATALOG, cfg);
    } else if mode == MANUAL_MODE {
      if manual.None? || manual.value == [] {
        return Rejected(MISSING_MANUAL_MESSAGE);
      }
      var t := BuildManualTable(manual.value);
      r := if t.None? then CountNotInteger else Resolved(PlanOf(manual.value), t.value);
    } else {
      r := Rejected(INVALID_MODE_MESSAGE);
    }
  }

  /** The default branch: every catalogued pair gets its counts, in catalogue order. */
  method BuildDefaultTable() returns (cfg: CountTable)
    ensures cfg == DefaultTable(CATALOG)
  {
    cfg := map[];
    for i := 0 to |CATALOG|
      invariant cfg == WriteDefault(map[], CATALOG[..i])
    {
      assert CATALOG[..i + 1][..i] == CATALOG[..i];
      cfg := AddDefaultCounts(cfg, CATALOG[i].0, CATALOG[i].1);
    }
    assert CATALOG[..|CATALOG|] == CATALOG;
  }

  /** One provider of the default branch: each product gets a movie and an episode, `twc` also a short. */
  method AddDefaultCounts(cfg0: CountTable, p: string, xs: seq<string>) returns (cfg: CountTable)
    ensures cfg == WriteDefaultProvider(cfg0, p, xs)
  {
    cfg := cfg0;
    for j := 0 to |xs|
      invariant cfg == WriteDefaultProvider(cfg0, p, xs[..j])
    {
      assert xs[..j + 1][..j] == xs[..j];
      cfg := cfg[CountKey(FullMovie, p, xs[j]) := 1];
      cfg := cfg[CountKey(FullEpisode, p, xs[j]) := 1];
      if p == OTHERS && xs[j] == TWC {
        cfg := cfg[CountKey(ShortVideo, p, xs[j]) := 1];
      }
    }
    assert xs[..|xs|] == xs;
  }

  /** The manual branch: every product of every provider read in order; `None` when an `int(...)` raises. */
  method BuildManualTable(m: ManualConfig) returns (t: Option<CountTable>)
    ensures t == ManualTable(m)
  {
    var cfg: CountTable := map[];
    for i := 0 to |m|
      invariant WriteManual(map[], m[..i]) == Some(cfg)
    {
      assert m[..i + 1][..i] == m[..i];
      var added := AddManualCounts(cfg, m[i].0, m[i].1);
      if added.None? {
        NoTableAfterFailure(m, i);
        return None;
      }
      cfg := added.value;
    }
    assert m[..|m|] == m;
    t := Some(cfg);
  }

  /** One provider of the manual branch; `None` when an `int(...)` raises. */
  method AddManualCounts(cfg0: CountTable, p: string, xs: seq<(string, ProductData)>) returns (r: Option<CountTable>)
    ensures r == WriteManualProvider(cfg0, p, xs)
  {
    var cfg := cfg0;
    for j := 0 to |xs|
      invariant WriteManualProvider(cfg0, p, xs[..j]) == Some(cfg)
    {
      var (x, data) := xs[j];
      assert xs[..j + 1][..j] == xs[..j];
      var movies := ReadCount(data, "full_movie");
      var episodes := ReadCount(data, "full_episode");
      if movies.None? || episodes.None? {
        ProviderFailureExtends(cfg0, p, xs, j + 1);
        return None;
      }
      cfg := cfg[CountKey(FullMovie, p, x) := movies.value];
      cfg := cfg[CountKey(FullEpisode, p, x) := episodes.value];
      if p == OTHERS && x == TWC {
        var shorts := ReadCount(data, "short_video");
        if shorts.None? {
          ProviderFailureExtends(cfg0, p, xs, j + 1);
          return None;
        }
        cfg := cfg[CountKey(ShortVideo, p, x) := shorts.value];
      }
    }
    assert xs[..|xs|] == xs;
    r := Some(cfg);
  }

  /** Once one provider's products fail to read, the whole manual table fails. */
  lemma {:induction false} NoTableAfterFailure(m: ManualConfig, i: nat)
    requires i < |m|
    requires WriteManual(map[], m[..i]).Some?
    requires WriteManualProvider(WriteManual(map[], m[..i]).value, m[i].0, m[i].1).None?
    ensures ManualTable(m).None?
    decreases |m|
  {
    if i < |m| - 1 {
      assert m[..|m| - 1][..i] == m[..i];
      NoTableAfterFailure(m[..|m| - 1], i);
    } else {
      assert m[..|m| - 1] == m[..i];
    }
  }

  /** Once one product fails to read, the provider's products as a whole fail. */
  lemma {:induction false} ProviderFailureExtends(cfg: CountTable, p: string, xs: seq<(string, ProductData)>, n: nat)
    requires n <= |xs|
    requires WriteManualProvider(cfg, p, xs[..n]).None?
    ensures WriteManualProvider(cfg, p, xs).None?
    decreases |xs|
  {
    if n < |xs| {
      assert xs[..|xs| - 1][..n] == xs[..n];
      ProviderFailureExtends(cfg, p, xs[..|xs| - 1], n);
    } else {
      assert xs[..n] == xs;
    }
  }

  // ----- What the tables hold -----

  /** `d.get(k)` on an ordered dictionary: the value of the last entry with key `k`. */
  function Lookup<V>(s: seq<(string, V)>, k: string): Option<V> {
    if s == [] then None
    else if s[|s| - 1].0 == k then Some(s[|s| - 1].1)
    else Lookup(s[..|s| - 1], k)
  }

  lemma {:induction false} LookupAbsent<V>(s: seq<(string, V)>, k: string)
    requires forall i :: 0 <= i < |s| ==> s[i].0 != k
    ensures Lookup(s, k) == None
  {
    if s != [] {
      LookupAbsent(s[..|s| - 1], k);
    }
  }

  /** The plan lists product `x` under provider `p`. */
  predicate InPlan(plan: Plan, p: string, x: string) {
    exists i :: 0 <= i < |plan| && plan[i].0 == p && x in plan[i].1
  }

  predicate ProvidersKnown(plan: Plan) {
    forall i :: 0 <= i < |plan| ==> plan[i].0 in PROVIDERS
  }

  /** Writing one count key changes the count of that one triple and of no other. */
  lemma CountAfterWrite(cfg: CountTable, w: VideoType, p: string, x: string, n: int, v: VideoType, q: string, y: string)
    requires p in PROVIDERS && q in PROVIDERS
    ensures Count(cfg[CountKey(w, p, x) := n], v, q, y) == if v == w && q == p && y == x then n else Count(cfg, v, q, y)
  {
    if CountKey(w, p, x) == CountKey(v, q, y) {
      CountKeyInjective(w, p, x, v, q, y);
    }
  }

  lemma DefaultProductCount(cfg: CountTable, p: string, x: string, v: VideoType, q: string, y: string)
    requires p in PROVIDERS && q in PROVIDERS
    ensures Count(WriteDefaultProduct(cfg, p, x), v, q, y)
         == if q == p && y == x && Offered(v, p, x) then 1 else Count(cfg, v, q, y)
  {
    var c1 := cfg[CountKey(FullMovie, p, x) := 1];
    var c2 := c1[CountKey(FullEpisode, p, x) := 1];
    CountAfterWrite(cfg, FullMovie, p, x, 1, v, q, y);
    CountAfterWrite(c1, FullEpisode, p, x, 1, v, q, y);
    CountAfterWrite(c2, ShortVideo, p, x, 1, v, q, y);
  }

  lemma {:induction false} DefaultProviderCount(cfg: CountTable, p: string, xs: seq<string>, v: VideoType, q: string, y: string)
    requires p in PROVIDERS && q in PROVIDERS
    ensures Count(WriteDefaultProvider(cfg, p, xs), v, q, y)
         == if q == p && y in xs && Offered(v, p, y) then 1 else Count(cfg, v, q, y)
  {
    if xs != [] {
      var init := xs[..|xs| - 1];
      DefaultProviderCount(cfg, p, init, v, q, y);
      DefaultProductCount(WriteDefaultProvider(cfg, p, init), p, xs[|xs| - 1], v, q, y);
      InButLast(xs, y);
    }
  }

  lemma {:induction false} DefaultCount(cfg: CountTable, plan: Plan, v: VideoType, q: string, y: string)
    requires ProvidersKnown(plan) && q in PROVIDERS
    ensures Count(WriteDefault(cfg, plan), v, q, y)
         == if InPlan(plan, q, y) && Offered(v, q, y) then 1 else Count(cfg, v, q, y)
  {
    if plan != [] {
      var init := plan[..|plan| - 1];
      var last := plan[|plan| - 1];
      PlanPrefix(plan, q, y);
      DefaultCount(cfg, init, v, q, y);
      DefaultProviderCount(WriteDefault(cfg, init), last.0, last.1, v, q, y);
    }
  }

  /** The plan without its last provider entry: its providers are known, and it lists what the whole plan lists but the last entry. */
  lemma PlanPrefix(plan: Plan, q: string, y: string)
    requires ProvidersKnown(plan) && plan != []
    ensures ProvidersKnown(plan[..|plan| - 1])
    ensures InPlan(plan, q, y)
        <==> InPlan(plan[..|plan| - 1], q, y) || (plan[|plan| - 1].0 == q && y in plan[|plan| - 1].1)
  {
    var init := plan[..|plan| - 1];
    forall i | 0 <= i < |init| ensures init[i].0 in PROVIDERS {
      assert init[i] == plan[i];
    }
    if InPlan(plan, q, y) {
      var i :| 0 <= i < |plan| && plan[i].0 == q && y in plan[i].1;
      if i < |init| {
        assert init[i] == plan[i];
      }
    }
    if InPlan(init, q, y) {
      var i :| 0 <= i < |init| && init[i].0 == q && y in init[i].1;
      assert plan[i] == init[i];
    }
  }

  /**
   * Default mode: every catalogued product gets count 1 for each video type it
   * offers (shorts only for `others`/`twc`), and any other key reads as 0.
   */
  lemma DefaultModeCounts(v: VideoType, q: string, y: string)
    requires q in PROVIDERS
    ensures Count(DefaultTable(CATALOG), v, q, y) == if InPlan(CATALOG, q, y) && Offered(v, q, y) then 1 else 0
  {
    assert ProvidersKnown(CATALOG);
    DefaultCount(map[], CATALOG, v, q, y);
  }

  /** Every `int(...)` the manual branch attempts for one product succeeds. */
  predicate Readable(p: string, x: string, data: ProductData) {
    && ReadCount(data, FullMovie.RawName()).Some?
    && ReadCount(data, FullEpisode.RawName()).Some?
    && (SupportsShorts(p, x) ==> ReadCount(data, ShortVideo.RawName()).Some?)
  }

  predicate AllReadable(p: string, xs: seq<(string, ProductData)>) {
    forall j :: 0 <= j < |xs| ==> Readable(p, xs[j].0, xs[j].1)
  }

  lemma ManualProductCount(cfg: CountTable, p: string, x: string, data: ProductData, v: VideoType, q: string, y: string)
    requires p in PROVIDERS && q in PROVIDERS
    ensures WriteManualProduct(cfg, p, x, data).Some? <==> Readable(p, x, data)
    ensures Readable(p, x, data) ==> (
              Count(WriteManualProduct(cfg, p, x, data).value, v, q, y)
           == if q == p && y == x && Offered(v, p, x) then ReadCount(data, v.RawName()).value else Count(cfg, v, q, y))
  {
    if Readable(p, x, data) {
      var m, e, s := ReadCount(data, FullMovie.RawName()), ReadCount(data, FullEpisode.RawName()),
                     ReadCount(data, ShortVideo.RawName());
      var c1 := cfg[CountKey(FullMovie, p, x) := m.value];
      var c2 := c1[CountKey(FullEpisode, p, x) := e.value];
      CountAfterWrite(cfg, FullMovie, p, x, m.value, v, q, y);
      CountAfterWrite(c1, FullEpisode, p, x, e.value, v, q, y);
      if SupportsShorts(p, x) {
        CountAfterWrite(c2, ShortVideo, p, x, s.value, v, q, y);
      }
    }
  }

  lemma AllReadableSnoc(p: string, xs: seq<(string, ProductData)>)
    requires xs != []
    ensures AllReadable(p, xs) <==> AllReadable(p, xs[..|xs| - 1]) && Readable(p, xs[|xs| - 1].0, xs[|xs| - 1].1)
  {
    var init := xs[..|xs| - 1];
    if AllReadable(p, init) && Readable(p, xs[|xs| - 1].0, xs[|xs| - 1].1) {
      forall j | 0 <= j < |xs| ensures Readable(p, xs[j].0, xs[j].1) {
        if j < |init| {
          assert xs[j] == init[j];
        }
      }
    }
    if AllReadable(p, xs) {
      forall j | 0 <= j < |init| ensures Readable(p, init[j].0, init[j].1) {
        assert xs[j] == init[j];
      }
    }
  }

  lemma {:induction false} ManualProviderCount(cfg: CountTable, p: string, xs: seq<(string, ProductData)>,
                                               v: VideoType, q: string, y: string)
    requires p in PROVIDERS && q in PROVIDERS
    ensures WriteManualProvider(cfg, p, xs).Some? <==> AllReadable(p, xs)
    ensures AllReadable(p, xs) ==> (
              var n := Count(WriteManualProvider(cfg, p, xs).value, v, q, y);
              if q == p && Lookup(xs, y).Some? && Offered(v, p, y) then Some(n) == ReadCount(Lookup(xs, y).value, v.RawName())
              else n == Count(cfg, v, q, y))
  {
    if xs != [] {
      var init := xs[..|xs| - 1];
      var (x, data) := xs[|xs| - 1];
      ManualProviderCount(cfg, p, init, v, q, y);
      AllReadableSnoc(p, xs);
      if AllReadable(p, init) {
        ManualProductCount(WriteManualProvider(cfg, p, init).value, p, x, data, v, q, y);
      }
    }
  }

  /** The manual configuration without its last provider: still well formed, and readable when the whole is. */
  lemma ManualPrefix(m: ManualConfig)
    requires WellFormedManual(m) && m != []
    ensures WellFormedManual(m[..|m| - 1])
    ensures var init := m[..|m| - 1];
            (forall i :: 0 <= i < |m| ==> AllReadable(m[i].0, m[i].1))
            <==> (forall i :: 0 <= i < |init| ==> AllReadable(init[i].0, init[i].1)) && AllReadable(m[|m| - 1].0, m[|m| - 1].1)
  {
    var init := m[..|m| - 1];
    forall i, j | 0 <= i < j < |init| ensures init[i].0 != init[j].0 {
      assert init[i] == m[i] && init[j] == m[j];
    }
    forall i | 0 <= i < |init| ensures init[i].0 in PROVIDERS && DistinctKeys(init[i].1) {
      assert init[i] == m[i];
    }
    if forall i :: 0 <= i < |init| ==> AllReadable(init[i].0, init[i].1) {
      forall i | 0 <= i < |m| - 1 ensures AllReadable(m[i].0, m[i].1) {
        assert init[i] == m[i];
      }
    }
  }

  lemma {:induction false} ManualCount(cfg: CountTable, m: ManualConfig, v: VideoType, q: string, y: string)
    requires WellFormedManual(m) && q in PROVIDERS
    ensures WriteManual(cfg, m).Some? <==> forall i :: 0 <= i < |m| ==> AllReadable(m[i].0, m[i].1)
    ensures WriteManual(cfg, m).Some? ==> (
              var n := Count(WriteManual(cfg, m).value, v, q, y);
              match Lookup(m, q)
              case None => n == Count(cfg, v, q, y)
              case Some(xs) =>
                if Lookup(xs, y).Some? && Offered(v, q, y) then Some(n) == ReadCount(Lookup(xs, y).value, v.RawName())
                else n == Count(cfg, v, q, y))
  {
    if m != [] {
      var init := m[..|m| - 1];
      var (p, xs) := m[|m| - 1];
      ManualPrefix(m);
      ManualCount(cfg, init, v, q, y);
      if WriteManual(cfg, init).Some? {
        var c := WriteManual(cfg, init).value;
        ManualProviderCount(c, p, xs, v, q, y);
        if q == p {
          LookupAbsent(init, q);
          assert Lookup(init, q) == None;
        }
      }
    }
  }

  /**
   * Manual mode: the table exists exactly when every count string the branch
   * reads is an integer, and then each offered (video type, provider,
   * product) triple of the configuration holds the integer typed for it,
   * every other key reading as 0.
   */
  lemma ManualModeCounts(m: ManualConfig, v: VideoType, q: string, y: string)
    requires WellFormedManual(m) && q in PROVIDERS
    ensures ManualTable(m).Some? <==> forall i :: 0 <= i < |m| ==> AllReadable(m[i].0, m[i].1)
    ensures ManualTable(m).Some? ==> (
              var n := Count(ManualTable(m).value, v, q, y);
              match Lookup(m, q)
              case None => n == 0
              case Some(xs) =>
                if Lookup(xs, y).Some? && Offered(v, q, y) then Some(n) == ReadCount(Lookup(xs, y).value, v.RawName())
                else n == 0)
  {
    ManualCount(map[], m, v, q, y);
  }
}
