/**
 * The manual form of the web front end: the submitted form fields become
 * the nested manual configuration, one entry per catalogued provider with at
 * least one positive count, each holding every product of that provider with
 * its count strings exactly as typed.
 */
module Form {
  import opened Options
  import opened Seqs
  import opened Text
  import opened Catalog
  import opened Config

  /** The submitted form: field name to the string typed in. */
  type FormData = map<string, string>

  /**
   * What the form step leads to: a configuration handed to the generator,
   * the warning that nothing was entered, or the `ValueError` an `int(...)`
   * raises on a field that is not a number.
   */
  datatype FormResult = Configs(config: ManualConfig) | NothingEntered | NotAnInteger

  const NOTHING_ENTERED_MESSAGE: string := "Please enter at least one content count in Manual Mode."

  /** `f'{provider}_{product}_full_movie'` and its two siblings. */
  function FieldName(p: string, x: string, v: VideoType): string {
    p + "_" + x + "_" + v.RawName()
  }

  /** `request.form.get(name, '0')`. */
  function FieldOf(form: FormData, p: string, x: string, v: VideoType): string {
    var k := FieldName(p, x, v);
    if k in form then form[k] else "0"
  }

  /** The value `int(...)` gives the field, `None` for a `ValueError`. */
  function FieldCount(form: FormData, p: string, x: string, v: VideoType): Option<int> {
    ParseInt(FieldOf(form, p, x, v))
  }

  /**
   * The condition `int(movie) > 0 or int(episode) > 0 or int(short) > 0`
   * on the three parsed fields, evaluated left to right and stopping at the
   * first positive count; `None` when a field it reaches is not a number.
   */
  function Check(a: Option<int>, b: Option<int>, c: Option<int>): Option<bool> {
    match a
    case None => None
    case Some(m) =>
      if m > 0 then Some(true)
      else
        match b
        case None => None
        case Some(e) =>
          if e > 0 then Some(true)
          else
            match c
            case None => None
            case Some(s) => Some(s > 0)
  }

  /**
   * A product counts as not configured exactly when all three fields are
   * numbers and none is positive; a configured product has a positive
   * field; and when all three fields are numbers nothing raises and the
   * flag is the plain disjunction.
   */
  lemma CheckMeaning(a: Option<int>, b: Option<int>, c: Option<int>)
    ensures Check(a, b, c) == Some(false) <==>
              a.Some? && b.Some? && c.Some? && a.value <= 0 && b.value <= 0 && c.value <= 0
    ensures Check(a, b, c) == Some(true) ==>
              (a.Some? && a.value > 0) || (b.Some? && b.value > 0) || (c.Some? && c.value > 0)
    ensures a.Some? && b.Some? && c.Some? ==> Check(a, b, c) == Some(a.value > 0 || b.value > 0 || c.value > 0)
  {
  }

  /** The check for one product of the form. */
  function ProductCheck(form: FormData, p: string, x: string): Option<bool> {
    Check(FieldCount(form, p, x, FullMovie), FieldCount(form, p, x, FullEpisode), FieldCount(form, p, x, ShortVideo))
  }

  /**
   * `product_config`: the movie and episode strings, and the short-video
   * string for `others`/`twc` only, stored as typed (absent fields as "0").
   */
  function ProductConfig(form: FormData, p: string, x: string): (r: ProductData)
    ensures r.Keys == {FullMovie.RawName(), FullEpisode.RawName()} + (if SupportsShorts(p, x) then {ShortVideo.RawName()} else {})
    ensures forall v: VideoType :: v.RawName() in r ==> r[v.RawName()] == FieldOf(form, p, x, v)
  {
    var c := map[FullMovie.RawName() := FieldOf(form, p, x, FullMovie), FullEpisode.RawName() := FieldOf(form, p, x, FullEpisode)];
    if SupportsShorts(p, x) then c[ShortVideo.RawName() := FieldOf(form, p, x, ShortVideo)] else c
  }

  /** One provider's products, each with its `product_config`, in catalog order. */
  function Entries(form: FormData, p: string, xs: seq<string>): (r: seq<(string, ProductData)>)
    ensures |r| == |xs|
    ensures forall j :: 0 <= j < |xs| ==> r[j] == (xs[j], ProductConfig(form, p, xs[j]))
  {
    seq(|xs|, j requires 0 <= j < |xs| => (xs[j], ProductConfig(form, p, xs[j])))
  }

  lemma EntriesSnoc(form: FormData, p: string, xs: seq<string>, j: nat)
    requires j < |xs|
    ensures Entries(form, p, xs[..j + 1]) == Entries(form, p, xs[..j]) + [(xs[j], ProductConfig(form, p, xs[j]))]
  {
  }

  /** `provider_has_config` after products with the checks `cs`; `None` when one of them raised. */
  function Flag(cs: seq<Option<bool>>): Option<bool> {
    if cs == [] then Some(false)
    else
      match Flag(cs[..|cs| - 1])
      case None => None
      case Some(b) =>
        match cs[|cs| - 1]
        case None => None
        case Some(c) => Some(b || c)
  }

  /**
   * The product loop raises exactly when one of its products does, and
   * sets the flag exactly when none raises and one is configured.
   */
  lemma {:induction false} FlagMeaning(cs: seq<Option<bool>>)
    ensures Flag(cs).None? <==> exists j :: 0 <= j < |cs| && cs[j].None?
    ensures Flag(cs) == Some(true) <==>
              && (forall j :: 0 <= j < |cs| ==> cs[j].Some?)
              && (exists j :: 0 <= j < |cs| && cs[j] == Some(true))
  {
    if cs != [] {
      var init, last := cs[..|cs| - 1], cs[|cs| - 1];
      FlagMeaning(init);
      assert forall j :: 0 <= j < |init| ==> init[j] == cs[j];
      if Flag(init).None? {
        var j :| 0 <= j < |init| && init[j].None?;
        assert cs[j].None?;
      } else if last.None? {
        assert cs[|cs| - 1].None?;
      } else {
        assert forall j :: 0 <= j < |cs| ==> cs[j].Some?;
        if last == Some(true) {
          assert cs[|cs| - 1] == Some(true);
        } else if Flag(cs) == Some(true) {
          var j :| 0 <= j < |init| && init[j] == Some(true);
          assert cs[j] == Some(true);
        } else {
          assert forall j :: 0 <= j < |cs| ==> cs[j] != Some(true);
        }
      }
    }
  }

  /** The checks of the products `xs`, in order. */
  function Checks(form: FormData, p: string, xs: seq<string>): (r: seq<Option<bool>>)
    ensures |r| == |xs|
    ensures forall j :: 0 <= j < |xs| ==> r[j] == ProductCheck(form, p, xs[j])
  {
    seq(|xs|, j requires 0 <= j < |xs| => ProductCheck(form, p, xs[j]))
  }

  /** `provider_has_config` after the products `xs`; `None` when a parse raised on the way. */
  function ProviderCheck(form: FormData, p: string, xs: seq<string>): Option<bool> {
    Flag(Checks(form, p, xs))
  }

  /** One product more: the flag is raised by it or was raised before, and a raise is final. */
  lemma ProviderCheckSnoc(form: FormData, p: string, xs: seq<string>, j: nat)
    requires j < |xs|
    ensures var c := ProductCheck(form, p, xs[j]);
            ProviderCheck(form, p, xs[..j + 1])
              == match ProviderCheck(form, p, xs[..j])
                 case None => None
                 case Some(b) => if c.None? then None else Some(b || c.value)
  {
    var cs := Checks(form, p, xs[..j + 1]);
    assert cs[..j] == Checks(form, p, xs[..j]);
  }

  /** A provider's entry in `manual_configs`: every one of its products with its `product_config`. */
  function ProviderEntry(form: FormData, c: (string, seq<string>)): (string, seq<(string, ProductData)>) {
    (c.0, Entries(form, c.0, c.1))
  }

  /** The provider's flag ends up raised: it is not deleted. */
  predicate Kept(form: FormData, c: (string, seq<string>)) {
    ProviderCheck(form, c.0, c.1) == Some(true)
  }

  /**
   * The provider loop on entries `es` with verdicts `vs`: an entry is added,
   * then deleted again when its verdict is false; a `None` verdict is a
   * raise that ends the loop.
   */
  function Assemble<V>(es: seq<(string, V)>, vs: seq<Option<bool>>): Option<seq<(string, V)>>
    requires |es| == |vs|
  {
    if es == [] then Some([])
    else
      match Assemble(es[..|es| - 1], vs[..|vs| - 1])
      case None => None
      case Some(m) =>
        match vs[|vs| - 1]
        case None => None
        case Some(keep) => Some(if keep then m + [es[|es| - 1]] else m)
  }

  /** The loop raises exactly when some verdict is a raise. */
  lemma {:induction false} AssembleRaises<V>(es: seq<(string, V)>, vs: seq<Option<bool>>)
    requires |es| == |vs|
    ensures Assemble(es, vs).None? <==> exists i :: 0 <= i < |vs| && vs[i].None?
  {
    if es != [] {
      var init := vs[..|vs| - 1];
      AssembleRaises(es[..|es| - 1], init);
      assert forall i :: 0 <= i < |init| ==> init[i] == vs[i];
      if Assemble(es[..|es| - 1], init).None? {
        var i :| 0 <= i < |init| && init[i].None?;
        assert vs[i].None?;
      } else if vs[|vs| - 1].None? {
      } else {
        assert forall i :: 0 <= i < |vs| ==> vs[i].Some? by {
          forall i | 0 <= i < |vs|
            ensures vs[i].Some?
          {
            if i < |init| {
              assert init[i] == vs[i];
            }
          }
        }
      }
    }
  }

  /** Without a raise, every entry of the result is an entry with a true verdict. */
  lemma {:induction false} AssembleSound<V>(es: seq<(string, V)>, vs: seq<Option<bool>>)
    requires |es| == |vs| && Assemble(es, vs).Some?
    ensures var m := Assemble(es, vs).value;
            forall i :: 0 <= i < |m| ==> exists j :: 0 <= j < |es| && m[i] == es[j] && vs[j] == Some(true)
  {
    if es != [] {
      var e0, v0 := es[..|es| - 1], vs[..|vs| - 1];
      AssembleSound(e0, v0);
      var m0 := Assemble(e0, v0).value;
      var m := Assemble(es, vs).value;
      assert forall j :: 0 <= j < |e0| ==> e0[j] == es[j] && v0[j] == vs[j];
      var keep := vs[|vs| - 1] == Some(true);
      assert m == if keep then m0 + [es[|es| - 1]] else m0;
      forall i | 0 <= i < |m|
        ensures exists j :: 0 <= j < |es| && m[i] == es[j] && vs[j] == Some(true)
      {
        if i < |m0| {
          var j :| 0 <= j < |e0| && m0[i] == e0[j] && v0[j] == Some(true);
          assert m[i] == es[j] && vs[j] == Some(true);
        } else {
          assert keep && m[i] == es[|es| - 1];
        }
      }
    }
  }

  /** The result keeps entries in order, so its keys are distinct when the entries' are. */
  lemma {:induction false} AssembleDistinct<V>(es: seq<(string, V)>, vs: seq<Option<bool>>)
    requires |es| == |vs| && Assemble(es, vs).Some? && DistinctKeys(es)
    ensures DistinctKeys(Assemble(es, vs).value)
  {
    if es != [] {
      var e0, v0 := es[..|es| - 1], vs[..|vs| - 1];
      assert forall j :: 0 <= j < |e0| ==> e0[j] == es[j];
      AssembleDistinct(e0, v0);
      if vs[|vs| - 1] == Some(true) {
        var m0 := Assemble(e0, v0).value;
        AssembleSound(e0, v0);
        forall i | 0 <= i < |m0|
          ensures m0[i].0 != es[|es| - 1].0
        {
          var j :| 0 <= j < |e0| && m0[i] == e0[j] && v0[j] == Some(true);
          assert es[j].0 != es[|es| - 1].0;
        }
      }
    }
  }

  /** Without a raise, every entry with a true verdict is in the result. */
  lemma {:induction false} AssembleComplete<V>(es: seq<(string, V)>, vs: seq<Option<bool>>)
    requires |es| == |vs| && Assemble(es, vs).Some?
    ensures var m := Assemble(es, vs).value;
            forall j :: 0 <= j < |es| && vs[j] == Some(true) ==> exists i :: 0 <= i < |m| && m[i] == es[j]
  {
    if es != [] {
      var e0, v0 := es[..|es| - 1], vs[..|vs| - 1];
      AssembleComplete(e0, v0);
      var m0 := Assemble(e0, v0).value;
      var m := Assemble(es, vs).value;
      assert m0 <= m by {
        if vs[|vs| - 1] == Some(true) {
          assert m == m0 + [es[|es| - 1]];
        }
      }
      forall j | 0 <= j < |es| && vs[j] == Some(true)
        ensures exists i :: 0 <= i < |m| && m[i] == es[j]
      {
        if j < |e0| {
          assert e0[j] == es[j] && v0[j] == vs[j];
          var i :| 0 <= i < |m0| && m0[i] == e0[j];
          assert m[i] == m0[i];
        } else {
          assert m[|m| - 1] == es[j];
        }
      }
    }
  }

  /** Every provider's entry, in order. */
  function ProviderEntries(form: FormData, cat: seq<(string, seq<string>)>): (r: seq<(string, seq<(string, ProductData)>)>)
    ensures |r| == |cat|
    ensures forall i :: 0 <= i < |cat| ==> r[i] == ProviderEntry(form, cat[i])
  {
    seq(|cat|, i requires 0 <= i < |cat| => ProviderEntry(form, cat[i]))
  }

  /** Every provider's flag, in order. */
  function Verdicts(form: FormData, cat: seq<(string, seq<string>)>): (r: seq<Option<bool>>)
    ensures |r| == |cat|
    ensures forall i :: 0 <= i < |cat| ==> r[i] == ProviderCheck(form, cat[i].0, cat[i].1)
  {
    seq(|cat|, i requires 0 <= i < |cat| => ProviderCheck(form, cat[i].0, cat[i].1))
  }

  /**
   * `manual_configs` after the providers `cat`: each provider is added with
   * all its products and deleted again when its flag stays false; `None`
   * when a parse raised.
   */
  function Reconstruct(form: FormData, cat: seq<(string, seq<string>)>): Option<ManualConfig> {
    Assemble(ProviderEntries(form, cat), Verdicts(form, cat))
  }

  /** One provider more, as the loop body does it. */
  lemma ReconstructSnoc(form: FormData, cat: seq<(string, seq<string>)>, i: nat)
    requires i < |cat|
    ensures Reconstruct(form, cat[..i + 1])
         == match Reconstruct(form, cat[..i])
            case None => None
            case Some(m) =>
              match ProviderCheck(form, cat[i].0, cat[i].1)
              case None => None
              case Some(keep) => Some(if keep then m + [ProviderEntry(form, cat[i])] else m)
  {
    var es, vs := ProviderEntries(form, cat[..i + 1]), Verdicts(form, cat[..i + 1]);
    assert es[..i] == ProviderEntries(form, cat[..i]);
    assert vs[..i] == Verdicts(form, cat[..i]);
  }

  /** The whole form step over the front end's provider list `available`. */
  function Outcome(form: FormData, available: seq<(string, seq<string>)>): FormResult {
    match Reconstruct(form, available)
    case None => NotAnInteger
    case Some(m) => if m == [] then NothingEntered else Configs(m)
  }

  /** The form step raises exactly when some provider's loop raises. */
  lemma ReconstructRaises(form: FormData, cat: seq<(string, seq<string>)>)
    ensures Reconstruct(form, cat).None? <==> exists i :: 0 <= i < |cat| && ProviderCheck(form, cat[i].0, cat[i].1).None?
  {
    var vs := Verdicts(form, cat);
    AssembleRaises(ProviderEntries(form, cat), vs);
    if Reconstruct(form, cat).None? {
      var i :| 0 <= i < |vs| && vs[i].None?;
    }
  }

  /** A provider's flag is raised exactly when none of its products raises and one is configured. */
  lemma KeptMeaning(form: FormData, c: (string, seq<string>))
    ensures Kept(form, c) <==>
              && (forall k :: 0 <= k < |c.1| ==> ProductCheck(form, c.0, c.1[k]).Some?)
              && (exists k :: 0 <= k < |c.1| && ProductCheck(form, c.0, c.1[k]) == Some(true))
  {
    var cs := Checks(form, c.0, c.1);
    FlagMeaning(cs);
    assert forall k :: 0 <= k < |c.1| ==> cs[k] == ProductCheck(form, c.0, c.1[k]);
  }

  /** Without a raise, a kept provider is in the configuration with the entries of all its products. */
  lemma KeptProviderPresent(form: FormData, cat: seq<(string, seq<string>)>, j: nat)
    requires j < |cat| && Reconstruct(form, cat).Some? && Kept(form, cat[j])
    ensures var m := Reconstruct(form, cat).value;
            exists i :: 0 <= i < |m| && m[i] == ProviderEntry(form, cat[j])
  {
    var es, vs := ProviderEntries(form, cat), Verdicts(form, cat);
    AssembleComplete(es, vs);
    assert vs[j] == Some(true);
    var m := Assemble(es, vs).value;
    var i :| 0 <= i < |m| && m[i] == es[j];
  }

  /** A provider in the configuration was kept: its flag was raised. */
  lemma PresentProviderKept(form: FormData, cat: seq<(string, seq<string>)>, j: nat, i: nat)
    requires DistinctKeys(cat) && j < |cat| && Reconstruct(form, cat).Some?
    requires i < |Reconstruct(form, cat).value| && Reconstruct(form, cat).value[i].0 == cat[j].0
    ensures Kept(form, cat[j])
  {
    var es, vs := ProviderEntries(form, cat), Verdicts(form, cat);
    var m := Assemble(es, vs).value;
    AssembleSound(es, vs);
    var j' :| 0 <= j' < |es| && m[i] == es[j'] && vs[j'] == Some(true);
    assert es[j'] == ProviderEntry(form, cat[j']);
    assert j' == j;
  }

  /** The entry of a provider lists exactly its products, once each when the catalog does. */
  lemma EntriesKeys(form: FormData, p: string, xs: seq<string>)
    ensures KeysOf(Entries(form, p, xs)) == xs
    ensures DistinctKeys(Entries(form, p, xs)) <==> forall a, b :: 0 <= a < b < |xs| ==> xs[a] != xs[b]
  {
    var e := Entries(form, p, xs);
    assert forall a :: 0 <= a < |xs| ==> e[a].0 == xs[a];
  }

  /**
   * What the front end's provider list satisfies: distinct catalogued
   * providers, each listing its products once.
   */
  predicate Available(available: seq<(string, seq<string>)>) {
    && DistinctKeys(available)
    && forall j :: 0 <= j < |available| ==>
         available[j].0 in PROVIDERS && forall a, b :: 0 <= a < b < |available[j].1| ==> available[j].1[a] != available[j].1[b]
  }

  /** The front end's `AVAILABLE_PROVIDERS` is the catalog, which qualifies. */
  lemma CatalogAvailable()
    ensures Available(CATALOG)
  {
  }

  /**
   * A configuration from the form is one the generator accepts in manual
   * mode: it is not empty, its keys are distinct, every provider is
   * catalogued, and every kept provider lists all its available products.
   */
  lemma OutcomeWellFormed(form: FormData, available: seq<(string, seq<string>)>)
    requires Available(available)
    requires Outcome(form, available).Configs?
    ensures var m := Outcome(form, available).config;
            && m != [] && WellFormedManual(m)
            && forall i :: 0 <= i < |m| ==> exists j :: 0 <= j < |available| && m[i].0 == available[j].0
                                                   && KeysOf(m[i].1) == available[j].1
  {
    var es, vs := ProviderEntries(form, available), Verdicts(form, available);
    forall j | 0 <= j < |available|
      ensures es[j].0 == available[j].0 && KeysOf(es[j].1) == available[j].1 && DistinctKeys(es[j].1)
    {
      EntriesKeys(form, available[j].0, available[j].1);
    }
    AssembledWellFormed(available, es, vs);
  }

  /** Kept entries whose keys follow an available catalogue make a well-formed manual configuration. */
  lemma AssembledWellFormed(available: seq<(string, seq<string>)>, es: seq<(string, seq<(string, ProductData)>)>,
                            vs: seq<Option<bool>>)
    requires Available(available) && |es| == |available| == |vs|
    requires forall j :: 0 <= j < |available| ==>
               es[j].0 == available[j].0 && KeysOf(es[j].1) == available[j].1 && DistinctKeys(es[j].1)
    requires Assemble(es, vs).Some?
    ensures var m := Assemble(es, vs).value;
            && WellFormedManual(m)
            && forall i :: 0 <= i < |m| ==> exists j :: 0 <= j < |available| && m[i].0 == available[j].0
                                                   && KeysOf(m[i].1) == available[j].1
  {
    var m := Assemble(es, vs).value;
    assert DistinctKeys(es);
    AssembleSound(es, vs);
    AssembleDistinct(es, vs);
    forall i | 0 <= i < |m|
      ensures exists j :: 0 <= j < |available| && m[i].0 == available[j].0 && KeysOf(m[i].1) == available[j].1
    {
      var j :| 0 <= j < |es| && m[i] == es[j] && vs[j] == Some(true);
      assert m[i].0 == available[j].0 && KeysOf(m[i].1) == available[j].1;
    }
    forall i | 0 <= i < |m|
      ensures m[i].0 in PROVIDERS && DistinctKeys(m[i].1)
    {
      var j :| 0 <= j < |es| && m[i] == es[j] && vs[j] == Some(true);
    }
  }

  /**
   * The test `int(movie) > 0 or int(episode) > 0 or int(short) > 0` on the
   * three field strings, `None` for the `ValueError` of a field it reaches.
   */
  method Configured(movieCount: string, episodeCount: string, shortCount: string) returns (check: Option<bool>)
    ensures check == Check(ParseInt(movieCount), ParseInt(episodeCount), ParseInt(shortCount))
  {
    var a := ParseInt(movieCount);
    if a.None? {
      return None;
    }
    if a.value > 0 {
      return Some(true);
    }
    var b := ParseInt(episodeCount);
    if b.None? {
      return None;
    }
    if b.value > 0 {
      return Some(true);
    }
    var c := ParseInt(shortCount);
    check := if c.None? then None else Some(c.value > 0);
  }

  /** `product_config` from the three raw strings; the short-video entry only for `others`/`twc`. */
  method MakeProductConfig(provider: string, product: string, movieCount: string, episodeCount: string, shortCount: string)
    returns (productConfig: ProductData)
    ensures productConfig.Keys == {FullMovie.RawName(), FullEpisode.RawName()}
                                  + (if SupportsShorts(provider, product) then {ShortVideo.RawName()} else {})
    ensures productConfig[FullMovie.RawName()] == movieCount && productConfig[FullEpisode.RawName()] == episodeCount
    ensures SupportsShorts(provider, product) ==> productConfig[ShortVideo.RawName()] == shortCount
  {
    productConfig := map[];
    productConfig := productConfig[FullMovie.RawName() := movieCount];
    productConfig := productConfig[FullEpisode.RawName() := episodeCount];
    if provider == OTHERS && product == TWC {
      productConfig := productConfig[ShortVideo.RawName() := shortCount];
    }
  }

  /**
   * The body of the product loop: the three fields read with default "0",
   * the configured test, and the `product_config` built from the raw strings.
   */
  method ReadProduct(form: FormData, provider: string, product: string) returns (productConfig: ProductData, check: Option<bool>)
    ensures check == ProductCheck(form, provider, product)
    ensures productConfig == ProductConfig(form, provider, product)
  {
    var movieCount := FieldOf(form, provider, product, FullMovie);
    var episodeCount := FieldOf(form, provider, product, FullEpisode);
    var shortCount := FieldOf(form, provider, product, ShortVideo);
    check := Configured(movieCount, episodeCount, shortCount);
    productConfig := MakeProductConfig(provider, product, movieCount, episodeCount, shortCount);
    ProductConfigIs(form, provider, product, productConfig);
  }

  /** A map with the keys and values of `product_config` is `product_config`. */
  lemma ProductConfigIs(form: FormData, p: string, x: string, c: ProductData)
    requires c.Keys == {FullMovie.RawName(), FullEpisode.RawName()} + (if SupportsShorts(p, x) then {ShortVideo.RawName()} else {})
    requires c[FullMovie.RawName()] == FieldOf(form, p, x, FullMovie) && c[FullEpisode.RawName()] == FieldOf(form, p, x, FullEpisode)
    requires SupportsShorts(p, x) ==> c[ShortVideo.RawName()] == FieldOf(form, p, x, ShortVideo)
    ensures c == ProductConfig(form, p, x)
  {
    var r := ProductConfig(form, p, x);
    assert forall k :: k in c ==> k == FullMovie.RawName() || k == FullEpisode.RawName() || k == ShortVideo.RawName();
  }

  /**
   * The product loop of one provider: `manual_configs[provider]` filled
   * product by product, and `provider_has_config` raised by any configured
   * product; `None` when a field is not a number.
   */
  method FillProvider(form: FormData, provider: string, products: seq<string>)
    returns (entries: seq<(string, ProductData)>, check: Option<bool>)
    ensures check == ProviderCheck(form, provider, products)
    ensures check.Some? ==> entries == Entries(form, provider, products)
  {
    entries := [];
    var hasConfig := false;
    for j := 0 to |products|
      invariant entries == Entries(form, provider, products[..j])
      invariant ProviderCheck(form, provider, products[..j]) == Some(hasConfig)
    {
      var product := products[j];
      var productConfig, c := ReadProduct(form, provider, product);
      ProviderCheckSnoc(form, provider, products, j);
      if c.None? {
        RaisesFrom(form, provider, products, j + 1);
        assert products[..|products|] == products;
        return entries, None;
      }
      if c.value {
        hasConfig := true;
      }
      EntriesSnoc(form, provider, products, j);
      entries := entries + [(product, productConfig)];
    }
    assert products[..|products|] == products;
    check := Some(hasConfig);
  }

  /** A raise in the first `n` products is a raise of the whole provider loop. */
  lemma RaisesFrom(form: FormData, p: string, xs: seq<string>, n: nat)
    requires n <= |xs| && ProviderCheck(form, p, xs[..n]).None?
    ensures ProviderCheck(form, p, xs).None?
  {
    var cs, ds := Checks(form, p, xs[..n]), Checks(form, p, xs);
    assert forall k :: 0 <= k < |cs| ==> ds[k] == cs[k];
    FlagNoneExtends(cs, ds);
  }

  /** A raise is final: extending the checks keeps the flag `None`. */
  lemma FlagNoneExtends(cs: seq<Option<bool>>, ds: seq<Option<bool>>)
    requires |cs| <= |ds| && (forall k :: 0 <= k < |cs| ==> ds[k] == cs[k]) && Flag(cs).None?
    ensures Flag(ds).None?
  {
    FlagMeaning(cs);
    FlagMeaning(ds);
    var k :| 0 <= k < |cs| && cs[k].None?;
    assert ds[k].None?;
  }

  /**
   * The form reconstruction of the `generate` route: the provider entry is
   * created, filled by the product loop, and deleted when its flag stays
   * down; a field that is not a number ends the step.
   */
  method ReconstructManual(form: FormData, available: seq<(string, seq<string>)>) returns (r: FormResult)
    ensures r == Outcome(form, available)
  {
    var configs: ManualConfig := [];
    for i := 0 to |available|
      invariant Reconstruct(form, available[..i]) == Some(configs)
    {
      var next, check := AddProvider(form, available[i].0, available[i].1, configs);
      if check.None? {
        RaisesAt(form, available, i);
        return NotAnInteger;
      }
      ProviderStep(form, available, i, configs, Entries(form, available[i].0, available[i].1), check.value);
      configs := next;
    }
    Finished(form, available, configs);
    r := if configs == [] then NothingEntered else Configs(configs);
  }

  /**
   * The loop body for one provider: an empty entry is inserted, filled with
   * the provider's products, and deleted again when its flag stays down.
   * So the provider's entry is appended exactly when its flag is raised.
   */
  method AddProvider(form: FormData, provider: string, products: seq<string>, configs: ManualConfig)
    returns (next: ManualConfig, check: Option<bool>)
    ensures check == ProviderCheck(form, provider, products)
    ensures check == Some(true) ==> next == configs + [(provider, Entries(form, provider, products))]
    ensures check == Some(false) ==> next == configs
  {
    next := configs + [(provider, [])];
    var entries;
    entries, check := FillProvider(form, provider, products);
    if check.Some? {
      next := next[|next| - 1 := (provider, entries)];
      ReplaceLast(configs, (provider, []), (provider, entries));
      if !check.value {
        next := next[..|next| - 1];
      }
    }
  }

  /** After the last provider the loop's dictionary decides the outcome. */
  lemma Finished(form: FormData, available: seq<(string, seq<string>)>, configs: ManualConfig)
    requires Reconstruct(form, available[..|available|]) == Some(configs)
    ensures Outcome(form, available) == if configs == [] then NothingEntered else Configs(configs)
  {
    assert available[..|available|] == available;
  }

  /** One provider more: its entry is appended when its flag is raised and left out otherwise. */
  lemma ProviderStep(form: FormData, available: seq<(string, seq<string>)>, i: nat, configs: ManualConfig,
                     entries: seq<(string, ProductData)>, keep: bool)
    requires i < |available| && Reconstruct(form, available[..i]) == Some(configs)
    requires ProviderCheck(form, available[i].0, available[i].1) == Some(keep)
    requires entries == Entries(form, available[i].0, available[i].1)
    ensures Reconstruct(form, available[..i + 1]) == Some(if keep then configs + [(available[i].0, entries)] else configs)
  {
    ReconstructSnoc(form, available, i);
  }

  /** A provider whose loop raises makes the whole form step raise. */
  lemma RaisesAt(form: FormData, available: seq<(string, seq<string>)>, i: nat)
    requires i < |available| && ProviderCheck(form, available[i].0, available[i].1).None?
    ensures Outcome(form, available) == NotAnInteger
  {
    ReconstructRaises(form, available);
  }
}
