/**
 * Generated names: the per-item name set of `generate_common_names`, the
 * shared series/season identity, and the source of randomness they draw on.
 * Randomness and the date are inputs here: `Entropy` hands out the values
 * `uuid.uuid4()` would return, in order, and the date string is passed in.
 */
module Naming {
  import opened Text

  /** One value of `uuid.uuid4()`: its `.hex` and its `str()` forms. */
  datatype Uuid = Uuid(hex: string, text: string)

  /** Python's `s[-n:]`: the last `n` characters, and all of `s` when `n` is zero (`-0` is `0`). */
  function Tail(s: string, n: nat): string {
    if n == 0 || |s| <= n then s else s[|s| - n..]
  }

  /** Python's `s[:n]`. */
  function Head(s: string, n: nat): string {
    if |s| <= n then s else s[..n]
  }

  /** The dictionary `generate_common_names` returns. */
  datatype Names = Names(
    title: string,
    shortDesc: string,
    longDesc: string,
    video: string,
    landscape: string,
    portrait: string,
    packageId: string)

  predicate HasPrefix(s: string, p: string) {
    |p| <= |s| && s[..|p|] == p
  }

  /** The three asset files one generated item refers to. */
  function ItemAssets(n: Names): set<string> {
    {n.video, n.landscape, n.portrait}
  }

  /**
   * `generate_common_names(prefix)` for a given date string and random
   * suffixes `uid4`, `uid6` and package id.
   */
  function CommonNames(prefix: string, date: string, uid4: string, uid6: string, packageId: string): Names {
    var base := "Test-Mops-" + prefix + "-" + date + "-" + uid4;
    var stem := "mops-test-" + Lower(prefix) + "-";
    Names(base, "Description of " + base, "Short Description of " + base,
          stem + uid6 + ".mp4", stem + "16x9-" + uid6 + ".jpg", stem + "2x3-" + uid6 + ".jpg", packageId)
  }

  /**
   * The three asset names of one item are pairwise different, so each item
   * copies three files, and all of them start with "mops-test-".
   */
  lemma CommonNamesAssets(prefix: string, date: string, uid4: string, uid6: string, packageId: string)
    ensures var r := CommonNames(prefix, date, uid4, uid6, packageId);
            && r.video != r.landscape && r.video != r.portrait && r.landscape != r.portrait
            && HasPrefix(r.video, "mops-test-") && HasPrefix(r.landscape, "mops-test-") && HasPrefix(r.portrait, "mops-test-")
            && |ItemAssets(r)| == 3
  {
    var stem := "mops-test-" + Lower(prefix) + "-";
    var video := stem + uid6 + ".mp4";
    var landscape := stem + "16x9-" + uid6 + ".jpg";
    var portrait := stem + "2x3-" + uid6 + ".jpg";
    assert video[|video| - 1] == '4' && landscape[|landscape| - 1] == 'g' && portrait[|portrait| - 1] == 'g';
    assert landscape[|stem|] == '1' && portrait[|stem|] == '2';
    assert video[..10] == landscape[..10] == portrait[..10] == stem[..10] == "mops-test-";
  }

  /** The shared identity of one series: the meta dictionary of the series registry. */
  datatype SeriesMeta = SeriesMeta(
    names: Names,
    seasonTitle: string,
    seasonDesc: string,
    seriesPoster: string,
    seriesLandscape: string,
    seasonLandscape: string)

  /** The three asset files one series refers to. */
  function SeriesAssets(m: SeriesMeta): set<string> {
    {m.seriesPoster, m.seriesLandscape, m.seasonLandscape}
  }

  /** The series meta built from `generate_common_names("Series")`, a season suffix and a series suffix. */
  function MakeSeriesMeta(date: string, names: Names, seasonUid: string, seriesUid: string): SeriesMeta {
    var seasonTitle := "Test-Mops-Season-" + date + "-" + seasonUid;
    SeriesMeta(names, seasonTitle, "Description of " + seasonTitle, "test-mops-series-2x3-" + seriesUid + ".jpg",
               "test-mops-series-16x9-" + seriesUid + ".jpg", "test-mops-season-16x9-" + seriesUid + ".jpg")
  }

  /** The three series images are pairwise different and start with "test-mops-". */
  lemma SeriesMetaAssets(date: string, names: Names, seasonUid: string, seriesUid: string)
    ensures var m := MakeSeriesMeta(date, names, seasonUid, seriesUid);
            && |SeriesAssets(m)| == 3
            && forall f :: f in SeriesAssets(m) ==> HasPrefix(f, "test-mops-")
  {
    var poster := "test-mops-series-2x3-" + seriesUid + ".jpg";
    var seriesLandscape := "test-mops-series-16x9-" + seriesUid + ".jpg";
    var seasonLandscape := "test-mops-season-16x9-" + seriesUid + ".jpg";
    assert poster[17] == '2' && seriesLandscape[17] == '1';
    assert poster[12] == 'r' && seriesLandscape[12] == 'r' && seasonLandscape[12] == 'a';
    assert poster[..10] == seriesLandscape[..10] == seasonLandscape[..10] == "test-mops-";
  }

  /** An item's assets and a series' assets never share a name, whatever the random suffixes. */
  lemma ItemAndSeriesAssetsDisjoint(prefix: string, date: string, uid4: string, uid6: string, packageId: string,
                                    series: Names, seasonUid: string, seriesUid: string)
    ensures ItemAssets(CommonNames(prefix, date, uid4, uid6, packageId))
         !! SeriesAssets(MakeSeriesMeta(date, series, seasonUid, seriesUid))
  {
    var item := ItemAssets(CommonNames(prefix, date, uid4, uid6, packageId));
    var shared := SeriesAssets(MakeSeriesMeta(date, series, seasonUid, seriesUid));
    CommonNamesAssets(prefix, date, uid4, uid6, packageId);
    SeriesMetaAssets(date, series, seasonUid, seriesUid);
    forall p, q | p in item && q in shared
      ensures p != q
    {
      assert p[..10] == "mops-test-" && q[..10] == "test-mops-";
      assert p[0] == 'm' && q[0] == 't';
    }
  }

  /**
   * The stream of random values: `draws(k)` is what the k-th call to
   * `uuid.uuid4()` in this process returns, and `used` counts the calls made.
   */
  class Entropy {
    const draws: nat -> Uuid
    var used: nat

    constructor (draws: nat -> Uuid)
      ensures this.draws == draws && used == 0
    {
      this.draws := draws;
      used := 0;
    }

    method Uuid4() returns (u: Uuid)
      modifies this
      ensures u == draws(old(used)) && used == old(used) + 1
    {
      u := draws(used);
      used := used + 1;
    }

    /** `random_id(n)`: the last `n` hex digits of a fresh uuid. */
    method RandomId(n: nat) returns (s: string)
      modifies this
      ensures s == Tail(draws(old(used)).hex, n) && used == old(used) + 1
    {
      var u := Uuid4();
      s := Tail(u.hex, n);
    }
  }

  /** The names `generate_common_names(prefix)` builds from the draws at positions `u`, `u + 1` and `u + 2`. */
  function NamesAt(draws: nat -> Uuid, u: nat, prefix: string, date: string): Names {
    CommonNames(prefix, date, Tail(draws(u).hex, 4), Tail(draws(u + 1).hex, 6), draws(u + 2).text)
  }

  /** `generate_common_names(prefix)`: three draws, in the order the source makes them. */
  method GenerateCommonNames(rng: Entropy, prefix: string, date: string) returns (names: Names)
    modifies rng
    ensures rng.used == old(rng.used) + 3
    ensures names == NamesAt(rng.draws, old(rng.used), prefix, date)
  {
    var uid4 := rng.RandomId(4);
    var uid6 := rng.RandomId(6);
    var pkg := rng.Uuid4();
    names := CommonNames(prefix, date, uid4, uid6, pkg.text);
  }
}
