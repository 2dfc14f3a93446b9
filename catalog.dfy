/**
 * The fixed vocabulary of the generator: providers and their products,
 * the three video types, the count-table keys, the CSV column names the
 * generator writes and the canonical media files it copies.
 */
module Catalog {
  import opened Options
  import opened Text

  /** One CSV record: column name to value, as `csv.DictReader` yields it. */
  type Row = map<string, string>

  const OTHERS: string := "others"
  const WARNERBROS: string := "warnerbros"
  const TWC: string := "twc"

  /** The providers that have a source table (`SOURCE_CSV_PATHS`), in order. */
  const PROVIDERS: seq<string> := [OTHERS, WARNERBROS]

  /**
   * Providers with their products, in order. The generator (`provider_products`)
   * and the web form (`AVAILABLE_PROVIDERS`) each spell out this same table.
   */
  const CATALOG: seq<(string, seq<string>)> := [(OTHERS, ["localnow", TWC, "hbcugo"]), (WARNERBROS, ["localnow"])]

  datatype VideoType = FullMovie | FullEpisode | ShortVideo {
    /** The label written to the "Programming Type" column and matched against "Video Type". */
    function Label(): string {
      match this
      case FullMovie => "Full Movie"
      case FullEpisode => "Full Episode"
      case ShortVideo => "Short Video"
    }

    /** The count-table prefix, as the configuration step writes it literally. */
    function RawName(): string {
      match this
      case FullMovie => "full_movie"
      case FullEpisode => "full_episode"
      case ShortVideo => "short_video"
    }

    /** The prefix handed to the name generator for one item of this type. */
    function NamePrefix(): string {
      match this
      case FullMovie => "Movie"
      case FullEpisode => "Episode"
      case ShortVideo => "Short"
    }
  }

  /** The order in which the row loop visits the video types. */
  const VIDEO_TYPES: seq<VideoType> := [FullMovie, FullEpisode, ShortVideo]

  /** Only the `others`/`twc` pair carries short videos; every pair carries movies and episodes. */
  predicate SupportsShorts(provider: string, product: string) {
    provider == OTHERS && product == TWC
  }

  predicate Offered(v: VideoType, provider: string, product: string) {
    v != ShortVideo || SupportsShorts(provider, product)
  }

  /** The count-table key the row loop computes: `vtype.lower().replace(' ', '_')`. */
  function LookupName(v: VideoType): string {
    ReplaceChar(Lower(v.Label()), ' ', '_')
  }

  /** The key the row loop looks up is the key the configuration step wrote. */
  lemma LookupNameIsRawName(v: VideoType)
    ensures LookupName(v) == v.RawName()
  {
    var s := LookupName(v);
    match v
    case FullMovie =>
      assert s == ['f', 'u', 'l', 'l', '_', 'm', 'o', 'v', 'i', 'e'];
    case FullEpisode =>
      assert s == ['f', 'u', 'l', 'l', '_', 'e', 'p', 'i', 's', 'o', 'd', 'e'];
    case ShortVideo =>
      assert s == ['s', 'h', 'o', 'r', 't', '_', 'v', 'i', 'd', 'e', 'o'];
  }

  /** Reads a count-table key back into its parts; defined for keys of catalogued providers. */
  ghost function DecodeCountKey(k: string): Option<(VideoType, string, string)> {
    if |k| < 6 then None
    else
      var v := if k[0] == 's' then ShortVideo else if k[5] == 'm' then FullMovie else FullEpisode;
      var n := |v.RawName()| + 1;
      if |k| <= n then None
      else
        var p := if k[n] == 'o' then OTHERS else WARNERBROS;
        var m := n + |p| + 1;
        if |k| < m then None else Some((v, p, k[m..]))
  }

  /** The flat count key `f"{vtype_raw}_{provider}_{product}"`. */
  function CountKey(v: VideoType, provider: string, product: string): string {
    v.RawName() + "_" + provider + "_" + product
  }

  /** For a catalogued provider the count key can be read back into its three parts. */
  lemma CountKeyRoundTrip(v: VideoType, provider: string, product: string)
    requires provider in PROVIDERS
    ensures DecodeCountKey(CountKey(v, provider, product)) == Some((v, provider, product))
  {
    var prefix := v.RawName() + "_" + provider + "_";
    assert CountKey(v, provider, product) == prefix + product;
    assert |prefix| == |v.RawName()| + |provider| + 2;
    assert (prefix + product)[|prefix|..] == product;
  }

  /** So two different triples of a catalogued provider never share a count key. */
  lemma CountKeyInjective(v: VideoType, p: string, x: string, w: VideoType, q: string, y: string)
    requires p in PROVIDERS && q in PROVIDERS
    requires CountKey(v, p, x) == CountKey(w, q, y)
    ensures v == w && p == q && x == y
  {
    CountKeyRoundTrip(v, p, x);
    CountKeyRoundTrip(w, q, y);
  }

  /** The series-registry key `f"{provider}_{product}"`. */
  function SeriesKey(provider: string, product: string): (k: string)
    ensures |k| == |provider| + 1 + |product| && k[|provider| + 1..] == product
  {
    var k := provider + "_" + product;
    assert k[|provider| + 1..] == product;
    k
  }

  // Columns the row loop writes.
  const VIDEO_TYPE_FIELD: string := "Video Type"
  const TITLE_FIELD: string := "Movie / Episode Title"
  const PROGRAMMING_TYPE_FIELD: string := "Programming Type"
  const VIDEO_FILE_FIELD: string := "Movie/Episode Video File Name (including extension)"
  const LANDSCAPE_FIELD: string := "Movie / Episode Landscape Image Name (including extension)"
  const POSTER_FIELD: string := "Movie Poster Image Name (including extension)"
  const PACKAGE_ID_FIELD: string := "package_id"
  const PRODUCTS_FIELD: string := "products"
  const SERIES_TITLE_FIELD: string := "Series Title"
  const SERIES_DESCRIPTION_FIELD: string := "Series Description"
  const SEASON_NUMBER_FIELD: string := "Season Number"
  const SEASON_TITLE_FIELD: string := "Season Title"
  const SEASON_DESCRIPTION_FIELD: string := "Season Description"
  const EPISODE_NUMBER_FIELD: string := "Episode Number"
  const SERIES_POSTER_FIELD: string := "Series Poster Image Name (including extension)"
  const SERIES_LANDSCAPE_FIELD: string := "Series Landscape Image Name (including extension)"
  const SEASON_LANDSCAPE_FIELD: string := "Season Landscape Image Name (including extension)"

  // The canonical media files in the source media directory.
  const LANDSCAPE_IMAGE: string := "encode-aes2805-2-16x9.jpg"
  const PORTRAIT_IMAGE: string := "encode-aes2805-1-2x3.jpg"
  const VIDEO_FILE: string := "encode-aes2805-2.mp4"
}
