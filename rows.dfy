/**
 * One generated row: a copy of the template with its identity and asset
 * columns overwritten from freshly generated names and, for an episode, the
 * series and season columns stamped from the shared series identity.
 */
module Rows {
  import opened Options
  import opened Text
  import opened Catalog
  import opened Naming

  /** The columns every generated row gets, whether or not the template had them. */
  const ITEM_FIELDS: set<string> := {TITLE_FIELD, PROGRAMMING_TYPE_FIELD, VIDEO_FILE_FIELD, LANDSCAPE_FIELD, POSTER_FIELD}

  /** The columns written only when the template already has them. */
  const OPTIONAL_FIELDS: set<string> := {PACKAGE_ID_FIELD, PRODUCTS_FIELD}

  /** The columns every episode of one series shares. */
  const SHARED_SERIES_FIELDS: set<string> := {
    SERIES_TITLE_FIELD, SERIES_DESCRIPTION_FIELD, SEASON_NUMBER_FIELD, SEASON_TITLE_FIELD, SEASON_DESCRIPTION_FIELD,
    SERIES_POSTER_FIELD, SERIES_LANDSCAPE_FIELD, SEASON_LANDSCAPE_FIELD}

  /** The columns an episode row gets on top of the item columns. */
  const EPISODE_FIELDS: set<string> := SHARED_SERIES_FIELDS + {EPISODE_NUMBER_FIELD}

  /** The value of column `f` of `r`, as a set with at most one element. */
  function ValueOf(r: Row, f: string): set<string> {
    if f in r then {r[f]} else {}
  }

  /** The asset file names a row of type `v` refers to: three per item, three more per episode. */
  function RowAssets(r: Row, v: VideoType): set<string> {
    ValueOf(r, VIDEO_FILE_FIELD) + ValueOf(r, LANDSCAPE_FIELD) + ValueOf(r, POSTER_FIELD)
      + if v == FullEpisode
        then ValueOf(r, SERIES_POSTER_FIELD) + ValueOf(r, SERIES_LANDSCAPE_FIELD) + ValueOf(r, SEASON_LANDSCAPE_FIELD)
        else {}
  }

  /** The value a series identity gives to one of the shared series columns. */
  function SeriesValue(m: SeriesMeta, f: string): string {
    if f == SERIES_TITLE_FIELD then m.names.title
    else if f == SERIES_DESCRIPTION_FIELD then m.names.shortDesc
    else if f == SEASON_NUMBER_FIELD then "1"
    else if f == SEASON_TITLE_FIELD then m.seasonTitle
    else if f == SEASON_DESCRIPTION_FIELD then m.seasonDesc
    else if f == SERIES_POSTER_FIELD then m.seriesPoster
    else if f == SERIES_LANDSCAPE_FIELD then m.seriesLandscape
    else m.seasonLandscape
  }

  /** The column names of equal length differ early on. */
  lemma FieldNamesDiffer()
    ensures SEASON_TITLE_FIELD != SERIES_TITLE_FIELD && SEASON_DESCRIPTION_FIELD != SERIES_DESCRIPTION_FIELD
    ensures SEASON_LANDSCAPE_FIELD != SERIES_LANDSCAPE_FIELD && PACKAGE_ID_FIELD != VIDEO_TYPE_FIELD
  {
    assert SEASON_TITLE_FIELD[2] != SERIES_TITLE_FIELD[2];
    assert SEASON_DESCRIPTION_FIELD[2] != SERIES_DESCRIPTION_FIELD[2];
    assert SEASON_LANDSCAPE_FIELD[2] != SERIES_LANDSCAPE_FIELD[2];
    assert PACKAGE_ID_FIELD[0] != VIDEO_TYPE_FIELD[0];
  }

  /** The item columns of one row: title, type label, asset names, and package id and product where present. */
  function StampItem(template: Row, product: string, v: VideoType, names: Names): (r: Row)
    ensures r.Keys == template.Keys + ITEM_FIELDS
    ensures forall k :: k in template && k !in ITEM_FIELDS + OPTIONAL_FIELDS ==> r[k] == template[k]
    ensures r[TITLE_FIELD] == names.title && r[PROGRAMMING_TYPE_FIELD] == v.Label()
    ensures r[VIDEO_FILE_FIELD] == names.video && r[LANDSCAPE_FIELD] == names.landscape && r[POSTER_FIELD] == names.portrait
    ensures PACKAGE_ID_FIELD in template ==> r[PACKAGE_ID_FIELD] == names.packageId
    ensures PRODUCTS_FIELD in template ==> r[PRODUCTS_FIELD] == product
  {
    FieldNamesDiffer();
    var r1 := template[TITLE_FIELD := names.title][PROGRAMMING_TYPE_FIELD := v.Label()]
                      [VIDEO_FILE_FIELD := names.video][LANDSCAPE_FIELD := names.landscape][POSTER_FIELD := names.portrait];
    var r2 := if PACKAGE_ID_FIELD in r1 then r1[PACKAGE_ID_FIELD := names.packageId] else r1;
    if PRODUCTS_FIELD in r2 then r2[PRODUCTS_FIELD := product] else r2
  }

  /** The episode columns: the series identity, season "1" and the episode number. */
  function StampEpisode(row: Row, m: SeriesMeta, number: nat): (r: Row)
    ensures r.Keys == row.Keys + EPISODE_FIELDS
    ensures forall k :: k in row && k !in EPISODE_FIELDS ==> r[k] == row[k]
    ensures forall f :: f in SHARED_SERIES_FIELDS ==> r[f] == SeriesValue(m, f)
    ensures r[EPISODE_NUMBER_FIELD] == NatToString(number)
  {
    FieldNamesDiffer();
    row[SERIES_TITLE_FIELD := m.names.title][SERIES_DESCRIPTION_FIELD := m.names.shortDesc]
       [SEASON_NUMBER_FIELD := "1"][SEASON_TITLE_FIELD := m.seasonTitle][SEASON_DESCRIPTION_FIELD := m.seasonDesc]
       [EPISODE_NUMBER_FIELD := NatToString(number)][SERIES_POSTER_FIELD := m.seriesPoster]
       [SERIES_LANDSCAPE_FIELD := m.seriesLandscape][SEASON_LANDSCAPE_FIELD := m.seasonLandscape]
  }

  /**
   * The body of the `for i in range(count)` loop for item number `number`
   * (`i + 1`): the template copy with its columns overwritten. `meta` is the
   * series identity, present exactly for episodes.
   */
  function StampRow(template: Row, product: string, v: VideoType, names: Names, meta: Option<SeriesMeta>, number: nat): Row
    requires meta.Some? <==> v == FullEpisode
  {
    match meta
    case None => StampItem(template, product, v, names)
    case Some(m) => StampEpisode(StampItem(template, product, v, names), m, number)
  }

  /**
   * A generated row has the template's columns plus the item columns, and
   * the episode columns for an episode; every other template column is
   * copied unchanged.
   */
  lemma StampedColumns(template: Row, product: string, v: VideoType, names: Names, meta: Option<SeriesMeta>, number: nat)
    requires meta.Some? <==> v == FullEpisode
    ensures var r := StampRow(template, product, v, names, meta, number);
            && r.Keys == template.Keys + ITEM_FIELDS + (if v == FullEpisode then EPISODE_FIELDS else {})
            && forall k :: k in template && k !in ITEM_FIELDS + OPTIONAL_FIELDS + EPISODE_FIELDS ==> r[k] == template[k]
  {
  }

  /** The item, optional and episode columns are three disjoint groups, and none is "Video Type". */
  lemma FieldGroupsDisjoint()
    ensures ITEM_FIELDS !! EPISODE_FIELDS && OPTIONAL_FIELDS !! EPISODE_FIELDS && ITEM_FIELDS !! OPTIONAL_FIELDS
    ensures VIDEO_TYPE_FIELD !in ITEM_FIELDS + OPTIONAL_FIELDS + EPISODE_FIELDS
  {
    FieldNamesDiffer();
  }

  /** A generated row carries the item's own title, type label and asset names. */
  lemma StampedIdentity(template: Row, product: string, v: VideoType, names: Names, meta: Option<SeriesMeta>, number: nat)
    requires meta.Some? <==> v == FullEpisode
    ensures var r := StampRow(template, product, v, names, meta, number);
            && r[TITLE_FIELD] == names.title
            && r[PROGRAMMING_TYPE_FIELD] == v.Label()
            && r[VIDEO_FILE_FIELD] == names.video
            && r[LANDSCAPE_FIELD] == names.landscape
            && r[POSTER_FIELD] == names.portrait
  {
    FieldGroupsDisjoint();
    var i := StampItem(template, product, v, names);
    assert forall k :: k in ITEM_FIELDS ==> k in i && StampRow(template, product, v, names, meta, number)[k] == i[k];
  }

  /**
   * Package id and product are written only where the template has the
   * column; the "Video Type" column is the template's.
   */
  lemma StampedCarryOver(template: Row, product: string, v: VideoType, names: Names, meta: Option<SeriesMeta>, number: nat)
    requires meta.Some? <==> v == FullEpisode
    ensures var r := StampRow(template, product, v, names, meta, number);
            && (PACKAGE_ID_FIELD in r <==> PACKAGE_ID_FIELD in template)
            && (PACKAGE_ID_FIELD in template ==> r[PACKAGE_ID_FIELD] == names.packageId)
            && (PRODUCTS_FIELD in r <==> PRODUCTS_FIELD in template)
            && (PRODUCTS_FIELD in template ==> r[PRODUCTS_FIELD] == product)
            && (VIDEO_TYPE_FIELD in r <==> VIDEO_TYPE_FIELD in template)
            && (VIDEO_TYPE_FIELD in template ==> r[VIDEO_TYPE_FIELD] == template[VIDEO_TYPE_FIELD])
  {
    FieldGroupsDisjoint();
    var i := StampItem(template, product, v, names);
    assert forall k :: k in i && k !in EPISODE_FIELDS ==> StampRow(template, product, v, names, meta, number)[k] == i[k];
  }

  /**
   * An episode row carries its series identity in every shared series
   * column, season number "1", and an episode number that reads back as its
   * position in the batch.
   */
  lemma StampedEpisode(template: Row, product: string, names: Names, m: SeriesMeta, number: nat)
    ensures var r := StampRow(template, product, FullEpisode, names, Some(m), number);
            && (forall f :: f in SHARED_SERIES_FIELDS ==> r[f] == SeriesValue(m, f))
            && r[SEASON_NUMBER_FIELD] == "1"
            && ParseInt(r[EPISODE_NUMBER_FIELD]) == Some(number)
  {
    ParseIntOfNatToString(number);
  }

  /** Two episodes stamped from one series identity agree on every shared series column. */
  lemma EpisodesShareSeries(t1: Row, x1: string, n1: Names, k1: nat, t2: Row, x2: string, n2: Names, k2: nat, m: SeriesMeta)
    ensures forall f :: f in SHARED_SERIES_FIELDS ==>
              StampRow(t1, x1, FullEpisode, n1, Some(m), k1)[f] == StampRow(t2, x2, FullEpisode, n2, Some(m), k2)[f]
  {
    StampedEpisode(t1, x1, n1, m, k1);
    StampedEpisode(t2, x2, n2, m, k2);
  }

  lemma StampedItemAssets(template: Row, product: string, v: VideoType, names: Names, meta: Option<SeriesMeta>, number: nat)
    requires meta.Some? <==> v == FullEpisode
    ensures var r := StampRow(template, product, v, names, meta, number);
            ValueOf(r, VIDEO_FILE_FIELD) + ValueOf(r, LANDSCAPE_FIELD) + ValueOf(r, POSTER_FIELD) == ItemAssets(names)
  {
    StampedIdentity(template, product, v, names, meta, number);
  }

  lemma StampedSeriesAssets(template: Row, product: string, names: Names, m: SeriesMeta, number: nat)
    ensures var r := StampRow(template, product, FullEpisode, names, Some(m), number);
            ValueOf(r, SERIES_POSTER_FIELD) + ValueOf(r, SERIES_LANDSCAPE_FIELD) + ValueOf(r, SEASON_LANDSCAPE_FIELD) == SeriesAssets(m)
  {
    StampedEpisode(template, product, names, m, number);
    assert SERIES_POSTER_FIELD in SHARED_SERIES_FIELDS && SERIES_LANDSCAPE_FIELD in SHARED_SERIES_FIELDS;
    assert SEASON_LANDSCAPE_FIELD in SHARED_SERIES_FIELDS;
  }

  /** The asset files a generated row names are the item's three, plus the series' three for an episode. */
  lemma StampedAssets(template: Row, product: string, v: VideoType, names: Names, meta: Option<SeriesMeta>, number: nat)
    requires meta.Some? <==> v == FullEpisode
    ensures RowAssets(StampRow(template, product, v, names, meta, number), v)
         == ItemAssets(names) + (if v == FullEpisode then SeriesAssets(meta.value) else {})
  {
    StampedItemAssets(template, product, v, names, meta, number);
    if v == FullEpisode {
      StampedSeriesAssets(template, product, names, meta.value, number);
    }
  }
}
