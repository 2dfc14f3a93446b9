/**
 * The rows of one provider, row by row: what a `Generated` result says
 * about the row made for each slot, and the properties of the output that
 * follow from it — every row is its pair's template stamped with fresh
 * names, the episodes of one product share one series identity and are
 * numbered by their position, and every asset a row names is in the folder.
 */
module Results {
  import opened Options
  import opened Seqs
  import opened Text
  import opened Catalog
  import opened Naming
  import opened Files
  import opened Templates
  import opened Plan
  import opened Rows
  import opened Series
  import opened Generator

  /** A result has exactly one row per slot. */
  lemma {:induction false} GeneratedLength(rows: seq<Row>, bs: seq<BatchSpec>, slots: seq<Slot>, src: seq<Row>,
                                           metas: map<string, SeriesMeta>, provider: string, files: set<string>,
                                           draws: nat -> Uuid, date: string, lo: nat, hi: nat)
    requires |src| > 0 && Generated(rows, bs, slots, src, metas, provider, files, draws, date, lo, hi)
    ensures |rows| == |slots|
    decreases |bs|
  {
    if bs == [] {
      GeneratedNone(rows, slots, src, metas, provider, files, draws, date, lo, hi);
    } else {
      var b := bs[|bs| - 1];
      var rows', slots' := GeneratedLast(rows, bs, slots, src, metas, provider, files, draws, date, lo, hi);
      GeneratedLength(rows', bs[..|bs| - 1], slots', src, metas, provider, files, draws, date, lo, b.first);
    }
  }

  /**
   * The row made for slot `j`: the template of the slot's video type stamped
   * with names whose three assets are among `files`, with the registry's
   * series identity for an episode, and numbered by the slot.
   */
  lemma {:induction false} GeneratedRowAt(rows: seq<Row>, bs: seq<BatchSpec>, slots: seq<Slot>, src: seq<Row>,
                                          metas: map<string, SeriesMeta>, provider: string, files: set<string>,
                                          draws: nat -> Uuid, date: string, lo: nat, hi: nat, j: nat)
    returns (names: Names)
    requires |src| > 0 && Generated(rows, bs, slots, src, metas, provider, files, draws, date, lo, hi)
    requires j < |slots|
    ensures |rows| == |slots|
    ensures SelectTemplate(src, slots[j].v).Some?
    ensures slots[j].v == FullEpisode ==> SeriesKey(provider, slots[j].product) in metas
    ensures AssetsIn(names, files)
    ensures rows[j] == StampRow(SelectTemplate(src, slots[j].v).value, slots[j].product, slots[j].v, names,
                                MetaFor(metas, provider, slots[j].product, slots[j].v), slots[j].number)
    decreases |bs|
  {
    GeneratedLength(rows, bs, slots, src, metas, provider, files, draws, date, lo, hi);
    if bs == [] {
      GeneratedNone(rows, slots, src, metas, provider, files, draws, date, lo, hi);
    } else {
      var b := bs[|bs| - 1];
      var rows', slots' := GeneratedLast(rows, bs, slots, src, metas, provider, files, draws, date, lo, hi);
      GeneratedLength(rows', bs[..|bs| - 1], slots', src, metas, provider, files, draws, date, lo, b.first);
      if j < |slots'| {
        names := GeneratedRowAt(rows', bs[..|bs| - 1], slots', src, metas, provider, files, draws, date, lo, b.first, j);
        assert rows[j] == rows'[j] && slots[j] == slots'[j];
      } else {
        names := LastBatchRowAt(rows, rows', slots, slots', b, src, metas, provider, files, draws, date, j);
      }
    }
  }

  /** A slot of the last batch: its row is item `j - |slots'|` of that batch. */
  lemma LastBatchRowAt(rows: seq<Row>, rows': seq<Row>, slots: seq<Slot>, slots': seq<Slot>, b: BatchSpec,
                       src: seq<Row>, metas: map<string, SeriesMeta>, provider: string, files: set<string>,
                       draws: nat -> Uuid, date: string, j: nat)
    returns (names: Names)
    requires |src| > 0 && SpecFor(b, provider, src, metas) && WellTyped(b)
    requires BatchStocked(b, draws, date, b.size, files)
    requires rows == rows' + BatchRows(b, draws, date, b.size) && slots == slots' + Batch(b.product, b.v, b.size)
    requires |rows'| == |slots'| <= j < |slots|
    ensures SelectTemplate(src, slots[j].v).Some?
    ensures slots[j].v == FullEpisode ==> SeriesKey(provider, slots[j].product) in metas
    ensures AssetsIn(names, files)
    ensures rows[j] == StampRow(SelectTemplate(src, slots[j].v).value, slots[j].product, slots[j].v, names,
                                MetaFor(metas, provider, slots[j].product, slots[j].v), slots[j].number)
  {
    var k := j - |slots'|;
    names := ItemNames(b, draws, date, k);
    assert rows[j] == ItemRow(b, draws, date, k) by {
      IndexRight(rows', BatchRows(b, draws, date, b.size), j);
      BatchRowAt(b, draws, date, b.size, k);
    }
    assert slots[j] == Slot(b.product, b.v, k + 1) by {
      IndexRight(slots', Batch(b.product, b.v, b.size), j);
    }
    ItemRowMeaning(b, src, metas, provider, files, draws, date, k);
  }

  /** Item `k` of a batch made to its spec: its pair's template stamped with its names, which are among `files`. */
  lemma ItemRowMeaning(b: BatchSpec, src: seq<Row>, metas: map<string, SeriesMeta>, provider: string,
                       files: set<string>, draws: nat -> Uuid, date: string, k: nat)
    requires |src| > 0 && SpecFor(b, provider, src, metas) && WellTyped(b)
    requires BatchStocked(b, draws, date, b.size, files) && k < b.size
    ensures SelectTemplate(src, b.v).Some?
    ensures b.v == FullEpisode ==> SeriesKey(provider, b.product) in metas
    ensures AssetsIn(ItemNames(b, draws, date, k), files)
    ensures ItemRow(b, draws, date, k) == StampRow(SelectTemplate(src, b.v).value, b.product, b.v,
                                                   ItemNames(b, draws, date, k),
                                                   MetaFor(metas, provider, b.product, b.v), k + 1)
  {
  }

  /**
   * Every row keeps its template's columns and gains the item columns (and
   * the episode columns for an episode); its "Video Type" column is the
   * template's, which names the slot's type, and its "Programming Type" is
   * the type's label.
   */
  lemma RowColumns(rows: seq<Row>, bs: seq<BatchSpec>, slots: seq<Slot>, src: seq<Row>,
                   metas: map<string, SeriesMeta>, provider: string, files: set<string>,
                   draws: nat -> Uuid, date: string, lo: nat, hi: nat, j: nat)
    requires |src| > 0 && Generated(rows, bs, slots, src, metas, provider, files, draws, date, lo, hi)
    requires j < |slots|
    ensures |rows| == |slots| && SelectTemplate(src, slots[j].v).Some?
    ensures rows[j].Keys == SelectTemplate(src, slots[j].v).value.Keys + ITEM_FIELDS
                            + (if slots[j].v == FullEpisode then EPISODE_FIELDS else {})
    ensures VIDEO_TYPE_FIELD in rows[j] && HasType(rows[j], slots[j].v)
    ensures rows[j][PROGRAMMING_TYPE_FIELD] == slots[j].v.Label()
  {
    var names := GeneratedRowAt(rows, bs, slots, src, metas, provider, files, draws, date, lo, hi, j);
    var s := slots[j];
    var template := SelectTemplate(src, s.v).value;
    var meta := MetaFor(metas, provider, s.product, s.v);
    TemplateHasType(src, s.v);
    StampedColumns(template, s.product, s.v, names, meta, s.number);
    StampedCarryOver(template, s.product, s.v, names, meta, s.number);
    StampedIdentity(template, s.product, s.v, names, meta, s.number);
  }

  /**
   * Every row names the three assets of its own names, and they are in the
   * folder the rows were generated for.
   */
  lemma RowItemAssets(rows: seq<Row>, bs: seq<BatchSpec>, slots: seq<Slot>, src: seq<Row>,
                      metas: map<string, SeriesMeta>, provider: string, files: set<string>,
                      draws: nat -> Uuid, date: string, lo: nat, hi: nat, j: nat)
    requires |src| > 0 && Generated(rows, bs, slots, src, metas, provider, files, draws, date, lo, hi)
    requires j < |slots|
    ensures |rows| == |slots|
    ensures VIDEO_FILE_FIELD in rows[j] && LANDSCAPE_FIELD in rows[j] && POSTER_FIELD in rows[j]
    ensures rows[j][VIDEO_FILE_FIELD] in files && rows[j][LANDSCAPE_FIELD] in files && rows[j][POSTER_FIELD] in files
  {
    var names := GeneratedRowAt(rows, bs, slots, src, metas, provider, files, draws, date, lo, hi, j);
    var s := slots[j];
    StampedIdentity(SelectTemplate(src, s.v).value, s.product, s.v, names, MetaFor(metas, provider, s.product, s.v), s.number);
    StampedColumns(SelectTemplate(src, s.v).value, s.product, s.v, names, MetaFor(metas, provider, s.product, s.v), s.number);
  }

  /**
   * With the registry's images in the folder, every asset a row refers to —
   * its own three and, for an episode, its series' three — is a file of the
   * folder: the package the archive collects is complete.
   */
  lemma RowAssetsPresent(rows: seq<Row>, bs: seq<BatchSpec>, slots: seq<Slot>, src: seq<Row>,
                         metas: map<string, SeriesMeta>, provider: string, t: Tree, folder: string,
                         draws: nat -> Uuid, date: string, lo: nat, hi: nat, j: nat)
    requires |src| > 0 && Generated(rows, bs, slots, src, metas, provider, FilesIn(t, folder), draws, date, lo, hi)
    requires Stocked(metas, t, folder)
    requires j < |slots|
    ensures |rows| == |slots|
    ensures RowAssets(rows[j], slots[j].v) <= FilesIn(t, folder)
  {
    var names := GeneratedRowAt(rows, bs, slots, src, metas, provider, FilesIn(t, folder), draws, date, lo, hi, j);
    var s := slots[j];
    var meta := MetaFor(metas, provider, s.product, s.v);
    StampedAssets(SelectTemplate(src, s.v).value, s.product, s.v, names, meta, s.number);
    AssetsInIsSubset(names, FilesIn(t, folder));
  }

  /**
   * An episode row carries the series identity the registry holds for its
   * product in every shared series column, season number "1", and an
   * episode number that reads back as its slot's number.
   */
  lemma EpisodeRow(rows: seq<Row>, bs: seq<BatchSpec>, slots: seq<Slot>, src: seq<Row>,
                   metas: map<string, SeriesMeta>, provider: string, files: set<string>,
                   draws: nat -> Uuid, date: string, lo: nat, hi: nat, j: nat)
    requires |src| > 0 && Generated(rows, bs, slots, src, metas, provider, files, draws, date, lo, hi)
    requires j < |slots| && slots[j].v == FullEpisode
    ensures |rows| == |slots| && SeriesKey(provider, slots[j].product) in metas
    ensures rows[j].Keys >= EPISODE_FIELDS
    ensures forall f :: f in SHARED_SERIES_FIELDS ==> rows[j][f] == SeriesValue(metas[SeriesKey(provider, slots[j].product)], f)
    ensures rows[j][SEASON_NUMBER_FIELD] == "1"
    ensures ParseInt(rows[j][EPISODE_NUMBER_FIELD]) == Some(slots[j].number)
  {
    var names := GeneratedRowAt(rows, bs, slots, src, metas, provider, files, draws, date, lo, hi, j);
    var s := slots[j];
    var m := metas[SeriesKey(provider, s.product)];
    StampedEpisode(SelectTemplate(src, s.v).value, s.product, names, m, s.number);
    StampedColumns(SelectTemplate(src, s.v).value, s.product, s.v, names, Some(m), s.number);
  }

  /** Two episode rows of one product agree on every shared series column: one series, one season. */
  lemma EpisodesOfProductShareSeries(rows: seq<Row>, bs: seq<BatchSpec>, slots: seq<Slot>, src: seq<Row>,
                                     metas: map<string, SeriesMeta>, provider: string, files: set<string>,
                                     draws: nat -> Uuid, date: string, lo: nat, hi: nat, i: nat, j: nat)
    requires |src| > 0 && Generated(rows, bs, slots, src, metas, provider, files, draws, date, lo, hi)
    requires i < |slots| && j < |slots|
    requires slots[i].v == FullEpisode && slots[j].v == FullEpisode && slots[i].product == slots[j].product
    ensures |rows| == |slots|
    ensures forall f :: f in SHARED_SERIES_FIELDS ==> f in rows[i] && f in rows[j] && rows[i][f] == rows[j][f]
  {
    EpisodeRow(rows, bs, slots, src, metas, provider, files, draws, date, lo, hi, i);
    EpisodeRow(rows, bs, slots, src, metas, provider, files, draws, date, lo, hi, j);
  }
}
