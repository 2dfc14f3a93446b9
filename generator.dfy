/**
 * The row loop of `run_generation` for one provider: for each product, for
 * each video type, look up the count, pick the template, look up or create
 * the series identity for episodes, then generate `count` rows, copying
 * each row's assets into the provider folder before appending it.
 */
module Generator {
  import opened Options
  import opened Seqs
  import opened Text
  import opened Catalog
  import opened Naming
  import opened Files
  import opened Config
  import opened Templates
  import opened Plan
  import opened Rows
  import opened Series

  /** The exceptions that abort a run. */
  datatype Fault =
    | AssetMissing         // FileNotFoundError from a media copy
    | CountNotInteger      // ValueError from `int(...)` on a count string
    | NoVideoTypeColumn    // KeyError from `r["Video Type"]` in the template search

  /** The item's three asset files are among `files`. */
  predicate AssetsIn(names: Names, files: set<string>) {
    names.video in files && names.landscape in files && names.portrait in files
  }

  lemma AssetsInIsSubset(names: Names, files: set<string>)
    ensures AssetsIn(names, files) <==> ItemAssets(names) <= files
  {
  }

  // ----- One batch -----

  /**
   * What one `for i in range(count)` loop is made from: the template, the
   * pair, the series identity (for episodes), the draw position of its
   * first item's names, and the number of rows it makes.
   */
  datatype BatchSpec = BatchSpec(template: Row, product: string, v: VideoType, meta: Option<SeriesMeta>, first: nat, size: nat)

  /** The series identity is there exactly for an episode batch. */
  predicate WellTyped(b: BatchSpec) {
    b.meta.Some? <==> b.v == FullEpisode
  }

  /** The names of item `k`: `generate_common_names` on the draws `first + 3k` .. `first + 3k + 2`. */
  function ItemNames(b: BatchSpec, draws: nat -> Uuid, date: string, k: nat): Names {
    NamesAt(draws, b.first + 3 * k, b.v.NamePrefix(), date)
  }

  /** Row `k` of the batch: the template stamped with item `k`'s names and numbered `k + 1`. */
  function ItemRow(b: BatchSpec, draws: nat -> Uuid, date: string, k: nat): Row
    requires WellTyped(b)
  {
    StampRow(b.template, b.product, b.v, ItemNames(b, draws, date, k), b.meta, k + 1)
  }

  /** The first `n` rows of the batch. */
  function BatchRows(b: BatchSpec, draws: nat -> Uuid, date: string, n: nat): (r: seq<Row>)
    requires WellTyped(b)
    ensures |r| == n
  {
    seq(n, k requires 0 <= k < n => ItemRow(b, draws, date, k))
  }

  /** Row `k` of the batch is item `k`'s row. */
  lemma BatchRowAt(b: BatchSpec, draws: nat -> Uuid, date: string, n: nat, k: nat)
    requires WellTyped(b) && k < n
    ensures BatchRows(b, draws, date, n)[k] == ItemRow(b, draws, date, k)
  {
  }

  /** One more pass of the row loop appends the next item's row. */
  lemma BatchRowsSnoc(b: BatchSpec, draws: nat -> Uuid, date: string, n: nat)
    requires WellTyped(b)
    ensures BatchRows(b, draws, date, n + 1) == BatchRows(b, draws, date, n) + [ItemRow(b, draws, date, n)]
  {
    var r, r' := BatchRows(b, draws, date, n), BatchRows(b, draws, date, n + 1);
    assert forall k :: 0 <= k < n ==> r'[k] == r[k];
    Snoc(r, r', ItemRow(b, draws, date, n));
  }

  /** The first `n` items of the batch have their three assets among `files`. */
  ghost predicate BatchStocked(b: BatchSpec, draws: nat -> Uuid, date: string, n: nat, files: set<string>) {
    forall k :: 0 <= k < n ==> AssetsIn(ItemNames(b, draws, date, k), files)
  }

  lemma BatchStockedStep(b: BatchSpec, draws: nat -> Uuid, date: string, n: nat, files: set<string>, files': set<string>)
    requires BatchStocked(b, draws, date, n, files) && files <= files'
    requires AssetsIn(ItemNames(b, draws, date, n), files')
    ensures BatchStocked(b, draws, date, n + 1, files')
  {
  }

  /** Row `k` is the template stamped with the names of draws `first + 3k` .. and number `k + 1`. */
  lemma ItemRowIs(b: BatchSpec, draws: nat -> Uuid, date: string, k: nat, template: Row, product: string, v: VideoType,
                  names: Names, meta: Option<SeriesMeta>, number: nat)
    requires b.template == template && b.product == product && b.v == v && b.meta == meta && WellTyped(b)
    requires names == ItemNames(b, draws, date, k) && number == k + 1
    ensures ItemRow(b, draws, date, k) == StampRow(template, product, v, names, meta, number)
  {
    assert ItemRow(b, draws, date, k) == StampRow(b.template, b.product, b.v, names, b.meta, k + 1);
  }

  /**
   * The stamping half of one pass of the row loop: fresh names from three
   * draws, then the template copy with its columns overwritten.
   */
  method NextRow(product: string, v: VideoType, template: Row, meta: Option<SeriesMeta>, number: nat,
                 rng: Entropy, date: string, ghost b: BatchSpec, ghost k: nat)
    returns (row: Row, names: Names)
    requires b.template == template && b.product == product && b.v == v && b.meta == meta
    requires meta.Some? <==> v == FullEpisode
    requires rng.used == b.first + 3 * k && number == k + 1
    modifies rng
    ensures rng.used == old(rng.used) + 3 && names == ItemNames(b, rng.draws, date, k)
    ensures row == ItemRow(b, rng.draws, date, k)
  {
    names := GenerateCommonNames(rng, v.NamePrefix(), date);
    ItemRowIs(b, rng.draws, date, k, template, product, v, names, meta, number);
    row := StampRow(template, product, v, names, meta, number);
  }

  /**
   * One pass of the row loop: the row is stamped, then the item's assets
   * are copied (into the folder, created first). It fails exactly when a
   * canonical media file is missing; on success the item's assets are in
   * the folder.
   */
  method MaterialiseRow(product: string, v: VideoType, template: Row, meta: Option<SeriesMeta>, number: nat,
                        folder: string, out: OutputTree, rng: Entropy, date: string, ghost b: BatchSpec, ghost k: nat)
    returns (row: Row, ok: bool)
    requires b.template == template && b.product == product && b.v == v && b.meta == meta
    requires meta.Some? <==> v == FullEpisode
    requires rng.used == b.first + 3 * k && number == k + 1
    modifies out, rng
    ensures rng.used == old(rng.used) + 3
    ensures row == ItemRow(b, rng.draws, date, k)
    ensures Grows(old(out.folders), out.folders, folder)
    ensures ok <==> CANONICAL_MEDIA <= out.media
    ensures ok ==> AssetsIn(ItemNames(b, rng.draws, date, k), FilesIn(out.folders, folder))
  {
    var names;
    row, names := NextRow(product, v, template, meta, number, rng, date, b, k);
    ok := out.CopyAssets(folder, names);
    AssetsInIsSubset(names, FilesIn(out.folders, folder));
  }

  /**
   * The `for i in range(count)` loop: `count` rows numbered from 1, each
   * stamped from its own three fresh draws, each with its assets copied.
   * It fails (the copy raises) exactly when it has rows to make and a
   * canonical media file is missing.
   */
  method GenerateBatch(product: string, v: VideoType, count: int, template: Row, meta: Option<SeriesMeta>,
                       folder: string, out: OutputTree, rng: Entropy, date: string)
    returns (rows: seq<Row>, ok: bool, ghost b: BatchSpec)
    requires meta.Some? <==> v == FullEpisode
    modifies out, rng
    ensures b == BatchSpec(template, product, v, meta, old(rng.used), if count > 0 then count else 0)
    ensures Grows(old(out.folders), out.folders, folder) && old(rng.used) <= rng.used
    ensures ok <==> count <= 0 || CANONICAL_MEDIA <= out.media
    ensures ok ==>
              && rng.used == old(rng.used) + 3 * b.size
              && rows == BatchRows(b, rng.draws, date, b.size)
              && BatchStocked(b, rng.draws, date, b.size, FilesIn(out.folders, folder))
  {
    b := BatchSpec(template, product, v, meta, rng.used, if count > 0 then count else 0);
    rows := [];
    ok := true;
    var i := 0;
    while i < count
      invariant 0 <= i <= b.size
      invariant rng.used == old(rng.used) + 3 * i
      invariant Grows(old(out.folders), out.folders, folder)
      invariant rows == BatchRows(b, rng.draws, date, i)
      invariant BatchStocked(b, rng.draws, date, i, FilesIn(out.folders, folder))
      invariant i > 0 ==> CANONICAL_MEDIA <= out.media
    {
      ghost var before := out.folders;
      var row;
      row, ok := MaterialiseRow(product, v, template, meta, i + 1, folder, out, rng, date, b, i);
      if !ok {
        return;
      }
      GrowsTransitive(old(out.folders), before, out.folders, folder);
      BatchStockedStep(b, rng.draws, date, i, FilesIn(before, folder), FilesIn(out.folders, folder));
      BatchRowsSnoc(b, rng.draws, date, i);
      rows := rows + [row];
      i := i + 1;
    }
  }

  // ----- The batches of one provider -----

  /** The series identity a batch of `v` for `product` is stamped with: the registry's, for episodes. */
  function MetaFor(metas: map<string, SeriesMeta>, provider: string, product: string, v: VideoType): (r: Option<SeriesMeta>)
    requires v == FullEpisode ==> SeriesKey(provider, product) in metas
    ensures r.Some? <==> v == FullEpisode
  {
    if v == FullEpisode then Some(metas[SeriesKey(provider, product)]) else None
  }

  /**
   * A batch is made from the template for its video type and, for episodes,
   * from the registry's identity for its product.
   */
  ghost predicate SpecFor(b: BatchSpec, provider: string, src: seq<Row>, metas: map<string, SeriesMeta>)
    requires |src| > 0
  {
    && SelectTemplate(src, b.v) == Some(b.template)
    && (b.v == FullEpisode ==> SeriesKey(provider, b.product) in metas)
    && b.meta == MetaFor(metas, provider, b.product, b.v)
  }

  /**
   * What the row loop has produced for `slots`: `rows` are the rows of the
   * batches `bs`, in order, each batch made from the right template and
   * series identity and filling the next stretch of `slots`, each item from
   * its own fresh draws between `lo` and `hi`, every item asset among
   * `files`. `Generated` and `BatchesGenerated` are one recursion over the
   * batches, last batch first; the split lets a caller hold the whole
   * result as the single fact `Generated`.
   */
  ghost predicate Generated(rows: seq<Row>, bs: seq<BatchSpec>, slots: seq<Slot>, src: seq<Row>,
                            metas: map<string, SeriesMeta>, provider: string, files: set<string>,
                            draws: nat -> Uuid, date: string, lo: nat, hi: nat)
    requires |src| > 0
    decreases |bs|, 1
  {
    BatchesGenerated(rows, bs, slots, src, metas, provider, files, draws, date, lo, hi)
  }

  ghost predicate BatchesGenerated(rows: seq<Row>, bs: seq<BatchSpec>, slots: seq<Slot>, src: seq<Row>,
                                   metas: map<string, SeriesMeta>, provider: string, files: set<string>,
                                   draws: nat -> Uuid, date: string, lo: nat, hi: nat)
    requires |src| > 0
    decreases |bs|, 0
  {
    if bs == [] then rows == [] && slots == []
    else
      var b := bs[|bs| - 1];
      && b.size <= |rows| && b.size <= |slots|
      && SpecFor(b, provider, src, metas) && WellTyped(b)
      && lo <= b.first && b.first + 3 * b.size <= hi
      && rows[|rows| - b.size..] == BatchRows(b, draws, date, b.size)
      && slots[|slots| - b.size..] == Batch(b.product, b.v, b.size)
      && BatchStocked(b, draws, date, b.size, files)
      && Generated(rows[..|rows| - b.size], bs[..|bs| - 1], slots[..|slots| - b.size], src, metas, provider, files,
                   draws, date, lo, b.first)
  }

  /** The registry only gains entries. */
  predicate Extends(m0: map<string, SeriesMeta>, m1: map<string, SeriesMeta>) {
    forall k :: k in m0 ==> k in m1 && m1[k] == m0[k]
  }

  /** Storing under a new key extends the registry by exactly that key. */
  lemma StoreExtends(m: map<string, SeriesMeta>, key: string, value: SeriesMeta)
    requires key !in m
    ensures m[key := value].Keys == m.Keys + {key} && Extends(m, m[key := value]) && m[key := value][key] == value
  {
  }

  /** Nothing has been produced before the first pass. */
  lemma GeneratedEmpty(src: seq<Row>, metas: map<string, SeriesMeta>, provider: string, files: set<string>,
                       draws: nat -> Uuid, date: string, lo: nat, hi: nat)
    requires |src| > 0
    ensures Generated([], [], [], src, metas, provider, files, draws, date, lo, hi)
  {
    assert BatchesGenerated([], [], [], src, metas, provider, files, draws, date, lo, hi);
  }

  /** A result without batches has no rows and fills no slots. */
  lemma GeneratedNone(rows: seq<Row>, slots: seq<Slot>, src: seq<Row>, metas: map<string, SeriesMeta>, provider: string,
                      files: set<string>, draws: nat -> Uuid, date: string, lo: nat, hi: nat)
    requires |src| > 0 && Generated(rows, [], slots, src, metas, provider, files, draws, date, lo, hi)
    ensures rows == [] && slots == []
  {
    assert BatchesGenerated(rows, [], slots, src, metas, provider, files, draws, date, lo, hi);
  }

  /**
   * A result extended by one more batch, made from its pair's template and
   * series identity from draws after those of the result.
   */
  lemma GeneratedSnoc(rows: seq<Row>, bs: seq<BatchSpec>, slots: seq<Slot>, b: BatchSpec, src: seq<Row>,
                      metas: map<string, SeriesMeta>, provider: string, files: set<string>,
                      draws: nat -> Uuid, date: string, lo: nat, hi: nat)
    requires |src| > 0 && SpecFor(b, provider, src, metas) && WellTyped(b)
    requires Generated(rows, bs, slots, src, metas, provider, files, draws, date, lo, b.first)
    requires BatchStocked(b, draws, date, b.size, files) && lo <= b.first && b.first + 3 * b.size <= hi
    ensures Generated(rows + BatchRows(b, draws, date, b.size), bs + [b], slots + Batch(b.product, b.v, b.size),
                      src, metas, provider, files, draws, date, lo, hi)
  {
    var rows', bs', slots' := rows + BatchRows(b, draws, date, b.size), bs + [b], slots + Batch(b.product, b.v, b.size);
    AppendParts(rows, BatchRows(b, draws, date, b.size));
    AppendParts(bs, [b]);
    AppendParts(slots, Batch(b.product, b.v, b.size));
    assert BatchesGenerated(rows', bs', slots', src, metas, provider, files, draws, date, lo, hi);
  }

  /** A result with at least one batch is the result for the earlier batches followed by the last one. */
  lemma GeneratedLast(rows: seq<Row>, bs: seq<BatchSpec>, slots: seq<Slot>, src: seq<Row>,
                      metas: map<string, SeriesMeta>, provider: string, files: set<string>,
                      draws: nat -> Uuid, date: string, lo: nat, hi: nat)
    returns (rows': seq<Row>, slots': seq<Slot>)
    requires |src| > 0 && bs != []
    requires Generated(rows, bs, slots, src, metas, provider, files, draws, date, lo, hi)
    ensures var b := bs[|bs| - 1];
            && SpecFor(b, provider, src, metas) && WellTyped(b)
            && BatchStocked(b, draws, date, b.size, files) && lo <= b.first && b.first + 3 * b.size <= hi
            && rows == rows' + BatchRows(b, draws, date, b.size) && slots == slots' + Batch(b.product, b.v, b.size)
            && Generated(rows', bs[..|bs| - 1], slots', src, metas, provider, files, draws, date, lo, b.first)
  {
    assert BatchesGenerated(rows, bs, slots, src, metas, provider, files, draws, date, lo, hi);
    var b := bs[|bs| - 1];
    rows', slots' := rows[..|rows| - b.size], slots[..|slots| - b.size];
    SplitAt(rows, |rows| - b.size);
    SplitAt(slots, |slots| - b.size);
  }

  /** Later registry entries, later files and a wider draw range do not invalidate what was produced. */
  lemma {:induction false} GeneratedGrows(rows: seq<Row>, bs: seq<BatchSpec>, slots: seq<Slot>, src: seq<Row>,
                                          metas: map<string, SeriesMeta>, metas': map<string, SeriesMeta>,
                                          provider: string, files: set<string>, files': set<string>,
                                          draws: nat -> Uuid, date: string, lo: nat, hi: nat, lo': nat, hi': nat)
    requires |src| > 0 && Extends(metas, metas') && files <= files' && lo' <= lo && hi <= hi'
    requires Generated(rows, bs, slots, src, metas, provider, files, draws, date, lo, hi)
    ensures Generated(rows, bs, slots, src, metas', provider, files', draws, date, lo', hi')
    decreases |bs|
  {
    if bs == [] {
      assert BatchesGenerated(rows, bs, slots, src, metas, provider, files, draws, date, lo, hi);
      GeneratedEmpty(src, metas', provider, files', draws, date, lo', hi');
    } else {
      var b := bs[|bs| - 1];
      var rows0, slots0 := GeneratedLast(rows, bs, slots, src, metas, provider, files, draws, date, lo, hi);
      GeneratedGrows(rows0, bs[..|bs| - 1], slots0, src, metas, metas', provider, files, files', draws, date,
                     lo, b.first, lo', b.first);
      assert SpecFor(b, provider, src, metas');
      GeneratedSnoc(rows0, bs[..|bs| - 1], slots0, b, src, metas', provider, files', draws, date, lo', hi');
      ButLastAndLast(bs);
    }
  }

  /** Results for consecutive stretches of slots, from consecutive draw ranges, combine. */
  lemma {:induction false} GeneratedAppend(r1: seq<Row>, b1: seq<BatchSpec>, s1: seq<Slot>,
                                           r2: seq<Row>, b2: seq<BatchSpec>, s2: seq<Slot>,
                                           src: seq<Row>, metas: map<string, SeriesMeta>, provider: string,
                                           files: set<string>, draws: nat -> Uuid, date: string,
                                           lo: nat, mid: nat, hi: nat)
    requires |src| > 0 && lo <= mid <= hi
    requires Generated(r1, b1, s1, src, metas, provider, files, draws, date, lo, mid)
    requires Generated(r2, b2, s2, src, metas, provider, files, draws, date, mid, hi)
    ensures Generated(r1 + r2, b1 + b2, s1 + s2, src, metas, provider, files, draws, date, lo, hi)
    decreases |b2|
  {
    if b2 == [] {
      assert BatchesGenerated(r2, b2, s2, src, metas, provider, files, draws, date, mid, hi);
      assert r1 + r2 == r1 && b1 + b2 == b1 && s1 + s2 == s1;
      GeneratedGrows(r1, b1, s1, src, metas, metas, provider, files, files, draws, date, lo, mid, lo, hi);
    } else {
      var b := b2[|b2| - 1];
      var r2', s2' := GeneratedLast(r2, b2, s2, src, metas, provider, files, draws, date, mid, hi);
      GeneratedAppend(r1, b1, s1, r2', b2[..|b2| - 1], s2', src, metas, provider, files, draws, date, lo, mid, b.first);
      GeneratedSnoc(r1 + r2', b1 + b2[..|b2| - 1], s1 + s2', b, src, metas, provider, files, draws, date, lo, hi);
      Reassociate(r1, r2', BatchRows(b, draws, date, b.size));
      Reassociate(s1, s2', Batch(b.product, b.v, b.size));
      Reassociate(b1, b2[..|b2| - 1], [b]);
      ButLastAndLast(b2);
    }
  }

  /** A result for the slots so far, extended by the result of the next pass. */
  lemma GeneratedExtend(r1: seq<Row>, b1: seq<BatchSpec>, s1: seq<Slot>, r2: seq<Row>, b2: seq<BatchSpec>, s2: seq<Slot>,
                        src: seq<Row>, m0: map<string, SeriesMeta>, m1: map<string, SeriesMeta>, provider: string,
                        f0: set<string>, f1: set<string>, draws: nat -> Uuid, date: string, lo: nat, mid: nat, hi: nat)
    requires |src| > 0 && lo <= mid <= hi && Extends(m0, m1) && f0 <= f1
    requires Generated(r1, b1, s1, src, m0, provider, f0, draws, date, lo, mid)
    requires Generated(r2, b2, s2, src, m1, provider, f1, draws, date, mid, hi)
    ensures Generated(r1 + r2, b1 + b2, s1 + s2, src, m1, provider, f1, draws, date, lo, hi)
  {
    GeneratedGrows(r1, b1, s1, src, m0, m1, provider, f0, f1, draws, date, lo, mid, lo, mid);
    GeneratedAppend(r1, b1, s1, r2, b2, s2, src, m1, provider, f1, draws, date, lo, mid, hi);
  }

  lemma StockedGrows(metas: map<string, SeriesMeta>, t0: Tree, t1: Tree, folder: string)
    requires Stocked(metas, t0, folder) && FilesIn(t0, folder) <= FilesIn(t1, folder)
    ensures Stocked(metas, t1, folder)
  {
  }

  // ----- One (product, video type) pair -----

  /**
   * The pair runs through without raising: it is skipped (not offered, or a
   * zero count), or its template exists, the series images can be copied
   * for an episode batch, and the item media can be copied when there are
   * rows to make.
   */
  predicate TypeSucceeds(src: seq<Row>, provider: string, product: string, v: VideoType, counts: CountTable, media: set<string>)
    requires |src| > 0
  {
    var c := Count(counts, v, provider, product);
    || !Offered(v, provider, product)
    || c == 0
    || (&& SelectTemplate(src, v).Some?
        && (v == FullEpisode ==> PORTRAIT_IMAGE in media && LANDSCAPE_IMAGE in media)
        && (c > 0 ==> CANONICAL_MEDIA <= media))
  }

  /** The registry gains the pair's series exactly when it is an episode pair with a non-zero count. */
  function NewSeries(provider: string, product: string, v: VideoType, counts: CountTable): set<string> {
    if v == FullEpisode && Count(counts, v, provider, product) != 0 then {SeriesKey(provider, product)} else {}
  }

  /**
   * The first episode request of a pair: a new series identity from five
   * fresh draws, stored once its three images are in the folder.
   */
  method NewSeriesFor(provider: string, product: string, folder: string, out: OutputTree, reg: SeriesRegistry,
                      rng: Entropy, date: string)
    returns (meta: Option<SeriesMeta>)
    requires SeriesKey(provider, product) !in reg.meta
    requires Stocked(reg.meta, out.folders, folder)
    modifies out, reg, rng
    ensures Grows(old(out.folders), out.folders, folder) && rng.used == old(rng.used) + 5
    ensures meta.Some? <==> PORTRAIT_IMAGE in out.media && LANDSCAPE_IMAGE in out.media
    ensures meta.Some? ==>
              && reg.meta.Keys == old(reg.meta).Keys + {SeriesKey(provider, product)}
              && Extends(old(reg.meta), reg.meta)
              && reg.meta[SeriesKey(provider, product)] == SeriesAt(rng.draws, old(rng.used), date)
    ensures meta.None? ==> reg.meta == old(reg.meta)
    ensures Stocked(reg.meta, out.folders, folder)
  {
    meta := reg.LookupOrCreate(SeriesKey(provider, product), folder, out, rng, date);
    if meta.Some? {
      StoreExtends(old(reg.meta), SeriesKey(provider, product), meta.value);
      LookupKeepsStock(old(reg.meta), old(out.folders), reg.meta, out.folders, folder, SeriesKey(provider, product),
                       meta.value, out.media);
    }
  }

  /** `range(count)` is `range(max(count, 0))`. */
  lemma BatchClamp(product: string, v: VideoType, count: int)
    ensures Batch(product, v, count) == Batch(product, v, if count > 0 then count else 0)
  {
  }

  /** A single batch, made from its pair's template and series identity, is a `Generated` result for its slots. */
  lemma GeneratedSingle(rows: seq<Row>, b: BatchSpec, src: seq<Row>, metas: map<string, SeriesMeta>, provider: string,
                        files: set<string>, draws: nat -> Uuid, date: string, lo: nat, hi: nat)
    requires |src| > 0 && SpecFor(b, provider, src, metas)
    requires rows == BatchRows(b, draws, date, b.size) && BatchStocked(b, draws, date, b.size, files)
    requires lo <= b.first && b.first + 3 * b.size <= hi
    ensures Generated(rows, [b], Batch(b.product, b.v, b.size), src, metas, provider, files, draws, date, lo, hi)
  {
    GeneratedEmpty(src, metas, provider, files, draws, date, lo, b.first);
    GeneratedSnoc([], [], [], b, src, metas, provider, files, draws, date, lo, hi);
    assert [] + rows == rows && [] + [b] == [b];
  }

  /** The batch of a pair whose template and series identity are settled. */
  method GenerateRows(provider: string, product: string, v: VideoType, count: int, src: seq<Row>, template: Row,
                      metas: map<string, SeriesMeta>, folder: string, out: OutputTree, rng: Entropy, date: string)
    returns (rows: seq<Row>, ok: bool, ghost bs: seq<BatchSpec>)
    requires |src| > 0 && SelectTemplate(src, v) == Some(template)
    requires v == FullEpisode ==> SeriesKey(provider, product) in metas
    requires Stocked(metas, out.folders, folder)
    modifies out, rng
    ensures Grows(old(out.folders), out.folders, folder) && old(rng.used) <= rng.used
    ensures Stocked(metas, out.folders, folder)
    ensures ok <==> count <= 0 || CANONICAL_MEDIA <= out.media
    ensures ok ==> Generated(rows, bs, Batch(product, v, count), src, metas, provider, FilesIn(out.folders, folder),
                             rng.draws, date, old(rng.used), rng.used)
  {
    var meta := MetaFor(metas, provider, product, v);
    ghost var b;
    rows, ok, b := GenerateBatch(product, v, count, template, meta, folder, out, rng, date);
    StockedGrows(metas, old(out.folders), out.folders, folder);
    bs := [b];
    if ok {
      BatchClamp(product, v, count);
      GeneratedSingle(rows, b, src, metas, provider, FilesIn(out.folders, folder), rng.draws, date, old(rng.used), rng.used);
    }
  }

  /**
   * A pair whose template is found: get the series identity for episodes,
   * then make the batch. The only exception left is a failing media copy.
   */
  method GenerateFrom(provider: string, product: string, v: VideoType, count: int, src: seq<Row>, template: Row,
                      folder: string, out: OutputTree, reg: SeriesRegistry, rng: Entropy, date: string)
    returns (rows: seq<Row>, fault: Option<Fault>, ghost bs: seq<BatchSpec>)
    requires |src| > 0 && SelectTemplate(src, v) == Some(template)
    requires v == FullEpisode ==> SeriesKey(provider, product) !in reg.meta
    requires Stocked(reg.meta, out.folders, folder)
    modifies out, reg, rng
    ensures Grows(old(out.folders), out.folders, folder) && old(rng.used) <= rng.used
    ensures Extends(old(reg.meta), reg.meta) && Stocked(reg.meta, out.folders, folder)
    ensures v != FullEpisode ==> reg.meta == old(reg.meta)
    ensures fault.None? <==>
              && (v == FullEpisode ==> PORTRAIT_IMAGE in out.media && LANDSCAPE_IMAGE in out.media)
              && (count > 0 ==> CANONICAL_MEDIA <= out.media)
    ensures fault.Some? ==> fault == Some(AssetMissing) && !(CANONICAL_MEDIA <= out.media)
    ensures fault.None? ==>
              reg.meta.Keys == old(reg.meta).Keys + (if v == FullEpisode then {SeriesKey(provider, product)} else {})
    ensures fault.None? && v == FullEpisode ==>
              reg.meta[SeriesKey(provider, product)] == SeriesAt(rng.draws, old(rng.used), date)
    ensures fault.None? ==> Generated(rows, bs, Batch(product, v, count), src, reg.meta, provider,
                                      FilesIn(out.folders, folder), rng.draws, date, old(rng.used), rng.used)
  {
    if v == FullEpisode {
      var meta := NewSeriesFor(provider, product, folder, out, reg, rng, date);
      if meta.None? {
        return [], Some(AssetMissing), [];
      }
    }
    ghost var t1, u1 := out.folders, rng.used;
    var ok;
    rows, ok, bs := GenerateRows(provider, product, v, count, src, template, reg.meta, folder, out, rng, date);
    GrowsTransitive(old(out.folders), t1, out.folders, folder);
    if ok {
      GeneratedGrows(rows, bs, Batch(product, v, count), src, reg.meta, reg.meta, provider, FilesIn(out.folders, folder),
                     FilesIn(out.folders, folder), rng.draws, date, u1, rng.used, old(rng.used), rng.used);
    }
    fault := if ok then None else Some(AssetMissing);
  }

  /** A pair with a non-zero count: find the template, then generate from it. */
  method GeneratePair(provider: string, product: string, v: VideoType, count: int, src: seq<Row>,
                      folder: string, out: OutputTree, reg: SeriesRegistry, rng: Entropy, date: string)
    returns (rows: seq<Row>, fault: Option<Fault>, ghost bs: seq<BatchSpec>)
    requires |src| > 0
    requires v == FullEpisode ==> SeriesKey(provider, product) !in reg.meta
    requires Stocked(reg.meta, out.folders, folder)
    modifies out, reg, rng
    ensures Grows(old(out.folders), out.folders, folder) && old(rng.used) <= rng.used
    ensures Extends(old(reg.meta), reg.meta) && Stocked(reg.meta, out.folders, folder)
    ensures v != FullEpisode ==> reg.meta == old(reg.meta)
    ensures fault.None? <==>
              && SelectTemplate(src, v).Some?
              && (v == FullEpisode ==> PORTRAIT_IMAGE in out.media && LANDSCAPE_IMAGE in out.media)
              && (count > 0 ==> CANONICAL_MEDIA <= out.media)
    ensures fault == Some(NoVideoTypeColumn) ==> SelectTemplate(src, v).None?
    ensures fault == Some(AssetMissing) ==> !(CANONICAL_MEDIA <= out.media)
    ensures fault.None? ==>
              reg.meta.Keys == old(reg.meta).Keys + (if v == FullEpisode then {SeriesKey(provider, product)} else {})
    ensures fault.None? && v == FullEpisode ==>
              reg.meta[SeriesKey(provider, product)] == SeriesAt(rng.draws, old(rng.used), date)
    ensures fault.None? ==> Generated(rows, bs, Batch(product, v, count), src, reg.meta, provider,
                                      FilesIn(out.folders, folder), rng.draws, date, old(rng.used), rng.used)
  {
    var template := SelectTemplate(src, v);
    if template.None? {
      return [], Some(NoVideoTypeColumn), [];
    }
    rows, fault, bs := GenerateFrom(provider, product, v, count, src, template.value, folder, out, reg, rng, date);
  }

  /**
   * One pass of the `for vtype` loop. Raising is `fault`: a missing
   * "Video Type" column, or a media copy that fails. Without a fault the
   * rows are those of the pair's slots, stamped from its template (and,
   * for episodes, from the one series identity created for the pair), each
   * drawn from its own fresh uuids, and every asset they name is on disk.
   */
  method GenerateType(provider: string, product: string, v: VideoType, counts: CountTable, src: seq<Row>,
                      folder: string, out: OutputTree, reg: SeriesRegistry, rng: Entropy, date: string)
    returns (rows: seq<Row>, fault: Option<Fault>, ghost bs: seq<BatchSpec>)
    requires |src| > 0
    requires v == FullEpisode ==> SeriesKey(provider, product) !in reg.meta
    requires Stocked(reg.meta, out.folders, folder)
    modifies out, reg, rng
    ensures Grows(old(out.folders), out.folders, folder) && old(rng.used) <= rng.used
    ensures Extends(old(reg.meta), reg.meta) && Stocked(reg.meta, out.folders, folder)
    ensures v != FullEpisode ==> reg.meta == old(reg.meta)
    ensures fault.None? <==> TypeSucceeds(src, provider, product, v, counts, out.media)
    ensures fault == Some(NoVideoTypeColumn) ==> SelectTemplate(src, v).None?
    ensures fault == Some(AssetMissing) ==> !(CANONICAL_MEDIA <= out.media)
    ensures fault.None? ==> reg.meta.Keys == old(reg.meta).Keys + NewSeries(provider, product, v, counts)
    ensures fault.None? ==> Generated(rows, bs, TypeSlots(provider, product, v, counts), src, reg.meta, provider,
                                      FilesIn(out.folders, folder), rng.draws, date, old(rng.used), rng.used)
  {
    rows, fault, bs := [], None, [];
    if v == ShortVideo && !SupportsShorts(provider, product) {
      return;
    }
    LookupNameIsRawName(v);
    var key := LookupName(v) + "_" + provider + "_" + product;
    assert key == CountKey(v, provider, product);
    var count := if key in counts then counts[key] else 0;
    if count == 0 {
      return;
    }
    rows, fault, bs := GeneratePair(provider, product, v, count, src, folder, out, reg, rng, date);
  }

  // ----- One product, one provider -----

  /** The slots of the video types `vs` of one product, in order. */
  function TypesSlots(provider: string, product: string, vs: seq<VideoType>, counts: CountTable): seq<Slot> {
    if vs == [] then []
    else TypesSlots(provider, product, vs[..|vs| - 1], counts) + TypeSlots(provider, product, vs[|vs| - 1], counts)
  }

  lemma TypesSlotsSnoc(provider: string, product: string, vs: seq<VideoType>, i: nat, counts: CountTable)
    requires i < |vs|
    ensures TypesSlots(provider, product, vs[..i + 1], counts)
         == TypesSlots(provider, product, vs[..i], counts) + TypeSlots(provider, product, vs[i], counts)
  {
    assert vs[..i + 1][..i] == vs[..i];
  }

  /** The first two video types visited are movie and episode. */
  lemma TypesSlotsFirstTwo(provider: string, product: string, counts: CountTable)
    ensures TypesSlots(provider, product, VIDEO_TYPES[..2], counts)
         == TypeSlots(provider, product, FullMovie, counts) + TypeSlots(provider, product, FullEpisode, counts)
  {
    assert VIDEO_TYPES[..0] == [];
    TypesSlotsSnoc(provider, product, VIDEO_TYPES, 0, counts);
    assert TypesSlots(provider, product, VIDEO_TYPES[..1], counts) == TypeSlots(provider, product, FullMovie, counts);
    TypesSlotsSnoc(provider, product, VIDEO_TYPES, 1, counts);
  }

  /** Visiting movie, episode and short in this order yields the product's slots. */
  lemma TypesSlotsAll(provider: string, product: string, counts: CountTable)
    ensures TypesSlots(provider, product, VIDEO_TYPES, counts) == ProductSlots(provider, product, counts)
  {
    TypesSlotsFirstTwo(provider, product, counts);
    TypesSlotsSnoc(provider, product, VIDEO_TYPES, 2, counts);
    assert VIDEO_TYPES[..3] == VIDEO_TYPES;
  }

  /** Every pass of the `for vtype` loop of one product runs through. */
  predicate ProductSucceeds(src: seq<Row>, provider: string, product: string, counts: CountTable, media: set<string>)
    requires |src| > 0
  {
    forall v :: TypeSucceeds(src, provider, product, v, counts, media)
  }

  /** The passes for the video types `vs` run through. */
  predicate TypesSucceed(src: seq<Row>, provider: string, product: string, vs: seq<VideoType>, counts: CountTable,
                         media: set<string>)
    requires |src| > 0
  {
    vs == [] || (TypesSucceed(src, provider, product, vs[..|vs| - 1], counts, media)
                 && TypeSucceeds(src, provider, product, vs[|vs| - 1], counts, media))
  }

  lemma TypesSucceedSnoc(src: seq<Row>, provider: string, product: string, vs: seq<VideoType>, i: nat,
                         counts: CountTable, media: set<string>)
    requires |src| > 0 && i < |vs|
    ensures TypesSucceed(src, provider, product, vs[..i + 1], counts, media)
        <==> TypesSucceed(src, provider, product, vs[..i], counts, media)
             && TypeSucceeds(src, provider, product, vs[i], counts, media)
  {
    assert vs[..i + 1][..i] == vs[..i];
  }

  /** The three video types are the only ones, so passing all three is the product's success. */
  lemma TypesSucceedAll(src: seq<Row>, provider: string, product: string, counts: CountTable, media: set<string>)
    requires |src| > 0
    ensures TypesSucceed(src, provider, product, VIDEO_TYPES, counts, media)
        <==> ProductSucceeds(src, provider, product, counts, media)
  {
    TypesSucceedSnoc(src, provider, product, VIDEO_TYPES, 0, counts, media);
    TypesSucceedSnoc(src, provider, product, VIDEO_TYPES, 1, counts, media);
    TypesSucceedSnoc(src, provider, product, VIDEO_TYPES, 2, counts, media);
    assert VIDEO_TYPES[..0] == [] && VIDEO_TYPES[..3] == VIDEO_TYPES;
    if TypesSucceed(src, provider, product, VIDEO_TYPES, counts, media) {
      forall v
        ensures TypeSucceeds(src, provider, product, v, counts, media)
      {
        match v
        case FullMovie => assert v == VIDEO_TYPES[0];
        case FullEpisode => assert v == VIDEO_TYPES[1];
        case ShortVideo => assert v == VIDEO_TYPES[2];
      }
    }
  }

  /** The series the first `i` passes of a product's loop add: the episode pass is the second. */
  function SeriesAfter(provider: string, product: string, i: nat, counts: CountTable): set<string> {
    if i >= 2 then NewSeries(provider, product, FullEpisode, counts) else {}
  }

  /** Pass `i` adds the series of `VIDEO_TYPES[i]` to those of the passes before it. */
  lemma SeriesAfterStep(provider: string, product: string, i: nat, counts: CountTable,
                        k0: set<string>, k: set<string>, k1: set<string>)
    requires i < |VIDEO_TYPES|
    requires k == k0 + SeriesAfter(provider, product, i, counts)
    requires k1 == k + NewSeries(provider, product, VIDEO_TYPES[i], counts)
    ensures k1 == k0 + SeriesAfter(provider, product, i + 1, counts)
  {
  }

  /**
   * Pass `i` of the `for vtype` loop of one product, read against the state
   * the passes before it left (`t0`, `meta0` and `lo` being the folder tree,
   * registry and draw count before the first pass): it either raises, which
   * ends the product, or extends the result to the slots of the first
   * `i + 1` video types.
   */
  method ProductStep(provider: string, product: string, i: nat, counts: CountTable, src: seq<Row>,
                     folder: string, out: OutputTree, reg: SeriesRegistry, rng: Entropy, date: string,
                     ghost rows: seq<Row>, ghost bs: seq<BatchSpec>,
                     ghost t0: Tree, ghost meta0: map<string, SeriesMeta>, ghost lo: nat)
    returns (r: seq<Row>, fault: Option<Fault>, ghost b: seq<BatchSpec>)
    requires |src| > 0 && i < |VIDEO_TYPES| && lo <= rng.used
    requires SeriesKey(provider, product) !in meta0
    requires Grows(t0, out.folders, folder)
    requires Extends(meta0, reg.meta) && Stocked(reg.meta, out.folders, folder)
    requires reg.meta.Keys == meta0.Keys + SeriesAfter(provider, product, i, counts)
    requires TypesSucceed(src, provider, product, VIDEO_TYPES[..i], counts, out.media)
    requires Generated(rows, bs, TypesSlots(provider, product, VIDEO_TYPES[..i], counts), src, reg.meta, provider,
                       FilesIn(out.folders, folder), rng.draws, date, lo, rng.used)
    modifies out, reg, rng
    ensures Grows(t0, out.folders, folder) && lo <= rng.used
    ensures Extends(meta0, reg.meta) && Stocked(reg.meta, out.folders, folder)
    ensures fault.Some? ==> !ProductSucceeds(src, provider, product, counts, out.media)
    ensures fault == Some(NoVideoTypeColumn) ==> exists v :: SelectTemplate(src, v).None?
    ensures fault == Some(AssetMissing) ==> !(CANONICAL_MEDIA <= out.media)
    ensures fault.None? ==> reg.meta.Keys == meta0.Keys + SeriesAfter(provider, product, i + 1, counts)
    ensures fault.None? ==> TypesSucceed(src, provider, product, VIDEO_TYPES[..i + 1], counts, out.media)
    ensures fault.None? ==>
              Generated(rows + r, bs + b, TypesSlots(provider, product, VIDEO_TYPES[..i + 1], counts), src, reg.meta,
                        provider, FilesIn(out.folders, folder), rng.draws, date, lo, rng.used)
  {
    var v := VIDEO_TYPES[i];
    ghost var t1 := out.folders;
    r, fault, b := GenerateType(provider, product, v, counts, src, folder, out, reg, rng, date);
    GrowsTransitive(t0, t1, out.folders, folder);
    TypesSucceedSnoc(src, provider, product, VIDEO_TYPES, i, counts, out.media);
    if fault.None? {
      GeneratedExtend(rows, bs, TypesSlots(provider, product, VIDEO_TYPES[..i], counts), r, b,
                      TypeSlots(provider, product, v, counts), src, old(reg.meta), reg.meta, provider,
                      FilesIn(old(out.folders), folder), FilesIn(out.folders, folder), rng.draws, date,
                      lo, old(rng.used), rng.used);
      TypesSlotsSnoc(provider, product, VIDEO_TYPES, i, counts);
      SeriesAfterStep(provider, product, i, counts, meta0.Keys, old(reg.meta).Keys, reg.meta.Keys);
    }
  }

  /**
   * The `for vtype` loop of one product. It stops at the first pass that
   * raises; without a fault every type succeeded, the registry gained the
   * product's series if it has episodes, and the rows are those of the
   * product's slots.
   */
  method GenerateProduct(provider: string, product: string, counts: CountTable, src: seq<Row>,
                         folder: string, out: OutputTree, reg: SeriesRegistry, rng: Entropy, date: string)
    returns (rows: seq<Row>, fault: Option<Fault>, ghost bs: seq<BatchSpec>)
    requires |src| > 0
    requires SeriesKey(provider, product) !in reg.meta
    requires Stocked(reg.meta, out.folders, folder)
    modifies out, reg, rng
    ensures Grows(old(out.folders), out.folders, folder) && old(rng.used) <= rng.used
    ensures Extends(old(reg.meta), reg.meta) && Stocked(reg.meta, out.folders, folder)
    ensures fault.None? <==> ProductSucceeds(src, provider, product, counts, out.media)
    ensures fault == Some(NoVideoTypeColumn) ==> exists v :: SelectTemplate(src, v).None?
    ensures fault == Some(AssetMissing) ==> !(CANONICAL_MEDIA <= out.media)
    ensures fault.None? ==> reg.meta.Keys == old(reg.meta).Keys + NewSeries(provider, product, FullEpisode, counts)
    ensures fault.None? ==> Generated(rows, bs, ProductSlots(provider, product, counts), src, reg.meta, provider,
                                      FilesIn(out.folders, folder), rng.draws, date, old(rng.used), rng.used)
  {
    rows, fault, bs := [], None, [];
    GeneratedEmpty(src, reg.meta, provider, FilesIn(out.folders, folder), rng.draws, date, rng.used, rng.used);
    var i := 0;
    while i < |VIDEO_TYPES|
      invariant 0 <= i <= |VIDEO_TYPES|
      invariant Grows(old(out.folders), out.folders, folder) && old(rng.used) <= rng.used
      invariant Extends(old(reg.meta), reg.meta) && Stocked(reg.meta, out.folders, folder)
      invariant reg.meta.Keys == old(reg.meta).Keys + SeriesAfter(provider, product, i, counts)
      invariant fault.None? && TypesSucceed(src, provider, product, VIDEO_TYPES[..i], counts, out.media)
      invariant Generated(rows, bs, TypesSlots(provider, product, VIDEO_TYPES[..i], counts), src, reg.meta, provider,
                          FilesIn(out.folders, folder), rng.draws, date, old(rng.used), rng.used)
    {
      var r;
      ghost var b := [];
      r, fault, b := ProductStep(provider, product, i, counts, src, folder, out, reg, rng, date, rows, bs,
                                 old(out.folders), old(reg.meta), old(rng.used));
      if fault.Some? {
        return;
      }
      rows, bs := rows + r, bs + b;
      i := i + 1;
    }
    ProductDone(provider, product, counts, src, out.media, rows, bs, old(reg.meta).Keys, reg.meta,
                FilesIn(out.folders, folder), rng.draws, date, old(rng.used), rng.used);
  }

  /** After the last pass the video types are all of them: the product's slots, series and success. */
  lemma ProductDone(provider: string, product: string, counts: CountTable, src: seq<Row>, media: set<string>,
                    rows: seq<Row>, bs: seq<BatchSpec>, keys0: set<string>, meta: map<string, SeriesMeta>,
                    files: set<string>, draws: nat -> Uuid, date: string, lo: nat, hi: nat)
    requires |src| > 0
    requires meta.Keys == keys0 + SeriesAfter(provider, product, |VIDEO_TYPES|, counts)
    requires TypesSucceed(src, provider, product, VIDEO_TYPES[..|VIDEO_TYPES|], counts, media)
    requires Generated(rows, bs, TypesSlots(provider, product, VIDEO_TYPES[..|VIDEO_TYPES|], counts), src, meta, provider,
                       files, draws, date, lo, hi)
    ensures meta.Keys == keys0 + NewSeries(provider, product, FullEpisode, counts)
    ensures ProductSucceeds(src, provider, product, counts, media)
    ensures Generated(rows, bs, ProductSlots(provider, product, counts), src, meta, provider, files, draws, date, lo, hi)
  {
    assert VIDEO_TYPES[..|VIDEO_TYPES|] == VIDEO_TYPES;
    TypesSlotsAll(provider, product, counts);
    TypesSucceedAll(src, provider, product, counts, media);
  }

  /**
   * Pass `i` of the `for product` loop of one provider, read against the
   * state the passes before it left (`t0` and `lo` being the folder tree and
   * draw count before the first pass): it either raises, which ends the
   * provider, or extends the result to the slots of the first `i + 1`
   * products and adds the product's series to the registry.
   */
  method ProviderStep(provider: string, products: seq<string>, i: nat, counts: CountTable, src: seq<Row>,
                      folder: string, out: OutputTree, reg: SeriesRegistry, rng: Entropy, date: string,
                      ghost rows: seq<Row>, ghost bs: seq<BatchSpec>, ghost t0: Tree, ghost lo: nat)
    returns (r: seq<Row>, fault: Option<Fault>, ghost b: seq<BatchSpec>)
    requires |src| > 0 && Distinct(products) && i < |products| && lo <= rng.used
    requires Grows(t0, out.folders, folder) && Stocked(reg.meta, out.folders, folder)
    requires reg.meta.Keys == SeriesKeys(provider, products[..i], counts)
    requires Generated(rows, bs, ProviderSlots(provider, products[..i], counts), src, reg.meta, provider,
                       FilesIn(out.folders, folder), rng.draws, date, lo, rng.used)
    modifies out, reg, rng
    ensures Grows(t0, out.folders, folder) && lo <= rng.used && Stocked(reg.meta, out.folders, folder)
    ensures fault.None? <==> ProductSucceeds(src, provider, products[i], counts, out.media)
    ensures fault == Some(NoVideoTypeColumn) ==> exists v :: SelectTemplate(src, v).None?
    ensures fault == Some(AssetMissing) ==> !(CANONICAL_MEDIA <= out.media)
    ensures fault.None? ==> reg.meta.Keys == SeriesKeys(provider, products[..i + 1], counts)
    ensures fault.None? ==>
              Generated(rows + r, bs + b, ProviderSlots(provider, products[..i + 1], counts), src, reg.meta, provider,
                        FilesIn(out.folders, folder), rng.draws, date, lo, rng.used)
  {
    var x := products[i];
    SeriesKeysExactly(provider, products[..i], counts, x);
    SeriesKeysPrefix(provider, products, i, counts);
    ghost var t1 := out.folders;
    r, fault, b := GenerateProduct(provider, x, counts, src, folder, out, reg, rng, date);
    GrowsTransitive(t0, t1, out.folders, folder);
    if fault.None? {
      GeneratedExtend(rows, bs, ProviderSlots(provider, products[..i], counts), r, b,
                      ProductSlots(provider, x, counts), src, old(reg.meta), reg.meta, provider, FilesIn(t1, folder),
                      FilesIn(out.folders, folder), rng.draws, date, lo, old(rng.used), rng.used);
      ProviderSlotsPrefix(provider, products, i, counts);
    }
  }

  /** The first `n` products of the list run through. */
  predicate SucceedUpTo(src: seq<Row>, provider: string, products: seq<string>, n: nat, counts: CountTable,
                        media: set<string>)
    requires |src| > 0 && n <= |products|
  {
    forall j :: 0 <= j < n ==> ProductSucceeds(src, provider, products[j], counts, media)
  }

  /** Every product of the list runs through. */
  predicate ProductsSucceed(src: seq<Row>, provider: string, products: seq<string>, counts: CountTable, media: set<string>)
    requires |src| > 0
  {
    SucceedUpTo(src, provider, products, |products|, counts, media)
  }

  /**
   * The per-provider part of the `for provider` loop: a fresh series
   * registry, then the `for product` loop. It stops at the first product
   * that raises; without a fault every pair succeeded, the registry holds
   * exactly one series per product with a non-zero episode count, and the
   * rows are those of the provider's slots.
   */
  method GenerateProvider(provider: string, products: seq<string>, counts: CountTable, src: seq<Row>,
                          folder: string, out: OutputTree, rng: Entropy, date: string)
    returns (rows: seq<Row>, fault: Option<Fault>, ghost bs: seq<BatchSpec>, ghost metas: map<string, SeriesMeta>)
    requires |src| > 0 && Distinct(products)
    modifies out, rng
    ensures Grows(old(out.folders), out.folders, folder) && old(rng.used) <= rng.used
    ensures fault.None? <==> ProductsSucceed(src, provider, products, counts, out.media)
    ensures fault == Some(NoVideoTypeColumn) ==> exists v :: SelectTemplate(src, v).None?
    ensures fault == Some(AssetMissing) ==> !(CANONICAL_MEDIA <= out.media)
    ensures fault.None? ==>
              && metas.Keys == SeriesKeys(provider, products, counts)
              && Stocked(metas, out.folders, folder)
              && Generated(rows, bs, ProviderSlots(provider, products, counts), src, metas, provider,
                           FilesIn(out.folders, folder), rng.draws, date, old(rng.used), rng.used)
  {
    var reg := new SeriesRegistry();
    rows, fault, bs := [], None, [];
    GeneratedEmpty(src, reg.meta, provider, FilesIn(out.folders, folder), rng.draws, date, rng.used, rng.used);
    var i := 0;
    while i < |products|
      invariant 0 <= i <= |products|
      invariant Grows(old(out.folders), out.folders, folder) && old(rng.used) <= rng.used
      invariant Stocked(reg.meta, out.folders, folder)
      invariant reg.meta.Keys == SeriesKeys(provider, products[..i], counts)
      invariant fault.None?
      invariant SucceedUpTo(src, provider, products, i, counts, out.media)
      invariant Generated(rows, bs, ProviderSlots(provider, products[..i], counts), src, reg.meta, provider,
                          FilesIn(out.folders, folder), rng.draws, date, old(rng.used), rng.used)
    {
      var r;
      ghost var b := [];
      r, fault, b := ProviderStep(provider, products, i, counts, src, folder, out, reg, rng, date, rows, bs,
                                  old(out.folders), old(rng.used));
      if fault.Some? {
        metas := reg.meta;
        return;
      }
      rows, bs := rows + r, bs + b;
      i := i + 1;
    }
    assert products[..i] == products;
    metas := reg.meta;
  }
}
