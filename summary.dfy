/**
 * `get_summary_data`: the tables the results page shows, read back from the
 * most recent CSV of each provider. One content row per distinct
 * (provider, product, type) triple with its number of occurrences, and one
 * file row per (provider, type) pair with the number of asset files of each
 * kind its rows refer to.
 */
module Summary {
  import opened Options
  import opened Seqs
  import opened Text
  import opened Catalog

  /** The providers the summary visits, in order. */
  const SUMMARY_PROVIDERS: seq<string> := [OTHERS, WARNERBROS]

  /** The default of `row.get(column, "N/A")`. */
  const NOT_AVAILABLE: string := "N/A"

  /** `row.get(column, "N/A")`. */
  function Get(row: Row, column: string): string {
    if column in row then row[column] else NOT_AVAILABLE
  }

  /** One entry of `summary_table`: provider, product and stripped video type. */
  datatype Triple = Triple(provider: string, product: string, vtype: string)

  /** A `file_table` key: provider and stripped video type. */
  datatype Pair = Pair(provider: string, vtype: string)

  /** One `file_table` value. */
  datatype Tally = Tally(mp4: nat, landscape: nat, portrait: nat, series: nat, season: nat)

  /** The entry a CSV row of `provider` adds to `summary_table`. */
  function Entry(provider: string, row: Row): Triple {
    Triple(provider, Get(row, PRODUCTS_FIELD), Strip(Get(row, VIDEO_TYPE_FIELD)))
  }

  function PairOf(t: Triple): Pair {
    Pair(t.provider, t.vtype)
  }

  /** `vtype.lower() == "full episode"`. */
  predicate IsEpisodeType(vtype: string) {
    Lower(vtype) == "full episode"
  }

  /** The rows of a provider's most recent CSV; none when it has no CSV. */
  function RowsOf(latest: map<string, seq<Row>>, provider: string): seq<Row> {
    if provider in latest then latest[provider] else []
  }

  /** The entries for the rows of one provider, in order. */
  function Entries(provider: string, rows: seq<Row>): (r: seq<Triple>)
    ensures |r| == |rows|
    ensures forall i :: 0 <= i < |rows| ==> r[i] == Entry(provider, rows[i])
  {
    seq(|rows|, i requires 0 <= i < |rows| => Entry(provider, rows[i]))
  }

  /** `summary_table` after all providers: one entry per CSV row, provider by provider. */
  function SummaryTable(latest: map<string, seq<Row>>, providers: seq<string>): seq<Triple> {
    if providers == [] then []
    else
      SummaryTable(latest, providers[..|providers| - 1])
        + Entries(providers[|providers| - 1], RowsOf(latest, providers[|providers| - 1]))
  }

  /**
   * An entry of `summary_table` that names a provider counts only rows of
   * that provider's CSV: as often as that CSV alone yields it.
   */
  lemma {:induction false} ProviderEntries(latest: map<string, seq<Row>>, providers: seq<string>, t: Triple)
    requires forall i, j :: 0 <= i < j < |providers| ==> providers[i] != providers[j]
    requires t.provider in providers
    ensures multiset(SummaryTable(latest, providers))[t] == multiset(Entries(t.provider, RowsOf(latest, t.provider)))[t]
    decreases |providers|
  {
    var init, last := providers[..|providers| - 1], providers[|providers| - 1];
    var here := Entries(last, RowsOf(latest, last));
    assert multiset(SummaryTable(latest, providers)) == multiset(SummaryTable(latest, init)) + multiset(here);
    if last == t.provider {
      assert t.provider !in init;
      NotListedNotCounted(latest, init, t);
    } else {
      assert t.provider in init;
      ProviderEntries(latest, init, t);
      assert t !in here;
    }
  }

  lemma {:induction false} NotListedNotCounted(latest: map<string, seq<Row>>, providers: seq<string>, t: Triple)
    requires t.provider !in providers
    ensures t !in SummaryTable(latest, providers)
    decreases |providers|
  {
    if providers != [] {
      var init := providers[..|providers| - 1];
      assert t.provider !in init;
      NotListedNotCounted(latest, init, t);
    }
  }

  /** The `file_table` key of every entry, in order. */
  function Pairs(s: seq<Triple>): (r: seq<Pair>)
    ensures |r| == |s|
    ensures forall i :: 0 <= i < |s| ==> r[i] == PairOf(s[i])
  {
    seq(|s|, i requires 0 <= i < |s| => PairOf(s[i]))
  }

  /**
   * The tally of a pair seen `n` times: one video, one landscape and one
   * portrait per row, and a series and season image per row of an episode type.
   */
  function TallyFor(p: Pair, n: nat): (t: Tally)
    ensures t.mp4 == t.landscape == t.portrait == n
    ensures t.series == t.season == if IsEpisodeType(p.vtype) then n else 0
  {
    if IsEpisodeType(p.vtype) then Tally(n, n, n, n, n) else Tally(n, n, n, 0, 0)
  }

  /** One more row with this pair. */
  function Bump(t: Tally, vtype: string): Tally {
    var e := if IsEpisodeType(vtype) then 1 else 0;
    Tally(t.mp4 + 1, t.landscape + 1, t.portrait + 1, t.series + e, t.season + e)
  }

  lemma BumpTally(p: Pair, n: nat)
    ensures Bump(TallyFor(p, n), p.vtype) == TallyFor(p, n + 1)
  {
  }

  /** `order` lists the keys of `table` once each: the insertion order of a dictionary. */
  ghost predicate Ordered(table: map<Pair, Tally>, order: seq<Pair>) {
    && (forall k :: k in table <==> k in order)
    && (forall i, j :: 0 <= i < j < |order| ==> order[i] != order[j])
  }

  /** The tallies `file_table` must hold after the entries `s`: one per pair seen, counting its rows. */
  ghost predicate TallyCounts(s: seq<Triple>, table: map<Pair, Tally>) {
    && (forall k :: k in table <==> k in multiset(Pairs(s)))
    && (forall k :: k in table ==> table[k] == TallyFor(k, multiset(Pairs(s))[k]))
  }

  /** The `defaultdict` of tallies with its insertion order, and what it must equal for the entries `s`. */
  ghost predicate TalliesOf(s: seq<Triple>, table: map<Pair, Tally>, order: seq<Pair>) {
    Ordered(table, order) && TallyCounts(s, table) && order == FirstSeen(Pairs(s))
  }

  /** Storing a value under a key keeps the order when the key is known and appends the key otherwise. */
  lemma OrderedStore(table: map<Pair, Tally>, order: seq<Pair>, key: Pair, value: Tally)
    requires Ordered(table, order)
    ensures Ordered(table[key := value], if key in table then order else order + [key])
  {
  }

  lemma PairsSnoc(s: seq<Triple>, t: Triple)
    ensures Pairs(s + [t]) == Pairs(s) + [PairOf(t)]
  {
  }

  /** The body of the row loop on `file_table`: three files per row, two more for an episode type. */
  method CountFiles(table: map<Pair, Tally>, order: seq<Pair>, ghost s: seq<Triple>, t: Triple)
    returns (table': map<Pair, Tally>, order': seq<Pair>)
    requires TalliesOf(s, table, order)
    ensures TalliesOf(s + [t], table', order')
    ensures order' == if PairOf(t) in table then order else order + [PairOf(t)]
  {
    var key := PairOf(t);
    var current := if key in table then table[key] else Tally(0, 0, 0, 0, 0);
    order' := if key in table then order else order + [key];
    TallyStep(s, t, table, order);
    table' := table[key := Bump(current, t.vtype)];
  }

  /** One more row: its pair's tally is bumped, a new pair starts from zero. */
  lemma TallyStep(s: seq<Triple>, t: Triple, table: map<Pair, Tally>, order: seq<Pair>)
    requires TalliesOf(s, table, order)
    ensures var key := PairOf(t);
            var current := if key in table then table[key] else Tally(0, 0, 0, 0, 0);
            TalliesOf(s + [t], table[key := Bump(current, t.vtype)], if key in table then order else order + [key])
  {
    var key := PairOf(t);
    var current := if key in table then table[key] else Tally(0, 0, 0, 0, 0);
    OrderedStore(table, order, key, Bump(current, t.vtype));
    TallyCountsStep(s, t, table);
    PairsSnoc(s, t);
    FirstSeenSnoc(Pairs(s), key);
    assert key in table <==> key in Pairs(s) by {
      assert key in table <==> key in multiset(Pairs(s));
    }
  }

  lemma TallyCountsStep(s: seq<Triple>, t: Triple, table: map<Pair, Tally>)
    requires TallyCounts(s, table)
    ensures var key := PairOf(t);
            var current := if key in table then table[key] else Tally(0, 0, 0, 0, 0);
            TallyCounts(s + [t], table[key := Bump(current, t.vtype)])
  {
    var key := PairOf(t);
    var ms, ms' := multiset(Pairs(s)), multiset(Pairs(s + [t]));
    PairsSnoc(s, t);
    assert ms' == ms + multiset{key};
    var current := if key in table then table[key] else Tally(0, 0, 0, 0, 0);
    assert current == TallyFor(key, ms[key]);
    BumpTally(key, ms[key]);
    var table' := table[key := Bump(current, t.vtype)];
    forall k | k in table'
      ensures table'[k] == TallyFor(k, ms'[k])
    {
      if k != key {
        assert ms'[k] == ms[k];
      }
    }
  }

  /** The finished `Counter` and its first-occurrence order, and what they must equal for the entries `s`. */
  ghost predicate CountsOf(s: seq<Triple>, counts: map<Triple, nat>, order: seq<Triple>) {
    && (forall k :: k in counts <==> k in order)
    && (forall i, j :: 0 <= i < j < |order| ==> order[i] != order[j])
    && (forall k :: k in counts <==> k in multiset(s))
    && (forall k :: k in counts ==> counts[k] == multiset(s)[k])
  }

  /**
   * `Counter(tuple(row) for row in summary_table)`: each distinct entry with
   * its number of occurrences, its keys in the order of first occurrence.
   */
  method CountTriples(s: seq<Triple>) returns (counts: map<Triple, nat>, order: seq<Triple>)
    ensures CountsOf(s, counts, order)
    ensures order == FirstSeen(s)
  {
    counts, order := map[], [];
    for i := 0 to |s|
      invariant CountsOf(s[..i], counts, order)
      invariant order == FirstSeen(s[..i])
    {
      assert s[..i + 1] == s[..i] + [s[i]];
      counts, order := CountOne(counts, order, s[..i], s[i]);
    }
    assert s[..|s|] == s;
  }

  /** The `Counter` taking one more entry: a known one counts one more, a new one is appended with count one. */
  method CountOne(counts: map<Triple, nat>, order: seq<Triple>, ghost s: seq<Triple>, t: Triple)
    returns (counts': map<Triple, nat>, order': seq<Triple>)
    requires CountsOf(s, counts, order) && order == FirstSeen(s)
    ensures CountsOf(s + [t], counts', order') && order' == FirstSeen(s + [t])
  {
    CountStep(s, t, counts, order);
    CountOrderStep(s, t, counts, order);
    if t in counts {
      counts', order' := counts[t := counts[t] + 1], order;
    } else {
      counts', order' := counts[t := 1], order + [t];
    }
  }

  /** One more occurrence: a known entry's count goes up by one, a new entry is appended with count one. */
  lemma CountStep(s: seq<Triple>, t: Triple, counts: map<Triple, nat>, order: seq<Triple>)
    requires CountsOf(s, counts, order)
    ensures t in counts ==> CountsOf(s + [t], counts[t := counts[t] + 1], order)
    ensures t !in counts ==> CountsOf(s + [t], counts[t := 1], order + [t])
  {
    assert multiset(s + [t]) == multiset(s) + multiset{t};
  }

  lemma CountOrderStep(s: seq<Triple>, t: Triple, counts: map<Triple, nat>, order: seq<Triple>)
    requires forall k :: k in counts <==> k in multiset(s)
    requires order == FirstSeen(s)
    ensures FirstSeen(s + [t]) == if t in counts then order else order + [t]
  {
    FirstSeenSnoc(s, t);
    assert t in counts <==> t in multiset(s);
  }

  /** One row of `content_summary`. */
  datatype ContentRow = ContentRow(provider: string, product: string, vtype: string, count: nat)

  /** One row of `file_summary_rows`. */
  datatype FileRow = FileRow(provider: string, vtype: string, mp4: nat, landscape: nat, portrait: nat, series: nat, season: nat)

  /**
   * The content table lists each distinct entry of `s` once, with its number
   * of occurrences, in the order in which the entries first occur.
   */
  predicate ContentSummarises(s: seq<Triple>, content: seq<ContentRow>) {
    && |content| == |FirstSeen(s)|
    && (forall i :: 0 <= i < |content| ==>
          Triple(content[i].provider, content[i].product, content[i].vtype) == FirstSeen(s)[i])
    && (forall i :: 0 <= i < |content| ==>
          var t := Triple(content[i].provider, content[i].product, content[i].vtype);
          t in s && content[i].count == multiset(s)[t])
    && (forall j :: 0 <= j < |s| ==>
          exists i :: 0 <= i < |content| && Triple(content[i].provider, content[i].product, content[i].vtype) == s[j])
    && (forall i, j :: 0 <= i < j < |content| ==>
          Triple(content[i].provider, content[i].product, content[i].vtype)
            != Triple(content[j].provider, content[j].product, content[j].vtype))
  }

  /**
   * The file table lists each (provider, type) pair of `s` once, with the
   * tally of its rows, in the order in which the pairs first occur.
   */
  predicate FilesSummarise(s: seq<Triple>, files: seq<FileRow>) {
    && |files| == |FirstSeen(Pairs(s))|
    && (forall i :: 0 <= i < |files| ==>
          Pair(files[i].provider, files[i].vtype) == FirstSeen(Pairs(s))[i])
    && (forall i :: 0 <= i < |files| ==>
          var p := Pair(files[i].provider, files[i].vtype);
          && p in Pairs(s)
          && Tally(files[i].mp4, files[i].landscape, files[i].portrait, files[i].series, files[i].season)
             == TallyFor(p, multiset(Pairs(s))[p]))
    && (forall j :: 0 <= j < |s| ==>
          exists i :: 0 <= i < |files| && Pair(files[i].provider, files[i].vtype) == PairOf(s[j]))
    && (forall i, j :: 0 <= i < j < |files| ==>
          Pair(files[i].provider, files[i].vtype) != Pair(files[j].provider, files[j].vtype))
  }

  /**
   * `get_summary_data`. No output root: two empty tables. Otherwise every
   * row of every provider's most recent CSV adds one entry; the content table
   * has each distinct entry once with its number of occurrences and the file
   * table each (provider, type) pair once with its asset tallies.
   */
  method GetSummaryData(outputExists: bool, latest: map<string, seq<Row>>)
    returns (content: seq<ContentRow>, files: seq<FileRow>)
    ensures !outputExists ==> content == [] && files == []
    ensures outputExists ==>
              && ContentSummarises(SummaryTable(latest, SUMMARY_PROVIDERS), content)
              && FilesSummarise(SummaryTable(latest, SUMMARY_PROVIDERS), files)
  {
    if !outputExists {
      return [], [];
    }
    var summary: seq<Triple> := [];
    var table: map<Pair, Tally> := map[];
    var tableOrder: seq<Pair> := [];
    for n := 0 to |SUMMARY_PROVIDERS|
      invariant summary == SummaryTable(latest, SUMMARY_PROVIDERS[..n])
      invariant TalliesOf(summary, table, tableOrder)
    {
      var provider := SUMMARY_PROVIDERS[n];
      assert SUMMARY_PROVIDERS[..n + 1][..n] == SUMMARY_PROVIDERS[..n];
      summary, table, tableOrder := ReadProvider(provider, RowsOf(latest, provider), summary, table, tableOrder);
    }
    assert SUMMARY_PROVIDERS[..|SUMMARY_PROVIDERS|] == SUMMARY_PROVIDERS;
    var counts, order := CountTriples(summary);
    content := ContentRows(counts, order);
    ContentMeaning(summary, counts, order, content);
    files := FileRows(table, tableOrder);
    FilesMeaning(summary, table, tableOrder, files);
  }

  /** The row loop for one provider: one entry and one tally update per row. */
  method ReadProvider(provider: string, rows: seq<Row>, summary: seq<Triple>, table: map<Pair, Tally>, order: seq<Pair>)
    returns (summary': seq<Triple>, table': map<Pair, Tally>, order': seq<Pair>)
    requires TalliesOf(summary, table, order)
    ensures summary' == summary + Entries(provider, rows)
    ensures TalliesOf(summary', table', order')
  {
    summary', table', order' := summary, table, order;
    for i := 0 to |rows|
      invariant summary' == summary + Entries(provider, rows[..i])
      invariant TalliesOf(summary', table', order')
    {
      var entry := Entry(provider, rows[i]);
      table', order' := CountFiles(table', order', summary', entry);
      EntriesSnoc(provider, rows, i);
      Reassociate(summary, Entries(provider, rows[..i]), [entry]);
      summary' := summary' + [entry];
    }
    assert rows[..|rows|] == rows;
  }

  lemma EntriesSnoc(provider: string, rows: seq<Row>, i: nat)
    requires i < |rows|
    ensures Entries(provider, rows[..i + 1]) == Entries(provider, rows[..i]) + [Entry(provider, rows[i])]
  {
  }

  lemma ContentMeaning(s: seq<Triple>, counts: map<Triple, nat>, order: seq<Triple>, content: seq<ContentRow>)
    requires CountsOf(s, counts, order) && order == FirstSeen(s)
    requires |content| == |order|
    requires forall i :: 0 <= i < |order| ==>
               content[i] == ContentRow(order[i].provider, order[i].product, order[i].vtype, counts[order[i]])
    ensures ContentSummarises(s, content)
  {
    forall i | 0 <= i < |content|
      ensures Triple(content[i].provider, content[i].product, content[i].vtype) == order[i]
    {
    }
    forall j | 0 <= j < |s|
      ensures exists i :: 0 <= i < |content| && Triple(content[i].provider, content[i].product, content[i].vtype) == s[j]
    {
      assert s[j] in multiset(s);
      var i :| 0 <= i < |order| && order[i] == s[j];
    }
  }

  lemma FilesMeaning(s: seq<Triple>, table: map<Pair, Tally>, order: seq<Pair>, files: seq<FileRow>)
    requires TalliesOf(s, table, order)
    requires |files| == |order|
    requires forall i :: 0 <= i < |order| ==>
               var t := table[order[i]];
               files[i] == FileRow(order[i].provider, order[i].vtype, t.mp4, t.landscape, t.portrait, t.series, t.season)
    ensures FilesSummarise(s, files)
  {
    forall j | 0 <= j < |s|
      ensures exists i :: 0 <= i < |files| && Pair(files[i].provider, files[i].vtype) == PairOf(s[j])
    {
      assert Pairs(s)[j] == PairOf(s[j]);
      assert PairOf(s[j]) in multiset(Pairs(s));
      var i :| 0 <= i < |order| && order[i] == PairOf(s[j]);
      assert Pair(files[i].provider, files[i].vtype) == order[i];
    }
    forall i | 0 <= i < |files|
      ensures Pair(files[i].provider, files[i].vtype) == order[i]
    {
    }
  }

  /** `[[*key, val] for key, val in content_counts.items()]`. */
  method ContentRows(counts: map<Triple, nat>, order: seq<Triple>) returns (content: seq<ContentRow>)
    requires forall k :: k in order ==> k in counts
    ensures |content| == |order|
    ensures forall i :: 0 <= i < |order| ==>
              content[i] == ContentRow(order[i].provider, order[i].product, order[i].vtype, counts[order[i]])
  {
    content := [];
    for i := 0 to |order|
      invariant |content| == i
      invariant forall j :: 0 <= j < i ==>
                  content[j] == ContentRow(order[j].provider, order[j].product, order[j].vtype, counts[order[j]])
    {
      var k := order[i];
      content := content + [ContentRow(k.provider, k.product, k.vtype, counts[k])];
    }
  }

  /** The loop over `file_table.items()` building `file_summary_rows`. */
  method FileRows(table: map<Pair, Tally>, order: seq<Pair>) returns (files: seq<FileRow>)
    requires forall k :: k in order ==> k in table
    ensures |files| == |order|
    ensures forall i :: 0 <= i < |order| ==>
              var t := table[order[i]];
              files[i] == FileRow(order[i].provider, order[i].vtype, t.mp4, t.landscape, t.portrait, t.series, t.season)
  {
    files := [];
    for i := 0 to |order|
      invariant |files| == i
      invariant forall j :: 0 <= j < i ==>
                  var t := table[order[j]];
                  files[j] == FileRow(order[j].provider, order[j].vtype, t.mp4, t.landscape, t.portrait, t.series, t.season)
    {
      var k := order[i];
      var t := table[k];
      files := files + [FileRow(k.provider, k.vtype, t.mp4, t.landscape, t.portrait, t.series, t.season)];
    }
  }
}
