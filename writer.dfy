/**
 * `save_csv`: the rows of one provider written as a CSV file in its folder,
 * every row trimmed to the header of the source CSV first; nothing at all
 * happens for an empty row list.
 */
module Writer {
  import opened Options
  import opened Catalog
  import opened Naming
  import opened Files

  /** The comprehension `{k: v for k, v in row.items() if k in headers}`. */
  function Trim(row: Row, headers: seq<string>): (r: Row)
    ensures forall k :: k in r <==> k in row && k in headers
    ensures forall k :: k in r ==> r[k] == row[k]
  {
    map k | k in row && k in headers :: row[k]
  }

  /** The line `csv.DictWriter` writes for a row: one value per header, `""` for a missing key. */
  function Record(row: Row, headers: seq<string>): (r: seq<string>)
    ensures |r| == |headers|
    ensures forall i :: 0 <= i < |headers| ==> r[i] == if headers[i] in row then row[headers[i]] else ""
  {
    seq(|headers|, i requires 0 <= i < |headers| => if headers[i] in row then row[headers[i]] else "")
  }

  /**
   * A trimmed row has no key outside the header, so the writer (which
   * raises on extra keys) accepts it, and it writes the same line as the
   * untrimmed row would.
   */
  lemma TrimmedRecord(row: Row, headers: seq<string>)
    ensures forall k :: k in Trim(row, headers) ==> k in headers
    ensures Record(Trim(row, headers), headers) == Record(row, headers)
  {
  }

  /** Every row of the list, trimmed. */
  function TrimAll(rows: seq<Row>, headers: seq<string>): (r: seq<Row>)
    ensures |r| == |rows|
    ensures forall i :: 0 <= i < |rows| ==> r[i] == Trim(rows[i], headers)
  {
    seq(|rows|, i requires 0 <= i < |rows| => Trim(rows[i], headers))
  }

  /** `f"generated-{provider}-test-package-{uid4}.csv"`. */
  function CsvName(provider: string, uid: string): string {
    "generated-" + provider + "-test-package-" + uid + ".csv"
  }

  /**
   * A CSV name starts with "generated-", so it is never the name of an item
   * or series asset: writing the CSV overwrites no copied media file.
   */
  lemma CsvNameNotAsset(provider: string, uid: string, prefix: string, date: string, uid4: string, uid6: string,
                        packageId: string, series: Names, seasonUid: string, seriesUid: string)
    ensures CsvName(provider, uid) !in ItemAssets(CommonNames(prefix, date, uid4, uid6, packageId))
    ensures CsvName(provider, uid) !in SeriesAssets(MakeSeriesMeta(date, series, seasonUid, seriesUid))
  {
    var c := CsvName(provider, uid);
    var n := CommonNames(prefix, date, uid4, uid6, packageId);
    var m := MakeSeriesMeta(date, series, seasonUid, seriesUid);
    assert c[0] == 'g';
    assert n.video[0] == 'm' && n.landscape[0] == 'm' && n.portrait[0] == 'm';
    assert m.seriesPoster[0] == 't' && m.seriesLandscape[0] == 't' && m.seasonLandscape[0] == 't';
  }

  /** The tree after writing the table `name` into `folder`, which is created first. */
  function WriteCsvTree(t: Tree, folder: string, name: string, headers: seq<string>, rows: seq<Row>): (r: Tree)
    ensures folder in r
  {
    var t' := EnsureFolder(t, folder);
    t'[folder := t'[folder][name := Table(headers, rows)]]
  }

  /**
   * Writing a CSV only adds (or replaces) that one file in that one folder,
   * which is afterwards not empty.
   */
  lemma WriteCsvGrows(t: Tree, folder: string, name: string, headers: seq<string>, rows: seq<Row>)
    ensures var r := WriteCsvTree(t, folder, name, headers, rows);
            && Grows(t, r, folder)
            && r.Keys == t.Keys + {folder}
            && FilesIn(r, folder) == FilesIn(t, folder) + {name}
            && r[folder][name] == Table(headers, rows)
            && Active(r, folder)
  {
    var r := WriteCsvTree(t, folder, name, headers, rows);
    assert name in r[folder];
  }

  /**
   * `save_csv(provider, rows, headers)`. No rows: returns `None` and touches
   * nothing. Otherwise the provider folder is created, one uuid is drawn
   * for the four-hex-digit suffix, and the file holds the header and the
   * trimmed rows in order; the file name is returned.
   */
  method SaveCsv(provider: string, rows: seq<Row>, headers: seq<string>, out: OutputTree, rng: Entropy)
    returns (path: Option<string>)
    modifies out, rng
    ensures rows == [] ==> path == None && out.folders == old(out.folders) && rng.used == old(rng.used)
    ensures rows != [] ==>
              var name := CsvName(provider, Tail(rng.draws(old(rng.used)).hex, 4));
              && path == Some(name) && rng.used == old(rng.used) + 1
              && out.folders == WriteCsvTree(old(out.folders), provider, name, headers, TrimAll(rows, headers))
  {
    if rows == [] {
      return None;
    }
    out.MakeDirs(provider);
    var u := rng.Uuid4();
    var name := CsvName(provider, Tail(u.hex, 4));
    var trimmed: seq<Row> := [];
    var i := 0;
    while i < |rows|
      invariant 0 <= i <= |rows|
      invariant |trimmed| == i
      invariant forall k :: 0 <= k < i ==> trimmed[k] == Trim(rows[k], headers)
    {
      trimmed := trimmed + [Trim(rows[i], headers)];
      i := i + 1;
    }
    assert trimmed == TrimAll(rows, headers);
    out.WriteTable(provider, name, headers, trimmed);
    path := Some(name);
  }
}
