/**
 * `run_generation`: resolve the configuration, make every provider's
 * package (rows, media copies, one CSV file), and archive the output root
 * when at least one provider folder holds files.
 */
module Run {
  import opened Options
  import opened Seqs
  import opened Catalog
  import opened Naming
  import opened Files
  import opened Config
  import opened Templates
  import opened Plan
  import opened Rows
  import opened Series
  import opened Generator
  import opened Results
  import opened Writer

  /** A source CSV as `csv.DictReader` reads it: its column names in order and its rows. */
  datatype SourceTable = SourceTable(header: seq<string>, rows: seq<Row>)

  /** Provider to source CSV; a provider that is not a key has no file (`load_csv_rows` returns `[]`). */
  type Sources = map<string, SourceTable>

  /** The second value `run_generation` returns, or the exception it raises. */
  datatype Outcome =
    | Archive(name: string, entries: set<(string, string)>, message: string)
    | Failed(message: string)
    | Raised(fault: Fault)

  const NO_FILES_MESSAGE: string := "No files were generated based on the configuration. Check counts."
  const DONE_MESSAGE: string := "Generation and Zipping complete."

  /** `f"mops-test-package-export-{uuid.uuid4().hex[:6]}.zip"`. */
  function ZipName(hex: string): string {
    "mops-test-package-export-" + Head(hex, 6) + ".zip"
  }

  /** `load_csv_rows(provider)` with the header kept. */
  function SourceOf(sources: Sources, provider: string): SourceTable {
    if provider in sources then sources[provider] else SourceTable([], [])
  }

  /** A provider whose source has rows; any other is skipped with a message. */
  predicate Visited(sources: Sources, provider: string) {
    |SourceOf(sources, provider).rows| > 0
  }

  /** `all_generated_folders`: the visited providers of the plan, in order. */
  function VisitedFolders(sources: Sources, plan: Config.Plan): seq<string> {
    if plan == [] then []
    else
      var p := plan[|plan| - 1].0;
      VisitedFolders(sources, plan[..|plan| - 1]) + (if Visited(sources, p) then [p] else [])
  }

  lemma {:induction false} VisitedFoldersMeaning(sources: Sources, plan: Config.Plan, f: string)
    ensures f in VisitedFolders(sources, plan) <==> Visited(sources, f) && f in KeysOf(plan)
    decreases |plan|
  {
    if plan != [] {
      var init := plan[..|plan| - 1];
      VisitedFoldersMeaning(sources, init, f);
      assert KeysOf(plan) == KeysOf(init) + [plan[|plan| - 1].0];
    }
  }

  /** `[f for f in all_generated_folders if os.path.exists(f) and os.listdir(f)]`. */
  function ActiveFolders(t: Tree, folders: seq<string>): (r: seq<string>)
    ensures forall f :: f in r <==> f in folders && Active(t, f)
  {
    if folders == [] then []
    else
      var f := folders[|folders| - 1];
      ActiveFolders(t, folders[..|folders| - 1]) + (if Active(t, f) then [f] else [])
  }

  /** What a resolved configuration guarantees the generation loop. */
  predicate PlanOk(plan: Config.Plan) {
    && DistinctKeys(plan)
    && forall i :: 0 <= i < |plan| ==> plan[i].0 in PROVIDERS && Distinct(plan[i].1)
  }

  lemma ConfigurationPlanOk(mode: string, manual: Option<ManualConfig>)
    requires mode == MANUAL_MODE && manual.Some? ==> WellFormedManual(manual.value)
    ensures Configuration(mode, manual).Resolved? ==> PlanOk(Configuration(mode, manual).plan)
  {
    if mode == MANUAL_MODE && manual.Some? && manual.value != [] {
      var m := manual.value;
      forall i | 0 <= i < |m|
        ensures Distinct(KeysOf(m[i].1))
      {
        assert DistinctKeys(m[i].1);
      }
    }
  }

  /** Every pair of every visited provider runs through. */
  ghost predicate PlanSucceeds(plan: Config.Plan, counts: CountTable, sources: Sources, media: set<string>, n: nat)
    requires n <= |plan|
  {
    forall i :: 0 <= i < n && Visited(sources, plan[i].0) ==>
      ProductsSucceed(SourceOf(sources, plan[i].0).rows, plan[i].0, plan[i].1, counts, media)
  }

  /** No folder outside `ps` appears, disappears or changes. */
  ghost predicate Untouched(t0: Tree, t1: Tree, ps: seq<string>) {
    forall f :: f !in ps ==> (f in t0 <==> f in t1) && (f in t0 ==> t1[f] == t0[f])
  }

  /** What one provider's pass leaves behind: the CSV's name and rows, and the ghost account of how the rows were made. */
  datatype Package = Package(csv: string, rows: seq<Row>, bs: seq<BatchSpec>, metas: map<string, SeriesMeta>,
                             lo: nat, hi: nat)

  /**
   * The provider's folder holds the package's CSV, the source header over
   * the package's rows trimmed to it; the rows are a generation of the
   * provider's slots from the draws between `lo` and `hi`, and every asset
   * and series image they name is in the folder.
   */
  ghost predicate Packaged(t: Tree, provider: string, products: seq<string>, counts: CountTable, src: SourceTable,
                           draws: nat -> Uuid, date: string, pkg: Package)
    requires |src.rows| > 0
  {
    && provider in t && pkg.csv in t[provider]
    && t[provider][pkg.csv] == Table(src.header, TrimAll(pkg.rows, src.header))
    && pkg.metas.Keys == SeriesKeys(provider, products, counts)
    && Stocked(pkg.metas, t, provider)
    && Generated(pkg.rows, pkg.bs, ProviderSlots(provider, products, counts), src.rows, pkg.metas, provider,
                 FilesIn(t, provider), draws, date, pkg.lo, pkg.hi)
  }

  /**
   * Of the first `n` planned providers, exactly those with source rows and
   * slots to fill have a package in `written`, and each such package is in
   * its folder of `t`.
   */
  ghost predicate AllPackaged(t: Tree, plan: Config.Plan, counts: CountTable, sources: Sources, draws: nat -> Uuid,
                              date: string, written: map<string, Package>, n: nat)
    requires n <= |plan|
  {
    forall i :: 0 <= i < n ==> PackagedAt(t, plan, counts, sources, draws, date, written, i)
  }

  /** The planned provider `i` has a package in `written` exactly when it has source rows and slots to fill, and it is in place. */
  ghost predicate PackagedAt(t: Tree, plan: Config.Plan, counts: CountTable, sources: Sources, draws: nat -> Uuid,
                             date: string, written: map<string, Package>, i: nat)
    requires i < |plan|
  {
    && (plan[i].0 in written <==> Visited(sources, plan[i].0) && ProviderSlots(plan[i].0, plan[i].1, counts) != [])
    && (plan[i].0 in written ==>
          Packaged(t, plan[i].0, plan[i].1, counts, SourceOf(sources, plan[i].0), draws, date, written[plan[i].0]))
  }

  /** A package stays in place while another folder grows. */
  lemma PackagedFrame(t1: Tree, t2: Tree, folder: string, provider: string, products: seq<string>, counts: CountTable,
                      src: SourceTable, draws: nat -> Uuid, date: string, pkg: Package)
    requires |src.rows| > 0 && provider != folder
    requires Grows(t1, t2, folder) && Packaged(t1, provider, products, counts, src, draws, date, pkg)
    ensures Packaged(t2, provider, products, counts, src, draws, date, pkg)
  {
    assert FilesIn(t2, provider) == FilesIn(t1, provider);
  }

  /**
   * What a package gives the tester: its CSV has one row per slot of the
   * provider, row `j` being the generated row trimmed to the source header,
   * and every asset and series image that generated row names is a file of
   * the provider's folder.
   */
  lemma PackageComplete(t: Tree, provider: string, products: seq<string>, counts: CountTable, src: SourceTable,
                        draws: nat -> Uuid, date: string, pkg: Package, j: nat)
    requires |src.rows| > 0 && Packaged(t, provider, products, counts, src, draws, date, pkg)
    requires j < |ProviderSlots(provider, products, counts)|
    ensures t[provider][pkg.csv].Table?
    ensures |t[provider][pkg.csv].rows| == |ProviderSlots(provider, products, counts)|
    ensures t[provider][pkg.csv].rows[j] == Trim(pkg.rows[j], src.header)
    ensures RowAssets(pkg.rows[j], ProviderSlots(provider, products, counts)[j].v) <= FilesIn(t, provider)
  {
    RowAssetsPresent(pkg.rows, pkg.bs, ProviderSlots(provider, products, counts), src.rows, pkg.metas, provider,
                     t, provider, draws, date, pkg.lo, pkg.hi, j);
  }

  /**
   * One pass of the `for provider` loop over a provider with source rows: its
   * rows are generated into its folder and, when there are any, written as
   * one CSV of the source header with every row trimmed to it; no other
   * folder changes. A fault stops the pass before the CSV is written.
   */
  method ProviderPass(provider: string, products: seq<string>, counts: CountTable, src: SourceTable,
                      out: OutputTree, rng: Entropy, date: string)
    returns (fault: Option<Fault>, path: Option<string>,
             rows: seq<Row>, ghost bs: seq<BatchSpec>, ghost metas: map<string, SeriesMeta>)
    requires |src.rows| > 0 && Distinct(products)
    modifies out, rng
    ensures Grows(old(out.folders), out.folders, provider) && old(rng.used) <= rng.used
    ensures fault.None? <==> ProductsSucceed(src.rows, provider, products, counts, out.media)
    ensures fault.Some? ==> path.None?
    ensures fault.None? ==>
              && (path.None? <==> ProviderSlots(provider, products, counts) == [])
              && Generated(rows, bs, ProviderSlots(provider, products, counts), src.rows, metas, provider,
                           FilesIn(out.folders, provider), rng.draws, date, old(rng.used), rng.used)
              && (path.Some? ==>
                    && Active(out.folders, provider) && path.value in out.folders[provider]
                    && out.folders[provider][path.value] == Table(src.header, TrimAll(rows, src.header))
                    && Packaged(out.folders, provider, products, counts, src, rng.draws, date,
                                Package(path.value, rows, bs, metas, old(rng.used), rng.used)))
  {
    ghost var t0 := out.folders;
    rows, fault, bs, metas := GenerateProvider(provider, products, counts, src.rows, provider, out, rng, date);
    if fault.Some? {
      return fault, None, rows, bs, metas;
    }
    ghost var slots := ProviderSlots(provider, products, counts);
    ghost var t1, u1 := out.folders, rng.used;
    GeneratedLength(rows, bs, slots, src.rows, metas, provider, FilesIn(t1, provider), rng.draws, date, old(rng.used), u1);
    path := SaveCsv(provider, rows, src.header, out, rng);
    if path.Some? {
      var name := path.value;
      WriteCsvGrows(t1, provider, name, src.header, TrimAll(rows, src.header));
      GrowsTransitive(t0, t1, out.folders, provider);
      StockedGrows(metas, t1, out.folders, provider);
    }
    GeneratedGrows(rows, bs, slots, src.rows, metas, metas, provider, FilesIn(t1, provider), FilesIn(out.folders, provider),
                   rng.draws, date, old(rng.used), u1, old(rng.used), rng.used);
  }

  /**
   * The `for provider` loop: providers without source rows are skipped,
   * every other one gets its pass; the first fault stops the loop. Without
   * a fault every pair of every visited provider ran through, and every
   * visited provider with slots to fill has its package in its folder.
   */
  method GenerateAll(plan: Config.Plan, counts: CountTable, sources: Sources, out: OutputTree, rng: Entropy, date: string)
    returns (fault: Option<Fault>, visited: seq<string>, ghost written: map<string, Package>)
    requires PlanOk(plan)
    modifies out, rng
    ensures Untouched(old(out.folders), out.folders, KeysOf(plan)) && old(rng.used) <= rng.used
    ensures fault.None? <==> PlanSucceeds(plan, counts, sources, out.media, |plan|)
    ensures fault.None? ==> visited == VisitedFolders(sources, plan)
    ensures fault.None? ==> AllPackaged(out.folders, plan, counts, sources, rng.draws, date, written, |plan|)
  {
    fault, visited, written := None, [], map[];
    ghost var t0 := out.folders;
    UntouchedStart(t0, plan);
    for i := 0 to |plan|
      invariant Untouched(t0, out.folders, KeysOf(plan[..i])) && old(rng.used) <= rng.used
      invariant PlanSucceeds(plan, counts, sources, out.media, i)
      invariant visited == VisitedFolders(sources, plan[..i])
      invariant AllPackaged(out.folders, plan, counts, sources, rng.draws, date, written, i)
      invariant fault.None?
    {
      var provider, products := plan[i].0, plan[i].1;
      ghost var t1 := out.folders;
      VisitedFoldersSnoc(sources, plan, i);
      var src := SourceOf(sources, provider);
      if |src.rows| == 0 {
        PlanSucceedsStep(plan, counts, sources, out.media, i);
        UntouchedStep(t0, t1, t1, plan, i);
        AllPackagedStep(t1, t1, plan, counts, sources, rng.draws, date, written, i, None);
        written := written - {provider};
        continue;
      }
      visited := visited + [provider];
      var path, rows;
      ghost var bs, metas;
      ghost var u0 := rng.used;
      fault, path, rows, bs, metas := ProviderPass(provider, products, counts, src, out, rng, date);
      UntouchedStep(t0, t1, out.folders, plan, i);
      if fault.Some? {
        PlanFails(plan, counts, sources, out.media, i);
        UntouchedPrefix(t0, out.folders, plan, i + 1);
        return;
      }
      PlanSucceedsStep(plan, counts, sources, out.media, i);
      ghost var pkg := if path.Some? then Some(Package(path.value, rows, bs, metas, u0, rng.used)) else None;
      AllPackagedStep(t1, out.folders, plan, counts, sources, rng.draws, date, written, i, pkg);
      written := if pkg.Some? then written[provider := pkg.value] else written - {provider};
    }
    assert plan[..|plan|] == plan;
  }

  /**
   * Pass `i` adds its own package, if it made one, and leaves the packages
   * of the providers before it in place: their folders are not its own.
   */
  lemma AllPackagedStep(t1: Tree, t2: Tree, plan: Config.Plan, counts: CountTable, sources: Sources, draws: nat -> Uuid,
                        date: string, written: map<string, Package>, i: nat, pkg: Option<Package>)
    requires PlanOk(plan) && i < |plan|
    requires AllPackaged(t1, plan, counts, sources, draws, date, written, i) && Grows(t1, t2, plan[i].0)
    requires pkg.Some? <==> Visited(sources, plan[i].0) && ProviderSlots(plan[i].0, plan[i].1, counts) != []
    requires pkg.Some? ==> Packaged(t2, plan[i].0, plan[i].1, counts, SourceOf(sources, plan[i].0), draws, date, pkg.value)
    ensures AllPackaged(t2, plan, counts, sources, draws, date,
                        if pkg.Some? then written[plan[i].0 := pkg.value] else written - {plan[i].0}, i + 1)
  {
    var p := plan[i].0;
    var next := if pkg.Some? then written[p := pkg.value] else written - {p};
    forall j | 0 <= j < i + 1
      ensures PackagedAt(t2, plan, counts, sources, draws, date, next, j)
    {
      if j < i {
        assert plan[j].0 != p;
        assert PackagedAt(t1, plan, counts, sources, draws, date, written, j);
        if plan[j].0 in written {
          PackagedFrame(t1, t2, p, plan[j].0, plan[j].1, counts, SourceOf(sources, plan[j].0), draws, date,
                        written[plan[j].0]);
        }
      }
    }
  }

  lemma VisitedFoldersSnoc(sources: Sources, plan: Config.Plan, i: nat)
    requires i < |plan|
    ensures VisitedFolders(sources, plan[..i + 1])
         == VisitedFolders(sources, plan[..i]) + (if Visited(sources, plan[i].0) then [plan[i].0] else [])
  {
    assert plan[..i + 1][..i] == plan[..i];
  }

  lemma UntouchedStart(t0: Tree, plan: Config.Plan)
    ensures Untouched(t0, t0, KeysOf(plan[..0]))
  {
  }

  /** A pass over one more provider, which changes only that provider's folder, keeps every other folder. */
  lemma UntouchedStep(t0: Tree, t1: Tree, t2: Tree, plan: Config.Plan, i: nat)
    requires i < |plan|
    requires Untouched(t0, t1, KeysOf(plan[..i])) && Grows(t1, t2, plan[i].0)
    ensures Untouched(t0, t2, KeysOf(plan[..i + 1]))
  {
    assert plan[..i + 1][..i] == plan[..i];
    assert KeysOf(plan[..i + 1]) == KeysOf(plan[..i]) + [plan[i].0];
  }

  lemma PlanSucceedsStep(plan: Config.Plan, counts: CountTable, sources: Sources, media: set<string>, i: nat)
    requires i < |plan| && PlanSucceeds(plan, counts, sources, media, i)
    requires Visited(sources, plan[i].0) ==>
               ProductsSucceed(SourceOf(sources, plan[i].0).rows, plan[i].0, plan[i].1, counts, media)
    ensures PlanSucceeds(plan, counts, sources, media, i + 1)
  {
  }

  lemma PlanFails(plan: Config.Plan, counts: CountTable, sources: Sources, media: set<string>, i: nat)
    requires i < |plan| && Visited(sources, plan[i].0)
    requires !ProductsSucceed(SourceOf(sources, plan[i].0).rows, plan[i].0, plan[i].1, counts, media)
    ensures !PlanSucceeds(plan, counts, sources, media, |plan|)
  {
  }

  lemma UntouchedPrefix(t0: Tree, t1: Tree, plan: Config.Plan, n: nat)
    requires n <= |plan|
    requires Untouched(t0, t1, KeysOf(plan[..n]))
    ensures Untouched(t0, t1, KeysOf(plan))
  {
    forall f | f in KeysOf(plan[..n])
      ensures f in KeysOf(plan)
    {
      var k :| 0 <= k < n && KeysOf(plan[..n])[k] == f;
      assert KeysOf(plan)[k] == f;
    }
  }

  /** Some planned provider with source rows has a folder that holds files. */
  predicate AnyActive(t: Tree, sources: Sources, plan: Config.Plan) {
    exists f :: f in KeysOf(plan) && Visited(sources, f) && Active(t, f)
  }

  /** Some visited provider's folder holds files exactly when the filtered folder list is not empty. */
  lemma ActiveIff(t: Tree, sources: Sources, plan: Config.Plan)
    ensures ActiveFolders(t, VisitedFolders(sources, plan)) != [] <==> AnyActive(t, sources, plan)
  {
    var r := ActiveFolders(t, VisitedFolders(sources, plan));
    if r != [] {
      VisitedFoldersMeaning(sources, plan, r[0]);
    }
    forall f | f in KeysOf(plan) && Visited(sources, f) && Active(t, f)
      ensures f in r
    {
      VisitedFoldersMeaning(sources, plan, f);
    }
  }

  /**
   * Steps 2 to 4 of `run_generation` for a resolved configuration: only
   * planned provider folders change; the run raises exactly when some pair
   * of a visited provider cannot be made; without a fault the output root
   * is archived (every file under it, under a name from one fresh draw)
   * exactly when some visited provider folder holds files, and the run
   * reports that nothing was generated otherwise.
   */
  method RunPlan(plan: Config.Plan, counts: CountTable, sources: Sources, out: OutputTree, rng: Entropy, date: string)
    returns (outcome: Outcome, ghost written: map<string, Package>)
    requires PlanOk(plan)
    modifies out, rng
    ensures Untouched(old(out.folders), out.folders, KeysOf(plan))
    ensures outcome.Raised? <==> !PlanSucceeds(plan, counts, sources, out.media, |plan|)
    ensures !outcome.Raised? ==> AllPackaged(out.folders, plan, counts, sources, rng.draws, date, written, |plan|)
    ensures !outcome.Raised? ==> Reported(outcome, out.folders, sources, plan, rng.draws, old(rng.used), rng.used)
  {
    var fault, visited;
    fault, visited, written := GenerateAll(plan, counts, sources, out, rng, date);
    if fault.Some? {
      outcome := Raised(fault.value);
      return;
    }
    ghost var mid := rng.used;
    outcome := Finish(visited, sources, plan, out, rng);
    ReportedEarlier(outcome, out.folders, sources, plan, rng.draws, old(rng.used), mid, rng.used);
  }

  /**
   * How a run without a fault ends: the output root is archived exactly
   * when some visited provider folder holds files, under a name from the
   * last of the draws between `lo` and `hi` (there is at least one), with
   * every file under the root; otherwise the run reports that nothing was
   * generated.
   */
  ghost predicate Reported(outcome: Outcome, t: Tree, sources: Sources, plan: Config.Plan, draws: nat -> Uuid,
                           lo: nat, hi: nat) {
    && !outcome.Raised?
    && (outcome.Archive? <==> AnyActive(t, sources, plan))
    && (outcome.Failed? ==> outcome.message == NO_FILES_MESSAGE)
    && (outcome.Archive? ==>
          lo < hi && outcome == Archive(ZipName(draws(hi - 1).hex), ArchiveEntries(t), DONE_MESSAGE))
  }

  lemma ReportedEarlier(outcome: Outcome, t: Tree, sources: Sources, plan: Config.Plan, draws: nat -> Uuid,
                        lo: nat, mid: nat, hi: nat)
    requires lo <= mid && Reported(outcome, t, sources, plan, draws, mid, hi)
    ensures Reported(outcome, t, sources, plan, draws, lo, hi)
  {
  }

  /** Steps 3 and 4 after a run without a fault: archive the output root, or report that no files were made. */
  method Finish(visited: seq<string>, ghost sources: Sources, ghost plan: Config.Plan, out: OutputTree, rng: Entropy)
    returns (outcome: Outcome)
    requires visited == VisitedFolders(sources, plan)
    modifies rng
    ensures Reported(outcome, out.folders, sources, plan, rng.draws, old(rng.used), rng.used)
  {
    var active := ActiveFolders(out.folders, visited);
    ActiveIff(out.folders, sources, plan);
    if active == [] {
      outcome := Failed(NO_FILES_MESSAGE);
    } else {
      outcome := MakeArchive(out, rng);
    }
  }

  /** Step 4: one draw names the archive, which holds every file under the output root. */
  method MakeArchive(out: OutputTree, rng: Entropy) returns (outcome: Outcome)
    modifies rng
    ensures rng.used == old(rng.used) + 1
    ensures outcome == Archive(ZipName(rng.draws(rng.used - 1).hex), ArchiveEntries(out.folders), DONE_MESSAGE)
  {
    var u := rng.Uuid4();
    outcome := Archive(ZipName(u.hex), ArchiveEntries(out.folders), DONE_MESSAGE);
  }

  /**
   * `run_generation(mode, manual_configs)`: a rejected configuration is
   * reported and changes nothing, a count that is not an integer raises
   * before anything is written, and a resolved one is carried out.
   */
  method RunGeneration(mode: string, manual: Option<ManualConfig>, sources: Sources, out: OutputTree, rng: Entropy,
                       date: string)
    returns (outcome: Outcome, ghost written: map<string, Package>)
    requires mode == MANUAL_MODE && manual.Some? ==> WellFormedManual(manual.value)
    modifies out, rng
    ensures Configuration(mode, manual).Rejected? ==>
              && outcome == Failed(Configuration(mode, manual).message)
              && out.folders == old(out.folders) && rng.used == old(rng.used)
    ensures Configuration(mode, manual).CountNotInteger? ==>
              && outcome == Raised(Fault.CountNotInteger)
              && out.folders == old(out.folders) && rng.used == old(rng.used)
    ensures Configuration(mode, manual).Resolved? ==>
              var plan, counts := Configuration(mode, manual).plan, Configuration(mode, manual).counts;
              && Untouched(old(out.folders), out.folders, KeysOf(plan))
              && (outcome.Raised? <==> !PlanSucceeds(plan, counts, sources, out.media, |plan|))
              && (!outcome.Raised? ==> AllPackaged(out.folders, plan, counts, sources, rng.draws, date, written, |plan|))
              && (!outcome.Raised? ==> Reported(outcome, out.folders, sources, plan, rng.draws, old(rng.used), rng.used))
  {
    var c := ResolveConfig(mode, manual);
    ConfigurationPlanOk(mode, manual);
    written := map[];
    match c
    case Rejected(message) =>
      return Failed(message), written;
    case CountNotInteger =>
      return Raised(Fault.CountNotInteger), written;
    case Resolved(plan, counts) =>
      outcome, written := RunPlan(plan, counts, sources, out, rng, date);
  }
}
