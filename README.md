# MOPS test-package generator, modelled in Dafny

The generator builds test content packages for a set of video providers.
It runs in two modes:

- **Default mode**: one movie and one episode for every catalogued
  (provider, product) pair, plus one short video for `others`/`twc`.
- **Manual mode**: counts typed into a web form.

For every provider with a non-empty source CSV it does the following:

- For each wanted video type, it picks a template row: the first row whose
  "Video Type" matches, or else a copy of the first row.
- It stamps one row per requested item with fresh random names. It copies
  the three canonical media files under those names into the provider
  folder.
- Episodes share one series/season identity per (provider, product). Its
  three images are copied once.
- It writes the rows, trimmed to the source header, to one CSV per
  provider.

At the end it archives the output root if any visited provider folder
holds files. A summary page reads the latest CSV of each provider back and
counts the content triples and the asset files.

The model covers:

- `generator.py`: `random_id`, `generate_common_names`, `copy_assets`,
  `load_csv_rows`, `save_csv`, `run_generation` and `get_summary_data`.
  One change is made to it. `copy_assets` as written copies into a
  provider folder it never creates; that behaviour is modelled on its own
  (`Files.CopyAssetsStep`, under "## Findings"). The generation run
  instead uses the corrected copy, which creates the folder first, as the
  series branch already does (`Files.OutputTree.CopyAssets`);
- the manual-form block of `app.py`, which turns form fields into the
  nested manual configuration.

How the model is organised:

- Each stateful part is a class: the output tree (`Files.OutputTree`), the
  uuid stream (`Naming.Entropy`) and the series registry
  (`Series.SeriesRegistry`). The methods over them are proved against
  specification functions such as `Config.Configuration`,
  `Plan.ProviderSlots`, `Generator.Generated`, `Form.Outcome` and
  `Summary.SummaryTable`. Lemmas then state what the source promises about
  those functions.
- Python exceptions are values:
  - `Fault`, for `KeyError` on a missing "Video Type" column, the
    `FileNotFoundError` of a missing media file, and the `ValueError` of
    `int()`;
  - `Form.FormResult.NotAnInteger`, for a form count that is not an
    integer.
- The clock is a `date` parameter. `uuid.uuid4()` is the k-th value of a
  fixed stream, `Entropy.draws`.

Modules, in dependency order:

| module | file | models |
|---|---|---|
| `Options`, `Seqs`, `Text` | text.dfy | `Option`, small sequence facts, `str.strip`, ASCII `str.lower`, `str(n)`, `int(s)` |
| `Catalog` | catalog.dfy | providers, products, the three video types, the flat count key |
| `Naming` | naming.dfy | `random_id`, `generate_common_names`, series identity names |
| `Files` | files.dfy | the output tree, `shutil.copyfile`, `os.makedirs`, `copy_assets` |
| `Config` | config.dfy | step 1 of `run_generation`: the plan and the count table |
| `Templates` | templates.dfy | the template search with its fallback |
| `Plan` | plan.dfy | which items a configuration asks for, in loop order |
| `Rows` | rows.dfy | stamping a template into an output row |
| `Series` | series.dfy | the `series_meta` registry |
| `Generator` | generator.dfy | the nested generation loop of one provider |
| `Results` | results.dfy | what each generated row holds |
| `Writer` | writer.dfy | `save_csv` |
| `Form` | form.dfy | the manual form of `app.py` |
| `Summary` | summary.dfy | `get_summary_data` |
| `Run` | run.dfy | `run_generation` as a whole, including the archive step |

## Model

| member | source | states |
|---|---|---|
| Text.ParseIntOfNatToString | generator.py:225 | `int(str(n)) == n` for every natural `n`: an episode number written with `str(i + 1)` reads back as that number |
| Text.NatToStringInjective | generator.py:225 | distinct episode numbers give distinct strings |
| Text.StripUnpadded | generator.py:162 | `strip()` leaves a string that neither starts nor ends with white space unchanged |
| Catalog.CountKeyRoundTrip | generator.py:103-106 | the flat key `f"{vtype}_{provider}_{product}"` of a known provider decodes back to its type, provider and product |
| Catalog.CountKeyInjective | generator.py:119-127 | two count keys of known providers are equal only when type, provider and product all are |
| Catalog.LookupNameIsRawName | generator.py:154 | `vtype.lower().replace(' ', '_')` of each loop label is the key prefix that step 1 writes |
| Naming.Entropy.RandomId | generator.py:28-29 | returns the last `n` hex digits of the next uuid and consumes exactly one draw |
| Naming.GenerateCommonNames | generator.py:31-43 | consumes three draws and returns the names built from them and the date |
| Naming.CommonNamesAssets | generator.py:39-41 | an item's video, landscape and portrait names are three distinct `mops-test-` files |
| Naming.SeriesMetaAssets | generator.py:188-190 | the three series images are distinct `test-mops-` files |
| Naming.ItemAndSeriesAssetsDisjoint | generator.py:39-41 | no item asset name equals a series asset name |
| Files.EnsureFolder | generator.py:193 | `os.makedirs(exist_ok=True)` adds the folder if missing and changes no folder's files |
| Files.CopyFileStep | generator.py:48-50 | a copy succeeds exactly when the source file and the destination folder exist; it adds only the destination file |
| Files.CopyAssetsStep | generator.py:45-53 | as written: three copies, the first failure stops the rest; succeeds exactly when the folder exists and all canonical media are present, and then adds exactly the item's three assets |
| Files.CopyAssetsIntoMissingFolderFails | generator.py:45-53 | into a folder that does not exist yet, `copy_assets` raises even with every media file present |
| Files.CopyAssetsEnsuringFolder | generator.py:45-53 | with the folder created first, the copy fails exactly when a canonical media file is missing |
| Files.CopySeriesAssetsStep | generator.py:193-196 | creates the folder, then succeeds exactly when both images are present, adding the three series assets |
| Files.OutputTree.CopyAssets | generator.py:45-53 | the item copy on the tree, with the folder created first |
| Files.OutputTree.CopySeriesAssets | generator.py:193-196 | the three series copies on the tree, equal to `CopySeriesAssetsStep` |
| Config.ResolveConfig | generator.py:99-129 | default mode gives the catalogue and its table; manual mode with nothing gives the "missing" message; an unknown mode gives the "invalid" message; otherwise the manual plan and table, or the `ValueError` |
| Config.BuildDefaultTable | generator.py:99-106 | the loop builds exactly the default count table |
| Config.BuildManualTable | generator.py:115-127 | the loop builds the manual count table, or reports the first `int()` failure |
| Config.DefaultModeCounts | generator.py:99-106 | default mode gives count 1 to every offered type of every catalogued pair, and 0 to every other key |
| Config.ManualModeCounts | generator.py:115-127 | manual mode succeeds exactly when every count string parses; each offered type's count is the parsed value (`0` when absent) and every other pair has 0 |
| Config.ManualCount | generator.py:115-127 | the same, starting from an arbitrary table |
| Config.ManualProviderCount | generator.py:116-127 | one provider's products: succeeds exactly when all parse; each count is as in the product's data |
| Config.ManualProductCount | generator.py:117-127 | one product: fails exactly on a count string `int()` rejects, and writes only that product's keys |
| Config.DefaultCount | generator.py:101-106 | the default writes give 1 exactly to the offered types of pairs in the plan |
| Config.DefaultProviderCount | generator.py:102-106 | one provider's default writes |
| Config.CountAfterWrite | generator.py:122 | writing one count key changes only that (type, provider, product) count |
| Config.NoTableAfterFailure | generator.py:121 | one provider that fails to parse makes the whole manual configuration raise |
| Config.ProviderFailureExtends | generator.py:116-127 | a parse failure on a prefix of the products makes the provider fail |
| Templates.FirstMatch | generator.py:161-164 | the search returns the first row whose stripped, lower-cased "Video Type" equals the type; or reports that none does; or reports the first row without the column |
| Templates.SelectTemplate | generator.py:161-177 | the found row; otherwise a copy of the first row with "Video Type" set to the label and every other column kept; `None` for the `KeyError` |
| Templates.TemplateHasType | generator.py:161-170 | the chosen template always has a "Video Type" that matches the type |
| Templates.TemplateFoundWithColumn | generator.py:161-177 | when every source row has the column, a template is always found |
| Templates.LabelUnpadded | generator.py:170 | the labels carry no surrounding white space |
| Plan.ItemsPerPair | generator.py:148-158 | a provider's items of one (product, type) number `count` when the product is listed, the type is offered, and the count is positive; otherwise there are none; the items are numbered 1, 2, ... |
| Plan.ProviderSlotsSelect | generator.py:148-158 | the items of one (product, type) in a provider's loop are that pair's batch alone |
| Plan.SeriesKeysExactly | generator.py:180-182 | a provider registers a series for a product exactly when the product is listed and its episode count is non-zero |
| Plan.SeriesKeyInjective | generator.py:181 | series keys of one provider determine the product |
| Plan.DefaultOthersSlots | generator.py:99-106 | default mode makes 7 items for `others` |
| Plan.DefaultWarnerSlots | generator.py:99-106 | default mode makes 2 items for `warnerbros` |
| Plan.DefaultModeItemCount | generator.py:99-158 | default mode makes 9 items in all |
| Plan.DefaultProductSlots | generator.py:99-106 | each default pair makes 3 items for `others`/`twc` and 2 otherwise |
| Rows.StampItem | generator.py:204-215 | the row keeps every template column outside the stamped ones; it sets title, programming type and asset names; it sets `package_id` and `products` only when the template has them |
| Rows.StampEpisode | generator.py:219-228 | an episode row gets the series and season fields of its identity, season "1", and `str(number)` |
| Rows.StampedColumns | generator.py:204-228 | a stamped row's columns are the template's plus the item fields, plus the episode fields for episodes |
| Rows.StampedIdentity | generator.py:208-213 | title, programming type and the three asset names come from the drawn names |
| Rows.StampedCarryOver | generator.py:204-215 | "Video Type", `package_id` and `products` appear in the row exactly when in the template; their values are kept, replaced by the package id, or replaced by the product |
| Rows.StampedEpisode | generator.py:219-228 | an episode row holds its identity's shared fields and season "1", and its episode number reads back as the number |
| Rows.EpisodesShareSeries | generator.py:219-228 | two episodes stamped with one identity agree on every shared series field |
| Rows.StampedAssets | generator.py:211-228 | the files a row names are the item's three assets, plus the three series assets for an episode |
| Series.SeriesRegistry.LookupOrCreate | generator.py:180-199 | a known key returns its identity and changes nothing; an unknown key draws five values, copies the images, and stores the identity only if the copies succeed |
| Series.LookupKeepsStock | generator.py:182-197 | a lookup keeps every stored identity; every stored identity keeps its images in the folder |
| Generator.GenerateBatch | generator.py:203-230 | with the corrected copy: `count` items stamped from consecutive draws, each item's assets copied; fails exactly when a canonical media file is missing and the count is positive |
| Generator.MaterialiseRow | generator.py:204-217 | with the corrected copy, one item: three draws, the stamped row, and its assets in the folder on success |
| Generator.NewSeriesFor | generator.py:182-197 | the new identity is stored exactly when both images copy; the folder keeps every stored identity's images |
| Generator.GeneratePair | generator.py:160-230 | with the corrected copy, one (product, type) pair: raises exactly when no template exists, the series images are missing, or the item media are missing; otherwise generates that pair's items |
| Generator.GenerateType | generator.py:149-230 | with the corrected copy, one loop type, skipped when not offered or counted zero: succeeds exactly when `TypeSucceeds`; the rows are `TypeSlots` |
| Generator.GenerateProduct | generator.py:148-230 | with the corrected copy, one product's three types in order: the rows are `ProductSlots`; a series is registered exactly when episodes are counted |
| Generator.GenerateProvider | generator.py:146-230 | with the corrected copy, one provider, starting from an empty registry: succeeds exactly when every product succeeds; the rows are `ProviderSlots`; the registry keys are `SeriesKeys`; every identity's images are in the folder |
| Results.GeneratedLength | generator.py:203-230 | a run holds one row per item |
| Results.GeneratedRowAt | generator.py:203-230 | row `j` is the template of its item's type stamped with names whose assets are in the folder, and with the product's series identity for an episode |
| Results.LastBatchRowAt | generator.py:203-230 | a row of the newest batch is its item's stamped row, whose template exists and whose assets are in the folder |
| Results.ItemRowMeaning | generator.py:203-230 | item `k` of a stocked batch is the template of its type stamped with its names, its assets are in the folder, and an episode has its series identity |
| Results.RowColumns | generator.py:204-228 | every generated row has the template's columns plus the stamped ones; its "Video Type" matches its type and its programming type is the label |
| Results.RowItemAssets | generator.py:211-217 | the three asset files a row names are in the provider folder |
| Results.RowAssetsPresent | generator.py:211-228 | every file a row names exists in the folder, including an episode's series images |
| Results.EpisodeRow | generator.py:219-228 | an episode row carries its product's series fields, season "1", and its own episode number |
| Results.EpisodesOfProductShareSeries | generator.py:180-228 | all episodes of one product agree on every series and season field |
| Writer.Trim | generator.py:78 | the trimmed row holds exactly the row's columns that are in the header, with their values |
| Writer.TrimmedRecord | generator.py:74-79 | trimming does not change the record `DictWriter` writes |
| Writer.CsvNameNotAsset | generator.py:73 | the CSV name never equals an asset name, so writing it does not overwrite media |
| Writer.WriteCsvGrows | generator.py:70-79 | writing the CSV creates the folder, adds exactly the CSV file, leaves it non-empty, and changes no other folder |
| Writer.SaveCsv | generator.py:65-80 | no rows: `None` and nothing changes; otherwise one draw, the file `generated-{provider}-test-package-{uid4}.csv` holding the trimmed rows, and its file name |
| Form.CheckMeaning | app.py:70-71 | the flag is `False` exactly when all three counts parse and none is positive; `True` means one is positive; with all three parsed it is the plain `or` |
| Form.FlagMeaning | app.py:62-71 | a provider raises exactly when one product raises; it is flagged exactly when none raises and one product is flagged |
| Form.KeptMeaning | app.py:62-84 | a provider is kept exactly when, for every product, no count the short-circuit `or` of app.py:70 reaches fails `int()`, and one product has a positive count; a count it never reaches is not parsed, so a kept provider can still hold one that `run_generation` rejects with `ValueError` at generator.py:121 (`Config.CountNotInteger`) |
| Form.ProviderCheckSnoc | app.py:64-71 | the flag after one more product |
| Form.Configured | app.py:70-71 | the `if` with short-circuit `or`, `int()` of the short count included |
| Form.MakeProductConfig | app.py:65-80 | the product entry holds the movie and episode strings as typed, and the short string only for `others`/`twc` |
| Form.ReadProduct | app.py:65-80 | one product: its entry and its flag (or the `ValueError`) |
| Form.FillProvider | app.py:64-80 | one provider's products in order: their entries and the provider's flag |
| Form.AddProvider | app.py:62-84 | insert, fill, and delete when the flag is down: the entry is appended exactly when the flag is raised |
| Form.ReconstructManual | app.py:58-88 | the form gives the configuration of the kept providers in catalogue order, or "nothing entered", or the `ValueError` |
| Form.ReconstructRaises | app.py:70 | the form step raises exactly when some provider's loop raises |
| Form.KeptProviderPresent | app.py:82-84 | every kept provider appears in the configuration with its entries |
| Form.PresentProviderKept | app.py:82-84 | every provider in the configuration was kept |
| Form.EntriesKeys | app.py:64-80 | a provider's entries list exactly its products, in order |
| Form.CatalogAvailable | app.py:13-16 | the front end's provider table lists known providers, each product once |
| Form.OutcomeWellFormed | app.py:58-91 | a configuration from the form is non-empty, its keys are distinct, and each provider carries exactly its catalogued product list, as manual mode requires |
| Summary.GetSummaryData | generator.py:260-316 | no output root: two empty tables; otherwise one content row per distinct triple with its number of occurrences, and one file row per (provider, type) with its tallies, each table in the order its keys first occur |
| Summary.ReadProvider | generator.py:284-300 | a provider's rows extend the summary by their triples, in order, and keep the tallies exact |
| Summary.CountFiles | generator.py:293-300 | one row bumps its (provider, type) tally; the key order stays the first-occurrence order of the pairs |
| Summary.TallyFor | generator.py:293-300 | `n` rows of a pair give `n` mp4, landscape and portrait files, and `n` series and season images only for full episodes |
| Summary.BumpTally | generator.py:294-300 | one more row of a pair is one more in each of its counters |
| Summary.CountTriples | generator.py:302 | `Counter`: each distinct triple with its number of occurrences, its keys in the order of first occurrence (`Seqs.FirstSeen`) |
| Summary.CountOne | generator.py:302 | one more entry: its count goes up by one, and a new entry is appended to the key order |
| Seqs.FirstSeenMembers | generator.py:293-302 | the insertion order of a dict filled from a sequence holds exactly the sequence's elements |
| Seqs.FirstSeenDistinct | generator.py:293-302 | that order lists no key twice |
| Seqs.FirstSeenSnoc | generator.py:293-302 | a known key keeps the order, a new key goes last |
| Summary.ContentRows | generator.py:303 | one output row per counted triple, in order |
| Summary.FileRows | generator.py:305-314 | one output row per tallied pair, with its five numbers |
| Summary.ProviderEntries | generator.py:273-291 | each triple of a listed provider occurs in the summary as often as in that provider's own CSV |
| Summary.NotListedNotCounted | generator.py:273 | no triple of an unlisted provider appears |
| Run.VisitedFoldersMeaning | generator.py:132-144 | a folder is collected exactly when its provider is in the plan and its source CSV has rows |
| Run.ActiveFolders | generator.py:239 | a folder is active exactly when it was collected, exists, and is not empty |
| Run.ActiveIff | generator.py:239-242 | some collected folder is active exactly when `AnyActive` |
| Run.ConfigurationPlanOk | generator.py:108-113 | every resolved plan has distinct known providers and distinct products per provider |
| Run.ProviderPass | generator.py:134-235 | with the corrected copy, one provider: raises exactly when some product raises; otherwise all its items are generated; a CSV is written exactly when there are items; its package (`Packaged`) is in place: the written CSV holds the trimmed rows under the source header, every series identity's images are in the folder, and the rows are the generated ones |
| Run.GenerateAll | generator.py:132-236 | with the corrected copy: raises exactly when some visited provider raises; only plan folders change; the collected folders are the visited providers; otherwise every visited provider with items has its package in place in the final tree, and no other provider has one (`AllPackaged`) |
| Run.PackagedFrame | generator.py:134-235 | a package stays in place while another provider's folder grows |
| Run.AllPackagedStep | generator.py:134-236 | one more provider keeps every earlier package in place and adds its own exactly when it is visited and has items |
| Run.PackageComplete | generator.py:203-235 | in a package, the CSV has one row per slot, row `j` is the trimmed generated row, and that row's assets are in the provider folder |
| Run.MakeArchive | generator.py:244-253 | one draw; the archive is named from its first six hex digits and holds every file under the output root |
| Run.Finish | generator.py:239-253 | the end of a run that did not raise: "no files" exactly when no collected folder is active, otherwise the archive of the whole root |
| Run.RunPlan | generator.py:132-253 | with the corrected copy: raises exactly when generation raises; otherwise every package is in place (`AllPackaged`) and the result is `Reported`: an archive exactly when a collected folder is active, holding every file under the root and named from one draw; "no files" otherwise |
| Run.RunGeneration | generator.py:87-253 | with the corrected copy: a rejected configuration returns its message and touches nothing; an unparsable count raises before any file is written; a resolved one raises exactly when its plan does not succeed, and otherwise leaves every package in place and reports as `RunPlan` |

## Left out

- File I/O is not modelled byte for byte:
  - CSV parsing and quoting, and the `DictReader`/`DictWriter` byte format, are out. A source CSV is its header and its rows (`Run.SourceTable`). A written CSV is its header and its trimmed rows.
  - The zip file's bytes and compression are out. The archive is its name and its set of (folder, file) entries.
  - Absolute paths are out. The archive's relative paths are (provider folder, file name).
- `load_csv_rows`: a missing source file is a provider absent from `sources`, which gives no rows. Which providers have a file is a parameter.
- `get_summary_data`: the `glob` and `max(..., key=os.path.getmtime)` choice of the latest CSV is out. The latest rows of each provider, and whether the output root exists, are parameters.
- The clock: `datetime.today()` is a `date` parameter, fixed for one run. A run that crosses midnight is not modelled.
- `uuid.uuid4()` is the k-th value of a fixed stream (`Naming.Entropy.draws`). Nothing is assumed about its values beyond their count and order.
- Printing (`print`, `tabulate`) and the Flask side of `app.py` are out: routing, `flash`, `redirect`, `send_file` and the templates. So is the default-mode GET branch, beyond the `mode` string it passes.
- Exceptions are values `Generator.Fault`. Once one is raised, nothing after it in the same run is modelled. The files already written stay in the tree.
- The manual configuration must use known providers (`Config.WellFormedManual`). For an unknown one, `run_generation` raises `KeyError` in `load_csv_rows`; that path is a precondition, not a modelled error. The form always yields known providers (`Form.OutcomeWellFormed`).
- The count keys are decoded (`Catalog.DecodeCountKey`) only for the two known providers. The flat key is not injective for arbitrary provider names.
- `str.lower()` is modelled on ASCII letters only; non-ASCII case mapping is out. `int()` accepts ASCII digits, single underscores between digits, a sign and surrounding white space. Non-ASCII decimal digits, which Python's `int()` also accepts, are out. White space is exactly the set for which `str.isspace()` holds (`Text.IsSpace`), for both `strip()` and `int()`.
- Negative counts are modelled as written: they pass `count == 0`, so a template is chosen and, for episodes, a series is registered, but `range(count)` adds no item.
- Generator.MaterialiseRow: models `generator.py` with `os.makedirs(folder, exist_ok=True)` before the `copy_assets` call at generator.py:217, the correction under "## Findings". As written, the first movie or short copied into a provider folder that does not exist yet raises `FileNotFoundError` (`Files.CopyAssetsIntoMissingFolderFails`); that run is not what this member states.
- Generator.GenerateBatch: models `generator.py` with `os.makedirs(folder, exist_ok=True)` before the `copy_assets` call at generator.py:217, the correction under "## Findings". As written, the first movie or short copied into a provider folder that does not exist yet raises `FileNotFoundError` (`Files.CopyAssetsIntoMissingFolderFails`); that run is not what this member states.
- Generator.GeneratePair: models `generator.py` with `os.makedirs(folder, exist_ok=True)` before the `copy_assets` call at generator.py:217, the correction under "## Findings". As written, the first movie or short copied into a provider folder that does not exist yet raises `FileNotFoundError` (`Files.CopyAssetsIntoMissingFolderFails`); that run is not what this member states.
- Generator.GenerateType: models `generator.py` with `os.makedirs(folder, exist_ok=True)` before the `copy_assets` call at generator.py:217, the correction under "## Findings". As written, the first movie or short copied into a provider folder that does not exist yet raises `FileNotFoundError` (`Files.CopyAssetsIntoMissingFolderFails`); that run is not what this member states.
- Generator.GenerateProduct: models `generator.py` with `os.makedirs(folder, exist_ok=True)` before the `copy_assets` call at generator.py:217, the correction under "## Findings". As written, the first movie or short copied into a provider folder that does not exist yet raises `FileNotFoundError` (`Files.CopyAssetsIntoMissingFolderFails`); that run is not what this member states.
- Generator.GenerateProvider: models `generator.py` with `os.makedirs(folder, exist_ok=True)` before the `copy_assets` call at generator.py:217, the correction under "## Findings". As written, the first movie or short copied into a provider folder that does not exist yet raises `FileNotFoundError` (`Files.CopyAssetsIntoMissingFolderFails`); that run is not what this member states.
- Run.ProviderPass: models `generator.py` with `os.makedirs(folder, exist_ok=True)` before the `copy_assets` call at generator.py:217, the correction under "## Findings". As written, the first movie or short copied into a provider folder that does not exist yet raises `FileNotFoundError` (`Files.CopyAssetsIntoMissingFolderFails`); that run is not what this member states.
- Run.GenerateAll: models `generator.py` with `os.makedirs(folder, exist_ok=True)` before the `copy_assets` call at generator.py:217, the correction under "## Findings". As written, the first movie or short copied into a provider folder that does not exist yet raises `FileNotFoundError` (`Files.CopyAssetsIntoMissingFolderFails`); that run is not what this member states.
- Run.RunPlan: models `generator.py` with `os.makedirs(folder, exist_ok=True)` before the `copy_assets` call at generator.py:217, the correction under "## Findings". As written, the first movie or short copied into a provider folder that does not exist yet raises `FileNotFoundError` (`Files.CopyAssetsIntoMissingFolderFails`); that run is not what this member states.
- Run.RunGeneration: models `generator.py` with `os.makedirs(folder, exist_ok=True)` before the `copy_assets` call at generator.py:217, the correction under "## Findings". As written, the first movie or short copied into a provider folder that does not exist yet raises `FileNotFoundError` (`Files.CopyAssetsIntoMissingFolderFails`); that run is not what this member states.

## Findings

| source | as written | input that shows it | evidently intended | confidence | as-written member | corrected member |
|---|---|---|---|---|---|---|
| generator.py:45-53, 217 | `copy_assets` copies into `OUTPUT_DIR/provider` without creating it. The folder is only created by the series branch (193) or by `save_csv` (71), both later than the first movie. | Default mode on a fresh output root: the first item is `others`/`localnow` "Full Movie", so the copy raises `FileNotFoundError`, which is re-raised as a missing-media error although every media file is present. | Create the provider folder before copying, as the series branch does at 193. | not executed | Files.CopyAssetsStep (with Files.CopyAssetsIntoMissingFolderFails) | Files.CopyAssetsEnsuringFolder (used by Files.OutputTree.CopyAssets) |
