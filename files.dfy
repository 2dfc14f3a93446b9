/**
 * The output tree as the generator sees it: one folder per provider under the
 * output root, each a set of named files. A file is either a copy of one of
 * the canonical media files or a CSV table. The source media directory is
 * the set of canonical file names that are present.
 */
module Files {
  import opened Catalog
  import opened Naming

  datatype Content = CopyOf(source: string) | Table(header: seq<string>, rows: seq<Row>)

  type Folder = map<string, Content>

  /** Provider folder name to its files; a folder that is not a key does not exist. */
  type Tree = map<string, Folder>

  /** The three canonical files every item copy needs. */
  const CANONICAL_MEDIA: set<string> := {VIDEO_FILE, LANDSCAPE_IMAGE, PORTRAIT_IMAGE}

  /** The tree after a file operation, and whether it ran without raising. */
  datatype Step = Step(tree: Tree, ok: bool)

  function FilesIn(t: Tree, folder: string): set<string> {
    if folder in t then t[folder].Keys else {}
  }

  /** The folder exists and `os.listdir` of it is not empty. */
  predicate Active(t: Tree, folder: string) {
    folder in t && |t[folder]| > 0
  }

  /** `os.makedirs(folder, exist_ok=True)`: creates the folder if missing, touches nothing else. */
  function EnsureFolder(t: Tree, folder: string): (r: Tree)
    ensures r.Keys == t.Keys + {folder}
    ensures forall f :: f in t ==> r[f] == t[f]
    ensures FilesIn(r, folder) == FilesIn(t, folder)
  {
    if folder in t then t else t[folder := map[]]
  }

  /**
   * `shutil.copyfile` from the media directory into a folder: raises
   * `FileNotFoundError` when the source file or the destination folder is
   * missing, and otherwise creates or overwrites the destination file.
   */
  function CopyFileStep(t: Tree, media: set<string>, src: string, folder: string, dst: string): (r: Step)
    ensures r.ok <==> src in media && folder in t
    ensures r.tree.Keys == t.Keys
    ensures forall f :: f in t && f != folder ==> r.tree[f] == t[f]
    ensures FilesIn(r.tree, folder) == FilesIn(t, folder) + (if r.ok then {dst} else {})
  {
    if src in media && folder in t then Step(t[folder := t[folder][dst := CopyOf(src)]], true)
    else Step(t, false)
  }

  /**
   * `copy_assets(folder, names)` as written: three copies in order, the first
   * failure aborting the rest (earlier copies stay on disk). It does not create
   * the destination folder.
   */
  function CopyAssetsStep(t: Tree, media: set<string>, folder: string, names: Names): (r: Step)
    ensures r.tree.Keys == t.Keys
    ensures forall f :: f in t && f != folder ==> r.tree[f] == t[f]
    ensures FilesIn(t, folder) <= FilesIn(r.tree, folder)
    ensures r.ok <==> folder in t && CANONICAL_MEDIA <= media
    ensures r.ok ==> FilesIn(r.tree, folder) == FilesIn(t, folder) + ItemAssets(names)
  {
    var a := CopyFileStep(t, media, VIDEO_FILE, folder, names.video);
    if !a.ok then a
    else
      var b := CopyFileStep(a.tree, media, LANDSCAPE_IMAGE, folder, names.landscape);
      if !b.ok then b else CopyFileStep(b.tree, media, PORTRAIT_IMAGE, folder, names.portrait)
  }

  /**
   * On an output tree where the provider folder does not exist yet (a first
   * run, before any episode or CSV has created it), copying one item's assets
   * raises even though every canonical media file is present.
   */
  lemma CopyAssetsIntoMissingFolderFails(t: Tree, folder: string, names: Names)
    requires folder !in t
    ensures !CopyAssetsStep(t, CANONICAL_MEDIA, folder, names).ok
    ensures CopyAssetsStep(t, CANONICAL_MEDIA, folder, names).tree == t
  {
  }

  /**
   * The item copy with the folder created first, as the series copies do: it
   * raises exactly when a canonical media file is missing, and on success the
   * folder holds the item's three assets besides what it held before.
   */
  function CopyAssetsEnsuringFolder(t: Tree, media: set<string>, folder: string, names: Names): (r: Step)
    ensures r.tree.Keys == t.Keys + {folder}
    ensures forall f :: f in t && f != folder ==> r.tree[f] == t[f]
    ensures FilesIn(t, folder) <= FilesIn(r.tree, folder)
    ensures r.ok <==> CANONICAL_MEDIA <= media
    ensures r.ok ==> FilesIn(r.tree, folder) == FilesIn(t, folder) + ItemAssets(names)
  {
    CopyAssetsStep(EnsureFolder(t, folder), media, folder, names)
  }

  /**
   * The three series copies into an existing folder: the portrait image to
   * the series poster, the landscape image to the series and season
   * landscapes, the first failure aborting the rest.
   */
  function CopySeriesFiles(t: Tree, media: set<string>, folder: string, m: SeriesMeta): (r: Step)
    ensures r.tree.Keys == t.Keys
    ensures forall f :: f in t && f != folder ==> r.tree[f] == t[f]
    ensures FilesIn(t, folder) <= FilesIn(r.tree, folder)
    ensures r.ok <==> folder in t && PORTRAIT_IMAGE in media && LANDSCAPE_IMAGE in media
    ensures r.ok ==> FilesIn(r.tree, folder) == FilesIn(t, folder) + SeriesAssets(m)
  {
    var a := CopyFileStep(t, media, PORTRAIT_IMAGE, folder, m.seriesPoster);
    if !a.ok then a
    else
      var b := CopyFileStep(a.tree, media, LANDSCAPE_IMAGE, folder, m.seriesLandscape);
      if !b.ok then b else CopyFileStep(b.tree, media, LANDSCAPE_IMAGE, folder, m.seasonLandscape)
  }

  /** The series copies of the episode branch: the folder is created first, then the three copies. */
  function CopySeriesAssetsStep(t: Tree, media: set<string>, folder: string, m: SeriesMeta): (r: Step)
    ensures r.tree.Keys == t.Keys + {folder}
    ensures forall f :: f in t && f != folder ==> r.tree[f] == t[f]
    ensures FilesIn(t, folder) <= FilesIn(r.tree, folder)
    ensures r.ok <==> PORTRAIT_IMAGE in media && LANDSCAPE_IMAGE in media
    ensures r.ok ==> FilesIn(r.tree, folder) == FilesIn(t, folder) + SeriesAssets(m)
  {
    CopySeriesFiles(EnsureFolder(t, folder), media, folder, m)
  }

  /**
   * What the generator's file operations on one folder can do to a tree:
   * create that folder and add or overwrite files in it; no other folder
   * changes and no file disappears.
   */
  predicate Grows(t0: Tree, t1: Tree, folder: string) {
    && t0.Keys <= t1.Keys <= t0.Keys + {folder}
    && (forall f :: f in t0 && f != folder ==> t1[f] == t0[f])
    && FilesIn(t0, folder) <= FilesIn(t1, folder)
  }

  lemma GrowsTransitive(t0: Tree, t1: Tree, t2: Tree, folder: string)
    requires Grows(t0, t1, folder) && Grows(t1, t2, folder)
    ensures Grows(t0, t2, folder)
  {
  }

  /** Every file under the output root, as (folder, file name): what the archive walk collects. */
  function ArchiveEntries(t: Tree): set<(string, string)> {
    set f, n | f in t && n in t[f] :: (f, n)
  }

  /** The output root on disk and the media directory it copies from. */
  class OutputTree {
    const media: set<string>
    var folders: Tree

    constructor (media: set<string>, folders: Tree)
      ensures this.media == media && this.folders == folders
    {
      this.media := media;
      this.folders := folders;
    }

    method MakeDirs(folder: string)
      modifies this
      ensures folders == EnsureFolder(old(folders), folder)
    {
      if folder !in folders {
        folders := folders[folder := map[]];
      }
    }

    method CopyFile(src: string, folder: string, dst: string) returns (ok: bool)
      modifies this
      ensures Step(folders, ok) == CopyFileStep(old(folders), media, src, folder, dst)
    {
      ok := src in media && folder in folders;
      if ok {
        folders := folders[folder := folders[folder][dst := CopyOf(src)]];
      }
    }

    /** Copies one item's assets into a folder it first creates. */
    method CopyAssets(folder: string, names: Names) returns (ok: bool)
      modifies this
      ensures Step(folders, ok) == CopyAssetsEnsuringFolder(old(folders), media, folder, names)
    {
      MakeDirs(folder);
      ok := CopyFile(VIDEO_FILE, folder, names.video);
      if ok {
        ok := CopyFile(LANDSCAPE_IMAGE, folder, names.landscape);
        if ok {
          ok := CopyFile(PORTRAIT_IMAGE, folder, names.portrait);
        }
      }
    }

    method CopySeriesAssets(folder: string, m: SeriesMeta) returns (ok: bool)
      modifies this
      ensures Step(folders, ok) == CopySeriesAssetsStep(old(folders), media, folder, m)
    {
      MakeDirs(folder);
      ok := CopyFile(PORTRAIT_IMAGE, folder, m.seriesPoster);
      if ok {
        ok := CopyFile(LANDSCAPE_IMAGE, folder, m.seriesLandscape);
        if ok {
          ok := CopyFile(LANDSCAPE_IMAGE, folder, m.seasonLandscape);
        }
      }
    }

    /** Writes (creates or replaces) a CSV file in an existing folder. */
    method WriteTable(folder: string, name: string, header: seq<string>, rows: seq<Row>)
      requires folder in folders
      modifies this
      ensures folders == old(folders)[folder := old(folders)[folder][name := Table(header, rows)]]
    {
      folders := folders[folder := folders[folder][name := Table(header, rows)]];
    }
  }
}
