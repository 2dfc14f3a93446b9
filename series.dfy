/**
 * The per-provider series registry `series_meta`: one shared series and
 * season identity per `provider_product` key, created on the first episode
 * request for that key (its three images copied into the provider folder)
 * and handed back unchanged on every later request.
 */
module Series {
  import opened Options
  import opened Naming
  import opened Files

  /**
   * The identity created from the draws at positions `u` .. `u + 4`:
   * `generate_common_names("Series")` takes three, the season suffix the
   * fourth and the series image suffix the fifth.
   */
  function SeriesAt(draws: nat -> Uuid, u: nat, date: string): SeriesMeta {
    MakeSeriesMeta(date, NamesAt(draws, u, "Series", date), Tail(draws(u + 3).hex, 4), Tail(draws(u + 4).hex, 4))
  }

  /** The identity built from the names and suffixes of draws `u` .. `u + 4` is the one drawn at `u`. */
  lemma SeriesAtIs(draws: nat -> Uuid, u: nat, date: string, names: Names, seasonUid: string, seriesUid: string)
    requires names == NamesAt(draws, u, "Series", date)
    requires seasonUid == Tail(draws(u + 3).hex, 4) && seriesUid == Tail(draws(u + 4).hex, 4)
    ensures MakeSeriesMeta(date, names, seasonUid, seriesUid) == SeriesAt(draws, u, date)
  {
  }

  /** Every stored identity has its three images in `folder`. */
  predicate Stocked(meta: map<string, SeriesMeta>, t: Tree, folder: string) {
    forall k :: k in meta ==> SeriesAssets(meta[k]) <= FilesIn(t, folder)
  }

  class SeriesRegistry {
    var meta: map<string, SeriesMeta>

    constructor ()
      ensures meta == map[]
    {
      meta := map[];
    }

    /**
     * The registry lookup of the episode branch. A known key returns its
     * stored identity and changes nothing. An unknown key draws a new
     * identity and copies its images; the identity is stored and returned
     * only when all three copies succeed, and `None` stands for the
     * `FileNotFoundError` otherwise.
     */
    method LookupOrCreate(key: string, folder: string, out: OutputTree, rng: Entropy, date: string)
      returns (m: Option<SeriesMeta>)
      modifies this, out, rng
      ensures key in old(meta) ==>
                && m == Some(old(meta)[key]) && meta == old(meta)
                && out.folders == old(out.folders) && rng.used == old(rng.used)
      ensures key !in old(meta) ==>
                var created := SeriesAt(rng.draws, old(rng.used), date);
                var step := CopySeriesAssetsStep(old(out.folders), out.media, folder, created);
                && rng.used == old(rng.used) + 5
                && out.folders == step.tree
                && (if step.ok then m == Some(created) && meta == old(meta)[key := created]
                    else m == None && meta == old(meta))
    {
      if key in meta {
        return Some(meta[key]);
      }
      ghost var u := rng.used;
      var names := GenerateCommonNames(rng, "Series", date);
      var seasonUid := rng.RandomId(4);
      var seriesUid := rng.RandomId(4);
      SeriesAtIs(rng.draws, u, date, names, seasonUid, seriesUid);
      var created := MakeSeriesMeta(date, names, seasonUid, seriesUid);
      var ok := out.CopySeriesAssets(folder, created);
      if !ok {
        return None;
      }
      meta := meta[key := created];
      m := Some(created);
    }
  }

  /**
   * A lookup keeps every identity already stored, and keeps the registry's
   * images in the folder: the stored ones stay, a new one is stored only
   * after its images were copied.
   */
  lemma LookupKeepsStock(meta0: map<string, SeriesMeta>, t0: Tree, meta1: map<string, SeriesMeta>, t1: Tree,
                         folder: string, key: string, created: SeriesMeta, media: set<string>)
    requires Stocked(meta0, t0, folder)
    requires var step := CopySeriesAssetsStep(t0, media, folder, created);
             t1 == step.tree && step.ok && meta1 == meta0[key := created]
    ensures Stocked(meta1, t1, folder)
    ensures forall k :: k in meta0 && k != key ==> k in meta1 && meta1[k] == meta0[k]
  {
  }
}
