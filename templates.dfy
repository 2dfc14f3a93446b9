/**
 * Template selection: the source row a generated item is copied from. The
 * first source row whose "Video Type", trimmed and lower-cased, equals the
 * wanted type is used; when none does, a copy of the first row with its
 * "Video Type" set to the wanted type. Reading "Video Type" from a row that
 * lacks the column raises `KeyError`.
 */
module Templates {
  import opened Options
  import opened Text
  import opened Catalog

  /** The row's "Video Type" names `v`, ignoring surrounding white space and letter case. */
  predicate HasType(row: Row, v: VideoType)
    requires VIDEO_TYPE_FIELD in row
  {
    Lower(Strip(row[VIDEO_TYPE_FIELD])) == Lower(v.Label())
  }

  /** Every row before position `n` has a "Video Type" and it does not name `v`. */
  predicate PassedOver(rows: seq<Row>, v: VideoType, n: nat)
    requires n <= |rows|
  {
    forall k :: 0 <= k < n ==> VIDEO_TYPE_FIELD in rows[k] && !HasType(rows[k], v)
  }

  /** How the search `next(r for r in rows if ...)` ends. */
  datatype Search = Found(at: nat) | NoMatch | NoColumn(at: nat)

  /** The search, started at position `from`. */
  function FirstMatchFrom(rows: seq<Row>, v: VideoType, from: nat): (r: Search)
    requires from <= |rows| && PassedOver(rows, v, from)
    ensures r.Found? ==> from <= r.at < |rows| && VIDEO_TYPE_FIELD in rows[r.at] && HasType(rows[r.at], v)
                         && PassedOver(rows, v, r.at)
    ensures r.NoMatch? ==> PassedOver(rows, v, |rows|)
    ensures r.NoColumn? ==> from <= r.at < |rows| && VIDEO_TYPE_FIELD !in rows[r.at] && PassedOver(rows, v, r.at)
    decreases |rows| - from
  {
    if from == |rows| then NoMatch
    else if VIDEO_TYPE_FIELD !in rows[from] then NoColumn(from)
    else if HasType(rows[from], v) then Found(from)
    else
      PassedOverStep(rows, v, from);
      FirstMatchFrom(rows, v, from + 1)
  }

  /** A row with a "Video Type" that does not name `v` extends the stretch passed over. */
  lemma PassedOverStep(rows: seq<Row>, v: VideoType, from: nat)
    requires from < |rows| && PassedOver(rows, v, from)
    requires VIDEO_TYPE_FIELD in rows[from] && !HasType(rows[from], v)
    ensures PassedOver(rows, v, from + 1)
  {
  }

  function FirstMatch(rows: seq<Row>, v: VideoType): (r: Search)
    ensures r.Found? ==> r.at < |rows| && VIDEO_TYPE_FIELD in rows[r.at] && HasType(rows[r.at], v)
                         && PassedOver(rows, v, r.at)
    ensures r.NoMatch? ==> PassedOver(rows, v, |rows|)
    ensures r.NoColumn? ==> r.at < |rows| && VIDEO_TYPE_FIELD !in rows[r.at] && PassedOver(rows, v, r.at)
  {
    FirstMatchFrom(rows, v, 0)
  }

  /**
   * The template for `v`, or `None` for the `KeyError`. The source rows
   * themselves are values here and stay as they are; the fallback is a copy.
   */
  function SelectTemplate(rows: seq<Row>, v: VideoType): (r: Option<Row>)
    requires |rows| > 0
    ensures r.None? <==> FirstMatch(rows, v).NoColumn?
    ensures FirstMatch(rows, v).Found? ==> r == Some(rows[FirstMatch(rows, v).at])
    ensures FirstMatch(rows, v).NoMatch? ==>
              && r.Some?
              && r.value.Keys == rows[0].Keys + {VIDEO_TYPE_FIELD}
              && r.value[VIDEO_TYPE_FIELD] == v.Label()
              && forall k :: k in rows[0] && k != VIDEO_TYPE_FIELD ==> r.value[k] == rows[0][k]
  {
    match FirstMatch(rows, v)
    case Found(i) => Some(rows[i])
    case NoMatch => Some(rows[0][VIDEO_TYPE_FIELD := v.Label()])
    case NoColumn(_) => None
  }

  /** The labels the generator writes are already in the form the comparison reduces them to. */
  lemma LabelUnpadded(v: VideoType)
    ensures Strip(v.Label()) == v.Label()
  {
    var s := v.Label();
    assert s[0] == 'F' || s[0] == 'S';
    assert s[|s| - 1] == 'e' || s[|s| - 1] == 'o';
    StripUnpadded(s);
  }

  /** Whichever way it is found, the template's "Video Type" names the wanted type. */
  lemma TemplateHasType(rows: seq<Row>, v: VideoType)
    requires |rows| > 0 && SelectTemplate(rows, v).Some?
    ensures VIDEO_TYPE_FIELD in SelectTemplate(rows, v).value
    ensures HasType(SelectTemplate(rows, v).value, v)
  {
    if FirstMatch(rows, v).NoMatch? {
      LabelUnpadded(v);
    }
  }

  /** The search never raises when every source row has the column. */
  lemma TemplateFoundWithColumn(rows: seq<Row>, v: VideoType)
    requires |rows| > 0
    requires forall k :: 0 <= k < |rows| ==> VIDEO_TYPE_FIELD in rows[k]
    ensures SelectTemplate(rows, v).Some?
  {
  }
}
