/**
 * The fleet grid: which assets a search text and a status filter let
 * through, and how each card is flagged.
 */
module AssetsView {
  import opened Types
  import JsString
  import opened JsArray

  /** The name or the internal id contains the query, ignoring case. */
  predicate MatchesSearch(a: Asset, query: string)
  {
    var q := JsString.ToLower(query);
    JsString.Includes(JsString.ToLower(a.name), q) || JsString.Includes(JsString.ToLower(a.internalId), q)
  }

  /**
   * The status filter: "critical" lets through down and warning assets,
   * "active" and "maintenance" their own status; "all", and any other
   * value, everything.
   */
  predicate PassesFilter(a: Asset, filter: string)
  {
    if filter == "all" then true
    else if filter == "critical" then a.status == Down || a.status == Warning
    else if filter == "active" then a.status == Active
    else if filter == "maintenance" then a.status == Maintenance
    else true
  }

  predicate Shown(a: Asset, filter: string, query: string)
  {
    MatchesSearch(a, query) && PassesFilter(a, filter)
  }

  /** The assets the grid shows, in the order given. */
  function FilteredAssets(assets: seq<Asset>, filter: string, query: string): (r: seq<Asset>)
    ensures IsSubsequence(r, assets)
    ensures forall i :: 0 <= i < |r| ==> Shown(r[i], filter, query)
    ensures forall i :: 0 <= i < |assets| ==> (assets[i] in r <==> Shown(assets[i], filter, query))
  {
    Filter(assets, a => Shown(a, filter, query))
  }

  /** With no query and the "all" filter, every asset is shown, in order. */
  lemma EmptyQueryShowsAll(assets: seq<Asset>)
    ensures FilteredAssets(assets, "all", "") == assets
  {
    forall i | 0 <= i < |assets| ensures Shown(assets[i], "all", "") {
      JsString.IncludesEmpty(JsString.ToLower(assets[i].name));
    }
    FilterAll(assets, a => Shown(a, "all", ""));
  }

  /** The search ignores the case of the query. */
  lemma {:induction false} SearchIgnoresQueryCase(a: Asset, query: string)
    ensures MatchesSearch(a, JsString.ToLower(query)) <==> MatchesSearch(a, query)
  {
    JsString.ToLowerIdempotent(query);
  }

  /** Each status filter shows a sub-list of what "all" shows for the same query. */
  lemma StatusFiltersRefineAll(assets: seq<Asset>, filter: string, query: string)
    ensures IsSubsequence(FilteredAssets(assets, filter, query), FilteredAssets(assets, "all", query))
    ensures |FilteredAssets(assets, filter, query)| <= |FilteredAssets(assets, "all", query)|
  {
    FilterMonotone(assets, a => Shown(a, filter, query), a => Shown(a, "all", query));
  }

  /** The `active`, `maintenance` and `critical` results share no asset. */
  lemma StatusFiltersDisjoint(assets: seq<Asset>, query: string)
    ensures |FilteredAssets(assets, "active", query)| + |FilteredAssets(assets, "critical", query)| <= |assets|
    ensures |FilteredAssets(assets, "active", query)| + |FilteredAssets(assets, "maintenance", query)| <= |assets|
    ensures |FilteredAssets(assets, "maintenance", query)| + |FilteredAssets(assets, "critical", query)| <= |assets|
    ensures forall x :: !(x in FilteredAssets(assets, "active", query) && x in FilteredAssets(assets, "critical", query))
    ensures forall x :: !(x in FilteredAssets(assets, "active", query) && x in FilteredAssets(assets, "maintenance", query))
    ensures forall x :: !(x in FilteredAssets(assets, "maintenance", query) && x in FilteredAssets(assets, "critical", query))
  {
    FilterDisjointLengths(assets, a => Shown(a, "active", query), a => Shown(a, "critical", query));
    FilterDisjointLengths(assets, a => Shown(a, "active", query), a => Shown(a, "maintenance", query));
    FilterDisjointLengths(assets, a => Shown(a, "maintenance", query), a => Shown(a, "critical", query));
  }

  /** An unrecognised filter value behaves as "all". */
  lemma UnknownFilterIsAll(assets: seq<Asset>, filter: string, query: string)
    requires filter != "all" && filter != "critical" && filter != "active" && filter != "maintenance"
    ensures FilteredAssets(assets, filter, query) == FilteredAssets(assets, "all", query)
  {
    FilterCongruent(assets, a => Shown(a, filter, query), a => Shown(a, "all", query));
  }

  /** The flags a card is drawn with. */
  datatype CardFlags = CardFlags(isMaintenance: bool, isCritical: bool, isElectric: bool)

  /** Only a down asset is drawn as critical; electric means an "Electric" model or a transport asset. */
  function CardFlagsOf(a: Asset): (f: CardFlags)
    ensures f.isCritical <==> a.status == Down
    ensures f.isMaintenance <==> a.status == Maintenance
    ensures f.isElectric <==> JsString.Includes(a.model, "Electric") || a.category == Transport
  {
    CardFlags(a.status == Maintenance, a.status == Down, JsString.Includes(a.model, "Electric") || a.category == Transport)
  }

  /**
   * Every card drawn as critical is shown under the "critical" filter, but
   * that filter also shows warning assets, which are not drawn as critical.
   */
  lemma CriticalCardsAndFilter(a: Asset, query: string)
    ensures MatchesSearch(a, query) && CardFlagsOf(a).isCritical ==> Shown(a, "critical", query)
    ensures a.status == Warning ==> !CardFlagsOf(a).isCritical && PassesFilter(a, "critical")
  {
  }
}
