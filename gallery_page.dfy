/**
 * The gallery page: the search parameter `usableOnly` (absent means off), the list
 * of cards it shows, the navigation a card click or the filter button requests, and
 * the empty state.
 */
module GalleryPage {
  import opened Wrappers
  import opened JsString
  import opened CreationRecords

  /** The search part of a gallery URL: `{ usableOnly?: boolean }`. */
  datatype Search = Search(usableOnly: Option<bool>)

  /** The routes the gallery pages navigate to. */
  datatype Route =
    | WorkspaceRoute
    | GalleryRoute(search: Search)
    | DetailRoute(index: string, search: Search)

  /** `search.usableOnly ?? false`. */
  function FilterFlag(search: Search): (on: bool)
    ensures on <==> search.usableOnly == Some(true)
  {
    search.usableOnly.GetOr(false)
  }

  /** `usableOnlyFilter ? { usableOnly: true } : {}`: the search that carries a flag on. */
  function SearchFor(usableOnly: bool): (search: Search)
    ensures FilterFlag(search) == usableOnly
  {
    if usableOnly then Search(Some(true)) else Search(None)
  }

  /** `handleCardClick(index)`: the detail page of card `index`, keeping the filter. */
  function HandleCardClick(search: Search, index: nat): (route: Route)
    ensures route.DetailRoute? && FilterFlag(route.search) == FilterFlag(search)
    ensures ParseDecimal(route.index) == Some(index)
  {
    ParseDecimalRoundTrip(index);
    DetailRoute(NatToString(index), SearchFor(FilterFlag(search)))
  }

  /** `toggleFilter()`: the gallery again, with the filter flipped (on becomes `{}`). */
  function ToggleFilter(search: Search): (route: Route)
    ensures route.GalleryRoute? && FilterFlag(route.search) == !FilterFlag(search)
    ensures FilterFlag(search) ==> route.search == Search(None)
    ensures !FilterFlag(search) ==> route.search == Search(Some(true))
  {
    GalleryRoute(SearchFor(!FilterFlag(search)))
  }

  /** Toggling twice restores the flag. */
  lemma ToggleTwice(search: Search)
    ensures FilterFlag(ToggleFilter(ToggleFilter(search).search).search) == FilterFlag(search)
  {
  }

  const NoUsableMessage: string :=
    "No usable creations found. Try disabling the filter or generate textures in the workspace."
  const NoCreationsMessage: string :=
    "Generate textures in the workspace and save them to build your gallery"

  datatype GalleryView =
    | Loading
      /** "No Saved Creations" with the message for the current filter. */
    | EmptyState(message: string)
      /** One card per record, in order; card `i` opens `HandleCardClick(search, i)`. */
    | Cards(records: seq<CreationRecord>)

  /** What `GalleryContent` renders for the query's state and the search. */
  function GalleryContent(records: Option<seq<CreationRecord>>, isLoading: bool, search: Search): (view: GalleryView)
    ensures view.Loading? <==> isLoading
    ensures !isLoading ==> (view.EmptyState? <==> VisibleRecords(records, FilterFlag(search)) == [])
    ensures view.EmptyState? ==> view.message == if FilterFlag(search) then NoUsableMessage else NoCreationsMessage
    ensures view.Cards? ==> view.records == VisibleRecords(records, FilterFlag(search)) && view.records != []
  {
    if isLoading then Loading
    else
      var sorted := VisibleRecords(records, FilterFlag(search));
      if |sorted| == 0 then EmptyState(if FilterFlag(search) then NoUsableMessage else NoCreationsMessage)
      else Cards(sorted)
  }

  /**
   * With the filter on, the page shows one card per usable record, newest first,
   * and every card is a usable record.
   */
  lemma UsableCards(records: seq<CreationRecord>, search: Search)
    requires FilterFlag(search)
    ensures var view := GalleryContent(Some(records), false, search);
      (view.EmptyState? <==> UsablePositions(records) == {})
      && (view.Cards? ==> |view.records| == |UsablePositions(records)|
                          && forall k :: 0 <= k < |view.records| ==> view.records[k].usable)
  {
    VisibleContents(Some(records), true);
  }

  /** With the filter off, the page shows every fetched record; while loading nothing is shown. */
  lemma AllCards(records: seq<CreationRecord>, search: Search)
    requires !FilterFlag(search)
    ensures var view := GalleryContent(Some(records), false, search);
      (view.EmptyState? <==> records == [])
      && (view.Cards? ==> multiset(view.records) == multiset(records))
  {
    VisibleContents(Some(records), false);
  }
}
