/**
 * The detail page of one saved creation: it rebuilds the gallery's visible list from
 * the same records and flag, reads the record at the index in the URL, and offers a
 * way back to the gallery with the same filter. Unlike the gallery it has no loading
 * state: records not yet fetched count as none, so the page shows "not found".
 */
module CreationDetailPage {
  import opened Wrappers
  import opened JsString
  import opened CreationRecords
  import opened GalleryPage

  datatype DetailView =
    | NotFound
    | Found(record: CreationRecord)

  /**
   * `sortedRecords[Number(index)]`: the record at a valid position of the visible
   * list; every other index (past the end, or not a decimal number) is not found.
   */
  function CreationDetailContent(records: Option<seq<CreationRecord>>, index: string, search: Search): (view: DetailView)
    ensures var visible := VisibleRecords(records, FilterFlag(search));
      view.Found? <==> (ParseDecimal(index).Some? && ParseDecimal(index).value < |visible|)
    ensures view.Found? ==> view.record == VisibleRecords(records, FilterFlag(search))[ParseDecimal(index).value]
  {
    var sorted := VisibleRecords(records, FilterFlag(search));
    match ParseDecimal(index)
    case Some(i) => if i < |sorted| then Found(sorted[i]) else NotFound
    case None => NotFound
  }

  /** `handleBackToGallery()`: the gallery with the filter this page was opened with. */
  function HandleBackToGallery(search: Search): (route: Route)
    ensures route.GalleryRoute? && FilterFlag(route.search) == FilterFlag(search)
  {
    GalleryRoute(SearchFor(FilterFlag(search)))
  }

  /**
   * Clicking card `i` of a loaded gallery opens a detail page that shows that very
   * record: both pages compute the same list from the same records and flag.
   */
  lemma CardClickShowsSameRecord(records: seq<CreationRecord>, search: Search, i: nat)
    requires GalleryContent(Some(records), false, search).Cards?
    requires i < |GalleryContent(Some(records), false, search).records|
    ensures var route := HandleCardClick(search, i);
      CreationDetailContent(Some(records), route.index, route.search)
        == Found(GalleryContent(Some(records), false, search).records[i])
  {
  }

  /** With the filter on, a record the detail page finds is usable. */
  lemma FoundIsUsable(records: Option<seq<CreationRecord>>, index: string, search: Search)
    requires FilterFlag(search)
    requires CreationDetailContent(records, index, search).Found?
    ensures CreationDetailContent(records, index, search).record.usable
  {
  }

  /** Going back from a detail page opened by a card click restores the gallery's filter. */
  lemma BackRestoresFilter(search: Search, i: nat)
    ensures FilterFlag(HandleBackToGallery(HandleCardClick(search, i).search).search) == FilterFlag(search)
  {
  }
}
