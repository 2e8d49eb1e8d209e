/** The records and error kinds shared by the client and the tool layer. */
module Types {

  import opened Wrappers
  import opened OrderedDict

  /** The filters of a search; every filter is optional. */
  datatype ListingSearchParams = ListingSearchParams(
    query: Option<string>,
    location: Option<string>,
    radius: Option<int>,
    minPrice: Option<int>,
    maxPrice: Option<int>,
    pageCount: int)

  /** The parameters a search starts from when the caller sets none: no filter, one page. */
  function DefaultSearchParams(): (p: ListingSearchParams)
    ensures p.query.None? && p.location.None? && p.radius.None?
    ensures p.minPrice.None? && p.maxPrice.None?
    ensures p.pageCount == 1
  {
    ListingSearchParams(None, None, None, None, None, 1)
  }

  /** One row of a search result page. */
  datatype ListingSummary = ListingSummary(
    adid: string,
    url: string,
    title: string,
    price: string,
    description: string)

  /** The full record of one listing. */
  datatype ListingDetails = ListingDetails(
    id: string,
    categories: seq<string>,
    title: string,
    status: string,
    price: Option<string>,
    delivery: Option<string>,
    location: Option<Dict>,
    views: string,
    description: string,
    images: seq<string>,
    details: Dict,
    features: Dict,
    seller: Dict,
    extraInfo: Dict)

  /** `KleinanzeigenError` and its two kinds; `message` is what `str(e)` gives. */
  datatype KleinanzeigenError =
    | SearchError(message: string)
    | DetailFetchError(message: string)
}
