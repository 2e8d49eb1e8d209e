# Kleinanzeigen client and listing tools, modelled in Dafny

This project models the core of `ebay-kleinanzeigen-api-mcp`, an MCP server
that searches the German classifieds site kleinanzeigen.de and reads single
listings. The browser is replaced by data, so the model works on snapshots of
pages. It covers three files.

- `src/kleinanzeigen_mcp/client.py` is the `KleinanzeigenClient`, modelled in `client.dfy`.
  - **Search.** A search clamps `page_count` into 1..20 and builds the
    `/preis:<min>:<max>` path segment and the query string. It then visits
    result pages 1..`page_count` in order and concatenates the listings each
    page yields. The loop stops early only when page 1 is empty, and a failed
    page load becomes `SearchError`.
  - **Summaries.** A result item yields a `ListingSummary` only when it has an
    `<article>` whose `data-adid` and `data-href` are non-empty. Its price is
    cleaned of `€`, `VB` and `.`, then stripped.
  - **Details.** The details operation assembles a `ListingDetails` record.
    - The status comes from the title text and the sold badge.
    - The title keeps the part after the last `" • "`.
    - `_parse_price` turns empty text into `None`.
    - Runs of whitespace in the description are collapsed.
    - Delivery is read from the shipping text.
    - The details and features blocks are read into insertion-ordered dicts, where a later duplicate label wins.
    - Missing elements fall back to sentinel defaults.
  - **Guards.** Both operations fail before any navigation when the browser has not been started.
- `src/kleinanzeigen_mcp/tools/listings.py` holds the two MCP tools, modelled in `listings_tool.dfy`. They build their reply texts line by line:
  - the no-results message with its filter summary;
  - numbered result blocks with price fallback and description truncation;
  - the details reply with at most five images and its dict sections;
  - the error texts.
- `src/kleinanzeigen_mcp/types.py` holds the records and error kinds, modelled in `types.dfy`.

**Modelling choices**
- The client is a `class` with a `started` flag, which stands for `self.browser`. Its loops are methods with invariants, and each method is proved equal to a specification function. Properties are proved about those functions.
- A page is a record of what the client's selectors return on it. Navigation is a function `fetch` from a URL to either the loaded page or the error that navigation raised.
- Python dicts are lists of entries, because the tools print them in insertion order. `ordered_dict.dfy` proves that assignment into such a list denotes the same mapping as Python's `d[k] = v`.
- Python's `str` helpers are written out in `text.dfy`: `strip`, `replace`, `in`, `split(...)[-1]`, `join`, and the two `re.sub` collapses.
- `urllib.parse.urlencode` is modelled concretely in `query_string.dfy`: `quote_plus` over UTF-8.

**Behaviour of the code worth noting**
- `start()` wraps a browser launch failure in `SearchError` (client.py:42-44).
- A summary's price is the cleaned price text, and it is `""` when there is no price element or the text cleans to nothing (client.py:161-165).
- An exception while reading the items of a result page makes that page yield no listings (client.py:183-185). This is modelled as an `Unreadable` page.
- The tools open the client with `async with` outside their `try` (listings.py:48-49, 124-125). A launch failure therefore propagates out of the tool as `SearchError`. Every failure after the start becomes a reply text (listings.py:93-95, 194-196). `SearchTool` and `DetailsTool` state both cases.

## Model

| member | source | states |
|---|---|---|
| Types.DefaultSearchParams | src/kleinanzeigen_mcp/types.py:6-14 | Search parameters default to no filter at all and one page |
| Client.ClampPageCount | src/kleinanzeigen_mcp/client.py:86-88 | The effective page count lies in 1..20, equals the input when it is in range, and is 1 or 20 otherwise |
| Client.BoundRoundTrip | src/kleinanzeigen_mcp/client.py:94-95 | One price bound is rendered without a colon and parses back to the same optional bound, 0 included |
| Client.PricePathRoundTrip | src/kleinanzeigen_mcp/client.py:92-96 | Reading the price segment back gives both optional bounds: no segment when both are absent, and a bound of 0 is kept since the test is `is not None` |
| Client.QueryParams | src/kleinanzeigen_mcp/client.py:101-107 | Every query parameter is a truthy filter carrying the value sent for it, in the order keywords, locationStr, radius |
| Client.QueryParamsComplete | src/kleinanzeigen_mcp/client.py:101-107 | The parameter keys are distinct, and a key is present exactly when its filter is truthy (so an empty query or radius 0 is dropped) |
| QueryString.UrlencodeIsSafe | src/kleinanzeigen_mcp/client.py:109 | The encoded query holds only unreserved characters, `%`, `+`, `=` and `&` (no `{` or `}` that the page-number substitution could act on), and it is non-empty when there are parameters |
| QueryString.QuotePlusKeepsUnreserved | src/kleinanzeigen_mcp/client.py:109 | Quoting leaves text made only of unreserved characters unchanged |
| Client.PageUrlsDistinct | src/kleinanzeigen_mcp/client.py:98-119 | Different page numbers give different page URLs |
| Client.CleanPrice | src/kleinanzeigen_mcp/client.py:161-165 | A cleaned summary price holds no `€` and no `.` and has no surrounding whitespace |
| Client.ParsePrice | src/kleinanzeigen_mcp/client.py:355-364 | Empty text gives None; otherwise the price is the cleaned text, None exactly when that is empty; a present price is non-empty, holds no `€` or `.` and is stripped |
| Client.CleanPriceOnlyStrips | src/kleinanzeigen_mcp/client.py:361 | Text without `€`, "V" and `.` is only stripped by the clean-up |
| Client.ParsePriceKeepsPlain | src/kleinanzeigen_mcp/client.py:355-364 | Non-empty stripped text without `€`, "V" and `.` parses to itself, so every other character is kept |
| Client.ParsePriceThousands | src/kleinanzeigen_mcp/client.py:355-364 | For digit strings a (non-empty) and b, "a.b € VB" parses to the digits a followed by b |
| Client.ParsePriceEuroExample | tests/test_client.py:165 | "123 €" parses to "123" |
| Client.ParsePriceThousandsExample | tests/test_client.py:166 | "1.000 € VB" parses to "1000" |
| Client.ParsePriceNoneExamples | tests/test_client.py:167-168 | "" and "VB" parse to None |
| Client.SummaryOf | src/kleinanzeigen_mcp/client.py:148-179 | An item yields a summary exactly when it is selected, has an article and both `data-adid` and `data-href` are non-empty; the URL is base URL + href; title and description are the element texts or `""`; the price is the cleaned price text or `""` without a price element |
| Client.PageSummariesSpec | src/kleinanzeigen_mcp/client.py:145-181 | A summary is extracted from a page exactly when some item yields it, and the items are processed in document order (splitting the items splits the summaries) |
| Client.SearchOutcomeSpec | src/kleinanzeigen_mcp/client.py:117-137 | A search fails exactly when page 1 is not empty and some page up to the page count fails to load; it then reports the first such failure as `SearchError`; a successful search begins with page 1's listings |
| Client.StopAtFailure | src/kleinanzeigen_mcp/client.py:125-137 | When page n fails after pages 1..n-1 loaded (and page 1 was not empty), the search fails with "Failed to search listings: " and that failure |
| Client.VisitsToFailure | src/kleinanzeigen_mcp/client.py:118-137 | In that case exactly pages 1..n have been visited |
| Client.StopAtEmptyFirstPage | src/kleinanzeigen_mcp/client.py:128-130 | An empty page 1 ends the search with no listings after visiting page 1 alone |
| Client.StopAfterLastPage | src/kleinanzeigen_mcp/client.py:118-133 | When every page loads and page 1 is not empty, all pages 1..page_count are visited (an empty later page does not stop the loop) and the result is their concatenation |
| Client.TextsOfSpec | src/kleinanzeigen_mcp/client.py:241-248 | A text is collected exactly when it is non-empty and the stripped text of some element; every collected text is stripped |
| Client.ImagesOfSpec | src/kleinanzeigen_mcp/client.py:288-293 | An image URL is collected exactly when it is a non-empty `src`; with every `src` non-empty, all are collected |
| Client.StatusOf | src/kleinanzeigen_mcp/client.py:255-268 | A sold badge forces sold; otherwise the first of "Verkauft", "Reserviert •", "Gelöscht •" in the title decides sold, reserved or deleted, and active holds exactly when none occurs or there is no title element |
| Client.CleanTitleHasNoSeparator | src/kleinanzeigen_mcp/client.py:271-272 | A cleaned title holds no " • ", and a title without one is left unchanged |
| Client.CleanTitleTakesLastPiece | src/kleinanzeigen_mcp/client.py:271-272 | A title with a separator is cleaned to the stripped text after its last separator, which holds no separator itself |
| Client.FirstCollapseSpec | src/kleinanzeigen_mcp/client.py:284 | Collapsing runs of spaces and tabs leaves no tab and no two adjacent spaces |
| Client.StripCollapsedSpec | src/kleinanzeigen_mcp/client.py:284 | Stripping keeps both of those and removes surrounding whitespace |
| Client.SecondCollapseSpec | src/kleinanzeigen_mcp/client.py:285 | Collapsing runs of newlines keeps all three and leaves no two adjacent newlines |
| Client.NormaliseDescriptionSpec | src/kleinanzeigen_mcp/client.py:282-285 | A normalised description has no tab, no two adjacent spaces, no two adjacent newlines and no surrounding whitespace |
| Client.NormaliseDescriptionFixesNormal | src/kleinanzeigen_mcp/client.py:282-285 | A description with no tab, no two adjacent spaces, no two adjacent newlines and no surrounding whitespace is left unchanged |
| Client.NormaliseDescriptionIdempotent | src/kleinanzeigen_mcp/client.py:282-285 | Normalising a description twice gives the same text as normalising it once |
| Text.DropRunAppend | src/kleinanzeigen_mcp/client.py:284-285 | A run at the start of text that ends outside the run's characters ends inside that text, so what follows is kept whole |
| Text.DropRunOfRun | src/kleinanzeigen_mcp/client.py:284-285 | A whole run followed by text not starting with a run character is dropped exactly |
| Text.CollapseRunsAppend | src/kleinanzeigen_mcp/client.py:284-285 | Text ending outside the run characters is collapsed independently of the text after it |
| Text.CollapseRunsReplacesRun | src/kleinanzeigen_mcp/client.py:284-285 | A maximal non-empty run is replaced by the single replacement character and the text on either side is collapsed on its own, as `re.sub` with a `+` pattern does |
| Text.CollapseRunsOutside | src/kleinanzeigen_mcp/client.py:284-285 | Text holding no run character is unchanged |
| Text.CollapseRunsFixes | src/kleinanzeigen_mcp/client.py:284-285 | Text whose runs are already single replacement characters is unchanged |
| Client.DeliveryOf | src/kleinanzeigen_mcp/client.py:296-302 | Delivery is pickup exactly when the text has "Nur Abholung", shipping exactly when it has "Versand" but not that, and absent otherwise |
| Client.AttributesOfSpec | src/kleinanzeigen_mcp/client.py:315-336 | The collected dict has distinct labels, denotes the map that assigning each complete label/value pair in order gives (a later duplicate wins), and has a label exactly when some complete item carries it |
| Client.DetailsOfSpec | src/kleinanzeigen_mcp/client.py:250-353 | Every assembled record has one of the four status names, "sold" under a sold badge, a title without " • ", and the sentinel id or title when that element is missing; views are "0" without a counter (279); location is `{}` for a missing or blank locality and `{"raw": …}` otherwise (305-306); seller is `{}` for a missing or blank name and `{"name": …}` otherwise (309-312); details and features are `{}` without their container (315-316, 327-328); extra info is `{}` (352) |
| Client.MissingTitleHasNoSeparator | src/kleinanzeigen_mcp/client.py:253-272 | The missing-title sentinel holds no " • ", so title cleaning leaves it unchanged |
| OrderedDict.PutAllSpec | src/kleinanzeigen_mcp/client.py:324 | Assigning entries one by one into an entry list keeps keys distinct and denotes the same map as Python's successive `d[k] = v` |
| OrderedDict.GetOrSpec | src/kleinanzeigen_mcp/tools/listings.py:153 | `get(key, default)` on the entry list returns the mapped value, or the default when the key is absent |
| Client.KleinanzeigenClient.constructor | src/kleinanzeigen_mcp/client.py:19-22 | A new client has the site's base URL and no browser |
| Client.KleinanzeigenClient.Start | src/kleinanzeigen_mcp/client.py:33-44 | A launch failure raises `SearchError` "Browser initialization failed: …" and leaves the client as it was; otherwise the client is started |
| Client.KleinanzeigenClient.SearchListings | src/kleinanzeigen_mcp/client.py:83-137 | Without a browser, `SearchError` and no page visited; otherwise the search outcome for the clamped request, after visiting pages 1..k as the loop does |
| Client.KleinanzeigenClient.VisitPages | src/kleinanzeigen_mcp/client.py:111-137 | The page loop returns the search outcome and visits pages 1, 2, … in order, stopping after an empty page 1 or a failure |
| Client.KleinanzeigenClient.ExtractListingsFromPage | src/kleinanzeigen_mcp/client.py:142-185 | The loop returns the summaries the page's items yield, in order, or nothing for an unreadable page |
| Client.KleinanzeigenClient.GetListingDetails | src/kleinanzeigen_mcp/client.py:187-229 | Without a browser, `DetailFetchError` and no navigation; otherwise one navigation to `/s-anzeige/<id>` and the assembled record or "Failed to fetch listing <id>: …" |
| Client.KleinanzeigenClient.ExtractListingDetails | src/kleinanzeigen_mcp/client.py:231-353 | The step-by-step extraction returns the assembled record |
| Client.KleinanzeigenClient.ExtractStatus | src/kleinanzeigen_mcp/client.py:255-268 | The status reassignments end in the status the title and badge decide |
| Client.KleinanzeigenClient.ExtractDescription | src/kleinanzeigen_mcp/client.py:282-285 | The description steps give the normalised description |
| Client.KleinanzeigenClient.ExtractDelivery | src/kleinanzeigen_mcp/client.py:295-302 | The shipping steps give the classified delivery |
| Client.KleinanzeigenClient.CollectImages | src/kleinanzeigen_mcp/client.py:288-293 | The image loop collects the non-empty sources in order |
| Client.KleinanzeigenClient.CollectTexts | src/kleinanzeigen_mcp/client.py:241-248 | The text loop collects the stripped non-empty texts in order |
| Client.KleinanzeigenClient.CollectAttributes | src/kleinanzeigen_mcp/client.py:314-336 | The label loop fills the dict as successive assignments do |
| ListingsTool.Filters | src/kleinanzeigen_mcp/tools/listings.py:60-68 | The filter list names query, location and price in that order, each exactly when truthy (the price when either bound is), with its value |
| ListingsTool.NoResultsReply | src/kleinanzeigen_mcp/tools/listings.py:59-71 | The appends build the no-results message from the filter list |
| ListingsTool.NoFiltersMessage | src/kleinanzeigen_mcp/tools/listings.py:70-71 | With no truthy filter the message says "no filters" |
| ListingsTool.QueryOnlyMessage | src/kleinanzeigen_mcp/tools/listings.py:62-71 | With only a query, the message names that query alone |
| ListingsTool.PriceDisplay | src/kleinanzeigen_mcp/tools/listings.py:80 | A non-empty price is shown followed by €, an empty one as "Preis auf Anfrage" |
| ListingsTool.Truncate | src/kleinanzeigen_mcp/tools/listings.py:84-86 | A description of at most 100 characters is kept whole; a longer one becomes its first 100 characters and "...", 103 in all |
| ListingsTool.ListingBlockSpec | src/kleinanzeigen_mcp/tools/listings.py:79-89 | A block opens with its number and title, then ID and price, has a description line exactly when the description is non-empty, and ends with the URL line and a blank line |
| ListingsTool.BlockAt | src/kleinanzeigen_mcp/tools/listings.py:79-89 | Listing k of the results is printed as block k+1, right after the blocks of the listings before it |
| ListingsTool.BlocksLength | src/kleinanzeigen_mcp/tools/listings.py:79-89 | Each listing takes five or six lines |
| ListingsTool.AppendListing | src/kleinanzeigen_mcp/tools/listings.py:80-89 | The appends for one listing add exactly its block |
| ListingsTool.FormatSearchResults | src/kleinanzeigen_mcp/tools/listings.py:74-91 | The output loop joins the count line, a blank line and the numbered blocks of all results in order |
| ListingsTool.SearchReplySpec | src/kleinanzeigen_mcp/tools/listings.py:59-95 | A failed search gives "Search error: …", an empty one the no-results message, and otherwise the reply begins "Found N listings:" with N the result count |
| ListingsTool.SearchTool | src/kleinanzeigen_mcp/tools/listings.py:48-95 | A launch failure propagates as `SearchError`; otherwise the reply is the text for the client's search outcome |
| ListingsTool.PriceLine | src/kleinanzeigen_mcp/tools/listings.py:135 | A truthy price is shown followed by €, otherwise "Price: On request" |
| ListingsTool.DeliveryText | src/kleinanzeigen_mcp/tools/listings.py:155 | "Pickup only" exactly when delivery is "pickup", "Shipping available" for anything else |
| ListingsTool.MoreImages | src/kleinanzeigen_mcp/tools/listings.py:165-166 | One extra line exactly when there are more than five images |
| ListingsTool.ImageSectionSpec | src/kleinanzeigen_mcp/tools/listings.py:161-167 | No images give no section; otherwise a count line, the first min(5, n) images numbered from 1 in order, a line with n - 5 more when n > 5, and a blank line |
| ListingsTool.DictSectionSpec | src/kleinanzeigen_mcp/tools/listings.py:170-188 | An empty dict prints nothing; otherwise its heading, one "key: value" line per entry in insertion order, and a blank line |
| ListingsTool.DetailsLinesSpec | src/kleinanzeigen_mcp/tools/listings.py:129-190 | The details reply opens with the banner, title, id, status, price and views lines and ends with the listing's URL |
| ListingsTool.DetailsReplySpec | src/kleinanzeigen_mcp/tools/listings.py:124-196 | A failed fetch gives "Error fetching listing <id>: …"; a successful one begins with the banner |
| ListingsTool.AppendDictSection | src/kleinanzeigen_mcp/tools/listings.py:170-188 | The loop over a dict's items appends exactly its section |
| ListingsTool.AppendPlace | src/kleinanzeigen_mcp/tools/listings.py:151-158 | The location and delivery steps append those lines and one blank line when either is shown |
| ListingsTool.AppendInfo | src/kleinanzeigen_mcp/tools/listings.py:140-158 | The category, description, location and delivery steps append exactly those sections |
| ListingsTool.AppendImages | src/kleinanzeigen_mcp/tools/listings.py:160-167 | The image steps append exactly the image section |
| ListingsTool.FormatDetails | src/kleinanzeigen_mcp/tools/listings.py:127-192 | All the output steps join the details reply's lines |
| ListingsTool.DetailsTool | src/kleinanzeigen_mcp/tools/listings.py:124-196 | A launch failure propagates as `SearchError`; otherwise the reply is the text for the client's details outcome |

## Left out

- The browser is not modelled: Playwright, page contexts, the user agent, `goto`, load-state and selector waits, and their timeouts. Pages are snapshots, and navigation is a function passed in.
- The `start()` call made by `__aenter__` is modelled inside `SearchTool` and `DetailsTool`. `__aexit__`, `close()` and the exceptions `close()` swallows are not modelled. They release resources and have no result to state.
- A failed detail fetch (`NavigationFailed`) stands for any exception raised between `goto` and the returned record, including one raised inside `_extract_listing_details` (client.py:211-226). The model does not tell these apart, since the code wraps them all in the same `DetailFetchError`.
- `async`/`await` is not modelled. Every operation runs to completion in one step.
- Logging and the clamp warning are not modelled.
- The optional 2.5-second wait for the view counter swallows its own failure. The model reads the views text from the snapshot, with the default "0" when it is absent.
- The tools catch any exception. The model covers only the errors the client raises, whose text is `str(e)`.
- Item extraction fails as a whole when any selector call raises. This is modelled as one `Unreadable` page that yields no listings; which item raised is not modelled.
- The DOM selector strings are not modelled. A snapshot holds what each selector returns.
- `server.py` and `prompts/workflows.py` are not part of this model.
- Client.SearchOutcomeSpec: on success it says only that page 1's listings come first. That the result is the concatenation of pages 1..page_count is the definition of `SearchOutcome`, stated for the loop by `StopAfterLastPage`.
