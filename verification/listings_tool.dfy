/**
 * The two MCP tools of src/kleinanzeigen_mcp/tools/listings.py. Each opens a
 * client (which starts the browser), runs one client operation, and turns
 * its result, or the error it raised, into a reply text: a list of lines
 * joined with newlines.
 */
module ListingsTool {

  import opened Wrappers
  import opened Text
  import opened OrderedDict
  import opened Types
  import opened Sequences
  import opened Client

  const MAX_DESCRIPTION: nat := 100
  const MAX_IMAGES: nat := 5
  const VIEW_ONLINE: string := "View online: https://www.kleinanzeigen.de/s-anzeige/"
  const NO_RESULTS_OPENING: string := "No listings found for search ("
  const NO_RESULTS_CLOSING: string := "). Try broader criteria."
  const DETAILS_BANNER: string := "=== LISTING DETAILS ==="

  // ===================== search reply =====================

  /** The price range of the no-results message: a missing lower bound reads 0, a missing upper bound ∞. */
  function PriceRange(minPrice: Option<int>, maxPrice: Option<int>): string {
    IntToString(if TruthyInt(minPrice) then minPrice.value else 0) + "€ - "
    + (if TruthyInt(maxPrice) then IntToString(maxPrice.value) else "∞") + "€"
  }

  /**
   * The filters the no-results message names, in the order query, location,
   * price; each only when its value is truthy (the price when either bound is).
   */
  function Filters(query: Option<string>, location: Option<string>, minPrice: Option<int>, maxPrice: Option<int>)
    : (r: seq<string>)
    ensures |r| == (if Truthy(query) then 1 else 0) + (if Truthy(location) then 1 else 0)
      + (if TruthyInt(minPrice) || TruthyInt(maxPrice) then 1 else 0)
    ensures Truthy(query) ==> r[0] == "query: " + query.value
    ensures Truthy(location) ==> r[if Truthy(query) then 1 else 0] == "location: " + location.value
    ensures TruthyInt(minPrice) || TruthyInt(maxPrice) ==> r[|r| - 1] == "price: " + PriceRange(minPrice, maxPrice)
  {
    (if Truthy(query) then ["query: " + query.value] else [])
    + (if Truthy(location) then ["location: " + location.value] else [])
    + (if TruthyInt(minPrice) || TruthyInt(maxPrice) then ["price: " + PriceRange(minPrice, maxPrice)] else [])
  }

  /** The reply to a search that found nothing. */
  function NoResultsMessage(p: ListingSearchParams): string {
    var filters := Filters(p.query, p.location, p.minPrice, p.maxPrice);
    var filterText := if filters != [] then Join(filters, ", ") else "no filters";
    NO_RESULTS_OPENING + filterText + NO_RESULTS_CLOSING
  }

  /** Without a truthy filter the message says "no filters". */
  lemma NoFiltersMessage(p: ListingSearchParams)
    requires !Truthy(p.query) && !Truthy(p.location) && !TruthyInt(p.minPrice) && !TruthyInt(p.maxPrice)
    ensures NoResultsMessage(p) == NO_RESULTS_OPENING + "no filters" + NO_RESULTS_CLOSING
  {
    assert Filters(p.query, p.location, p.minPrice, p.maxPrice) == [];
  }

  /** With the query as the only truthy filter, the message names the query alone. */
  lemma QueryOnlyMessage(p: ListingSearchParams)
    requires Truthy(p.query) && !Truthy(p.location) && !TruthyInt(p.minPrice) && !TruthyInt(p.maxPrice)
    ensures NoResultsMessage(p) == NO_RESULTS_OPENING + ("query: " + p.query.value) + NO_RESULTS_CLOSING
  {
    var filters := Filters(p.query, p.location, p.minPrice, p.maxPrice);
    assert filters == ["query: " + p.query.value];
    assert Join(filters, ", ") == "query: " + p.query.value;
  }

  /** Builds the no-results message, appending each truthy filter in turn. */
  method NoResultsReply(p: ListingSearchParams) returns (text: string)
    ensures text == NoResultsMessage(p)
  {
    var filters: seq<string> := [];
    if Truthy(p.query) {
      filters := filters + ["query: " + p.query.value];
    }
    ghost var named := filters;
    if Truthy(p.location) {
      filters := filters + ["location: " + p.location.value];
    }
    if TruthyInt(p.minPrice) || TruthyInt(p.maxPrice) {
      var priceRange := IntToString(if TruthyInt(p.minPrice) then p.minPrice.value else 0) + "€ - "
        + (if TruthyInt(p.maxPrice) then IntToString(p.maxPrice.value) else "∞") + "€";
      filters := filters + ["price: " + priceRange];
    }
    assert named == if Truthy(p.query) then ["query: " + p.query.value] else [];
    assert filters == Filters(p.query, p.location, p.minPrice, p.maxPrice);
    var filterText := if filters != [] then Join(filters, ", ") else "no filters";
    text := NO_RESULTS_OPENING + filterText + NO_RESULTS_CLOSING;
  }

  /** How a summary's price is shown: the price with a euro sign, or "Preis auf Anfrage" when it is empty. */
  function PriceDisplay(price: string): (r: string)
    ensures price != "" ==> |r| == |price| + 1 && r[..|price|] == price && r[|price|] == '€'
    ensures price == "" ==> r == "Preis auf Anfrage"
  {
    if price != "" then price + "€" else "Preis auf Anfrage"
  }

  /** A description is shown whole up to 100 characters, else as its first 100 followed by "...". */
  function Truncate(d: string): (r: string)
    ensures |d| <= MAX_DESCRIPTION ==> r == d
    ensures |d| > MAX_DESCRIPTION ==>
      (|r| == MAX_DESCRIPTION + 3 && r[..MAX_DESCRIPTION] == d[..MAX_DESCRIPTION] && r[MAX_DESCRIPTION..] == "...")
    ensures |r| <= MAX_DESCRIPTION + 3
  {
    if |d| > MAX_DESCRIPTION then d[..MAX_DESCRIPTION] + "..." else d
  }

  /** The lines of the listing numbered `idx`. */
  function ListingBlock(idx: nat, l: ListingSummary): seq<string> {
    [NatToString(idx) + ". [" + l.title + "]", "   ID: " + l.adid, "   Price: " + PriceDisplay(l.price)]
    + (if l.description != "" then ["   Description: " + Truncate(l.description)] else [])
    + ["   URL: " + l.url, ""]
  }

  /**
   * A block opens with its number and title, shows a description line
   * exactly when the description is not empty, and ends with the URL line
   * and a blank line.
   */
  lemma ListingBlockSpec(idx: nat, l: ListingSummary)
    ensures var b := ListingBlock(idx, l);
      && |b| == (if l.description != "" then 6 else 5)
      && b[0] == NatToString(idx) + ". [" + l.title + "]"
      && b[1] == "   ID: " + l.adid
      && b[2] == "   Price: " + PriceDisplay(l.price)
      && (l.description != "" ==> b[3] == "   Description: " + Truncate(l.description))
      && b[|b| - 2] == "   URL: " + l.url
      && b[|b| - 1] == ""
  {
  }

  /** The blocks of listings 1..|ls|, numbered in result order. */
  function Blocks(ls: seq<ListingSummary>): seq<string> {
    NumberedBlocks(ListingBlock, ls)
  }

  /** Listing `k` (counting from 0) is rendered as block number `k + 1`, right after the blocks of the listings before it. */
  lemma BlockAt(ls: seq<ListingSummary>, k: nat)
    requires k < |ls|
    ensures var o, b := |Blocks(ls[..k])|, ListingBlock(k + 1, ls[k]);
      o + |b| <= |Blocks(ls)| && Blocks(ls)[o..o + |b|] == b
  {
    NumberedBlockAt(ListingBlock, ls, k);
  }

  /** Each listing takes five lines, or six with a description. */
  lemma {:induction false} BlocksLength(ls: seq<ListingSummary>)
    ensures 5 * |ls| <= |Blocks(ls)| <= 6 * |ls|
    decreases |ls|
  {
    if ls != [] {
      var front := ls[..|ls| - 1];
      BlocksLength(front);
      ListingBlockSpec(|ls|, ls[|ls| - 1]);
      assert Blocks(ls) == Blocks(front) + ListingBlock(|ls|, ls[|ls| - 1]);
    }
  }

  /** The lines of a non-empty result: a count line, a blank line, then the blocks. */
  function SearchLines(results: seq<ListingSummary>): seq<string> {
    ["Found " + NatToString(|results|) + " listings:", ""] + Blocks(results)
  }

  /** What the search tool replies once the browser has started, for a search that ended in `outcome`. */
  function SearchReply(p: ListingSearchParams, outcome: Result<seq<ListingSummary>, KleinanzeigenError>): string {
    match outcome
    case Failure(e) => "Search error: " + e.message + ". Please check your parameters and try again."
    case Success(results) =>
      if results == [] then NoResultsMessage(p) else Join(SearchLines(results), "\n")
  }

  /**
   * A failed search is reported in the reply; an empty one gets the
   * no-results message; otherwise the reply begins with the count of
   * listings found.
   */
  lemma SearchReplySpec(p: ListingSearchParams, outcome: Result<seq<ListingSummary>, KleinanzeigenError>)
    ensures outcome.Failure? ==>
      SearchReply(p, outcome) == "Search error: " + outcome.error.message + ". Please check your parameters and try again."
    ensures outcome == Success([]) ==> SearchReply(p, outcome) == NoResultsMessage(p)
    ensures outcome.Success? && outcome.value != [] ==>
      var first := "Found " + NatToString(|outcome.value|) + " listings:";
      |first| <= |SearchReply(p, outcome)| && SearchReply(p, outcome)[..|first|] == first
  {
    if outcome.Success? && outcome.value != [] {
      JoinStartsWithFirst(SearchLines(outcome.value), "\n");
    }
  }

  /** Appends the lines of the listing numbered `idx`, one by one. */
  method AppendListing(lines: seq<string>, idx: nat, listing: ListingSummary) returns (out: seq<string>)
    ensures out == lines + ListingBlock(idx, listing)
  {
    out := lines + [NatToString(idx) + ". [" + listing.title + "]"];
    out := out + ["   ID: " + listing.adid];
    out := out + ["   Price: " + PriceDisplay(listing.price)];
    if listing.description != "" {
      out := out + ["   Description: " + Truncate(listing.description)];
    }
    out := out + ["   URL: " + listing.url];
    out := out + [""];
  }

  /** The output loop of the search tool over a non-empty result. */
  method FormatSearchResults(results: seq<ListingSummary>) returns (text: string)
    ensures text == Join(SearchLines(results), "\n")
  {
    var header := ["Found " + NatToString(|results|) + " listings:", ""];
    var lines := header;
    for i := 0 to |results|
      invariant lines == header + Blocks(results[..i])
    {
      ghost var done := Blocks(results[..i]);
      lines := AppendListing(lines, i + 1, results[i]);
      TakeOneMore(results, i);
      NumberedBlocksSnoc(ListingBlock, results[..i], results[i]);
      Regroup3(header, done, ListingBlock(i + 1, results[i]));
    }
    assert results[..|results|] == results;
    text := Join(lines, "\n");
  }

  /**
   * The `search_listings` tool. Opening the client starts the browser
   * outside the tool's `try`, so a launch failure propagates as the
   * client's `SearchError`; every later failure becomes a reply text.
   */
  method SearchTool(p: ListingSearchParams, launchFailure: Option<string>, fetch: string -> Navigation<SearchPage>)
    returns (reply: Result<string, KleinanzeigenError>)
    ensures launchFailure.Some? ==>
      reply == Failure(SearchError("Browser initialization failed: " + launchFailure.value))
    ensures launchFailure.None? ==>
      reply == Success(SearchReply(p, SearchOutcome(BASE_URL, BuildSearchRequest(p), fetch)))
  {
    var client := new KleinanzeigenClient();
    var started := client.Start(launchFailure);
    if started.Failure? {
      return Failure(started.error);
    }
    var result, _ := client.SearchListings(p, fetch);
    match result
    case Failure(e) =>
      reply := Success("Search error: " + e.message + ". Please check your parameters and try again.");
    case Success(results) =>
      if results == [] {
        var text := NoResultsReply(p);
        reply := Success(text);
      } else {
        var text := FormatSearchResults(results);
        reply := Success(text);
      }
  }

  // ===================== details reply =====================

  /** The price line: the price with a euro sign, or "On request" when there is none or it is empty. */
  function PriceLine(price: Option<string>): (r: string)
    ensures Truthy(price) ==> r == "Price: " + price.value + "€"
    ensures !Truthy(price) ==> r == "Price: On request"
  {
    if Truthy(price) then "Price: " + price.value + "€" else "Price: On request"
  }

  /** The delivery wording: "Pickup only" exactly for "pickup", "Shipping available" for anything else. */
  function DeliveryText(delivery: string): (r: string)
    ensures r == "Pickup only" <==> delivery == "pickup"
    ensures r == "Shipping available" <==> delivery != "pickup"
  {
    if delivery == "pickup" then "Pickup only" else "Shipping available"
  }

  /** A location is shown when it is present and not an empty dict. */
  predicate LocationShown(location: Option<Dict>) {
    location.Some? && location.value != []
  }

  /** One image line, numbered from 1. */
  function ImageLine(idx: nat, url: string): string {
    "  " + NatToString(idx) + ". " + url
  }

  /** The images numbered 1..|images|. */
  function NumberedImages(images: seq<string>): seq<string> {
    Numbered(ImageLine, images)
  }

  /** The image section: a count, the first five images, a line for the rest, a blank line; nothing without images. */
  function ImageSection(images: seq<string>): seq<string> {
    if images == [] then []
    else
      ["Images (" + NatToString(|images|) + "):"]
      + NumberedImages(images[..Min(MAX_IMAGES, |images|)])
      + MoreImages(images)
      + [""]
  }

  /** The line reporting the images past the fifth, when there are any. */
  function MoreImages(images: seq<string>): (r: seq<string>)
    ensures |r| == if |images| > MAX_IMAGES then 1 else 0
  {
    if |images| > MAX_IMAGES then ["  ... and " + NatToString(|images| - MAX_IMAGES) + " more"] else []
  }

  /**
   * At most five images are listed, numbered from 1 in page order, and one
   * line reports how many more there are when there are more than five.
   */
  lemma ImageSectionSpec(images: seq<string>)
    ensures images == [] ==> ImageSection(images) == []
    ensures images != [] ==>
      var s, shown := ImageSection(images), Min(MAX_IMAGES, |images|);
      && |s| == shown + (if |images| > MAX_IMAGES then 3 else 2)
      && s[0] == "Images (" + NatToString(|images|) + "):"
      && (forall i | 0 <= i < shown :: s[1 + i] == ImageLine(i + 1, images[i]))
      && (|images| > MAX_IMAGES ==> s[1 + shown] == "  ... and " + NatToString(|images| - MAX_IMAGES) + " more")
      && s[|s| - 1] == ""
  {
    if images != [] {
      var shown := Min(MAX_IMAGES, |images|);
      var head := ["Images (" + NatToString(|images|) + "):"];
      var nums := NumberedImages(images[..shown]);
      var more := MoreImages(images);
      var s := ImageSection(images);
      assert s == head + nums + more + [""];
      NumberedAt(ImageLine, images[..shown]);
      forall i | 0 <= i < shown
        ensures s[1 + i] == ImageLine(i + 1, images[i])
      {
        assert s[1 + i] == nums[i];
        assert images[..shown][i] == images[i];
      }
      if |images| > MAX_IMAGES {
        assert s[1 + shown] == more[0];
      }
    }
  }

  /** One dict item as the tool prints it. */
  function ItemLine(entry: (string, string)): string {
    "  " + entry.0 + ": " + entry.1
  }

  /** A dict section: its heading, one line per item in insertion order, a blank line; nothing for an empty dict. */
  function DictSection(heading: string, d: Dict): seq<string> {
    if d == [] then [] else [heading + ":"] + Map(ItemLine, d) + [""]
  }

  /** Every item of the dict is printed, in order, between the heading and the blank line. */
  lemma DictSectionSpec(heading: string, d: Dict)
    ensures d == [] ==> DictSection(heading, d) == []
    ensures d != [] ==>
      var s := DictSection(heading, d);
      && |s| == |d| + 2
      && s[0] == heading + ":"
      && (forall i | 0 <= i < |d| :: s[1 + i] == "  " + d[i].0 + ": " + d[i].1)
      && s[|s| - 1] == ""
  {
    MapAt(ItemLine, d);
  }

  /** The opening lines of the details reply: banner, title, id, status, price and views. */
  function HeaderLines(d: ListingDetails): (r: seq<string>)
    ensures |r| == 8
  {
    [DETAILS_BANNER, "", "Title: " + d.title, "ID: " + d.id, "Status: " + d.status, PriceLine(d.price),
     "Views: " + d.views, ""]
  }

  /** The category path, joined with " > ", and a blank line; nothing without categories. */
  function CategoryLines(categories: seq<string>): seq<string> {
    if categories != [] then ["Categories: " + Join(categories, " > "), ""] else []
  }

  /** The description under its heading, and a blank line; nothing for an empty description. */
  function DescriptionLines(description: string): seq<string> {
    if description != "" then ["Description:", description, ""] else []
  }

  /**
   * The location's raw text and the delivery wording, each only when
   * present, closed by one blank line when either was shown.
   */
  function PlaceLines(location: Option<Dict>, delivery: Option<string>): seq<string> {
    (if LocationShown(location) then ["Location: " + GetOr(location.value, "raw", "Not specified")] else [])
    + (if Truthy(delivery) then ["Delivery: " + DeliveryText(delivery.value)] else [])
    + (if LocationShown(location) || Truthy(delivery) then [""] else [])
  }

  /** Categories, description, location and delivery, each only when present. */
  function InfoLines(d: ListingDetails): seq<string> {
    CategoryLines(d.categories) + DescriptionLines(d.description) + PlaceLines(d.location, d.delivery)
  }

  /** The image section and the three dict sections. */
  function SectionLines(d: ListingDetails): seq<string> {
    ImageSection(d.images) + DictSection("Details", d.details) + DictSection("Features", d.features)
    + DictSection("Seller", d.seller)
  }

  /** The lines of the details reply. */
  function DetailsLines(d: ListingDetails): seq<string> {
    HeaderLines(d) + InfoLines(d) + SectionLines(d) + [VIEW_ONLINE + d.id]
  }

  /** The reply opens with the banner, title, id, status, price and views, and closes with the listing's URL. */
  lemma DetailsLinesSpec(d: ListingDetails)
    ensures var l := DetailsLines(d);
      && |l| >= 9
      && l[0] == DETAILS_BANNER
      && l[2] == "Title: " + d.title && l[3] == "ID: " + d.id && l[4] == "Status: " + d.status
      && l[5] == PriceLine(d.price) && l[6] == "Views: " + d.views
      && l[|l| - 1] == VIEW_ONLINE + d.id
  {
    var h, i, s := HeaderLines(d), InfoLines(d), SectionLines(d);
    var l := DetailsLines(d);
    assert l == h + i + s + [VIEW_ONLINE + d.id];
    assert forall k | 0 <= k < 8 :: l[k] == (h + i)[k] == h[k];
  }

  /** What the details tool replies once the browser has started, for a fetch that ended in `outcome`. */
  function DetailsReply(listingId: string, outcome: Result<ListingDetails, KleinanzeigenError>): string {
    match outcome
    case Failure(e) => "Error fetching listing " + listingId + ": " + e.message + ". Please verify the ID is correct."
    case Success(d) => Join(DetailsLines(d), "\n")
  }

  /** A failed fetch names the listing in the reply; a successful one begins with the banner. */
  lemma DetailsReplySpec(listingId: string, outcome: Result<ListingDetails, KleinanzeigenError>)
    ensures outcome.Failure? ==>
      DetailsReply(listingId, outcome)
      == "Error fetching listing " + listingId + ": " + outcome.error.message + ". Please verify the ID is correct."
    ensures outcome.Success? ==>
      |DETAILS_BANNER| <= |DetailsReply(listingId, outcome)|
      && DetailsReply(listingId, outcome)[..|DETAILS_BANNER|] == DETAILS_BANNER
  {
    if outcome.Success? {
      JoinStartsWithFirst(DetailsLines(outcome.value), "\n");
    }
  }

  /** Appends a dict section item by item, as the tool's loops over `items()` do. */
  method AppendDictSection(lines: seq<string>, heading: string, d: Dict) returns (out: seq<string>)
    ensures out == lines + DictSection(heading, d)
  {
    out := lines;
    if d != [] {
      out := out + [heading + ":"];
      for i := 0 to |d|
        invariant out == lines + [heading + ":"] + Map(ItemLine, d[..i])
      {
        var (key, value) := d[i];
        TakeOneMore(d, i);
        MapSnoc(ItemLine, d[..i], d[i]);
        Regroup3(lines + [heading + ":"], Map(ItemLine, d[..i]), [ItemLine(d[i])]);
        out := out + ["  " + key + ": " + value];
      }
      assert d[..|d|] == d;
      out := out + [""];
      Regroup(lines, [heading + ":"], Map(ItemLine, d), [""]);
    }
  }

  /** Appends the location and delivery lines and the blank line after them, as the tool does. */
  method AppendPlace(lines: seq<string>, location: Option<Dict>, delivery: Option<string>) returns (out: seq<string>)
    ensures out == lines + PlaceLines(location, delivery)
  {
    out := lines;
    if LocationShown(location) {
      out := out + ["Location: " + GetOr(location.value, "raw", "Not specified")];
    }
    ghost var located := out;
    if Truthy(delivery) {
      var deliveryText := if delivery.value == "pickup" then "Pickup only" else "Shipping available";
      out := out + ["Delivery: " + deliveryText];
    }
    ghost var delivered := out;
    if LocationShown(location) || Truthy(delivery) {
      out := out + [""];
    }
    ghost var loc := if LocationShown(location) then ["Location: " + GetOr(location.value, "raw", "Not specified")] else [];
    ghost var del := if Truthy(delivery) then ["Delivery: " + DeliveryText(delivery.value)] else [];
    ghost var blank := if LocationShown(location) || Truthy(delivery) then [""] else [];
    assert located == lines + loc;
    assert delivered == located + del;
    assert out == delivered + blank;
    Regroup(lines, loc, del, blank);
  }

  /** Appends categories, description, location and delivery, as the tool does. */
  method AppendInfo(lines: seq<string>, d: ListingDetails) returns (out: seq<string>)
    ensures out == lines + InfoLines(d)
  {
    out := lines;
    if d.categories != [] {
      out := out + ["Categories: " + Join(d.categories, " > "), ""];
    }
    ghost var categorised := out;
    if d.description != "" {
      out := out + ["Description:", d.description, ""];
    }
    ghost var described := out;
    out := AppendPlace(out, d.location, d.delivery);
    ghost var c, e, p := CategoryLines(d.categories), DescriptionLines(d.description), PlaceLines(d.location, d.delivery);
    assert categorised == lines + c;
    assert described == categorised + e;
    Regroup(lines, c, e, p);
  }

  /** Appends the image section: count, up to five numbered images, the rest as a count, a blank line. */
  method AppendImages(lines: seq<string>, images: seq<string>) returns (out: seq<string>)
    ensures out == lines + ImageSection(images)
  {
    out := lines;
    if images != [] {
      var head := ["Images (" + NatToString(|images|) + "):"];
      out := out + head;
      var shown := images[..Min(MAX_IMAGES, |images|)];
      for i := 0 to |shown|
        invariant out == lines + head + NumberedImages(shown[..i])
      {
        TakeOneMore(shown, i);
        NumberedSnoc(ImageLine, shown[..i], shown[i]);
        ghost var line := ImageLine(i + 1, shown[i]);
        Regroup3(lines + head, NumberedImages(shown[..i]), [line]);
        out := out + ["  " + NatToString(i + 1) + ". " + shown[i]];
      }
      assert shown[..|shown|] == shown;
      ghost var numbered := out;
      if |images| > MAX_IMAGES {
        out := out + ["  ... and " + NatToString(|images| - MAX_IMAGES) + " more"];
      }
      assert out == numbered + MoreImages(images);
      out := out + [""];
      ghost var nums, more := NumberedImages(shown), MoreImages(images);
      Regroup(lines, head, nums, more);
      Regroup3(lines, head + nums + more, [""]);
    }
  }

  /** The output steps of the details tool. */
  method FormatDetails(d: ListingDetails) returns (text: string)
    ensures text == Join(DetailsLines(d), "\n")
  {
    var lines := [DETAILS_BANNER, "", "Title: " + d.title, "ID: " + d.id, "Status: " + d.status,
                  if Truthy(d.price) then "Price: " + d.price.value + "€" else "Price: On request",
                  "Views: " + d.views, ""];
    assert lines == HeaderLines(d);
    lines := AppendInfo(lines, d);
    ghost var opening := lines;
    lines := AppendImages(lines, d.images);
    lines := AppendDictSection(lines, "Details", d.details);
    lines := AppendDictSection(lines, "Features", d.features);
    lines := AppendDictSection(lines, "Seller", d.seller);
    ghost var i, dt, f, sl := ImageSection(d.images), DictSection("Details", d.details),
      DictSection("Features", d.features), DictSection("Seller", d.seller);
    Regroup(opening, i, dt, f);
    Regroup3(opening, i + dt + f, sl);
    lines := lines + [VIEW_ONLINE + d.id];
    text := Join(lines, "\n");
  }

  /**
   * The `get_listing_details` tool: a launch failure propagates as the
   * client's `SearchError`; a failed fetch becomes a reply text.
   */
  method DetailsTool(listingId: string, launchFailure: Option<string>, fetch: string -> Navigation<DetailPage>)
    returns (reply: Result<string, KleinanzeigenError>)
    ensures launchFailure.Some? ==>
      reply == Failure(SearchError("Browser initialization failed: " + launchFailure.value))
    ensures launchFailure.None? ==>
      reply == Success(DetailsReply(listingId, DetailOutcome(BASE_URL, listingId, fetch)))
  {
    var client := new KleinanzeigenClient();
    var started := client.Start(launchFailure);
    if started.Failure? {
      return Failure(started.error);
    }
    var result, _ := client.GetListingDetails(listingId, fetch);
    match result
    case Failure(e) =>
      reply := Success("Error fetching listing " + listingId + ": " + e.message + ". Please verify the ID is correct.");
    case Success(details) =>
      var text := FormatDetails(details);
      reply := Success(text);
  }
}
