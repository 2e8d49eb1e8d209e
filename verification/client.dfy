/**
 * `KleinanzeigenClient` (src/kleinanzeigen_mcp/client.py): builds search
 * URLs, walks result pages, and turns what the browser shows into
 * `ListingSummary` and `ListingDetails` records.
 *
 * The browser is not modelled. A page is a snapshot of what the client's
 * selectors return on it, and navigation is a function `fetch` from a URL to
 * either the loaded page or the failure that navigation raised.
 */
module Client {

  import opened Wrappers
  import opened Text
  import opened OrderedDict
  import opened Types
  import opened Sequences
  import QueryString

  const BASE_URL: string := "https://www.kleinanzeigen.de"
  const NOT_INITIALIZED: string := "Browser not initialized. Call start() first."
  const MIN_PAGES: int := 1
  const MAX_PAGES: int := 20

  const SOLD_MARK: string := "Verkauft"
  const RESERVED_MARK: string := "Reserviert •"
  const DELETED_MARK: string := "Gelöscht •"
  const TITLE_SEPARATOR: string := " • "
  const PICKUP_MARK: string := "Nur Abholung"
  const SHIPPING_MARK: string := "Versand"
  const MISSING_ID: string := "[ERROR] ID not found"
  const MISSING_TITLE: string := "[ERROR] Title not found"

  function Min(a: int, b: int): int { if a <= b then a else b }
  function Max(a: int, b: int): int { if a >= b then a else b }

  /** Python truthiness of an optional string: present and non-empty. */
  predicate Truthy(s: Option<string>) { s.Some? && s.value != "" }

  /** Python truthiness of an optional integer: present and non-zero. */
  predicate TruthyInt(i: Option<int>) { i.Some? && i.value != 0 }

  // ===================== search request =====================

  /** The number of pages a search fetches: `page_count` clamped into [1, 20]. */
  function ClampPageCount(n: int): (r: int)
    ensures MIN_PAGES <= r <= MAX_PAGES
    ensures MIN_PAGES <= n <= MAX_PAGES ==> r == n
    ensures n < MIN_PAGES ==> r == MIN_PAGES
    ensures n > MAX_PAGES ==> r == MAX_PAGES
  {
    if n < MIN_PAGES || n > MAX_PAGES then Max(MIN_PAGES, Min(MAX_PAGES, n)) else n
  }

  /** One side of the price range in the path: `str(bound)`, or nothing when absent. */
  function PriceBound(bound: Option<int>): string {
    match bound
    case Some(x) => IntToString(x)
    case None => ""
  }

  /** The `/preis:<min>:<max>` path segment, present when either bound is given (0 included). */
  function PricePath(minPrice: Option<int>, maxPrice: Option<int>): string {
    if minPrice.Some? || maxPrice.Some? then "/preis:" + PriceBound(minPrice) + ":" + PriceBound(maxPrice)
    else ""
  }

  /** Index of the first `c` in `s`, or `|s|` when there is none. */
  function IndexOfChar(s: string, c: char): (k: nat)
    ensures k <= |s|
    ensures forall i | 0 <= i < k :: s[i] != c
    ensures k < |s| ==> s[k] == c
  {
    if s == [] then 0 else if s[0] == c then 0 else 1 + IndexOfChar(s[1..], c)
  }

  /** Reads one side of a price segment back: empty means absent. */
  function ParseBound(s: string): Option<Option<int>> {
    if s == "" then Some(None)
    else match ParseInt(s)
      case Some(x) => Some(Some(x))
      case None => None
  }

  /** Reads the price bounds back out of a price path segment. */
  function ParsePricePath(path: string): Option<(Option<int>, Option<int>)> {
    if path == "" then Some((None, None))
    else if |path| < 7 || path[..7] != "/preis:" then None
    else
      var rest := path[7..];
      var k := IndexOfChar(rest, ':');
      if k == |rest| then None
      else match (ParseBound(rest[..k]), ParseBound(rest[k + 1..]))
        case (Some(lo), Some(hi)) => if lo.None? && hi.None? then None else Some((lo, hi))
        case _ => None
  }

  /** A rendered bound is never confused with the `:` that separates the two bounds. */
  lemma BoundRoundTrip(bound: Option<int>)
    ensures ':' !in PriceBound(bound)
    ensures ParseBound(PriceBound(bound)) == Some(bound)
  {
    if bound.Some? {
      var r := IntToString(bound.value);
      ParseIntToString(bound.value);
      forall i | 0 <= i < |r| ensures r[i] != ':' {
        if bound.value < 0 && i > 0 {
          assert r[i] == r[1..][i - 1];
        }
      }
    }
  }

  /** Splitting at the first `:` recovers the two sides when the left side has none. */
  lemma SplitAtFirstColon(a: string, b: string)
    requires ':' !in a
    ensures var rest := a + ":" + b;
      var k := IndexOfChar(rest, ':');
      k == |a| && rest[..k] == a && rest[k + 1..] == b
  {
    var rest := a + ":" + b;
    var k := IndexOfChar(rest, ':');
    assert rest[|a|] == ':';
    assert forall i | 0 <= i < |a| :: rest[i] == a[i];
  }

  /** Reading a segment `/preis:<a>:<b>` back, given how each side reads. */
  lemma ParseSegment(a: string, b: string, lo: Option<int>, hi: Option<int>)
    requires ':' !in a && ParseBound(a) == Some(lo) && ParseBound(b) == Some(hi)
    requires lo.Some? || hi.Some?
    ensures ParsePricePath("/preis:" + a + ":" + b) == Some((lo, hi))
  {
    var rest := a + ":" + b;
    var path := "/preis:" + a + ":" + b;
    assert path == "/preis:" + rest;
    assert |path| >= 7 && path[..7] == "/preis:" && path[7..] == rest;
    SplitAtFirstColon(a, b);
  }

  /**
   * The price segment keeps both bounds: reading it back gives exactly the
   * bounds it was built from, so a bound of 0 is kept and an absent bound
   * stays absent.
   */
  lemma PricePathRoundTrip(minPrice: Option<int>, maxPrice: Option<int>)
    ensures ParsePricePath(PricePath(minPrice, maxPrice)) == Some((minPrice, maxPrice))
  {
    if minPrice.Some? || maxPrice.Some? {
      BoundRoundTrip(minPrice);
      BoundRoundTrip(maxPrice);
      ParseSegment(PriceBound(minPrice), PriceBound(maxPrice), minPrice, maxPrice);
    }
  }

  /** The rank of a query key in the order the client inserts it. */
  function KeyRank(key: string): int {
    if key == "keywords" then 0 else if key == "locationStr" then 1 else if key == "radius" then 2 else 3
  }

  /** The value the client sends for a query key, when it sends one: only for truthy filters. */
  function ParamFor(key: string, query: Option<string>, location: Option<string>, radius: Option<int>): Option<string> {
    if key == "keywords" && Truthy(query) then Some(query.value)
    else if key == "locationStr" && Truthy(location) then Some(location.value)
    else if key == "radius" && TruthyInt(radius) then Some(IntToString(radius.value))
    else None
  }

  /**
   * The query parameters, assigned in the order `keywords`, `locationStr`,
   * `radius` into an empty dict: every entry is a truthy filter with the
   * value the client sends for it, and the entries keep that order.
   */
  function QueryParams(query: Option<string>, location: Option<string>, radius: Option<int>): (params: Dict)
    ensures forall i | 0 <= i < |params| :: ParamFor(params[i].0, query, location, radius) == Some(params[i].1)
    ensures forall i, j | 0 <= i < j < |params| :: KeyRank(params[i].0) < KeyRank(params[j].0)
  {
    (if Truthy(query) then [("keywords", query.value)] else [])
    + (if Truthy(location) then [("locationStr", location.value)] else [])
    + (if TruthyInt(radius) then [("radius", IntToString(radius.value))] else [])
  }

  /**
   * No truthy filter is lost and none is sent twice: a key is in the query
   * exactly when the client has a value for it, and keys are distinct. So an
   * empty query text or a radius of 0 sends nothing.
   */
  lemma QueryParamsComplete(query: Option<string>, location: Option<string>, radius: Option<int>, key: string)
    ensures var params := QueryParams(query, location, radius);
      && DistinctKeys(params)
      && (key in Keys(params) <==> ParamFor(key, query, location, radius).Some?)
  {
    var params := QueryParams(query, location, radius);
    DistinctKeysFromPairs(params);
    KeysSpec(params, key);
    if ParamFor(key, query, location, radius).Some? {
      var i := if key == "keywords" then 0
        else if key == "locationStr" then (if Truthy(query) then 1 else 0)
        else (if Truthy(query) then 1 else 0) + (if Truthy(location) then 1 else 0);
      assert params[i].0 == key;
    }
  }

  /** Everything a search needs besides the page number. */
  datatype SearchRequest = SearchRequest(pricePath: string, params: Dict, pages: nat)

  function BuildSearchRequest(p: ListingSearchParams): SearchRequest {
    SearchRequest(PricePath(p.minPrice, p.maxPrice), QueryParams(p.query, p.location, p.radius), ClampPageCount(p.pageCount))
  }

  /** The query string, with its `?`, or nothing when there are no parameters. */
  function QuerySuffix(params: Dict): string {
    if params == [] then "" else "?" + QueryString.Urlencode(params)
  }

  /** The URL of result page `n`: base, price segment, `/s-seite:n`, query string. */
  function PageUrl(base: string, req: SearchRequest, n: nat): string {
    base + req.pricePath + "/s-seite:" + NatToString(n) + QuerySuffix(req.params)
  }

  /** Different page numbers give different URLs, so no page is fetched for another. */
  lemma PageUrlsDistinct(base: string, req: SearchRequest, n: nat, m: nat)
    requires n != m
    ensures PageUrl(base, req, n) != PageUrl(base, req, m)
  {
    var x := base + req.pricePath + "/s-seite:";
    var q := QuerySuffix(req.params);
    var a, b := x + NatToString(n), x + NatToString(m);
    assert PageUrl(base, req, n) == a + q;
    assert PageUrl(base, req, m) == b + q;
    if a + q == b + q {
      assert a == (a + q)[..|a|];
      assert b == (b + q)[..|b|];
      assert a == b;
      assert NatToString(n) == a[|x|..];
      assert NatToString(m) == b[|x|..];
      DecimalValueOfNatToString(n);
      DecimalValueOfNatToString(m);
    }
  }

  // ===================== search pages =====================

  /** What the selectors inside one result item's `<article>` return. */
  datatype RawArticle = RawArticle(
    adid: Option<string>,             // attribute data-adid
    href: Option<string>,             // attribute data-href
    titleText: Option<string>,        // inner text of the title link
    priceText: Option<string>,        // inner text of the price paragraph
    descriptionText: Option<string>)  // inner text of the description paragraph

  /** One `.ad-listitem` of a result page. */
  datatype RawItem = RawItem(isTopAd: bool, hasProBadge: bool, article: Option<RawArticle>)

  /** A result page, or one whose item extraction raised. */
  datatype SearchPage = Rendered(items: seq<RawItem>) | Unreadable

  /** The outcome of navigating to a URL. */
  datatype Navigation<P> = Loaded(page: P) | NavigationFailed(cause: string)

  /** The item selector excludes promoted items and professional-seller badges. */
  predicate Selected(item: RawItem) {
    !item.isTopAd && !item.hasProBadge
  }

  function TextOr(text: Option<string>, default: string): string {
    match text
    case Some(t) => t
    case None => default
  }

  /** The price clean-up: drop every `€`, then every `VB`, then every `.`, then strip. */
  function CleanPrice(text: string): (r: string)
    ensures '€' !in r && '.' !in r
    ensures Stripped(r)
  {
    var noEuro := RemoveAll(text, "€");
    var noVb := RemoveAll(noEuro, "VB");
    Strip(RemoveAll(noVb, "."))
  }

  /**
   * `_parse_price`: no price for empty text or for text that cleans to
   * nothing; otherwise the cleaned text.
   */
  function ParsePrice(text: string): (r: Option<string>)
    ensures text == "" ==> r.None?
    ensures r.Some? ==> r.value != "" && '€' !in r.value && '.' !in r.value && Stripped(r.value)
    ensures text != "" ==> (r.None? <==> CleanPrice(text) == "")
    ensures r.Some? ==> r.value == CleanPrice(text)
  {
    if text == "" then None
    else
      var cleaned := CleanPrice(text);
      if cleaned != "" then Some(cleaned) else None
  }

  /** A test example: the euro sign goes and the spaces are stripped. */
  lemma ParsePriceEuroExample()
    ensures ParsePrice("123 €") == Some("123")
  {
    EuroRemoved();
    KeptWithoutVbOrDot();
    TrailingSpaceStripped();
  }

  lemma EuroRemoved()
    ensures RemoveAll("123 €", "€") == "123 "
  {
    assert "123 €" == "123 " + "€";
    RemoveAllAtEnd("123 ", "€");
  }

  lemma KeptWithoutVbOrDot()
    ensures RemoveAll("123 ", "VB") == "123 " && RemoveAll("123 ", ".") == "123 "
  {
    RemoveAllAbsent("123 ", "VB");
    RemoveAllAbsent("123 ", ".");
  }

  lemma TrailingSpaceStripped()
    ensures Strip("123 ") == "123"
  {
    assert "123 " == "123" + " ";
    StripBeforeSpaces("123", " ");
  }

  /** Text with no euro sign, no "V" and no dot is only stripped by the clean-up. */
  lemma CleanPriceOnlyStrips(text: string)
    requires '€' !in text && 'V' !in text && '.' !in text
    ensures CleanPrice(text) == Strip(text)
  {
    RemoveAllAbsent(text, "€");
    RemoveAllAbsent(text, "VB");
    RemoveAllAbsent(text, ".");
  }

  /** Every other character is kept: stripped text without `€`, "V" or `.` is its own price. */
  lemma ParsePriceKeepsPlain(text: string)
    requires text != "" && Stripped(text)
    requires '€' !in text && 'V' !in text && '.' !in text
    ensures ParsePrice(text) == Some(text)
  {
    CleanPriceOnlyStrips(text);
  }

  /**
   * A price with a thousands dot, a euro sign and "VB", as the result pages
   * show it, parses to its digits with the dot removed.
   */
  lemma ParsePriceThousands(a: string, b: string)
    requires a != [] && IsDigits(a) && IsDigits(b)
    ensures ParsePrice(a + "." + b + " € VB") == Some(a + b)
  {
    var text := a + "." + b + " € VB";
    var noEuro := ThousandsWithoutEuro(a, b);
    var noVb := ThousandsWithoutVb(a, b);
    var noDot := ThousandsWithoutDot(a, b);
    var digits := a + b;
    assert IsDigits(digits) by {
      forall i | 0 <= i < |digits| ensures '0' <= digits[i] <= '9' {
        if i < |a| { assert digits[i] == a[i]; } else { assert digits[i] == b[i - |a|]; }
      }
    }
    DigitsAreStripped(digits);
    StripBeforeSpaces(digits, "  ");
    assert CleanPrice(text) == digits;
  }

  /** Digits are not whitespace, so a run of digits is already stripped. */
  lemma DigitsAreStripped(s: string)
    requires s != [] && IsDigits(s)
    ensures Stripped(s)
  {
  }

  /** First step of `ParsePriceThousands`: the euro sign goes. */
  lemma ThousandsWithoutEuro(a: string, b: string) returns (x: string)
    requires IsDigits(a) && IsDigits(b)
    ensures x == a + "." + b + " " && RemoveAll(a + "." + b + " € VB", "€") == x + " VB"
  {
    x := a + "." + b + " ";
    assert a + "." + b + " € VB" == x + "€" + " VB";
    assert '€' !in x by {
      assert forall i | 0 <= i < |x| :: x[i] in "0123456789. ";
    }
    RemoveAllAfter(x, "€", " VB");
    RemoveAllAbsent(" VB", "€");
  }

  /** Second step of `ParsePriceThousands`: "VB" goes. */
  lemma ThousandsWithoutVb(a: string, b: string) returns (y: string)
    requires IsDigits(a) && IsDigits(b)
    ensures y == a + "." + (b + "  ") && RemoveAll(a + "." + b + " " + " VB", "VB") == y
  {
    y := a + "." + (b + "  ");
    assert a + "." + b + " " + " VB" == y + "VB";
    assert 'V' !in y by {
      assert forall i | 0 <= i < |y| :: y[i] in "0123456789. ";
    }
    RemoveAllAtEnd(y, "VB");
  }

  /** Third step of `ParsePriceThousands`: the thousands dot goes. */
  lemma ThousandsWithoutDot(a: string, b: string) returns (z: string)
    requires IsDigits(a) && IsDigits(b)
    ensures z == a + b + "  " && RemoveAll(a + "." + (b + "  "), ".") == z
  {
    z := a + b + "  ";
    assert '.' !in a && '.' !in b + "  " by {
      assert forall i | 0 <= i < |a| :: a[i] in "0123456789";
      assert forall i | 0 <= i < |b + "  "| :: (b + "  ")[i] in "0123456789 ";
    }
    RemoveAllAfter(a, ".", b + "  ");
    RemoveAllAbsent(b + "  ", ".");
  }

  /** A test example: the thousands dot, the euro sign and "VB" all go. */
  lemma ParsePriceThousandsExample()
    ensures ParsePrice("1.000 € VB") == Some("1000")
  {
    ParsePriceThousands("1", "000");
    ThousandsExampleSpelled();
  }

  /** The example text is the general shape with "1" and "000". */
  lemma ThousandsExampleSpelled()
    ensures "1" + "." + "000" + " € VB" == "1.000 € VB" && "1" + "000" == "1000"
  {
    var text := "1" + "." + "000" + " € VB";
    assert |text| == 10 && forall k | 0 <= k < 10 :: text[k] == "1.000 € VB"[k];
  }

  /** Test examples: no price for empty text, nor for a bare "VB". */
  lemma ParsePriceNoneExamples()
    ensures ParsePrice("") == None
    ensures ParsePrice("VB") == None
  {
    assert RemoveAll("B", "€") == "B";
    assert RemoveAll("VB", "€") == "VB";
    assert RemoveAll("VB", "VB") == "";
  }

  /**
   * The summary one item yields: only a selected item with an `<article>`
   * whose `data-adid` and `data-href` are both non-empty yields one, and its
   * URL is the base URL followed by `data-href`.
   */
  function SummaryOf(base: string, item: RawItem): (r: Option<ListingSummary>)
    ensures r.Some? <==>
      Selected(item) && item.article.Some? && Truthy(item.article.value.adid) && Truthy(item.article.value.href)
    ensures r.Some? ==>
      r.value.adid == item.article.value.adid.value && r.value.url == base + item.article.value.href.value
    ensures r.Some? ==> '€' !in r.value.price && '.' !in r.value.price && Stripped(r.value.price)
    ensures r.Some? ==>
      var a := item.article.value;
      && r.value.title == TextOr(a.titleText, "")
      && r.value.description == TextOr(a.descriptionText, "")
      && r.value.price == (if a.priceText.Some? then CleanPrice(a.priceText.value) else "")
  {
    if !Selected(item) || item.article.None? then None
    else
      var a := item.article.value;
      if Truthy(a.adid) && Truthy(a.href) then
        var price := match a.priceText case Some(t) => CleanPrice(t) case None => "";
        Some(ListingSummary(a.adid.value, base + a.href.value, TextOr(a.titleText, ""), price, TextOr(a.descriptionText, "")))
      else None
  }

  /** `SummaryOf` for one base URL, as the per-item step of a page's extraction. */
  function SummaryExtractor(base: string): RawItem -> Option<ListingSummary> {
    item => SummaryOf(base, item)
  }

  /** What `_extract_listings_from_page` returns: nothing for a page whose extraction raised. */
  function PageSummaries(base: string, page: SearchPage): seq<ListingSummary> {
    match page
    case Unreadable => []
    case Rendered(items) => FilterMap(SummaryExtractor(base), items)
  }

  /**
   * A page's summaries are exactly the ones its items yield: a summary is
   * extracted iff some item yields it, and splitting the page's items splits
   * its summaries in the same order.
   */
  lemma PageSummariesSpec(base: string, items: seq<RawItem>, cut: nat, s: ListingSummary)
    requires cut <= |items|
    ensures s in PageSummaries(base, Rendered(items)) <==>
      exists i | 0 <= i < |items| :: SummaryOf(base, items[i]) == Some(s)
    ensures PageSummaries(base, Rendered(items)) ==
      PageSummaries(base, Rendered(items[..cut])) + PageSummaries(base, Rendered(items[cut..]))
  {
    FilterMapMembership(SummaryExtractor(base), items, s);
    assert items == items[..cut] + items[cut..];
    FilterMapAppend(SummaryExtractor(base), items[..cut], items[cut..]);
  }

  /** Visiting page `n`: its summaries, or the navigation failure. */
  function PageResult(base: string, req: SearchRequest, fetch: string -> Navigation<SearchPage>, n: nat)
    : Result<seq<ListingSummary>, string>
  {
    match fetch(PageUrl(base, req, n))
    case NavigationFailed(cause) => Failure(cause)
    case Loaded(page) => Success(PageSummaries(base, page))
  }

  function PageResults(base: string, req: SearchRequest, fetch: string -> Navigation<SearchPage>)
    : nat -> Result<seq<ListingSummary>, string>
  {
    (n: nat) => PageResult(base, req, fetch, n)
  }

  /** Page 1 loaded and yielded no summary. */
  predicate FirstPageEmpty(base: string, req: SearchRequest, fetch: string -> Navigation<SearchPage>) {
    PageResult(base, req, fetch, 1) == Success([])
  }

  /** Page numbers 1..n. */
  function PageNumbers(n: nat): (r: seq<nat>)
    ensures |r| == n && forall i | 0 <= i < n :: r[i] == i + 1
  {
    if n == 0 then [] else PageNumbers(n - 1) + [n]
  }

  /**
   * The pages a search visits: 1, 2, ... in order, only page 1 when it is
   * empty, every page up to `page_count` when the search succeeds, and up
   * to the first page that fails when it fails.
   */
  predicate Visits(base: string, req: SearchRequest, fetch: string -> Navigation<SearchPage>,
                   result: Result<seq<ListingSummary>, KleinanzeigenError>, visited: seq<nat>)
  {
    && |visited| <= req.pages
    && visited == PageNumbers(|visited|)
    && (1 <= req.pages && FirstPageEmpty(base, req, fetch) ==> visited == [1])
    && (!FirstPageEmpty(base, req, fetch) && result.Success? ==> visited == PageNumbers(req.pages))
    && (result.Failure? ==>
          1 <= |visited|
          && Gather(PageResults(base, req, fetch), |visited| - 1).Success?
          && PageResult(base, req, fetch, |visited|).Failure?)
  }

  /**
   * What a search on a started client returns: nothing when page 1 is empty,
   * otherwise pages 1..page_count concatenated, and `SearchError` when a
   * navigation fails.
   */
  function SearchOutcome(base: string, req: SearchRequest, fetch: string -> Navigation<SearchPage>)
    : Result<seq<ListingSummary>, KleinanzeigenError>
  {
    if FirstPageEmpty(base, req, fetch) then Success([])
    else
      match Gather(PageResults(base, req, fetch), req.pages)
      case Failure(cause) => Failure(SearchError("Failed to search listings: " + cause))
      case Success(results) => Success(results)
  }

  /**
   * A search fails exactly when page 1 is not empty and some page up to
   * `page_count` fails to load, and then it reports the first such page's
   * failure; a successful search lists page 1's results first.
   */
  lemma SearchOutcomeSpec(base: string, req: SearchRequest, fetch: string -> Navigation<SearchPage>)
    ensures var outcome := SearchOutcome(base, req, fetch);
      && (outcome.Failure? <==>
            !FirstPageEmpty(base, req, fetch)
            && exists n | 1 <= n <= req.pages :: PageResult(base, req, fetch, n).Failure?)
      && (outcome.Failure? ==>
            exists n | 1 <= n <= req.pages ::
              && PageResult(base, req, fetch, n).Failure?
              && Gather(PageResults(base, req, fetch), n - 1).Success?
              && outcome == Failure(SearchError("Failed to search listings: " + PageResult(base, req, fetch, n).error)))
      && (outcome.Success? && !FirstPageEmpty(base, req, fetch) && 1 <= req.pages ==>
            var first := PageResult(base, req, fetch, 1).value;
            |first| <= |outcome.value| && outcome.value[..|first|] == first)
  {
    var pages := PageResults(base, req, fetch);
    assert forall n: nat :: pages(n) == PageResult(base, req, fetch, n);
    GatherSpec(pages, req.pages);
  }

  /** The search ends at page `n`, the first that fails to load, with that page's failure. */
  lemma StopAtFailure(base: string, req: SearchRequest, fetch: string -> Navigation<SearchPage>,
                      n: nat, results: seq<ListingSummary>, cause: string)
    requires 1 <= n <= req.pages
    requires Gather(PageResults(base, req, fetch), n - 1) == Success(results)
    requires PageResult(base, req, fetch, n) == Failure(cause)
    requires n >= 2 ==> !FirstPageEmpty(base, req, fetch)
    ensures SearchOutcome(base, req, fetch) == Failure(SearchError("Failed to search listings: " + cause))
  {
    var pages := PageResults(base, req, fetch);
    assert pages(n) == Failure(cause);
    GatherFailed(pages, n - 1, results, cause);
    GatherFailurePersists(pages, n, req.pages);
    assert !FirstPageEmpty(base, req, fetch);
  }

  /** A search that fails at page `n` has visited pages 1..n. */
  lemma VisitsToFailure(base: string, req: SearchRequest, fetch: string -> Navigation<SearchPage>,
                        n: nat, results: seq<ListingSummary>, cause: string)
    requires 1 <= n <= req.pages
    requires Gather(PageResults(base, req, fetch), n - 1) == Success(results)
    requires PageResult(base, req, fetch, n) == Failure(cause)
    requires n >= 2 ==> !FirstPageEmpty(base, req, fetch)
    ensures Visits(base, req, fetch, Failure(SearchError("Failed to search listings: " + cause)), PageNumbers(n))
  {
    assert !FirstPageEmpty(base, req, fetch);
  }

  /** The search ends at an empty page 1. */
  lemma StopAtEmptyFirstPage(base: string, req: SearchRequest, fetch: string -> Navigation<SearchPage>)
    requires 1 <= req.pages && FirstPageEmpty(base, req, fetch)
    ensures SearchOutcome(base, req, fetch) == Success([])
    ensures Visits(base, req, fetch, Success([]), PageNumbers(1))
  {
  }

  /** The search runs through page `page_count`. */
  lemma StopAfterLastPage(base: string, req: SearchRequest, fetch: string -> Navigation<SearchPage>,
                          results: seq<ListingSummary>)
    requires Gather(PageResults(base, req, fetch), req.pages) == Success(results)
    requires 1 <= req.pages ==> !FirstPageEmpty(base, req, fetch)
    ensures SearchOutcome(base, req, fetch) == Success(results)
    ensures Visits(base, req, fetch, Success(results), PageNumbers(req.pages))
  {
  }

  // ===================== detail page =====================

  /** One `.addetailslist--detail` entry: its label and value elements, when present. */
  datatype AttributeItem = AttributeItem(labelText: Option<string>, valueText: Option<string>)

  /** What the selectors the client runs on a listing page return. */
  datatype DetailPage = DetailPage(
    adIdText: Option<string>,                    // the id in the ad-id box
    categoryTexts: seq<string>,                  // the breadcrumb links
    titleText: Option<string>,                   // #viewad-title
    hasSoldBadge: bool,                          // a .badge-sold element exists
    priceText: Option<string>,                   // #viewad-price
    viewsText: Option<string>,                   // #viewad-cntr-num
    descriptionText: Option<string>,             // #viewad-description-text
    imageSources: seq<Option<string>>,           // src of each #viewad-image img
    shippingText: Option<string>,                // the shipping box
    localityText: Option<string>,                // #viewad-locality
    sellerNameText: Option<string>,              // .userprofile--name
    detailsBlock: Option<seq<AttributeItem>>,    // #viewad-details, when present
    featuresBlock: Option<seq<AttributeItem>>)   // #viewad-configuration, when present

  /** The inner helper `get_text`: the stripped text of the element, or the default. */
  function GetText(text: Option<string>, default: string): string {
    match text
    case Some(t) => Strip(t)
    case None => default
  }

  /** One element of `get_texts`: its stripped text, kept when not blank. */
  function TextItem(text: string): Option<string> {
    var t := Strip(text);
    if t != "" then Some(t) else None
  }

  /** The inner helper `get_texts`: the stripped texts that are not blank, in order. */
  function TextsOf(texts: seq<string>): seq<string> {
    FilterMap(TextItem, texts)
  }

  /**
   * A text is collected exactly when it is non-empty and is the stripped text
   * of some element; every collected text is stripped.
   */
  lemma TextsOfSpec(texts: seq<string>, t: string)
    ensures t in TextsOf(texts) <==> t != "" && exists i | 0 <= i < |texts| :: Strip(texts[i]) == t
    ensures t in TextsOf(texts) ==> Stripped(t)
  {
    FilterMapMembership(TextItem, texts, t);
    if t != "" && exists i | 0 <= i < |texts| :: Strip(texts[i]) == t {
      var i :| 0 <= i < |texts| && Strip(texts[i]) == t;
      assert TextItem(texts[i]) == Some(t);
    }
  }

  /** One image: its `src` when present and non-empty. */
  function ImageOf(source: Option<string>): Option<string> {
    if Truthy(source) then Some(source.value) else None
  }

  /** The image URLs: every `src` that is present and non-empty, in order. */
  function ImagesOf(sources: seq<Option<string>>): seq<string> {
    FilterMap(ImageOf, sources)
  }

  /** The image list is the non-empty sources, in page order, and nothing else. */
  lemma ImagesOfSpec(sources: seq<Option<string>>, url: string)
    ensures url in ImagesOf(sources) <==> url != "" && Some(url) in sources
    ensures (forall i | 0 <= i < |sources| :: Truthy(sources[i])) ==> |ImagesOf(sources)| == |sources|
  {
    FilterMapMembership(ImageOf, sources, url);
    if Some(url) in sources && url != "" {
      var i :| 0 <= i < |sources| && sources[i] == Some(url);
      assert ImageOf(sources[i]) == Some(url);
    }
    if forall i | 0 <= i < |sources| :: Truthy(sources[i]) {
      FilterMapTotal(ImageOf, sources);
    }
  }

  /** The listing status. */
  datatype Status = Active | Sold | Reserved | Deleted {
    function Name(): string {
      match this
      case Active => "active"
      case Sold => "sold"
      case Reserved => "reserved"
      case Deleted => "deleted"
    }
  }

  /**
   * The status: a sold badge always means sold; otherwise the title decides,
   * "Verkauft" before "Reserviert •" before "Gelöscht •", and a listing with
   * no title element or no marker is active.
   */
  function StatusOf(titleText: Option<string>, soldBadge: bool): (s: Status)
    ensures soldBadge ==> s == Sold
    ensures !soldBadge && titleText.None? ==> s == Active
    ensures !soldBadge && titleText.Some? ==>
      var t := titleText.value;
      && (s == Sold <==> Contains(t, SOLD_MARK))
      && (s == Reserved <==> !Contains(t, SOLD_MARK) && Contains(t, RESERVED_MARK))
      && (s == Deleted <==> !Contains(t, SOLD_MARK) && !Contains(t, RESERVED_MARK) && Contains(t, DELETED_MARK))
      && (s == Active <==> !Contains(t, SOLD_MARK) && !Contains(t, RESERVED_MARK) && !Contains(t, DELETED_MARK))
  {
    var fromTitle :=
      match titleText
      case None => Active
      case Some(t) =>
        if Contains(t, SOLD_MARK) then Sold
        else if Contains(t, RESERVED_MARK) then Reserved
        else if Contains(t, DELETED_MARK) then Deleted
        else Active;
    if soldBadge then Sold else fromTitle
  }

  /** The title with any breadcrumb prefix removed: the stripped text after the last " • ". */
  function CleanTitle(title: string): string {
    if Contains(title, TITLE_SEPARATOR) then Strip(AfterLast(title, TITLE_SEPARATOR)) else title
  }

  /** A cleaned title never contains " • "; a title without one is kept as it is. */
  lemma CleanTitleHasNoSeparator(title: string)
    ensures !Contains(CleanTitle(title), TITLE_SEPARATOR)
    ensures !Contains(title, TITLE_SEPARATOR) ==> CleanTitle(title) == title
  {
    if Contains(title, TITLE_SEPARATOR) {
      AfterLastSpec(title, TITLE_SEPARATOR);
      StripKeepsAbsent(AfterLast(title, TITLE_SEPARATOR), TITLE_SEPARATOR);
    }
  }

  /**
   * A title with a separator is cleaned to the stripped text that follows
   * a separator and holds none itself: the last piece of the split.
   */
  lemma CleanTitleTakesLastPiece(title: string)
    requires Contains(title, TITLE_SEPARATOR)
    ensures var k := |title| - |AfterLast(title, TITLE_SEPARATOR)|;
      && EndsAt(title, TITLE_SEPARATOR, k)
      && !Contains(title[k..], TITLE_SEPARATOR)
      && CleanTitle(title) == Strip(title[k..])
  {
    AfterLastSpec(title, TITLE_SEPARATOR);
    AfterLastFollowsSeparator(title, TITLE_SEPARATOR);
    AfterLastIsSuffix(title, TITLE_SEPARATOR);
  }

  /**
   * Description clean-up: runs of spaces and tabs become one space, the text
   * is stripped, then runs of newlines become one newline.
   */
  function NormaliseDescription(d: string): string {
    if d == "" then d
    else CollapseRuns(Strip(CollapseRuns(d, {' ', '\t'}, ' ')), {'\n'}, '\n')
  }

  /** After the first collapse: no tab and no two adjacent spaces. */
  lemma FirstCollapseSpec(d: string)
    ensures var s1 := CollapseRuns(d, {' ', '\t'}, ' ');
      '\t' !in s1 && NoRun(s1, {' '})
  {
    var s1 := CollapseRuns(d, {' ', '\t'}, ' ');
    CollapseRunsSpec(d, {' ', '\t'}, ' ');
    assert CharsFrom(s1, d, {' ', '\t'}, ' ');
    assert forall i | 0 <= i < |s1| :: s1[i] != '\t';
  }

  /** After stripping: still no tab and no two adjacent spaces, and stripped. */
  lemma StripCollapsedSpec(s1: string)
    requires '\t' !in s1 && NoRun(s1, {' '})
    ensures var s2 := Strip(s1);
      '\t' !in s2 && NoRun(s2, {' '}) && Stripped(s2)
  {
    StripIsSlice(s1);
    NoRunSlice(s1, {' '}, StripOffset(s1), StripOffset(s1) + |Strip(s1)|);
  }

  /** After the newline collapse: the earlier guarantees survive and newlines do not repeat. */
  lemma SecondCollapseSpec(s2: string)
    requires '\t' !in s2 && NoRun(s2, {' '}) && Stripped(s2)
    ensures var r := CollapseRuns(s2, {'\n'}, '\n');
      '\t' !in r && NoRun(r, {' '}) && NoRun(r, {'\n'}) && Stripped(r)
  {
    var r := CollapseRuns(s2, {'\n'}, '\n');
    CollapseRunsSpec(s2, {'\n'}, '\n');
    CollapseKeepsNoRun(s2, {'\n'}, '\n', {' '});
    assert CharsFrom(r, s2, {'\n'}, '\n');
    assert forall i | 0 <= i < |r| :: r[i] != '\t';
    if s2 != [] {
      CollapseRunsLast(s2, {'\n'}, '\n');
    }
  }

  /**
   * A normalised description has no tab, no two adjacent spaces, no two
   * adjacent newlines, and no surrounding whitespace.
   */
  lemma NormaliseDescriptionSpec(d: string)
    ensures var r := NormaliseDescription(d);
      && '\t' !in r
      && NoRun(r, {' '})
      && NoRun(r, {'\n'})
      && Stripped(r)
  {
    if d != "" {
      var s1 := CollapseRuns(d, {' ', '\t'}, ' ');
      FirstCollapseSpec(d);
      StripCollapsedSpec(s1);
      SecondCollapseSpec(Strip(s1));
    }
  }

  /** A description that is already normal is left as it is. */
  lemma NormaliseDescriptionFixesNormal(d: string)
    requires '\t' !in d && NoRun(d, {' '}) && NoRun(d, {'\n'}) && Stripped(d)
    ensures NormaliseDescription(d) == d
  {
    if d != "" {
      assert NoRun(d, {' ', '\t'}) by {
        forall i | 0 <= i < |d| - 1 ensures !(d[i] in {' ', '\t'} && d[i + 1] in {' ', '\t'}) {
          assert d[i] != '\t' && d[i + 1] != '\t';
          assert !(d[i] in {' '} && d[i + 1] in {' '});
        }
      }
      CollapseRunsFixes(d, {' ', '\t'}, ' ');
      CollapseRunsFixes(d, {'\n'}, '\n');
    }
  }

  /** Normalising twice is normalising once. */
  lemma NormaliseDescriptionIdempotent(d: string)
    ensures NormaliseDescription(NormaliseDescription(d)) == NormaliseDescription(d)
  {
    NormaliseDescriptionSpec(d);
    NormaliseDescriptionFixesNormal(NormaliseDescription(d));
  }

  /** Delivery: "pickup" when the text says "Nur Abholung", else "shipping" when it says "Versand". */
  function DeliveryOf(shippingText: string): (r: Option<string>)
    ensures r == Some("pickup") <==> Contains(shippingText, PICKUP_MARK)
    ensures r == Some("shipping") <==> !Contains(shippingText, PICKUP_MARK) && Contains(shippingText, SHIPPING_MARK)
    ensures r == None <==> !Contains(shippingText, PICKUP_MARK) && !Contains(shippingText, SHIPPING_MARK)
  {
    if shippingText == "" then None
    else if Contains(shippingText, PICKUP_MARK) then Some("pickup")
    else if Contains(shippingText, SHIPPING_MARK) then Some("shipping")
    else None
  }

  /** The entry one attribute contributes: both texts stripped, when both elements exist. */
  function AttributeEntry(item: AttributeItem): Option<(string, string)> {
    if item.labelText.Some? && item.valueText.Some? then
      Some((Strip(item.labelText.value), Strip(item.valueText.value)))
    else None
  }

  /** An attribute block: `d[label] = value` for each complete entry in page order; empty without its container. */
  function AttributesOf(block: Option<seq<AttributeItem>>): Dict {
    match block
    case None => []
    case Some(items) => PutAll([], FilterMap(AttributeEntry, items))
  }

  /**
   * The attribute dict has distinct keys; a label is a key exactly when some
   * entry has both a label and a value element with that label; and the dict
   * denotes the map that assigning the entries in page order leaves behind,
   * so a repeated label keeps its last value.
   */
  lemma AttributesOfSpec(items: seq<AttributeItem>, key: string)
    ensures var d := AttributesOf(Some(items));
      && DistinctKeys(d)
      && ToMap(d) == Assign(map[], FilterMap(AttributeEntry, items))
      && (key in Keys(d) <==>
            exists i | 0 <= i < |items| :: AttributeEntry(items[i]).Some? && AttributeEntry(items[i]).value.0 == key)
  {
    var entries := FilterMap(AttributeEntry, items);
    PutAllSpec([], entries);
    PutAllKeys([], entries);
    KeysSpec(entries, key);
    if exists j | 0 <= j < |entries| :: entries[j].0 == key {
      var j :| 0 <= j < |entries| && entries[j].0 == key;
      FilterMapMembership(AttributeEntry, items, entries[j]);
    }
    if exists i | 0 <= i < |items| :: AttributeEntry(items[i]).Some? && AttributeEntry(items[i]).value.0 == key {
      var i :| 0 <= i < |items| && AttributeEntry(items[i]).Some? && AttributeEntry(items[i]).value.0 == key;
      FilterMapMembership(AttributeEntry, items, AttributeEntry(items[i]).value);
    }
  }

  /** The record `_extract_listing_details` assembles from a listing page. */
  function DetailsOf(page: DetailPage): ListingDetails {
    var locationText := GetText(page.localityText, "");
    var sellerName := GetText(page.sellerNameText, "");
    ListingDetails(
      id := GetText(page.adIdText, MISSING_ID),
      categories := TextsOf(page.categoryTexts),
      title := CleanTitle(GetText(page.titleText, MISSING_TITLE)),
      status := StatusOf(page.titleText, page.hasSoldBadge).Name(),
      price := ParsePrice(GetText(page.priceText, "")),
      delivery := DeliveryOf(GetText(page.shippingText, "")),
      location := Some(if locationText != "" then [("raw", locationText)] else []),
      views := GetText(page.viewsText, "0"),
      description := NormaliseDescription(GetText(page.descriptionText, "")),
      images := ImagesOf(page.imageSources),
      details := AttributesOf(page.detailsBlock),
      features := AttributesOf(page.featuresBlock),
      seller := if sellerName != "" then [("name", sellerName)] else [],
      extraInfo := [])
  }

  /**
   * What every assembled record guarantees whatever the page holds: the
   * status is one of the four names and is "sold" under a sold badge, the
   * title holds no breadcrumb separator, and a missing id or title element
   * gives its sentinel text.
   */
  lemma DetailsOfSpec(page: DetailPage)
    ensures var d := DetailsOf(page);
      && d.status in {"active", "sold", "reserved", "deleted"}
      && (page.hasSoldBadge ==> d.status == "sold")
      && !Contains(d.title, TITLE_SEPARATOR)
      && (page.adIdText.None? ==> d.id == MISSING_ID)
      && (page.titleText.None? ==> d.title == MISSING_TITLE)
      && (page.viewsText.None? ==> d.views == "0")
      && (var locality := GetText(page.localityText, "");
          d.location == Some(if locality == "" then [] else [("raw", locality)]))
      && (var name := GetText(page.sellerNameText, "");
          d.seller == (if name == "" then [] else [("name", name)]))
      && (page.detailsBlock.None? ==> d.details == [])
      && (page.featuresBlock.None? ==> d.features == [])
      && d.extraInfo == []
  {
    var title := GetText(page.titleText, MISSING_TITLE);
    CleanTitleHasNoSeparator(title);
    if page.titleText.None? {
      MissingTitleHasNoSeparator();
    }
  }

  /** The sentinel title is plain ASCII, so it holds no " • ". */
  lemma MissingTitleHasNoSeparator()
    ensures !Contains(MISSING_TITLE, TITLE_SEPARATOR)
  {
    assert TITLE_SEPARATOR[1] == '•';
    assert forall i | 0 <= i < |MISSING_TITLE| :: MISSING_TITLE[i] < '\U{0080}';
    AbsentByChar(MISSING_TITLE, TITLE_SEPARATOR, '•');
  }

  /** The detail page URL for a listing id. */
  function DetailUrl(base: string, listingId: string): string {
    base + "/s-anzeige/" + listingId
  }

  /** What `get_listing_details` returns on a started client. */
  function DetailOutcome(base: string, listingId: string, fetch: string -> Navigation<DetailPage>)
    : Result<ListingDetails, KleinanzeigenError>
  {
    match fetch(DetailUrl(base, listingId))
    case NavigationFailed(cause) =>
      Failure(DetailFetchError("Failed to fetch listing " + listingId + ": " + cause))
    case Loaded(page) => Success(DetailsOf(page))
  }

  // ===================== the client object =====================

  class KleinanzeigenClient {
    const baseUrl: string
    /** `self.browser` has been set by a successful `start()`. */
    var started: bool

    constructor ()
      ensures baseUrl == BASE_URL && !started
    {
      baseUrl := BASE_URL;
      started := false;
    }

    /** `start()`: a failed browser launch raises `SearchError` and leaves the client as it was. */
    method Start(launchFailure: Option<string>) returns (r: Result<(), KleinanzeigenError>)
      modifies this
      ensures launchFailure.None? ==> r == Success(()) && started
      ensures launchFailure.Some? ==>
        r == Failure(SearchError("Browser initialization failed: " + launchFailure.value)) && started == old(started)
    {
      match launchFailure
      case Some(cause) =>
        r := Failure(SearchError("Browser initialization failed: " + cause));
      case None =>
        started := true;
        r := Success(());
    }

    /** `search_listings`: the request built from the parameters, then the page loop. */
    method SearchListings(params: ListingSearchParams, fetch: string -> Navigation<SearchPage>)
      returns (result: Result<seq<ListingSummary>, KleinanzeigenError>, visited: seq<nat>)
      ensures !started ==> result == Failure(SearchError(NOT_INITIALIZED)) && visited == []
      ensures started ==> result == SearchOutcome(baseUrl, BuildSearchRequest(params), fetch)
      ensures started ==> 1 <= |visited| <= BuildSearchRequest(params).pages
      ensures started ==> Visits(baseUrl, BuildSearchRequest(params), fetch, result, visited)
    {
      if !started {
        return Failure(SearchError(NOT_INITIALIZED)), [];
      }
      var pageCount := params.pageCount;
      if pageCount < MIN_PAGES || pageCount > MAX_PAGES {
        pageCount := Max(MIN_PAGES, Min(MAX_PAGES, pageCount));
      }
      var pricePath := "";
      if params.minPrice.Some? || params.maxPrice.Some? {
        pricePath := "/preis:" + PriceBound(params.minPrice) + ":" + PriceBound(params.maxPrice);
      }
      var query := QueryParams(params.query, params.location, params.radius);
      var req := SearchRequest(pricePath, query, pageCount);
      assert req == BuildSearchRequest(params);
      result, visited := VisitPages(req, fetch);
    }

    /** The page loop of `search_listings`, with its `except` turning a failure into `SearchError`. */
    method VisitPages(req: SearchRequest, fetch: string -> Navigation<SearchPage>)
      returns (result: Result<seq<ListingSummary>, KleinanzeigenError>, visited: seq<nat>)
      ensures result == SearchOutcome(baseUrl, req, fetch)
      ensures 1 <= req.pages ==> 1 <= |visited|
      ensures Visits(baseUrl, req, fetch, result, visited)
    {
      ghost var pages := PageResults(baseUrl, req, fetch);
      var results: seq<ListingSummary> := [];
      visited := [];
      var pageNum := 1;
      while pageNum <= req.pages
        invariant 1 <= pageNum <= req.pages + 1 || (req.pages == 0 && pageNum == 1)
        invariant visited == PageNumbers(pageNum - 1)
        invariant Gather(pages, pageNum - 1) == Success(results)
        invariant pageNum >= 2 ==> !FirstPageEmpty(baseUrl, req, fetch)
      {
        var url := PageUrl(baseUrl, req, pageNum);
        visited := visited + [pageNum];
        assert visited == PageNumbers(pageNum);
        assert pages(pageNum) == PageResult(baseUrl, req, fetch, pageNum);
        match fetch(url)
        case NavigationFailed(cause) =>
          StopAtFailure(baseUrl, req, fetch, pageNum, results, cause);
          VisitsToFailure(baseUrl, req, fetch, pageNum, results, cause);
          return Failure(SearchError("Failed to search listings: " + cause)), visited;
        case Loaded(page) =>
          var pageResults := ExtractListingsFromPage(page);
          GatherLoaded(pages, pageNum - 1, results, pageResults);
          results := results + pageResults;
          if pageResults == [] && pageNum == 1 {
            assert results == [];
            assert PageResult(baseUrl, req, fetch, 1) == Success([]);
            StopAtEmptyFirstPage(baseUrl, req, fetch);
            return Success(results), visited;
          }
        pageNum := pageNum + 1;
      }
      StopAfterLastPage(baseUrl, req, fetch, results);
      result := Success(results);
    }

    /** `_extract_listings_from_page`: the summaries of a page, in document order. */
    method ExtractListingsFromPage(page: SearchPage) returns (results: seq<ListingSummary>)
      ensures results == PageSummaries(baseUrl, page)
    {
      match page
      case Unreadable =>
        results := [];
      case Rendered(items) =>
        results := [];
        for i := 0 to |items|
          invariant results == FilterMap(SummaryExtractor(baseUrl), items[..i])
        {
          var item := items[i];
          TakeOneMore(items, i);
          FilterMapSnoc(SummaryExtractor(baseUrl), items[..i], item);
          if !Selected(item) || item.article.None? {
            continue;
          }
          var article := item.article.value;
          var title := TextOr(article.titleText, "");
          var price := "";
          if article.priceText.Some? {
            price := CleanPrice(article.priceText.value);
          }
          var description := TextOr(article.descriptionText, "");
          if Truthy(article.adid) && Truthy(article.href) {
            var fullUrl := baseUrl + article.href.value;
            results := results + [ListingSummary(article.adid.value, fullUrl, title, price, description)];
          }
        }
        assert items[..|items|] == items;
    }

    /** `get_listing_details`: see `DetailOutcome`; nothing is fetched before the browser is started. */
    method GetListingDetails(listingId: string, fetch: string -> Navigation<DetailPage>)
      returns (result: Result<ListingDetails, KleinanzeigenError>, navigated: seq<string>)
      ensures !started ==> result == Failure(DetailFetchError(NOT_INITIALIZED)) && navigated == []
      ensures started ==> navigated == [DetailUrl(baseUrl, listingId)]
      ensures started ==> result == DetailOutcome(baseUrl, listingId, fetch)
    {
      if !started {
        return Failure(DetailFetchError(NOT_INITIALIZED)), [];
      }
      var url := baseUrl + "/s-anzeige/" + listingId;
      navigated := [url];
      match fetch(url)
      case NavigationFailed(cause) =>
        result := Failure(DetailFetchError("Failed to fetch listing " + listingId + ": " + cause));
      case Loaded(page) =>
        var details := ExtractListingDetails(page);
        result := Success(details);
    }

    /** `_extract_listing_details`: the record `DetailsOf` describes, built field by field. */
    method ExtractListingDetails(page: DetailPage) returns (details: ListingDetails)
      ensures details == DetailsOf(page)
    {
      var adId := GetText(page.adIdText, MISSING_ID);
      var categories := CollectTexts(page.categoryTexts);
      var title := GetText(page.titleText, MISSING_TITLE);
      ghost var fullTitle := title;
      var status := ExtractStatus(page.titleText, page.hasSoldBadge);
      if Contains(title, TITLE_SEPARATOR) {
        title := Strip(AfterLast(title, TITLE_SEPARATOR));
      }
      assert title == CleanTitle(fullTitle);
      var price := ParsePrice(GetText(page.priceText, ""));
      var views := GetText(page.viewsText, "0");
      var description := ExtractDescription(GetText(page.descriptionText, ""));
      var images := CollectImages(page.imageSources);
      var shipping := ExtractDelivery(GetText(page.shippingText, ""));

      var locationText := GetText(page.localityText, "");
      var location: Dict := if locationText != "" then [("raw", locationText)] else [];

      var seller: Dict := [];
      var sellerName := GetText(page.sellerNameText, "");
      if sellerName != "" {
        seller := Put(seller, "name", sellerName);
      }
      assert seller == if sellerName != "" then [("name", sellerName)] else [];

      var detailsDict := CollectAttributes(page.detailsBlock);
      var features := CollectAttributes(page.featuresBlock);

      details := ListingDetails(
        adId, categories, title, status.Name(), price, shipping, Some(location), views,
        description, images, detailsDict, features, seller, []);
    }

    /** The status steps: the title's markers in order, then the sold badge. */
    method ExtractStatus(titleText: Option<string>, soldBadge: bool) returns (status: Status)
      ensures status == StatusOf(titleText, soldBadge)
    {
      status := Active;
      if titleText.Some? {
        var text := titleText.value;
        if Contains(text, SOLD_MARK) {
          status := Sold;
        } else if Contains(text, RESERVED_MARK) {
          status := Reserved;
        } else if Contains(text, DELETED_MARK) {
          status := Deleted;
        }
      }
      if soldBadge {
        status := Sold;
      }
    }

    /** The description steps: collapse spaces and tabs, strip, collapse newlines. */
    method ExtractDescription(text: string) returns (description: string)
      ensures description == NormaliseDescription(text)
    {
      description := text;
      if description != "" {
        description := Strip(CollapseRuns(description, {' ', '\t'}, ' '));
        description := CollapseRuns(description, {'\n'}, '\n');
      }
    }

    /** The shipping steps: pickup before shipping, nothing for an empty text. */
    method ExtractDelivery(text: string) returns (shipping: Option<string>)
      ensures shipping == DeliveryOf(text)
    {
      shipping := None;
      if text != "" {
        if Contains(text, PICKUP_MARK) {
          shipping := Some("pickup");
        } else if Contains(text, SHIPPING_MARK) {
          shipping := Some("shipping");
        }
      }
    }

    /** The image loop: every `src` that is present and non-empty, in order. */
    method CollectImages(sources: seq<Option<string>>) returns (images: seq<string>)
      ensures images == ImagesOf(sources)
    {
      images := [];
      for i := 0 to |sources|
        invariant images == FilterMap(ImageOf, sources[..i])
      {
        TakeOneMore(sources, i);
        FilterMapSnoc(ImageOf, sources[..i], sources[i]);
        var src := sources[i];
        if Truthy(src) {
          images := images + [src.value];
        }
      }
      assert sources[..|sources|] == sources;
    }

    /** `get_texts`: each element's stripped text, skipping blank ones. */
    method CollectTexts(texts: seq<string>) returns (result: seq<string>)
      ensures result == TextsOf(texts)
    {
      result := [];
      for i := 0 to |texts|
        invariant result == FilterMap(TextItem, texts[..i])
      {
        TakeOneMore(texts, i);
        FilterMapSnoc(TextItem, texts[..i], texts[i]);
        var text := Strip(texts[i]);
        if text != "" {
          result := result + [text];
        }
      }
      assert texts[..|texts|] == texts;
    }

    /** The details/features loop: `d[label] = value` for each complete entry, in page order. */
    method CollectAttributes(block: Option<seq<AttributeItem>>) returns (d: Dict)
      ensures d == AttributesOf(block)
    {
      d := [];
      if block.Some? {
        var items := block.value;
        for i := 0 to |items|
          invariant d == PutAll([], FilterMap(AttributeEntry, items[..i]))
        {
          var item := items[i];
          ghost var entries := FilterMap(AttributeEntry, items[..i]);
          TakeOneMore(items, i);
          FilterMapSnoc(AttributeEntry, items[..i], item);
          if item.labelText.Some? && item.valueText.Some? {
            var key := Strip(item.labelText.value);
            var value := Strip(item.valueText.value);
            assert AttributeEntry(item) == Some((key, value));
            assert FilterMap(AttributeEntry, items[..i + 1]) == entries + [(key, value)];
            PutAllSnoc([], entries, (key, value));
            d := Put(d, key, value);
          } else {
            assert FilterMap(AttributeEntry, items[..i + 1]) == entries + [];
            assert entries + [] == entries;
          }
        }
        assert items[..|items|] == items;
      }
    }
  }
}
