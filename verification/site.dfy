/** The crawler's view of web-scraping.dev: request headers, link resolution, the abstract pages
    the CSS selectors pick apart, and fetching as a partial lookup. */
module Site {
  import opened Common
  import opened Text

  const Base: string := "https://web-scraping.dev"

  type Headers = map<string, string>

  /** `HEADERS`: every request identifies the crawler by its user agent. */
  const DefaultHeaders: Headers :=
    map["User-Agent" := "Mozilla/5.0 (compatible; HW3 bot; +https://example.com)"]

  /** The headers `get_soup` sends: a copy of `base` updated with `extra`, if any. */
  function MergeHeaders(base: Headers, extra: Option<Headers>): Headers {
    match extra
    case None => base
    case Some(e) => if |e| > 0 then base + e else base
  }

  /** The update keeps every header of `base` that `extra` does not mention, adds those of
      `extra`, and lets `extra` win where both have a header. */
  lemma {:induction false} MergeHeadersOverride(base: Headers, extra: Option<Headers>)
    ensures extra.None? ==> MergeHeaders(base, extra) == base
    ensures extra.Some? ==> MergeHeaders(base, extra).Keys == base.Keys + extra.value.Keys
    ensures extra.Some? ==> forall k :: k in extra.value ==> MergeHeaders(base, extra)[k] == extra.value[k]
    ensures extra.Some? ==> forall k :: k in base && k !in extra.value ==> MergeHeaders(base, extra)[k] == base[k]
  {
  }

  /** A request as the server sees it: the URL and the merged headers. */
  datatype Request = Request(url: string, headers: Headers)

  /** The request `get_soup(url, extra)` issues. */
  function RequestFor(url: string, extra: Option<Headers>): Request {
    Request(url, MergeHeaders(DefaultHeaders, extra))
  }

  /** `href` if it starts with "http", otherwise `BASE + href`. */
  function Resolve(href: string): (url: string)
    ensures StartsWith(url, "http")
    ensures StartsWith(href, "http") ==> url == href
    ensures !StartsWith(href, "http") ==> url == Base + href && |url| == |Base| + |href|
  {
    if StartsWith(href, "http") then href else Base + href
  }

  /** Resolving is idempotent, and a site-relative link and its absolute form resolve alike. */
  lemma {:induction false} ResolveStable(href: string)
    ensures Resolve(Resolve(href)) == Resolve(href)
    ensures !StartsWith(href, "http") ==> Resolve(Base + href) == Resolve(href)
  {
    assert StartsWith(Base, "http");
    if !StartsWith(href, "http") {
      assert (Base + href)[..4] == Base[..4];
    }
  }

  /** Where pagination goes next (scrape.py:98-102, 162-166): a non-empty link is resolved and
      followed, an absent or empty one ends the crawl. */
  function NextUrl(href: Option<string>): (r: Option<string>)
    ensures r.Some? <==> href.Some? && href.value != ""
    ensures r.Some? ==> r.value == Resolve(href.value)
  {
    match href
    case Some(h) => if h != "" then Some(Resolve(h)) else None
    case None => None
  }

  // ---------------------------------------------------------------------------------------
  // Pages, as the CSS selectors see them.

  /** An `<a>` element: its stripped text and its `href` attribute. */
  datatype Anchor = Anchor(text: string, href: Option<string>)

  /** A `div.row.product` card: the `h3 a` title anchor, the `div.price` text and the
      `div.short-description` text, each absent when the element is missing. */
  datatype ProductCard = ProductCard(title: Option<Anchor>, price: Option<string>, description: Option<string>)

  /** A `div.testimonial` card: the `identicon-svg` username, the `p.text` text, the number of
      `svg` elements in `span.rating`, and the `hx-get` attribute. */
  datatype TestimonialCard =
    TestimonialCard(username: Option<string>, text: Option<string>, ratingSvgs: Option<nat>, hxGet: Option<string>)

  /** The `date` key of a review object: missing, JSON `null`, or a string. */
  datatype RawDate = DateMissing | DateNull | DateText(s: string)

  /** One object of the reviews payload (`None` for a missing key or a `null`). */
  datatype ReviewRecord = ReviewRecord(id: Option<string>, text: Option<string>, rating: Option<int>, date: RawDate)

  /** The `script#reviews-data` payload: a list of review objects, or text `json.loads` rejects. */
  datatype ReviewsScript = Parsed(reviews: seq<ReviewRecord>) | Unparsable

  /** Everything the crawler selects from one page; a selector that matches nothing yields an
      empty sequence or `None`. */
  datatype Page = Page(
    productCards: seq<ProductCard>,
    paging: seq<Anchor>,
    testimonials: seq<TestimonialCard>,
    reviewsScript: Option<ReviewsScript>)

  /** The site: the page the server answers with a success status for each request it answers. */
  type Site = map<Request, Page>

  datatype CrawlError =
    | HttpError(request: Request)   // no page for the request: `raise_for_status` or the network failed
    | InvalidUrl                    // `get_soup(None)`
    | OutOfFuel                     // the pagination chain was longer than the fuel allowed
    | MissingColumn(column: string) // a DataFrame without that column was indexed by it

  /** The server's answer to `url` requested with exactly `headers`. */
  function Lookup(site: Site, url: string, headers: Headers): (r: Result<Page, CrawlError>)
    ensures r.Ok? <==> Request(url, headers) in site
    ensures r.Ok? ==> r.value == site[Request(url, headers)]
    ensures r.Err? ==> r.error == HttpError(Request(url, headers))
  {
    var req := Request(url, headers);
    if req in site then Ok(site[req]) else Err(HttpError(req))
  }

  /** `get_soup(url, extra)`: the page for the request, or the error the request raises. */
  function Fetch(site: Site, url: string, extra: Option<Headers>): (r: Result<Page, CrawlError>)
    ensures r.Ok? <==> RequestFor(url, extra) in site
    ensures r.Ok? ==> r.value == site[RequestFor(url, extra)]
    ensures r.Err? ==> r.error == HttpError(RequestFor(url, extra))
  {
    Lookup(site, url, MergeHeaders(DefaultHeaders, extra))
  }
}
