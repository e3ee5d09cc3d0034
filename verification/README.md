# A Dafny model of the scrape.py crawler

`scrape.py` crawls the demo shop at `https://web-scraping.dev` in three passes:

- `scrape_products` walks the paginated listing of three categories. It keeps the first record
  for every product link.
- `scrape_testimonials` follows the HTMX `hx-get` triggers. Every page after the first is
  requested with a secret token.
- `scrape_reviews` visits every product page and reads the embedded `reviews-data` payload. It
  tags each review with `is_from_2023` and returns all rows plus the 2023 rows.

Dates go through `parse_date`, which strips the text and tries five `strptime` formats in
order.

This project models those passes as pure functions over an abstract site:

- The site is a map from a request (URL plus the exact headers sent) to the page the server
  answers. A request that is not in the map is the error `get_soup` raises.
- A page holds what the CSS selectors pick out of it, already extracted: product cards,
  paging anchors, testimonial cards and the reviews payload.
- Every pagination loop takes a `fuel` bound. A chain longer than the fuel ends in `OutOfFuel`.
- Each loop of the source is also written as a `method` with a loop, proved equal to the
  functional definition: `Dates.TryLoop` (the format loop), `Products.FindNextListing` (the
  paging-anchor loop with `break`), `Products.AddPage`, `Products.CrawlCategory`,
  `Products.CrawlCategories`, `Chains.Crawl` (every `while url:` loop),
  `Testimonials.CollectCards`, `Testimonials.ScanTriggers`, `Reviews.PageRows` and
  `Reviews.CollectReviewRows`.

The modules follow the program:

| module | file | what it holds |
|---|---|---|
| `Common` | common.dfy | `Option`, `Result`, `Prepend` |
| `Seqs` | seqs.dfy | subsequences, `Filter`, first-success search |
| `Text` | text.dfy | whitespace, digits, `strip()` |
| `Site` | site.dfy | headers, link resolution, page records, `get_soup` |
| `Chains` | chains.dfy | the generic `while url:` pagination loop |
| `Dates` | dates.dfy | `parse_date` and the `strptime` grammar it relies on |
| `DateLemmas` | date_lemmas.dfy | a renderer for the five formats and the round-trip proof |
| `Products` | products.dfy | `scrape_products` |
| `Testimonials` | testimonials.dfy | `scrape_testimonials` |
| `Reviews` | reviews.dfy | `scrape_reviews` |

The `strptime` grammar follows CPython's `_strptime` for the directives used:

- `%Y` is exactly four digits.
- `%m`, `%d`, `%H`, `%M` and `%S` take two digits when their value is in range, otherwise one.
- `%d` also accepts a space followed by a digit from 1 to 9.
- `%b` and `%B` are English month names, matched ignoring case.
- A blank in the format matches one or more whitespace characters.
- The whole string must be consumed.
- The `datetime` constructor then checks the ranges: year 1 to 9999, the day against the month
  length with Gregorian leap years, and second at most 59. The regex lets seconds 60 and 61
  through, and the constructor rejects them.

The code does not guard `get_soup` at scrape.py:189, so one failed fetch aborts the whole
run; the model follows the code.

## Model

| member | source | states |
|---|---|---|
| Site.MergeHeadersOverride | scrape.py:21-23 | Without extras the base headers are sent unchanged. With extras, the keys are the union, an extra header wins on conflict, and every base header the extras do not mention keeps its value. |
| Site.Resolve | scrape.py:67-68 | The resolved link starts with "http". An href starting with "http" is returned unchanged; any other href becomes `BASE + href`. |
| Site.ResolveStable | scrape.py:99 | Resolving twice is resolving once. A relative href and its absolute form `BASE + href` resolve to the same URL. |
| Site.NextUrl | scrape.py:98-102 | A next URL exists exactly when the link is present and non-empty, and it is then the resolved link. |
| Site.Fetch | scrape.py:20-25 | `get_soup` succeeds exactly when the site answers the URL with the merged headers, and returns that page. Otherwise it fails with an `HttpError` that names the request. |
| Dates.Strptime | scrape.py:33 | `datetime.strptime` succeeds only with a date-time that passes every check of the `datetime` constructor; no match, unconsumed text or an out-of-range field give `None`. |
| Dates.ParseDate | scrape.py:29-36 | `parse_date` never raises, and a date it returns passes every check of the `datetime` constructor. |
| Dates.ParseDateLoop | scrape.py:29-36 | The loop version of `parse_date`, which strips the text and returns at the first successful format, equals `ParseDate`. |
| Dates.TryLoop | scrape.py:31-35 | The `for fmt in (...)` loop, returning at the first format whose `strptime` succeeds and `None` after the last, equals the first-success search over the formats. |
| Dates.ParseDateNone | scrape.py:30-36 | The result is `None` exactly when none of the five formats accepts the stripped text. |
| Dates.ParseDateFirstMatch | scrape.py:30-35 | A date is the parse of the first format, in the fixed order, that accepts the stripped text. Every earlier format rejects it. |
| Dates.ParseDateAgrees | scrape.py:30-35 | If format `k` parses the stripped text to `t`, and every earlier format either rejects it or also gives `t`, the result is `t`. |
| DateLemmas.StrptimeRendered | scrape.py:33 | A format without adjacent blanks parses its own rendering of any valid date-time it fully determines back to that date-time. |
| DateLemmas.ReadsOwnRendering | scrape.py:31-33 | Each of the five formats reads back its own rendering of a valid date-time. The date-only formats need a midnight time. |
| DateLemmas.EarlierFormatAgrees | scrape.py:31-35 | A format tried earlier either rejects a later format's rendering or reads the same date-time from it, as `%b` does for May. |
| DateLemmas.ParseDateRoundTrip | scrape.py:29-36 | `parse_date` of any valid date-time rendered in any of the five formats returns that date-time. |
| DateLemmas.MayRendersAlike | scrape.py:31 | `%b %d, %Y` and `%B %d, %Y` render a May date identically, because "may" is both the abbreviation and the name. |
| DateLemmas.DateOnlyFormats | scrape.py:31-33 | The first four formats yield midnight and accept no text containing a colon. |
| DateLemmas.TimeOnlyThroughLastFormat | scrape.py:31-33 | A result with a time of day, or a stripped input containing a colon, comes from `%Y-%m-%d %H:%M:%S`, and all four date-only formats reject that input. |
| DateLemmas.ParseDatePadded | scrape.py:30 | Whitespace around the text does not change the result of `parse_date`. |
| DateLemmas.NotLikeNoDate | scrape.py:29-36 | A text that starts like "n?t" and does not end in whitespace is rejected by all five formats, so `parse_date` returns `None`. |
| DateLemmas.DottedExample | scrape.py:31 | "15.03.2023" parses to 15 March 2023 at midnight. |
| DateLemmas.FullMonthExample | scrape.py:31 | "March 15, 2023" parses to 15 March 2023 at midnight. |
| DateLemmas.NotADateExample | scrape.py:29-36 | "not-a-date" parses to `None`. |
| Text.TrimIsSlice | scrape.py:30 | `strip()` returns a contiguous slice of its input, with only whitespace removed on either side. |
| Text.TrimPadded | scrape.py:30 | Adding whitespace on either side does not change the result of `strip()`. |
| Text.TrimUnpadded | scrape.py:30 | A text that neither starts nor ends with whitespace is its own `strip()`. |
| Products.ProductLink | scrape.py:62-68 | The link is absent exactly when the card has no title anchor or the anchor has no href. A non-empty href is resolved against `BASE`, and an empty one is kept as "". |
| Products.DedupSeen | scrape.py:71-73 | After a run of cards, the seen-set holds the links it held before plus every link of those cards. |
| Products.DedupKeepsFirstNew | scrape.py:70-73 | The survivors have pairwise distinct links, with an absent link counted as one value. None of their links was seen before, and they form a subsequence of the input. Every record that is the first with a new link survives. |
| Products.DedupPositions | scrape.py:70-73 | The survivors are the input records at a strictly increasing list of positions, and those positions are exactly the records that are first with a new link. |
| Products.DedupLinks | scrape.py:70-73 | The survivors' links are exactly the input's links minus the ones already seen. |
| Products.DedupConcat | scrape.py:41-105 | One seen-set shared by consecutive runs deduplicates their concatenation. |
| Products.DedupDistinct | scrape.py:70-73 | Records whose links are pairwise distinct and unseen all survive, in order. |
| Products.NextListingUrlFirstArrow | scrape.py:92-102 | Pagination stops when no paging anchor reads ">". Otherwise the next page is the resolved non-empty href of the first anchor reading ">", even when later anchors also do. |
| Products.FindNextListing | scrape.py:92-102 | The anchor loop that stops with `break` at the first ">" and resolves its non-empty link equals `NextListingUrl`. |
| Products.ScrapeFromIsDedup | scrape.py:41-73 | Threading the seen-set through the categories gives the same result as deduplicating all categories' records at once. A failed fetch in any category is the error of the whole pass. |
| Products.AddPage | scrape.py:60-89 | The card loop appends the page's records whose links are new, in card order, and the seen-set grows accordingly. |
| Products.CrawlCategory | scrape.py:48-102 | One category's `while url:` loop returns the new records of its listing chain, or that chain's error. |
| Products.CrawlCategories | scrape.py:46-105 | The category loop returns the concatenation of each category's new records, or the first error. |
| Products.ScrapeProducts | scrape.py:38-108 | `scrape_products` returns the first record for every link among all categories' records, crawled in the order apparel, consumables, household. |
| Products.ProductsFirstSeen | scrape.py:41-105 | The products returned have pairwise distinct links and cover every link that was crawled. They are the records at a strictly increasing list of positions in crawl order, and those positions are exactly the first records of their links. |
| Chains.Chain | scrape.py:48-102 | A completed `while url:` loop fetched at least one page and at most `fuel`, starting with the start URL. A failed one either ran out of fuel or met a request the site does not answer. |
| Chains.ChainIsChain | scrape.py:52-102 | A completed crawl fetched a chain. Its first page answers the start URL, each later page answers the previous page's next link, and the last page has none. |
| Chains.ChainUnique | scrape.py:52-102 | Given fuel for its length, the crawl from a start URL fetches exactly the chain from there, each page once, in order. |
| Chains.Crawl | scrape.py:52-102 | The `while url:` loop returns the harvest of every page of the chain, page by page, or the first error. |
| Testimonials.FirstPageHeaders | scrape.py:124-125 | The first testimonials page goes out with the default headers alone. |
| Testimonials.LaterPageHeaders | scrape.py:116-127 | Every later page carries exactly the user agent, `x-secret-token: secret123` and the testimonials referer. |
| Testimonials.PageTestimonialsFilter | scrape.py:133-152 | A page yields one record per card with non-empty text, in card order. |
| Testimonials.EmittedHaveText | scrape.py:133-152 | Every record has non-empty text and comes from a card with that text, that username and that rating-span svg count, which is absent without a span. |
| Testimonials.CollectCards | scrape.py:133-152 | The card loop, appending author, text and rating of every card with non-empty text, equals `PageTestimonials`. |
| Testimonials.LastTriggerNone | scrape.py:156-166 | There is no next page exactly when no card has a non-empty `hx-get`. |
| Testimonials.LastTriggerIsLast | scrape.py:156-160 | The trigger is the `hx-get` of the last card that has a non-empty one. |
| Testimonials.ScanTriggers | scrape.py:156-160 | The loop without a break leaves the last non-empty `hx-get`. |
| Testimonials.ScrapeTestimonials | scrape.py:110-169 | `scrape_testimonials` returns the records of the chain from the testimonials page. Page 1 is requested plainly, and each later page with the secret headers at the last trigger of the page before. |
| Reviews.ParsedDate | scrape.py:211 | A date is present only for a non-empty date string, and it is then a valid date-time. |
| Reviews.TagReview | scrape.py:209-224 | The row copies the review's id, text and rating and names the product URL. `is_from_2023` holds exactly when the parsed date lies in 2023. |
| Reviews.IsFrom2023Iff | scrape.py:210-214 | `is_from_2023` holds exactly when `date` is a non-empty string that parses to a date in 2023. A missing or null date gives no date. |
| Reviews.TagAll | scrape.py:209-224 | The payload gives one row per review object, in payload order. |
| Reviews.CollectReviewsOk | scrape.py:186-189 | The loop completes exactly when every link is present and fetchable. |
| Reviews.CollectReviewsFirstFailure | scrape.py:186-189 | A failed loop stops at the first link that is absent or unfetchable, with the error `get_soup` raises for it. |
| Reviews.CollectReviewsConcat | scrape.py:186-224 | Running the loop over two lists of links in turn is running it over their concatenation. |
| Reviews.SkipsPagesWithoutReviews | scrape.py:194-204 | A fetchable page without a reviews script, or with an unparsable one, contributes nothing. The run equals the run without that link. |
| Reviews.CollectedRowsFromLinks | scrape.py:216-218 | Every row names one of the product links as its URL. |
| Reviews.PageRows | scrape.py:192-224 | The rows of one product page are the tagged reviews of its payload, or none when the payload is missing or unparsable. |
| Reviews.CollectReviewRows | scrape.py:186-224 | The loop over the links appends each page's rows in turn, and stops at the first failed fetch. |
| Reviews.Reviews2023 | scrape.py:234 | The 2023 view keeps exactly the rows tagged `is_from_2023`, each as often as in the input and in input order. |
| Reviews.LinkColumn | scrape.py:181 | One link per product, in product order, with an absent link kept as absent. This is the corrected column (see ## Findings): for no products it gives no links, where the code as written, `LinkColumnAsWritten` / `ReviewsResultAsWritten`, raises `KeyError`; `AsWrittenAgrees` relates the two. |
| Reviews.NoProductsCrash | scrape.py:181 | Without products the code as written fails with a missing `link` column, and the corrected run returns two empty views. |
| Reviews.NoReviewsCrash | scrape.py:229-234 | One product whose page has no reviews script makes the code as written fail with a missing `is_from_2023` column, and the corrected run returns two empty views. |
| Reviews.AsWrittenAgrees | scrape.py:177-234 | The code as written and the corrected run agree, except that the former fails with a missing column where the latter returns two empty views. |
| Reviews.ReviewsViews | scrape.py:229-234 | The corrected run returns the collected rows and exactly their 2023 rows, in order. |
| Reviews.ScrapeReviews | scrape.py:171-237 | `scrape_reviews` scrapes products when none are given, collects the rows of every product link, and splits off the 2023 view. This is the corrected run (see ## Findings), which returns two empty views where the code as written, `ReviewsResultAsWritten`, raises `KeyError` at scrape.py:181 or scrape.py:234; `AsWrittenAgrees` relates the two. |

## Left out

- Networking: `requests.get`, the 30-second timeout, `raise_for_status` and `time.sleep` are not modelled. A fetch is a lookup in the site map; a missing entry stands for any HTTP error or network failure.
- Site.Fetch: `requests.get("")` and other malformed URLs always raise. In the model such a URL is an `HttpError` only when the site map lacks that key, because URLs are not validated.
- HTML parsing and CSS selection (BeautifulSoup, lxml, `get_text(strip=True)`): each page arrives with its cards, anchors and payload already extracted.
- JSON decoding: the `reviews-data` payload is either a parsed list of review objects or unparsable.
- Site.ReviewsScript: a payload that parses to something other than a list of objects, such as a number or a list of strings, cannot be represented. Python raises at scrape.py:206 or scrape.py:210 and aborts the run.
- Site.RawDate: a `date` value that is neither missing, `null` nor a string cannot be represented. In Python, a falsy one such as 0 gives no date, and any other makes `raw.strip()` raise and abort the run.
- Site.ReviewRecord: `id` and `text` are typed as optional strings and `rating` as an optional integer. JSON allows any value for all three, and `review.get` copies it through unchanged.
- Text.IsSpace: whitespace is the ASCII set (tab to carriage return, 0x1C to 0x1F, space). `str.strip()` and the `\s` of `strptime` also accept U+0085, U+00A0, U+2000 to U+200A and other Unicode whitespace.
- Text.Trim: strips that same ASCII set only, for the reason given under `Text.IsSpace`.
- Dates.Step: numeric directives read ASCII digits only. The `\d` of `strptime` plus `int()` also accept other Unicode decimal digits.
- Dates.MatchMonth: month names and abbreviations are English, as in the C locale. `strptime` uses the current locale's names.
- Dates.ParseDate: it inherits the ASCII-only whitespace and digits and the English month names described above, so it returns `None` for some texts Python parses. Only the five directives the formats use are modelled, not the rest of `strptime`'s grammar.
- `pd.to_datetime` at scrape.py:231 is not modelled. The `date` column stays an optional date-time.
- DataFrame construction, CSV output, `print` logging, `main`, `OUT_DIR.mkdir` and the separate dashboard application are not modelled.
- Chains.Chain: the `fuel` bound stands in for the unbounded `while url:` loops. A pagination cycle never ends in Python, and in the model it ends with `OutOfFuel`. `ChainUnique` and `ChainFuel` show that enough fuel never changes a completed crawl.

## Findings

| source | as written | input that shows it | evidently intended | confidence | as-written member | corrected member |
|---|---|---|---|---|---|---|
| scrape.py:181 | `products_df["link"]` indexes the product DataFrame by column | an empty product list: `pd.DataFrame([])` has no columns, so the lookup raises `KeyError` | no links and no reviews: two empty views | not executed | Reviews.LinkColumnAsWritten, Reviews.ReviewsResultAsWritten (shown by Reviews.NoProductsCrash) | Reviews.LinkColumn, Reviews.ReviewsResult |
| scrape.py:234 | `all_reviews_df["is_from_2023"]` indexes the reviews DataFrame by column | products whose pages carry no reviews script: `all_rows` stays empty and the lookup raises `KeyError` | two empty views | not executed | Reviews.SplitViewsAsWritten, Reviews.ReviewsResultAsWritten (shown by Reviews.NoReviewsCrash, Reviews.AsWrittenAgrees) | Reviews.SplitViews, Reviews.Reviews2023 |
