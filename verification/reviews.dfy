/** `scrape_reviews` (scrape.py:171-237): visits the page of every product link, reads the
    embedded reviews payload, tags each review with its parsed date and whether it is from
    2023, and returns all rows together with the 2023 rows. */
module Reviews {
  import opened Common
  import opened Seqs
  import opened Dates
  import opened Site
  import opened Products

  /** One row of `all_reviews_df`. `dateRaw` is `None` for a JSON `null`. */
  datatype ReviewRow = ReviewRow(
    reviewId: Option<string>,
    productUrl: string,
    text: Option<string>,
    rating: Option<int>,
    dateRaw: Option<string>,
    date: Option<DateTime>,
    isFrom2023: bool)

  /** `review.get("date", "")`: the string, "" for a missing key, `None` for `null`. */
  function DateRaw(d: RawDate): Option<string> {
    match d
    case DateMissing => Some("")
    case DateNull => None
    case DateText(s) => Some(s)
  }

  /** `parse_date(date_raw) if date_raw else None`: only a non-empty string is parsed. */
  function ParsedDate(raw: Option<string>): (date: Option<DateTime>)
    ensures date.Some? ==> raw.Some? && raw.value != "" && ValidDateTime(date.value)
  {
    if raw.Some? && raw.value != "" then ParseDate(raw.value) else None
  }

  /** The row of one review object found on the page of `productUrl`. */
  function TagReview(review: ReviewRecord, productUrl: string): (row: ReviewRow)
    ensures row.reviewId == review.id && row.text == review.text && row.rating == review.rating
    ensures row.productUrl == productUrl
    ensures row.date.Some? ==> ValidDateTime(row.date.value)
    ensures row.isFrom2023 <==> row.date.Some? && row.date.value.year == 2023
  {
    var raw := DateRaw(review.date);
    var date := ParsedDate(raw);
    ReviewRow(review.id, productUrl, review.text, review.rating, raw, date, date.Some? && date.value.year == 2023)
  }

  /** A review is from 2023 exactly when its `date` is a non-empty string that `parse_date`
      reads as a date in 2023; a missing or `null` date never is. */
  lemma {:induction false} IsFrom2023Iff(review: ReviewRecord, productUrl: string)
    ensures TagReview(review, productUrl).isFrom2023 <==>
              && review.date.DateText?
              && review.date.s != ""
              && ParseDate(review.date.s).Some?
              && ParseDate(review.date.s).value.year == 2023
    ensures !review.date.DateText? ==> TagReview(review, productUrl).date.None?
  {
  }

  /** The `for review in reviews_json` loop: one row per review object, in payload order. */
  function TagAll(reviews: seq<ReviewRecord>, productUrl: string): (rows: seq<ReviewRow>)
    ensures |rows| == |reviews|
    ensures forall i :: 0 <= i < |rows| ==> rows[i] == TagReview(reviews[i], productUrl)
  {
    if reviews == [] then [] else [TagReview(reviews[0], productUrl)] + TagAll(reviews[1..], productUrl)
  }

  /** The rows one product page contributes: none when the page has no reviews script or the
      script is not valid JSON, otherwise one per review object. */
  function PageReviewRows(page: Page, productUrl: string): seq<ReviewRow> {
    match page.reviewsScript
    case None => []
    case Some(Unparsable) => []
    case Some(Parsed(reviews)) => TagAll(reviews, productUrl)
  }

  /** A link `get_soup` can fetch: present, and answered by the site. */
  predicate Reachable(site: Site, link: Option<string>) {
    link.Some? && Fetch(site, link.value, None).Ok?
  }

  /** The `for product_url in product_links` loop: fetch each link in order and collect the
      rows of its page. A missing link or a failed fetch raises and ends the run. */
  function CollectReviews(site: Site, links: seq<Option<string>>): (r: Result<seq<ReviewRow>, CrawlError>)
    ensures r.Err? ==> r.error == InvalidUrl || (r.error.HttpError? && r.error.request !in site)
  {
    if links == [] then Ok([])
    else match links[0]
      case None => Err(InvalidUrl)
      case Some(url) =>
        match Fetch(site, url, None)
        case Err(e) => Err(e)
        case Ok(page) => Prepend(PageReviewRows(page, url), CollectReviews(site, links[1..]))
  }

  /** The error `get_soup` raises for a link it cannot fetch. */
  function LinkError(link: Option<string>): CrawlError {
    if link.None? then InvalidUrl else HttpError(RequestFor(link.value, None))
  }

  /** The loop completes exactly when every link is reachable. */
  lemma {:induction false} CollectReviewsOk(site: Site, links: seq<Option<string>>)
    ensures CollectReviews(site, links).Ok? <==> forall i :: 0 <= i < |links| ==> Reachable(site, links[i])
  {
    if links != [] && Reachable(site, links[0]) {
      CollectReviewsOk(site, links[1..]);
      assert forall i :: 1 <= i < |links| ==> links[i] == links[1..][i - 1];
    }
  }

  /** A failed loop stopped at the first unreachable link, with the error that link raises. */
  lemma {:induction false} CollectReviewsFirstFailure(site: Site, links: seq<Option<string>>)
    requires CollectReviews(site, links).Err?
    ensures exists i :: 0 <= i < |links| && !Reachable(site, links[i])
                        && (forall j :: 0 <= j < i ==> Reachable(site, links[j]))
                        && CollectReviews(site, links).error == LinkError(links[i])
  {
    HeadStep(site, links);
    if Reachable(site, links[0]) {
      var rest := links[1..];
      CollectReviewsFirstFailure(site, rest);
      var i :| 0 <= i < |rest| && !Reachable(site, rest[i])
               && (forall j :: 0 <= j < i ==> Reachable(site, rest[j]))
               && CollectReviews(site, rest).error == LinkError(rest[i]);
      assert rest[i] == links[i + 1];
      forall j | 0 <= j < i + 1 ensures Reachable(site, links[j]) {
        if j > 0 {
          assert links[j] == rest[j - 1];
        }
      }
    }
  }

  /** A failed loop fails at its first link, or after it with the error of the rest. */
  lemma {:induction false} HeadStep(site: Site, links: seq<Option<string>>)
    requires CollectReviews(site, links).Err?
    ensures links != []
    ensures !Reachable(site, links[0]) ==> CollectReviews(site, links).error == LinkError(links[0])
    ensures Reachable(site, links[0]) ==> CollectReviews(site, links[1..]) == Err(CollectReviews(site, links).error)
  {
  }

  /** Collecting over two runs of links is collecting over the first and then the second. */
  lemma {:induction false} CollectReviewsConcat(site: Site, a: seq<Option<string>>, b: seq<Option<string>>)
    ensures CollectReviews(site, a + b) ==
              match CollectReviews(site, a)
              case Err(e) => Err(e)
              case Ok(rows) => Prepend(rows, CollectReviews(site, b))
  {
    if a == [] {
      assert a + b == b;
      if CollectReviews(site, b).Ok? {
        assert [] + CollectReviews(site, b).value == CollectReviews(site, b).value;
      }
    } else {
      assert (a + b)[0] == a[0];
      assert (a + b)[1..] == a[1..] + b;
      CollectReviewsConcat(site, a[1..], b);
      if Reachable(site, a[0]) {
        var page := Fetch(site, a[0].value, None).value;
        var mine := PageReviewRows(page, a[0].value);
        match CollectReviews(site, a[1..])
        case Err(e) =>
        case Ok(rows) =>
          PrependPrepend(mine, rows, CollectReviews(site, b));
      }
    }
  }

  /** A reachable product page without a usable reviews payload is skipped: the run is the
      same as if its link had not been in the list. */
  lemma {:induction false} SkipsPagesWithoutReviews(site: Site, links: seq<Option<string>>, i: nat)
    requires i < |links| && Reachable(site, links[i])
    requires PageReviewRows(Fetch(site, links[i].value, None).value, links[i].value) == []
    ensures CollectReviews(site, links) == CollectReviews(site, links[..i] + links[i + 1..])
  {
    var c := links[i + 1..];
    assert links == links[..i] + ([links[i]] + c);
    CollectReviewsConcat(site, links[..i], [links[i]] + c);
    CollectReviewsConcat(site, links[..i], c);
    assert ([links[i]] + c)[0] == links[i];
    assert ([links[i]] + c)[1..] == c;
    assert CollectReviews(site, [links[i]] + c) == Prepend([], CollectReviews(site, c));
    if CollectReviews(site, c).Ok? {
      assert [] + CollectReviews(site, c).value == CollectReviews(site, c).value;
    }
  }

  /** Every collected row was read from the page of one of the links. */
  lemma {:induction false} CollectedRowsFromLinks(site: Site, links: seq<Option<string>>)
    requires CollectReviews(site, links).Ok?
    ensures forall row :: row in CollectReviews(site, links).value ==> Some(row.productUrl) in links
  {
    if links != [] {
      var url := links[0].value;
      var page := Fetch(site, url, None).value;
      var mine := PageReviewRows(page, url);
      CollectedRowsFromLinks(site, links[1..]);
      assert CollectReviews(site, links).value == mine + CollectReviews(site, links[1..]).value;
      forall row | row in mine
        ensures row.productUrl == url
      {
        var reviews := page.reviewsScript.value.reviews;
        var k :| 0 <= k < |mine| && mine[k] == row;
        assert row == TagReview(reviews[k], url);
      }
      assert forall l :: l in links[1..] ==> l in links;
    }
  }

  /** The loop of scrape.py:186-224 over the links, appending each page's rows as it goes. */
  method CollectReviewRows(site: Site, links: seq<Option<string>>) returns (r: Result<seq<ReviewRow>, CrawlError>)
    ensures r == CollectReviews(site, links)
  {
    var rows: seq<ReviewRow> := [];
    var k := 0;
    if CollectReviews(site, links).Ok? {
      assert [] + CollectReviews(site, links).value == CollectReviews(site, links).value;
    }
    while k < |links|
      invariant 0 <= k <= |links|
      invariant CollectReviews(site, links) == Prepend(rows, CollectReviews(site, links[k..]))
    {
      var link := links[k];
      if link.None? {
        return Err(InvalidUrl);
      }
      var url := link.value;
      match Fetch(site, url, None)
      case Err(e) =>
        return Err(e);
      case Ok(soup) =>
        assert links[k..][1..] == links[k + 1..];
        var mine := PageRows(soup, url);
        PrependPrepend(rows, mine, CollectReviews(site, links[k + 1..]));
        rows := rows + mine;
        k := k + 1;
    }
    assert links[k..] == [];
    assert rows + [] == rows;
    r := Ok(rows);
  }

  /** The rows of one product page: the `for review in reviews_json` loop, run only when the
      page carries a parsable reviews payload. */
  method PageRows(soup: Page, url: string) returns (mine: seq<ReviewRow>)
    ensures mine == PageReviewRows(soup, url)
  {
    mine := [];
    match soup.reviewsScript {
      case None =>
      case Some(Unparsable) =>
      case Some(Parsed(reviews)) =>
        var j := 0;
        while j < |reviews|
          invariant 0 <= j <= |reviews|
          invariant mine == TagAll(reviews[..j], url)
        {
          TagAllSnoc(reviews[..j], reviews[j], url);
          assert reviews[..j] + [reviews[j]] == reviews[..j + 1];
          mine := mine + [TagReview(reviews[j], url)];
          j := j + 1;
        }
        assert reviews[..j] == reviews;
    }
  }

  /** Tagging one more review appends its row. */
  lemma {:induction false} TagAllSnoc(reviews: seq<ReviewRecord>, review: ReviewRecord, productUrl: string)
    ensures TagAll(reviews + [review], productUrl) == TagAll(reviews, productUrl) + [TagReview(review, productUrl)]
  {
    var all := TagAll(reviews + [review], productUrl);
    var expected := TagAll(reviews, productUrl) + [TagReview(review, productUrl)];
    assert |all| == |expected|;
    forall i | 0 <= i < |all|
      ensures all[i] == expected[i]
    {
      if i < |reviews| {
        assert (reviews + [review])[i] == reviews[i];
      } else {
        assert (reviews + [review])[i] == review;
      }
    }
  }

  // ---------------------------------------------------------------------------------------
  // The two views.

  predicate IsFrom2023(row: ReviewRow) {
    row.isFrom2023
  }

  /** `all_reviews_df[all_reviews_df["is_from_2023"] == True]`: the rows from 2023, each as
      often as in `rows`, in their original order. */
  function Reviews2023(rows: seq<ReviewRow>): (only: seq<ReviewRow>)
    ensures forall i :: 0 <= i < |only| ==> only[i].isFrom2023
    ensures forall x :: multiset(only)[x] == if x.isFrom2023 then multiset(rows)[x] else 0
    ensures IsSubsequence(only, rows)
  {
    Filter(rows, IsFrom2023)
  }

  /** Both views of the collected rows, with the 2023 view corrected for an empty run (see
      `SplitViewsAsWritten`). */
  function SplitViews(rows: seq<ReviewRow>): (seq<ReviewRow>, seq<ReviewRow>) {
    (rows, Reviews2023(rows))
  }

  /** scrape.py:234 as written: a DataFrame built from no rows has no columns, so indexing it by
      `"is_from_2023"` raises `KeyError`. */
  function SplitViewsAsWritten(rows: seq<ReviewRow>): Result<(seq<ReviewRow>, seq<ReviewRow>), CrawlError> {
    if rows == [] then Err(MissingColumn("is_from_2023")) else Ok(SplitViews(rows))
  }

  /** `products_df["link"].tolist()`, corrected for a run without products. */
  function LinkColumn(products: seq<Product>): (links: seq<Option<string>>)
    ensures |links| == |products|
    ensures forall i :: 0 <= i < |links| ==> links[i] == products[i].link
  {
    if products == [] then [] else [products[0].link] + LinkColumn(products[1..])
  }

  /** scrape.py:181 as written: a DataFrame built from no product rows has no `link` column. */
  function LinkColumnAsWritten(products: seq<Product>): Result<seq<Option<string>>, CrawlError> {
    if products == [] then Err(MissingColumn("link")) else Ok(LinkColumn(products))
  }

  /** The products the run starts from: the ones passed in, or a fresh product scrape. */
  function ProductsFor(site: Site, products: Option<seq<Product>>, fuel: nat): Result<seq<Product>, CrawlError> {
    match products
    case Some(ps) => Ok(ps)
    case None => ProductsResult(site, fuel)
  }

  /** `scrape_reviews(products_df)`: all rows and the 2023 rows. */
  function ReviewsResult(site: Site, products: Option<seq<Product>>, fuel: nat)
    : Result<(seq<ReviewRow>, seq<ReviewRow>), CrawlError>
  {
    match ProductsFor(site, products, fuel)
    case Err(e) => Err(e)
    case Ok(ps) =>
      match CollectReviews(site, LinkColumn(ps))
      case Err(e) => Err(e)
      case Ok(rows) => Ok(SplitViews(rows))
  }

  /** `scrape_reviews` exactly as written, with both `KeyError`s. */
  function ReviewsResultAsWritten(site: Site, products: Option<seq<Product>>, fuel: nat)
    : Result<(seq<ReviewRow>, seq<ReviewRow>), CrawlError>
  {
    match ProductsFor(site, products, fuel)
    case Err(e) => Err(e)
    case Ok(ps) =>
      match LinkColumnAsWritten(ps)
      case Err(e) => Err(e)
      case Ok(links) =>
        match CollectReviews(site, links)
        case Err(e) => Err(e)
        case Ok(rows) => SplitViewsAsWritten(rows)
  }

  /** An empty product list makes the run as written fail before any fetch, while the corrected
      run returns two empty views. */
  lemma {:induction false} NoProductsCrash(site: Site, fuel: nat)
    ensures ReviewsResultAsWritten(site, Some([]), fuel) == Err(MissingColumn("link"))
    ensures ReviewsResult(site, Some([]), fuel) == Ok(([], []))
  {
    assert Reviews2023([]) == [];
  }

  /** One product whose page carries no reviews script: the run as written fails on the empty
      review table, the corrected run returns two empty views. */
  lemma {:induction false} NoReviewsCrash(url: string, fuel: nat)
    ensures var p := Product(None, None, Some(url), None, "apparel");
            var site := map[RequestFor(url, None) := Page([], [], [], None)];
            && ReviewsResultAsWritten(site, Some([p]), fuel) == Err(MissingColumn("is_from_2023"))
            && ReviewsResult(site, Some([p]), fuel) == Ok(([], []))
  {
    var p := Product(None, None, Some(url), None, "apparel");
    var site := map[RequestFor(url, None) := Page([], [], [], None)];
    assert LinkColumn([p]) == [Some(url)];
    assert CollectReviews(site, [Some(url)]) == Prepend([], CollectReviews(site, []));
    assert Reviews2023([]) == [];
  }

  /** The corrected run differs from the code as written only where the latter raises one of
      the two `KeyError`s, and there it returns two empty views. */
  lemma {:induction false} AsWrittenAgrees(site: Site, products: Option<seq<Product>>, fuel: nat)
    ensures || ReviewsResultAsWritten(site, products, fuel) == ReviewsResult(site, products, fuel)
            || (&& ReviewsResultAsWritten(site, products, fuel).Err?
                && ReviewsResultAsWritten(site, products, fuel).error.MissingColumn?
                && ReviewsResult(site, products, fuel) == Ok(([], [])))
  {
    assert Reviews2023([]) == [];
  }

  /** The corrected run returns the collected rows and exactly their 2023 rows, in order. */
  lemma {:induction false} ReviewsViews(site: Site, products: Option<seq<Product>>, fuel: nat)
    requires ReviewsResult(site, products, fuel).Ok?
    ensures var (all, only) := ReviewsResult(site, products, fuel).value;
            && (forall i :: 0 <= i < |only| ==> only[i].isFrom2023)
            && (forall x :: multiset(only)[x] == if x.isFrom2023 then multiset(all)[x] else 0)
            && IsSubsequence(only, all)
            && Ok(all) == CollectReviews(site, LinkColumn(ProductsFor(site, products, fuel).value))
  {
  }

  /** `scrape_reviews(products_df)`, corrected: the product scrape when no products are given,
      the page loop over their links, and the two views. */
  method ScrapeReviews(site: Site, products: Option<seq<Product>>, fuel: nat)
    returns (r: Result<(seq<ReviewRow>, seq<ReviewRow>), CrawlError>)
    ensures r == ReviewsResult(site, products, fuel)
  {
    var ps: seq<Product>;
    if products.Some? {
      ps := products.value;
    } else {
      var scraped := ScrapeProducts(site, fuel);
      if scraped.Err? {
        return Err(scraped.error);
      }
      ps := scraped.value;
    }
    var collected := CollectReviewRows(site, LinkColumn(ps));
    if collected.Err? {
      return Err(collected.error);
    }
    r := Ok(SplitViews(collected.value));
  }
}
