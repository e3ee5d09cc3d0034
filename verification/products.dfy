/** `scrape_products`: walks each category's listing pages by their ">" links and keeps the
    first product seen for every link, across all categories. */
module Products {
  import opened Common
  import opened Text
  import opened Seqs
  import opened Site
  import opened Chains

  /** The categories in the order they are crawled. */
  const Categories: seq<string> := ["apparel", "consumables", "household"]

  function CategoryUrl(category: string): string {
    Base + "/products?category=" + category
  }

  datatype Product = Product(
    name: Option<string>,
    price: Option<string>,
    link: Option<string>,
    description: Option<string>,
    category: string)

  /** The product link of a card: the title's `href`, made absolute when it is non-empty and
      does not start with "http". An empty `href` is kept as it is. */
  function ProductLink(title: Option<Anchor>): (link: Option<string>)
    ensures link.None? <==> title.None? || title.value.href.None?
    ensures link.Some? && title.value.href.value != "" ==> link.value == Resolve(title.value.href.value)
    ensures link.Some? && title.value.href.value == "" ==> link.value == ""
  {
    match title
    case None => None
    case Some(a) =>
      match a.href
      case None => None
      case Some(h) => if h != "" && !StartsWith(h, "http") then Some(Base + h) else Some(h)
  }

  function ToProduct(card: ProductCard, category: string): Product {
    Product(
      if card.title.Some? then Some(card.title.value.text) else None,
      card.price,
      ProductLink(card.title),
      card.description,
      category)
  }

  /** The product records of one listing page, one per card, in card order. */
  function PageProducts(cards: seq<ProductCard>, category: string): (r: seq<Product>)
    ensures |r| == |cards|
    ensures forall i :: 0 <= i < |r| ==> r[i] == ToProduct(cards[i], category)
  {
    if cards == [] then [] else [ToProduct(cards[0], category)] + PageProducts(cards[1..], category)
  }

  // ---------------------------------------------------------------------------------------
  // Deduplication by link.

  /** The links of `xs`, `None` included. */
  function Links(xs: seq<Product>): set<Option<string>> {
    set i | 0 <= i < |xs| :: xs[i].link
  }

  predicate DistinctLinks(xs: seq<Product>) {
    forall i, j :: 0 <= i < j < |xs| ==> xs[i].link != xs[j].link
  }

  /** `xs[i]` is the first product of `xs` with its link, and that link is not in `seen`. */
  predicate FirstNew(xs: seq<Product>, i: int, seen: set<Option<string>>)
    requires 0 <= i < |xs|
  {
    xs[i].link !in seen && forall j :: 0 <= j < i ==> xs[j].link != xs[i].link
  }

  /** The inner loop of scrape.py:60-89 over a sequence of products: the products the seen-set
      lets through, and the seen-set afterwards. `DedupKeepsFirstNew` says what survives. */
  function Dedup(xs: seq<Product>, seen: set<Option<string>>): (seq<Product>, set<Option<string>>) {
    if xs == [] then ([], seen)
    else if xs[0].link in seen then Dedup(xs[1..], seen)
    else var r := Dedup(xs[1..], seen + {xs[0].link}); ([xs[0]] + r.0, r.1)
  }

  /** Afterwards the seen-set holds every link of `xs` as well. */
  lemma {:induction false} DedupSeen(xs: seq<Product>, seen: set<Option<string>>)
    ensures Dedup(xs, seen).1 == seen + Links(xs)
  {
    if xs != [] {
      assert Links(xs) == {xs[0].link} + Links(xs[1..]) by {
        assert forall i :: 1 <= i < |xs| ==> xs[i] == xs[1..][i - 1];
      }
      DedupSeen(xs[1..], if xs[0].link in seen then seen else seen + {xs[0].link});
    }
  }

  /** The survivors have pairwise distinct links (an absent link counts as one value), none of
      them seen before; they keep their order, and every first occurrence of a new link
      survives. */
  lemma {:induction false} DedupKeepsFirstNew(xs: seq<Product>, seen: set<Option<string>>)
    ensures var kept := Dedup(xs, seen).0;
            && DistinctLinks(kept)
            && (forall i :: 0 <= i < |kept| ==> kept[i].link !in seen)
            && IsSubsequence(kept, xs)
            && (forall i :: 0 <= i < |xs| && FirstNew(xs, i, seen) ==> xs[i] in kept)
  {
    if xs != [] {
      var seen' := if xs[0].link in seen then seen else seen + {xs[0].link};
      DedupKeepsFirstNew(xs[1..], seen');
      forall i | 1 <= i < |xs| && FirstNew(xs, i, seen) ensures FirstNew(xs[1..], i - 1, seen') {
        assert xs[1..][i - 1] == xs[i];
      }
    }
  }

  /** `pos` lists, in increasing order, exactly the positions of `xs` that hold the first
      product with a link not in `seen`, and `kept` holds the products at those positions. */
  predicate FirstNewPositions(xs: seq<Product>, seen: set<Option<string>>, kept: seq<Product>, pos: seq<nat>) {
    && |pos| == |kept|
    && (forall k :: 0 <= k < |pos| ==> pos[k] < |xs| && kept[k] == xs[pos[k]])
    && (forall k, l :: 0 <= k < l < |pos| ==> pos[k] < pos[l])
    && (forall i :: 0 <= i < |xs| ==> (FirstNew(xs, i, seen) <==> i in pos))
  }

  /** Where the survivors come from: the products at the positions of first new links. */
  lemma {:induction false} DedupPositions(xs: seq<Product>, seen: set<Option<string>>) returns (pos: seq<nat>)
    ensures FirstNewPositions(xs, seen, Dedup(xs, seen).0, pos)
  {
    if xs == [] {
      pos := [];
    } else {
      var seen' := if xs[0].link in seen then seen else seen + {xs[0].link};
      var rest := DedupPositions(xs[1..], seen');
      if xs[0].link in seen {
        pos := PositionsSkip(xs, seen, rest);
      } else {
        pos := PositionsKeep(xs, seen, rest);
      }
    }
  }

  /** A first product whose link was seen is dropped: the positions of the rest, moved on. */
  lemma {:induction false} PositionsSkip(xs: seq<Product>, seen: set<Option<string>>, rest: seq<nat>) returns (pos: seq<nat>)
    requires xs != [] && xs[0].link in seen
    requires FirstNewPositions(xs[1..], seen, Dedup(xs[1..], seen).0, rest)
    ensures FirstNewPositions(xs, seen, Dedup(xs, seen).0, pos)
  {
    var kept := Dedup(xs, seen).0;
    pos := Shift(rest);
    assert kept == Dedup(xs[1..], seen).0;
    assert forall k :: 0 <= k < |pos| ==> pos[k] < |xs| && kept[k] == xs[pos[k]] by {
      forall k | 0 <= k < |pos|
        ensures pos[k] < |xs| && kept[k] == xs[pos[k]]
      {
        assert xs[pos[k]] == xs[1..][rest[k]];
      }
    }
    assert forall i :: 0 <= i < |xs| ==> (FirstNew(xs, i, seen) <==> i in pos) by {
      ShiftMembers(rest);
      forall i | 1 <= i < |xs|
        ensures FirstNew(xs, i, seen) <==> FirstNew(xs[1..], i - 1, seen)
      {
        FirstNewTail(xs, seen, i);
      }
    }
  }

  /** A first product with a new link is kept: position 0, then the positions of the rest,
      moved on. */
  lemma {:induction false} PositionsKeep(xs: seq<Product>, seen: set<Option<string>>, rest: seq<nat>) returns (pos: seq<nat>)
    requires xs != [] && xs[0].link !in seen
    requires FirstNewPositions(xs[1..], seen + {xs[0].link}, Dedup(xs[1..], seen + {xs[0].link}).0, rest)
    ensures FirstNewPositions(xs, seen, Dedup(xs, seen).0, pos)
  {
    var seen' := seen + {xs[0].link};
    var kept := Dedup(xs, seen).0;
    pos := [0] + Shift(rest);
    ZeroThenShift(rest);
    assert kept == [xs[0]] + Dedup(xs[1..], seen').0;
    assert forall k :: 0 <= k < |pos| ==> pos[k] < |xs| && kept[k] == xs[pos[k]] by {
      forall k | 0 <= k < |pos|
        ensures pos[k] < |xs| && kept[k] == xs[pos[k]]
      {
        if k > 0 {
          assert xs[pos[k]] == xs[1..][rest[k - 1]];
        }
      }
    }
    assert forall i :: 0 <= i < |xs| ==> (FirstNew(xs, i, seen) <==> i in pos) by {
      forall i | 1 <= i < |xs|
        ensures FirstNew(xs, i, seen) <==> FirstNew(xs[1..], i - 1, seen')
      {
        FirstNewTail(xs, seen, i);
      }
    }
  }

  /** Position 0 followed by increasing positions moved on is increasing, and holds 0 and
      exactly the moved positions. */
  lemma {:induction false} ZeroThenShift(rest: seq<nat>)
    requires forall k, l :: 0 <= k < l < |rest| ==> rest[k] < rest[l]
    ensures var pos := [0] + Shift(rest);
            && |pos| == |rest| + 1 && pos[0] == 0
            && (forall k :: 1 <= k < |pos| ==> pos[k] == rest[k - 1] + 1)
            && (forall k, l :: 0 <= k < l < |pos| ==> pos[k] < pos[l])
            && (forall i :: 1 <= i ==> (i in pos <==> i - 1 in rest))
  {
    var shifted := Shift(rest);
    var pos := [0] + shifted;
    ShiftMembers(rest);
    assert forall k :: 1 <= k < |pos| ==> pos[k] == shifted[k - 1];
    assert forall i :: 1 <= i ==> (i in pos <==> i in shifted);
  }

  /** Every position moved one further on. */
  function Shift(ps: seq<nat>): (r: seq<nat>)
    ensures |r| == |ps| && forall k :: 0 <= k < |r| ==> r[k] == ps[k] + 1
  {
    seq(|ps|, k requires 0 <= k < |ps| => ps[k] + 1)
  }

  /** A shifted list holds `i + 1` exactly when the original holds `i`, and never 0. */
  lemma {:induction false} ShiftMembers(ps: seq<nat>)
    ensures forall i :: 1 <= i ==> (i in Shift(ps) <==> i - 1 in ps)
    ensures 0 !in Shift(ps)
  {
    var r := Shift(ps);
    forall i | 1 <= i
      ensures i in r <==> i - 1 in ps
    {
      if i - 1 in ps {
        var k :| 0 <= k < |ps| && ps[k] == i - 1;
        assert r[k] == i;
      }
    }
  }

  /** Whether a later product is the first new one of its link is decided by the rest of the
      sequence, once the first product's link counts as seen. */
  lemma {:induction false} FirstNewTail(xs: seq<Product>, seen: set<Option<string>>, i: nat)
    requires 1 <= i < |xs|
    ensures FirstNew(xs, i, seen)
            <==> FirstNew(xs[1..], i - 1, if xs[0].link in seen then seen else seen + {xs[0].link})
  {
    assert xs[1..][i - 1] == xs[i];
    assert forall j :: 0 <= j < i - 1 ==> xs[1..][j] == xs[j + 1];
    if FirstNew(xs[1..], i - 1, if xs[0].link in seen then seen else seen + {xs[0].link}) {
      forall j | 0 <= j < i
        ensures xs[j].link != xs[i].link
      {
        if j > 0 {
          assert xs[1..][j - 1] == xs[j];
        }
      }
    }
  }

  /** The survivors' links are exactly the new links. */
  lemma {:induction false} DedupLinks(xs: seq<Product>, seen: set<Option<string>>)
    ensures Links(Dedup(xs, seen).0) == Links(xs) - seen
  {
    var kept := Dedup(xs, seen).0;
    DedupKeepsFirstNew(xs, seen);
    SubsequenceLinks(kept, xs);
    forall l | l in Links(xs) - seen ensures l in Links(kept) {
      var i :| 0 <= i < |xs| && xs[i].link == l;
      var f := FirstWithLink(xs, i);
      assert FirstNew(xs, f, seen);
      var k :| 0 <= k < |kept| && kept[k] == xs[f];
    }
  }

  /** The first position of `xs` that carries the link of `xs[i]`. */
  function FirstWithLink(xs: seq<Product>, i: nat): (f: nat)
    requires i < |xs|
    ensures f <= i && xs[f].link == xs[i].link
    ensures forall j :: 0 <= j < f ==> xs[j].link != xs[i].link
  {
    if xs[0].link == xs[i].link then 0 else 1 + FirstWithLink(xs[1..], i - 1)
  }

  lemma {:induction false} LinksCons(xs: seq<Product>)
    requires xs != []
    ensures Links(xs) == {xs[0].link} + Links(xs[1..])
  {
    assert forall i :: 1 <= i < |xs| ==> xs[i] == xs[1..][i - 1];
  }

  lemma {:induction false} SubsequenceLinks(sub: seq<Product>, xs: seq<Product>)
    requires IsSubsequence(sub, xs)
    ensures Links(sub) <= Links(xs)
    decreases |xs|
  {
    if sub != [] {
      LinksCons(xs);
      if sub[0] == xs[0] {
        LinksCons(sub);
        SubsequenceLinks(sub[1..], xs[1..]);
      } else {
        SubsequenceLinks(sub, xs[1..]);
      }
    }
  }

  /** Deduplicating a concatenation is deduplicating the first part and then the second part
      against the links seen so far: the seen-set threaded through pages and categories. */
  lemma {:induction false} DedupConcat(a: seq<Product>, b: seq<Product>, seen: set<Option<string>>)
    ensures var ra := Dedup(a, seen); var rb := Dedup(b, ra.1);
            Dedup(a + b, seen) == (ra.0 + rb.0, rb.1)
  {
    if a == [] {
      assert a + b == b;
      assert [] + Dedup(b, seen).0 == Dedup(b, seen).0;
    } else {
      assert (a + b)[0] == a[0] && (a + b)[1..] == a[1..] + b;
      var seen' := if a[0].link in seen then seen else seen + {a[0].link};
      DedupConcat(a[1..], b, seen');
      var r1 := Dedup(a[1..], seen');
      if a[0].link !in seen {
        assert [a[0]] + (r1.0 + Dedup(b, r1.1).0) == ([a[0]] + r1.0) + Dedup(b, r1.1).0;
      }
    }
  }

  /** Adding one product to the end. */
  lemma {:induction false} DedupSnoc(xs: seq<Product>, x: Product, seen: set<Option<string>>)
    ensures var r := Dedup(xs, seen);
            Dedup(xs + [x], seen) == if x.link in r.1 then r else (r.0 + [x], r.1 + {x.link})
  {
    DedupConcat(xs, [x], seen);
    var r := Dedup(xs, seen);
    assert [x][0] == x && [x][1..] == [];
    if x.link in r.1 {
      assert Dedup([x], r.1) == Dedup([], r.1);
      assert r.0 + [] == r.0;
    } else {
      assert Dedup([x], r.1) == ([x] + Dedup([], r.1 + {x.link}).0, Dedup([], r.1 + {x.link}).1);
      assert [x] + [] == [x];
    }
  }

  /** Products whose links are pairwise distinct and new all survive. */
  lemma {:induction false} DedupDistinct(xs: seq<Product>, seen: set<Option<string>>)
    requires DistinctLinks(xs) && forall i :: 0 <= i < |xs| ==> xs[i].link !in seen
    ensures Dedup(xs, seen).0 == xs
  {
    if xs != [] {
      assert forall i :: 0 <= i < |xs| - 1 ==> xs[1..][i].link !in seen + {xs[0].link} by {
        forall i | 0 <= i < |xs| - 1 ensures xs[1..][i].link != xs[0].link {
          assert xs[1..][i] == xs[i + 1];
        }
      }
      DedupDistinct(xs[1..], seen + {xs[0].link});
      assert xs == [xs[0]] + xs[1..];
    }
  }

  // ---------------------------------------------------------------------------------------
  // The chain of listing pages.

  /** No paging anchor before position `i` has the text ">". */
  predicate NoArrowBefore(paging: seq<Anchor>, i: int)
    requires 0 <= i <= |paging|
  {
    forall j :: 0 <= j < i ==> paging[j].text != ">"
  }

  /** Where a listing page leads: the loop of scrape.py:92-96, which stops at the first paging
      anchor whose text is ">" and takes its `href`. */
  function NextListingUrl(paging: seq<Anchor>): Option<string> {
    if paging == [] then None
    else if paging[0].text == ">" then NextUrl(paging[0].href)
    else NextListingUrl(paging[1..])
  }

  /** The next listing page is the resolved, non-empty link of the first anchor whose text is
      exactly ">"; without such an anchor, or when its link is absent or empty, the category
      ends. A page without cards is followed like any other: cards play no part. */
  lemma {:induction false} NextListingUrlFirstArrow(paging: seq<Anchor>)
    ensures NoArrowBefore(paging, |paging|) ==> NextListingUrl(paging).None?
    ensures forall i :: 0 <= i < |paging| && paging[i].text == ">" && NoArrowBefore(paging, i)
              ==> NextListingUrl(paging) == NextUrl(paging[i].href)
  {
    if paging != [] && paging[0].text != ">" {
      NextListingUrlFirstArrow(paging[1..]);
      assert forall i :: 1 <= i <= |paging| && NoArrowBefore(paging, i) ==> NoArrowBefore(paging[1..], i - 1);
    }
  }

  /** The paging loop of scrape.py:92-102: the first anchor reading ">" ends the scan with
      `break`, and its link, if non-empty, is resolved. */
  method FindNextListing(paging: seq<Anchor>) returns (url: Option<string>)
    ensures url == NextListingUrl(paging)
  {
    var nextLink: Option<string> := None;
    var i := 0;
    while i < |paging|
      invariant 0 <= i <= |paging|
      invariant nextLink.None?
      invariant NextListingUrl(paging) == NextListingUrl(paging[i..])
    {
      assert paging[i..][1..] == paging[i + 1..];
      if paging[i].text == ">" {
        nextLink := paging[i].href;
        break;
      }
      i := i + 1;
    }
    url := NextUrl(nextLink);
  }

  /** What a listing page names as the page after it. */
  function ListingNext(page: Page): Option<string> {
    NextListingUrl(page.paging)
  }

  /** The pages the `while url:` loop of one category fetches: every request goes out with the
      default headers, and each page's ">" link names the next. */
  function ListingChain(site: Site, url: string, fuel: nat): Result<seq<Visit>, CrawlError> {
    Chain(site, DefaultHeaders, DefaultHeaders, ListingNext, url, fuel)
  }

  // ---------------------------------------------------------------------------------------
  // The crawl.

  /** The product records of the visited pages, page by page. */
  function Candidates(visits: seq<Visit>, category: string): seq<Product> {
    if visits == [] then []
    else Candidates(visits[..|visits| - 1], category) + PageProducts(visits[|visits| - 1].page.productCards, category)
  }

  /** What one category contributes: the deduplicated products of its listing chain and the
      seen-set afterwards. */
  function CategoryResult(site: Site, category: string, seen: set<Option<string>>, fuel: nat)
    : Result<(seq<Product>, set<Option<string>>), CrawlError>
  {
    match ListingChain(site, CategoryUrl(category), fuel)
    case Err(e) => Err(e)
    case Ok(visits) => Ok(Dedup(Candidates(visits, category), seen))
  }

  /** The product records of all categories, category by category and page by page, or the
      first error. */
  function AllCandidates(site: Site, categories: seq<string>, fuel: nat): Result<seq<Product>, CrawlError> {
    if categories == [] then Ok([])
    else
      match ListingChain(site, CategoryUrl(categories[0]), fuel)
      case Err(e) => Err(e)
      case Ok(visits) =>
        match AllCandidates(site, categories[1..], fuel)
        case Err(e) => Err(e)
        case Ok(rest) => Ok(Candidates(visits, categories[0]) + rest)
  }

  /** The products `scrape_products` returns: the first record for every link among all
      categories' records in crawl order, or the first error. */
  function ProductsResult(site: Site, fuel: nat): Result<seq<Product>, CrawlError> {
    match AllCandidates(site, Categories, fuel)
    case Err(e) => Err(e)
    case Ok(all) => Ok(Dedup(all, {}).0)
  }

  /** The outer `for category in categories` loop from `categories` on, with the seen-set so far. */
  function ScrapeFrom(site: Site, categories: seq<string>, seen: set<Option<string>>, fuel: nat)
    : Result<seq<Product>, CrawlError>
  {
    if categories == [] then Ok([])
    else
      match CategoryResult(site, categories[0], seen, fuel)
      case Err(e) => Err(e)
      case Ok((rows, seen')) =>
        match ScrapeFrom(site, categories[1..], seen', fuel)
        case Err(e) => Err(e)
        case Ok(rest) => Ok(rows + rest)
  }

  /** Threading the seen-set category by category deduplicates all categories' records at once. */
  lemma {:induction false} ScrapeFromIsDedup(site: Site, categories: seq<string>, seen: set<Option<string>>, fuel: nat)
    ensures ScrapeFrom(site, categories, seen, fuel)
            == match AllCandidates(site, categories, fuel)
               case Err(e) => Err(e)
               case Ok(all) => Ok(Dedup(all, seen).0)
  {
    if categories != [] {
      var c := categories[0];
      match ListingChain(site, CategoryUrl(c), fuel)
      case Err(_) =>
      case Ok(visits) =>
        var mine := Candidates(visits, c);
        var seen' := Dedup(mine, seen).1;
        ScrapeFromIsDedup(site, categories[1..], seen', fuel);
        match AllCandidates(site, categories[1..], fuel)
        case Err(_) =>
        case Ok(rest) =>
          DedupConcat(mine, rest, seen);
    }
  }

  /** The `for category in categories` loop of `scrape_products`, around `CrawlCategory`, with
      one seen-set for the whole run. */
  method CrawlCategories(site: Site, categories: seq<string>, fuel: nat) returns (r: Result<seq<Product>, CrawlError>)
    ensures r == ScrapeFrom(site, categories, {}, fuel)
  {
    var allRows: seq<Product> := [];
    var seen: set<Option<string>> := {};
    var k := 0;
    assert categories[0..] == categories;
    if ScrapeFrom(site, categories, {}, fuel).Ok? {
      assert [] + ScrapeFrom(site, categories, {}, fuel).value == ScrapeFrom(site, categories, {}, fuel).value;
    }
    while k < |categories|
      invariant 0 <= k <= |categories|
      invariant ScrapeFrom(site, categories, {}, fuel) == Prepend(allRows, ScrapeFrom(site, categories[k..], seen, fuel))
    {
      var c := CrawlCategory(site, categories[k], seen, fuel);
      CategoryStep(site, categories, k, seen, fuel, allRows);
      if c.Err? {
        return Err(c.error);
      }
      allRows := allRows + c.value.0;
      seen := c.value.1;
      k := k + 1;
    }
    assert categories[k..] == [];
    assert allRows + [] == allRows;
    return Ok(allRows);
  }

  /** One step of `CrawlCategories`: the `k`-th category's error is the overall error, and its
      records join those already collected. */
  lemma {:induction false} CategoryStep(site: Site, categories: seq<string>, k: nat, seen: set<Option<string>>, fuel: nat, allRows: seq<Product>)
    requires k < |categories|
    requires ScrapeFrom(site, categories, {}, fuel) == Prepend(allRows, ScrapeFrom(site, categories[k..], seen, fuel))
    ensures match CategoryResult(site, categories[k], seen, fuel)
            case Err(e) => ScrapeFrom(site, categories, {}, fuel) == Err(e)
            case Ok((rows, seen')) =>
              ScrapeFrom(site, categories, {}, fuel) == Prepend(allRows + rows, ScrapeFrom(site, categories[k + 1..], seen', fuel))
  {
    ScrapeFromSuffix(site, categories, k, seen, fuel);
    match CategoryResult(site, categories[k], seen, fuel)
    case Err(e) =>
    case Ok((rows, seen')) =>
      PrependPrepend(allRows, rows, ScrapeFrom(site, categories[k + 1..], seen', fuel));
  }

  /** Crawling the categories from the `k`-th on crawls the `k`-th and then the rest. */
  lemma {:induction false} ScrapeFromSuffix(site: Site, categories: seq<string>, k: nat, seen: set<Option<string>>, fuel: nat)
    requires k < |categories|
    ensures ScrapeFrom(site, categories[k..], seen, fuel)
            == match CategoryResult(site, categories[k], seen, fuel)
               case Err(e) => Err(e)
               case Ok((rows, seen')) => Prepend(rows, ScrapeFrom(site, categories[k + 1..], seen', fuel))
  {
    assert categories[k..][0] == categories[k] && categories[k..][1..] == categories[k + 1..];
  }

  /** `scrape_products()`: the result is the first record for every link among all categories'
      records, taken in category, page and card order, or the first error. */
  method ScrapeProducts(site: Site, fuel: nat) returns (r: Result<seq<Product>, CrawlError>)
    ensures r == ProductsResult(site, fuel)
  {
    r := CrawlCategories(site, Categories, fuel);
    ScrapeFromIsDedup(site, Categories, {}, fuel);
  }

  /** The products returned have pairwise distinct links (so at most one has no link) and
      are exactly the first record of every link, in crawl order: `pos` lists, increasing, the
      positions among all categories' records of each link's first record. */
  lemma {:induction false} ProductsFirstSeen(site: Site, fuel: nat) returns (pos: seq<nat>)
    requires ProductsResult(site, fuel).Ok?
    ensures var all := AllCandidates(site, Categories, fuel).value;
            var products := ProductsResult(site, fuel).value;
            && DistinctLinks(products)
            && IsSubsequence(products, all)
            && Links(products) == Links(all)
            && |pos| == |products|
            && (forall k :: 0 <= k < |pos| ==> pos[k] < |all| && products[k] == all[pos[k]])
            && (forall k, l :: 0 <= k < l < |pos| ==> pos[k] < pos[l])
            && (forall i :: 0 <= i < |all| ==> (FirstNew(all, i, {}) <==> i in pos))
  {
    var all := AllCandidates(site, Categories, fuel).value;
    DedupKeepsFirstNew(all, {});
    DedupLinks(all, {});
    pos := DedupPositions(all, {});
    assert FirstNewPositions(all, {}, ProductsResult(site, fuel).value, pos);
  }

  /** The inner `for product in products` loop: appends the products of `cards` whose links
      have not been seen and records their links. */
  method AddPage(rows: seq<Product>, seen: set<Option<string>>, cards: seq<ProductCard>, category: string)
    returns (rows': seq<Product>, seen': set<Option<string>>)
    ensures var d := Dedup(PageProducts(cards, category), seen);
            rows' == rows + d.0 && seen' == d.1
  {
    var products := PageProducts(cards, category);
    rows', seen' := rows, seen;
    var k := 0;
    while k < |cards|
      invariant 0 <= k <= |cards|
      invariant var d := Dedup(products[..k], seen); rows' == rows + d.0 && seen' == d.1
    {
      var p := ToProduct(cards[k], category);
      assert products[..k + 1] == products[..k] + [p];
      DedupSnoc(products[..k], p, seen);
      if p.link !in seen' {
        seen' := seen' + {p.link};
        rows' := rows' + [p];
      }
      k := k + 1;
    }
    assert products[..k] == products;
  }

  /** One category's `while url:` loop: fetch, take the page's new products, follow ">". */
  method CrawlCategory(site: Site, category: string, seen: set<Option<string>>, fuel: nat)
    returns (r: Result<(seq<Product>, set<Option<string>>), CrawlError>)
    ensures r == CategoryResult(site, category, seen, fuel)
  {
    var start := CategoryUrl(category);
    var url := start;
    var rows: seq<Product> := [];
    var seenNow := seen;
    var left := fuel;
    ghost var visits: seq<Visit> := [];
    if ListingChain(site, start, fuel).Ok? {
      assert [] + ListingChain(site, start, fuel).value == ListingChain(site, start, fuel).value;
    }
    while true
      invariant ListingChain(site, start, fuel) == Prepend(visits, ListingChain(site, url, left))
      invariant (rows, seenNow) == Dedup(Candidates(visits, category), seen)
      decreases left
    {
      if left == 0 {
        return Err(OutOfFuel);
      }
      match Fetch(site, url, None)
      case Err(e) =>
        return Err(e);
      case Ok(page) =>
        rows, seenNow := AddPage(rows, seenNow, page.productCards, category);
        ghost var visits' := visits + [Visit(url, page)];
        assert visits'[..|visits'| - 1] == visits;
        DedupConcat(Candidates(visits, category), PageProducts(page.productCards, category), seen);
        visits := visits';
        match NextListingUrl(page.paging)
        case None =>
          return Ok((rows, seenNow));
        case Some(next) =>
          PrependPrepend(visits[..|visits| - 1], [Visit(url, page)], ListingChain(site, next, left - 1));
          url := next;
          left := left - 1;
    }
  }
}
