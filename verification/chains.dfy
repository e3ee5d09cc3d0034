/** Pagination as both `while url:` loops of the crawler do it: fetch the page, ask it for the
    next URL, and stop at the first page that has none. The listing crawl and the testimonial
    crawl differ only in the headers they send and in how a page names its successor. */
module Chains {
  import opened Common
  import opened Site

  /** A URL the crawler fetched and the page it got back. */
  datatype Visit = Visit(url: string, page: Page)

  /** `visits` is the chain from `start`: its first page is the answer to `start` requested
      with `headers`, every later page the answer to its URL requested with `later`, each URL
      is what `next` reads off the page before, and `next` reads nothing off the last page. */
  ghost predicate IsChain(site: Site, headers: Headers, later: Headers, next: Page -> Option<string>, start: string, visits: seq<Visit>) {
    && |visits| > 0
    && visits[0].url == start
    && Lookup(site, start, headers) == Ok(visits[0].page)
    && (forall i :: 1 <= i < |visits| ==> Lookup(site, visits[i].url, later) == Ok(visits[i].page))
    && (forall i :: 0 <= i < |visits| - 1 ==> next(visits[i].page) == Some(visits[i + 1].url))
    && next(visits[|visits| - 1].page).None?
  }

  /** The pages a `while url:` loop fetches from `url` on, given enough fuel for their number;
      a failed request is the error it raises. */
  function Chain(site: Site, headers: Headers, later: Headers, next: Page -> Option<string>, url: string, fuel: nat)
    : (r: Result<seq<Visit>, CrawlError>)
    ensures r.Ok? ==> 0 < |r.value| <= fuel && r.value[0].url == url
    ensures r.Err? ==> r.error == OutOfFuel || (r.error.HttpError? && r.error.request !in site)
    decreases fuel
  {
    if fuel == 0 then Err(OutOfFuel)
    else match Lookup(site, url, headers)
      case Err(e) => Err(e)
      case Ok(page) =>
        match next(page)
        case None => Ok([Visit(url, page)])
        case Some(n) => Prepend([Visit(url, page)], Chain(site, later, later, next, n, fuel - 1))
  }

  /** One step of the crawl: the page `url` answers, then the crawl from its successor. */
  lemma {:induction false} ChainStep(site: Site, headers: Headers, later: Headers, next: Page -> Option<string>, url: string, fuel: nat, page: Page)
    requires fuel > 0 && Lookup(site, url, headers) == Ok(page)
    ensures next(page).None? ==> Chain(site, headers, later, next, url, fuel) == Ok([Visit(url, page)])
    ensures next(page).Some? ==>
              Chain(site, headers, later, next, url, fuel)
              == Prepend([Visit(url, page)], Chain(site, later, later, next, next(page).value, fuel - 1))
  {
  }

  /** A loop that has fetched `visits` and is about to fetch `url` moves on to the successor
      of the page `url` answers, the crawl still ahead shrinking by that page. */
  lemma {:induction false} ChainAdvance(site: Site, headers: Headers, later: Headers, next: Page -> Option<string>, url: string, fuel: nat,
                    page: Page, visits: seq<Visit>, whole: Result<seq<Visit>, CrawlError>)
    requires fuel > 0 && Lookup(site, url, headers) == Ok(page) && next(page).Some?
    requires whole == Prepend(visits, Chain(site, headers, later, next, url, fuel))
    ensures whole == Prepend(visits + [Visit(url, page)], Chain(site, later, later, next, next(page).value, fuel - 1))
  {
    ChainStep(site, headers, later, next, url, fuel, page);
    PrependPrepend(visits, [Visit(url, page)], Chain(site, later, later, next, next(page).value, fuel - 1));
  }

  /** A page whose successor starts a chain, put in front of it, makes a chain. */
  lemma {:induction false} ChainCons(site: Site, headers: Headers, later: Headers, next: Page -> Option<string>, start: string, v: Visit, rest: seq<Visit>)
    requires v.url == start && Lookup(site, start, headers) == Ok(v.page)
    requires |rest| > 0 && IsChain(site, later, later, next, rest[0].url, rest)
    requires next(v.page) == Some(rest[0].url)
    ensures IsChain(site, headers, later, next, start, [v] + rest)
  {
    var visits := [v] + rest;
    forall i | 1 <= i < |visits|
      ensures Lookup(site, visits[i].url, later) == Ok(visits[i].page)
    {
      assert visits[i] == rest[i - 1];
    }
    forall i | 0 <= i < |visits| - 1
      ensures next(visits[i].page) == Some(visits[i + 1].url)
    {
      assert visits[i + 1] == rest[i];
      if i > 0 {
        assert visits[i] == rest[i - 1];
      }
    }
    assert visits[|visits| - 1] == rest[|rest| - 1];
  }

  /** Behind the first page of a chain of two or more pages, the rest is a chain from that
      page's successor. */
  lemma {:induction false} ChainTail(site: Site, headers: Headers, later: Headers, next: Page -> Option<string>, start: string, visits: seq<Visit>)
    requires IsChain(site, headers, later, next, start, visits) && |visits| > 1
    ensures IsChain(site, later, later, next, visits[1].url, visits[1..])
    ensures next(visits[0].page) == Some(visits[1].url)
  {
    var rest := visits[1..];
    forall i | 1 <= i < |rest|
      ensures Lookup(site, rest[i].url, later) == Ok(rest[i].page)
    {
      assert rest[i] == visits[i + 1];
    }
    forall i | 0 <= i < |rest| - 1
      ensures next(rest[i].page) == Some(rest[i + 1].url)
    {
      assert rest[i] == visits[i + 1] && rest[i + 1] == visits[i + 2];
    }
    assert rest[|rest| - 1] == visits[|visits| - 1];
  }

  /** A completed crawl fetched a chain. */
  lemma {:induction false} ChainIsChain(site: Site, headers: Headers, later: Headers, next: Page -> Option<string>, url: string, fuel: nat)
    requires Chain(site, headers, later, next, url, fuel).Ok?
    ensures IsChain(site, headers, later, next, url, Chain(site, headers, later, next, url, fuel).value)
    decreases fuel
  {
    var visits := Chain(site, headers, later, next, url, fuel).value;
    var v := Visit(url, Lookup(site, url, headers).value);
    ChainStep(site, headers, later, next, url, fuel, v.page);
    if next(v.page).Some? {
      var n := next(v.page).value;
      var rest := Chain(site, later, later, next, n, fuel - 1).value;
      assert visits == [v] + rest;
      ChainIsChain(site, later, later, next, n, fuel - 1);
      ChainCons(site, headers, later, next, url, v, rest);
    } else {
      assert visits == [v];
    }
  }

  /** A chain is the only one from its start: given fuel for its length, the crawl fetches
      each of its pages once, in order, and stops after the last. */
  lemma {:induction false} ChainUnique(site: Site, headers: Headers, later: Headers, next: Page -> Option<string>, start: string, visits: seq<Visit>, fuel: nat)
    requires IsChain(site, headers, later, next, start, visits) && |visits| <= fuel
    ensures Chain(site, headers, later, next, start, fuel) == Ok(visits)
    decreases |visits|
  {
    var v := visits[0];
    ChainStep(site, headers, later, next, start, fuel, v.page);
    if |visits| > 1 {
      var rest := visits[1..];
      ChainTail(site, headers, later, next, start, visits);
      ChainUnique(site, later, later, next, rest[0].url, rest, fuel - 1);
      assert visits == [v] + rest;
    } else {
      assert visits == [v];
    }
  }

  /** More fuel never changes a completed crawl. */
  lemma {:induction false} ChainFuel(site: Site, headers: Headers, later: Headers, next: Page -> Option<string>, url: string, fuel: nat, more: nat)
    requires Chain(site, headers, later, next, url, fuel).Ok? && fuel <= more
    ensures Chain(site, headers, later, next, url, more) == Chain(site, headers, later, next, url, fuel)
  {
    var visits := Chain(site, headers, later, next, url, fuel).value;
    ChainIsChain(site, headers, later, next, url, fuel);
    ChainUnique(site, headers, later, next, url, visits, more);
  }

  /** What `harvest` takes from the visited pages, page by page. */
  function Harvest<T>(harvest: Page -> seq<T>, visits: seq<Visit>): seq<T> {
    if visits == [] then [] else Harvest(harvest, visits[..|visits| - 1]) + harvest(visits[|visits| - 1].page)
  }

  /** What a crawl that keeps `harvest` of every page returns: the harvest of the whole chain,
      or the error that ended it. */
  function HarvestChain<T>(site: Site, headers: Headers, later: Headers, next: Page -> Option<string>,
                           harvest: Page -> seq<T>, start: string, fuel: nat): Result<seq<T>, CrawlError> {
    match Chain(site, headers, later, next, start, fuel)
    case Err(e) => Err(e)
    case Ok(visits) => Ok(Harvest(harvest, visits))
  }

  /** A `while url:` loop that keeps `harvest` of every page it fetches. */
  method Crawl<T>(site: Site, headers: Headers, later: Headers, next: Page -> Option<string>,
                  harvest: Page -> seq<T>, start: string, fuel: nat) returns (r: Result<seq<T>, CrawlError>)
    ensures r == HarvestChain(site, headers, later, next, harvest, start, fuel)
  {
    var url := start;
    var sent := headers;
    var rows: seq<T> := [];
    var left := fuel;
    ghost var visits: seq<Visit> := [];
    ghost var chain := Chain(site, headers, later, next, start, fuel);
    if chain.Ok? {
      assert [] + chain.value == chain.value;
    }
    while true
      invariant chain == Prepend(visits, Chain(site, sent, later, next, url, left))
      invariant rows == Harvest(harvest, visits)
      decreases left
    {
      if left == 0 {
        return Err(OutOfFuel);
      }
      var got := Lookup(site, url, sent);
      if got.Err? {
        return Err(got.error);
      }
      var page := got.value;
      rows := rows + harvest(page);
      ghost var visits' := visits + [Visit(url, page)];
      assert visits'[..|visits'| - 1] == visits;
      var link := next(page);
      if link.None? {
        ChainStep(site, sent, later, next, url, left, page);
        return Ok(rows);
      }
      ChainAdvance(site, sent, later, next, url, left, page, visits, chain);
      visits := visits';
      url := link.value;
      sent := later;
      left := left - 1;
    }
  }
}
