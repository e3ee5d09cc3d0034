/** `scrape_testimonials`: follows the `hx-get` triggers of the testimonial pages, sending the
    secret token on every page after the first, and keeps the cards that have text. */
module Testimonials {
  import opened Common
  import opened Seqs
  import opened Site
  import opened Chains

  const TestimonialsUrl: string := Base + "/testimonials"

  /** The headers the HTMX endpoint demands of every page after the first. */
  const SecretHeaders: Headers := map["x-secret-token" := "secret123", "referer" := Base + "/testimonials"]

  /** The extra headers for page `n` (numbered from 1): none for the first page, `secret` for
      every later one. */
  function HeadersForPage(n: nat, secret: Headers): Option<Headers> {
    if n == 1 then None else Some(secret)
  }

  /** Page 1 goes out with the default headers alone. */
  lemma {:induction false} FirstPageHeaders(secret: Headers)
    ensures MergeHeaders(DefaultHeaders, HeadersForPage(1, secret)) == DefaultHeaders
  {
  }

  /** Every later page adds the secret token and the referer and keeps the user agent. */
  lemma {:induction false} LaterPageHeaders(n: nat)
    requires n != 1
    ensures var h := MergeHeaders(DefaultHeaders, HeadersForPage(n, SecretHeaders));
            && h.Keys == {"User-Agent", "x-secret-token", "referer"}
            && h["x-secret-token"] == "secret123"
            && h["referer"] == TestimonialsUrl
            && h["User-Agent"] == DefaultHeaders["User-Agent"]
  {
    MergeHeadersOverride(DefaultHeaders, Some(SecretHeaders));
  }

  datatype Testimonial = Testimonial(author: Option<string>, text: string, rating: Option<nat>)

  /** `if text:` — the card has a non-empty `p.text`; the trigger card has none. */
  predicate HasText(c: TestimonialCard) {
    c.text.Some? && c.text.value != ""
  }

  /** The record a card yields: the username, the text and the svg count of the rating span. */
  function Emit(c: TestimonialCard): Testimonial {
    Testimonial(c.username, if c.text.Some? then c.text.value else "", c.ratingSvgs)
  }

  /** The `for testimonial in testimonials` loop of one page. */
  function PageTestimonials(cards: seq<TestimonialCard>): seq<Testimonial> {
    if cards == [] then []
    else if HasText(cards[0]) then [Emit(cards[0])] + PageTestimonials(cards[1..])
    else PageTestimonials(cards[1..])
  }

  /** The card loop of scrape.py:133-152: appends the author, text and rating of every card
      with text. */
  method CollectCards(cards: seq<TestimonialCard>) returns (rows: seq<Testimonial>)
    ensures rows == PageTestimonials(cards)
  {
    rows := [];
    var k := 0;
    assert cards[0..] == cards;
    while k < |cards|
      invariant 0 <= k <= |cards|
      invariant PageTestimonials(cards) == rows + PageTestimonials(cards[k..])
    {
      assert cards[k..][1..] == cards[k + 1..];
      var card := cards[k];
      if card.text.Some? && card.text.value != "" {
        var record := Testimonial(card.username, card.text.value, card.ratingSvgs);
        ConcatAssoc(rows, [record], PageTestimonials(cards[k + 1..]));
        rows := rows + [record];
      }
      k := k + 1;
    }
    assert rows + [] == rows;
  }

  /** The record of every card, in card order. */
  function EmitAll(cards: seq<TestimonialCard>): (r: seq<Testimonial>)
    ensures |r| == |cards|
    ensures forall i :: 0 <= i < |r| ==> r[i] == Emit(cards[i])
  {
    if cards == [] then [] else [Emit(cards[0])] + EmitAll(cards[1..])
  }

  /** A page yields one record per card with non-empty text, in card order, and nothing for the
      other cards. */
  lemma {:induction false} PageTestimonialsFilter(cards: seq<TestimonialCard>)
    ensures PageTestimonials(cards) == EmitAll(Filter(cards, HasText))
  {
    if cards != [] {
      PageTestimonialsFilter(cards[1..]);
      var tail := Filter(cards[1..], HasText);
      if HasText(cards[0]) {
        assert Filter(cards, HasText) == [cards[0]] + tail;
        assert ([cards[0]] + tail)[1..] == tail;
      }
    }
  }

  /** Every emitted record carries text, and its rating is the card's svg count (absent without
      a rating span). */
  lemma {:induction false} EmittedHaveText(cards: seq<TestimonialCard>)
    ensures forall t :: t in PageTestimonials(cards) ==> t.text != ""
    ensures forall t :: t in PageTestimonials(cards) ==>
              exists c :: c in cards && HasText(c) && t == Testimonial(c.username, c.text.value, c.ratingSvgs)
  {
    PageTestimonialsFilter(cards);
    var kept := Filter(cards, HasText);
    forall t | t in PageTestimonials(cards)
      ensures exists c :: c in cards && HasText(c) && t == Testimonial(c.username, c.text.value, c.ratingSvgs)
    {
      var i :| 0 <= i < |kept| && t == EmitAll(kept)[i];
      assert multiset(kept)[kept[i]] > 0;
    }
  }

  // ---------------------------------------------------------------------------------------
  // The next-page trigger.

  /** The card carries a non-empty `hx-get` attribute. */
  predicate Triggers(c: TestimonialCard) {
    c.hxGet.Some? && c.hxGet.value != ""
  }

  /** The `hx-get` of the last card that has a non-empty one. */
  function LastTrigger(cards: seq<TestimonialCard>): Option<string> {
    if cards == [] then None
    else if Triggers(cards[|cards| - 1]) then cards[|cards| - 1].hxGet
    else LastTrigger(cards[..|cards| - 1])
  }

  /** There is no trigger exactly when no card has a non-empty `hx-get`. */
  lemma {:induction false} LastTriggerNone(cards: seq<TestimonialCard>)
    ensures LastTrigger(cards).None? <==> forall i :: 0 <= i < |cards| ==> !Triggers(cards[i])
  {
    if cards != [] && !Triggers(cards[|cards| - 1]) {
      var init := cards[..|cards| - 1];
      LastTriggerNone(init);
      assert forall i :: 0 <= i < |init| ==> init[i] == cards[i];
    }
  }

  /** When card `k` is the last card with a non-empty `hx-get`, the trigger is that `hx-get`. */
  lemma {:induction false} LastTriggerIsLast(cards: seq<TestimonialCard>, k: nat)
    requires k < |cards| && Triggers(cards[k])
    requires forall j :: k < j < |cards| ==> !Triggers(cards[j])
    ensures LastTrigger(cards) == cards[k].hxGet
  {
    if k < |cards| - 1 {
      var init := cards[..|cards| - 1];
      assert init[k] == cards[k];
      assert forall j :: k < j < |init| ==> init[j] == cards[j];
      LastTriggerIsLast(init, k);
    }
  }

  /** The loop of scrape.py:156-160: scans every card, without a break, and remembers the last
      non-empty `hx-get`. */
  method ScanTriggers(cards: seq<TestimonialCard>) returns (next: Option<string>)
    ensures next == LastTrigger(cards)
  {
    next := None;
    var k := 0;
    while k < |cards|
      invariant 0 <= k <= |cards|
      invariant next == LastTrigger(cards[..k])
    {
      assert cards[..k + 1][..k] == cards[..k];
      if cards[k].hxGet.Some? && cards[k].hxGet.value != "" {
        next := cards[k].hxGet;
      }
      k := k + 1;
    }
    assert cards[..k] == cards;
  }

  /** The URL after a testimonial page, if any. */
  function NextTestimonialUrl(page: Page): Option<string> {
    NextUrl(LastTrigger(page.testimonials))
  }

  // ---------------------------------------------------------------------------------------
  // The crawl.

  /** The records one page contributes. */
  function PageRecords(page: Page): seq<Testimonial> {
    PageTestimonials(page.testimonials)
  }

  /** The headers `get_soup` sends for page `n`. */
  function SentHeaders(n: nat, secret: Headers): Headers {
    MergeHeaders(DefaultHeaders, HeadersForPage(n, secret))
  }

  /** The records of the chain from `start`: page 1 requested with the default headers, every
      later page with `secret` added, each next page the last trigger of the page before. */
  function TestimonialsFrom(site: Site, secret: Headers, start: string, fuel: nat): Result<seq<Testimonial>, CrawlError> {
    HarvestChain(site, SentHeaders(1, secret), SentHeaders(2, secret), NextTestimonialUrl, PageRecords, start, fuel)
  }

  /** What `scrape_testimonials` returns: the records of the chain from the listing page. */
  function TestimonialsResult(site: Site, fuel: nat): Result<seq<Testimonial>, CrawlError> {
    TestimonialsFrom(site, SecretHeaders, TestimonialsUrl, fuel)
  }

  /** The `while url:` loop of `scrape_testimonials`: page 1 goes out plainly and every later
      page with `secret`, each page's cards with text are kept, and the last trigger is
      followed. */
  method CrawlTestimonials(site: Site, secret: Headers, start: string, fuel: nat) returns (r: Result<seq<Testimonial>, CrawlError>)
    ensures r == TestimonialsFrom(site, secret, start, fuel)
  {
    r := Crawl(site, SentHeaders(1, secret), SentHeaders(2, secret), NextTestimonialUrl, PageRecords, start, fuel);
  }

  /** `scrape_testimonials()`: the crawl from the testimonials page with the secret headers. */
  method ScrapeTestimonials(site: Site, fuel: nat) returns (r: Result<seq<Testimonial>, CrawlError>)
    ensures r == TestimonialsResult(site, fuel)
  {
    r := CrawlTestimonials(site, SecretHeaders, TestimonialsUrl, fuel);
  }
}
