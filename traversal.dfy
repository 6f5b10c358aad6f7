/**
 * The traversal controller of the spiders (unifiedscraper/spiders/base_scraper.py): which
 * follow-up requests the start, a brand index page and a listing page produce.
 *
 * A response is given by what the schema selectors extracted from it. URL resolution
 * (`urljoin`) is a parameter `join(parent, link)`. A parser's outcome is the list of
 * requests it yields, or the exception it raises before yielding any.
 */
module Traversal {
  import opened Wrappers
  import opened Text

  /** The parser a request is handed to. */
  datatype Callback = BrandIndex | Listing | ProductPage

  /** The `meta` dictionary of a request: `None` for a key it was not given. */
  datatype Meta = Meta(brandUrl: Option<string>, playwright: Option<bool>, lastOffset: Option<nat>)

  datatype Request = Request(url: string, callback: Callback, meta: Meta)

  /**
   * How a listing page reaches its next page: a "next page" link, or a "load more"
   * button answered by a URL carrying the next product offset. `step` is the configured
   * `load_more_offset` and `stepToken` its text, the one looked for in the page URL.
   */
  datatype Policy =
    | NextPage
    | LoadMore(step: nat, stepToken: string, query: string)

  /** A site: its spider's first allowed domain and its configuration entries. */
  datatype Site = Site(
    allowedDomain: string,
    baseUrl: string,
    brandsUrl: string,
    playwright: Option<bool>,
    policy: Policy)

  /** A listing page: its URL and meta, the product links and the pagination matches. */
  datatype ListingPage = ListingPage(
    url: string,
    meta: Meta,
    productLinks: seq<string>,
    pagination: seq<string>)

  /** `make_absolute_url`: the link resolved against `parent`, or the site's base URL. */
  function MakeAbsoluteUrl(site: Site, join: (string, string) -> string, link: string,
                           parent: Option<string>): (abs: string)
    ensures parent.None? ==> abs == join(site.baseUrl, link)
    ensures parent.Some? ==> abs == join(parent.value, link)
  {
    join(parent.GetOr(site.baseUrl), link)
  }

  /** `start`: one request, for the brand index, with the playwright flag defaulting to off. */
  function Start(site: Site, join: (string, string) -> string): (rs: seq<Request>)
    ensures |rs| == 1
    ensures rs[0].url == join(site.baseUrl, site.brandsUrl)
    ensures rs[0].callback == BrandIndex
    ensures rs[0].meta == Meta(None, Some(site.playwright.GetOr(false)), None)
  {
    [Request(MakeAbsoluteUrl(site, join, site.brandsUrl, None), BrandIndex,
             Meta(None, Some(site.playwright.GetOr(false)), None))]
  }

  // ---------------------------------------------------------------------------
  // parse_urls

  /** The requests the loop of `parse_urls` yields for `urls`, defined from the last URL back. */
  function Followed(site: Site, join: (string, string) -> string, urls: seq<string>,
                    callback: Callback, meta: Meta): seq<Request>
  {
    if urls == [] then []
    else
      var before := Followed(site, join, urls[..|urls| - 1], callback, meta);
      var abs := MakeAbsoluteUrl(site, join, urls[|urls| - 1], None);
      if Contains(abs, site.allowedDomain) then before + [Request(abs, callback, meta)] else before
  }

  /**
   * `parse_urls`, its generator consumed: `urls[0]` is read first, so an empty list raises
   * IndexError; then every URL whose absolute form holds the allowed domain is followed.
   */
  method ParseUrls(site: Site, join: (string, string) -> string, urls: seq<string>,
                   callback: Callback, meta: Meta) returns (r: Result<seq<Request>>)
    ensures urls == [] ==> r == Failure(IndexError)
    ensures urls != [] ==> r == Success(Followed(site, join, urls, callback, meta))
  {
    if urls == [] {
      return Failure(IndexError);
    }
    var requests: seq<Request> := [];
    var i := 0;
    while i < |urls|
      invariant 0 <= i <= |urls|
      invariant requests == Followed(site, join, urls[..i], callback, meta)
    {
      var abs := MakeAbsoluteUrl(site, join, urls[i], None);
      if Contains(abs, site.allowedDomain) {
        requests := requests + [Request(abs, callback, meta)];
      }
      assert urls[..i + 1][..i] == urls[..i];
      i := i + 1;
    }
    assert urls[..|urls|] == urls;
    return Success(requests);
  }

  /** Following is done URL by URL: the requests of a concatenation are concatenated. */
  lemma {:induction false} FollowedConcat(site: Site, join: (string, string) -> string,
                                          a: seq<string>, b: seq<string>, callback: Callback, meta: Meta)
    ensures Followed(site, join, a + b, callback, meta)
         == Followed(site, join, a, callback, meta) + Followed(site, join, b, callback, meta)
    decreases |b|
  {
    if b == [] {
      assert a + b == a;
    } else {
      var b' := b[..|b| - 1];
      assert (a + b)[..|a + b| - 1] == a + b';
      assert (a + b)[|a + b| - 1] == b[|b| - 1];
      FollowedConcat(site, join, a, b', callback, meta);
    }
  }

  /** One URL is followed exactly when its absolute form holds the allowed domain. */
  lemma FollowedOne(site: Site, join: (string, string) -> string, url: string,
                    callback: Callback, meta: Meta)
    ensures Followed(site, join, [url], callback, meta)
         == if Contains(join(site.baseUrl, url), site.allowedDomain)
            then [Request(join(site.baseUrl, url), callback, meta)] else []
  {
    assert [url][..0] == [];
  }

  /**
   * What `parse_urls` promises: at most one request per URL; each request is in the
   * allowed domain and carries the given callback and meta; each URL whose absolute
   * form is in the domain is followed.
   */
  lemma {:induction false} FollowedFilters(site: Site, join: (string, string) -> string,
                                           urls: seq<string>, callback: Callback, meta: Meta)
    ensures |Followed(site, join, urls, callback, meta)| <= |urls|
    ensures forall q :: q in Followed(site, join, urls, callback, meta) ==>
      Contains(q.url, site.allowedDomain) && q.callback == callback && q.meta == meta
    ensures forall q :: q in Followed(site, join, urls, callback, meta) ==>
      exists i :: 0 <= i < |urls| && q.url == join(site.baseUrl, urls[i])
    ensures forall i :: 0 <= i < |urls| && Contains(join(site.baseUrl, urls[i]), site.allowedDomain) ==>
      Request(join(site.baseUrl, urls[i]), callback, meta) in Followed(site, join, urls, callback, meta)
    decreases |urls|
  {
    if urls != [] {
      var init := urls[..|urls| - 1];
      FollowedFilters(site, join, init, callback, meta);
      forall i | 0 <= i < |init| ensures init[i] == urls[i] { }
    }
  }

  // ---------------------------------------------------------------------------
  // The brand index page

  /**
   * `parse_site_brand_page`: the brand links are followed as listing pages, each request
   * carrying the brand page's own URL as `brand_url`.
   */
  method ParseBrandPage(site: Site, join: (string, string) -> string, pageUrl: string,
                        brandLinks: seq<string>) returns (r: Result<seq<Request>>)
    ensures brandLinks == [] ==> r == Failure(IndexError)
    ensures brandLinks != [] ==> r == Success(Followed(site, join, brandLinks, Listing, Meta(Some(pageUrl), None, None)))
    ensures r.Success? ==> forall q :: q in r.value ==>
      q.callback == Listing && q.meta == Meta(Some(pageUrl), None, None) &&
      Contains(q.url, site.allowedDomain)
    ensures r.Success? ==> |r.value| <= |brandLinks|
  {
    r := ParseUrls(site, join, brandLinks, Listing, Meta(Some(pageUrl), None, None));
    FollowedFilters(site, join, brandLinks, Listing, Meta(Some(pageUrl), None, None));
  }

  // ---------------------------------------------------------------------------
  // Listing pages under the NextPage policy

  /** The meta the product requests of a listing page carry. */
  function ProductMeta(site: Site, brandUrl: string): Meta {
    Meta(Some(brandUrl), Some(site.playwright.GetOr(false)), None)
  }

  /** The next-page request: for a non-empty first pagination match, resolved against the base URL. */
  function NextPageRequest(site: Site, join: (string, string) -> string, page: ListingPage,
                           brandUrl: string): seq<Request>
  {
    if page.pagination != [] && page.pagination[0] != [] then
      [Request(MakeAbsoluteUrl(site, join, page.pagination[0], None), Listing, Meta(Some(brandUrl), None, None))]
    else []
  }

  /** What a NextPage listing page yields, or the exception it raises. */
  function NextPageOutcome(site: Site, join: (string, string) -> string, page: ListingPage): Result<seq<Request>>
  {
    match page.meta.brandUrl
    case None => Failure(KeyError)
    case Some(b) =>
      if page.productLinks == [] then Failure(IndexError)
      else Success(Followed(site, join, page.productLinks, ProductPage, ProductMeta(site, b))
                   + NextPageRequest(site, join, page, b))
  }

  /**
   * `NextPageScraper.parse_site_products_page`: the product links go through
   * `parse_urls`; then a non-empty next-page match is followed, without the domain filter.
   * Reading `brand_url` from a meta without it raises KeyError.
   */
  method ParseNextPageListing(site: Site, join: (string, string) -> string, page: ListingPage)
    returns (r: Result<seq<Request>>)
    ensures r == NextPageOutcome(site, join, page)
  {
    var brandUrl :- if page.meta.brandUrl.Some? then Success(page.meta.brandUrl.value) else Failure(KeyError);
    var requests :- ParseUrls(site, join, page.productLinks, ProductPage, ProductMeta(site, brandUrl));
    assert requests == Followed(site, join, page.productLinks, ProductPage, ProductMeta(site, brandUrl));
    var next := if page.pagination == [] then None else Some(page.pagination[0]);
    if next.Some? && next.value != [] {
      requests := requests + [Request(MakeAbsoluteUrl(site, join, next.value, None), Listing,
                                      Meta(Some(brandUrl), None, None))];
    }
    assert requests == Followed(site, join, page.productLinks, ProductPage, ProductMeta(site, brandUrl))
                       + NextPageRequest(site, join, page, brandUrl);
    return Success(requests);
  }

  /**
   * The NextPage contract: product requests first, in the domain and carrying the page's
   * `brand_url`; then the next-page request exactly when the pagination matched, with the
   * same `brand_url`, resolved against the base URL whatever its domain.
   */
  lemma NextPageShape(site: Site, join: (string, string) -> string, page: ListingPage)
    requires page.meta.brandUrl.Some? && page.productLinks != []
    ensures var r := NextPageOutcome(site, join, page);
      && r.Success?
      && var products := Followed(site, join, page.productLinks, ProductPage, ProductMeta(site, page.meta.brandUrl.value));
      && r.value[..|products|] == products
      && (forall q :: q in products ==> q.callback == ProductPage && q.meta.brandUrl == page.meta.brandUrl
                                        && Contains(q.url, site.allowedDomain))
      && (|r.value| == |products| + 1 <==> page.pagination != [] && page.pagination[0] != [])
      && (|r.value| == |products| + 1 ==>
            r.value[|products|] == Request(join(site.baseUrl, page.pagination[0]), Listing,
                                           Meta(page.meta.brandUrl, None, None)))
  {
    FollowedFilters(site, join, page.productLinks, ProductPage, ProductMeta(site, page.meta.brandUrl.value));
  }

  /** A next-page link outside the allowed domain is followed all the same. */
  lemma NextPageNotFiltered(site: Site, join: (string, string) -> string, page: ListingPage)
    requires page.meta.brandUrl.Some? && page.productLinks != []
    requires page.pagination != [] && page.pagination[0] != []
    requires !Contains(join(site.baseUrl, page.pagination[0]), site.allowedDomain)
    ensures NextPageOutcome(site, join, page).Success?
    ensures exists q :: q in NextPageOutcome(site, join, page).value && !Contains(q.url, site.allowedDomain)
  {
    NextPageShape(site, join, page);
    var r := NextPageOutcome(site, join, page).value;
    assert r[|r| - 1] in r;
  }

  // ---------------------------------------------------------------------------
  // Listing pages under the LoadMore policy

  /**
   * The offset of the next load-more request: the last offset (0 when none) plus the
   * step when the step's text is in the page URL, twice the step otherwise.
   */
  function NextOffset(step: nat, stepToken: string, url: string, lastOffset: Option<nat>): nat {
    if Contains(url, stepToken) then lastOffset.GetOr(0) + step else 2 * step
  }

  /** What a LoadMore listing page yields, or the exception it raises. */
  function LoadMoreOutcome(site: Site, join: (string, string) -> string, step: nat, stepToken: string,
                           query: string, page: ListingPage): Result<seq<Request>>
  {
    match page.meta.brandUrl
    case None => Failure(KeyError)
    case Some(b) =>
      if page.pagination == [] then Success([])
      else
        var offset := NextOffset(step, stepToken, page.url, page.meta.lastOffset);
        Success([Request(MakeAbsoluteUrl(site, join, query + IntToString(offset), Some(page.url)),
                         Listing, Meta(Some(b), None, Some(offset)))])
  }

  /**
   * `LoadMoreScrapper.parse_site_products_page`. The call to `parse_urls` builds a
   * generator that nobody iterates, so no product request is yielded and an empty link
   * list raises nothing; only its `brand_url` argument is read. When the load-more
   * selector matched, one request for the next offset follows.
   */
  method ParseLoadMoreListing(site: Site, join: (string, string) -> string, step: nat, stepToken: string,
                              query: string, page: ListingPage) returns (r: Result<seq<Request>>)
    ensures r == LoadMoreOutcome(site, join, step, stepToken, query, page)
  {
    var brandUrl :- if page.meta.brandUrl.Some? then Success(page.meta.brandUrl.value) else Failure(KeyError);
    var requests: seq<Request> := [];
    if page.pagination != [] {
      var offset: nat;
      if Contains(page.url, stepToken) {
        offset := page.meta.lastOffset.GetOr(0) + step;
      } else {
        offset := step * 2;
      }
      assert offset == NextOffset(step, stepToken, page.url, page.meta.lastOffset);
      var url := MakeAbsoluteUrl(site, join, query + IntToString(offset), Some(page.url));
      requests := requests + [Request(url, Listing, Meta(Some(brandUrl), None, Some(offset)))];
      assert requests == LoadMoreOutcome(site, join, step, stepToken, query, page).value;
    }
    return Success(requests);
  }

  /**
   * A LoadMore listing page yields at most one request, never a product request, and
   * what it yields does not depend on its product links.
   */
  lemma LoadMoreYieldsNoProducts(site: Site, join: (string, string) -> string, step: nat, stepToken: string,
                                 query: string, page: ListingPage, otherLinks: seq<string>)
    ensures var r := LoadMoreOutcome(site, join, step, stepToken, query, page);
      r.Success? ==> |r.value| <= 1 && forall q :: q in r.value ==> q.callback == Listing
    ensures LoadMoreOutcome(site, join, step, stepToken, query, page.(productLinks := otherLinks))
         == LoadMoreOutcome(site, join, step, stepToken, query, page)
  {
  }

  /**
   * The load-more request carries the page's `brand_url` and records the new offset,
   * which is `query` followed by that offset, resolved against the page URL.
   */
  lemma LoadMoreRequest(site: Site, join: (string, string) -> string, step: nat, stepToken: string,
                        query: string, page: ListingPage)
    requires page.meta.brandUrl.Some? && page.pagination != []
    ensures var r := LoadMoreOutcome(site, join, step, stepToken, query, page);
      var offset := NextOffset(step, stepToken, page.url, page.meta.lastOffset);
      && r == Success([Request(join(page.url, query + IntToString(offset)), Listing,
                               Meta(page.meta.brandUrl, None, Some(offset)))])
      && (Contains(page.url, stepToken) ==> offset == page.meta.lastOffset.GetOr(0) + step)
      && (!Contains(page.url, stepToken) ==> offset == 2 * step)
  {
  }

  /**
   * The offsets along a chain of load-more pages: each page URL is tested for the token,
   * and each page's last offset is the one the previous page sent.
   */
  function OffsetChain(step: nat, stepToken: string, urls: seq<string>, last: Option<nat>): (offs: seq<nat>)
    ensures |offs| == |urls|
    decreases |urls|
  {
    if urls == [] then []
    else
      var o := NextOffset(step, stepToken, urls[0], last);
      [o] + OffsetChain(step, stepToken, urls[1..], Some(o))
  }

  /**
   * From a first page whose URL lacks the token, every later URL holding it, the offsets
   * are 2·step, 3·step, 4·step, ...: with a positive step they strictly increase.
   */
  lemma {:induction false} OffsetChainCounts(step: nat, stepToken: string, urls: seq<string>, k: nat)
    requires forall i :: 0 <= i < |urls| ==> Contains(urls[i], stepToken)
    ensures forall i :: 0 <= i < |urls| ==> OffsetChain(step, stepToken, urls, Some(k * step))[i] == (k + 1 + i) * step
    decreases |urls|
  {
    if urls != [] {
      var offs := OffsetChain(step, stepToken, urls, Some(k * step));
      assert offs[0] == k * step + step == (k + 1) * step;
      OffsetChainCounts(step, stepToken, urls[1..], k + 1);
      forall i | 1 <= i < |urls| ensures offs[i] == (k + 1 + i) * step {
        assert offs[i] == OffsetChain(step, stepToken, urls[1..], Some((k + 1) * step))[i - 1];
        assert urls[1..][i - 1] == urls[i];
      }
    }
  }

  lemma OffsetsIncrease(step: nat, stepToken: string, first: string, later: seq<string>, last: Option<nat>)
    requires !Contains(first, stepToken)
    requires forall i :: 0 <= i < |later| ==> Contains(later[i], stepToken)
    ensures forall i :: 0 <= i < |later| + 1 ==> OffsetChain(step, stepToken, [first] + later, last)[i] == (i + 2) * step
    ensures step > 0 ==> forall i, j :: 0 <= i < j < |later| + 1 ==>
      OffsetChain(step, stepToken, [first] + later, last)[i] < OffsetChain(step, stepToken, [first] + later, last)[j]
  {
    var offs := OffsetChain(step, stepToken, [first] + later, last);
    assert ([first] + later)[1..] == later;
    assert offs[0] == 2 * step;
    OffsetChainCounts(step, stepToken, later, 2);
    forall i | 1 <= i < |later| + 1 ensures offs[i] == (i + 2) * step {
      assert offs[i] == OffsetChain(step, stepToken, later, Some(2 * step))[i - 1];
    }
    if step > 0 {
      forall i, j | 0 <= i < j < |later| + 1 ensures offs[i] < offs[j] {
        assert (i + 2) * step < (j + 2) * step;
      }
    }
  }

  /** When the token never shows in the URLs, every load-more request asks for the same offset. */
  lemma {:induction false} OffsetRepeatsWithoutToken(step: nat, stepToken: string, urls: seq<string>, last: Option<nat>)
    requires forall i :: 0 <= i < |urls| ==> !Contains(urls[i], stepToken)
    ensures forall i :: 0 <= i < |urls| ==> OffsetChain(step, stepToken, urls, last)[i] == 2 * step
    decreases |urls|
  {
    if urls != [] {
      var offs := OffsetChain(step, stepToken, urls, last);
      OffsetRepeatsWithoutToken(step, stepToken, urls[1..], Some(offs[0]));
      forall i | 1 <= i < |urls| ensures offs[i] == 2 * step {
        assert offs[i] == OffsetChain(step, stepToken, urls[1..], Some(offs[0]))[i - 1];
        assert urls[1..][i - 1] == urls[i];
      }
    }
  }

  // ---------------------------------------------------------------------------
  // Dispatch

  /** `parse_site_products_page` of the site's spider class. */
  method ParseListing(site: Site, join: (string, string) -> string, page: ListingPage)
    returns (r: Result<seq<Request>>)
    ensures site.policy.NextPage? ==> r == NextPageOutcome(site, join, page)
    ensures site.policy.LoadMore? ==>
      r == LoadMoreOutcome(site, join, site.policy.step, site.policy.stepToken, site.policy.query, page)
  {
    match site.policy
    case NextPage =>
      r := ParseNextPageListing(site, join, page);
    case LoadMore(step, stepToken, query) =>
      r := ParseLoadMoreListing(site, join, step, stepToken, query, page);
  }

  // ---------------------------------------------------------------------------
  // The offset update as written

  /** A configuration value as Python holds it. */
  datatype PyValue = PyInt(i: int) | PyStr(s: string)

  /**
   * Lines 110-114 as written, with `load_more_offset` whatever type the configuration
   * gives it: `x in url` needs a string, `last + x` needs both operands of one type, and
   * `x * 2` repeats a string.
   */
  function OffsetAsWritten(offset: PyValue, url: string, lastOffset: Option<PyValue>): (r: Result<PyValue>)
    ensures offset.PyInt? ==> r == Failure(TypeError)
  {
    match offset
    case PyInt(_) => Failure(TypeError)
    case PyStr(s) =>
      if !Contains(url, s) then Success(PyStr(s + s))
      else
        match lastOffset.GetOr(PyInt(0))
        case PyStr(l) => Success(PyStr(l + s))
        case PyInt(_) => Failure(TypeError)
  }

  /**
   * Neither type works: an integer offset raises on the containment test, and a string
   * offset repeats text where the arithmetic was meant. With a step of 24, the page after
   * a listing page whose URL lacks "24" asks for "2424" instead of 48, and the one after
   * that for "242424" instead of 72.
   */
  lemma OffsetAsWrittenDiverges(first: string, later: string)
    requires !Contains(first, "24") && Contains(later, "24")
    ensures OffsetAsWritten(PyInt(24), first, None) == Failure(TypeError)
    ensures OffsetAsWritten(PyStr("24"), first, None) == Success(PyStr("2424"))
    ensures OffsetAsWritten(PyStr("24"), later, Some(PyStr("2424"))) == Success(PyStr("242424"))
    ensures NextOffset(24, "24", first, None) == 48
    ensures NextOffset(24, "24", later, Some(48)) == 72
  {
    assert "24" + "24" == "2424";
    assert "2424" + "24" == "242424";
  }
}
