/**
 * The company profile spider: building the list of pages from the input
 * file, the check that there is something to crawl, and the chain of
 * requests `parse_response` drives, one page at a time, by index.
 */
module Spider {
  import opened Wrappers
  import opened Text
  import opened Fields

  /** Appended to every input value to form a page URL. */
  const Suffix := "/?trk=companies_directory"

  /** A value of the input JSON object: a string, or anything else (which `+` rejects with TypeError). */
  datatype InputValue = Url(text: string) | NotAString

  /** What reading `company_names.json` gives: no file, an error while loading, or the object's values in order. */
  datatype InputFile = Missing | Unreadable | Values(values: seq<InputValue>)

  /**
   * The URLs one read appends, in order: each value with the suffix, up to
   * the first value that is not a string, whose TypeError ends the loop and
   * is swallowed.
   */
  function SuffixedUrls(vs: seq<InputValue>): (urls: seq<string>)
    ensures |urls| <= |vs|
    ensures forall i :: 0 <= i < |urls| ==> vs[i].Url? && urls[i] == vs[i].text + Suffix
    ensures |urls| < |vs| ==> vs[|urls|].NotAString?
  {
    if vs == [] || vs[0].NotAString? then [] else [vs[0].text + Suffix] + SuffixedUrls(vs[1..])
  }

  /** The URLs a call of `get_url_by_company_name` appends; none when the file is missing or unreadable. */
  function CollectedUrls(input: InputFile): (urls: seq<string>)
    ensures input.Values? && (forall i :: 0 <= i < |input.values| ==> input.values[i].Url?) ==>
      |urls| == |input.values|
    ensures !input.Values? ==> urls == []
  {
    match input
    case Values(vs) => SuffixedUrls(vs)
    case _ => []
  }

  /** The module-level list `company_urls`, which every read appends to and nothing clears. */
  class UrlRegistry {
    var companyUrls: seq<string>

    constructor ()
      ensures companyUrls == []
    {
      companyUrls := [];
    }

    /** `get_url_by_company_name`: appends one URL per input value, in order. */
    method GetUrlByCompanyName(input: InputFile)
      modifies this
      ensures companyUrls == old(companyUrls) + CollectedUrls(input)
    {
      if input.Values? {
        var vs := input.values;
        var i := 0;
        while i < |vs|
          invariant 0 <= i <= |vs|
          invariant |companyUrls| == |old(companyUrls)| + i
          invariant companyUrls[..|old(companyUrls)|] == old(companyUrls)
          invariant forall j :: 0 <= j < i ==> vs[j].Url? && companyUrls[|old(companyUrls)| + j] == vs[j].text + Suffix
        {
          if vs[i].NotAString? {
            break;
          }
          companyUrls := companyUrls + [vs[i].text + Suffix];
          i := i + 1;
        }
        var urls := SuffixedUrls(vs);
        assert |urls| == i;
        assert companyUrls == old(companyUrls) + urls;
      }
    }
  }

  predicate NoDuplicates(s: seq<string>) {
    forall i, j :: 0 <= i < j < |s| ==> s[i] != s[j]
  }

  function Elements(s: seq<string>): set<string> {
    set x | x in s
  }

  /**
   * `list(set(urls))`: each distinct URL once, in the set's iteration order,
   * which nothing specifies (hence the arbitrary choice of the next element).
   */
  method ListOfSet(urls: seq<string>) returns (pages: seq<string>)
    ensures NoDuplicates(pages)
    ensures Elements(pages) == Elements(urls)
    ensures |pages| == |Elements(urls)|
  {
    var remaining := Elements(urls);
    pages := [];
    while remaining != {}
      invariant NoDuplicates(pages)
      invariant remaining !! Elements(pages)
      invariant Elements(pages) + remaining == Elements(urls)
      invariant |pages| + |remaining| == |Elements(urls)|
      decreases remaining
    {
      var x :| x in remaining;
      assert x !in Elements(pages);
      pages := pages + [x];
      remaining := remaining - {x};
    }
    DistinctCardinality(pages);
  }

  lemma {:induction false} DistinctCardinality(s: seq<string>)
    requires NoDuplicates(s)
    ensures |Elements(s)| == |s|
  {
    if s != [] {
      var last := s[|s| - 1];
      var init := s[..|s| - 1];
      DistinctCardinality(init);
      assert Elements(s) == Elements(init) + {last};
      assert last !in Elements(init);
    }
  }

  /**
   * The spider's constructor: reads the input, raises ValueError (None) when
   * `company_urls` is still empty, and otherwise keeps the distinct URLs as
   * `company_pages`.
   */
  method InitSpider(registry: UrlRegistry, input: InputFile) returns (companyPages: Option<seq<string>>)
    modifies registry
    ensures registry.companyUrls == old(registry.companyUrls) + CollectedUrls(input)
    ensures companyPages.None? <==> registry.companyUrls == []
    ensures companyPages.Some? ==>
      && companyPages.value != []
      && NoDuplicates(companyPages.value)
      && Elements(companyPages.value) == Elements(registry.companyUrls)
  {
    registry.GetUrlByCompanyName(input);
    if registry.companyUrls == [] {
      return None;
    }
    var pages := ListOfSet(registry.companyUrls);
    assert registry.companyUrls[0] in Elements(pages);
    return Some(pages);
  }

  /** A scheduled request: its URL and the meta it carries. */
  datatype Request = Request(url: string, index: nat, companyUrl: string)

  /** A response as the callback sees it: status, `Location` header, and the page's selections. */
  datatype Response = Response(status: int, location: Option<string>, page: Page)

  /**
   * An item the callback yields, as what it is built from: the `company_url`
   * of the request's meta, the page, and the parsed follower count. The dict
   * itself is `Record`.
   */
  datatype Scrape = Scrape(companyUrl: string, page: Page, followers: FieldValue) {
    /** The item dict `parse_response` builds for this page. */
    function Record(): Fields.Record {
      CompanyItem(companyUrl, page, followers)
    }
  }

  /** What one callback yields: at most one item, then at most one request; or an escaping exception. */
  datatype Outcome = Yielded(item: Option<Scrape>, next: Option<Request>) | Raised

  /** The redirect statuses of section 15.4 of RFC 9110 that the callback handles itself. */
  predicate IsRedirect(status: int) {
    status in {301, 302, 303, 307, 308}
  }

  /** Not Found, section 15.5.5 of RFC 9110. */
  const NotFoundStatus := 404

  /** `start_requests`: the first page, at index 0, on behalf of itself. */
  function StartRequests(pages: seq<string>): (r: Request)
    requires pages != []
    ensures r.index == 0 && r.url == pages[0] && r.companyUrl == pages[0]
  {
    Request(pages[0], 0, pages[0])
  }

  /**
   * `parse_response` for the response to `req`. A redirect re-requests the
   * `Location` with the same meta. Any other status moves on to the next
   * index; a 404 skips the page without an item, every other status yields
   * the page's item first. The next request keeps the current `company_url`.
   */
  function ParseResponse(pages: seq<string>, req: Request, resp: Response): (o: Outcome)
    ensures IsRedirect(resp.status) ==> (o.Raised? <==> resp.location.None?)
    ensures IsRedirect(resp.status) && resp.location.Some? ==>
      o == Yielded(None, Some(Request(resp.location.value, req.index, req.companyUrl)))
    ensures !IsRedirect(resp.status) && resp.status == NotFoundStatus ==> o.Yielded? && o.item.None?
    ensures !IsRedirect(resp.status) && resp.status != NotFoundStatus ==>
      (o.Raised? <==> FollowerCount(resp.page.followers).IndexError?)
    ensures !IsRedirect(resp.status) && resp.status != NotFoundStatus && o.Yielded? ==>
      o.item == Some(Scrape(req.companyUrl, resp.page, FollowerCount(resp.page.followers).value))
    ensures !IsRedirect(resp.status) && o.Yielded? ==> (o.next.Some? <==> req.index + 1 < |pages|)
    ensures !IsRedirect(resp.status) && o.Yielded? && o.next.Some? ==>
      o.next.value == Request(pages[req.index + 1], req.index + 1, req.companyUrl)
  {
    if IsRedirect(resp.status) then
      match resp.location
      case None => Raised
      case Some(target) => Yielded(None, Some(Request(target, req.index, req.companyUrl)))
    else
      var item: Parsed<Option<Scrape>> :=
        if resp.status == NotFoundStatus then Returned(None)
        else match FollowerCount(resp.page.followers)
          case IndexError => IndexError
          case Returned(followers) => Returned(Some(Scrape(req.companyUrl, resp.page, followers)));
      match item
      case IndexError => Raised
      case Returned(item) =>
        var index := req.index + 1;
        if index <= |pages| - 1 then Yielded(item, Some(Request(pages[index], index, req.companyUrl)))
        else Yielded(item, None)
  }

  /** What a crawl produced: the items in the order yielded, and the requests chained after the current one. */
  datatype Trace = Trace(items: seq<Scrape>, requests: seq<Request>)

  function OptionSeq<T>(o: Option<T>): (s: seq<T>)
    ensures |s| <= 1
  {
    if o.Some? then [o.value] else []
  }

  /**
   * The crawl from the request `current` on, when the responses arrive in
   * the order `rs`: one callback per response, while a request is pending.
   */
  function Run(pages: seq<string>, current: Option<Request>, rs: seq<Response>): Trace
    decreases |rs|
  {
    if current.None? || rs == [] then Trace([], [])
    else match ParseResponse(pages, current.value, rs[0])
      case Raised => Trace([], [])
      case Yielded(item, next) =>
        var rest := Run(pages, next, rs[1..]);
        Trace(OptionSeq(item) + rest.items, OptionSeq(next) + rest.requests)
  }

  /**
   * Scrapy's engine driving the chain: it sends the first request, hands
   * each response to the callback, and schedules what the callback yields.
   * `responses` are the answers to the requests in the order they are sent.
   */
  method Crawl(pages: seq<string>, responses: seq<Response>) returns (items: seq<Scrape>, sent: seq<Request>)
    requires pages != []
    ensures var t := Run(pages, Some(StartRequests(pages)), responses);
      items == t.items && sent == [StartRequests(pages)] + t.requests
  {
    var start := StartRequests(pages);
    var current := Some(start);
    items, sent := [], [start];
    var k := 0;
    while k < |responses| && current.Some?
      invariant 0 <= k <= |responses|
      invariant var whole := Run(pages, Some(start), responses);
        var rest := Run(pages, current, responses[k..]);
        whole.items == items + rest.items && [start] + whole.requests == sent + rest.requests
    {
      assert responses[k..][0] == responses[k];
      assert responses[k..][1..] == responses[k + 1..];
      var outcome := ParseResponse(pages, current.value, responses[k]);
      match outcome {
        case Raised =>
          current := None;
        case Yielded(item, next) =>
          items := items + OptionSeq(item);
          sent := sent + OptionSeq(next);
          current := next;
      }
      k := k + 1;
    }
  }

  /** One callback: the request and the item it yields both carry the current `company_url`. */
  lemma StepKeepsCompanyUrl(pages: seq<string>, req: Request, resp: Response)
    ensures var o := ParseResponse(pages, req, resp);
      o.Yielded? ==>
        && (o.next.Some? ==> o.next.value.companyUrl == req.companyUrl)
        && (o.item.Some? ==> o.item.value.companyUrl == req.companyUrl)
  {
  }

  /** Every request is made on behalf of `url`. */
  predicate AllOnBehalfOf(reqs: seq<Request>, url: string) {
    forall i :: 0 <= i < |reqs| ==> reqs[i].companyUrl == url
  }

  /** Every item is built on behalf of `url`. */
  predicate AllBuiltFor(items: seq<Scrape>, url: string) {
    forall i :: 0 <= i < |items| ==> items[i].companyUrl == url
  }

  /** The chain reuses the first request's `company_url`: every request of a crawl carries it. */
  lemma {:induction false} RunKeepsCompanyUrl(pages: seq<string>, current: Option<Request>, rs: seq<Response>, url: string)
    requires current.Some? ==> current.value.companyUrl == url
    ensures AllOnBehalfOf(Run(pages, current, rs).requests, url)
    decreases |rs|
  {
    if current.Some? && rs != [] {
      var o := ParseResponse(pages, current.value, rs[0]);
      if o.Yielded? {
        StepKeepsCompanyUrl(pages, current.value, rs[0]);
        RunKeepsCompanyUrl(pages, o.next, rs[1..], url);
        var rest := Run(pages, o.next, rs[1..]);
        assert Run(pages, current, rs) == Trace(OptionSeq(o.item) + rest.items, OptionSeq(o.next) + rest.requests);
        assert AllOnBehalfOf(OptionSeq(o.next), url);
      } else {
        assert Run(pages, current, rs) == Trace([], []);
      }
    }
  }

  /**
   * So every item of a crawl is built on behalf of the `company_url` of the
   * request that started the chain, whichever page it came from.
   */
  lemma {:induction false} RunBuiltForCompanyUrl(pages: seq<string>, current: Option<Request>, rs: seq<Response>, url: string)
    requires current.Some? ==> current.value.companyUrl == url
    ensures AllBuiltFor(Run(pages, current, rs).items, url)
    decreases |rs|
  {
    if current.Some? && rs != [] {
      var o := ParseResponse(pages, current.value, rs[0]);
      if o.Yielded? {
        StepKeepsCompanyUrl(pages, current.value, rs[0]);
        RunBuiltForCompanyUrl(pages, o.next, rs[1..], url);
        var rest := Run(pages, o.next, rs[1..]);
        assert Run(pages, current, rs) == Trace(OptionSeq(o.item) + rest.items, OptionSeq(o.next) + rest.requests);
        assert AllBuiltFor(OptionSeq(o.item), url);
      } else {
        assert Run(pages, current, rs) == Trace([], []);
      }
    }
  }

  /** Each item is built from the page of one of the responses `rs`. */
  predicate ItemsFromResponses(items: seq<Scrape>, rs: seq<Response>) {
    forall i :: 0 <= i < |items| ==> exists j :: 0 <= j < |rs| && rs[j].page == items[i].page
  }

  /** A crawl builds its items only from the pages it was sent. */
  lemma {:induction false} RunItemsFromResponses(pages: seq<string>, current: Option<Request>, rs: seq<Response>)
    ensures ItemsFromResponses(Run(pages, current, rs).items, rs)
    decreases |rs|
  {
    if current.Some? && rs != [] {
      var o := ParseResponse(pages, current.value, rs[0]);
      if o.Yielded? {
        RunItemsFromResponses(pages, o.next, rs[1..]);
        var rest := Run(pages, o.next, rs[1..]);
        var items := OptionSeq(o.item) + rest.items;
        assert Run(pages, current, rs).items == items;
        forall i | 0 <= i < |items|
          ensures exists j :: 0 <= j < |rs| && rs[j].page == items[i].page
        {
          if i < |OptionSeq(o.item)| {
            assert items[i].page == rs[0].page;
          } else {
            var j :| 0 <= j < |rs[1..]| && rs[1..][j].page == rest.items[i - |OptionSeq(o.item)|].page;
            assert rs[j + 1].page == items[i].page;
          }
        }
      } else {
        assert Run(pages, current, rs) == Trace([], []);
      }
    }
  }

  /** Indices of `reqs` lie in `[low, |pages|)` and never go back. */
  predicate IndicesWithin(reqs: seq<Request>, low: nat, pages: seq<string>) {
    && (forall i :: 0 <= i < |reqs| ==> low <= reqs[i].index < |pages|)
    && (forall i, j :: 0 <= i < j < |reqs| ==> reqs[i].index <= reqs[j].index)
  }

  /**
   * The index never leaves the page list and never goes back, and each page
   * gives at most one item: a crawl from index `i` yields at most
   * `|pages| - i` items, so the chain stops after the last page.
   */
  lemma {:induction false} RunStaysOnPages(pages: seq<string>, req: Request, rs: seq<Response>)
    requires req.index < |pages|
    ensures |Run(pages, Some(req), rs).items| <= |pages| - req.index
    ensures IndicesWithin(Run(pages, Some(req), rs).requests, req.index, pages)
    decreases |rs|
  {
    if rs != [] {
      var o := ParseResponse(pages, req, rs[0]);
      if o.Yielded? {
        var rest := Run(pages, o.next, rs[1..]);
        assert Run(pages, Some(req), rs) == Trace(OptionSeq(o.item) + rest.items, OptionSeq(o.next) + rest.requests);
        if o.next.Some? {
          var next := o.next.value;
          assert req.index <= next.index < |pages|;
          assert next.index == req.index ==> o.item.None?;
          RunStaysOnPages(pages, next, rs[1..]);
          assert IndicesWithin([next] + rest.requests, req.index, pages);
        } else {
          assert rest == Trace([], []);
        }
      } else {
        assert Run(pages, Some(req), rs) == Trace([], []);
      }
    }
  }

  /** A response that the callback turns into an item and moves on from. */
  predicate Scraped(resp: Response) {
    !IsRedirect(resp.status) && resp.status != NotFoundStatus && FollowerCount(resp.page.followers).Returned?
  }

  /** Every response of `rs` is scraped cleanly. */
  predicate AllScraped(rs: seq<Response>) {
    forall j :: 0 <= j < |rs| ==> Scraped(rs[j])
  }

  lemma AllScrapedTail(rs: seq<Response>)
    requires rs != [] && AllScraped(rs)
    ensures AllScraped(rs[1..])
  {
    forall j | 0 <= j < |rs[1..]| ensures Scraped(rs[1..][j]) {
      assert rs[1..][j] == rs[j + 1];
    }
  }

  /** `reqs` are the requests for the pages after `index`, in order. */
  predicate VisitsFrom(reqs: seq<Request>, index: nat, pages: seq<string>) {
    && index < |pages|
    && |reqs| == |pages| - index - 1
    && forall i :: 0 <= i < |reqs| ==> reqs[i].url == pages[index + 1 + i] && reqs[i].index == index + 1 + i
  }

  /**
   * When every response is a page that scrapes cleanly, the chain visits the
   * pages from the current index to the last, in index order, and yields one
   * item per page.
   */
  lemma {:induction false} RunVisitsPagesInOrder(pages: seq<string>, req: Request, rs: seq<Response>)
    requires req.index < |pages|
    requires |rs| >= |pages| - req.index
    requires AllScraped(rs)
    ensures |Run(pages, Some(req), rs).items| == |pages| - req.index
    ensures VisitsFrom(Run(pages, Some(req), rs).requests, req.index, pages)
    decreases |pages| - req.index
  {
    ScrapedStep(pages, req, rs);
    if req.index + 1 < |pages| {
      var next := Request(pages[req.index + 1], req.index + 1, req.companyUrl);
      AllScrapedTail(rs);
      RunVisitsPagesInOrder(pages, next, rs[1..]);
      VisitsFromCons(next, Run(pages, Some(next), rs[1..]).requests, req.index, pages);
    }
  }

  /** A response that scrapes cleanly yields one item and moves on to the next index, if any. */
  lemma ScrapedStep(pages: seq<string>, req: Request, rs: seq<Response>)
    requires req.index < |pages| && rs != [] && Scraped(rs[0])
    ensures var next := if req.index + 1 < |pages| then Some(Request(pages[req.index + 1], req.index + 1, req.companyUrl)) else None;
      var rest := Run(pages, next, rs[1..]);
      && |Run(pages, Some(req), rs).items| == 1 + |rest.items|
      && Run(pages, Some(req), rs).requests == OptionSeq(next) + rest.requests
  {
    var o := ParseResponse(pages, req, rs[0]);
    assert o.Yielded? && o.item.Some?;
  }

  /** The request for the page after `index`, followed by the requests from there on. */
  lemma VisitsFromCons(next: Request, rest: seq<Request>, index: nat, pages: seq<string>)
    requires index + 1 < |pages|
    requires next == Request(pages[index + 1], index + 1, next.companyUrl)
    requires VisitsFrom(rest, index + 1, pages)
    ensures VisitsFrom([next] + rest, index, pages)
  {
  }

}
