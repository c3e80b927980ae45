/**
 * The spider and the pipeline together: what one run adds to the saved
 * records, given that every follow-up request reuses the `company_url` of
 * the first one.
 */
module EndToEnd {
  import opened Wrappers
  import opened Fields
  import opened Spider
  import opened Pipeline

  /** The dicts of the items a crawl yields, in the order the pipeline receives them. */
  function Records(items: seq<Scrape>): (r: seq<Record>)
  {
    seq(|items|, i requires 0 <= i < |items| => items[i].Record())
  }

  /** No page of `rs` has a fifth detail entry labelled 'company_url'. */
  predicate NoUrlLabel(rs: seq<Response>) {
    forall j :: 0 <= j < |rs| ==> DetailKey(rs[j].page.details) != Some(UrlKey)
  }

  /**
   * Every record of a crawl holds the first page's URL as its 'company_url',
   * whichever page it was scraped from, unless a page's own detail label
   * overwrites that key.
   */
  lemma CrawlRecordsCarryFirstUrl(pages: seq<string>, rs: seq<Response>)
    requires pages != []
    requires NoUrlLabel(rs)
    ensures AllCarry(Records(Run(pages, Some(StartRequests(pages)), rs).items), Str(pages[0]))
  {
    var items := Run(pages, Some(StartRequests(pages)), rs).items;
    RunBuiltForCompanyUrl(pages, Some(StartRequests(pages)), rs, pages[0]);
    RunItemsFromResponses(pages, Some(StartRequests(pages)), rs);
    forall i | 0 <= i < |items|
      ensures UrlKey in items[i].Record() && items[i].Record()[UrlKey] == Str(pages[0])
    {
      var j :| 0 <= j < |rs| && rs[j].page == items[i].page;
    }
  }

  /**
   * So a run saves at most one new record, however many pages it scrapes,
   * and none at all when the first page's URL was already saved.
   */
  lemma CrawlAddsAtMostOneRecord(pages: seq<string>, rs: seq<Response>, s: Store)
    requires pages != []
    requires NoUrlLabel(rs)
    ensures var records := Records(Run(pages, Some(StartRequests(pages)), rs).items);
      && |ProcessAll(s, records).existingData| <= |s.existingData| + 1
      && (Str(pages[0]) in s.scrapedUrls ==> ProcessAll(s, records) == s)
  {
    var records := Records(Run(pages, Some(StartRequests(pages)), rs).items);
    CrawlRecordsCarryFirstUrl(pages, rs);
    ProcessAllOneUrl(s, records, Str(pages[0]));
    if Str(pages[0]) in s.scrapedUrls {
      ProcessAllKnownUrl(s, records, Str(pages[0]));
    }
  }
}
