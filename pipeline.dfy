/**
 * The item pipeline: the records saved by earlier runs are loaded when the
 * spider opens, each item is appended only if its `company_url` has not been
 * seen, and the whole list is written out when the spider closes.
 */
module Pipeline {
  import opened Wrappers
  import opened Fields

  /** What reading `company_profile_data.json` gives: no file, a JSONDecodeError, or the decoded records. */
  datatype Persisted = Missing | DecodeError | Decoded(records: seq<Record>)

  /** The state the pipeline keeps: the shared set of seen URLs and the list it will write. */
  datatype Store = Store(scrapedUrls: set<FieldValue>, existingData: seq<Record>)

  /**
   * `{item['company_url'] for item in records}`, or None where a record has
   * no 'company_url' and the comprehension raises KeyError.
   */
  function UrlsOf(records: seq<Record>): (r: Option<set<FieldValue>>)
    ensures r.Some? <==> forall i :: 0 <= i < |records| ==> UrlKey in records[i]
    ensures r.Some? ==> forall i :: 0 <= i < |records| ==> records[i][UrlKey] in r.value
    ensures r.Some? ==> forall u :: u in r.value ==> exists i :: 0 <= i < |records| && records[i][UrlKey] == u
  {
    if records == [] then Some({})
    else if UrlKey !in records[0] then None
    else match UrlsOf(records[1..])
      case None => None
      case Some(rest) => Some({records[0][UrlKey]} + rest)
  }

  /**
   * `open_spider`, starting from the set `scraped` the class attribute holds:
   * decoded records replace both the set and the list; a missing file or a
   * decode error empties the list and keeps the set as it was; None is the
   * KeyError of a record without 'company_url', which leaves everything as it was.
   */
  function Opened(scraped: set<FieldValue>, file: Persisted): Option<Store> {
    match file
    case Decoded(records) =>
      (match UrlsOf(records)
       case None => None
       case Some(urls) => Some(Store(urls, records)))
    case _ => Some(Store(scraped, []))
  }

  /** `item['company_url']` exists and has not been seen. */
  predicate IsNew(s: Store, item: Record) {
    UrlKey in item && item[UrlKey] !in s.scrapedUrls
  }

  /**
   * `process_item`: append a new item and remember its URL; anything else
   * leaves the store as it was (an item without 'company_url' raises KeyError
   * before any change).
   */
  function Processed(s: Store, item: Record): (r: Store)
    ensures s.existingData <= r.existingData && |r.existingData| <= |s.existingData| + 1
    ensures |r.existingData| == |s.existingData| + 1 <==> IsNew(s, item)
    ensures IsNew(s, item) ==> r.existingData[|s.existingData|] == item
    ensures UrlKey in item ==> r.scrapedUrls == s.scrapedUrls + {item[UrlKey]}
    ensures UrlKey !in item ==> r == s
  {
    if IsNew(s, item) then Store(s.scrapedUrls + {item[UrlKey]}, s.existingData + [item]) else s
  }

  /** The calls of `process_item` for the items of one run, in order. */
  function ProcessAll(s: Store, items: seq<Record>): Store
    decreases |items|
  {
    if items == [] then s else ProcessAll(Processed(s, items[0]), items[1..])
  }

  /** Every saved record has a 'company_url', and every such URL is in the set. */
  predicate Covered(s: Store) {
    forall i :: 0 <= i < |s.existingData| ==>
      UrlKey in s.existingData[i] && s.existingData[i][UrlKey] in s.scrapedUrls
  }

  /** Records with pairwise distinct 'company_url' values. */
  predicate DistinctUrls(records: seq<Record>) {
    && (forall i :: 0 <= i < |records| ==> UrlKey in records[i])
    && (forall i, j :: 0 <= i < j < |records| ==> records[i][UrlKey] != records[j][UrlKey])
  }

  /** After a successful load the set is exactly the URLs of the loaded records, so it covers them. */
  lemma OpenedCovers(scraped: set<FieldValue>, records: seq<Record>)
    requires Opened(scraped, Decoded(records)).Some?
    ensures var s := Opened(scraped, Decoded(records)).value;
      && s.existingData == records
      && Covered(s)
      && forall u :: u in s.scrapedUrls <==> exists i :: 0 <= i < |records| && records[i][UrlKey] == u
  {
  }

  /** Processing keeps the coverage invariant, and with it the distinctness of the saved URLs. */
  lemma ProcessedKeepsCovered(s: Store, item: Record)
    requires Covered(s)
    ensures Covered(Processed(s, item))
    ensures DistinctUrls(s.existingData) ==> DistinctUrls(Processed(s, item).existingData)
  {
    var r := Processed(s, item);
    if IsNew(s, item) {
      forall i | 0 <= i < |s.existingData|
        ensures r.existingData[i] == s.existingData[i]
        ensures s.existingData[i][UrlKey] != item[UrlKey]
      {
      }
    }
  }

  /** Processing the same item a second time changes nothing. */
  lemma ProcessedIdempotent(s: Store, item: Record)
    ensures Processed(Processed(s, item), item) == Processed(s, item)
  {
  }

  /**
   * A run only appends: what it appends are items of the run, each with a
   * URL that was not in the set when the run began, pairwise distinct; and
   * afterwards every processed item's URL is in the set.
   */
  lemma {:induction false} ProcessAllAppendsNew(s: Store, items: seq<Record>)
    ensures var r := ProcessAll(s, items);
      && s.existingData <= r.existingData
      && |r.existingData| - |s.existingData| <= |items|
      && s.scrapedUrls <= r.scrapedUrls
      && (forall i :: |s.existingData| <= i < |r.existingData| ==>
            r.existingData[i] in items && UrlKey in r.existingData[i] && r.existingData[i][UrlKey] !in s.scrapedUrls)
      && DistinctUrls(r.existingData[|s.existingData|..])
      && (forall i :: 0 <= i < |items| && UrlKey in items[i] ==> items[i][UrlKey] in r.scrapedUrls)
    decreases |items|
  {
    if items != [] {
      var item := items[0];
      var s1 := Processed(s, item);
      ProcessAllAppendsNew(s1, items[1..]);
      var r := ProcessAll(s, items);
      assert r == ProcessAll(s1, items[1..]);
      var n, n1 := |s.existingData|, |s1.existingData|;
      forall i | n <= i < |r.existingData|
        ensures r.existingData[i] in items && UrlKey in r.existingData[i] && r.existingData[i][UrlKey] !in s.scrapedUrls
      {
        if i >= n1 {
          assert r.existingData[i] in items[1..];
        } else {
          assert r.existingData[i] == s1.existingData[i] == item;
        }
      }
      var added, added1 := r.existingData[n..], r.existingData[n1..];
      if IsNew(s, item) {
        assert added == [item] + added1;
        assert forall j :: 0 <= j < |added1| ==> added1[j][UrlKey] !in s1.scrapedUrls;
      } else {
        assert added == added1;
      }
      forall i | 0 <= i < |items| && UrlKey in items[i]
        ensures items[i][UrlKey] in r.scrapedUrls
      {
        if i > 0 {
          assert items[i] == items[1..][i - 1];
        }
      }
    }
  }

  /** Every record has a 'company_url', and it is `u`. */
  predicate AllCarry(records: seq<Record>, u: FieldValue) {
    forall i :: 0 <= i < |records| ==> UrlKey in records[i] && records[i][UrlKey] == u
  }

  /** Once a URL is in the set, items carrying only that URL change nothing. */
  lemma {:induction false} ProcessAllKnownUrl(s: Store, items: seq<Record>, u: FieldValue)
    requires u in s.scrapedUrls
    requires AllCarry(items, u)
    ensures ProcessAll(s, items) == s
    decreases |items|
  {
    if items != [] {
      ProcessAllKnownUrl(s, items[1..], u);
    }
  }

  /** Items that all carry the same URL add at most one record in a run. */
  lemma ProcessAllOneUrl(s: Store, items: seq<Record>, u: FieldValue)
    requires AllCarry(items, u)
    ensures |ProcessAll(s, items).existingData| <= |s.existingData| + 1
  {
    if items != [] {
      var s1 := Processed(s, items[0]);
      ProcessAllKnownUrl(s1, items[1..], u);
      assert ProcessAll(s, items) == ProcessAll(s1, items[1..]);
    }
  }

  /** The class attribute `CompanyProfilePipeline.scraped_urls`: one set shared by every instance. */
  class ScrapedUrls {
    var urls: set<FieldValue>

    /** `scraped_urls = set()` when the class is defined. */
    constructor ()
      ensures urls == {}
    {
      urls := {};
    }
  }

  /** One pipeline instance: the shared set and its own `existing_data` list. */
  class CompanyProfilePipeline {
    const scraped: ScrapedUrls
    var existingData: seq<Record>

    constructor (scraped: ScrapedUrls)
      ensures this.scraped == scraped && existingData == []
    {
      this.scraped := scraped;
      existingData := [];
    }

    function State(): Store
      reads this, scraped
    {
      Store(scraped.urls, existingData)
    }

    /** `open_spider`: seed the list from the file, and the shared set from a successful load. */
    method OpenSpider(file: Persisted) returns (raised: bool)
      modifies this, scraped
      ensures raised <==> Opened(old(scraped.urls), file).None?
      ensures !raised ==> State() == Opened(old(scraped.urls), file).value
      ensures raised ==> State() == old(State())
    {
      raised := false;
      match file {
        case Decoded(records) =>
          var urls := UrlsOf(records);
          if urls.None? {
            raised := true;
          } else {
            scraped.urls := urls.value;
            existingData := records;
          }
        case Missing =>
          existingData := [];
        case DecodeError =>
          existingData := [];
      }
    }

    /** `process_item`: the item is returned unchanged, after being appended if its URL is new. */
    method ProcessItem(item: Record) returns (result: Option<Record>)
      modifies this, scraped
      ensures State() == Processed(old(State()), item)
      ensures result.Some? <==> UrlKey in item
      ensures result.Some? ==> result.value == item
    {
      if UrlKey !in item {
        return None;
      }
      var url := item[UrlKey];
      if url !in scraped.urls {
        existingData := existingData + [item];
        scraped.urls := scraped.urls + {url};
      }
      return Some(item);
    }

    /** `close_spider`: what is written is the whole list, as it stands. */
    method CloseSpider() returns (written: seq<Record>)
      ensures written == existingData
    {
      written := existingData;
    }
  }
}
