# Company profile scraper: a Dafny model

This project models the two cooperating pieces of the `company_data_scraper`
Scrapy project and proves properties about them:

- **The company profile spider** (`spiders/company_profile_scraper.py`):
  - building page URLs from the input file (`get_url_by_company_name`);
  - removing duplicates and refusing an empty list (`__init__`);
  - the request chain driven by `start_requests` and `parse_response`, one page at a time by index;
  - the redirect and 404 handling;
  - the way each field of the item dict is read from a page's selected text.
- **The item pipeline** (`pipelines.py`):
  - loading the earlier records and the shared set of seen URLs (`open_spider`);
  - appending an item only if its `company_url` is new (`process_item`);
  - writing the whole list out (`close_spider`).

## Modules

- `wrappers.dfy` (`Wrappers`): the `Option` type.
- `text.dfy` (`Text`): the Python string operations the spider applies, over ASCII.
  - `strip()`, `lower()` and `split()[0]`;
  - `replace(',', '')` and `int()`.
- `number_pattern.dfy` (`NumberPattern`): a scanner for the regular expression `\d{1,3}(?:,\d{3})*`.
  - It finds the leftmost match, taken greedily, as `re.findall(...)[0]` sees it.
  - It is proved to return a whole word of the pattern that cannot be extended.
- `fields.dfy` (`Fields`): turning the selected strings of one page into the item dict.
  - The CSS/XPath selections are inputs (`Page`), with None where `.get()` finds nothing.
  - The dict is a `map` from `ItemKey` to `FieldValue`. A key is one of the thirteen names the code writes, or any other label entry 5 brings.
  - `ItemKey` admits one key per name: a name that spells one of the thirteen is always that fixed key. Saved records use the same keys, so a saved `company_url` is the same dict entry as the spider's.
  - `parse_response` builds the dict by a sequence of assignments `company_item[k] = v`. These are modelled as a script of `Assignment`s: `Perform` runs the script, and `LastValue` says what the last write to a key stored.
  - `CompanyItemFields` gives, key by key, what the finished item holds.
- `spider.dfy` (`Spider`): URL building (a class holding the module-level `company_urls` list), `list(set(...))`, the constructor, and the callback.
  - `ParseResponse` returns what one call yields. `Run` and `Crawl` drive the chain over a sequence of responses.
  - An item is yielded as a `Scrape` (the `company_url` from the meta, the page and the parsed follower count). Its dict is `Scrape.Record()`.
- `pipeline.dfy` (`Pipeline`): the store as pure functions (`Opened`, `Processed`, `ProcessAll`) and their invariants.
  - The class `CompanyProfilePipeline` keeps the shared set in a separate `ScrapedUrls` object, because it is the class attribute `scraped_urls`.
  - Its methods are proved against those functions.
- `end_to_end.dfy` (`EndToEnd`): what one crawl adds to the saved records.

## Behaviour modelled as written

Some of the code's behaviour is surprising. The model follows the code as written:

- **404 is not retried.** A 404 skips the page without an item, and the chain moves on to the next index.
- **No record is dropped for a missing name.** The name defaults to `'not-found'` and the item is still yielded (`Fields.CompanyItem`).
- **The detail block is read by position, not by label.**
  - Entries 0 to 4 are website, industry, size, headquarters and type.
  - Only entry 3's label is checked.
  - Entry 5's label becomes a key of its own, which can overwrite any field, `company_url` included.
  - Entry 6 is read only after a `founded` label.
- **The callback does not limit redirects.** Each redirect re-requests the `Location` with the same index and meta. A cap would come from Scrapy's settings, which are not part of this model.
- **Every follow-up request reuses the current `company_url`** (line 167), not the URL it requests.
  - Every item of a crawl therefore carries the first page's URL (`EndToEnd.CrawlRecordsCarryFirstUrl`), provided no page's entry 5 is labelled `company_url`.
  - Under the same proviso, the pipeline, which deduplicates on that key, saves at most one new record per run, and none once that URL has been saved (`EndToEnd.CrawlAddsAtMostOneRecord`).
  - A page whose entry 5 is labelled `company_url` overwrites that key with its own value, and then a crawl can save more than one record.
- **Dead condition at line 150.** The `or unsure_parameter_key == 'founded'` part can never hold, because that case was handled just before. The model has only the live branch.

## Model

| member | source | states |
|---|---|---|
| Text.StripIsTrimmedInfix | company_data_scraper/company_data_scraper/spiders/company_profile_scraper.py:81 | `strip()` keeps exactly the stretch between the first and last non-blank characters: it is an infix of the input, everything dropped on either side is blank, and the result neither starts nor ends with a blank |
| Text.StripStartDropsLeading | company_data_scraper/company_data_scraper/spiders/company_profile_scraper.py:81 | the left half of `strip()` drops exactly the leading blanks, up to the first non-blank character |
| Text.StripEndDropsTrailing | company_data_scraper/company_data_scraper/spiders/company_profile_scraper.py:81 | the right half of `strip()` drops exactly the trailing blanks, back to the last non-blank character |
| Text.StripEmptyIffBlank | company_data_scraper/company_data_scraper/spiders/company_profile_scraper.py:94 | stripping gives the empty string if and only if the text is all blanks |
| Text.FirstToken | company_data_scraper/company_data_scraper/spiders/company_profile_scraper.py:86 | `split()[0]` fails (IndexError) exactly on blank text; otherwise it is a non-empty word with no blank in it |
| Text.FirstTokenIsFirstWord | company_data_scraper/company_data_scraper/spiders/company_profile_scraper.py:121 | the token is the run of non-blanks that starts right after the leading blanks and ends at the next blank or the end of the text |
| Text.Strip | company_data_scraper/company_data_scraper/spiders/company_profile_scraper.py:81 | `strip()` as `lstrip()` then `rstrip()`; what it keeps is stated by `Text.StripIsTrimmedInfix` |
| Text.Lower | company_data_scraper/company_data_scraper/spiders/company_profile_scraper.py:126 | `lower()`: the same length, no capital A to Z left, and each character either kept or a capital turned into its small letter |
| Text.RemoveCommas | company_data_scraper/company_data_scraper/spiders/company_profile_scraper.py:86 | `replace(',', '')`: no comma is left, the text gets no longer, and text without commas is unchanged |
| Text.RemoveCommasKeepsOthers | company_data_scraper/company_data_scraper/spiders/company_profile_scraper.py:86 | every character other than a comma survives `replace(',', '')`, as often as it occurs in the input |
| Text.RemoveCommasAppend | company_data_scraper/company_data_scraper/spiders/company_profile_scraper.py:86 | removing commas works piece by piece: the result for a concatenation is the concatenation of the results, so the kept characters stay in order |
| Text.ParseDecimal | company_data_scraper/company_data_scraper/spiders/company_profile_scraper.py:100-101 | `int()` succeeds exactly on a non-empty run of decimal digits; its value is pinned by `Text.ParseDecimalOfDecimal` and `Text.ParseDecimalLeadingZero` |
| Text.ParseDecimalLeadingZero | company_data_scraper/company_data_scraper/spiders/company_profile_scraper.py:86-101 | a leading zero changes nothing: `int("007")` is 7, so zero-padded counts such as "0,500" read as 500 |
| Text.ParseDecimalOfDecimal | company_data_scraper/company_data_scraper/spiders/company_profile_scraper.py:100-101 | `int()` reads back exactly the number whose decimal digits it is given, for every natural number |
| NumberPattern.IsNumber | company_data_scraper/company_data_scraper/spiders/company_profile_scraper.py:97 | the reference definition of the pattern's language: one to three digits, then any number of `,ddd` groups |
| NumberPattern.FindNumber | company_data_scraper/company_data_scraper/spiders/company_profile_scraper.py:97-99 | there is no match exactly when the text has no digit; a match starts at the first digit |
| NumberPattern.FindNumberIsGreedyMatch | company_data_scraper/company_data_scraper/spiders/company_profile_scraper.py:97-98 | the match is a whole word of `\d{1,3}(?:,\d{3})*` and is greedy: no further `,ddd` group follows, and when it has fewer than three leading digits no further digit follows |
| NumberPattern.FindNumberUngrouped | company_data_scraper/company_data_scraper/spiders/company_profile_scraper.py:97-98 | three digits followed by anything but a comma: the match is those three digits only |
| NumberPattern.NumberIsDecimal | company_data_scraper/company_data_scraper/spiders/company_profile_scraper.py:100-101 | every match, commas removed, is a decimal number, so the `int()` applied to it cannot raise |
| Fields.NotFoundIsStripped | company_data_scraper/company_data_scraper/spiders/company_profile_scraper.py:111 | the default 'not-found' survives `.strip()` unchanged |
| Fields.KeyOf | company_data_scraper/company_data_scraper/spiders/company_profile_scraper.py:140-141 | the key a label names has that label as its name; it is one of the thirteen fixed keys exactly when the label spells a fixed key's name |
| Fields.ItemKeyByName | company_data_scraper/company_data_scraper/spiders/company_profile_scraper.py:78-141 | two item keys with the same name are the same key, so a record holds at most one entry per JSON key |
| Fields.KeyOfKeyName | company_data_scraper/company_data_scraper/spiders/company_profile_scraper.py:141 | reading a key's name back gives the same key, so a label equal to a field's name writes that very dict entry |
| Fields.FollowerCount | company_data_scraper/company_data_scraper/spiders/company_profile_scraper.py:84-88 | 'not-found' gives None; blank text raises an uncaught IndexError; any other text gives exactly what `TokenCount` gives for its first token: the number that token spells once its commas are removed, or None when it spells none |
| Fields.TokenCount | company_data_scraper/company_data_scraper/spiders/company_profile_scraper.py:86-88 | a count exactly when the token without commas is a decimal number, and then that number; None (the caught ValueError) otherwise |
| Fields.EmployeeCount | company_data_scraper/company_data_scraper/spiders/company_profile_scraper.py:96-104 | a number exactly when the stripped text holds a digit, and then the value of the leftmost match of `\d{1,3}(?:,\d{3})*` in the stripped text with its commas removed (the match is a whole word of the pattern); otherwise the stripped text itself; never None |
| Fields.EmployeeCountCutsUngrouped | company_data_scraper/company_data_scraper/spiders/company_profile_scraper.py:97-101 | four or more digits without a comma after the third give only the first three as the count ("12345" gives 123) |
| Fields.Reading | company_data_scraper/company_data_scraper/spiders/company_profile_scraper.py:115-116 | a detail entry reads as its lower-cased, stripped label and its stripped value, the value missing exactly when there is no second string |
| Fields.Website | company_data_scraper/company_data_scraper/spiders/company_profile_scraper.py:110-113 | "" when entry 0 is missing, 'not-found' when it has no link text, the stripped link text otherwise |
| Fields.SizeApprox | company_data_scraper/company_data_scraper/spiders/company_profile_scraper.py:119-123 | the first word of the stripped value: the run of non-blanks right after the leading blanks, ending at a blank or at the end; "" when the value is missing, and "" only when the value is blank |
| Fields.Headquarters | company_data_scraper/company_data_scraper/spiders/company_profile_scraper.py:124-131 | "" when entry 3 is missing; its value only when its label reads 'headquarters'; 'not-found' under any other label |
| Fields.DynamicKey | company_data_scraper/company_data_scraper/spiders/company_profile_scraper.py:137-141 | entry 5 writes a key exactly when it has both a label and a value, and the key is named by the label |
| Fields.Extract | company_data_scraper/company_data_scraper/spiders/company_profile_scraper.py:81-141 | the field readings of lines 81-141, each from its own selection or its own detail entry; what the item holds is stated by `Fields.CompanyItemFields` |
| Fields.ItemScript | company_data_scraper/company_data_scraper/spiders/company_profile_scraper.py:78-155 | the statements of the item's construction, in the code's order: the header, entries 0 to 4, then entries 5 and 6 |
| Fields.FieldOf | company_data_scraper/company_data_scraper/spiders/company_profile_scraper.py:78-155 | the key-by-key reading the statements are proved against (`Fields.ItemScriptField`) |
| Fields.PerformLastValue | company_data_scraper/company_data_scraper/spiders/company_profile_scraper.py:78-79 | in a dict built by assignments from `{}`, a key is present exactly when some assignment writes it, and it holds what the last such assignment stored |
| Fields.LastValueAppend | company_data_scraper/company_data_scraper/spiders/company_profile_scraper.py:78-79 | after two runs of assignments, a key holds the second run's last write to it, or else the first run's |
| Fields.EntryScriptFoundedSpecialties | company_data_scraper/company_data_scraper/spiders/company_profile_scraper.py:137-155 | the case table for 'founded' and 'specialties'. No entry 5 gives "" for both. 'founded' followed by a 'specialties' entry with a value gives both values; followed by any other label it gives 'not-found' for specialties; a missing entry 6 gives "" for both. A 'specialties' label leaves 'founded' unset. Any other label gives 'not-found' for both |
| Fields.EntryScriptOther | company_data_scraper/company_data_scraper/spiders/company_profile_scraper.py:137-141 | entries 5 and 6 write no other key than entry 5's own label, which holds entry 5's value |
| Fields.BeforeEntryFive | company_data_scraper/company_data_scraper/spiders/company_profile_scraper.py:78-136 | the header and entries 0 to 4 write each of their eleven fields with the value read for it, and no other key |
| Fields.ItemScriptField | company_data_scraper/company_data_scraper/spiders/company_profile_scraper.py:78-155 | after every statement of the item's construction, each key holds what the key-by-key reading says: the founded/specialties table, entry 5's value under its label, overriding a field of the same name, the read value for every other field, and nothing for any other key |
| Fields.ItemKeepsHeader | company_data_scraper/company_data_scraper/spiders/company_profile_scraper.py:79-104 | the built item holds company_url, company_name, the follower count and the employee count, each with the value read for it unless entry 5's label is that field's name |
| Fields.CompanyItem | company_data_scraper/company_data_scraper/spiders/company_profile_scraper.py:78-81 | the item always holds the request's company_url and the stripped name (or 'not-found'), with no drop for a missing name, plus the follower and employee counts, unless entry 5's label overwrites that key |
| Fields.CompanyItemFields | company_data_scraper/company_data_scraper/spiders/company_profile_scraper.py:78-155 | the item for a page holds a key exactly when the key-by-key reading gives it a value, and then that value |
| Spider.UrlRegistry.constructor | company_data_scraper/company_data_scraper/spiders/company_profile_scraper.py:8 | the module-level list `company_urls` starts empty |
| Spider.SuffixedUrls | company_data_scraper/company_data_scraper/spiders/company_profile_scraper.py:16-17 | each input value, in order, contributes exactly itself followed by `/?trk=companies_directory`; the first value that is not a string stops the loop |
| Spider.CollectedUrls | company_data_scraper/company_data_scraper/spiders/company_profile_scraper.py:12-23 | a missing or unreadable file contributes nothing; when all values are strings, one URL per value |
| Spider.UrlRegistry.GetUrlByCompanyName | company_data_scraper/company_data_scraper/spiders/company_profile_scraper.py:10-23 | the global list becomes what it was followed by the collected URLs, in order |
| Spider.ListOfSet | company_data_scraper/company_data_scraper/spiders/company_profile_scraper.py:47 | `list(set(urls))` has no duplicates, the same elements as `urls`, and one entry per distinct URL |
| Spider.DistinctCardinality | company_data_scraper/company_data_scraper/spiders/company_profile_scraper.py:47 | a list without duplicates has as many distinct elements as entries |
| Spider.InitSpider | company_data_scraper/company_data_scraper/spiders/company_profile_scraper.py:39-47 | the constructor raises ValueError exactly when the global list is still empty after reading; otherwise the pages are non-empty, duplicate-free and hold the same URLs |
| Spider.StartRequests | company_data_scraper/company_data_scraper/spiders/company_profile_scraper.py:50-55 | the first request is for page 0, at index 0, on behalf of itself |
| Spider.ParseResponse | company_data_scraper/company_data_scraper/spiders/company_profile_scraper.py:57-167 | A redirect yields no item and exactly one request, to the Location, with the same index and company_url; a redirect without Location raises. A 404 yields no item. Any other status yields the page's item built for the meta's company_url, or raises when the follower text is blank. After a non-redirect the next request exists exactly when index + 1 is in bounds, and it is for that page, with the current company_url |
| Spider.ScrapedStep | company_data_scraper/company_data_scraper/spiders/company_profile_scraper.py:78-167 | a response that is neither a redirect nor a 404, whose follower text is not blank, yields one item and moves on to the next index if there is one |
| Spider.Run | company_data_scraper/company_data_scraper/spiders/company_profile_scraper.py:57-167 | the callback chain over a sequence of responses: each response goes to the callback with the current request, its item is collected, and the request it yields becomes the current one; a raise or the absence of a next request ends the chain |
| Spider.Crawl | company_data_scraper/company_data_scraper/spiders/company_profile_scraper.py:50-167 | the engine loop yields the items and sends the requests of the chain `Run` describes, starting with the first request |
| Spider.StepKeepsCompanyUrl | company_data_scraper/company_data_scraper/spiders/company_profile_scraper.py:162-167 | one callback's request and item both carry the current company_url |
| Spider.RunKeepsCompanyUrl | company_data_scraper/company_data_scraper/spiders/company_profile_scraper.py:166-167 | every request of a chain carries the company_url of the request that started it |
| Spider.RunBuiltForCompanyUrl | company_data_scraper/company_data_scraper/spiders/company_profile_scraper.py:79 | every item of a chain is built for the company_url of the request that started it |
| Spider.RunItemsFromResponses | company_data_scraper/company_data_scraper/spiders/company_profile_scraper.py:160 | every item of a crawl is built from the page of one of its responses |
| Spider.RunStaysOnPages | company_data_scraper/company_data_scraper/spiders/company_profile_scraper.py:162-167 | indices stay within the page list and never go back, and a crawl from index i yields at most len(pages) - i items |
| Spider.RunVisitsPagesInOrder | company_data_scraper/company_data_scraper/spiders/company_profile_scraper.py:164-167 | when every response scrapes cleanly, the chain requests the pages after the current one, in index order, stops after the last, and yields one item per page |
| Pipeline.UrlsOf | company_data_scraper/company_data_scraper/pipelines.py:17 | the comprehension succeeds exactly when every record has a company_url, and then it is exactly the set of those URLs |
| Pipeline.Opened | company_data_scraper/company_data_scraper/pipelines.py:8-24 | the state after `open_spider`, as stated by `Pipeline.OpenedCovers` and `Pipeline.CompanyProfilePipeline.OpenSpider` |
| Pipeline.ProcessAll | company_data_scraper/company_data_scraper/pipelines.py:26-31 | `process_item` applied to the items of a run in order; its effect is stated by `Pipeline.ProcessAllAppendsNew` |
| Pipeline.Processed | company_data_scraper/company_data_scraper/pipelines.py:26-31 | the saved list only grows, by the item and only if its URL is new; the URL is in the set afterwards; an item without company_url changes nothing |
| Pipeline.OpenedCovers | company_data_scraper/company_data_scraper/pipelines.py:15-17 | after a successful load, the list is the loaded records and the set is exactly their URLs |
| Pipeline.ProcessedKeepsCovered | company_data_scraper/company_data_scraper/pipelines.py:28-30 | if every saved URL is in the set, processing keeps it so, and keeps saved URLs pairwise distinct |
| Pipeline.ProcessedIdempotent | company_data_scraper/company_data_scraper/pipelines.py:28-30 | processing the same item twice leaves the same state as processing it once |
| Pipeline.ProcessAllAppendsNew | company_data_scraper/company_data_scraper/pipelines.py:28-30 | a run keeps the earlier list as a prefix and appends items of the run, with URLs pairwise distinct and absent from the set at the start; every processed URL is in the set afterwards |
| Pipeline.ProcessAllKnownUrl | company_data_scraper/company_data_scraper/pipelines.py:28 | items that all carry a URL already in the set change nothing |
| Pipeline.ProcessAllOneUrl | company_data_scraper/company_data_scraper/pipelines.py:28-30 | items that all carry the same URL add at most one record |
| Pipeline.ScrapedUrls.constructor | company_data_scraper/company_data_scraper/pipelines.py:6 | the shared set starts empty |
| Pipeline.CompanyProfilePipeline.OpenSpider | company_data_scraper/company_data_scraper/pipelines.py:8-24 | decoded records replace both the list and the shared set; a missing file or a decode error empties the list and leaves the set as it was; a record without company_url raises and changes nothing |
| Pipeline.CompanyProfilePipeline.ProcessItem | company_data_scraper/company_data_scraper/pipelines.py:26-31 | the state becomes `Processed` of the old state, and the item is returned unchanged (KeyError when it has no company_url) |
| Pipeline.CompanyProfilePipeline.CloseSpider | company_data_scraper/company_data_scraper/pipelines.py:33-36 | what is written is exactly the current list, unfiltered and in order |
| EndToEnd.CrawlRecordsCarryFirstUrl | company_data_scraper/company_data_scraper/spiders/company_profile_scraper.py:166-167 | every record of a crawl has company_url equal to the first page's URL, unless a page's entry 5 label is 'company_url' |
| EndToEnd.CrawlAddsAtMostOneRecord | company_data_scraper/company_data_scraper/pipelines.py:28-30 | a whole crawl fed to the pipeline saves at most one new record, and none when the first page's URL was already saved |

## Left out

- Scrapy itself is not modelled: the engine, generators, `scrapy.Request` objects, meta dictionaries and headers.
  - A request is a value (URL, index, company_url).
  - A response is a value (status, Location header, the page's selections).
  - One callback's yields are an `Outcome`.
  - `Crawl` feeds responses to the callback one at a time, in the order the requests are sent.
- CSS and XPath selection is not modelled. What the selectors return is an input.
- `custom_settings` (download delay, randomised delay, retry count, redirect cap, duplicate filter) are not modelled. They are enforced by Scrapy's middleware, outside the code modelled here.
- File and JSON I/O is not modelled (`open`, `os.path.exists`, `json.load`, `json.dump`).
  - Reading the input or the saved data is an input value: missing, an error, or the decoded content.
  - `close_spider` returns the list it would write. The `indent=4` layout and the key order of the written JSON are not modelled.
  - Values that are not dicts in the saved JSON are not modelled: a saved record is a map over the same keys as an item.
- All `print` output is left out.
- Python text and numbers are modelled over ASCII only.
  - Whitespace, lower-casing and digits are ASCII. Whitespace is what `str.isspace()` accepts among ASCII characters, the separators U+001C to U+001F included; Unicode spaces such as U+00A0 are not.
  - `int()` is ASCII decimal digits only: no sign, no underscores, no Unicode digits.
- The `except Exception` around the employee count (lines 105-106) is not modelled. The match is always a decimal number (`NumberPattern.NumberIsDecimal`), so `int()` raises only through CPython's limit on the length of a converted string (4300 digits by default since 3.11); then `num_of_employees` is left unset.
- Fields.EmployeeCount: a match over 4300 digits is given its full value, where CPython's default limit would raise and leave the key unset.
- Fields.TokenCount: a token over 4300 digits is given its full value, where CPython's default limit would raise ValueError and give None.
- The `AttributeError` caught at line 87 is not modelled. It cannot occur, because `.get(default=...)` always returns a string.
- Pipeline.CompanyProfilePipeline.constructor starts `existing_data` as the empty list. In Python the attribute exists only after `open_spider`.
- Pipeline.CompanyProfilePipeline.OpenSpider: when the comprehension raises KeyError, Python leaves `existing_data` unset. The model keeps the state as it was and reports the exception.
- Spider.CollectedUrls: states the length only when every value is a string. The contents are stated by `Spider.SuffixedUrls`.
- Spider.ListOfSet: the iteration order of a Python set is unspecified, so the method picks each next element arbitrarily. Only the elements and their count are stated, not the order.
