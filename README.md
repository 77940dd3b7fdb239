# Facebook insights API: page lookup, persistence, search and profile-picture extraction

This project models the decision logic of a small page-insights service. It
does not model the libraries around that logic.

- **Page lookup** (`GET /page/{username}`). The service reads the page
  document for a username from the document store and returns it when it is
  there. Otherwise it runs the scraper. A non-empty scraped record is returned
  and exactly one background write of it is scheduled. An empty or failed
  scrape returns `{}` and schedules nothing.
- **Persistence** (`store_page_data`). A write replaces the whole document at
  the username. A scheduled background task is the only thing that writes the
  store. The service has no cache tier, no time-to-live and no typed errors.
- **Search** (`GET /pages`). The store keeps the documents whose numeric
  `followers` lies in `[min_followers, max_followers]` and whose `category`
  equals the filter when a non-empty one is given. It skips
  `(page - 1) * limit` of them and returns at most `limit`. `total` is the
  number returned on this page.
- **Scraper** (`run_scraper`). The profile picture is the first truthy
  result of three lookups, tried in order: the SVG `g image` `xlink:href`,
  the `og:image` meta `content`, and the `img[alt*='profile']` `src`. A lookup
  that raises counts as "nothing found". If no lookup yields a value, the
  sentinel `"Profile pic not found"` is used. The scraper prints
  `{username, page_name, profile_pic}`.

Files:

- `wrappers.dfy`: `Option`.
- `documents.dfy`: JSON-shaped values and documents (`map<string, Value>`), and the store (`map<string, Document>`).
- `scraper.dfy`: module `Scraper`, for scraper.py.
- `pages.dfy`: module `Pages`, for the lookup and persistence half of main.py. The `PageService` class holds the store, the pending background tasks and a ghost log of scraper runs.
- `search.dfy`: module `Search`, for `search_pages` in main.py.

The stateful operations are methods of `PageService`:

- `GetPageDetails` is proved against the pure specifications `Resolve` and `Scheduled`.
- `StorePageData` and `RunNextTask` are proved against `Put`.
- The properties of those specifications are proved as lemmas.
- `MissThenHit` is a client scenario: a miss, then its background write, then a hit for the same username.

`RunScraper` is straight-line code, as in the source. It reassigns one local variable through three guarded lookups. It is proved equal to the pure first-truthy-or-sentinel function `ProfilePic`.

## Model

| member | source | states |
|---|---|---|
| `Scraper.FirstTruthy` | scraper.py:15-32 | The chain yields a value exactly when some lookup yields a truthy one, and that value is never empty |
| `Scraper.FirstTruthyAt` | scraper.py:16-32 | The first lookup that yields a truthy value decides the result. Earlier falsy or raising lookups are ignored, and later lookups are never consulted |
| `Scraper.ProfilePic` | scraper.py:15-35 | The chosen profile picture is never empty. It is the sentinel exactly when no lookup yields a value, or when the winning value is the sentinel text itself |
| `Scraper.SvgImageWins` | scraper.py:16-22 | A truthy SVG `xlink:href` becomes `profile_pic`, whatever the other two lookups give |
| `Scraper.OgImageSecond` | scraper.py:22-26 | If the SVG lookup is falsy or raises, a truthy `og:image` content becomes `profile_pic` |
| `Scraper.ProfileImgThird` | scraper.py:28-32 | If the first two lookups are falsy or raise, a truthy profile `img` `src` becomes `profile_pic` |
| `Scraper.SentinelWhenAllFail` | scraper.py:34-35 | If all three lookups are absent, empty or raise, `profile_pic` is exactly `"Profile pic not found"` |
| `Scraper.RaisedIsAbsent` | scraper.py:19-32 | A lookup that raises gives the same `profile_pic` as one that returns `None`, so a failing lookup does not abort extraction |
| `Scraper.Emitted` | scraper.py:37-44 | The emitted record has exactly the keys `username`, `page_name` and `profile_pic`. `username` is the argument, `page_name` is the page title, and `profile_pic` is a non-empty string |
| `Scraper.RunScraper` | scraper.py:5-44 | The step-by-step reassignment of `profile_pic`, followed by the sentinel, produces exactly the record `Emitted` specifies, so a record is always produced |
| `Pages.ScrapeFacebookPage` | main.py:63-72 | The result is empty exactly when running or parsing the scraper failed, or the scraper printed `{}`. Otherwise it is the parsed output, and a failure is never an error result |
| `Pages.Put` | main.py:75-77 | After a write, `username` holds exactly the written document. The keys grow by at most `username`, and every other entry is unchanged |
| `Pages.PutIdempotent` | main.py:75-77 | Writing the same document twice gives the same store as writing it once |
| `Pages.PutLastWriteWins` | main.py:75-77 | A second write to a key replaces the first entirely, with no merge |
| `Pages.PutCommutes` | main.py:75-77 | Writes to two different keys give the same store in either order |
| `Pages.Resolve` | main.py:86-105 | On a hit the stored document is returned, the scraper does not run and no task is scheduled. On a miss the scraper runs and its result is returned. A task is scheduled exactly on a miss with a non-empty result, and it writes that same result at `username` |
| `Pages.Scheduled` | main.py:97-98 | A lookup appends one task or none, and the task appended is the one the lookup decided on |
| `Pages.PersistedPageIsServed` | main.py:86-105 | Once the scheduled write has run, the next lookup of the same username is a hit that returns the same page without scraping |
| `Pages.EmptyScrapeIsNotPersisted` | main.py:92-100 | On a miss whose scrape fails or is empty, `{}` is returned and nothing is scheduled |
| `Pages.ScrapedRecordIsScheduled` | main.py:92-98 | When the scraper's printed record parses back, a miss returns that record. Its `profile_pic` is non-empty, and exactly one write of it is scheduled |
| `Pages.PageService.StorePageData` | main.py:75-77 | The store becomes the old store with the whole document at `username` replaced |
| `Pages.PageService.GetPageDetails` | main.py:86-105 | The store is not written. The returned page and the appended tasks are those of `Resolve`. The scraper log grows by `username` exactly on a miss, so the scraper runs once on a miss and never on a hit |
| `Pages.PageService.RunNextTask` | main.py:98 | Running the oldest scheduled task applies its `store_page_data` write and removes it from the queue. This is the only write path |
| `Search.CategoryFilter` | main.py:118-119 | The category equality filter applies exactly when a non-empty category is given |
| `Search.Filter` | main.py:116-119 | A document is kept exactly when it is among the listed documents and matches the follower range and category |
| `Search.FilterAppend` | main.py:116-122 | Filtering keeps the store's listing order: it distributes over concatenation |
| `Search.FilterSameCriteria` | main.py:116-121 | Which documents match depends only on the follower bounds and the category, not on the page or the limit |
| `Search.Window` | main.py:121 | `offset(n).limit(m)` returns the documents from position `n` on, at most `m` of them, in order |
| `Search.AdjacentWindows` | main.py:121 | Two adjacent windows of size `m` together equal the window of size `2m` at the first one's offset |
| `Search.SearchPages` | main.py:108-124 | A negative offset or limit is rejected. Otherwise every returned page matches the filters, each is the match at position `offset + i`, and exactly `min(limit, matches left after offset)` are returned (none past the end). `total` equals the number returned, and `page` is echoed |
| `Search.DefaultsAccepted` | main.py:110-114 | A request with every parameter left out (followers 0 to 1,000,000, no category, page 1, limit 10) is not rejected and returns page 1 with the first ten matches, or all of them if fewer |
| `Search.ShortPageIsLast` | main.py:121-124 | A page holds fewer than `limit` documents exactly when the matches run out before `offset + limit` |
| `Search.OffsetOfNextPage` | main.py:121 | For `page >= 1` and `limit >= 0` the offset is non-negative, and page `p + 1` starts `limit` documents after page `p` |
| `Search.ConsecutivePages` | main.py:121-122 | With the store's order fixed, page `p` followed by page `p + 1` is the window of size `2 * limit` where page `p` starts, so pages neither overlap nor skip |
| `Search.Listing` | main.py:121-122 | Listing the store in a given key order yields the stored document for each key, in that order |
| `Search.StoreSearch` | main.py:116-124 | Searching the service's store returns only stored documents that match the filters |

## Left out

- Browser automation is not modelled: launching Chromium, navigation with its 60-second timeout, waiting for network idle, the 10-second selector wait, and closing the browser (scraper.py:6-12, 17, 38). A rendered page is represented only by the outcomes of its three lookups and its title. A page-level failure shows up only as a failed scraper run.
- The scraper subprocess and JSON parsing are not modelled (main.py:65-70). The scraper's output is an abstract `string -> Option<Document>`, where `None` means the run or the parse raised. The subprocess call has no wall-clock timeout, so a hung scraper blocks the request, and the model does not capture that. A scraper output that parses to JSON other than an object is not modelled, because scraper.py prints only objects.
- Client setup is left out as network I/O and configuration: Firestore, Cloud Storage and Groq clients, and the credential file write (main.py:14-36).
- Store failures are not modelled. If reading the document raises (main.py:88), the request fails with a server error; `Pages.Resolve` and `GetPageDetails` always answer instead. If the background write raises (main.py:77), the write is lost and the next lookup scrapes again; `RunNextTask` always applies the write. A search whose store query raises is modelled only for a negative offset or limit.
- `upload_to_gcs` (main.py:54-60) is left out. It is network I/O and nothing calls it.
- `get_page_summary` (main.py:127-143) is left out. It is a language-model call, and it calls `exists()` as a method where `exists` is a property.
- The root route and server start-up are left out (main.py:80-82, 146-148). `uvicorn` is never imported.
- The logging `print` calls in `get_page_details` are left out.
- Concurrency is left out: when background tasks run, and how requests interleave. The pending tasks are a FIFO queue that `RunNextTask` drains one write at a time.
- The store's result order in `search_pages` is left out. The documents are taken in whatever order the store lists them.
- `Search.SearchPages`: rejecting a negative offset or limit is an assumption about the document store, not something main.py checks. For example, `page = 0` with `limit = 10` gives offset `-10`. A limit of 0 is taken to return no documents. The store's 32-bit bound on offset and limit is not modelled.
- The follower bounds are modelled as integers. An explicit `null` for `min_followers` or `max_followers` is not modelled. Floating-point follower counts are not modelled either: only integer `followers` values match the range.
- The Pydantic `Page` class (main.py:39-51) is not modelled as a type. It validates nothing on these endpoints. Documents are plain dictionaries, as in the store.
- playwrightt.py is not part of this model. It is a debug script that duplicates the scraper's fallback chain.
