/**
 * Page lookup and persistence (main.py): `GET /page/{username}` looks the
 * username up in the document store; on a miss it runs the scraper and, when
 * that produced data, schedules one background write of it.
 *
 * There is no cache tier: the document store is the only persistence layer,
 * and the scheduled background write is the only thing that changes it.
 */
module Pages {
  import opened Wrappers
  import opened Documents
  import Scraper

  /** A scheduled background task: `store_page_data(username, data)`. */
  datatype Task = Write(username: string, data: Document)

  /** What one page lookup produces: the returned page, whether the scraper ran, and the task it scheduled. */
  datatype Lookup = Lookup(page: Document, scraped: bool, task: Option<Task>)

  /**
   * scrape_facebook_page: the scraper's parsed output, where `None` stands
   * for a scraper run or a JSON parse that raised. A failure is not an error:
   * it yields the empty dictionary.
   */
  function ScrapeFacebookPage(run: Option<Document>): (page: Document)
    ensures page == map[] <==> run.None? || run.value == map[]
    ensures page != map[] ==> run == Some(page)
  {
    match run
    case Some(d) => d
    case None => map[]
  }

  /**
   * store_page_data on the store's contents: the document at `username` is
   * replaced as a whole, and nothing else changes.
   */
  function Put(store: Store, username: string, data: Document): (s: Store)
    ensures username in s && s[username] == data
    ensures s.Keys == store.Keys + {username}
    ensures forall k :: k in store && k != username ==> s[k] == store[k]
  {
    store[username := data]
  }

  /** Writing the same document twice leaves the store as writing it once. */
  lemma PutIdempotent(store: Store, username: string, data: Document)
    ensures Put(Put(store, username, data), username, data) == Put(store, username, data)
  {
  }

  /** A second write to the same key replaces the first entirely: last write wins, no merge. */
  lemma PutLastWriteWins(store: Store, username: string, first: Document, second: Document)
    ensures Put(Put(store, username, first), username, second) == Put(store, username, second)
  {
  }

  /** Writes to different keys do not interfere, whichever runs first. */
  lemma PutCommutes(store: Store, u1: string, d1: Document, u2: string, d2: Document)
    requires u1 != u2
    ensures Put(Put(store, u1, d1), u2, d2) == Put(Put(store, u2, d2), u1, d1)
  {
  }

  /**
   * get_page_details as a decision: a stored document is returned as it is;
   * otherwise the scraper runs once for `username`, and exactly one write of
   * its result is scheduled when that result is non-empty.
   */
  function Resolve(store: Store, username: string, scraper: string -> Option<Document>): (r: Lookup)
    ensures username in store ==> r.page == store[username] && !r.scraped && r.task == None
    ensures username !in store ==> r.scraped && r.page == ScrapeFacebookPage(scraper(username))
    ensures r.task.Some? <==> username !in store && r.page != map[]
    ensures r.task.Some? ==> r.task.value == Write(username, r.page)
  {
    if username in store then
      Lookup(store[username], false, None)
    else
      var page := ScrapeFacebookPage(scraper(username));
      Lookup(page, true, if page != map[] then Some(Write(username, page)) else None)
  }

  /** The tasks a lookup appends to the request's background task list. */
  function Scheduled(task: Option<Task>): (tasks: seq<Task>)
    ensures |tasks| == (if task.Some? then 1 else 0)
    ensures forall t :: t in tasks <==> task == Some(t)
  {
    match task
    case Some(t) => [t]
    case None => []
  }

  /**
   * Once the write scheduled on a miss has run, the next lookup of the same
   * username is a hit that returns the same page without scraping.
   */
  lemma PersistedPageIsServed(store: Store, username: string, scraper: string -> Option<Document>)
    requires Resolve(store, username, scraper).task.Some?
    ensures var r := Resolve(store, username, scraper);
            Resolve(Put(store, r.task.value.username, r.task.value.data), username, scraper)
              == Lookup(r.page, false, None)
  {
  }

  /**
   * An empty or failed scrape leaves no trace: the caller gets `{}`, nothing
   * is scheduled, and the next lookup scrapes again.
   */
  lemma EmptyScrapeIsNotPersisted(store: Store, username: string, scraper: string -> Option<Document>)
    requires username !in store
    requires scraper(username).None? || scraper(username) == Some(map[])
    ensures Resolve(store, username, scraper) == Lookup(map[], true, None)
  {
  }

  /**
   * The two halves together: when the scraper subprocess prints the record
   * of a rendered page and it parses back, a miss returns that record, with
   * a non-empty profile picture, and schedules exactly one write of it.
   */
  lemma ScrapedRecordIsScheduled(store: Store, username: string, scraper: string -> Option<Document>,
                                 rendered: Scraper.RenderedPage)
    requires username !in store
    requires scraper(username) == Some(Scraper.Emitted(username, rendered))
    ensures var r := Resolve(store, username, scraper);
            && r.page == Scraper.Emitted(username, rendered)
            && r.page["profile_pic"] != Str("")
            && r.task == Some(Write(username, r.page))
  {
  }

  /**
   * The service's state: the document store (the collection `facebookinsights`,
   * keyed by username), the background tasks scheduled and not yet run, and
   * the scraper it runs on a miss.
   */
  class PageService {
    var store: Store
    var pending: seq<Task>
    /** Every username the scraper was run for, in order. */
    ghost var scrapes: seq<string>
    const scraper: string -> Option<Document>

    constructor (scraper: string -> Option<Document>, store: Store)
      ensures this.scraper == scraper && this.store == store
      ensures pending == [] && scrapes == []
    {
      this.scraper := scraper;
      this.store := store;
      pending := [];
      scrapes := [];
    }

    /** store_page_data: replace the whole document at `username`. */
    method StorePageData(username: string, data: Document)
      modifies this`store
      ensures store == Put(old(store), username, data)
    {
      store := store[username := data];
    }

    /**
     * get_page_details. The store is only read; the scraper runs exactly
     * once on a miss and never on a hit; at most one write is scheduled.
     */
    method GetPageDetails(username: string) returns (page: Document)
      modifies this`pending, this`scrapes
      ensures store == old(store)
      ensures page == Resolve(old(store), username, scraper).page
      ensures pending == old(pending) + Scheduled(Resolve(old(store), username, scraper).task)
      ensures scrapes == old(scrapes) + (if username in old(store) then [] else [username])
    {
      if username !in store {
        scrapes := scrapes + [username];
        page := ScrapeFacebookPage(scraper(username));
        if page != map[] {
          pending := pending + [Write(username, page)];
        }
      } else {
        page := store[username];
      }
    }

    /** The background worker runs the oldest scheduled task; it is the only write to the store. */
    method RunNextTask()
      requires pending != []
      modifies this`store, this`pending
      ensures store == Put(old(store), old(pending)[0].username, old(pending)[0].data)
      ensures pending == old(pending)[1..]
    {
      var task := pending[0];
      pending := pending[1..];
      StorePageData(task.username, task.data);
    }
  }

  /** A miss that scrapes a page, then its write, then a hit for the same username. */
  method MissThenHit(username: string, rendered: Scraper.RenderedPage)
  {
    var record := Scraper.Emitted(username, rendered);
    var service := new PageService(u => if u == username then Some(record) else None, map[]);
    var first := service.GetPageDetails(username);
    assert first == record;
    assert service.pending == [Write(username, record)];
    assert service.scrapes == [username];
    service.RunNextTask();
    var second := service.GetPageDetails(username);
    assert second == record;
    assert service.scrapes == [username];
    assert service.pending == [];
  }
}
