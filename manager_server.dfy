// The manager behind the api's handlers (api/manager/server.go): it creates
// a url and announces it on two queues, and otherwise hands the requests to
// the store. The JSON encoding of the announced event is a parameter.

module ManagerServer {
  import opened Common
  import opened UrlModel
  import opened UrlTables
  import opened UrlListing
  import opened UrlStore
  import opened RedisLists
  import opened ApiBroker

  /** payload.URL: the body of a create request. */
  datatype UrlPayload = UrlPayload(url: string, retries: int)

  /** event.URL: what the workers receive. */
  datatype UrlEvent = UrlEvent(id: int, url: string)

  const DownloadUrlQueue := "download-url"
  const GetOEmbedQueue := "get-oembed"

  /** The retries column of a new url: NULL unless the payload asks for a
    * number of retries. */
  function RetriesColumn(p: UrlPayload): (n: NullInt)
    ensures n.valid <==> p.retries != 0
  {
    if p.retries != 0 then NullInt(p.retries, true) else NullInt0
  }

  /** How the retriers read the column back: NULL counts as no retry. */
  function RetriesOf(n: NullInt): int
  {
    if n.valid then n.n else 0
  }

  /** The column keeps the payload's count: reading it back gives it again. */
  lemma RetriesRoundTrip(p: UrlPayload)
    ensures RetriesOf(RetriesColumn(p)) == p.retries
  {
  }

  /** The lists once the event `b` was sent to both queues; a failed LPUSH
    * changes nothing. */
  function Announced(lists: map<string, seq<string>>, b: string, faults: map<Command, Error>): map<string, seq<string>>
  {
    if LPushCmd in faults then lists
    else lists[DownloadUrlQueue := [b] + List(lists, DownloadUrlQueue)][GetOEmbedQueue := [b] + List(lists, GetOEmbedQueue)]
  }

  class Server {
    const broker: ApiBroker.Broker
    const store: Store

    constructor (broker: ApiBroker.Broker, store: Store)
      ensures this.broker == broker && this.store == store
    {
      this.broker := broker;
      this.store := store;
    }

    /** CreateURL: a store error is returned before anything is sent; after
      * the insert, the same event goes to both queues (download first), and
      * a failed send does not fail the call. */
    method CreateURL(p: UrlPayload, now: int, encode: UrlEvent -> string) returns (r: Result<Url>)
      requires store.Valid()
      modifies store, broker.redis
      ensures store.Valid() && store.faults == old(store.faults) && store.tx == old(store.tx)
      ensures broker.redis.faults == old(broker.redis.faults)
      ensures CreateUrlStmt in store.faults ==>
        (r == Err(store.faults[CreateUrlStmt]) && store.tables == old(store.tables)
         && broker.redis.lists == old(broker.redis.lists))
      ensures CreateUrlStmt !in store.faults ==>
        (var (t', u) := InsertUrl(old(store.tables), p.url, RetriesColumn(p), now);
         var b := encode(UrlEvent(u.id, u.url));
         r == Ok(u) && store.tables == t'
         && broker.redis.lists == Announced(old(broker.redis.lists), b, broker.redis.faults))
    {
      var url := Url(0, p.url, 0, 0, "", Null, Null, NullInt0, []);
      if p.retries != 0 {
        url := url.(retries := NullInt(p.retries, true));
      }
      var created := store.CreateURL(url, now);
      if created.Err? {
        return Err(created.error);
      }
      url := created.value;
      var b := encode(UrlEvent(url.id, url.url));
      // Send errors are dropped.
      var _ := broker.Send(DownloadUrlQueue, b);
      var _ := broker.Send(GetOEmbedQueue, b);
      r := Ok(url);
    }

    /** GetURL */
    method GetURL(id: int) returns (r: Result<Url>)
      ensures GetUrlStmt in store.faults ==> r == Err(store.faults[GetUrlStmt])
      ensures GetUrlStmt !in store.faults ==> r == GetUrl(store.tables, id)
    {
      r := store.GetURL(id);
    }

    /** DeleteURL */
    method DeleteURL(id: int, now: int) returns (err: Option<Error>)
      requires store.Valid()
      modifies store
      ensures store.Valid() && store.faults == old(store.faults) && store.tx == old(store.tx)
      ensures DeleteUrlStmt in store.faults ==> err == Some(store.faults[DeleteUrlStmt]) && store.tables == old(store.tables)
      ensures DeleteUrlStmt !in store.faults ==>
        err.None? && store.tables == UpdateById(old(store.tables), id, MarkDeleted(now))
    {
      err := store.DeleteURL(id, now);
    }

    /** ListURLs */
    method ListURLs(q: UrlsQuery) returns (r: Result<seq<Url>>)
      ensures ListUrlsStmt in store.faults ==> r == Err(store.faults[ListUrlsStmt])
      ensures ListUrlsStmt !in store.faults ==> r == ListUrls(store.tables, q)
    {
      r := store.ListURLs(q);
    }

    /** ListLogs */
    method ListLogs(urlId: int, cursor: int) returns (r: Result<seq<string>>)
      ensures ListLogsStmt in store.faults ==> r == Err(store.faults[ListLogsStmt])
      ensures ListLogsStmt !in store.faults ==> r == UrlTables.ListLogs(store.tables, urlId, cursor)
    {
      r := store.ListLogs(urlId, cursor);
    }
  }

  /** A created url is announced by an event naming a row GetURL finds:
    * pending, with the payload's url and retries. */
  lemma CreatedIsAnnounced(t: Tables, p: UrlPayload, now: int)
    requires UrlTables.Valid(t)
    ensures var (t', u) := InsertUrl(t, p.url, RetriesColumn(p), now);
      GetUrl(t', u.id) == Ok(u) && u.status == "pending" && u.url == p.url
      && RetriesOf(u.retries) == p.retries
  {
    InsertUrlFound(t, p.url, RetriesColumn(p), now);
  }
}
