// The retrier of the api generation (api/service/retrier.go): it takes the
// oldest failed download-url event and, when the url's failure is worth
// retrying and its retries are under the cap, creates the url again through
// the manager with one more retry. The event's JSON decoding and the log
// patterns' matcher are parameters.

module Retrier {
  import opened Common
  import opened UrlModel
  import opened UrlTables
  import opened UrlStore
  import opened RedisLists
  import opened ApiBroker
  import opened ManagerServer

  /** A url is retried while its count of retries is below this. */
  const MaxRetries := 5

  /** What RetryNextDownloadURL does with a popped event. */
  datatype Decision = Skip | Abort(err: Error) | Retry(failed: Url)

  /** retry's payload: the failed url's address, with one more retry. */
  function RetryPayload(failed: Url): (p: UrlPayload)
    ensures p.url == failed.url && p.retries == failed.retries.n + 1
  {
    UrlPayload(failed.url, failed.retries.n + 1)
  }

  /** The decision on the popped event `b`: an undecodable event or a failed
    * lookup aborts with its error; a url whose failure is not worth
    * retrying, or which was retried MaxRetries times, is skipped. */
  function Decide(t: Tables, faults: map<Stmt, Error>, b: string, decode: string -> Result<int>,
                  matches: (string, string) -> bool): Decision
  {
    match decode(b)
    case Err(e) => Abort(e)
    case Ok(id) =>
      if GetUrlStmt in faults then Abort(faults[GetUrlStmt])
      else
        match GetUrl(t, id)
        case Err(e) => Abort(e)
        case Ok(failed) =>
          if !ShouldRetry(failed, matches) then Skip
          else if failed.retries.n >= MaxRetries then Skip
          else Retry(failed)
  }

  /** The failed list once its oldest event, the last one, was popped. */
  function Popped(lists: map<string, seq<string>>, queue: string): map<string, seq<string>>
    requires List(lists, FailedQueue(queue)) != []
  {
    var s := List(lists, FailedQueue(queue));
    lists[FailedQueue(queue) := s[..|s| - 1]]
  }

  /** The lists after RetryDownloadURL's removal of the event `b` from the
    * failed download-url list; a failed removal leaves them as they were. */
  function AfterRemFailed(lists: map<string, seq<string>>, faults: map<Command, Error>, b: string): map<string, seq<string>>
  {
    if LRemCmd in faults then lists else Unfailed(lists, DownloadUrlQueue, b)
  }

  class Retrier {
    const broker: ApiBroker.Broker
    const manager: Server
    const store: Store

    constructor (broker: ApiBroker.Broker, manager: Server, store: Store)
      ensures this.broker == broker && this.manager == manager && this.store == store
    {
      this.broker := broker;
      this.manager := manager;
      this.store := store;
    }

    /** The retrier shares the manager's broker and store. */
    predicate Wired()
      reads this, manager
    {
      broker == manager.broker && store == manager.store
    }

    /** retry: the manager creates the url again, with one more retry. */
    method RetryURL(failed: Url, now: int, encode: UrlEvent -> string) returns (r: Result<Url>)
      requires Wired() && store.Valid()
      modifies store, broker.redis
      ensures store.Valid() && store.faults == old(store.faults) && store.tx == old(store.tx)
      ensures broker.redis.faults == old(broker.redis.faults)
      ensures CreateUrlStmt in store.faults ==>
        (r == Err(store.faults[CreateUrlStmt]) && store.tables == old(store.tables)
         && broker.redis.lists == old(broker.redis.lists))
      ensures CreateUrlStmt !in store.faults ==>
        (var (t', u) := InsertUrl(old(store.tables), failed.url, RetriesColumn(RetryPayload(failed)), now);
         r == Ok(u) && store.tables == t'
         && broker.redis.lists == Announced(old(broker.redis.lists), encode(UrlEvent(u.id, u.url)), broker.redis.faults))
    {
      r := manager.CreateURL(RetryPayload(failed), now, encode);
    }

    /** RetryNextDownloadURL: an empty failed list is not an error; the
      * popped event is lost whatever the decision. */
    method RetryNextDownloadURL(now: int, decode: string -> Result<int>, encode: UrlEvent -> string,
                                matches: (string, string) -> bool)
      returns (err: Option<Error>)
      requires Wired() && store.Valid()
      modifies store, broker.redis
      ensures store.Valid() && store.faults == old(store.faults) && store.tx == old(store.tx)
      ensures broker.redis.faults == old(broker.redis.faults)
      ensures RPopCmd in broker.redis.faults ==>
        err == (if broker.redis.faults[RPopCmd] == RedisNil then None else Some(broker.redis.faults[RPopCmd]))
        && store.tables == old(store.tables)
        && broker.redis.lists == old(broker.redis.lists)
      ensures RPopCmd !in broker.redis.faults && old(broker.redis.Get(FailedQueue(DownloadUrlQueue))) == [] ==>
        err.None? && store.tables == old(store.tables) && broker.redis.lists == old(broker.redis.lists)
      ensures RPopCmd !in broker.redis.faults && old(broker.redis.Get(FailedQueue(DownloadUrlQueue))) != [] ==>
        (var s := old(broker.redis.Get(FailedQueue(DownloadUrlQueue)));
         var lists1 := Popped(old(broker.redis.lists), DownloadUrlQueue);
         match Decide(old(store.tables), store.faults, s[|s| - 1], decode, matches)
         case Skip => err.None? && store.tables == old(store.tables) && broker.redis.lists == lists1
         case Abort(e) => err == Some(e) && store.tables == old(store.tables) && broker.redis.lists == lists1
         case Retry(failed) =>
           if CreateUrlStmt in store.faults then
             err == Some(store.faults[CreateUrlStmt]) && store.tables == old(store.tables)
             && broker.redis.lists == lists1
           else
             var (t', u) := InsertUrl(old(store.tables), failed.url, RetriesColumn(RetryPayload(failed)), now);
             err.None? && store.tables == t'
             && broker.redis.lists == Announced(lists1, encode(UrlEvent(u.id, u.url)), broker.redis.faults))
    {
      var popped := broker.PopNextFailed(DownloadUrlQueue);
      if popped.Err? {
        if popped.error == RedisNil {
          return None;
        }
        return Some(popped.error);
      }
      ghost var d := Decide(store.tables, store.faults, popped.value, decode, matches);
      var e := decode(popped.value);
      if e.Err? {
        return Some(e.error);
      }
      var failed := store.GetURL(e.value);
      if failed.Err? {
        return Some(failed.error);
      }
      if !ShouldRetry(failed.value, matches) {
        return None;
      }
      if failed.value.retries.n >= MaxRetries {
        return None;
      }
      assert d == Retry(failed.value);
      var created := RetryURL(failed.value, now, encode);
      err := if created.Err? then Some(created.error) else None;
    }

    /** RetryDownloadURL: the event naming the url `id` is removed from the
      * failed list, then the url is created again whatever its failure and
      * its count of retries. The event is the encoding of an event with that
      * id and no address; a nil answer from the removal is not an error. */
    method RetryDownloadURL(id: int, now: int, encode: UrlEvent -> string) returns (r: Result<Url>)
      requires Wired() && store.Valid()
      modifies store, broker.redis
      ensures store.Valid() && store.faults == old(store.faults) && store.tx == old(store.tx)
      ensures broker.redis.faults == old(broker.redis.faults)
      ensures LRemCmd in broker.redis.faults && broker.redis.faults[LRemCmd] != RedisNil ==>
        r == Err(broker.redis.faults[LRemCmd]) && store.tables == old(store.tables)
        && broker.redis.lists == old(broker.redis.lists)
      ensures (LRemCmd !in broker.redis.faults || broker.redis.faults[LRemCmd] == RedisNil) ==>
        var lists1 := AfterRemFailed(old(broker.redis.lists), broker.redis.faults, encode(UrlEvent(id, "")));
        if GetUrlStmt in store.faults then
          r == Err(store.faults[GetUrlStmt]) && store.tables == old(store.tables) && broker.redis.lists == lists1
        else
          match GetUrl(old(store.tables), id)
          case Err(e) =>
            r == Err(e) && store.tables == old(store.tables) && broker.redis.lists == lists1
          case Ok(failed) =>
            if CreateUrlStmt in store.faults then
              r == Err(store.faults[CreateUrlStmt]) && store.tables == old(store.tables)
              && broker.redis.lists == lists1
            else
              var (t', u) := InsertUrl(old(store.tables), failed.url, RetriesColumn(RetryPayload(failed)), now);
              r == Ok(u) && store.tables == t'
              && broker.redis.lists == Announced(lists1, encode(UrlEvent(u.id, u.url)), broker.redis.faults)
    {
      var b := encode(UrlEvent(id, ""));
      var remErr := broker.RemFailed(DownloadUrlQueue, b);
      if remErr.Some? && remErr.value != RedisNil {
        return Err(remErr.value);
      }
      var failed := store.GetURL(id);
      if failed.Err? {
        return Err(failed.error);
      }
      r := RetryURL(failed.value, now, encode);
    }
  }

  /** Only a url whose failure is worth retrying and whose count is under the
    * cap is retried, and it is the url the event names. */
  lemma RetriedOnlyIfRetryable(t: Tables, faults: map<Stmt, Error>, b: string, decode: string -> Result<int>,
                               matches: (string, string) -> bool)
    requires Decide(t, faults, b, decode, matches).Retry?
    ensures var failed := Decide(t, faults, b, decode, matches).failed;
      decode(b).Ok? && GetUrl(t, decode(b).value) == Ok(failed) && failed.id == decode(b).value
      && ShouldRetry(failed, matches) && failed.retries.n < MaxRetries
      && RetryPayload(failed).retries <= MaxRetries
  {
  }

  /** A url whose failure is worth retrying and whose count is under the cap
    * is retried when the lookup succeeds. */
  lemma RetryableIsRetried(t: Tables, faults: map<Stmt, Error>, b: string, decode: string -> Result<int>,
                           matches: (string, string) -> bool)
    requires decode(b).Ok? && GetUrlStmt !in faults && GetUrl(t, decode(b).value).Ok?
    requires var failed := GetUrl(t, decode(b).value).value;
      ShouldRetry(failed, matches) && failed.retries.n < MaxRetries
    ensures Decide(t, faults, b, decode, matches) == Retry(GetUrl(t, decode(b).value).value)
  {
  }

  /** A url retried MaxRetries times is never retried again. */
  lemma CapStopsRetries(t: Tables, faults: map<Stmt, Error>, b: string, decode: string -> Result<int>,
                        matches: (string, string) -> bool)
    requires decode(b).Ok? && GetUrl(t, decode(b).value).Ok?
    requires GetUrl(t, decode(b).value).value.retries.n >= MaxRetries
    ensures !Decide(t, faults, b, decode, matches).Retry?
  {
  }

  /** A retry creates a new pending url for the same address whose count of
    * retries is one more than the failed one's, stored as a non-NULL column
    * that GetURL reads back. */
  lemma RetryCountsOneMore(t: Tables, failed: Url, now: int)
    requires UrlTables.Valid(t) && failed.retries.n >= 0
    ensures var (t', u) := InsertUrl(t, failed.url, RetriesColumn(RetryPayload(failed)), now);
      GetUrl(t', u.id) == Ok(u) && u.status == "pending" && u.url == failed.url
      && u.retries == NullInt(failed.retries.n + 1, true)
  {
    CreatedIsAnnounced(t, RetryPayload(failed), now);
  }
}
