// The retrier of the first generation (service/retrier.go): it pops the
// oldest failed url-created event and creates the url again through the
// manager with one more retry, unless the url was retried five times. Its
// broker needs PopNextFailed, which only the api generation's broker has;
// its manager is the first generation's, which keeps only the payload's
// url. The decoding of the popped event is a parameter.

module LegacyRetrier {
  import opened Common
  import opened UrlModel
  import opened UrlTables
  import opened UrlStore
  import opened RedisLists
  import opened LegacyStore
  import ApiBroker
  import opened LegacyManager

  class Retrier {
    const broker: ApiBroker.Broker
    const manager: Manager
    const store: LegacyStore.Store

    constructor (broker: ApiBroker.Broker, manager: Manager, store: LegacyStore.Store)
      ensures this.broker == broker && this.manager == manager && this.store == store
    {
      this.broker := broker;
      this.manager := manager;
      this.store := store;
    }

    /** The retrier shares the manager's redis and store. */
    predicate Wired()
      reads this, manager, manager.broker, broker
    {
      broker.redis == manager.broker.redis && store == manager.store
    }

    /** RetryNext: the decision is RetryLastFailed's; the payload asks for
      * one more retry, which the manager does not store. */
    method RetryNext(now: int, decode: string -> Result<int>, encode: int -> string) returns (err: Option<Error>)
      requires Wired() && store.Valid()
      modifies store, broker.redis
      ensures store.Valid() && store.faults == old(store.faults) && broker.redis.faults == old(broker.redis.faults)
      ensures RPopCmd in broker.redis.faults ==>
        err == (if broker.redis.faults[RPopCmd] == RedisNil then None else Some(broker.redis.faults[RPopCmd]))
        && store.tables == old(store.tables) && broker.redis.lists == old(broker.redis.lists)
      ensures RPopCmd !in broker.redis.faults && old(broker.redis.Get(FailedQueue(UrlCreatedQueue))) == [] ==>
        err.None? && store.tables == old(store.tables) && broker.redis.lists == old(broker.redis.lists)
      ensures RPopCmd !in broker.redis.faults && old(broker.redis.Get(FailedQueue(UrlCreatedQueue))) != [] ==>
        (var q := old(broker.redis.Get(FailedQueue(UrlCreatedQueue)));
         var popped := State(old(store.tables), old(broker.redis.lists)[FailedQueue(UrlCreatedQueue) := q[..|q| - 1]]);
         match Decide(old(store.tables), store.faults, q[|q| - 1], decode)
         case Skip => err.None? && State(store.tables, broker.redis.lists) == popped
         case Abort(e) => err == Some(e) && State(store.tables, broker.redis.lists) == popped
         case Retry(last) =>
           var (s', _, e) := Created(popped, NewUrl(0, last.url, ""), now, encode, store.faults, broker.redis.faults);
           err == e && State(store.tables, broker.redis.lists) == s')
    {
      var b := broker.PopNextFailed(UrlCreatedQueue);
      if b.Err? {
        if b.error == RedisNil {
          return None;
        }
        return Some(b.error);
      }
      ghost var d := Decide(store.tables, store.faults, b.value, decode);
      var e := decode(b.value);
      if e.Err? {
        return Some(e.error);
      }
      var last := store.GetURL(e.value);
      if last.Err? {
        return Some(last.error);
      }
      // The status is compared with "failed" only to log a problem.
      if last.value.retries.n >= 5 {
        return None;
      }
      assert d == Retry(last.value);
      var _, cerr := manager.CreateURL(last.value.url, now, encode);
      err := cerr;
    }
  }

  /** Through the first generation's manager the count of retries is lost:
    * the url a retry creates has a NULL count, so the next retry of it sees
    * zero retries again and the cap of five never stops the chain. */
  lemma RetryCountLost(s: State, last: Url, now: int, encode: int -> string,
                       sfaults: map<Stmt, Error>, rfaults: map<Command, Error>, decode: string -> Result<int>, b: string)
    requires UrlTables.Valid(s.tables) && CreateUrlStmt !in sfaults && GetUrlStmt !in sfaults
    ensures var (s', u, _) := Created(s, NewUrl(0, last.url, ""), now, encode, sfaults, rfaults);
      GetAnyUrl(s'.tables, u.id).Ok? && GetAnyUrl(s'.tables, u.id).value.retries == NullInt0
      && (decode(b) == Ok(u.id) ==> Decide(s'.tables, sfaults, b, decode) == Retry(GetAnyUrl(s'.tables, u.id).value))
  {
    CreatedThenSent(s, NewUrl(0, last.url, ""), now, encode, sfaults, rfaults);
    var (t', v) := InsertUrl(s.tables, last.url, NullInt0, now);
    assert t'.rows[|s.tables.rows|].url == v;
    assert GetAnyUrl(t', v.id) == Ok(v) by {
      InsertUrlFound(s.tables, last.url, NullInt0, now);
      GetUrlAgrees(t', v.id);
    }
  }
}
