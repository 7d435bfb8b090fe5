// The manager of the first generation (manager/manager.go): it creates a url
// and announces it on the "url-created" queue by its id, imports a playlist
// video by video, retries the last failed url, and hands listings to the
// store. Its ProcessURL and processURL are the same code as
// manager/worker.go and are modelled once, in LegacyWorker. The JSON
// encoding of events, the decoding of popped events and the playlist fetch
// are parameters.

module LegacyManager {
  import opened Common
  import opened UrlModel
  import opened UrlTables
  import opened UrlStore
  import opened RedisLists
  import opened LegacyStore
  import LegacyBroker

  const UrlCreatedQueue := "url-created"
  const WatchPrefix := "https://www.youtube.com/watch?v="

  /** The database and the redis lists together. */
  datatype State = State(tables: Tables, lists: map<string, seq<string>>)

  /** createURL: the url is stored first; only then is its id, encoded,
    * pushed on the url-created queue, whose error is the call's. The url
    * comes back with the columns the insert filled in, or as given when the
    * insert failed. */
  function Created(s: State, u: Url, now: int, encode: int -> string,
                   sfaults: map<Stmt, Error>, rfaults: map<Command, Error>): (State, Url, Option<Error>)
  {
    if CreateUrlStmt in sfaults then (s, u, Some(sfaults[CreateUrlStmt]))
    else
      var (t', v) := InsertUrl(s.tables, u.url, u.retries, now);
      var u' := u.(id := v.id, createdAt := v.createdAt, updatedAt := v.updatedAt, status := v.status);
      if LPushCmd in rfaults then (State(t', s.lists), u', Some(rfaults[LPushCmd]))
      else (State(t', s.lists[UrlCreatedQueue := [encode(v.id)] + List(s.lists, UrlCreatedQueue)]), u', None)
  }

  /** CreateYoutubeVideo's result for `youtubeId`. */
  function VideoResult(t: Tables, youtubeId: string, now: int, sfaults: map<Stmt, Error>): Result<(Tables, Video)>
  {
    if CreateVideoStmt in sfaults then Err(sfaults[CreateVideoStmt]) else InsertVideoOnConflict(t, youtubeId, now)
  }

  /** The state and error once the loop of CreateURLsFromYoutube has run on
    * `ids`: a known video (ErrNoRows) is skipped, any other error stops the
    * loop, and a new video gets a url for its watch page. */
  function ImportFrom(s: State, ids: seq<string>, now: int, encode: int -> string,
                      sfaults: map<Stmt, Error>, rfaults: map<Command, Error>): (State, Option<Error>)
    decreases |ids|
  {
    if ids == [] then (s, None)
    else
      match VideoResult(s.tables, ids[0], now, sfaults)
      case Err(e) =>
        if e == ErrNoRows then ImportFrom(s, ids[1..], now, encode, sfaults, rfaults) else (s, Some(e))
      case Ok((t', _)) =>
        var (s2, _, err) := Created(State(t', s.lists), NewUrl(0, WatchPrefix + ids[0], ""), now, encode, sfaults, rfaults);
        if err.Some? then (s2, err) else ImportFrom(s2, ids[1..], now, encode, sfaults, rfaults)
  }

  /** What RetryLastFailed does with a popped event. */
  datatype Decision = Skip | Abort(err: Error) | Retry(last: Url)

  /** The decision on the popped event `b`: the status of the url is not
    * looked at, only its count of retries. */
  function Decide(t: Tables, sfaults: map<Stmt, Error>, b: string, decode: string -> Result<int>): Decision
  {
    match decode(b)
    case Err(e) => Abort(e)
    case Ok(id) =>
      if GetUrlStmt in sfaults then Abort(sfaults[GetUrlStmt])
      else
        match GetAnyUrl(t, id)
        case Err(e) => Abort(e)
        case Ok(last) => if last.retries.n >= 5 then Skip else Retry(last)
  }

  /** The url RetryLastFailed creates for `last`: its address, with a valid
    * count of retries one more than the last one's. */
  function RetryUrl(last: Url): (u: Url)
    ensures u.url == last.url && u.retries == NullInt(last.retries.n + 1, true)
  {
    NewUrl(0, last.url, "").(retries := NullInt(last.retries.n + 1, true))
  }

  class Manager {
    const broker: LegacyBroker.Broker
    const store: LegacyStore.Store

    constructor (broker: LegacyBroker.Broker, store: LegacyStore.Store)
      ensures this.broker == broker && this.store == store
    {
      this.broker := broker;
      this.store := store;
    }

    /** createURL */
    method CreateAndSend(u: Url, now: int, encode: int -> string) returns (u': Url, err: Option<Error>)
      requires store.Valid()
      modifies store, broker.redis
      ensures store.Valid() && store.faults == old(store.faults) && broker.redis.faults == old(broker.redis.faults)
      ensures (State(store.tables, broker.redis.lists), u', err)
        == Created(State(old(store.tables), old(broker.redis.lists)), u, now, encode, store.faults, broker.redis.faults)
    {
      var created := store.CreateURL(u, now);
      if created.Err? {
        return u, Some(created.error);
      }
      u' := created.value;
      err := broker.Send(UrlCreatedQueue, encode(u'.id));
    }

    /** CreateURL: only the payload's url is kept; the url is returned even
      * when an error is. */
    method CreateURL(url: string, now: int, encode: int -> string) returns (u: Url, err: Option<Error>)
      requires store.Valid()
      modifies store, broker.redis
      ensures store.Valid() && store.faults == old(store.faults) && broker.redis.faults == old(broker.redis.faults)
      ensures (State(store.tables, broker.redis.lists), u, err)
        == Created(State(old(store.tables), old(broker.redis.lists)), NewUrl(0, url, ""), now, encode,
                   store.faults, broker.redis.faults)
    {
      u, err := CreateAndSend(NewUrl(0, url, ""), now, encode);
    }

    /** CreateURLsFromYoutube: a failed fetch of the playlist is returned
      * before any video is looked at. */
    method CreateURLsFromYoutube(videos: Result<seq<string>>, now: int, encode: int -> string) returns (err: Option<Error>)
      requires store.Valid()
      modifies store, broker.redis
      ensures store.Valid() && store.faults == old(store.faults) && broker.redis.faults == old(broker.redis.faults)
      ensures videos.Err? ==>
        err == Some(videos.error) && store.tables == old(store.tables) && broker.redis.lists == old(broker.redis.lists)
      ensures videos.Ok? ==>
        (State(store.tables, broker.redis.lists), err)
        == ImportFrom(State(old(store.tables), old(broker.redis.lists)), videos.value, now, encode,
                      store.faults, broker.redis.faults)
    {
      if videos.Err? {
        return Some(videos.error);
      }
      var ids := videos.value;
      var i := 0;
      while i < |ids|
        invariant 0 <= i <= |ids|
        invariant store.Valid() && store.faults == old(store.faults) && broker.redis.faults == old(broker.redis.faults)
        invariant ImportFrom(State(store.tables, broker.redis.lists), ids[i..], now, encode, store.faults, broker.redis.faults)
          == ImportFrom(State(old(store.tables), old(broker.redis.lists)), ids, now, encode, store.faults, broker.redis.faults)
      {
        var youtubeId := ids[i];
        assert ids[i..][0] == youtubeId && ids[i..][1..] == ids[i + 1..];
        var v := store.CreateYoutubeVideo(youtubeId, now);
        if v.Err? {
          if v.error != ErrNoRows {
            return Some(v.error);
          }
        } else {
          var _, e := CreateURL(WatchPrefix + youtubeId, now, encode);
          if e.Some? {
            return e;
          }
        }
        i := i + 1;
      }
      err := None;
    }

    /** RetryLastFailed: an empty failed list is not an error; the popped
      * event is lost whatever the decision. */
    method RetryLastFailed(now: int, decode: string -> Result<int>, encode: int -> string) returns (err: Option<Error>)
      requires store.Valid()
      modifies store, broker.redis
      ensures store.Valid() && store.faults == old(store.faults) && broker.redis.faults == old(broker.redis.faults)
      ensures RPopCmd in broker.redis.faults ==>
        err == (if broker.redis.faults[RPopCmd] == RedisNil then None else Some(broker.redis.faults[RPopCmd]))
        && store.tables == old(store.tables) && broker.redis.lists == old(broker.redis.lists)
      ensures RPopCmd !in broker.redis.faults && old(broker.redis.Get(FailedQueue(UrlCreatedQueue))) == [] ==>
        err.None? && store.tables == old(store.tables) && broker.redis.lists == old(broker.redis.lists)
      ensures RPopCmd !in broker.redis.faults && old(broker.redis.Get(FailedQueue(UrlCreatedQueue))) != [] ==>
        (var q := old(broker.redis.Get(FailedQueue(UrlCreatedQueue)));
         var popped := State(old(store.tables), old(broker.redis.lists)[FailedQueue(UrlCreatedQueue) := q[..|q| - 1]]);
         match Decide(old(store.tables), store.faults, q[|q| - 1], decode)
         case Skip => err.None? && State(store.tables, broker.redis.lists) == popped
         case Abort(e) => err == Some(e) && State(store.tables, broker.redis.lists) == popped
         case Retry(last) =>
           var (s', _, e) := Created(popped, RetryUrl(last), now, encode, store.faults, broker.redis.faults);
           err == e && State(store.tables, broker.redis.lists) == s')
    {
      var b := broker.PopLastFailed(UrlCreatedQueue);
      if b.Err? {
        if b.error == RedisNil {
          return None;
        }
        return Some(b.error);
      }
      ghost var d := Decide(store.tables, store.faults, b.value, decode);
      var e := decode(b.value);
      if e.Err? {
        return Some(e.error);
      }
      var last := store.GetURL(e.value);
      if last.Err? {
        return Some(last.error);
      }
      // The status is compared with "failed" only to log a problem.
      if last.value.retries.n >= 5 {
        return None;
      }
      assert d == Retry(last.value);
      var _, cerr := CreateAndSend(RetryUrl(last.value), now, encode);
      err := cerr;
    }

    /** ListURLs */
    method ListURLs(page: Page) returns (r: Result<seq<Url>>)
      ensures ListUrlsStmt in store.faults ==> r == Err(store.faults[ListUrlsStmt])
      ensures ListUrlsStmt !in store.faults ==> r == ListPage(store.tables, page)
    {
      r := store.ListURLs(page);
    }

    /** ListLogs */
    method ListLogs(urlId: int, page: Page) returns (r: Result<seq<string>>)
      ensures ListLogsStmt in store.faults ==> r == Err(store.faults[ListLogsStmt])
      ensures ListLogsStmt !in store.faults ==> r == Ok(LogsPage(store.tables, urlId, page))
    {
      r := store.ListLogs(urlId, page);
    }
  }

  /** A youtube id that is a video of the tables. */
  predicate IsVideo(t: Tables, youtubeId: string)
  {
    exists j :: 0 <= j < |t.videos| && t.videos[j].youtubeId == youtubeId
  }

  /** The url is stored before its event is sent, and the event names the
    * stored row: a pending url for the same address, which GetURL finds. */
  lemma CreatedThenSent(s: State, u: Url, now: int, encode: int -> string,
                        sfaults: map<Stmt, Error>, rfaults: map<Command, Error>)
    requires UrlTables.Valid(s.tables) && CreateUrlStmt !in sfaults
    ensures var (s', u', err) := Created(s, u, now, encode, sfaults, rfaults);
      UrlTables.Valid(s'.tables) && GetAnyUrl(s'.tables, u'.id).Ok?
      && GetAnyUrl(s'.tables, u'.id).value.url == u.url
      && GetAnyUrl(s'.tables, u'.id).value.status == "pending"
      && (err.None? <==> LPushCmd !in rfaults)
      && (err.None? ==> List(s'.lists, UrlCreatedQueue) == [encode(u'.id)] + List(s.lists, UrlCreatedQueue))
  {
    InsertUrlFound(s.tables, u.url, u.retries, now);
    var (t', v) := InsertUrl(s.tables, u.url, u.retries, now);
    GetUrlAgrees(t', v.id);
  }

  /** A store error sends nothing and stores nothing. */
  lemma StoreErrorSendsNothing(s: State, u: Url, now: int, encode: int -> string,
                               sfaults: map<Stmt, Error>, rfaults: map<Command, Error>)
    requires CreateUrlStmt in sfaults
    ensures Created(s, u, now, encode, sfaults, rfaults) == (s, u, Some(sfaults[CreateUrlStmt]))
  {
  }

  /** The import only adds videos: the videos already known stay, in
    * order. */
  lemma {:induction false} ImportKeepsVideos(s: State, ids: seq<string>, now: int, encode: int -> string,
                                             sfaults: map<Stmt, Error>, rfaults: map<Command, Error>)
    ensures var (s', _) := ImportFrom(s, ids, now, encode, sfaults, rfaults);
      |s.tables.videos| <= |s'.tables.videos| && s'.tables.videos[..|s.tables.videos|] == s.tables.videos
    decreases |ids|
  {
    if ids != [] {
      match VideoResult(s.tables, ids[0], now, sfaults)
      case Err(e) =>
        if e == ErrNoRows {
          ImportKeepsVideos(s, ids[1..], now, encode, sfaults, rfaults);
        }
      case Ok((t', _)) =>
        var (s2, _, err) := Created(State(t', s.lists), NewUrl(0, WatchPrefix + ids[0], ""), now, encode, sfaults, rfaults);
        assert s2.tables.videos == s.tables.videos + [VideoResult(s.tables, ids[0], now, sfaults).value.1];
        if err.None? {
          ImportKeepsVideos(s2, ids[1..], now, encode, sfaults, rfaults);
          var (s', _) := ImportFrom(s2, ids[1..], now, encode, sfaults, rfaults);
          assert s'.tables.videos[..|s.tables.videos|] == s2.tables.videos[..|s2.tables.videos|][..|s.tables.videos|];
        }
    }
  }

  /** Without store or queue failures, the import succeeds and every video of
    * the playlist is recorded. */
  lemma {:induction false} ImportRecordsAll(s: State, ids: seq<string>, now: int, encode: int -> string,
                                            sfaults: map<Stmt, Error>, rfaults: map<Command, Error>)
    requires CreateVideoStmt !in sfaults && CreateUrlStmt !in sfaults && LPushCmd !in rfaults
    ensures var (s', err) := ImportFrom(s, ids, now, encode, sfaults, rfaults);
      err.None? && forall k :: 0 <= k < |ids| ==> IsVideo(s'.tables, ids[k])
    decreases |ids|
  {
    if ids != [] {
      var r := VideoResult(s.tables, ids[0], now, sfaults);
      var s2: State;
      if r.Err? {
        s2 := s;
      } else {
        var (t', v) := r.value;
        s2 := Created(State(t', s.lists), NewUrl(0, WatchPrefix + ids[0], ""), now, encode, sfaults, rfaults).0;
        assert s2.tables.videos[|s.tables.videos|] == v;
      }
      assert IsVideo(s2.tables, ids[0]);
      ImportRecordsAll(s2, ids[1..], now, encode, sfaults, rfaults);
      ImportKeepsVideos(s2, ids[1..], now, encode, sfaults, rfaults);
      var (s', _) := ImportFrom(s2, ids[1..], now, encode, sfaults, rfaults);
      assert ImportFrom(s, ids, now, encode, sfaults, rfaults).0 == s';
      var j :| 0 <= j < |s2.tables.videos| && s2.tables.videos[j].youtubeId == ids[0];
      assert s'.tables.videos[j] == s2.tables.videos[j];
      forall k | 0 <= k < |ids|
        ensures IsVideo(s'.tables, ids[k])
      {
        if k > 0 {
          assert ids[k] == ids[1..][k - 1];
        }
      }
    }
  }

  /** Importing a playlist whose videos are all known changes nothing and
    * succeeds: importing the same playlist twice creates its urls once. */
  lemma {:induction false} KnownVideosSkipped(s: State, ids: seq<string>, now: int, encode: int -> string,
                                              sfaults: map<Stmt, Error>, rfaults: map<Command, Error>)
    requires CreateVideoStmt !in sfaults
    requires forall k :: 0 <= k < |ids| ==> IsVideo(s.tables, ids[k])
    ensures ImportFrom(s, ids, now, encode, sfaults, rfaults) == (s, None)
    decreases |ids|
  {
    if ids != [] {
      assert IsVideo(s.tables, ids[0]);
      assert forall k :: 0 <= k < |ids[1..]| ==> ids[1..][k] == ids[k + 1];
      KnownVideosSkipped(s, ids[1..], now, encode, sfaults, rfaults);
    }
  }

  /** A url retried five times is not retried again, and the url a retry
    * creates has a count one higher, whatever the last url's status. */
  lemma RetryCapped(t: Tables, sfaults: map<Stmt, Error>, b: string, decode: string -> Result<int>)
    ensures Decide(t, sfaults, b, decode).Retry? ==>
      var last := Decide(t, sfaults, b, decode).last;
      decode(b).Ok? && GetAnyUrl(t, decode(b).value) == Ok(last) && last.retries.n < 5
      && RetryUrl(last).retries.n == last.retries.n + 1 && RetryUrl(last).retries.n <= 5
    ensures decode(b).Ok? && GetUrlStmt !in sfaults && GetAnyUrl(t, decode(b).value).Ok? ==>
      (Decide(t, sfaults, b, decode).Retry? <==> GetAnyUrl(t, decode(b).value).value.retries.n < 5)
  {
  }
}
