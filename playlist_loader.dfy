// The playlist loader of the api generation (api/service/playlist-loader.go)
// and the transaction helper it runs in (api/store/transaction.go). Each
// video of a playlist is looked up by its youtube id; a new one gets its
// video row and the url of its watch page in one transaction. The loader
// here ends its transaction with UrlStore.Store.EndTransaction, which keeps
// the commit's error; as written the helper drops it
// (UrlStore.Store.EndTransactionAsWritten). The playlist fetch and the
// encoding of events are parameters.

module PlaylistLoader {
  import opened Common
  import opened UrlModel
  import opened UrlTables
  import opened UrlStore
  import opened RedisLists
  import opened ManagerServer

  const WatchPrefix := "https://www.youtube.com/watch?v="

  /** The database and the redis lists together. */
  datatype World = World(tables: Tables, lists: map<string, seq<string>>)

  /** The payload of a video's url. */
  function WatchPayload(youtubeId: string): UrlPayload
  {
    UrlPayload(WatchPrefix + youtubeId, 0)
  }

  /** The function run in the transaction: the video row, then the url of its
    * watch page through the manager, which also announces it. The video is
    * the one CreateYoutubeVideo filled in. */
  function Body(w: World, youtubeId: string, now: int, encode: UrlEvent -> string,
                sfaults: map<Stmt, Error>, rfaults: map<Command, Error>): (World, Option<Error>, Video)
  {
    var v0 := Video(0, youtubeId, 0);
    if CreateVideoStmt in sfaults then (w, Some(sfaults[CreateVideoStmt]), v0)
    else
      match InsertVideo(w.tables, youtubeId, now)
      case Err(e) => (w, Some(e), v0)
      case Ok((t1, v)) =>
        if CreateUrlStmt in sfaults then (World(t1, w.lists), Some(sfaults[CreateUrlStmt]), v)
        else
          var (t2, u) := InsertUrl(t1, WatchPrefix + youtubeId, RetriesColumn(WatchPayload(youtubeId)), now);
          (World(t2, Announced(w.lists, encode(UrlEvent(u.id, u.url)), rfaults)), None, v)
  }

  /** The rows as they were at BEGIN; the serial sequences are not rolled
    * back. */
  function RollBack(snapshot: Tables, t: Tables): Tables
  {
    snapshot.(nextUrlId := t.nextUrlId, nextVideoId := t.nextVideoId)
  }

  /** getOrCreateYoutubeVideo: a known video is returned; a lookup error
    * other than ErrNoRows is returned; otherwise the transaction runs. */
  function GetOrCreate(w: World, youtubeId: string, now: int, encode: UrlEvent -> string,
                       sfaults: map<Stmt, Error>, rfaults: map<Command, Error>): (World, Result<Video>)
  {
    var lookup := if GetVideoStmt in sfaults then Err(sfaults[GetVideoStmt]) else GetVideo(w.tables, youtubeId);
    if lookup.Ok? || lookup.error != ErrNoRows then (w, lookup)
    else if BeginStmt in sfaults then (w, Err(sfaults[BeginStmt]))
    else
      var (w1, ferr, v) := Body(w, youtubeId, now, encode, sfaults, rfaults);
      var t' := if Committed(ferr, sfaults) then w1.tables else RollBack(w.tables, w1.tables);
      match TransactionError(ferr, sfaults)
      case Some(e) => (World(t', w1.lists), Err(e))
      case None => (World(t', w1.lists), Ok(v))
  }

  /** getOrCreateYoutubeVideo over the transaction helper as written, which
    * drops the commit's error when the rollback succeeds. */
  function GetOrCreateAsWritten(w: World, youtubeId: string, now: int, encode: UrlEvent -> string,
                                sfaults: map<Stmt, Error>, rfaults: map<Command, Error>): (World, Result<Video>)
  {
    var lookup := if GetVideoStmt in sfaults then Err(sfaults[GetVideoStmt]) else GetVideo(w.tables, youtubeId);
    if lookup.Ok? || lookup.error != ErrNoRows then (w, lookup)
    else if BeginStmt in sfaults then (w, Err(sfaults[BeginStmt]))
    else
      var (w1, ferr, v) := Body(w, youtubeId, now, encode, sfaults, rfaults);
      var t' := if Committed(ferr, sfaults) then w1.tables else RollBack(w.tables, w1.tables);
      match TransactionErrorAsWritten(ferr, sfaults)
      case Some(e) => (World(t', w1.lists), Err(e))
      case None => (World(t', w1.lists), Ok(v))
  }

  /** As written, a new video whose COMMIT fails is returned with no error,
    * yet its row is not there: the caller goes on as if it were stored. */
  lemma SwallowedCommitLosesVideo(w: World, youtubeId: string, now: int, encode: UrlEvent -> string,
                                  e: Error, rfaults: map<Command, Error>)
    requires GetVideo(w.tables, youtubeId).Err?
    ensures var (w', r) := GetOrCreateAsWritten(w, youtubeId, now, encode, map[CommitStmt := e], rfaults);
      r.Ok? && r.value.youtubeId == youtubeId && GetVideo(w'.tables, youtubeId).Err?
  {
    var sf := map[CommitStmt := e];
    var (w1, ferr, v) := Body(w, youtubeId, now, encode, sf, rfaults);
    assert ferr.None?;
    assert RollBack(w.tables, w1.tables).videos == w.tables.videos;
  }

  /** The loop of CreateURLsFromYoutube: the videos in playlist order, up to
    * the first error. */
  function LoadFrom(w: World, ids: seq<string>, now: int, encode: UrlEvent -> string,
                    sfaults: map<Stmt, Error>, rfaults: map<Command, Error>): (World, Option<Error>)
    decreases |ids|
  {
    if ids == [] then (w, None)
    else
      var (w1, r) := GetOrCreate(w, ids[0], now, encode, sfaults, rfaults);
      if r.Err? then (w1, Some(r.error)) else LoadFrom(w1, ids[1..], now, encode, sfaults, rfaults)
  }

  class Loader {
    const manager: Server
    const store: Store

    constructor (manager: Server, store: Store)
      ensures this.manager == manager && this.store == store
    {
      this.manager := manager;
      this.store := store;
    }

    /** The loader shares the manager's store. */
    predicate Wired()
      reads this, manager
    {
      manager.store == store
    }

    /** getOrCreateYoutubeVideo */
    method GetOrCreateYoutubeVideo(youtubeId: string, now: int, encode: UrlEvent -> string) returns (r: Result<Video>)
      requires Wired() && store.Valid() && store.tx.None?
      modifies store, manager.broker.redis
      ensures store.Valid() && store.tx.None? && store.faults == old(store.faults)
      ensures manager.broker.redis.faults == old(manager.broker.redis.faults)
      ensures (World(store.tables, manager.broker.redis.lists), r)
        == GetOrCreate(World(old(store.tables), old(manager.broker.redis.lists)), youtubeId, now, encode,
                       store.faults, manager.broker.redis.faults)
    {
      var found := store.GetYoutubeVideoByYoutubeID(youtubeId);
      if found.Ok? || found.error != ErrNoRows {
        return found;
      }
      var berr := store.BeginTx();
      if berr.Some? {
        return Err(berr.value);
      }
      ghost var w := World(store.tables, manager.broker.redis.lists);
      var ferr: Option<Error> := None;
      var v := Video(0, youtubeId, 0);
      var created := store.CreateYoutubeVideo(youtubeId, now);
      if created.Err? {
        ferr := Some(created.error);
      } else {
        v := created.value;
        var u := manager.CreateURL(WatchPayload(youtubeId), now, encode);
        if u.Err? {
          ferr := Some(u.error);
        }
      }
      assert (World(store.tables, manager.broker.redis.lists), ferr, v)
          == Body(w, youtubeId, now, encode, store.faults, manager.broker.redis.faults);
      var err := store.EndTransaction(ferr);
      if err.Some? {
        return Err(err.value);
      }
      r := Ok(v);
    }

    /** CreateURLsFromYoutube: a failed fetch of the playlist is returned
      * before any video is looked at. */
    method CreateURLsFromYoutube(videos: Result<seq<string>>, now: int, encode: UrlEvent -> string) returns (err: Option<Error>)
      requires Wired() && store.Valid() && store.tx.None?
      modifies store, manager.broker.redis
      ensures store.Valid() && store.tx.None? && store.faults == old(store.faults)
      ensures manager.broker.redis.faults == old(manager.broker.redis.faults)
      ensures videos.Err? ==>
        err == Some(videos.error) && store.tables == old(store.tables)
        && manager.broker.redis.lists == old(manager.broker.redis.lists)
      ensures videos.Ok? ==>
        (World(store.tables, manager.broker.redis.lists), err)
        == LoadFrom(World(old(store.tables), old(manager.broker.redis.lists)), videos.value, now, encode,
                    store.faults, manager.broker.redis.faults)
    {
      if videos.Err? {
        return Some(videos.error);
      }
      var ids := videos.value;
      var i := 0;
      while i < |ids|
        invariant 0 <= i <= |ids|
        invariant store.Valid() && store.tx.None? && store.faults == old(store.faults)
        invariant manager.broker.redis.faults == old(manager.broker.redis.faults)
        invariant LoadFrom(World(store.tables, manager.broker.redis.lists), ids[i..], now, encode,
                           store.faults, manager.broker.redis.faults)
          == LoadFrom(World(old(store.tables), old(manager.broker.redis.lists)), ids, now, encode,
                      store.faults, manager.broker.redis.faults)
      {
        assert ids[i..][0] == ids[i] && ids[i..][1..] == ids[i + 1..];
        var r := GetOrCreateYoutubeVideo(ids[i], now, encode);
        if r.Err? {
          return Some(r.error);
        }
        i := i + 1;
      }
      err := None;
    }
  }

  /** A youtube id that is a video of the tables. */
  predicate IsVideo(t: Tables, youtubeId: string)
  {
    exists j :: 0 <= j < |t.videos| && t.videos[j].youtubeId == youtubeId
  }

  /** A known video is returned as it is, and nothing changes. */
  lemma KnownVideoReturned(w: World, youtubeId: string, now: int, encode: UrlEvent -> string,
                           sfaults: map<Stmt, Error>, rfaults: map<Command, Error>)
    requires GetVideoStmt !in sfaults && IsVideo(w.tables, youtubeId)
    ensures GetOrCreate(w, youtubeId, now, encode, sfaults, rfaults) == (w, GetVideo(w.tables, youtubeId))
    ensures GetVideo(w.tables, youtubeId).Ok?
  {
  }

  /** The transaction's body adds the video and its url, or fails having
    * added at most the video; the serial sequences only grow. */
  lemma BodyEffect(w: World, youtubeId: string, now: int, encode: UrlEvent -> string,
                   sfaults: map<Stmt, Error>, rfaults: map<Command, Error>)
    requires UrlTables.Valid(w.tables)
    ensures var (w1, ferr, v) := Body(w, youtubeId, now, encode, sfaults, rfaults);
      UrlTables.Valid(w1.tables)
      && w.tables.nextUrlId <= w1.tables.nextUrlId && w.tables.nextVideoId <= w1.tables.nextVideoId
      && (ferr.None? ==>
            w1.tables.videos == w.tables.videos + [v] && GetVideo(w1.tables, youtubeId) == Ok(v)
            && |w1.tables.rows| == |w.tables.rows| + 1 && w1.tables.rows[..|w.tables.rows|] == w.tables.rows
            && w1.tables.rows[|w.tables.rows|].url.url == WatchPrefix + youtubeId
            && w1.tables.rows[|w.tables.rows|].url.status == "pending")
  {
    if CreateVideoStmt !in sfaults && InsertVideo(w.tables, youtubeId, now).Ok? {
      var (t1, v1) := InsertVideo(w.tables, youtubeId, now).value;
      InsertVideoFound(w.tables, youtubeId, now);
      if CreateUrlStmt !in sfaults {
        InsertUrlFound(t1, WatchPrefix + youtubeId, RetriesColumn(WatchPayload(youtubeId)), now);
        var (t2, u) := InsertUrl(t1, WatchPrefix + youtubeId, RetriesColumn(WatchPayload(youtubeId)), now);
        assert t2.rows[|w.tables.rows|].url == u;
        assert GetVideo(t2, youtubeId) == GetVideo(t1, youtubeId);
      }
    }
  }

  /** A rollback restores the rows and videos of BEGIN, which stay valid
    * with the later sequence values. */
  lemma RollBackValid(snapshot: Tables, t: Tables)
    requires UrlTables.Valid(snapshot)
    requires snapshot.nextUrlId <= t.nextUrlId && snapshot.nextVideoId <= t.nextVideoId
    ensures UrlTables.Valid(RollBack(snapshot, t))
  {
  }

  /** The video row and the url of its watch page are created together or
    * not at all: an error leaves both tables as they were, and a success
    * either finds the video or adds it with one pending url for its watch
    * page. */
  lemma BothOrNeither(w: World, youtubeId: string, now: int, encode: UrlEvent -> string,
                      sfaults: map<Stmt, Error>, rfaults: map<Command, Error>)
    requires UrlTables.Valid(w.tables)
    ensures var (w', r) := GetOrCreate(w, youtubeId, now, encode, sfaults, rfaults);
      UrlTables.Valid(w'.tables)
      && (r.Err? ==> w'.tables.rows == w.tables.rows && w'.tables.videos == w.tables.videos)
      && (r.Ok? ==> GetVideo(w'.tables, youtubeId) == Ok(r.value))
      && ((w'.tables.rows == w.tables.rows && w'.tables.videos == w.tables.videos)
          || (r.Ok? && w'.tables.videos == w.tables.videos + [r.value]
              && |w'.tables.rows| == |w.tables.rows| + 1 && w'.tables.rows[..|w.tables.rows|] == w.tables.rows
              && w'.tables.rows[|w.tables.rows|].url.url == WatchPrefix + youtubeId
              && w'.tables.rows[|w.tables.rows|].url.status == "pending"))
  {
    var lookup := if GetVideoStmt in sfaults then Err(sfaults[GetVideoStmt]) else GetVideo(w.tables, youtubeId);
    if !(lookup.Ok? || lookup.error != ErrNoRows || BeginStmt in sfaults) {
      var (w1, ferr, v) := Body(w, youtubeId, now, encode, sfaults, rfaults);
      BodyEffect(w, youtubeId, now, encode, sfaults, rfaults);
      NilIffCommitted(ferr, sfaults);
      if !Committed(ferr, sfaults) {
        RollBackValid(w.tables, w1.tables);
      }
    }
  }

  /** The same, as the loop needs it: the tables stay valid and the videos
    * already known stay, in order. */
  lemma GetOrCreateKeepsVideos(w: World, youtubeId: string, now: int, encode: UrlEvent -> string,
                               sfaults: map<Stmt, Error>, rfaults: map<Command, Error>)
    requires UrlTables.Valid(w.tables)
    ensures var (w', r) := GetOrCreate(w, youtubeId, now, encode, sfaults, rfaults);
      UrlTables.Valid(w'.tables)
      && |w.tables.videos| <= |w'.tables.videos| && w'.tables.videos[..|w.tables.videos|] == w.tables.videos
      && (r.Ok? ==> IsVideo(w'.tables, youtubeId))
  {
    BothOrNeither(w, youtubeId, now, encode, sfaults, rfaults);
    var (w', r) := GetOrCreate(w, youtubeId, now, encode, sfaults, rfaults);
    if w'.tables.videos != w.tables.videos {
      assert w'.tables.videos[..|w.tables.videos|] == w.tables.videos;
    }
  }

  /** Redis is not part of the transaction: when the commit fails, the url's
    * row is rolled back but its event stays on the queues, naming an id
    * that no row has. */
  lemma EventOutlivesRollback(w: World, youtubeId: string, now: int, encode: UrlEvent -> string,
                              sfaults: map<Stmt, Error>, rfaults: map<Command, Error>)
    requires UrlTables.Valid(w.tables) && !IsVideo(w.tables, youtubeId)
    requires sfaults.Keys == {CommitStmt} && rfaults == map[]
    ensures var (w', r) := GetOrCreate(w, youtubeId, now, encode, sfaults, rfaults);
      var b := encode(UrlEvent(w.tables.nextUrlId, WatchPrefix + youtubeId));
      r == Err(sfaults[CommitStmt]) && w'.tables.rows == w.tables.rows
      && List(w'.lists, DownloadUrlQueue) == [b] + List(w.lists, DownloadUrlQueue)
      && GetUrl(w'.tables, w.tables.nextUrlId) == Err(ErrNoRows)
  {
    var (w', r) := GetOrCreate(w, youtubeId, now, encode, sfaults, rfaults);
    assert forall i :: 0 <= i < |w'.tables.rows| ==> w'.tables.rows[i].url.id < w.tables.nextUrlId;
  }

  /** The loader only adds videos: those already known stay, in order. */
  lemma {:induction false} LoadKeepsVideos(w: World, ids: seq<string>, now: int, encode: UrlEvent -> string,
                                           sfaults: map<Stmt, Error>, rfaults: map<Command, Error>)
    requires UrlTables.Valid(w.tables)
    ensures var (w', _) := LoadFrom(w, ids, now, encode, sfaults, rfaults);
      UrlTables.Valid(w'.tables)
      && |w.tables.videos| <= |w'.tables.videos| && w'.tables.videos[..|w.tables.videos|] == w.tables.videos
    decreases |ids|
  {
    if ids != [] {
      GetOrCreateKeepsVideos(w, ids[0], now, encode, sfaults, rfaults);
      var (w1, r) := GetOrCreate(w, ids[0], now, encode, sfaults, rfaults);
      if r.Ok? {
        LoadKeepsVideos(w1, ids[1..], now, encode, sfaults, rfaults);
        var (w', _) := LoadFrom(w1, ids[1..], now, encode, sfaults, rfaults);
        assert w'.tables.videos[..|w.tables.videos|] == w'.tables.videos[..|w1.tables.videos|][..|w.tables.videos|];
      }
    }
  }

  /** A load that returns nil has recorded every video of the playlist. */
  lemma {:induction false} LoadRecordsAll(w: World, ids: seq<string>, now: int, encode: UrlEvent -> string,
                                          sfaults: map<Stmt, Error>, rfaults: map<Command, Error>)
    requires UrlTables.Valid(w.tables)
    ensures var (w', err) := LoadFrom(w, ids, now, encode, sfaults, rfaults);
      err.None? ==> forall k :: 0 <= k < |ids| ==> IsVideo(w'.tables, ids[k])
    decreases |ids|
  {
    var (w', err) := LoadFrom(w, ids, now, encode, sfaults, rfaults);
    if ids != [] && err.None? {
      GetOrCreateKeepsVideos(w, ids[0], now, encode, sfaults, rfaults);
      var (w1, r) := GetOrCreate(w, ids[0], now, encode, sfaults, rfaults);
      assert r.Ok? && IsVideo(w1.tables, ids[0]);
      LoadRecordsAll(w1, ids[1..], now, encode, sfaults, rfaults);
      LoadKeepsVideos(w1, ids[1..], now, encode, sfaults, rfaults);
      var j :| 0 <= j < |w1.tables.videos| && w1.tables.videos[j].youtubeId == ids[0];
      assert w'.tables.videos[j] == w1.tables.videos[j];
      forall k | 0 <= k < |ids|
        ensures IsVideo(w'.tables, ids[k])
      {
        if k > 0 {
          assert ids[k] == ids[1..][k - 1];
        }
      }
    }
  }
}
