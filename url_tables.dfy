// What the statements of api/store/store.go do to the database.
//
// The `urls` and `youtube_videos` tables are modelled as sequences of rows in
// insertion order; `id` is a serial primary key, so ids are ascending and
// unique, and `youtube_id` is unique. Each statement of the store is a
// function from the tables to its result and the new tables; the class in
// url_store.dfy runs them against its state.

module UrlTables {
  import opened Common
  import opened UrlModel

  /** A row of `urls`: the model.URL columns plus deleted_at and oembed. */
  datatype Row = Row(url: Url, deletedAt: Option<int>, oembed: Option<string>)

  datatype Tables = Tables(rows: seq<Row>, videos: seq<Video>, nextUrlId: int, nextVideoId: int)

  /** query.URLs; a nil Status is None. */
  datatype UrlsQuery = UrlsQuery(cursor: int, limit: int, status: Option<seq<string>>)

  /** Serial ids: ascending, positive and below the sequence's next value. */
  ghost predicate Ascending(rows: seq<Row>, next: int)
  {
    (forall i, j :: 0 <= i < j < |rows| ==> rows[i].url.id < rows[j].url.id)
    && (forall i :: 0 <= i < |rows| ==> 1 <= rows[i].url.id < next)
  }

  ghost predicate VideosUnique(vs: seq<Video>, next: int)
  {
    (forall i, j :: 0 <= i < j < |vs| ==> vs[i].youtubeId != vs[j].youtubeId)
    && (forall i :: 0 <= i < |vs| ==> vs[i].id < next)
  }

  ghost predicate Valid(t: Tables)
  {
    Ascending(t.rows, t.nextUrlId) && VideosUnique(t.videos, t.nextVideoId) && 1 <= t.nextUrlId
  }

  /** The first row `p` selects: the row a QueryRow over `WHERE p` scans. */
  function Find(rows: seq<Row>, p: Row -> bool): (r: Option<nat>)
    ensures r.Some? ==> r.value < |rows| && p(rows[r.value])
    ensures r.Some? ==> forall j :: 0 <= j < r.value ==> !p(rows[j])
    ensures r.None? ==> forall i :: 0 <= i < |rows| ==> !p(rows[i])
  {
    if rows == [] then None
    else if p(rows[0]) then Some(0)
    else
      var r := Find(rows[1..], p);
      if r.None? then None else Some(r.value + 1)
  }

  function HasId(id: int): Row -> bool
  {
    (row: Row) => row.url.id == id
  }

  /** WHERE id = $1 AND status = $2 */
  function HasIdAndStatus(id: int, status: string): Row -> bool
  {
    (row: Row) => row.url.id == id && row.url.status == status
  }

  /** WHERE id = $1 AND deleted_at IS NULL */
  function HasIdAndLive(id: int): Row -> bool
  {
    (row: Row) => row.url.id == id && row.deletedAt.None?
  }

  /** With unique ids, a row found by id is the only row with that id. */
  lemma FoundIsOnly(t: Tables, k: nat, id: int)
    requires Valid(t) && k < |t.rows| && t.rows[k].url.id == id
    ensures forall i :: 0 <= i < |t.rows| && i != k ==> t.rows[i].url.id != id
  {
    forall i | 0 <= i < |t.rows| && i != k
      ensures t.rows[i].url.id != id
    {
      if i < k {
        assert t.rows[i].url.id < t.rows[k].url.id;
      } else {
        assert t.rows[k].url.id < t.rows[i].url.id;
      }
    }
  }

  // ---- CreateURL ----

  /** INSERT INTO urls(url, retries) VALUES(...) RETURNING id, created_at,
    * updated_at, status: a new pending row with the next serial id. */
  function InsertUrl(t: Tables, url: string, retries: NullInt, now: int): (Tables, Url)
  {
    var u := Url(t.nextUrlId, url, now, now, "pending", Null, Null, retries, []);
    (t.(rows := t.rows + [Row(u, None, None)], nextUrlId := t.nextUrlId + 1), u)
  }

  /** The inserted row is pending, carries the url and retries, has a fresh
    * id, and GetURL finds it; nothing else changes. */
  lemma InsertUrlFound(t: Tables, url: string, retries: NullInt, now: int)
    requires Valid(t)
    ensures var (t', u) := InsertUrl(t, url, retries, now);
      Valid(t') && t'.rows[..|t.rows|] == t.rows && t'.videos == t.videos
      && u.status == "pending" && u.url == url && u.retries == retries && u.logs == []
      && (forall i :: 0 <= i < |t.rows| ==> t.rows[i].url.id < u.id)
      && GetUrl(t', u.id) == Ok(u)
  {
    var (t', u) := InsertUrl(t, url, retries, now);
    assert t'.rows[|t.rows|].url == u;
  }

  // ---- LockURL / UnlockURL ----

  /** LockURL's UPDATE ... WHERE id = $ AND status = 'pending' RETURNING url,
    * created_at, updated_at: only a pending row takes the new status; the
    * result is `u` completed from that row, or ErrNoRows. */
  function Lock(t: Tables, u: Url): (r: Result<(Tables, Url)>)
    ensures r.Ok? <==> exists i :: 0 <= i < |t.rows| && t.rows[i].url.id == u.id && t.rows[i].url.status == "pending"
    ensures r.Err? ==> r.error == ErrNoRows
    ensures r.Ok? ==> var (t', u') := r.value;
      t'.videos == t.videos && t'.nextUrlId == t.nextUrlId && |t'.rows| == |t.rows|
      && (forall i :: 0 <= i < |t.rows| ==>
            (t'.rows[i] == t.rows[i]
             || (t.rows[i].url.id == u.id && t.rows[i].url.status == "pending"
                 && t'.rows[i] == t.rows[i].(url := t.rows[i].url.(status := u.status)))))
      && u' == u.(url := u'.url, createdAt := u'.createdAt, updatedAt := u'.updatedAt)
  {
    var k := Find(t.rows, HasIdAndStatus(u.id, "pending"));
    if k.None? then
      assert forall i :: 0 <= i < |t.rows| ==> !HasIdAndStatus(u.id, "pending")(t.rows[i]);
      Err(ErrNoRows)
    else
      var row := t.rows[k.value];
      Ok((t.(rows := t.rows[k.value := row.(url := row.url.(status := u.status))]),
          u.(url := row.url.url, createdAt := row.url.createdAt, updatedAt := row.url.updatedAt)))
  }

  /** UnlockURL's UPDATE ... SET status, file, error WHERE id = $ AND status =
    * 'processing' RETURNING created_at, updated_at. */
  function Unlock(t: Tables, u: Url): (r: Result<(Tables, Url)>)
    ensures r.Ok? <==> exists i :: 0 <= i < |t.rows| && t.rows[i].url.id == u.id && t.rows[i].url.status == "processing"
    ensures r.Err? ==> r.error == ErrNoRows
    ensures r.Ok? ==> var (t', u') := r.value;
      t'.videos == t.videos && t'.nextUrlId == t.nextUrlId && |t'.rows| == |t.rows|
      && (forall i :: 0 <= i < |t.rows| ==>
            (t'.rows[i] == t.rows[i]
             || (t.rows[i].url.id == u.id && t.rows[i].url.status == "processing"
                 && t'.rows[i] == t.rows[i].(url := t.rows[i].url.(status := u.status, file := u.file, error := u.error)))))
      && u' == u.(createdAt := u'.createdAt, updatedAt := u'.updatedAt)
  {
    var k := Find(t.rows, HasIdAndStatus(u.id, "processing"));
    if k.None? then
      assert forall i :: 0 <= i < |t.rows| ==> !HasIdAndStatus(u.id, "processing")(t.rows[i]);
      Err(ErrNoRows)
    else
      var row := t.rows[k.value];
      Ok((t.(rows := t.rows[k.value := row.(url := row.url.(status := u.status, file := u.file, error := u.error))]),
          u.(createdAt := row.url.createdAt, updatedAt := row.url.updatedAt)))
  }

  /** The status of the row with that id, if there is one. */
  function StatusOf(t: Tables, id: int): Option<string>
  {
    var k := Find(t.rows, HasId(id));
    if k.None? then None else Some(t.rows[k.value].url.status)
  }

  /** A status other than pending and processing is final: neither LockURL
    * nor UnlockURL touches the row. */
  lemma FinalStatusKept(t: Tables, u: Url, id: int)
    requires Valid(t) && StatusOf(t, id).Some?
    requires StatusOf(t, id).value != "pending" && StatusOf(t, id).value != "processing"
    ensures Lock(t, u).Ok? ==> StatusOf(Lock(t, u).value.0, id) == StatusOf(t, id)
    ensures Unlock(t, u).Ok? ==> StatusOf(Unlock(t, u).value.0, id) == StatusOf(t, id)
  {
    var k := Find(t.rows, HasId(id)).value;
    FoundIsOnly(t, k, id);
    if Lock(t, u).Ok? {
      StatusKept(t, Lock(t, u).value.0, k, id);
    }
    if Unlock(t, u).Ok? {
      StatusKept(t, Unlock(t, u).value.0, k, id);
    }
  }

  lemma StatusKept(t: Tables, t': Tables, k: nat, id: int)
    requires Valid(t) && k < |t.rows| && t.rows[k].url.id == id
    requires |t'.rows| == |t.rows| && t'.rows[k] == t.rows[k]
    requires forall i :: 0 <= i < |t.rows| ==> t'.rows[i].url.id == t.rows[i].url.id
    ensures StatusOf(t', id) == StatusOf(t, id)
  {
    FoundIsOnly(t, k, id);
    var k1 := Find(t.rows, HasId(id));
    var k2 := Find(t'.rows, HasId(id));
    assert HasId(id)(t'.rows[k]);
    assert k1 == Some(k) && k2 == Some(k);
  }

  /** Locking is exclusive: once a row is locked as processing, a second
    * LockURL of the same id gets ErrNoRows, whatever status it asks for. */
  lemma LockExclusive(t: Tables, u: Url, u2: Url)
    requires Valid(t) && Lock(t, u).Ok? && u.status != "pending" && u2.id == u.id
    ensures Lock(Lock(t, u).value.0, u2) == Err(ErrNoRows)
  {
    var t' := Lock(t, u).value.0;
    var k :| 0 <= k < |t.rows| && t.rows[k].url.id == u.id && t.rows[k].url.status == "pending";
    FoundIsOnly(t, k, u.id);
  }

  /** The job lifecycle: a pending row locked as processing and then unlocked
    * as success or failure ends with that status and cannot be locked or
    * unlocked again. */
  lemma Lifecycle(t: Tables, id: int, locker: Url, unlocker: Url)
    requires Valid(t) && StatusOf(t, id) == Some("pending")
    requires locker.id == id && locker.status == "processing"
    requires unlocker.id == id && (unlocker.status == "success" || unlocker.status == "failure")
    ensures Lock(t, locker).Ok?
    ensures Unlock(Lock(t, locker).value.0, unlocker).Ok?
    ensures var t2 := Unlock(Lock(t, locker).value.0, unlocker).value.0;
      StatusOf(t2, id) == Some(unlocker.status)
      && (forall u: Url :: u.id == id ==> Lock(t2, u).Err? && Unlock(t2, u).Err?)
  {
    var k := Find(t.rows, HasId(id)).value;
    FoundIsOnly(t, k, id);
    assert t.rows[k].url.status == "pending";
    var t1 := Lock(t, locker).value.0;
    assert t1.rows[k].url.status == "processing";
    assert Valid(t1) by { TablesIdsKept(t, t1); }
    assert Unlock(t1, unlocker).Ok?;
    var t2 := Unlock(t1, unlocker).value.0;
    assert t2.rows[k].url.status == unlocker.status;
    assert Valid(t2) by { TablesIdsKept(t1, t2); }
    FoundIsOnly(t2, k, id);
    StatusAt(t2, k, id);
  }

  lemma StatusAt(t: Tables, k: nat, id: int)
    requires Valid(t) && k < |t.rows| && t.rows[k].url.id == id
    ensures StatusOf(t, id) == Some(t.rows[k].url.status)
  {
    FoundIsOnly(t, k, id);
    assert HasId(id)(t.rows[k]);
  }

  /** An UPDATE that keeps every id keeps the tables valid. */
  lemma TablesIdsKept(t: Tables, t': Tables)
    requires Valid(t) && |t'.rows| == |t.rows| && t'.videos == t.videos
    requires t'.nextUrlId == t.nextUrlId && t'.nextVideoId == t.nextVideoId
    requires forall i :: 0 <= i < |t.rows| ==> t'.rows[i].url.id == t.rows[i].url.id
    ensures Valid(t')
  {
  }

  // ---- AppendLog / DeleteURL / SetOEmbed ----

  /** UPDATE urls SET <f> WHERE id = $: the row with that id, if any, is
    * rewritten; a missing id changes nothing and is no error. */
  function UpdateById(t: Tables, id: int, f: Row -> Row): Tables
  {
    var k := Find(t.rows, HasId(id));
    if k.None? then t else t.(rows := t.rows[k.value := f(t.rows[k.value])])
  }

  function AppendLogTo(log: string): Row -> Row
  {
    (row: Row) => row.(url := row.url.(logs := row.url.logs + [log]))
  }

  function MarkDeleted(now: int): Row -> Row
  {
    (row: Row) => row.(deletedAt := Some(now))
  }

  function SetOEmbedTo(data: string): Row -> Row
  {
    (row: Row) => row.(oembed := Some(data))
  }

  /** AppendLog: array_append puts the line at the end of the row's logs;
    * every other row, and every other column, is unchanged. */
  lemma AppendLogAppends(t: Tables, id: int, log: string)
    requires Valid(t)
    ensures var t' := UpdateById(t, id, AppendLogTo(log));
      Valid(t') && |t'.rows| == |t.rows|
      && forall i :: 0 <= i < |t.rows| ==>
           if t.rows[i].url.id == id
           then t'.rows[i] == t.rows[i].(url := t.rows[i].url.(logs := t.rows[i].url.logs + [log]))
           else t'.rows[i] == t.rows[i]
  {
    var k := Find(t.rows, HasId(id));
    if k.Some? {
      FoundIsOnly(t, k.value, id);
    }
  }

  /** DeleteURL is a soft delete: it removes no row and changes no column but
    * deleted_at, after which GetURL no longer finds the row. */
  lemma DeleteHides(t: Tables, id: int, now: int)
    requires Valid(t)
    ensures var t' := UpdateById(t, id, MarkDeleted(now));
      Valid(t') && |t'.rows| == |t.rows|
      && (forall i :: 0 <= i < |t.rows| ==> t'.rows[i].url == t.rows[i].url)
      && GetUrl(t', id) == Err(ErrNoRows)
  {
    var t' := UpdateById(t, id, MarkDeleted(now));
    var k := Find(t.rows, HasId(id));
    if k.Some? {
      FoundIsOnly(t, k.value, id);
      assert !HasIdAndLive(id)(t'.rows[k.value]);
    }
    assert forall i :: 0 <= i < |t'.rows| ==> !HasIdAndLive(id)(t'.rows[i]);
  }

  // ---- GetURL / ListLogs ----

  /** GetURL: WHERE id = $1 AND deleted_at IS NULL, or ErrNoRows. */
  function GetUrl(t: Tables, id: int): (r: Result<Url>)
    ensures r.Ok? <==> exists i :: 0 <= i < |t.rows| && t.rows[i].url.id == id && t.rows[i].deletedAt.None?
    ensures r.Err? ==> r.error == ErrNoRows
    ensures r.Ok? ==> r.value.id == id && exists i :: 0 <= i < |t.rows| && t.rows[i].url == r.value && t.rows[i].deletedAt.None?
  {
    var k := Find(t.rows, HasIdAndLive(id));
    if k.None? then
      assert forall i :: 0 <= i < |t.rows| ==> !HasIdAndLive(id)(t.rows[i]);
      Err(ErrNoRows)
    else Ok(t.rows[k.value].url)
  }

  /** ListLogs: SELECT unnest(logs) FROM urls WHERE id = $1 OFFSET $2. A
    * negative offset is refused by the database; a missing row gives no
    * lines; otherwise the lines after the first `cursor`. The query has no
    * deleted_at condition, so a deleted row's logs are still listed. */
  function ListLogs(t: Tables, id: int, cursor: int): (r: Result<seq<string>>)
    ensures cursor < 0 <==> r.Err?
    ensures r.Ok? ==> forall k :: Find(t.rows, HasId(id)) == Some(k) ==>
      (var logs := t.rows[k].url.logs;
       if cursor <= |logs| then logs == logs[..cursor] + r.value else r.value == [])
    ensures r.Ok? && Find(t.rows, HasId(id)).None? ==> r.value == []
  {
    if cursor < 0 then Err(Failure("OFFSET must not be negative"))
    else
      var k := Find(t.rows, HasId(id));
      if k.None? then Ok([])
      else
        var logs := t.rows[k.value].url.logs;
        Ok(if cursor <= |logs| then logs[cursor..] else [])
  }

  /** Resuming ListLogs at `cursor + len(page)` after an AppendLog yields
    * exactly the appended line. */
  lemma LogsResume(t: Tables, id: int, cursor: nat, log: string)
    requires Valid(t) && Find(t.rows, HasId(id)).Some?
    requires ListLogs(t, id, cursor).Ok? && cursor <= |t.rows[Find(t.rows, HasId(id)).value].url.logs|
    ensures var t' := UpdateById(t, id, AppendLogTo(log));
      ListLogs(t', id, cursor + |ListLogs(t, id, cursor).value|) == Ok([log])
  {
    var k := Find(t.rows, HasId(id)).value;
    var t' := UpdateById(t, id, AppendLogTo(log));
    assert t'.rows[k].url.id == id;
    assert HasId(id)(t'.rows[k]);
  }

  // ---- youtube_videos ----

  function FindVideo(vs: seq<Video>, youtubeId: string): (r: Option<nat>)
    ensures r.Some? ==> r.value < |vs| && vs[r.value].youtubeId == youtubeId
    ensures r.None? ==> forall i :: 0 <= i < |vs| ==> vs[i].youtubeId != youtubeId
  {
    if vs == [] then None
    else if vs[0].youtubeId == youtubeId then Some(0)
    else
      var r := FindVideo(vs[1..], youtubeId);
      if r.None? then None else Some(r.value + 1)
  }

  const UniqueViolation := "pq: duplicate key value violates unique constraint"

  /** CreateYoutubeVideo: INSERT INTO youtube_videos(youtube_id) ... RETURNING
    * id, created_at; youtube_id is unique, so a second insert fails. */
  function InsertVideo(t: Tables, youtubeId: string, now: int): (r: Result<(Tables, Video)>)
    ensures r.Err? <==> exists i :: 0 <= i < |t.videos| && t.videos[i].youtubeId == youtubeId
    ensures r.Ok? ==> (r.value.0.rows == t.rows && r.value.0.videos == t.videos + [r.value.1]
                       && r.value.1.youtubeId == youtubeId)
  {
    if FindVideo(t.videos, youtubeId).Some? then Err(Failure(UniqueViolation))
    else
      var v := Video(t.nextVideoId, youtubeId, now);
      Ok((t.(videos := t.videos + [v], nextVideoId := t.nextVideoId + 1), v))
  }

  /** GetYoutubeVideoByYoutubeID */
  function GetVideo(t: Tables, youtubeId: string): (r: Result<Video>)
    ensures r.Ok? <==> exists i :: 0 <= i < |t.videos| && t.videos[i].youtubeId == youtubeId
    ensures r.Err? ==> r.error == ErrNoRows
    ensures r.Ok? ==> r.value.youtubeId == youtubeId && r.value in t.videos
  {
    var k := FindVideo(t.videos, youtubeId);
    if k.None? then Err(ErrNoRows) else Ok(t.videos[k.value])
  }

  /** A created video is found by its youtube id, and the tables stay valid. */
  lemma InsertVideoFound(t: Tables, youtubeId: string, now: int)
    requires Valid(t) && InsertVideo(t, youtubeId, now).Ok?
    ensures var (t', v) := InsertVideo(t, youtubeId, now).value;
      Valid(t') && GetVideo(t', youtubeId) == Ok(v)
  {
    var (t', v) := InsertVideo(t, youtubeId, now).value;
    assert t'.videos[|t.videos|] == v;
  }
}
