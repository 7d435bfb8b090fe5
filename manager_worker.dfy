// The manager behind the api's workers (api/manager/worker.go): it takes a
// pending url, downloads it and records the outcome, and fetches the oEmbed
// document of a url. The downloader and the oEmbed client are parameters
// giving the outcome of each call; their own effects are not modelled here.

module ManagerWorker {
  import opened Common
  import opened UrlModel
  import opened UrlTables
  import opened UrlStore
  import opened ManagerServer

  /** How a call of the downloader ends: the stored file's name, an error,
    * or a panic. */
  datatype Download = Downloaded(file: string) | DownloadFailed(err: Error) | DownloadPanicked(msg: string)

  /** perr after the deferred recover: a panic becomes an error with the
    * panic's text. */
  function DownloadError(d: Download): (r: Option<Error>)
    ensures r.None? <==> d.Downloaded?
  {
    match d
    case Downloaded(_) => None
    case DownloadFailed(e) => Some(e)
    case DownloadPanicked(m) => Some(Failure(m))
  }

  /** The url the deferred block hands to UnlockURL: an error is recorded as
    * a failure with its text, anything else as a success with the file. */
  function Finished(locked: Url, d: Download): (u: Url)
    ensures u.id == locked.id
    ensures d.Downloaded? ==> u.status == "success" && u.file == NullString(d.file, true) && u.error == locked.error
    ensures !d.Downloaded? ==>
      (u.status == "failure" && u.error == NullString(ErrorText(DownloadError(d).value), true)
       && u.file == locked.file)
  {
    match DownloadError(d)
    case Some(perr) => locked.(error := NullString(ErrorText(perr), true), status := "failure")
    case None => locked.(file := NullString(d.file, true), status := "success")
  }

  /** The tables once UnlockURL has run with `u`: unchanged when it fails. */
  function AfterUnlock(t: Tables, u: Url, faults: map<Stmt, Error>): Tables
  {
    if UnlockUrlStmt in faults || Unlock(t, u).Err? then t else Unlock(t, u).value.0
  }

  /** How DownloadURL ends: the download's error, or its panic raised again. */
  function DownloadCompletion(d: Download): (c: Completion)
    ensures d.DownloadPanicked? <==> c.Panic?
    ensures c.Return? ==> c.err == DownloadError(d)
  {
    if d.DownloadPanicked? then Panic(d.msg) else Return(DownloadError(d))
  }

  class Worker {
    const store: Store

    constructor (store: Store)
      ensures this.store == store
    {
      this.store := store;
    }

    /** DownloadURL: the url is locked as processing first; once locked, it
      * is unlocked once, as success or failure, however the download ends. */
    method DownloadURL(e: UrlEvent, download: Url -> Download) returns (c: Completion)
      requires store.Valid()
      modifies store
      ensures store.Valid() && store.faults == old(store.faults) && store.tx == old(store.tx)
      ensures LockUrlStmt in store.faults ==>
        c == Return(Some(store.faults[LockUrlStmt])) && store.tables == old(store.tables)
      ensures LockUrlStmt !in store.faults ==>
        match Lock(old(store.tables), NewUrl(e.id, e.url, "processing"))
        case Err(err) => c == Return(Some(err)) && store.tables == old(store.tables)
        case Ok((t1, locked)) =>
          var d := download(locked);
          c == DownloadCompletion(d)
          && store.tables == AfterUnlock(t1, Finished(locked, d), store.faults)
    {
      var url := NewUrl(e.id, e.url, "processing");
      var locked := store.LockURL(url);
      if locked.Err? {
        return Return(Some(locked.error));
      }
      ghost var t1 := store.tables;
      assert Lock(old(store.tables), NewUrl(e.id, e.url, "processing")) == Ok((t1, locked.value));
      url := locked.value;
      var d := download(url);
      var perr: Option<Error>;
      var file := "";
      match d {
        case Downloaded(f) => file, perr := f, None;
        case DownloadFailed(err) => perr := Some(err);
        case DownloadPanicked(m) => perr := Some(Failure(m));
      }
      // The deferred block: record the outcome, unlock, raise a panic again.
      if perr.Some? {
        url := url.(error := NullString(ErrorText(perr.value), true), status := "failure");
      } else {
        url := url.(file := NullString(file, true), status := "success");
      }
      assert url == Finished(locked.value, d);
      var _ := store.UnlockURL(url);
      assert store.tables == AfterUnlock(t1, url, store.faults);
      if d.DownloadPanicked? {
        return Panic(d.msg);
      }
      c := Return(perr);
    }

    /** GetOEmbed: a failed fetch is returned and nothing is stored. */
    method GetOEmbed(e: UrlEvent, get: string -> Result<string>) returns (err: Option<Error>)
      requires store.Valid()
      modifies store
      ensures store.Valid() && store.faults == old(store.faults) && store.tx == old(store.tx)
      ensures get(e.url).Err? ==> err == Some(get(e.url).error) && store.tables == old(store.tables)
      ensures get(e.url).Ok? && SetOEmbedStmt in store.faults ==>
        err == Some(store.faults[SetOEmbedStmt]) && store.tables == old(store.tables)
      ensures get(e.url).Ok? && SetOEmbedStmt !in store.faults ==>
        err.None? && store.tables == UpdateById(old(store.tables), e.id, SetOEmbedTo(get(e.url).value))
    {
      var data := get(e.url);
      if data.Err? {
        return Some(data.error);
      }
      err := store.SetOEmbed(e.id, data.value);
    }
  }

  /** A pending url that DownloadURL takes ends as success or failure, as the
    * download went, whether it panicked or not, and is never taken again. */
  lemma DownloadSettles(t: Tables, e: UrlEvent, download: Url -> Download, faults: map<Stmt, Error>)
    requires UrlTables.Valid(t) && StatusOf(t, e.id) == Some("pending")
    requires UnlockUrlStmt !in faults
    ensures Lock(t, NewUrl(e.id, e.url, "processing")).Ok?
    ensures var (t1, locked) := Lock(t, NewUrl(e.id, e.url, "processing")).value;
      var d := download(locked);
      var t2 := AfterUnlock(t1, Finished(locked, d), faults);
      StatusOf(t2, e.id) == Some(if d.Downloaded? then "success" else "failure")
      && (forall u: Url :: u.id == e.id ==> Lock(t2, u).Err?)
  {
    var u := NewUrl(e.id, e.url, "processing");
    Lifecycle(t, e.id, u, Finished(Lock(t, u).value.1, download(Lock(t, u).value.1)));
  }

  /** The same for one given outcome of the download. */
  lemma OutcomeSettles(t: Tables, e: UrlEvent, d: Download, faults: map<Stmt, Error>)
    requires UrlTables.Valid(t) && StatusOf(t, e.id) == Some("pending")
    requires UnlockUrlStmt !in faults
    ensures Lock(t, NewUrl(e.id, e.url, "processing")).Ok?
    ensures var (t1, locked) := Lock(t, NewUrl(e.id, e.url, "processing")).value;
      StatusOf(AfterUnlock(t1, Finished(locked, d), faults), e.id) == Some(if d.Downloaded? then "success" else "failure")
  {
    var u := NewUrl(e.id, e.url, "processing");
    Lifecycle(t, e.id, u, Finished(Lock(t, u).value.1, d));
  }

  /** A url that is not pending is not downloaded: the lock fails with
    * ErrNoRows and the tables are left as they were. */
  lemma NotPendingNotTaken(t: Tables, e: UrlEvent)
    requires UrlTables.Valid(t) && StatusOf(t, e.id) != Some("pending")
    ensures Lock(t, NewUrl(e.id, e.url, "processing")) == Err(ErrNoRows)
  {
    if Lock(t, NewUrl(e.id, e.url, "processing")).Ok? {
      var i :| 0 <= i < |t.rows| && t.rows[i].url.id == e.id && t.rows[i].url.status == "pending";
      StatusAt(t, i, e.id);
    }
  }
}
