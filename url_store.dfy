// The store of the api generation (api/store/store.go and
// api/store/transaction.go) over an in-memory database.
//
// The database state is the `tables` field; `faults` names the statements
// that currently fail and the error they fail with (a lost connection, a
// constraint the model does not track). A statement that does not fail does
// to the tables what the functions of UrlTables and UrlListing say.

module UrlStore {
  import opened Common
  import opened UrlModel
  import opened UrlTables
  import opened UrlListing

  /** The statements a fault can be injected into. */
  datatype Stmt =
    | CreateUrlStmt | LockUrlStmt | UnlockUrlStmt | AppendLogStmt | GetUrlStmt | DeleteUrlStmt
    | ListUrlsStmt | ListLogsStmt | CreateVideoStmt | GetVideoStmt | SetOEmbedStmt
    | BeginStmt | CommitStmt | RollbackStmt

  /** Whether a transaction whose body returned `ferr` keeps its changes. */
  predicate Committed(ferr: Option<Error>, faults: map<Stmt, Error>)
  {
    ferr.None? && CommitStmt !in faults
  }

  /** The error Transaction returns as written: a failed commit followed by
    * a successful rollback returns nil. */
  function TransactionErrorAsWritten(ferr: Option<Error>, faults: map<Stmt, Error>): Option<Error>
  {
    if RollbackStmt in faults && !Committed(ferr, faults) then Some(faults[RollbackStmt])
    else if ferr.Some? then ferr
    else None
  }

  /** The error Transaction returns once the commit's error is kept. */
  function TransactionError(ferr: Option<Error>, faults: map<Stmt, Error>): Option<Error>
  {
    if RollbackStmt in faults && !Committed(ferr, faults) then Some(faults[RollbackStmt])
    else if ferr.Some? then ferr
    else if CommitStmt in faults then Some(faults[CommitStmt])
    else None
  }

  /** As written, a transaction whose commit fails reports success although
    * none of its changes were kept. */
  lemma CommitErrorSwallowed(e: Error)
    ensures !Committed(None, map[CommitStmt := e])
    ensures TransactionErrorAsWritten(None, map[CommitStmt := e]) == None
  {
  }

  /** With the commit's error kept, Transaction returns nil exactly when the
    * changes were kept, and a body error is reported unless the rollback's
    * own error replaces it. */
  lemma NilIffCommitted(ferr: Option<Error>, faults: map<Stmt, Error>)
    ensures TransactionError(ferr, faults).None? <==> Committed(ferr, faults)
    ensures ferr.Some? && RollbackStmt !in faults ==> TransactionError(ferr, faults) == ferr
  {
  }

  class Store {
    var tables: Tables
    var faults: map<Stmt, Error>
    /** The tables as they were at BEGIN, while a transaction is open. */
    var tx: Option<Tables>

    ghost predicate Valid()
      reads this
    {
      UrlTables.Valid(tables)
      && (tx.Some? ==>
            UrlTables.Valid(tx.value)
            && tx.value.nextUrlId <= tables.nextUrlId && tx.value.nextVideoId <= tables.nextVideoId)
    }

    constructor (faults: map<Stmt, Error>)
      ensures Valid() && tables == Tables([], [], 1, 1) && this.faults == faults && tx.None?
    {
      tables := Tables([], [], 1, 1);
      this.faults := faults;
      tx := None;
    }

    /** CreateURL: the url is inserted as a new pending row; the returned url
      * is the argument with id, timestamps and status filled in. */
    method CreateURL(u: Url, now: int) returns (r: Result<Url>)
      requires Valid()
      modifies this
      ensures Valid() && faults == old(faults) && tx == old(tx)
      ensures CreateUrlStmt in faults ==> r == Err(faults[CreateUrlStmt]) && tables == old(tables)
      ensures CreateUrlStmt !in faults ==>
        var (t', v) := InsertUrl(old(tables), u.url, u.retries, now);
        tables == t' && r == Ok(u.(id := v.id, createdAt := v.createdAt, updatedAt := v.updatedAt, status := v.status))
    {
      if CreateUrlStmt in faults {
        return Err(faults[CreateUrlStmt]);
      }
      InsertUrlFound(tables, u.url, u.retries, now);
      var (t', v) := InsertUrl(tables, u.url, u.retries, now);
      tables := t';
      r := Ok(u.(id := v.id, createdAt := v.createdAt, updatedAt := v.updatedAt, status := v.status));
    }

    /** LockURL */
    method LockURL(u: Url) returns (r: Result<Url>)
      requires Valid()
      modifies this
      ensures Valid() && faults == old(faults) && tx == old(tx)
      ensures LockUrlStmt in faults ==> r == Err(faults[LockUrlStmt]) && tables == old(tables)
      ensures LockUrlStmt !in faults ==>
        match Lock(old(tables), u)
        case Ok((t', v)) => tables == t' && r == Ok(v)
        case Err(e) => tables == old(tables) && r == Err(e)
    {
      if LockUrlStmt in faults {
        return Err(faults[LockUrlStmt]);
      }
      match Lock(tables, u)
      case Ok((t', v)) =>
        TablesIdsKept(tables, t');
        tables := t';
        r := Ok(v);
      case Err(e) =>
        r := Err(e);
    }

    /** UnlockURL */
    method UnlockURL(u: Url) returns (r: Result<Url>)
      requires Valid()
      modifies this
      ensures Valid() && faults == old(faults) && tx == old(tx)
      ensures UnlockUrlStmt in faults ==> r == Err(faults[UnlockUrlStmt]) && tables == old(tables)
      ensures UnlockUrlStmt !in faults ==>
        match Unlock(old(tables), u)
        case Ok((t', v)) => tables == t' && r == Ok(v)
        case Err(e) => tables == old(tables) && r == Err(e)
    {
      if UnlockUrlStmt in faults {
        return Err(faults[UnlockUrlStmt]);
      }
      match Unlock(tables, u)
      case Ok((t', v)) =>
        TablesIdsKept(tables, t');
        tables := t';
        r := Ok(v);
      case Err(e) =>
        r := Err(e);
    }

    /** AppendLog: an Exec, so a missing url is no error. */
    method AppendLog(urlId: int, log: string) returns (err: Option<Error>)
      requires Valid()
      modifies this
      ensures Valid() && faults == old(faults) && tx == old(tx)
      ensures AppendLogStmt in faults ==> err == Some(faults[AppendLogStmt]) && tables == old(tables)
      ensures AppendLogStmt !in faults ==> err.None? && tables == UpdateById(old(tables), urlId, AppendLogTo(log))
    {
      if AppendLogStmt in faults {
        return Some(faults[AppendLogStmt]);
      }
      AppendLogAppends(tables, urlId, log);
      tables := UpdateById(tables, urlId, AppendLogTo(log));
      err := None;
    }

    /** DeleteURL: sets deleted_at; an Exec, so a missing url is no error. */
    method DeleteURL(id: int, now: int) returns (err: Option<Error>)
      requires Valid()
      modifies this
      ensures Valid() && faults == old(faults) && tx == old(tx)
      ensures DeleteUrlStmt in faults ==> err == Some(faults[DeleteUrlStmt]) && tables == old(tables)
      ensures DeleteUrlStmt !in faults ==> err.None? && tables == UpdateById(old(tables), id, MarkDeleted(now))
    {
      if DeleteUrlStmt in faults {
        return Some(faults[DeleteUrlStmt]);
      }
      DeleteHides(tables, id, now);
      tables := UpdateById(tables, id, MarkDeleted(now));
      err := None;
    }

    /** SetOEmbed: stores the oEmbed document of a url. SetOEmbed's
      * statement does not appear in api/store/store.go; it is modelled as
      * an Exec by id. */
    method SetOEmbed(id: int, data: string) returns (err: Option<Error>)
      requires Valid()
      modifies this
      ensures Valid() && faults == old(faults) && tx == old(tx)
      ensures SetOEmbedStmt in faults ==> err == Some(faults[SetOEmbedStmt]) && tables == old(tables)
      ensures SetOEmbedStmt !in faults ==> err.None? && tables == UpdateById(old(tables), id, SetOEmbedTo(data))
    {
      if SetOEmbedStmt in faults {
        return Some(faults[SetOEmbedStmt]);
      }
      var t' := UpdateById(tables, id, SetOEmbedTo(data));
      var k := Find(tables.rows, HasId(id));
      if k.Some? {
        TablesIdsKept(tables, t');
      }
      tables := t';
      err := None;
    }

    /** GetURL: the row the statement's intended column selection reads;
      * the column names bound as parameters by NewSelect are not modelled. */
    method GetURL(id: int) returns (r: Result<Url>)
      ensures GetUrlStmt in faults ==> r == Err(faults[GetUrlStmt])
      ensures GetUrlStmt !in faults ==> r == GetUrl(tables, id)
    {
      if GetUrlStmt in faults {
        return Err(faults[GetUrlStmt]);
      }
      r := GetUrl(tables, id);
    }

    /** ListURLs: the database scans the rows from the newest and the loop
      * appends each listed row, until `limit` rows have come back. The rows
      * are those of the intended column selection, as for GetURL. */
    method ListURLs(q: UrlsQuery) returns (r: Result<seq<Url>>)
      ensures ListUrlsStmt in faults ==> r == Err(faults[ListUrlsStmt])
      ensures ListUrlsStmt !in faults ==> r == ListUrls(tables, q)
    {
      if ListUrlsStmt in faults {
        return Err(faults[ListUrlsStmt]);
      }
      if q.limit < 0 {
        return Err(Failure(NegativeLimit));
      }
      if q.status == Some([]) {
        return Err(Failure(EmptyIn));
      }
      var rows := tables.rows;
      var urls: seq<Url> := [];
      var i := |rows|;
      assert rows[..i] == rows;
      while i > 0 && |urls| < q.limit
        invariant 0 <= i <= |rows| && |urls| <= q.limit
        invariant NewestListed(rows, q) == urls + NewestListed(rows[..i], q)
        decreases i
      {
        NewestListedStep(rows, i, q);
        if Listed(rows[i - 1], q) {
          assert urls + ([rows[i - 1].url] + NewestListed(rows[..i - 1], q))
              == (urls + [rows[i - 1].url]) + NewestListed(rows[..i - 1], q);
          urls := urls + [rows[i - 1].url];
        } else {
          assert [] + NewestListed(rows[..i - 1], q) == NewestListed(rows[..i - 1], q);
        }
        i := i - 1;
      }
      PageOfListed(NewestListed(rows, q), urls, NewestListed(rows[..i], q), q.limit, i == 0);
      r := Ok(urls);
    }

    /** ListLogs: the loop appends the lines the statement returns. */
    method ListLogs(urlId: int, cursor: int) returns (r: Result<seq<string>>)
      ensures ListLogsStmt in faults ==> r == Err(faults[ListLogsStmt])
      ensures ListLogsStmt !in faults ==> r == UrlTables.ListLogs(tables, urlId, cursor)
    {
      if ListLogsStmt in faults {
        return Err(faults[ListLogsStmt]);
      }
      var selected := UrlTables.ListLogs(tables, urlId, cursor);
      if selected.Err? {
        return selected;
      }
      var lines := selected.value;
      var logs: seq<string> := [];
      var i := 0;
      while i < |lines|
        invariant 0 <= i <= |lines| && logs == lines[..i]
      {
        logs := logs + [lines[i]];
        i := i + 1;
      }
      assert lines[..i] == lines;
      r := Ok(logs);
    }

    /** CreateYoutubeVideo */
    method CreateYoutubeVideo(youtubeId: string, now: int) returns (r: Result<Video>)
      requires Valid()
      modifies this
      ensures Valid() && faults == old(faults) && tx == old(tx)
      ensures CreateVideoStmt in faults ==> r == Err(faults[CreateVideoStmt]) && tables == old(tables)
      ensures CreateVideoStmt !in faults ==>
        match InsertVideo(old(tables), youtubeId, now)
        case Ok((t', v)) => tables == t' && r == Ok(v)
        case Err(e) => tables == old(tables) && r == Err(e)
    {
      if CreateVideoStmt in faults {
        return Err(faults[CreateVideoStmt]);
      }
      match InsertVideo(tables, youtubeId, now)
      case Ok((t', v)) =>
        InsertVideoFound(tables, youtubeId, now);
        tables := t';
        r := Ok(v);
      case Err(e) =>
        r := Err(e);
    }

    /** GetYoutubeVideoByYoutubeID: the row of the intended column
      * selection, as for GetURL. */
    method GetYoutubeVideoByYoutubeID(youtubeId: string) returns (r: Result<Video>)
      ensures GetVideoStmt in faults ==> r == Err(faults[GetVideoStmt])
      ensures GetVideoStmt !in faults ==> r == GetVideo(tables, youtubeId)
    {
      if GetVideoStmt in faults {
        return Err(faults[GetVideoStmt]);
      }
      r := GetVideo(tables, youtubeId);
    }

    /** Where the scan of ListURLs stops, the urls it collected are the page. */
    static lemma PageOfListed(all: seq<Url>, urls: seq<Url>, rest: seq<Url>, limit: int, exhausted: bool)
      requires all == urls + rest && 0 <= |urls| <= limit
      requires exhausted ==> rest == []
      requires exhausted || |urls| == limit
      ensures all[..Min(limit, |all|)] == urls
    {
    }

    // ---- transactions ----

    /** BeginTx */
    method BeginTx() returns (err: Option<Error>)
      requires Valid() && tx.None?
      modifies this
      ensures Valid() && faults == old(faults) && tables == old(tables)
      ensures BeginStmt in faults ==> err == Some(faults[BeginStmt]) && tx.None?
      ensures BeginStmt !in faults ==> err.None? && tx == Some(tables)
    {
      if BeginStmt in faults {
        return Some(faults[BeginStmt]);
      }
      tx := Some(tables);
      err := None;
    }

    /** The tables at BEGIN, with the serial sequences where they are now:
      * sequences are not rolled back. */
    function RolledBack(): Tables
      requires tx.Some?
      reads this
    {
      tx.value.(nextUrlId := tables.nextUrlId, nextVideoId := tables.nextVideoId)
    }

    /** Rollback: the transaction's changes are discarded, also when the
      * statement reports an error (the server aborts the transaction). */
    method Rollback() returns (err: Option<Error>)
      requires Valid() && tx.Some?
      modifies this
      ensures Valid() && faults == old(faults) && tx.None?
      ensures tables == old(RolledBack())
      ensures err == (if RollbackStmt in faults then Some(faults[RollbackStmt]) else None)
    {
      tables := RolledBack();
      tx := None;
      err := if RollbackStmt in faults then Some(faults[RollbackStmt]) else None;
    }

    /** Commit: the changes are kept, unless the commit fails, in which case
      * the server aborts the transaction. */
    method Commit() returns (err: Option<Error>)
      requires Valid() && tx.Some?
      modifies this
      ensures Valid() && faults == old(faults) && tx.None?
      ensures CommitStmt in faults ==> err == Some(faults[CommitStmt]) && tables == old(RolledBack())
      ensures CommitStmt !in faults ==> err.None? && tables == old(tables)
    {
      if CommitStmt in faults {
        tables := RolledBack();
        err := Some(faults[CommitStmt]);
      } else {
        err := None;
      }
      tx := None;
    }

    /** The part of Transaction after its body ran and returned `ferr`, as
      * written: a body error rolls back and is returned unless the rollback
      * fails; a failed commit rolls back and returns only a rollback error. */
    method EndTransactionAsWritten(ferr: Option<Error>) returns (err: Option<Error>)
      requires Valid() && tx.Some?
      modifies this
      ensures Valid() && faults == old(faults) && tx.None?
      ensures tables == (if Committed(ferr, faults) then old(tables) else old(RolledBack()))
      ensures err == TransactionErrorAsWritten(ferr, faults)
    {
      if ferr.Some? {
        var rerr := Rollback();
        if rerr.Some? {
          return rerr;
        }
        return ferr;
      }
      var cerr := Commit();
      if cerr.Some? {
        // The transaction is over once Commit has failed; the rollback only
        // reports the failure of its own statement.
        err := if RollbackStmt in faults then Some(faults[RollbackStmt]) else None;
        return;
      }
      err := None;
    }

    /** The same, returning the commit's error when the rollback after it
      * succeeds. */
    method EndTransaction(ferr: Option<Error>) returns (err: Option<Error>)
      requires Valid() && tx.Some?
      modifies this
      ensures Valid() && faults == old(faults) && tx.None?
      ensures tables == (if Committed(ferr, faults) then old(tables) else old(RolledBack()))
      ensures err == TransactionError(ferr, faults)
    {
      if ferr.Some? {
        var rerr := Rollback();
        if rerr.Some? {
          return rerr;
        }
        return ferr;
      }
      var cerr := Commit();
      if cerr.Some? {
        err := if RollbackStmt in faults then Some(faults[RollbackStmt]) else cerr;
        return;
      }
      err := None;
    }
  }
}
