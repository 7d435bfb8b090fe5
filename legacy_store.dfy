// The store of the first generation (store/store.go): the same `urls` and
// `youtube_videos` tables, written with hand-written SQL. It differs from the
// api generation in three places: there is no soft delete (no statement reads
// deleted_at), the list has no status filter, and ListLogs asks the database
// for a window of `limit` lines instead of every line after the cursor.

module LegacyStore {
  import opened Common
  import opened UrlModel
  import opened UrlTables
  import opened UrlListing
  import opened QbBuilder
  import opened UrlStore

  /** model.Page */
  datatype Page = Page(limit: int, cursor: int)

  const SelectUrls := "select id, url, created_at, updated_at, status, error, file, retries from urls"

  function OrderByLimit(n: nat): string
  {
    "order by id desc limit $" + DecimalString(n)
  }

  lemma SuffixOf(a: string, b: string)
    ensures HasSuffix(a + b, b)
  {
    assert (a + b)[|a + b| - |b|..] == b;
  }

  /** The statement ListURLs sends: without a cursor only the limit is
    * bound; with one the cursor is $1 and the limit $2. */
  function ListUrlsStatement(page: Page): (r: (string, seq<Value>))
    ensures |r.1| >= 1 && r.1[|r.1| - 1] == VInt(page.limit)
    ensures page.cursor == 0 <==> |r.1| == 1
    ensures page.cursor != 0 ==> r.1[0] == VInt(page.cursor)
    ensures HasPrefix(r.0, SelectUrls) && HasSuffix(r.0, OrderByLimit(|r.1|))
  {
    var (text, args) := if page.cursor == 0 then (SelectUrls + " ", [VInt(page.limit)])
      else (SelectUrls + " where id < $1 ", [VInt(page.cursor), VInt(page.limit)]);
    SuffixOf(text, OrderByLimit(|args|));
    assert (text + OrderByLimit(|args|))[..|SelectUrls|] == SelectUrls;
    (text + OrderByLimit(|args|), args)
  }

  /** The rows the statement selects, newest first, before the limit: every
    * row when the cursor is 0, else those with an id below the cursor. */
  function BelowCursor(rows: seq<Row>, cursor: int): (r: seq<Url>)
    ensures |r| <= |rows|
  {
    if rows == [] then []
    else
      var last := rows[|rows| - 1];
      var rest := BelowCursor(rows[..|rows| - 1], cursor);
      if cursor == 0 || last.url.id < cursor then [last.url] + rest else rest
  }

  function ListPage(t: Tables, page: Page): (r: Result<seq<Url>>)
    ensures r.Err? <==> page.limit < 0
    ensures r.Ok? ==> |r.value| <= page.limit
  {
    if page.limit < 0 then Err(Failure(NegativeLimit))
    else
      var all := BelowCursor(t.rows, page.cursor);
      Ok(all[..Min(page.limit, |all|)])
  }

  /** On a table nobody soft-deleted from, both generations list the same
    * page, so the api generation's pagination lemmas apply here. */
  lemma {:induction false} BelowCursorIsListed(rows: seq<Row>, page: Page)
    requires forall i :: 0 <= i < |rows| ==> rows[i].deletedAt.None?
    ensures BelowCursor(rows, page.cursor) == NewestListed(rows, UrlsQuery(page.cursor, page.limit, None))
  {
    if rows != [] {
      BelowCursorIsListed(rows[..|rows| - 1], page);
    }
  }

  lemma SameAsApiListing(t: Tables, page: Page)
    requires forall i :: 0 <= i < |t.rows| ==> t.rows[i].deletedAt.None?
    ensures ListPage(t, page) == UrlListing.ListUrls(t, UrlsQuery(page.cursor, page.limit, None))
  {
    BelowCursorIsListed(t.rows, page);
  }

  lemma BelowCursorStep(rows: seq<Row>, i: nat, cursor: int)
    requires 0 < i <= |rows|
    ensures BelowCursor(rows[..i], cursor)
         == (if cursor == 0 || rows[i - 1].url.id < cursor then [rows[i - 1].url] else []) + BelowCursor(rows[..i - 1], cursor)
  {
    assert rows[..i][..i - 1] == rows[..i - 1];
  }

  /** One iteration of the listing loop: the row at i - 1 is appended
    * exactly when it is below the cursor. */
  lemma ListStep(rows: seq<Row>, i: nat, cursor: int, urls: seq<Url>)
    requires 0 < i <= |rows|
    requires BelowCursor(rows, cursor) == urls + BelowCursor(rows[..i], cursor)
    ensures BelowCursor(rows, cursor)
         == (if cursor == 0 || rows[i - 1].url.id < cursor then urls + [rows[i - 1].url] else urls)
            + BelowCursor(rows[..i - 1], cursor)
  {
    BelowCursorStep(rows, i, cursor);
    var rest := BelowCursor(rows[..i - 1], cursor);
    if cursor == 0 || rows[i - 1].url.id < cursor {
      assert urls + ([rows[i - 1].url] + rest) == (urls + [rows[i - 1].url]) + rest;
    } else {
      assert [] + rest == rest;
    }
  }

  // ---- the log window ----

  /** PostgreSQL's `logs[lower:upper]`: 1-based, both bounds inclusive and
    * clamped to the array; empty when they cross. */
  function ArraySlice(logs: seq<string>, lower: int, upper: int): seq<string>
  {
    var lo := if lower < 1 then 1 else lower;
    var hi := if upper > |logs| then |logs| else upper;
    if lo > hi then [] else logs[lo - 1..hi]
  }

  /** The bounds ListLogs binds: cursor + 1 and cursor + limit. */
  function LogWindow(logs: seq<string>, page: Page): seq<string>
  {
    ArraySlice(logs, page.cursor + 1, page.cursor + page.limit)
  }

  /** The window is the `limit` lines after the first `cursor`, cut at the
    * end of the array. */
  lemma WindowIsSlice(logs: seq<string>, page: Page)
    requires page.cursor >= 0 && page.limit >= 0
    ensures LogWindow(logs, page) == logs[Min(page.cursor, |logs|)..Min(page.cursor + page.limit, |logs|)]
    ensures |LogWindow(logs, page)| <= page.limit
  {
  }

  /** Consecutive windows tile the array: reading `l1` lines and then `l2`
    * from where the first page ended reads what one page of `l1 + l2` does. */
  lemma WindowsTile(logs: seq<string>, cursor: nat, l1: nat, l2: nat)
    ensures LogWindow(logs, Page(l1, cursor)) + LogWindow(logs, Page(l2, cursor + l1))
         == LogWindow(logs, Page(l1 + l2, cursor))
  {
    WindowIsSlice(logs, Page(l1, cursor));
    WindowIsSlice(logs, Page(l2, cursor + l1));
    WindowIsSlice(logs, Page(l1 + l2, cursor));
    var a := Min(cursor, |logs|);
    var b := Min(cursor + l1, |logs|);
    var c := Min(cursor + l1 + l2, |logs|);
    assert logs[a..b] + logs[b..c] == logs[a..c];
  }

  /** ListLogs: the window of the row with that id; no row gives no lines. */
  function LogsPage(t: Tables, id: int, page: Page): (r: seq<string>)
    ensures Find(t.rows, HasId(id)).None? ==> r == []
    ensures page.cursor >= 0 && page.limit >= 0 ==> |r| <= page.limit
  {
    var k := Find(t.rows, HasId(id));
    if k.None? then []
    else
      var logs := t.rows[k.value].url.logs;
      if page.cursor >= 0 && page.limit >= 0 then
        WindowIsSlice(logs, page);
        LogWindow(logs, page)
      else LogWindow(logs, page)
  }

  // ---- the other statements ----

  /** GetURL: WHERE id = $1, deleted or not. */
  function GetAnyUrl(t: Tables, id: int): (r: Result<Url>)
    ensures r.Ok? <==> exists i :: 0 <= i < |t.rows| && t.rows[i].url.id == id
    ensures r.Err? ==> r.error == ErrNoRows
    ensures r.Ok? ==> r.value.id == id && exists i :: 0 <= i < |t.rows| && t.rows[i].url == r.value
  {
    var k := Find(t.rows, HasId(id));
    if k.None? then
      assert forall i :: 0 <= i < |t.rows| ==> !HasId(id)(t.rows[i]);
      Err(ErrNoRows)
    else Ok(t.rows[k.value].url)
  }

  /** A live row reads the same in both generations. */
  lemma GetUrlAgrees(t: Tables, id: int)
    requires Valid(t) && UrlTables.GetUrl(t, id).Ok?
    ensures GetAnyUrl(t, id) == UrlTables.GetUrl(t, id)
  {
    var k := Find(t.rows, HasId(id)).value;
    var k' := Find(t.rows, HasIdAndLive(id)).value;
    FoundIsOnly(t, k, id);
    assert HasId(id)(t.rows[k']);
  }

  /** CreateYoutubeVideo: ON CONFLICT DO NOTHING RETURNING returns no row for
    * a known youtube id, so the scan reports ErrNoRows. */
  function InsertVideoOnConflict(t: Tables, youtubeId: string, now: int): (r: Result<(Tables, Video)>)
    ensures r.Err? <==> exists i :: 0 <= i < |t.videos| && t.videos[i].youtubeId == youtubeId
    ensures r.Err? ==> r.error == ErrNoRows
    ensures r.Ok? ==> r == InsertVideo(t, youtubeId, now)
  {
    if FindVideo(t.videos, youtubeId).Some? then Err(ErrNoRows)
    else InsertVideo(t, youtubeId, now)
  }

  class Store {
    var tables: Tables
    var faults: map<Stmt, Error>

    ghost predicate Valid()
      reads this
    {
      UrlTables.Valid(tables)
    }

    constructor (faults: map<Stmt, Error>)
      ensures Valid() && tables == Tables([], [], 1, 1) && this.faults == faults
    {
      tables := Tables([], [], 1, 1);
      this.faults := faults;
    }

    /** CreateURL */
    method CreateURL(u: Url, now: int) returns (r: Result<Url>)
      requires Valid()
      modifies this
      ensures Valid() && faults == old(faults)
      ensures CreateUrlStmt in faults ==> r == Err(faults[CreateUrlStmt]) && tables == old(tables)
      ensures CreateUrlStmt !in faults ==>
        var (t', v) := InsertUrl(old(tables), u.url, u.retries, now);
        tables == t' && r == Ok(u.(id := v.id, createdAt := v.createdAt, updatedAt := v.updatedAt, status := v.status))
    {
      if CreateUrlStmt in faults {
        return Err(faults[CreateUrlStmt]);
      }
      InsertUrlFound(tables, u.url, u.retries, now);
      var (t', v) := InsertUrl(tables, u.url, u.retries, now);
      tables := t';
      r := Ok(u.(id := v.id, createdAt := v.createdAt, updatedAt := v.updatedAt, status := v.status));
    }

    /** LockURL: the same guard as the api generation's. */
    method LockURL(u: Url) returns (r: Result<Url>)
      requires Valid()
      modifies this
      ensures Valid() && faults == old(faults)
      ensures LockUrlStmt in faults ==> r == Err(faults[LockUrlStmt]) && tables == old(tables)
      ensures LockUrlStmt !in faults ==>
        match Lock(old(tables), u)
        case Ok((t', v)) => tables == t' && r == Ok(v)
        case Err(e) => tables == old(tables) && r == Err(e)
    {
      if LockUrlStmt in faults {
        return Err(faults[LockUrlStmt]);
      }
      match Lock(tables, u)
      case Ok((t', v)) =>
        TablesIdsKept(tables, t');
        tables := t';
        r := Ok(v);
      case Err(e) =>
        r := Err(e);
    }

    /** UnlockURL: the same guard as the api generation's. */
    method UnlockURL(u: Url) returns (r: Result<Url>)
      requires Valid()
      modifies this
      ensures Valid() && faults == old(faults)
      ensures UnlockUrlStmt in faults ==> r == Err(faults[UnlockUrlStmt]) && tables == old(tables)
      ensures UnlockUrlStmt !in faults ==>
        match Unlock(old(tables), u)
        case Ok((t', v)) => tables == t' && r == Ok(v)
        case Err(e) => tables == old(tables) && r == Err(e)
    {
      if UnlockUrlStmt in faults {
        return Err(faults[UnlockUrlStmt]);
      }
      match Unlock(tables, u)
      case Ok((t', v)) =>
        TablesIdsKept(tables, t');
        tables := t';
        r := Ok(v);
      case Err(e) =>
        r := Err(e);
    }

    /** CreateLog: the line is appended, but the statement returns no row,
      * so the scan reports ErrNoRows even then. */
    method CreateLog(urlId: int, log: string) returns (err: Option<Error>)
      requires Valid()
      modifies this
      ensures Valid() && faults == old(faults)
      ensures AppendLogStmt in faults ==> err == Some(faults[AppendLogStmt]) && tables == old(tables)
      ensures AppendLogStmt !in faults ==> err == Some(ErrNoRows) && tables == UpdateById(old(tables), urlId, AppendLogTo(log))
    {
      if AppendLogStmt in faults {
        return Some(faults[AppendLogStmt]);
      }
      AppendLogAppends(tables, urlId, log);
      tables := UpdateById(tables, urlId, AppendLogTo(log));
      err := Some(ErrNoRows);
    }

    /** GetURL */
    method GetURL(id: int) returns (r: Result<Url>)
      ensures GetUrlStmt in faults ==> r == Err(faults[GetUrlStmt])
      ensures GetUrlStmt !in faults ==> r == GetAnyUrl(tables, id)
    {
      if GetUrlStmt in faults {
        return Err(faults[GetUrlStmt]);
      }
      r := GetAnyUrl(tables, id);
    }

    /** ListURLs: the database scans from the newest row; the loop appends
      * each selected row until `limit` rows have come back. */
    method ListURLs(page: Page) returns (r: Result<seq<Url>>)
      ensures ListUrlsStmt in faults ==> r == Err(faults[ListUrlsStmt])
      ensures ListUrlsStmt !in faults ==> r == ListPage(tables, page)
    {
      if ListUrlsStmt in faults {
        return Err(faults[ListUrlsStmt]);
      }
      if page.limit < 0 {
        return Err(Failure(NegativeLimit));
      }
      var rows := tables.rows;
      var urls: seq<Url> := [];
      var i := |rows|;
      assert rows[..i] == rows;
      while i > 0 && |urls| < page.limit
        invariant 0 <= i <= |rows| && |urls| <= page.limit
        invariant BelowCursor(rows, page.cursor) == urls + BelowCursor(rows[..i], page.cursor)
        decreases i
      {
        ListStep(rows, i, page.cursor, urls);
        var row := rows[i - 1];
        if page.cursor == 0 || row.url.id < page.cursor {
          urls := urls + [row.url];
        }
        i := i - 1;
      }
      UrlStore.Store.PageOfListed(BelowCursor(rows, page.cursor), urls, BelowCursor(rows[..i], page.cursor), page.limit, i == 0);
      r := Ok(urls);
    }

    /** ListLogs: the loop appends the lines of the window. */
    method ListLogs(urlId: int, page: Page) returns (r: Result<seq<string>>)
      ensures ListLogsStmt in faults ==> r == Err(faults[ListLogsStmt])
      ensures ListLogsStmt !in faults ==> r == Ok(LogsPage(tables, urlId, page))
    {
      if ListLogsStmt in faults {
        return Err(faults[ListLogsStmt]);
      }
      var lines := LogsPage(tables, urlId, page);
      var logs: seq<string> := [];
      var i := 0;
      while i < |lines|
        invariant 0 <= i <= |lines| && logs == lines[..i]
      {
        logs := logs + [lines[i]];
        i := i + 1;
      }
      assert lines[..i] == lines;
      r := Ok(logs);
    }

    /** CreateYoutubeVideo */
    method CreateYoutubeVideo(youtubeId: string, now: int) returns (r: Result<Video>)
      requires Valid()
      modifies this
      ensures Valid() && faults == old(faults)
      ensures CreateVideoStmt in faults ==> r == Err(faults[CreateVideoStmt]) && tables == old(tables)
      ensures CreateVideoStmt !in faults ==>
        match InsertVideoOnConflict(old(tables), youtubeId, now)
        case Ok((t', v)) => tables == t' && r == Ok(v)
        case Err(e) => tables == old(tables) && r == Err(e)
    {
      if CreateVideoStmt in faults {
        return Err(faults[CreateVideoStmt]);
      }
      match InsertVideoOnConflict(tables, youtubeId, now)
      case Ok((t', v)) =>
        InsertVideoFound(tables, youtubeId, now);
        tables := t';
        r := Ok(v);
      case Err(e) =>
        r := Err(e);
    }
  }
}
