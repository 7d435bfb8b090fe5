// Keyset pagination of the url list (api/store/store.go, buildListURLs and
// ListURLs).
//
// The statement selects the rows that are not deleted, whose status is in
// the requested set when one is given, and whose id is below the cursor when
// the cursor is not 0; newest (largest id) first, at most `limit` of them.
// NewestListed is that selection without the limit; the lemmas show that the
// id of a page's last row is the cursor of the next page, which then starts
// exactly where the previous one stopped.

module UrlListing {
  import opened Common
  import opened UrlModel
  import opened UrlTables
  import opened QbBuilder
  import opened QbExpr
  import opened QbSelect

  /** The WHERE of buildListURLs, read as a condition on a row. */
  predicate Listed(row: Row, q: UrlsQuery)
  {
    row.deletedAt.None?
    && (q.status.Some? ==> row.url.status in q.status.value)
    && (q.cursor != 0 ==> row.url.id < q.cursor)
  }

  /** The listed rows, scanned from the newest. */
  function NewestListed(rows: seq<Row>, q: UrlsQuery): (r: seq<Url>)
    ensures |r| <= |rows|
  {
    if rows == [] then []
    else
      var last := rows[|rows| - 1];
      var rest := NewestListed(rows[..|rows| - 1], q);
      if Listed(last, q) then [last.url] + rest else rest
  }

  function Min(a: int, b: int): int
  {
    if a <= b then a else b
  }

  const NegativeLimit := "LIMIT must not be negative"
  const EmptyIn := "syntax error at or near \")\""

  /** ListURLs: the first `limit` listed rows, newest first. A negative limit
    * is refused by the database, and so is the "status IN ()" an empty
    * (non-nil) status slice renders. */
  function ListUrls(t: Tables, q: UrlsQuery): Result<seq<Url>>
  {
    if q.limit < 0 then Err(Failure(NegativeLimit))
    else if q.status == Some([]) then Err(Failure(EmptyIn))
    else
      var all := NewestListed(t.rows, q);
      Ok(all[..Min(q.limit, |all|)])
  }

  lemma NewestListedStep(rows: seq<Row>, i: nat, q: UrlsQuery)
    requires 0 < i <= |rows|
    ensures NewestListed(rows[..i], q)
         == (if Listed(rows[i - 1], q) then [rows[i - 1].url] else []) + NewestListed(rows[..i - 1], q)
  {
    assert rows[..i][..i - 1] == rows[..i - 1];
  }

  /** Every listed url is the url of a listed row of the table. */
  lemma {:induction false} NewestListedMembers(rows: seq<Row>, q: UrlsQuery)
    ensures forall u :: u in NewestListed(rows, q) ==> exists i :: 0 <= i < |rows| && rows[i].url == u && Listed(rows[i], q)
  {
    if rows != [] {
      var prefix := rows[..|rows| - 1];
      var last := rows[|rows| - 1];
      var rest := NewestListed(prefix, q);
      NewestListedMembers(prefix, q);
      forall u | u in NewestListed(rows, q)
        ensures exists i :: 0 <= i < |rows| && rows[i].url == u && Listed(rows[i], q)
      {
        if Listed(last, q) && u == last.url {
          assert rows[|rows| - 1].url == u;
        } else {
          assert u in rest;
          var i :| 0 <= i < |prefix| && prefix[i].url == u && Listed(prefix[i], q);
          assert rows[i] == prefix[i];
        }
      }
    }
  }

  /** The listed ids lie in any range that holds every id of the table. */
  lemma {:induction false} NewestListedIds(rows: seq<Row>, q: UrlsQuery, lo: int, hi: int)
    requires forall i :: 0 <= i < |rows| ==> lo <= rows[i].url.id < hi
    ensures forall u :: u in NewestListed(rows, q) ==> lo <= u.id < hi
  {
    if rows != [] {
      var prefix := rows[..|rows| - 1];
      var last := rows[|rows| - 1];
      NewestListedIds(prefix, q, lo, hi);
      var rest := NewestListed(prefix, q);
      if Listed(last, q) {
        assert NewestListed(rows, q) == [last.url] + rest;
      }
    }
  }

  lemma AscendingPrefix(rows: seq<Row>, next: int)
    requires Ascending(rows, next) && rows != []
    ensures Ascending(rows[..|rows| - 1], next)
    ensures forall i :: 0 <= i < |rows| - 1 ==> 1 <= rows[i].url.id < rows[|rows| - 1].url.id
  {
  }

  /** Every listed row of an ascending table comes out, in strictly
    * decreasing id order. */
  lemma {:induction false} NewestListedDecreasing(rows: seq<Row>, next: int, q: UrlsQuery)
    requires Ascending(rows, next)
    ensures forall a, b :: 0 <= a < b < |NewestListed(rows, q)| ==> NewestListed(rows, q)[a].id > NewestListed(rows, q)[b].id
  {
    if rows != [] {
      var prefix := rows[..|rows| - 1];
      var last := rows[|rows| - 1];
      AscendingPrefix(rows, next);
      NewestListedDecreasing(prefix, next, q);
      NewestListedIds(prefix, q, 1, last.url.id);
      var rest := NewestListed(prefix, q);
      if Listed(last, q) {
        var r := [last.url] + rest;
        assert NewestListed(rows, q) == r;
        forall a, b | 0 <= a < b < |r|
          ensures r[a].id > r[b].id
        {
          assert r[b] == rest[b - 1];
          if a > 0 {
            assert r[a] == rest[a - 1];
          }
        }
      }
    }
  }

  /** Filters that agree on every row select the same rows. */
  lemma {:induction false} NewestListedAgree(rows: seq<Row>, q: UrlsQuery, q': UrlsQuery)
    requires forall i :: 0 <= i < |rows| ==> (Listed(rows[i], q) <==> Listed(rows[i], q'))
    ensures NewestListed(rows, q) == NewestListed(rows, q')
  {
    if rows != [] {
      NewestListedAgree(rows[..|rows| - 1], q, q');
    }
  }

  /** With the newest listed row's id as the cursor, the listing is that of
    * the older rows. */
  lemma CursorAtLast(rows: seq<Row>, next: int, q: UrlsQuery)
    requires Ascending(rows, next) && rows != [] && Listed(rows[|rows| - 1], q)
    ensures NewestListed(rows, q.(cursor := rows[|rows| - 1].url.id)) == NewestListed(rows[..|rows| - 1], q)
  {
    var prefix := rows[..|rows| - 1];
    var last := rows[|rows| - 1];
    var q' := q.(cursor := last.url.id);
    AscendingPrefix(rows, next);
    forall i | 0 <= i < |prefix|
      ensures Listed(prefix[i], q) <==> Listed(prefix[i], q')
    {
    }
    NewestListedAgree(prefix, q, q');
  }

  /** A non-zero cursor below the newest row's id excludes that row. */
  lemma CursorBelowLast(rows: seq<Row>, q: UrlsQuery, c: int)
    requires rows != [] && c != 0 && c <= rows[|rows| - 1].url.id
    ensures NewestListed(rows, q.(cursor := c)) == NewestListed(rows[..|rows| - 1], q.(cursor := c))
  {
  }

  /** Keyset pagination: with the id of the k-th listed row as the cursor,
    * the listing continues with the (k+1)-th row; nothing is skipped or
    * repeated. */
  lemma {:induction false} NextPageContinues(rows: seq<Row>, next: int, q: UrlsQuery, k: nat)
    requires Ascending(rows, next)
    requires 0 < k <= |NewestListed(rows, q)|
    ensures NewestListed(rows, q.(cursor := NewestListed(rows, q)[k - 1].id)) == NewestListed(rows, q)[k..]
  {
    var all := NewestListed(rows, q);
    var prefix := rows[..|rows| - 1];
    var last := rows[|rows| - 1];
    var rest := NewestListed(prefix, q);
    AscendingPrefix(rows, next);
    if Listed(last, q) && k == 1 {
      assert all == [last.url] + rest;
      CursorAtLast(rows, next, q);
    } else {
      var k' := if Listed(last, q) then k - 1 else k;
      assert all[k..] == rest[k'..] && all[k - 1] == rest[k' - 1];
      NewestListedIds(prefix, q, 1, last.url.id);
      CursorBelowLast(rows, q, all[k - 1].id);
      NextPageContinues(prefix, next, q, k');
    }
  }

  /** A ListURLs page: each url is listed and its row is in the table, ids
    * strictly decrease, at most `limit` urls come back, and a short page is
    * the whole remaining listing. */
  lemma ListUrlsPage(t: Tables, q: UrlsQuery)
    requires Valid(t) && ListUrls(t, q).Ok?
    ensures |ListUrls(t, q).value| <= q.limit
    ensures forall a, b :: 0 <= a < b < |ListUrls(t, q).value| ==> ListUrls(t, q).value[a].id > ListUrls(t, q).value[b].id
    ensures forall u :: u in ListUrls(t, q).value ==> exists i :: 0 <= i < |t.rows| && t.rows[i].url == u && Listed(t.rows[i], q)
    ensures |ListUrls(t, q).value| < q.limit ==> ListUrls(t, q).value == NewestListed(t.rows, q)
  {
    var all := NewestListed(t.rows, q);
    var page := ListUrls(t, q).value;
    assert page == all[..Min(q.limit, |all|)];
    NewestListedDecreasing(t.rows, t.nextUrlId, q);
    NewestListedMembers(t.rows, q);
    forall u | u in page
      ensures u in all
    {
      var j :| 0 <= j < |page| && page[j] == u;
      assert all[j] == u;
    }
  }

  /** The next page of ListURLs, asked for with the last id of a full page as
    * cursor, is the continuation of the listing. */
  lemma ListUrlsNextPage(t: Tables, q: UrlsQuery)
    requires Valid(t) && ListUrls(t, q).Ok? && |ListUrls(t, q).value| == q.limit > 0
    ensures var page := ListUrls(t, q).value;
      var all := NewestListed(t.rows, q);
      ListUrls(t, q.(cursor := page[|page| - 1].id))
        == Ok(all[q.limit..][..Min(q.limit, |all| - q.limit)])
  {
    var all := NewestListed(t.rows, q);
    NextPageContinues(t.rows, t.nextUrlId, q, q.limit);
  }

  // ---- buildListURLs ----

  /** The statement buildListURLs assembles, given the WHERE expression. */
  function ListSelect(q: UrlsQuery, where: Expr): SelectParts
  {
    SelectParts(ColumnArgs(ListColumns), Some("urls"), Some(where), Some("id desc"), Some(q.limit), None)
  }

  const ListColumns: seq<string> := ["id", "url", "created_at", "updated_at", "status", "error", "file", "retries"]

  /** NewSelect's columns for plain strings: each is wrapped as a value. */
  function ColumnArgs(names: seq<string>): seq<Expr>
  {
    seq(|names|, i requires 0 <= i < |names| => Val(VStr(names[i])))
  }

  /** `deleted_at IS NULL`, and `status IN (...)` when a status filter is given. */
  function StatusWhere(q: UrlsQuery): Expr
  {
    var e0 := IsNullOf(NewIdentifier("deleted_at"));
    if q.status.None? then e0 else And(NewBoolExpr(e0), Infix(Ident("status"), "IN", Array(Strings(q.status.value))))
  }

  /** The WHERE expression of buildListURLs: `deleted_at IS NULL`, then
    * `AND status IN (...)` when a status filter is given, then `AND id <
    * cursor` when the cursor is not 0, nested to the left. */
  function ListWhere(q: UrlsQuery): Expr
  {
    var e1 := StatusWhere(q);
    if q.cursor == 0 then e1 else And(NewBoolExpr(e1), LessThan(NewIdentifier("id"), VInt(q.cursor)))
  }

  /** buildListURLs */
  method BuildListUrls(q: UrlsQuery) returns (query: string, params: seq<Value>)
    ensures query == Render(SelectTokens(ListSelect(q, ListWhere(q))))
    ensures params == SelectParams(ListSelect(q, ListWhere(q)))
    ensures Placeholders(SelectTokens(ListSelect(q, ListWhere(q)))) == Numbers(1, |params|)
  {
    var cs: seq<Arg> := seq(|ListColumns|, i requires 0 <= i < |ListColumns| => ValueArg(VStr(ListColumns[i])));
    var stmt := new Select(cs);
    stmt.From("urls");
    var expr := IsNullOf(NewIdentifier("deleted_at"));
    if q.status.Some? {
      var inStatus := In(NewIdentifier("status"), StringSlice(q.status.value));
      expr := And(NewBoolExpr(expr), inStatus);
    }
    if q.cursor != 0 {
      expr := And(NewBoolExpr(expr), LessThan(NewIdentifier("id"), VInt(q.cursor)));
    }
    stmt.Where(expr);
    stmt.OrderBy("id desc");
    stmt.Limit(q.limit);
    assert stmt.columns == ColumnArgs(ListColumns);
    query, params := stmt.Build();
  }

  function StatusCount(q: UrlsQuery): nat
  {
    if q.status.None? then 0 else |q.status.value|
  }

  function StatusParams(q: UrlsQuery): seq<Value>
  {
    if q.status.None? then [] else Strings(q.status.value)
  }

  function CursorParams(q: UrlsQuery): seq<Value>
  {
    if q.cursor == 0 then [] else [VInt(q.cursor)]
  }

  /** The text of the first one or two conjuncts, after the 8 column names
    * have been bound. */
  function StatusString(q: UrlsQuery): string
  {
    "deleted_at IS NULL"
    + (if q.status.None? then "" else " AND " + ("status" + " IN (" + PlaceholderList(|q.status.value|, 8) + ")"))
  }

  function CursorString(q: UrlsQuery): string
  {
    if q.cursor == 0 then "" else " AND " + ("id" + " < $" + DecimalString(8 + StatusCount(q) + 1))
  }

  function WhereString(q: UrlsQuery): string
  {
    StatusString(q) + CursorString(q)
  }

  lemma AndTextEq(b: BoolExpr, r: Expr, n: nat, ls: string, rs: string)
    requires Render(ExprTokens(b.left, n)) == ls
    requires Render(ExprTokens(r, n + |ExprParams(b.left)|)) == rs
    ensures Render(ExprTokens(And(b, r), n)) == ls + (" AND " + rs)
    ensures ExprParams(And(b, r)) == ExprParams(b.left) + ExprParams(r)
  {
    AndText(b, r, n);
  }

  lemma StatusWhereText(q: UrlsQuery)
    ensures Render(ExprTokens(StatusWhere(q), 8)) == StatusString(q)
    ensures ExprParams(StatusWhere(q)) == StatusParams(q)
  {
    var e0 := IsNullOf(NewIdentifier("deleted_at"));
    IsNullText(NewIdentifier("deleted_at"), 8);
    if q.status.Some? {
      var ss := q.status.value;
      var r := Infix(Ident("status"), "IN", Array(Strings(ss)));
      InText("status", ss, 8);
      AndTextEq(NewBoolExpr(e0), r, 8, "deleted_at IS NULL", "status" + " IN (" + PlaceholderList(|ss|, 8) + ")");
    }
  }

  /** The conjuncts of the list query: `deleted_at IS NULL` always, the
    * status filter only for a non-nil Status, the cursor condition only for
    * a non-zero cursor and after the status filter; the parameters follow the
    * same order. */
  lemma ListWhereText(q: UrlsQuery)
    ensures Render(ExprTokens(ListWhere(q), 8)) == WhereString(q)
    ensures ExprParams(ListWhere(q)) == StatusParams(q) + CursorParams(q)
  {
    var e1 := StatusWhere(q);
    StatusWhereText(q);
    if q.cursor != 0 {
      var r := LessThan(NewIdentifier("id"), VInt(q.cursor));
      EqualAndLessThanText(NewIdentifier("id"), VInt(q.cursor), 8 + StatusCount(q));
      AndTextEq(NewBoolExpr(e1), r, 8, StatusString(q), "id" + " < $" + DecimalString(8 + StatusCount(q) + 1));
    } else {
      assert ListWhere(q) == e1;
    }
  }

  /** NewSelect's 8 column names are bound as $1..$8. */
  lemma ColumnsPart()
    ensures ColumnsParams(ColumnArgs(ListColumns)) == Strings(ListColumns)
    ensures Render(ColumnsTokens(ColumnArgs(ListColumns), 0)) == PlaceholderList(8, 0)
  {
    ValueColumnsText(ColumnArgs(ListColumns), Strings(ListColumns), 0);
    ListText(8, 0);
  }

  lemma WherePart(q: UrlsQuery)
    ensures Render(WhereTokens(Some(ListWhere(q)), 8)) == " WHERE " + WhereString(q)
    ensures WhereParams(Some(ListWhere(q))) == StatusParams(q) + CursorParams(q)
  {
    WhereText(Some(ListWhere(q)), 8);
    ListWhereText(q);
  }

  lemma FixedParts(limit: int, n: nat)
    ensures RawClauseString("FROM", Some("urls")) == " FROM urls"
    ensures RawClauseString("ORDER BY", Some("id desc")) == " ORDER BY id desc"
    ensures BoundClauseString("LIMIT", Some(limit), n) == " LIMIT $" + DecimalString(n + 1)
    ensures BoundClauseString("OFFSET", None, n) == ""
  {
  }

  /** The number of parameters bound before LIMIT. */
  function LimitPosition(q: UrlsQuery): nat
  {
    8 + StatusCount(q) + (if q.cursor == 0 then 0 else 1)
  }

  /** The list statement: the 8 column names bound as $1..$8 (the columns of
    * NewSelect are values), FROM urls, the WHERE above, ORDER BY id desc, and
    * the limit bound as the last parameter. */
  lemma ListSelectText(q: UrlsQuery)
    ensures Render(SelectTokens(ListSelect(q, ListWhere(q))))
         == "SELECT " + PlaceholderList(8, 0) + " FROM urls" + " WHERE " + WhereString(q)
            + " ORDER BY id desc" + " LIMIT $" + DecimalString(LimitPosition(q) + 1)
  {
    var c := ListSelect(q, ListWhere(q));
    ColumnsPart();
    WherePart(q);
    ListParamsOrder(q);
    FixedParts(q.limit, |ParamsThroughWhere(c)|);
    SelectTextEq(c, PlaceholderList(8, 0), " FROM urls", " WHERE " + WhereString(q), " ORDER BY id desc",
      " LIMIT $" + DecimalString(LimitPosition(q) + 1));
  }

  /** SelectText for a statement without OFFSET, with the text of each clause given. */
  lemma SelectTextEq(c: SelectParts, cols: string, from: string, where: string, order: string, limit: string)
    requires Render(ColumnsTokens(c.columns, 0)) == cols
    requires RawClauseString("FROM", c.from) == from
    requires Render(WhereTokens(c.where, |ColumnsParams(c.columns)|)) == where
    requires RawClauseString("ORDER BY", c.orderby) == order
    requires BoundClauseString("LIMIT", c.limit, |ParamsThroughWhere(c)|) == limit
    requires c.offset.None?
    ensures Render(SelectTokens(c)) == "SELECT " + cols + from + where + order + limit
  {
    SelectText(c);
    assert BoundClauseString("OFFSET", c.offset, |ParamsThroughLimit(c)|) == "";
  }

  /** The parameters of the list statement: the column names, the statuses,
    * the cursor when it is not 0, and the limit last. */
  lemma ListParamsOrder(q: UrlsQuery)
    ensures SelectParams(ListSelect(q, ListWhere(q)))
         == Strings(ListColumns) + StatusParams(q) + CursorParams(q) + [VInt(q.limit)]
    ensures |ParamsThroughWhere(ListSelect(q, ListWhere(q)))| == LimitPosition(q)
  {
    ColumnsPart();
    WherePart(q);
  }
}
