// SELECT statements (api/store/querybuilder/select.go).
//
// A Select holds its optional clauses; Build writes them in a fixed order
// (columns, FROM, WHERE, ORDER BY, LIMIT, OFFSET) into a fresh builder. The
// specification of Build is the pair SelectTokens / SelectParams; the lemmas
// below say what text that is and that its placeholders are $1..$n in the
// order of the parameters.

module QbSelect {
  import opened Common
  import opened QbBuilder
  import opened QbExpr

  /** newColumns */
  method NewColumns(cs: seq<Arg>) returns (exprs: seq<Expr>)
    ensures |exprs| == |cs|
    ensures forall i :: 0 <= i < |cs| ==> exprs[i] == ArgExpr(cs[i])
  {
    exprs := [];
    var i := 0;
    while i < |cs|
      invariant 0 <= i <= |cs|
      invariant |exprs| == i
      invariant forall j :: 0 <= j < i ==> exprs[j] == ArgExpr(cs[j])
    {
      exprs := exprs + [ArgExpr(cs[i])];
      i := i + 1;
    }
  }

  /** The parameters of a list of expressions, in order. */
  function ColumnsParams(es: seq<Expr>): seq<Value>
  {
    if es == [] then [] else ColumnsParams(es[..|es| - 1]) + ExprParams(es[|es| - 1])
  }

  /** columns.build: the expressions separated by ", ". */
  function ColumnsTokens(es: seq<Expr>, n: nat): seq<Token>
  {
    if es == [] then []
    else
      var prefix := es[..|es| - 1];
      ColumnsTokens(prefix, n) + (if |es| > 1 then [Text(", ")] else [])
        + ExprTokens(es[|es| - 1], n + |ColumnsParams(prefix)|)
  }

  /** The tokens of a clause whose argument is written raw. */
  function RawClauseTokens(keyword: string, arg: Option<string>): seq<Token>
  {
    if arg.None? then [] else [Text(" "), Text(keyword), Text(" "), Text(arg.value)]
  }

  /** The tokens of a clause whose argument is bound. */
  function BoundClauseTokens(keyword: string, arg: Option<int>, n: nat): seq<Token>
  {
    if arg.None? then [] else [Text(" "), Text(keyword), Text(" "), Placeholder(n + 1)]
  }

  /** The text of a raw clause: nothing when unset, else " KEYWORD arg". */
  function RawClauseString(keyword: string, arg: Option<string>): string
  {
    if arg.None? then "" else " " + keyword + " " + arg.value
  }

  /** The text of a bound clause: nothing when unset, else " KEYWORD $n+1". */
  function BoundClauseString(keyword: string, arg: Option<int>, n: nat): string
  {
    if arg.None? then "" else " " + keyword + " $" + DecimalString(n + 1)
  }

  function BoundClauseParams(arg: Option<int>): seq<Value>
  {
    if arg.None? then [] else [VInt(arg.value)]
  }

  /** where.build, preceded by the space the statement writes. */
  function WhereTokens(where: Option<Expr>, n: nat): seq<Token>
  {
    if where.None? then [] else [Text(" "), Text("WHERE"), Text(" ")] + ExprTokens(where.value, n)
  }

  function WhereParams(where: Option<Expr>): seq<Value>
  {
    if where.None? then [] else ExprParams(where.value)
  }

  datatype SelectParts = SelectParts(
    columns: seq<Expr>,
    from: Option<string>,
    where: Option<Expr>,
    orderby: Option<string>,
    limit: Option<int>,
    offset: Option<int>)

  /** The parameters bound up to and including the WHERE clause. */
  function ParamsThroughWhere(c: SelectParts): seq<Value>
  {
    ColumnsParams(c.columns) + WhereParams(c.where)
  }

  function ParamsThroughLimit(c: SelectParts): seq<Value>
  {
    ParamsThroughWhere(c) + BoundClauseParams(c.limit)
  }

  /** The parameters a SELECT binds: columns, WHERE, LIMIT, OFFSET. */
  function SelectParams(c: SelectParts): seq<Value>
  {
    ParamsThroughLimit(c) + BoundClauseParams(c.offset)
  }

  // What Build has written after each of its steps.

  function SelectHead(c: SelectParts): seq<Token>
  {
    [Text("SELECT ")] + ColumnsTokens(c.columns, 0)
  }

  function ThroughFrom(c: SelectParts): seq<Token>
  {
    SelectHead(c) + RawClauseTokens("FROM", c.from)
  }

  function ThroughWhere(c: SelectParts): seq<Token>
  {
    ThroughFrom(c) + WhereTokens(c.where, |ColumnsParams(c.columns)|)
  }

  function ThroughOrderBy(c: SelectParts): seq<Token>
  {
    ThroughWhere(c) + RawClauseTokens("ORDER BY", c.orderby)
  }

  function ThroughLimit(c: SelectParts): seq<Token>
  {
    ThroughOrderBy(c) + BoundClauseTokens("LIMIT", c.limit, |ParamsThroughWhere(c)|)
  }

  /** Everything Build writes. */
  function SelectTokens(c: SelectParts): seq<Token>
  {
    ThroughLimit(c) + BoundClauseTokens("OFFSET", c.offset, |ParamsThroughLimit(c)|)
  }

  /** columns.build */
  method BuildColumns(es: seq<Expr>, b: Builder)
    modifies b
    ensures b.buf == old(b.buf) + ColumnsTokens(es, |old(b.params)|)
    ensures b.params == old(b.params) + ColumnsParams(es)
  {
    ghost var n := |b.params|;
    ghost var buf0, params0 := b.buf, b.params;
    var i := 0;
    while i < |es|
      invariant 0 <= i <= |es|
      invariant b.buf == buf0 + ColumnsTokens(es[..i], n)
      invariant b.params == params0 + ColumnsParams(es[..i])
    {
      ColumnsSnoc(es, i, n);
      ghost var sofar, ps := ColumnsTokens(es[..i], n), ColumnsParams(es[..i]);
      BuildColumn(i > 0, es[i], b);
      AppendTwice(buf0, sofar, (if i > 0 then [Text(", ")] else []) + ExprTokens(es[i], n + |ps|));
      ValuesAppendTwice(params0, ps, ExprParams(es[i]));
      i := i + 1;
    }
    assert es[..i] == es;
  }

  lemma AppendTwice(a: seq<Token>, b: seq<Token>, c: seq<Token>)
    ensures a + b + c == a + (b + c)
  {
  }

  lemma ValuesAppendTwice(a: seq<Value>, b: seq<Value>, c: seq<Value>)
    ensures a + b + c == a + (b + c)
  {
  }

  /** The columns up to i + 1: those up to i, a separator unless i is 0,
    * then column i numbered after the parameters before it. */
  lemma ColumnsSnoc(es: seq<Expr>, i: nat, n: nat)
    requires i < |es|
    ensures ColumnsTokens(es[..i + 1], n)
         == ColumnsTokens(es[..i], n) + ((if i > 0 then [Text(", ")] else []) + ExprTokens(es[i], n + |ColumnsParams(es[..i])|))
    ensures ColumnsParams(es[..i + 1]) == ColumnsParams(es[..i]) + ExprParams(es[i])
  {
    var front := es[..i + 1];
    assert front[..i] == es[..i] && front[i] == es[i];
    var sep: seq<Token> := if i > 0 then [Text(", ")] else [];
    AppendTwice(ColumnsTokens(es[..i], n), sep, ExprTokens(es[i], n + |ColumnsParams(es[..i])|));
  }

  /** One iteration of columns.build: the separator, then the expression. */
  method BuildColumn(needcomma: bool, e: Expr, b: Builder)
    modifies b
    ensures b.buf == old(b.buf) + ((if needcomma then [Text(", ")] else []) + ExprTokens(e, |old(b.params)|))
    ensures b.params == old(b.params) + ExprParams(e)
  {
    ghost var buf0 := b.buf;
    if needcomma {
      b.Write(", ");
    }
    BuildExpr(e, b);
    AppendTwice(buf0, if needcomma then [Text(", ")] else [], ExprTokens(e, |old(b.params)|));
  }

  /** A clause written raw: " " keyword " " argument (from, orderby). */
  method BuildRawClause(keyword: string, arg: Option<string>, b: Builder)
    modifies b
    ensures b.buf == old(b.buf) + RawClauseTokens(keyword, arg)
    ensures b.params == old(b.params)
  {
    if arg.Some? {
      b.Write(" ");
      b.Write(keyword);
      b.Write(" ");
      b.Write(arg.value);
    }
  }

  /** A clause with a bound argument: " " keyword " " $n (limit, offset). */
  method BuildBoundClause(keyword: string, arg: Option<int>, b: Builder)
    modifies b
    ensures b.buf == old(b.buf) + BoundClauseTokens(keyword, arg, |old(b.params)|)
    ensures b.params == old(b.params) + BoundClauseParams(arg)
  {
    if arg.Some? {
      b.Write(" ");
      b.Write(keyword);
      b.Write(" ");
      b.Bind(VInt(arg.value));
    }
  }

  /** where.build, preceded by the statement's space. */
  method BuildWhere(where: Option<Expr>, b: Builder)
    modifies b
    ensures b.buf == old(b.buf) + WhereTokens(where, |old(b.params)|)
    ensures b.params == old(b.params) + WhereParams(where)
  {
    if where.Some? {
      b.Write(" ");
      b.Write("WHERE");
      b.Write(" ");
      BuildExpr(where.value, b);
    }
  }

  class Select {
    var columns: seq<Expr>
    var from: Option<string>
    var where: Option<Expr>
    var orderby: Option<string>
    var limit: Option<int>
    var offset: Option<int>

    function Clauses(): SelectParts
      reads this
    {
      SelectParts(columns, from, where, orderby, limit, offset)
    }

    /** NewSelect(columns...) */
    constructor (cs: seq<Arg>)
      ensures |columns| == |cs| && forall i :: 0 <= i < |cs| ==> columns[i] == ArgExpr(cs[i])
      ensures from.None? && where.None? && orderby.None? && limit.None? && offset.None?
    {
      var exprs := NewColumns(cs);
      columns := exprs;
      from := None;
      where := None;
      orderby := None;
      limit := None;
      offset := None;
    }

    method From(table: string)
      modifies this
      ensures Clauses() == old(Clauses()).(from := Some(table))
    {
      from := Some(table);
    }

    method Where(e: Expr)
      modifies this
      ensures Clauses() == old(Clauses()).(where := Some(e))
    {
      where := Some(e);
    }

    method OrderBy(s: string)
      modifies this
      ensures Clauses() == old(Clauses()).(orderby := Some(s))
    {
      orderby := Some(s);
    }

    method Limit(i: int)
      modifies this
      ensures Clauses() == old(Clauses()).(limit := Some(i))
    {
      limit := Some(i);
    }

    method Offset(i: int)
      modifies this
      ensures Clauses() == old(Clauses()).(offset := Some(i))
    {
      offset := Some(i);
    }

    /** Build: the query text and its parameters; placeholder $i refers to
      * params[i-1]. */
    method Build() returns (query: string, params: seq<Value>)
      ensures query == Render(SelectTokens(Clauses()))
      ensures params == SelectParams(Clauses())
      ensures Placeholders(SelectTokens(Clauses())) == Numbers(1, |params|)
    {
      ghost var c := Clauses();
      var b := new Builder();
      b.Write("SELECT ");
      BuildColumns(columns, b);
      assert b.buf == SelectHead(c) && b.params == ColumnsParams(c.columns);
      BuildRawClause("FROM", from, b);
      assert b.buf == ThroughFrom(c);
      BuildWhere(where, b);
      assert b.buf == ThroughWhere(c) && b.params == ParamsThroughWhere(c);
      BuildRawClause("ORDER BY", orderby, b);
      assert b.buf == ThroughOrderBy(c);
      BuildBoundClause("LIMIT", limit, b);
      assert b.buf == ThroughLimit(c) && b.params == ParamsThroughLimit(c);
      BuildBoundClause("OFFSET", offset, b);
      query := b.String();
      params := b.params;
      SelectNumbered(Clauses());
    }
  }

  lemma {:induction false} ColumnsNumbered(es: seq<Expr>, n: nat)
    ensures NumberedFrom(ColumnsTokens(es, n), n, |ColumnsParams(es)|)
  {
    if es != [] {
      var prefix := es[..|es| - 1];
      var k := |ColumnsParams(prefix)|;
      ColumnsNumbered(prefix, n);
      ExprNumbered(es[|es| - 1], n + k);
      var sep: seq<Token> := if |es| > 1 then [Text(", ")] else [];
      TextOnly(sep);
      NumberedAroundText(ColumnsTokens(prefix, n), sep, ExprTokens(es[|es| - 1], n + k),
        n, k, |ExprParams(es[|es| - 1])|);
    }
  }

  lemma BoundClauseNumbered(keyword: string, arg: Option<int>, n: nat)
    ensures NumberedFrom(BoundClauseTokens(keyword, arg, n), n, |BoundClauseParams(arg)|)
  {
    if arg.Some? {
      var head: seq<Token> := [Text(" "), Text(keyword), Text(" ")];
      TextOnly(head);
      PlaceholdersAppend(head, [Placeholder(n + 1)]);
      assert BoundClauseTokens(keyword, arg, n) == head + [Placeholder(n + 1)];
      assert Placeholders([Placeholder(n + 1)]) == [n + 1];
    } else {
      assert BoundClauseTokens(keyword, arg, n) == [];
    }
  }

  lemma WhereNumbered(where: Option<Expr>, n: nat)
    ensures NumberedFrom(WhereTokens(where, n), n, |WhereParams(where)|)
  {
    if where.Some? {
      var head: seq<Token> := [Text(" "), Text("WHERE"), Text(" ")];
      TextOnly(head);
      ExprNumbered(where.value, n);
      NumberedConcat(head, n, 0, ExprTokens(where.value, n), |ExprParams(where.value)|);
    } else {
      assert WhereTokens(where, n) == [];
    }
  }

  lemma RawClauseText(keyword: string, arg: Option<string>)
    ensures Placeholders(RawClauseTokens(keyword, arg)) == []
    ensures Render(RawClauseTokens(keyword, arg)) == RawClauseString(keyword, arg)
  {
    if arg.Some? {
      var t1 := [Text(" ")];
      var t2 := t1 + [Text(keyword)];
      var t3 := t2 + [Text(" ")];
      var t4 := t3 + [Text(arg.value)];
      assert RawClauseTokens(keyword, arg) == t4;
      TextOnly(t4);
      RenderSingle(Text(" "));
      RenderSnoc(t1, Text(keyword));
      RenderSnoc(t2, Text(" "));
      RenderSnoc(t3, Text(arg.value));
    } else {
      assert RawClauseTokens(keyword, arg) == [];
    }
  }

  lemma BoundClauseText(keyword: string, arg: Option<int>, n: nat)
    ensures Render(BoundClauseTokens(keyword, arg, n)) == BoundClauseString(keyword, arg, n)
  {
    if arg.Some? {
      var t1 := [Text(" ")];
      var t2 := t1 + [Text(keyword)];
      var t3 := t2 + [Text(" ")];
      var t4 := t3 + [Placeholder(n + 1)];
      assert BoundClauseTokens(keyword, arg, n) == t4;
      RenderSingle(Text(" "));
      RenderSnoc(t1, Text(keyword));
      RenderSnoc(t2, Text(" "));
      RenderSnoc(t3, Placeholder(n + 1));
    } else {
      assert BoundClauseTokens(keyword, arg, n) == [];
    }
  }

  lemma WhereText(where: Option<Expr>, n: nat)
    ensures Render(WhereTokens(where, n))
         == (if where.None? then "" else " WHERE " + Render(ExprTokens(where.value, n)))
  {
    if where.Some? {
      var t1 := [Text(" ")];
      var t2 := t1 + [Text("WHERE")];
      var t3 := t2 + [Text(" ")];
      assert WhereTokens(where, n) == t3 + ExprTokens(where.value, n);
      RenderSingle(Text(" "));
      RenderSnoc(t1, Text("WHERE"));
      RenderSnoc(t2, Text(" "));
      RenderAppend(t3, ExprTokens(where.value, n));
    } else {
      assert WhereTokens(where, n) == [];
    }
  }

  lemma AppendRawNumbered(prefix: seq<Token>, n: nat, k: nat, keyword: string, arg: Option<string>)
    requires NumberedFrom(prefix, n, k)
    ensures NumberedFrom(prefix + RawClauseTokens(keyword, arg), n, k)
  {
    RawClauseText(keyword, arg);
    NumberedConcat(prefix, n, k, RawClauseTokens(keyword, arg), 0);
  }

  lemma AppendBoundNumbered(prefix: seq<Token>, k: nat, keyword: string, arg: Option<int>)
    requires NumberedFrom(prefix, 0, k)
    ensures NumberedFrom(prefix + BoundClauseTokens(keyword, arg, k), 0, k + |BoundClauseParams(arg)|)
  {
    BoundClauseNumbered(keyword, arg, k);
    NumberedConcat(prefix, 0, k, BoundClauseTokens(keyword, arg, k), |BoundClauseParams(arg)|);
  }

  lemma AppendWhereNumbered(prefix: seq<Token>, k: nat, where: Option<Expr>)
    requires NumberedFrom(prefix, 0, k)
    ensures NumberedFrom(prefix + WhereTokens(where, k), 0, k + |WhereParams(where)|)
  {
    WhereNumbered(where, k);
    NumberedConcat(prefix, 0, k, WhereTokens(where, k), |WhereParams(where)|);
  }

  lemma HeadNumbered(c: SelectParts)
    ensures NumberedFrom(SelectHead(c), 0, |ColumnsParams(c.columns)|)
  {
    ColumnsNumbered(c.columns, 0);
    WordNumbered("SELECT ", ColumnsTokens(c.columns, 0), 0, |ColumnsParams(c.columns)|);
  }

  /** The placeholders of a SELECT are $1..$n, one per parameter, in the
    * order the parameters are listed. */
  lemma SelectNumbered(c: SelectParts)
    ensures NumberedFrom(SelectTokens(c), 0, |SelectParams(c)|)
  {
    var k := |ColumnsParams(c.columns)|;
    assert NumberedFrom(ThroughFrom(c), 0, k) by {
      HeadNumbered(c);
      AppendRawNumbered(SelectHead(c), 0, k, "FROM", c.from);
    }
    assert NumberedFrom(ThroughOrderBy(c), 0, |ParamsThroughWhere(c)|) by {
      AppendWhereNumbered(ThroughFrom(c), k, c.where);
      AppendRawNumbered(ThroughWhere(c), 0, |ParamsThroughWhere(c)|, "ORDER BY", c.orderby);
    }
    assert NumberedFrom(ThroughLimit(c), 0, |ParamsThroughLimit(c)|) by {
      AppendBoundNumbered(ThroughOrderBy(c), |ParamsThroughWhere(c)|, "LIMIT", c.limit);
    }
    AppendBoundNumbered(ThroughLimit(c), |ParamsThroughLimit(c)|, "OFFSET", c.offset);
  }

  /** The text of a SELECT: the clauses that are set, in the fixed order
    * FROM, WHERE, ORDER BY, LIMIT, OFFSET, each preceded by one space; the
    * table and the ordering are written raw, LIMIT and OFFSET are bound
    * after the parameters of the columns and of the WHERE expression. */
  lemma SelectText(c: SelectParts)
    ensures Render(SelectTokens(c)) ==
      "SELECT " + Render(ColumnsTokens(c.columns, 0))
      + RawClauseString("FROM", c.from)
      + Render(WhereTokens(c.where, |ColumnsParams(c.columns)|))
      + RawClauseString("ORDER BY", c.orderby)
      + BoundClauseString("LIMIT", c.limit, |ParamsThroughWhere(c)|)
      + BoundClauseString("OFFSET", c.offset, |ParamsThroughLimit(c)|)
  {
    RenderSingle(Text("SELECT "));
    RenderAppend([Text("SELECT ")], ColumnsTokens(c.columns, 0));
    RenderAppend(SelectHead(c), RawClauseTokens("FROM", c.from));
    RawClauseText("FROM", c.from);
    RenderAppend(ThroughFrom(c), WhereTokens(c.where, |ColumnsParams(c.columns)|));
    RenderAppend(ThroughWhere(c), RawClauseTokens("ORDER BY", c.orderby));
    RawClauseText("ORDER BY", c.orderby);
    RenderAppend(ThroughOrderBy(c), BoundClauseTokens("LIMIT", c.limit, |ParamsThroughWhere(c)|));
    BoundClauseText("LIMIT", c.limit, |ParamsThroughWhere(c)|);
    RenderAppend(ThroughLimit(c), BoundClauseTokens("OFFSET", c.offset, |ParamsThroughLimit(c)|));
    BoundClauseText("OFFSET", c.offset, |ParamsThroughLimit(c)|);
  }

  /** Columns that are plain values (such as column names handed over as
    * strings) are each bound: the list renders as $n+1, ..., $n+k. */
  lemma {:induction false} ValueColumnsText(es: seq<Expr>, vs: seq<Value>, n: nat)
    requires |es| == |vs| && forall i :: 0 <= i < |es| ==> es[i] == Val(vs[i])
    ensures ColumnsParams(es) == vs
    ensures ColumnsTokens(es, n) == ListTokens(|vs|, n)
  {
    if vs != [] {
      var k := |vs| - 1;
      ValueColumnsText(es[..k], vs[..k], n);
      assert es == es[..k] + [Val(vs[k])];
      assert vs == vs[..k] + [vs[k]];
      ValueColumnsStep(es[..k], vs[..k], vs[k], n);
    }
  }

  /** One more value column extends the placeholder list by one. */
  lemma ValueColumnsStep(p: seq<Expr>, ps: seq<Value>, v: Value, n: nat)
    requires |p| == |ps|
    requires ColumnsParams(p) == ps
    requires ColumnsTokens(p, n) == ListTokens(|ps|, n)
    ensures ColumnsParams(p + [Val(v)]) == ps + [v]
    ensures ColumnsTokens(p + [Val(v)], n) == ListTokens(|ps| + 1, n)
  {
    ValueColumnAppend(p, v, n);
    ListSnoc(|ps|, n);
  }

  lemma ValueColumnAppend(p: seq<Expr>, v: Value, n: nat)
    requires |ColumnsParams(p)| == |p|
    ensures ColumnsParams(p + [Val(v)]) == ColumnsParams(p) + [v]
    ensures ColumnsTokens(p + [Val(v)], n)
         == ColumnsTokens(p, n) + ((if |p| > 0 then [Text(", ")] else []) + [Placeholder(n + |p| + 1)])
  {
    ColumnsAppend(p, Val(v), n);
  }

  lemma ListSnoc(k: nat, n: nat)
    ensures ListTokens(k + 1, n) == ListTokens(k, n) + ((if k > 0 then [Text(", ")] else []) + [Placeholder(n + k + 1)])
  {
    AppendTwice(ListTokens(k, n), if k > 0 then [Text(", ")] else [], [Placeholder(n + k + 1)]);
  }

  /** One more column: a separator unless it is the first, then the column
    * numbered after the parameters before it. */
  lemma ColumnsAppend(es: seq<Expr>, e: Expr, n: nat)
    ensures ColumnsTokens(es + [e], n)
         == ColumnsTokens(es, n) + ((if es != [] then [Text(", ")] else []) + ExprTokens(e, n + |ColumnsParams(es)|))
    ensures ColumnsParams(es + [e]) == ColumnsParams(es) + ExprParams(e)
  {
    var all := es + [e];
    assert all[..|es|] == es && all[|es|] == e;
    AppendTwice(ColumnsTokens(es, n), if es != [] then [Text(", ")] else [], ExprTokens(e, n + |ColumnsParams(es)|));
  }
}
