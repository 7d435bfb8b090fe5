// INSERT statements (api/store/querybuilder/insert.go), and the RETURNING
// clause that UPDATE shares with them.
//
// The column names of an INSERT and the names of a RETURNING clause are
// written raw; only VALUES binds parameters. Build is specified by
// InsertTokens / InsertParams, whose text and numbering the lemmas give.

module QbInsert {
  import opened Common
  import opened QbBuilder
  import opened QbExpr

  /** Names written raw and separated by ", " (the column list, RETURNING). */
  function NamesTokens(names: seq<string>): seq<Token>
  {
    if names == [] then []
    else
      NamesTokens(names[..|names| - 1]) + (if |names| > 1 then [Text(", ")] else []) + [Text(names[|names| - 1])]
  }

  /** values.build: "VALUES(" then each value bound, then ")". */
  function ValuesTokens(vs: seq<Value>, n: nat): seq<Token>
  {
    [Text("VALUES(")] + ListTokens(|vs|, n) + [Text(")")]
  }

  /** returning.build: "RETURNING " then the names, then an empty write. */
  function ReturningTokens(names: seq<string>): seq<Token>
  {
    [Text("RETURNING ")] + NamesTokens(names) + [Text("")]
  }

  /** An optional clause, preceded by the space the statement writes. */
  function OptionalClause(clause: Option<seq<Token>>): seq<Token>
  {
    if clause.None? then [] else [Text(" ")] + clause.value
  }

  datatype InsertParts = InsertParts(
    table: string,
    columns: seq<string>,
    values: Option<seq<Value>>,
    returning: Option<seq<string>>)

  function InsertHead(c: InsertParts): seq<Token>
  {
    [Text("INSERT INTO " + c.table + "(")] + NamesTokens(c.columns) + [Text(")")]
  }

  function ValuesClause(c: InsertParts): seq<Token>
  {
    OptionalClause(if c.values.None? then None else Some(ValuesTokens(c.values.value, 0)))
  }

  function ReturningClause(r: Option<seq<string>>): seq<Token>
  {
    OptionalClause(if r.None? then None else Some(ReturningTokens(r.value)))
  }

  /** Everything InsertStmt.Build writes. */
  function InsertTokens(c: InsertParts): seq<Token>
  {
    InsertHead(c) + ValuesClause(c) + ReturningClause(c.returning)
  }

  /** The parameters of an INSERT: the VALUES, in order. */
  function InsertParams(c: InsertParts): seq<Value>
  {
    if c.values.None? then [] else c.values.value
  }

  /** The names loop of Build and of returning.build. */
  method WriteNames(names: seq<string>, b: Builder)
    modifies b
    ensures b.buf == old(b.buf) + NamesTokens(names)
    ensures b.params == old(b.params)
  {
    var i := 0;
    while i < |names|
      invariant 0 <= i <= |names|
      invariant b.buf == old(b.buf) + NamesTokens(names[..i])
      invariant b.params == old(b.params)
    {
      ghost var before := b.buf;
      if i > 0 {
        b.Write(", ");
      }
      b.Write(names[i]);
      assert names[..i + 1][..i] == names[..i];
      assert b.buf == before + (if i > 0 then [Text(", ")] else []) + [Text(names[i])];
      i := i + 1;
    }
    assert names[..i] == names;
  }

  /** values.build */
  method BuildValues(vs: seq<Value>, b: Builder)
    modifies b
    ensures b.buf == old(b.buf) + ValuesTokens(vs, |old(b.params)|)
    ensures b.params == old(b.params) + vs
  {
    b.Write("VALUES(");
    BindList(vs, b);
    b.Write(")");
  }

  /** returning.build */
  method BuildReturning(names: seq<string>, b: Builder)
    modifies b
    ensures b.buf == old(b.buf) + ReturningTokens(names)
    ensures b.params == old(b.params)
  {
    b.Write("RETURNING ");
    WriteNames(names, b);
    b.Write("");
  }

  /** The optional RETURNING clause of Build. */
  method BuildOptionalReturning(r: Option<seq<string>>, b: Builder)
    modifies b
    ensures b.buf == old(b.buf) + ReturningClause(r)
    ensures b.params == old(b.params)
  {
    if r.Some? {
      b.Write(" ");
      BuildReturning(r.value, b);
    }
  }

  class InsertStmt {
    var table: string
    var columns: seq<string>
    var values: Option<seq<Value>>
    var returning: Option<seq<string>>

    function Clauses(): InsertParts
      reads this
    {
      InsertParts(table, columns, values, returning)
    }

    /** Insert(table, columns) */
    constructor (table: string, columns: seq<string>)
      ensures Clauses() == InsertParts(table, columns, None, None)
    {
      this.table := table;
      this.columns := columns;
      values := None;
      returning := None;
    }

    /** Values: replaces any earlier VALUES clause. */
    method Values(vs: seq<Value>)
      modifies this
      ensures Clauses() == old(Clauses()).(values := Some(vs))
    {
      values := Some(vs);
    }

    /** Returning: replaces any earlier RETURNING clause. */
    method Returning(names: seq<string>)
      modifies this
      ensures Clauses() == old(Clauses()).(returning := Some(names))
    {
      returning := Some(names);
    }

    /** Build: the statement text and its parameters. */
    method Build() returns (query: string, params: seq<Value>)
      ensures query == Render(InsertTokens(Clauses()))
      ensures params == InsertParams(Clauses())
      ensures Placeholders(InsertTokens(Clauses())) == Numbers(1, |params|)
    {
      ghost var c := Clauses();
      var b := new Builder();
      b.Write("INSERT INTO " + table + "(");
      WriteNames(columns, b);
      b.Write(")");
      assert b.buf == InsertHead(c) && b.params == [];
      if values.Some? {
        b.Write(" ");
        BuildValues(values.value, b);
      }
      assert b.buf == InsertHead(c) + ValuesClause(c);
      BuildOptionalReturning(returning, b);
      query := b.String();
      params := b.params;
      InsertNumbered(c);
    }
  }

  lemma {:induction false} NamesText(names: seq<string>)
    ensures Placeholders(NamesTokens(names)) == []
    ensures Render(NamesTokens(names)) == Join(names, ", ")
  {
    if names != [] {
      var prefix := names[..|names| - 1];
      NamesText(prefix);
      var prev := NamesTokens(prefix);
      var last := Text(names[|names| - 1]);
      if |names| > 1 {
        assert NamesTokens(names) == prev + [Text(", ")] + [last];
        RenderSnoc(prev, Text(", "));
        RenderSnoc(prev + [Text(", ")], last);
        PlaceholdersAppend(prev, [Text(", ")]);
        PlaceholdersAppend(prev + [Text(", ")], [last]);
      } else {
        assert NamesTokens(names) == [last];
        RenderSingle(last);
      }
    }
  }

  function ValuesString(vs: seq<Value>, n: nat): string
  {
    "VALUES(" + PlaceholderList(|vs|, n) + ")"
  }

  function ReturningString(names: seq<string>): string
  {
    "RETURNING " + Join(names, ", ")
  }

  /** values.build binds each value and renders "VALUES($n+1, ..., $n+k)". */
  lemma ValuesText(vs: seq<Value>, n: nat)
    ensures Render(ValuesTokens(vs, n)) == ValuesString(vs, n)
    ensures NumberedFrom(ValuesTokens(vs, n), n, |vs|)
  {
    RenderThree([Text("VALUES(")], ListTokens(|vs|, n), [Text(")")]);
    RenderSingle(Text("VALUES("));
    RenderSingle(Text(")"));
    ListText(|vs|, n);
    ValuesNumbered(vs, n);
  }

  lemma ValuesNumbered(vs: seq<Value>, n: nat)
    ensures NumberedFrom(ValuesTokens(vs, n), n, |vs|)
  {
    ListNumbered(|vs|, n);
    TextOnly([Text("VALUES(")]);
    NumberedConcat([Text("VALUES(")], n, 0, ListTokens(|vs|, n), |vs|);
    SuffixNumbered([Text("VALUES(")] + ListTokens(|vs|, n), n, |vs|, ")");
  }

  /** returning.build writes the names raw and binds nothing. */
  lemma ReturningText(names: seq<string>)
    ensures Render(ReturningTokens(names)) == ReturningString(names)
    ensures Placeholders(ReturningTokens(names)) == []
  {
    NamesText(names);
    RenderThree([Text("RETURNING ")], NamesTokens(names), [Text("")]);
    RenderSingle(Text("RETURNING "));
    RenderSingle(Text(""));
    TextOnly([Text("RETURNING ")]);
    TextOnly([Text("")]);
    PlaceholdersAppend([Text("RETURNING ")], NamesTokens(names));
    PlaceholdersAppend([Text("RETURNING ")] + NamesTokens(names), [Text("")]);
  }

  lemma OptionalClauseText(clause: Option<seq<Token>>)
    ensures Render(OptionalClause(clause)) == (if clause.None? then "" else " " + Render(clause.value))
    ensures Placeholders(OptionalClause(clause)) == (if clause.None? then [] else Placeholders(clause.value))
  {
    if clause.Some? {
      RenderAppend([Text(" ")], clause.value);
      RenderSingle(Text(" "));
      TextOnly([Text(" ")]);
      PlaceholdersAppend([Text(" ")], clause.value);
    }
  }

  function ReturningClauseString(r: Option<seq<string>>): string
  {
    if r.None? then "" else " " + ReturningString(r.value)
  }

  /** An optional RETURNING clause renders as " RETURNING a, b" and binds nothing. */
  lemma ReturningClauseText(r: Option<seq<string>>)
    ensures Render(ReturningClause(r)) == ReturningClauseString(r)
    ensures Placeholders(ReturningClause(r)) == []
  {
    var clause := if r.None? then None else Some(ReturningTokens(r.value));
    OptionalClauseText(clause);
    if r.Some? {
      ReturningText(r.value);
    }
  }

  lemma ReturningNumbered(r: Option<seq<string>>, n: nat)
    ensures NumberedFrom(ReturningClause(r), n, 0)
  {
    ReturningClauseText(r);
  }

  lemma InsertHeadText(c: InsertParts)
    ensures Placeholders(InsertHead(c)) == []
    ensures Render(InsertHead(c)) == "INSERT INTO " + c.table + "(" + Join(c.columns, ", ") + ")"
  {
    NamesText(c.columns);
    TextOnly([Text("INSERT INTO " + c.table + "(")]);
    TextOnly([Text(")")]);
    NumberedAroundText([Text("INSERT INTO " + c.table + "(")], NamesTokens(c.columns), [Text(")")], 0, 0, 0);
    RenderThree([Text("INSERT INTO " + c.table + "(")], NamesTokens(c.columns), [Text(")")]);
    RenderSingle(Text("INSERT INTO " + c.table + "("));
    RenderSingle(Text(")"));
  }

  lemma ValuesClauseText(c: InsertParts)
    ensures NumberedFrom(ValuesClause(c), 0, |InsertParams(c)|)
    ensures Render(ValuesClause(c)) == (if c.values.None? then "" else " " + ValuesString(c.values.value, 0))
  {
    var clause := if c.values.None? then None else Some(ValuesTokens(c.values.value, 0));
    OptionalClauseText(clause);
    if c.values.Some? {
      ValuesText(c.values.value, 0);
    }
  }

  /** The placeholders of an INSERT are $1..$k for its k values. */
  lemma InsertNumbered(c: InsertParts)
    ensures NumberedFrom(InsertTokens(c), 0, |InsertParams(c)|)
  {
    InsertHeadText(c);
    ValuesClauseText(c);
    NumberedConcat(InsertHead(c), 0, 0, ValuesClause(c), |InsertParams(c)|);
    ReturningNumbered(c.returning, |InsertParams(c)|);
    NumberedConcat(InsertHead(c) + ValuesClause(c), 0, |InsertParams(c)|, ReturningClause(c.returning), 0);
  }

  /** The text of an INSERT: "INSERT INTO table(" columns ")" even with no
    * columns, then " VALUES(...)" and " RETURNING ..." when set. */
  lemma InsertText(c: InsertParts)
    ensures Render(InsertTokens(c)) ==
      "INSERT INTO " + c.table + "(" + Join(c.columns, ", ") + ")"
      + (if c.values.None? then "" else " " + ValuesString(c.values.value, 0))
      + ReturningClauseString(c.returning)
  {
    InsertHeadText(c);
    ValuesClauseText(c);
    RenderThree(InsertHead(c), ValuesClause(c), ReturningClause(c.returning));
    ReturningClauseText(c.returning);
  }
}
