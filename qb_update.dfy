// UPDATE statements (api/store/querybuilder/update.go).
//
// The SET entries live in a Go map, and set.build ranges over it, so the
// order in which the entries are written is not determined. Build returns,
// as a ghost, the order it used; its contract says that order lists every
// key exactly once, and the text and parameters are those of that order.

module QbUpdate {
  import opened Common
  import opened QbBuilder
  import opened QbExpr
  import opened QbSelect
  import opened QbInsert

  /** `order` lists the keys of a map, each exactly once. */
  ghost predicate Enumerates(order: seq<string>, keys: set<string>)
  {
    (forall i, j :: 0 <= i < j < |order| ==> order[i] != order[j])
    && (forall k :: k in order <==> k in keys)
  }

  /** The entries of `exprs` in `order`, as set.build writes them. */
  function Entries(exprs: map<string, Expr>, order: seq<string>): seq<(string, Expr)>
    requires forall i :: 0 <= i < |order| ==> order[i] in exprs
  {
    if order == [] then []
    else Entries(exprs, order[..|order| - 1]) + [(order[|order| - 1], exprs[order[|order| - 1]])]
  }

  /** The parameters the SET entries bind. */
  function SetParams(es: seq<(string, Expr)>): seq<Value>
  {
    if es == [] then []
    else SetParams(es[..|es| - 1]) + ExprParams(es[|es| - 1].1)
  }

  /** One SET entry "k = expr", after ", " unless it is the first. */
  function EntryTokens(first: bool, k: string, e: Expr, n: nat): seq<Token>
  {
    (if first then [] else [Text(", ")]) + [Text(k), Text(" = ")] + ExprTokens(e, n)
  }

  /** The tokens of the SET entries, written after n bound parameters. */
  function EntriesTokens(es: seq<(string, Expr)>, n: nat): seq<Token>
  {
    if es == [] then []
    else
      var prefix := es[..|es| - 1];
      EntriesTokens(prefix, n) + EntryTokens(|es| == 1, es[|es| - 1].0, es[|es| - 1].1, n + |SetParams(prefix)|)
  }

  /** set.build */
  function SetTokens(es: seq<(string, Expr)>, n: nat): seq<Token>
  {
    [Text("SET ")] + EntriesTokens(es, n)
  }

  datatype UpdateParts = UpdateParts(
    table: string,
    entries: Option<map<string, Expr>>,
    where: Option<Expr>,
    returning: Option<seq<string>>)

  /** The statement's precondition and the order of its SET entries. */
  ghost predicate BuildableIn(c: UpdateParts, order: seq<string>)
  {
    c.entries.Some? && Enumerates(order, c.entries.value.Keys)
  }

  /** The SET entries in the order the map was ranged over. */
  function OrderedEntries(c: UpdateParts, order: seq<string>): seq<(string, Expr)>
    requires BuildableIn(c, order)
  {
    Entries(c.entries.value, order)
  }

  function UpdateHead(table: string, es: seq<(string, Expr)>): seq<Token>
  {
    [Text("UPDATE "), Text(table), Text(" ")] + SetTokens(es, 0)
  }

  /** What Build writes once the SET entries are in order `es`. */
  function StatementTokens(table: string, es: seq<(string, Expr)>, where: Option<Expr>, returning: Option<seq<string>>): seq<Token>
  {
    UpdateHead(table, es) + WhereTokens(where, |SetParams(es)|) + ReturningClause(returning)
  }

  function StatementParams(es: seq<(string, Expr)>, where: Option<Expr>): seq<Value>
  {
    SetParams(es) + WhereParams(where)
  }

  /** Everything Update.Build writes when it ranges over the map in `order`. */
  function UpdateTokens(c: UpdateParts, order: seq<string>): seq<Token>
    requires BuildableIn(c, order)
  {
    StatementTokens(c.table, OrderedEntries(c, order), c.where, c.returning)
  }

  function UpdateParams(c: UpdateParts, order: seq<string>): seq<Value>
    requires BuildableIn(c, order)
  {
    StatementParams(OrderedEntries(c, order), c.where)
  }

  /** newSet: every value that is not an Expr becomes a bound value. */
  method NewSet(m: map<string, Arg>) returns (exprs: map<string, Expr>)
    ensures exprs.Keys == m.Keys
    ensures forall k :: k in m ==> exprs[k] == ArgExpr(m[k])
  {
    exprs := map[];
    var remaining := m.Keys;
    while remaining != {}
      invariant remaining <= m.Keys
      invariant exprs.Keys == m.Keys - remaining
      invariant forall k :: k in exprs ==> exprs[k] == ArgExpr(m[k])
      decreases |remaining|
    {
      var k :| k in remaining;
      exprs := exprs[k := ArgExpr(m[k])];
      remaining := remaining - {k};
    }
  }

  /** set.build: "SET ", then each entry of the map once, in the order the
    * map is ranged over, with ", " between two entries. */
  method BuildSet(exprs: map<string, Expr>, b: Builder) returns (ghost order: seq<string>)
    modifies b
    ensures Enumerates(order, exprs.Keys)
    ensures b.buf == old(b.buf) + SetTokens(Entries(exprs, order), |old(b.params)|)
    ensures b.params == old(b.params) + SetParams(Entries(exprs, order))
  {
    ghost var n := |b.params|;
    b.Write("SET ");
    ghost var start := b.buf;
    order := [];
    ghost var es: seq<(string, Expr)> := [];
    var remaining := exprs.Keys;
    var needcomma := false;
    while remaining != {}
      invariant Progress(order, remaining, exprs)
      invariant es == Entries(exprs, order)
      invariant needcomma <==> |es| > 0
      invariant b.buf == start + EntriesTokens(es, n)
      invariant b.params == old(b.params) + SetParams(es)
      decreases |remaining|
    {
      var k :| k in remaining;
      BuildNextEntry(needcomma, k, exprs[k], es, start, old(b.params), n, b);
      ProgressStep(order, remaining, exprs, k);
      es := es + [(k, exprs[k])];
      order := order + [k];
      needcomma := true;
      remaining := remaining - {k};
    }
    ProgressDone(order, exprs);
  }

  /** One iteration of set.build's loop. */
  method BuildNextEntry(needcomma: bool, k: string, e: Expr, ghost es: seq<(string, Expr)>,
                        ghost start: seq<Token>, ghost params0: seq<Value>, ghost n: nat, b: Builder)
    requires needcomma <==> |es| > 0
    requires b.buf == start + EntriesTokens(es, n)
    requires b.params == params0 + SetParams(es) && |params0| == n
    modifies b
    ensures b.buf == start + EntriesTokens(es + [(k, e)], n)
    ensures b.params == params0 + SetParams(es + [(k, e)])
  {
    ghost var entries := EntriesTokens(es, n);
    ghost var entry := EntryTokens(|es| == 0, k, e, n + |SetParams(es)|);
    BuildEntry(needcomma, k, e, b);
    EntriesSnoc(es, (k, e), n);
    TokensAssoc(start, entries, entry);
    ValuesAssoc(params0, SetParams(es), ExprParams(e));
  }

  lemma TokensAssoc(a: seq<Token>, b: seq<Token>, c: seq<Token>)
    ensures (a + b) + c == a + (b + c)
  {
  }

  lemma ValuesAssoc(a: seq<Value>, b: seq<Value>, c: seq<Value>)
    ensures (a + b) + c == a + (b + c)
  {
  }

  /** The keys ranged over so far are `order`, each once; `remaining` are the others. */
  ghost predicate Progress(order: seq<string>, remaining: set<string>, exprs: map<string, Expr>)
  {
    remaining <= exprs.Keys
    && (forall i, j :: 0 <= i < j < |order| ==> order[i] != order[j])
    && (forall k :: k in order <==> k in exprs.Keys - remaining)
    && (forall i :: 0 <= i < |order| ==> order[i] in exprs)
  }

  lemma ProgressStep(order: seq<string>, remaining: set<string>, exprs: map<string, Expr>, k: string)
    requires Progress(order, remaining, exprs) && k in remaining
    ensures Progress(order + [k], remaining - {k}, exprs)
    ensures Entries(exprs, order + [k]) == Entries(exprs, order) + [(k, exprs[k])]
  {
    assert k !in order;
    EntriesOrderSnoc(exprs, order, k);
  }

  lemma ProgressDone(order: seq<string>, exprs: map<string, Expr>)
    requires Progress(order, {}, exprs)
    ensures Enumerates(order, exprs.Keys)
  {
  }

  lemma EntriesSnoc(es: seq<(string, Expr)>, last: (string, Expr), n: nat)
    ensures EntriesTokens(es + [last], n) == EntriesTokens(es, n) + EntryTokens(|es| == 0, last.0, last.1, n + |SetParams(es)|)
    ensures SetParams(es + [last]) == SetParams(es) + ExprParams(last.1)
  {
    assert (es + [last])[..|es|] == es;
  }

  lemma EntriesOrderSnoc(exprs: map<string, Expr>, order: seq<string>, k: string)
    requires forall i :: 0 <= i < |order| ==> order[i] in exprs
    requires k in exprs
    ensures Entries(exprs, order + [k]) == Entries(exprs, order) + [(k, exprs[k])]
  {
    assert (order + [k])[..|order|] == order;
  }

  /** One entry of set.build. */
  method BuildEntry(needcomma: bool, k: string, e: Expr, b: Builder)
    modifies b
    ensures b.buf == old(b.buf) + EntryTokens(!needcomma, k, e, |old(b.params)|)
    ensures b.params == old(b.params) + ExprParams(e)
  {
    ghost var buf0 := b.buf;
    ghost var words: seq<Token> := (if needcomma then [Text(", ")] else []) + [Text(k), Text(" = ")];
    if needcomma {
      b.Write(", ");
    }
    b.Write(k);
    b.Write(" = ");
    assert b.buf == buf0 + words;
    BuildExpr(e, b);
    AppendTwice(buf0, words, ExprTokens(e, |old(b.params)|));
  }

  class Update {
    var table: string
    var entries: Option<map<string, Expr>>
    var where: Option<Expr>
    var returning: Option<seq<string>>

    function Clauses(): UpdateParts
      reads this
    {
      UpdateParts(table, entries, where, returning)
    }

    /** NewUpdate(table): no clause set yet. */
    constructor (table: string)
      ensures Clauses() == UpdateParts(table, None, None, None)
    {
      this.table := table;
      entries := None;
      where := None;
      returning := None;
    }

    /** Set: replaces any earlier SET clause. */
    method Set(m: map<string, Arg>)
      modifies this
      ensures entries.Some? && entries.value.Keys == m.Keys
      ensures forall k :: k in m ==> entries.value[k] == ArgExpr(m[k])
      ensures table == old(table) && where == old(where) && returning == old(returning)
    {
      var exprs := NewSet(m);
      entries := Some(exprs);
    }

    /** Where: replaces any earlier WHERE clause. */
    method Where(e: Expr)
      modifies this
      ensures Clauses() == old(Clauses()).(where := Some(e))
    {
      where := Some(e);
    }

    /** Returning: replaces any earlier RETURNING clause. */
    method Returning(names: seq<string>)
      modifies this
      ensures Clauses() == old(Clauses()).(returning := Some(names))
    {
      returning := Some(names);
    }

    /** Build: without a SET clause the Go code dereferences a nil pointer,
      * so one is required. The entries are written in some order that lists
      * each key once. */
    method Build() returns (query: string, params: seq<Value>, ghost order: seq<string>)
      requires entries.Some?
      ensures BuildableIn(Clauses(), order)
      ensures query == Render(UpdateTokens(Clauses(), order))
      ensures params == UpdateParams(Clauses(), order)
      ensures Placeholders(UpdateTokens(Clauses(), order)) == Numbers(1, |params|)
    {
      ghost var c := Clauses();
      var b := new Builder();
      b.Write("UPDATE ");
      b.Write(table);
      b.Write(" ");
      order := BuildSet(entries.value, b);
      ghost var es := OrderedEntries(c, order);
      assert b.buf == UpdateHead(table, es) && b.params == SetParams(es);
      BuildWhere(where, b);
      BuildOptionalReturning(returning, b);
      assert b.buf == StatementTokens(table, es, where, returning);
      query := b.String();
      params := b.params;
      assert Clauses() == c;
      StatementNumbered(table, es, where, returning);
    }
  }

  lemma EntryNumbered(first: bool, k: string, e: Expr, n: nat)
    ensures NumberedFrom(EntryTokens(first, k, e, n), n, |ExprParams(e)|)
  {
    ExprNumbered(e, n);
    EntryWordsNumbered(first, k, ExprTokens(e, n), n, |ExprParams(e)|);
  }

  /** The separator, the key and " = " bind nothing. */
  lemma EntryWordsNumbered(first: bool, k: string, ts: seq<Token>, n: nat, kk: nat)
    requires NumberedFrom(ts, n, kk)
    ensures NumberedFrom((if first then [] else [Text(", ")]) + [Text(k), Text(" = ")] + ts, n, kk)
  {
    var mid: seq<Token> := (if first then [] else [Text(", ")]) + [Text(k), Text(" = ")];
    TextOnly(mid);
    NumberedConcat(mid, n, 0, ts, kk);
  }

  lemma {:induction false} EntriesNumbered(es: seq<(string, Expr)>, n: nat)
    ensures NumberedFrom(EntriesTokens(es, n), n, |SetParams(es)|)
  {
    if es != [] {
      var prefix := es[..|es| - 1];
      var last := es[|es| - 1];
      var kp := |SetParams(prefix)|;
      EntriesNumbered(prefix, n);
      EntryNumbered(|es| == 1, last.0, last.1, n + kp);
      NumberedConcat(EntriesTokens(prefix, n), n, kp, EntryTokens(|es| == 1, last.0, last.1, n + kp), |ExprParams(last.1)|);
    }
  }

  /** The placeholders of an UPDATE are $1..$n, one per parameter: first the
    * SET entries in the order they were written, then the WHERE clause. */
  lemma StatementNumbered(table: string, es: seq<(string, Expr)>, where: Option<Expr>, returning: Option<seq<string>>)
    ensures NumberedFrom(StatementTokens(table, es, where, returning), 0, |StatementParams(es, where)|)
  {
    var k := |SetParams(es)|;
    UpdateHeadNumbered(table, es);
    TailNumbered(UpdateHead(table, es), k, where, returning);
    assert |StatementParams(es, where)| == k + |WhereParams(where)|;
  }

  /** WHERE binds after the head, RETURNING binds nothing. */
  lemma TailNumbered(head: seq<Token>, k: nat, where: Option<Expr>, returning: Option<seq<string>>)
    requires NumberedFrom(head, 0, k)
    ensures NumberedFrom(head + WhereTokens(where, k) + ReturningClause(returning), 0, k + |WhereParams(where)|)
  {
    var kw := k + |WhereParams(where)|;
    AppendWhereNumbered(head, k, where);
    ReturningNumbered(returning, kw);
    NumberedConcat(head + WhereTokens(where, k), 0, kw, ReturningClause(returning), 0);
  }

  lemma SetNumbered(es: seq<(string, Expr)>, n: nat)
    ensures NumberedFrom(SetTokens(es, n), n, |SetParams(es)|)
  {
    var ts := EntriesTokens(es, n);
    EntriesNumbered(es, n);
    WordNumbered("SET ", ts, n, |SetParams(es)|);
  }

  lemma UpdateHeadNumbered(table: string, es: seq<(string, Expr)>)
    ensures NumberedFrom(UpdateHead(table, es), 0, |SetParams(es)|)
  {
    SetNumbered(es, 0);
    UpdateWordsNumbered(table, SetTokens(es, 0), |SetParams(es)|);
  }

  /** "UPDATE table " binds nothing. */
  lemma UpdateWordsNumbered(table: string, ts: seq<Token>, k: nat)
    requires NumberedFrom(ts, 0, k)
    ensures NumberedFrom([Text("UPDATE "), Text(table), Text(" ")] + ts, 0, k)
  {
    TextOnly([Text("UPDATE "), Text(table), Text(" ")]);
    NumberedConcat([Text("UPDATE "), Text(table), Text(" ")], 0, 0, ts, k);
  }

  /** The text of each SET entry, "k = expr". */
  function EntryStrings(es: seq<(string, Expr)>, n: nat): (r: seq<string>)
    ensures |r| == |es|
  {
    if es == [] then []
    else
      var prefix := es[..|es| - 1];
      EntryStrings(prefix, n) + [EntryString(es[|es| - 1].0, es[|es| - 1].1, n + |SetParams(prefix)|)]
  }

  /** "k = expr" */
  function EntryString(k: string, e: Expr, n: nat): string
  {
    k + " = " + Render(ExprTokens(e, n))
  }

  lemma EntryText(first: bool, k: string, e: Expr, n: nat)
    ensures Render(EntryTokens(first, k, e, n)) == Comma(first) + EntryString(k, e, n)
  {
    EntryWordsText(first, k, ExprTokens(e, n));
  }

  /** The separator, the key and " = " render as such before any tokens. */
  lemma EntryWordsText(first: bool, k: string, ts: seq<Token>)
    ensures Render((if first then [] else [Text(", ")]) + [Text(k), Text(" = ")] + ts)
         == Comma(first) + (k + " = " + Render(ts))
  {
    var sep: seq<Token> := if first then [] else [Text(", ")];
    var words := sep + [Text(k), Text(" = ")];
    assert Render(words) == Comma(first) + (k + " = ") by {
      var t2 := sep + [Text(k)];
      assert words == t2 + [Text(" = ")];
      if first {
        RenderEmpty();
      } else {
        RenderSingle(Text(", "));
      }
      RenderSnoc(sep, Text(k));
      RenderSnoc(t2, Text(" = "));
      StringAssoc(Render(sep), k, " = ");
    }
    RenderAppend(words, ts);
    StringAssoc(Comma(first), k + " = ", Render(ts));
  }

  /** The SET entries render as their texts joined by ", ". */
  lemma {:induction false} EntriesText(es: seq<(string, Expr)>, n: nat)
    ensures Render(EntriesTokens(es, n)) == Join(EntryStrings(es, n), ", ")
  {
    if es == [] {
      RenderEmpty();
    } else {
      var prefix, last := es[..|es| - 1], es[|es| - 1];
      EntriesText(prefix, n);
      assert es == prefix + [last];
      EntriesRenderStep(prefix, last, n);
      EntriesJoinStep(prefix, last, n);
    }
  }

  /** The separator written before an entry: none before the first. */
  function Comma(first: bool): string
  {
    if first then "" else ", "
  }

  /** The last entry adds its separator and its text to the rendering. */
  lemma EntriesRenderStep(prefix: seq<(string, Expr)>, last: (string, Expr), n: nat)
    ensures Render(EntriesTokens(prefix + [last], n)) == Render(EntriesTokens(prefix, n))
      + (Comma(|prefix| == 0) + EntryString(last.0, last.1, n + |SetParams(prefix)|))
  {
    EntriesSnoc(prefix, last, n);
    EntryAppendText(EntriesTokens(prefix + [last], n), EntriesTokens(prefix, n), |prefix| == 0, last.0, last.1, n + |SetParams(prefix)|);
  }

  /** An entry written after `a` adds its separator and its text. */
  lemma EntryAppendText(all: seq<Token>, a: seq<Token>, first: bool, k: string, e: Expr, m: nat)
    requires all == a + EntryTokens(first, k, e, m)
    ensures Render(all) == Render(a) + (Comma(first) + EntryString(k, e, m))
  {
    EntryText(first, k, e, m);
    RenderAppend(a, EntryTokens(first, k, e, m));
  }

  /** The last entry adds its separator and its text to the joined strings. */
  lemma EntriesJoinStep(prefix: seq<(string, Expr)>, last: (string, Expr), n: nat)
    ensures Join(EntryStrings(prefix + [last], n), ", ") == Join(EntryStrings(prefix, n), ", ")
      + (Comma(|prefix| == 0) + EntryString(last.0, last.1, n + |SetParams(prefix)|))
  {
    var x := EntryString(last.0, last.1, n + |SetParams(prefix)|);
    EntryStringsSnoc(prefix, last, n);
    JoinSnoc(EntryStrings(prefix, n), x, ", ");
    StringAssoc(Join(EntryStrings(prefix, n), ", "), Comma(|prefix| == 0), x);
  }

  lemma EntryStringsSnoc(prefix: seq<(string, Expr)>, last: (string, Expr), n: nat)
    ensures EntryStrings(prefix + [last], n) == EntryStrings(prefix, n)
      + [EntryString(last.0, last.1, n + |SetParams(prefix)|)]
  {
    var es := prefix + [last];
    assert es[..|es| - 1] == prefix && es[|es| - 1] == last;
  }

  lemma StringAssoc(a: string, b: string, c: string)
    ensures a + (b + c) == a + b + c
  {
  }

  lemma SetText(es: seq<(string, Expr)>, n: nat)
    ensures Render(SetTokens(es, n)) == "SET " + Join(EntryStrings(es, n), ", ")
  {
    EntriesText(es, n);
    RenderAppend([Text("SET ")], EntriesTokens(es, n));
    RenderSingle(Text("SET "));
  }

  lemma UpdateHeadText(table: string, es: seq<(string, Expr)>)
    ensures Render(UpdateHead(table, es)) == "UPDATE " + table + " SET " + Join(EntryStrings(es, 0), ", ")
  {
    var t1 := [Text("UPDATE ")];
    var t2 := t1 + [Text(table)];
    var t3 := t2 + [Text(" ")];
    assert t3 == [Text("UPDATE "), Text(table), Text(" ")];
    RenderSingle(Text("UPDATE "));
    RenderSnoc(t1, Text(table));
    RenderSnoc(t2, Text(" "));
    RenderAppend(t3, SetTokens(es, 0));
    SetText(es, 0);
  }

  /** The text of an UPDATE: "UPDATE table SET k = expr, ...", then
    * " WHERE ..." and " RETURNING ..." when set, in that order. */
  lemma StatementText(table: string, es: seq<(string, Expr)>, where: Option<Expr>, returning: Option<seq<string>>)
    ensures Render(StatementTokens(table, es, where, returning)) ==
      "UPDATE " + table + " SET " + Join(EntryStrings(es, 0), ", ")
      + Render(WhereTokens(where, |SetParams(es)|))
      + ReturningClauseString(returning)
  {
    UpdateHeadText(table, es);
    RenderThree(UpdateHead(table, es), WhereTokens(where, |SetParams(es)|), ReturningClause(returning));
    ReturningClauseText(returning);
  }

  /** A map with one key is ranged over in the only possible order. */
  lemma SingleKeyOrder(order: seq<string>, key: string)
    requires Enumerates(order, {key})
    ensures order == [key]
  {
    assert key in order;
    forall i | 0 <= i < |order|
      ensures order[i] in {key}
    {
      assert order[i] in order;
    }
    DistinctBound(order, {key});
  }

  /** A list without repetitions drawn from s is no longer than s. */
  lemma {:induction false} DistinctBound(order: seq<string>, s: set<string>)
    requires forall i, j :: 0 <= i < j < |order| ==> order[i] != order[j]
    requires forall i :: 0 <= i < |order| ==> order[i] in s
    ensures |order| <= |s|
    decreases |order|
  {
    if order != [] {
      var last := order[|order| - 1];
      var prefix := order[..|order| - 1];
      forall i | 0 <= i < |prefix|
        ensures prefix[i] in s - {last}
      {
        assert order[i] != last;
      }
      DistinctBound(prefix, s - {last});
    }
  }

  /** A one-entry SET of a plain value: "UPDATE table SET foo = $1" with the
    * value as the only parameter, whatever the map order. */
  lemma SingleValueUpdate(table: string, key: string, v: Value, order: seq<string>)
    requires Enumerates(order, {key})
    ensures BuildableIn(UpdateParts(table, Some(map[key := Val(v)]), None, None), order)
    ensures Render(UpdateTokens(UpdateParts(table, Some(map[key := Val(v)]), None, None), order))
         == "UPDATE " + table + " SET " + key + " = $1"
    ensures UpdateParams(UpdateParts(table, Some(map[key := Val(v)]), None, None), order) == [v]
  {
    var exprs := map[key := Val(v)];
    var c := UpdateParts(table, Some(exprs), None, None);
    SingleKeyOrder(order, key);
    assert exprs.Keys == {key};
    var es := OrderedEntries(c, order);
    EntriesSingle(exprs, key);
    assert es == [(key, Val(v))];
    SingleEntryText(key, v);
    StatementText(table, es, None, None);
    assert WhereTokens(None, 1) == [];
    assert Render([]) == "";
  }

  lemma EntriesSingle(exprs: map<string, Expr>, k: string)
    requires k in exprs
    ensures Entries(exprs, [k]) == [(k, exprs[k])]
  {
    assert [k][..0] == [];
  }

  lemma SingleEntryText(key: string, v: Value)
    ensures SetParams([(key, Val(v))]) == [v]
    ensures EntryStrings([(key, Val(v))], 0) == [key + " = $1"]
  {
    var es := [(key, Val(v))];
    assert es[..0] == [];
    assert SetParams(es[..0]) == [];
    assert EntryStrings(es[..0], 0) == [];
    RenderSingle(Placeholder(1));
    assert Render(ExprTokens(Val(v), 0)) == "$1";
    assert " = " + "$1" == " = $1";
    StringAssoc(key, " = ", "$1");
  }
}
