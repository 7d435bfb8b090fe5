// Expressions of the query builder (api/store/querybuilder/expr.go).
//
// An expression writes itself into a builder. Its effect is described by two
// functions: the tokens it appends when n parameters are already bound, and
// the parameters it binds. BuildExpr is the recursive `build` method and is
// proved to append exactly those.

module QbExpr {
  import opened Common
  import opened QbBuilder

  datatype Expr =
    | Ident(name: string)                          // identifier: written raw
    | Val(v: Value)                                // value: bound
    | Array(elems: seq<Value>)                     // array: "(" $i, $j ")"
    | Infix(left: Expr, op: string, right: Expr)   // infixExpr: left " " op " " right
    | IsNull(operand: Expr)                        // operand " IS NULL"

  datatype Identifier = Identifier(identifier: string)

  datatype BoolExpr = BoolExpr(left: Expr)

  /** The untyped argument handed to Identifier.In. */
  datatype Operand = StringSlice(ss: seq<string>) | Scalar(v: Value)

  /** An untyped (interface{}) argument of a column list or a SET entry:
    * an Expr is used as it is, anything else becomes a bound value. */
  datatype Arg = ExprArg(e: Expr) | ValueArg(v: Value)

  function ArgExpr(a: Arg): Expr
  {
    match a
    case ExprArg(e) => e
    case ValueArg(v) => Val(v)
  }

  function NewIdentifier(identifier: string): Identifier
  {
    Identifier(identifier)
  }

  function LessThan(i: Identifier, v: Value): Expr
  {
    Infix(Ident(i.identifier), "<", Val(v))
  }

  function Equal(i: Identifier, v: Value): Expr
  {
    Infix(Ident(i.identifier), "=", Val(v))
  }

  /** Identifier.IsNull, which api/store/store.go calls. */
  function IsNullOf(i: Identifier): Expr
  {
    IsNull(Ident(i.identifier))
  }

  function NewBoolExpr(left: Expr): BoolExpr
  {
    BoolExpr(left)
  }

  function And(b: BoolExpr, right: Expr): Expr
  {
    Infix(b.left, "AND", right)
  }

  /** The values of a []string, in order. */
  function Strings(ss: seq<string>): seq<Value>
  {
    seq(|ss|, i requires 0 <= i < |ss| => VStr(ss[i]))
  }

  /** newArray: only a []string can become an array; anything else panics. */
  method NewArray(value: Operand) returns (a: seq<Value>)
    requires value.StringSlice?
    ensures |a| == |value.ss|
    ensures forall i :: 0 <= i < |a| ==> a[i] == VStr(value.ss[i])
  {
    var v := value.ss;
    a := [];
    var i := 0;
    while i < |v|
      invariant 0 <= i <= |v|
      invariant |a| == i
      invariant forall j :: 0 <= j < i ==> a[j] == VStr(v[j])
    {
      a := a + [VStr(v[i])];
      i := i + 1;
    }
  }

  /** Identifier.In */
  method In(i: Identifier, operand: Operand) returns (e: Expr)
    requires operand.StringSlice?
    ensures e == Infix(Ident(i.identifier), "IN", Array(Strings(operand.ss)))
  {
    var a := NewArray(operand);
    assert a == Strings(operand.ss);
    e := Infix(Ident(i.identifier), "IN", Array(a));
  }

  /** The parameters `e` binds, in binding order. */
  function ExprParams(e: Expr): seq<Value>
  {
    match e
    case Ident(_) => []
    case Val(v) => [v]
    case Array(vs) => vs
    case Infix(l, _, r) => ExprParams(l) + ExprParams(r)
    case IsNull(o) => ExprParams(o)
  }

  /** k placeholders $n+1 ... $n+k separated by ", ". */
  function ListTokens(k: nat, n: nat): seq<Token>
  {
    if k == 0 then []
    else ListTokens(k - 1, n) + (if k > 1 then [Text(", ")] else []) + [Placeholder(n + k)]
  }

  /** The tokens `e` appends to a builder that already holds n parameters. */
  function ExprTokens(e: Expr, n: nat): seq<Token>
  {
    match e
    case Ident(s) => [Text(s)]
    case Val(_) => [Placeholder(n + 1)]
    case Array(vs) => [Text("(")] + ListTokens(|vs|, n) + [Text(")")]
    case Infix(l, op, r) =>
      ExprTokens(l, n) + [Text(" "), Text(op), Text(" ")] + ExprTokens(r, n + |ExprParams(l)|)
    case IsNull(o) => ExprTokens(o, n) + [Text(" IS NULL")]
  }

  /** The loop shared by array.build and values.build: bind each value,
    * writing ", " between two of them. */
  method BindList(a: seq<Value>, b: Builder)
    modifies b
    ensures b.buf == old(b.buf) + ListTokens(|a|, |old(b.params)|)
    ensures b.params == old(b.params) + a
  {
    ghost var n := |b.params|;
    var i := 0;
    while i < |a|
      invariant 0 <= i <= |a|
      invariant b.buf == old(b.buf) + ListTokens(i, n)
      invariant b.params == old(b.params) + a[..i]
    {
      ghost var before := b.buf;
      if i > 0 {
        b.Write(", ");
      }
      b.Bind(a[i]);
      assert b.buf == before + (if i > 0 then [Text(", ")] else []) + [Placeholder(n + i + 1)];
      assert ListTokens(i + 1, n) == ListTokens(i, n) + (if i + 1 > 1 then [Text(", ")] else []) + [Placeholder(n + i + 1)];
      assert a[..i + 1] == a[..i] + [a[i]];
      i := i + 1;
    }
    assert a[..i] == a;
  }

  /** array.build */
  method BuildArray(a: seq<Value>, b: Builder)
    modifies b
    ensures b.buf == old(b.buf) + ExprTokens(Array(a), |old(b.params)|)
    ensures b.params == old(b.params) + a
  {
    b.Write("(");
    BindList(a, b);
    b.Write(")");
  }

  /** Expr.build: every kind of expression appends its tokens and binds its
    * parameters (which keeps a well-numbered builder well numbered, by
    * AppendKeepsNumbering). */
  method BuildExpr(e: Expr, b: Builder)
    modifies b
    ensures b.buf == old(b.buf) + ExprTokens(e, |old(b.params)|)
    ensures b.params == old(b.params) + ExprParams(e)
    decreases e, 1
  {
    ghost var n := |b.params|;
    match e {
      case Ident(s) =>
        b.Write(s);
      case Val(v) =>
        b.Bind(v);
      case Array(vs) =>
        BuildArray(vs, b);
      case Infix(l, op, r) =>
        BuildInfix(l, op, r, b);
        InfixParts(l, op, r, n);
      case IsNull(o) =>
        BuildExpr(o, b);
        b.Write(" IS NULL");
    }
  }

  /** infixExpr.build */
  method BuildInfix(l: Expr, op: string, r: Expr, b: Builder)
    modifies b
    ensures b.buf == old(b.buf) + ExprTokens(l, |old(b.params)|) + [Text(" "), Text(op), Text(" ")]
                     + ExprTokens(r, |old(b.params)| + |ExprParams(l)|)
    ensures b.params == old(b.params) + ExprParams(l) + ExprParams(r)
    decreases Infix(l, op, r), 0
  {
    BuildExpr(l, b);
    WriteOp(op, b);
    BuildExpr(r, b);
  }

  /** The operator of an infixExpr, with a space on each side. */
  method WriteOp(op: string, b: Builder)
    modifies b
    ensures b.buf == old(b.buf) + [Text(" "), Text(op), Text(" ")]
    ensures b.params == old(b.params)
  {
    b.Write(" ");
    b.Write(op);
    b.Write(" ");
  }

  lemma InfixParts(l: Expr, op: string, r: Expr, n: nat)
    ensures ExprTokens(Infix(l, op, r), n)
         == ExprTokens(l, n) + [Text(" "), Text(op), Text(" ")] + ExprTokens(r, n + |ExprParams(l)|)
    ensures ExprParams(Infix(l, op, r)) == ExprParams(l) + ExprParams(r)
  {
  }

  /** Appending an expression to a well-numbered buffer keeps it well numbered. */
  lemma AppendKeepsNumbering(buf: seq<Token>, n: nat, e: Expr)
    requires Placeholders(buf) == Numbers(1, n)
    ensures Placeholders(buf + ExprTokens(e, n)) == Numbers(1, n + |ExprParams(e)|)
  {
    ExprNumbered(e, n);
    NumberedConcat(buf, 0, n, ExprTokens(e, n), |ExprParams(e)|);
  }

  lemma {:induction false} ListNumbered(k: nat, n: nat)
    ensures NumberedFrom(ListTokens(k, n), n, k)
  {
    if k > 0 {
      ListNumbered(k - 1, n);
      var sep: seq<Token> := if k > 1 then [Text(", ")] else [];
      TextOnly(sep);
      PlaceholdersAppend(ListTokens(k - 1, n), sep);
      PlaceholdersAppend(ListTokens(k - 1, n) + sep, [Placeholder(n + k)]);
      assert Placeholders([Placeholder(n + k)]) == [n + k];
    }
  }

  lemma ArrayNumbered(vs: seq<Value>, n: nat)
    ensures NumberedFrom(ExprTokens(Array(vs), n), n, |vs|)
  {
    var open: seq<Token> := [Text("(")];
    var close: seq<Token> := [Text(")")];
    ListNumbered(|vs|, n);
    TextOnly(open);
    TextOnly(close);
    NumberedConcat(open, n, 0, ListTokens(|vs|, n), |vs|);
    NumberedConcat(open + ListTokens(|vs|, n), n, |vs|, close, 0);
  }

  lemma InfixNumbered(l: Expr, op: string, r: Expr, n: nat)
    requires NumberedFrom(ExprTokens(l, n), n, |ExprParams(l)|)
    requires NumberedFrom(ExprTokens(r, n + |ExprParams(l)|), n + |ExprParams(l)|, |ExprParams(r)|)
    ensures NumberedFrom(ExprTokens(Infix(l, op, r), n), n, |ExprParams(Infix(l, op, r))|)
  {
    InfixParts(l, op, r, n);
    TextOnly([Text(" "), Text(op), Text(" ")]);
    NumberedAroundText(ExprTokens(l, n), [Text(" "), Text(op), Text(" ")], ExprTokens(r, n + |ExprParams(l)|),
      n, |ExprParams(l)|, |ExprParams(r)|);
  }

  lemma NumberedAroundText(lt: seq<Token>, mid: seq<Token>, rt: seq<Token>, n: nat, kl: nat, kr: nat)
    requires NumberedFrom(lt, n, kl) && Placeholders(mid) == [] && NumberedFrom(rt, n + kl, kr)
    ensures NumberedFrom(lt + mid + rt, n, kl + kr)
  {
    PlaceholdersAppend(lt, mid);
    assert Placeholders(lt + mid) == Numbers(n + 1, kl);
    NumberedConcat(lt + mid, n, kl, rt, kr);
  }

  lemma SuffixNumbered(ts: seq<Token>, n: nat, k: nat, s: string)
    requires NumberedFrom(ts, n, k)
    ensures NumberedFrom(ts + [Text(s)], n, k)
  {
    TextOnly([Text(s)]);
    NumberedConcat(ts, n, k, [Text(s)], 0);
  }

  /** The placeholders of an expression are numbered consecutively after the
    * parameters already bound, one per parameter it binds. */
  lemma {:induction false} ExprNumbered(e: Expr, n: nat)
    ensures NumberedFrom(ExprTokens(e, n), n, |ExprParams(e)|)
    decreases e
  {
    match e {
      case Ident(s) =>
        TextOnly([Text(s)]);
      case Val(v) =>
        assert Placeholders([Placeholder(n + 1)]) == [n + 1];
      case Array(vs) =>
        ArrayNumbered(vs, n);
      case Infix(l, op, r) =>
        ExprNumbered(l, n);
        ExprNumbered(r, n + |ExprParams(l)|);
        InfixNumbered(l, op, r, n);
      case IsNull(o) =>
        ExprNumbered(o, n);
        SuffixNumbered(ExprTokens(o, n), n, |ExprParams(o)|, " IS NULL");
    }
  }

  lemma RenderThree(a: seq<Token>, b: seq<Token>, c: seq<Token>)
    ensures Render(a + b + c) == Render(a) + Render(b) + Render(c)
  {
    RenderAppend(a + b, c);
    RenderAppend(a, b);
  }

  /** The text between the parentheses of an IN list. */
  function PlaceholderList(k: nat, n: nat): string
  {
    Join(seq(k, i requires 0 <= i < k => "$" + DecimalString(n + 1 + i)), ", ")
  }

  lemma {:induction false} ListText(k: nat, n: nat)
    ensures Render(ListTokens(k, n)) == PlaceholderList(k, n)
  {
    if k > 0 {
      ListText(k - 1, n);
      ListTokensStep(k, n);
      PlaceholderListStep(k, n);
    }
  }

  /** The k-th placeholder of a list adds its separator and its name. */
  lemma ListTokensStep(k: nat, n: nat)
    requires k > 0
    ensures Render(ListTokens(k, n)) == Render(ListTokens(k - 1, n)) + (if k > 1 then ", " else "") + "$" + DecimalString(n + k)
  {
    var prev := ListTokens(k - 1, n);
    RenderSingle(Placeholder(n + k));
    if k > 1 {
      assert ListTokens(k, n) == prev + [Text(", ")] + [Placeholder(n + k)];
      RenderSnoc(prev, Text(", "));
      RenderSnoc(prev + [Text(", ")], Placeholder(n + k));
    } else {
      assert ListTokens(k, n) == prev + [Placeholder(n + k)];
      RenderSnoc(prev, Placeholder(n + k));
    }
  }

  lemma PlaceholderListStep(k: nat, n: nat)
    requires k > 0
    ensures PlaceholderList(k, n) == PlaceholderList(k - 1, n) + (if k > 1 then ", " else "") + "$" + DecimalString(n + k)
  {
    var names := seq(k, i requires 0 <= i < k => "$" + DecimalString(n + 1 + i));
    var init := seq(k - 1, i requires 0 <= i < k - 1 => "$" + DecimalString(n + 1 + i));
    assert names == init + ["$" + DecimalString(n + k)];
    JoinSnoc(init, "$" + DecimalString(n + k), ", ");
  }

  /** `name op value` renders as "name op $n+1" and binds the value. */
  lemma ComparisonText(name: string, op: string, v: Value, n: nat)
    ensures Render(ExprTokens(Infix(Ident(name), op, Val(v)), n))
         == name + " " + op + " $" + DecimalString(n + 1)
    ensures ExprParams(Infix(Ident(name), op, Val(v))) == [v]
  {
    var t1 := [Text(name)];
    var t2 := t1 + [Text(" ")];
    var t3 := t2 + [Text(op)];
    var t4 := t3 + [Text(" ")];
    var t5 := t4 + [Placeholder(n + 1)];
    assert ExprTokens(Infix(Ident(name), op, Val(v)), n) == t5;
    RenderSingle(Text(name));
    RenderSnoc(t1, Text(" "));
    RenderSnoc(t2, Text(op));
    RenderSnoc(t3, Text(" "));
    RenderSnoc(t4, Placeholder(n + 1));
  }

  /** Identifier.Equal and Identifier.LessThan render "x = $k" and "x < $k". */
  lemma EqualAndLessThanText(i: Identifier, v: Value, n: nat)
    ensures Render(ExprTokens(Equal(i, v), n)) == i.identifier + " = $" + DecimalString(n + 1)
    ensures Render(ExprTokens(LessThan(i, v), n)) == i.identifier + " < $" + DecimalString(n + 1)
    ensures ExprParams(Equal(i, v)) == [v] && ExprParams(LessThan(i, v)) == [v]
  {
    ComparisonText(i.identifier, "=", v, n);
    ComparisonText(i.identifier, "<", v, n);
  }

  /** BoolExpr.And writes the left operand, " AND ", then the right operand,
    * whose placeholders continue after the left operand's. */
  lemma AndText(b: BoolExpr, r: Expr, n: nat)
    ensures Render(ExprTokens(And(b, r), n))
         == Render(ExprTokens(b.left, n)) + " AND " + Render(ExprTokens(r, n + |ExprParams(b.left)|))
    ensures ExprParams(And(b, r)) == ExprParams(b.left) + ExprParams(r)
  {
    InfixParts(b.left, "AND", r, n);
    RenderInfix(ExprTokens(b.left, n), "AND", ExprTokens(r, n + |ExprParams(b.left)|));
  }

  /** An operator between two token sequences renders with a space on each
    * side. */
  lemma RenderInfix(l: seq<Token>, op: string, rt: seq<Token>)
    ensures Render(l + [Text(" "), Text(op), Text(" ")] + rt) == Render(l) + " " + op + " " + Render(rt)
  {
    var m1 := l + [Text(" ")];
    var m2 := m1 + [Text(op)];
    var m3 := m2 + [Text(" ")];
    assert l + [Text(" "), Text(op), Text(" ")] == m3;
    RenderSnoc(l, Text(" "));
    RenderSnoc(m1, Text(op));
    RenderSnoc(m2, Text(" "));
    RenderAppend(m3, rt);
  }

  /** Identifier.In over a []string binds every string and renders a
    * parenthesised placeholder list; an empty slice renders "x IN ()". */
  lemma InText(name: string, ss: seq<string>, n: nat)
    ensures Render(ExprTokens(Infix(Ident(name), "IN", Array(Strings(ss))), n))
         == name + " IN (" + PlaceholderList(|ss|, n) + ")"
    ensures ExprParams(Infix(Ident(name), "IN", Array(Strings(ss)))) == Strings(ss)
    ensures ss == [] ==> Render(ExprTokens(Infix(Ident(name), "IN", Array(Strings(ss))), n)) == name + " IN ()"
  {
    var k := |ss|;
    var t1 := [Text(name)];
    var t2 := t1 + [Text(" ")];
    var t3 := t2 + [Text("IN")];
    var t4 := t3 + [Text(" ")];
    var t5 := t4 + [Text("(")];
    var t6 := t5 + ListTokens(k, n);
    var e := Infix(Ident(name), "IN", Array(Strings(ss)));
    assert ExprTokens(e, n) == t6 + [Text(")")];
    RenderSingle(Text(name));
    RenderSnoc(t1, Text(" "));
    RenderSnoc(t2, Text("IN"));
    RenderSnoc(t3, Text(" "));
    RenderSnoc(t4, Text("("));
    RenderAppend(t5, ListTokens(k, n));
    RenderSnoc(t6, Text(")"));
    ListText(k, n);
  }

  /** `x IS NULL` binds nothing. */
  lemma IsNullText(i: Identifier, n: nat)
    ensures Render(ExprTokens(IsNullOf(i), n)) == i.identifier + " IS NULL"
    ensures ExprParams(IsNullOf(i)) == []
  {
    var t1 := [Text(i.identifier)];
    assert ExprTokens(IsNullOf(i), n) == t1 + [Text(" IS NULL")];
    RenderSingle(Text(i.identifier));
    RenderSnoc(t1, Text(" IS NULL"));
  }
}
