// The query builder's output buffer (api/store/querybuilder/builder.go).
//
// The buffer is kept as a sequence of tokens rather than bytes, so that a
// placeholder keeps the number it was written with; the SQL text is
// `Render(buf)`. The invariant every statement relies on is that the
// placeholders in the buffer, read left to right, are $1, $2, ..., $n where
// n is the number of bound parameters.

module QbBuilder {
  import opened Common

  /** A bound parameter (Go's interface{} values as the callers pass them). */
  datatype Value = VStr(s: string) | VInt(i: int) | VNull

  datatype Token = Text(s: string) | Placeholder(n: nat)

  function TokenText(t: Token): string
  {
    match t
    case Text(s) => s
    case Placeholder(n) => "$" + DecimalString(n)
  }

  /** The text of each token. */
  function Texts(ts: seq<Token>): seq<string>
  {
    seq(|ts|, i requires 0 <= i < |ts| => TokenText(ts[i]))
  }

  /** The buffer's contents as SQL text. */
  function Render(ts: seq<Token>): string
  {
    Concat(Texts(ts))
  }

  /** The numbers of the placeholders in `ts`, left to right. */
  function Placeholders(ts: seq<Token>): seq<nat>
  {
    if ts == [] then []
    else
      var last := ts[|ts| - 1];
      Placeholders(ts[..|ts| - 1]) + (if last.Placeholder? then [last.n] else [])
  }

  /** from, from + 1, ..., from + count - 1 */
  function Numbers(from: nat, count: nat): seq<nat>
  {
    if count == 0 then [] else Numbers(from, count - 1) + [from + count - 1]
  }

  lemma RenderAppend(a: seq<Token>, b: seq<Token>)
    ensures Render(a + b) == Render(a) + Render(b)
  {
    assert Texts(a + b) == Texts(a) + Texts(b);
    ConcatAppend(Texts(a), Texts(b));
  }

  lemma RenderAppendEq(ts: seq<Token>, a: seq<Token>, b: seq<Token>, tail: string)
    requires ts == a + b && Render(b) == tail
    ensures Render(ts) == Render(a) + tail
  {
    RenderAppend(a, b);
  }

  lemma RenderSnoc(ts: seq<Token>, t: Token)
    ensures Render(ts + [t]) == Render(ts) + TokenText(t)
  {
    var xs := Texts(ts + [t]);
    assert xs == Texts(ts) + [TokenText(t)];
    assert xs[..|xs| - 1] == Texts(ts);
  }

  lemma RenderEmpty()
    ensures Render([]) == ""
  {
    assert Texts([]) == [];
  }

  lemma RenderSingle(t: Token)
    ensures Render([t]) == TokenText(t)
  {
    RenderSnoc([], t);
    assert [] + [t] == [t];
  }

  lemma {:induction false} PlaceholdersAppend(a: seq<Token>, b: seq<Token>)
    ensures Placeholders(a + b) == Placeholders(a) + Placeholders(b)
    decreases |b|
  {
    if b == [] {
      assert a + b == a;
    } else {
      var b' := b[..|b| - 1];
      assert (a + b)[..|a + b| - 1] == a + b';
      PlaceholdersAppend(a, b');
    }
  }

  lemma {:induction false} NumbersAppend(from: nat, k1: nat, k2: nat)
    ensures Numbers(from, k1) + Numbers(from + k1, k2) == Numbers(from, k1 + k2)
    decreases k2
  {
    if k2 > 0 {
      NumbersAppend(from, k1, k2 - 1);
    }
  }

  /** The placeholders of `ts` are numbered n+1, ..., n+k. */
  ghost predicate NumberedFrom(ts: seq<Token>, n: nat, k: nat)
  {
    Placeholders(ts) == Numbers(n + 1, k)
  }

  /** Two consecutively numbered fragments make one. */
  lemma NumberedConcat(a: seq<Token>, n: nat, ka: nat, b: seq<Token>, kb: nat)
    requires NumberedFrom(a, n, ka) && NumberedFrom(b, n + ka, kb)
    ensures NumberedFrom(a + b, n, ka + kb)
  {
    PlaceholdersAppend(a, b);
    NumbersAppend(n + 1, ka, kb);
  }

  /** A fragment without placeholders. */
  lemma TextOnly(ts: seq<Token>)
    requires forall i :: 0 <= i < |ts| ==> ts[i].Text?
    ensures Placeholders(ts) == []
    decreases |ts|
  {
    if ts != [] {
      TextOnly(ts[..|ts| - 1]);
    }
  }

  /** A word written before a numbered fragment binds nothing. */
  lemma WordNumbered(w: string, ts: seq<Token>, n: nat, k: nat)
    requires NumberedFrom(ts, n, k)
    ensures NumberedFrom([Text(w)] + ts, n, k)
  {
    TextOnly([Text(w)]);
    NumberedConcat([Text(w)], n, 0, ts, k);
  }

  class Builder {
    var buf: seq<Token>
    var params: seq<Value>

    /** Placeholder $i refers to params[i-1], for every i. */
    ghost predicate Valid()
      reads this
    {
      Placeholders(buf) == Numbers(1, |params|)
    }

    /** new(builder) */
    constructor ()
      ensures buf == [] && params == []
      ensures Valid()
    {
      buf := [];
      params := [];
    }

    /** b.bind(value): append the parameter, then write its 1-based position. */
    method Bind(v: Value)
      modifies this
      ensures params == old(params) + [v]
      ensures buf == old(buf) + [Placeholder(|params|)]
      ensures old(Valid()) ==> Valid()
    {
      params := params + [v];
      buf := buf + [Placeholder(|params|)];
      assert buf[..|buf| - 1] == old(buf);
    }

    /** b.write(s) */
    method Write(s: string)
      modifies this
      ensures buf == old(buf) + [Text(s)]
      ensures params == old(params)
      ensures old(Valid()) ==> Valid()
    {
      buf := buf + [Text(s)];
      assert buf[..|buf| - 1] == old(buf);
    }

    /** b.buf.String() */
    function String(): string
      reads this
    {
      Render(buf)
    }
  }
}
