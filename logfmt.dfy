// The logfmt encoder (api/log/logfmt/logfmt.go): a map of fields becomes
// `key=value` pairs in ascending key order, joined by single spaces, with a
// value quoted when it contains a space. Go's map iteration order is
// modelled by an arbitrary choice of the next key; sort.Strings by a sort of
// the collected keys; fmt's %q quoting is a parameter.

module Logfmt {
  import opened Common

  /** Go's string order: byte-wise lexicographic, a proper prefix first. */
  predicate Below(a: string, b: string)
  {
    if a == [] then b != []
    else if b == [] then false
    else if a[0] != b[0] then a[0] < b[0]
    else Below(a[1..], b[1..])
  }

  lemma {:induction false} BelowIrreflexive(a: string)
    ensures !Below(a, a)
  {
    if a != [] {
      BelowIrreflexive(a[1..]);
    }
  }

  lemma {:induction false} BelowTransitive(a: string, b: string, c: string)
    requires Below(a, b) && Below(b, c)
    ensures Below(a, c)
  {
    if a != [] && b != [] && c != [] && a[0] == b[0] && b[0] == c[0] {
      BelowTransitive(a[1..], b[1..], c[1..]);
    }
  }

  lemma {:induction false} BelowTotal(a: string, b: string)
    requires a != b
    ensures Below(a, b) || Below(b, a)
  {
    if a != [] && b != [] && a[0] == b[0] {
      assert a == [a[0]] + a[1..] && b == [b[0]] + b[1..];
      BelowTotal(a[1..], b[1..]);
    }
  }

  /** Strictly ascending, hence without repeats. */
  predicate Ascending(s: seq<string>)
  {
    forall i, j :: 0 <= i < j < |s| ==> Below(s[i], s[j])
  }

  function Elems(s: seq<string>): set<string>
  {
    set i | 0 <= i < |s| :: s[i]
  }

  /** `ks` lists the keys `keys` in ascending order. */
  predicate Ordered(ks: seq<string>, keys: set<string>)
  {
    Ascending(ks) && Elems(ks) == keys
  }

  /** x inserted into an ascending sequence where it belongs. */
  function Insert(s: seq<string>, x: string): (r: seq<string>)
    ensures r != [] && (r[0] == x || (s != [] && r[0] == s[0]))
  {
    if s == [] then [x]
    else if Below(x, s[0]) then [x] + s
    else [s[0]] + Insert(s[1..], x)
  }

  lemma ElemsCons(x: string, s: seq<string>)
    ensures Elems([x] + s) == {x} + Elems(s)
  {
    var r := [x] + s;
    forall y | y in Elems(r) ensures y in {x} + Elems(s) {
      var i :| 0 <= i < |r| && r[i] == y;
      if i > 0 { assert s[i - 1] == y; }
    }
    forall y | y in Elems(s) ensures y in Elems(r) {
      var i :| 0 <= i < |s| && s[i] == y;
      assert r[i + 1] == y;
    }
    assert r[0] == x;
  }

  lemma ElemsSnoc(s: seq<string>, x: string)
    ensures Elems(s + [x]) == Elems(s) + {x}
  {
    var r := s + [x];
    forall y | y in Elems(r) ensures y in Elems(s) + {x} {
      var i :| 0 <= i < |r| && r[i] == y;
      if i < |s| { assert s[i] == y; }
    }
    forall y | y in Elems(s) ensures y in Elems(r) {
      var i :| 0 <= i < |s| && s[i] == y;
      assert r[i] == y;
    }
    assert r[|s|] == x;
  }

  lemma HeadInElems(s: seq<string>)
    requires s != []
    ensures s[0] in Elems(s)
  {
  }

  /** Putting a key below the head in front keeps the order. */
  lemma AscendingCons(x: string, s: seq<string>)
    requires Ascending(s) && (s != [] ==> Below(x, s[0]))
    ensures Ascending([x] + s)
  {
    var r := [x] + s;
    forall i, j | 0 <= i < j < |r|
      ensures Below(r[i], r[j])
    {
      if i == 0 && j > 1 {
        BelowTransitive(x, s[0], s[j - 1]);
      }
    }
  }

  lemma AscendingTail(s: seq<string>)
    requires Ascending(s) && s != []
    ensures Ascending(s[1..]) && s == [s[0]] + s[1..]
    ensures forall j :: 0 <= j < |s[1..]| ==> Below(s[0], s[1..][j])
  {
  }

  lemma {:induction false} InsertAscending(s: seq<string>, x: string)
    requires Ascending(s) && x !in Elems(s)
    ensures Ascending(Insert(s, x)) && Elems(Insert(s, x)) == Elems(s) + {x}
  {
    if s == [] {
      ElemsCons(x, s);
    } else if Below(x, s[0]) {
      AscendingCons(x, s);
      ElemsCons(x, s);
    } else {
      assert s[0] != x by { assert s[0] in Elems(s); }
      BelowTotal(x, s[0]);
      AscendingTail(s);
      var tail := s[1..];
      ElemsCons(s[0], tail);
      InsertAscending(tail, x);
      var ins := Insert(tail, x);
      assert tail != [] ==> Below(s[0], tail[0]);
      AscendingCons(s[0], ins);
      ElemsCons(s[0], ins);
    }
  }

  /** Two ascending orders of the same keys are the same sequence: the
    * encoding does not depend on the map's iteration order. */
  lemma {:induction false} OrderedUnique(a: seq<string>, b: seq<string>, keys: set<string>)
    requires Ordered(a, keys) && Ordered(b, keys)
    ensures a == b
    decreases |a|
  {
    if a == [] {
      if b != [] {
        HeadInElems(b);
      }
    } else {
      assert a[0] in Elems(a);
      var j :| 0 <= j < |b| && b[j] == a[0];
      assert b[0] in Elems(b);
      var i :| 0 <= i < |a| && a[i] == b[0];
      if i > 0 && j > 0 {
        BelowTransitive(a[0], b[0], a[0]);
        BelowIrreflexive(a[0]);
      }
      assert a[0] == b[0];
      var rest := keys - {a[0]};
      OrderedTail(a, keys);
      OrderedTail(b, keys);
      OrderedUnique(a[1..], b[1..], rest);
      assert a == [a[0]] + a[1..] && b == [b[0]] + b[1..];
    }
  }

  lemma OrderedTail(a: seq<string>, keys: set<string>)
    requires Ordered(a, keys) && a != []
    ensures Ordered(a[1..], keys - {a[0]})
  {
    var t := a[1..];
    forall i, j | 0 <= i < j < |t| ensures Below(t[i], t[j]) {
      assert t[i] == a[i + 1] && t[j] == a[j + 1];
    }
    forall y | y in Elems(t) ensures y in keys - {a[0]} {
      var i :| 0 <= i < |t| && t[i] == y;
      assert a[i + 1] == y;
      BelowIrreflexive(y);
    }
    forall y | y in keys - {a[0]} ensures y in Elems(t) {
      var i :| 0 <= i < |a| && a[i] == y;
      assert t[i - 1] == y;
    }
  }

  /** An ascending listing of the keys names each key exactly once. */
  lemma OrderedOnce(ks: seq<string>, keys: set<string>)
    requires Ordered(ks, keys)
    ensures forall k :: k in keys <==> exists i :: 0 <= i < |ks| && ks[i] == k
    ensures forall i, j :: 0 <= i < j < |ks| ==> ks[i] != ks[j]
  {
    forall i, j | 0 <= i < j < |ks| ensures ks[i] != ks[j] {
      if ks[i] == ks[j] {
        BelowIrreflexive(ks[i]);
      }
    }
  }

  /** needquote */
  predicate NeedQuote(s: string)
  {
    ' ' in s
  }

  /** One field: `key=value`, the value quoted with %q when it contains a
    * space. */
  function Field(key: string, value: string, quote: string -> string): string
  {
    key + "=" + (if NeedQuote(value) then quote(value) else value)
  }

  /** The fields of `ks` in order. */
  function Fields(ks: seq<string>, m: map<string, string>, quote: string -> string): (fs: seq<string>)
    requires forall i :: 0 <= i < |ks| ==> ks[i] in m
    ensures |fs| == |ks|
    ensures forall i :: 0 <= i < |ks| ==> fs[i] == Field(ks[i], m[ks[i]], quote)
  {
    if ks == [] then [] else Fields(ks[..|ks| - 1], m, quote) + [Field(ks[|ks| - 1], m[ks[|ks| - 1]], quote)]
  }

  /** Keys without repeats. */
  predicate Distinct(keys: seq<string>)
  {
    forall i, j :: 0 <= i < j < |keys| ==> keys[i] != keys[j]
  }

  /** The `for k := range m` loop: each key once, in an order the runtime
    * chooses. */
  method CollectKeys(m: map<string, string>) returns (keys: seq<string>)
    ensures Distinct(keys) && Elems(keys) == m.Keys
  {
    keys := [];
    var rest := m.Keys;
    while rest != {}
      invariant rest <= m.Keys
      invariant Elems(keys) == m.Keys - rest
      invariant Distinct(keys)
      decreases |rest|
    {
      var key :| key in rest;
      assert forall i :: 0 <= i < |keys| ==> keys[i] != key by {
        forall i | 0 <= i < |keys| ensures keys[i] != key {
          assert keys[i] in Elems(keys);
        }
      }
      ElemsSnoc(keys, key);
      keys := keys + [key];
      rest := rest - {key};
    }
  }

  /** sort.Strings on keys without repeats. */
  method SortStrings(keys: seq<string>) returns (sorted: seq<string>)
    requires Distinct(keys)
    ensures Ordered(sorted, Elems(keys))
  {
    sorted := [];
    var i := 0;
    while i < |keys|
      invariant 0 <= i <= |keys|
      invariant Ordered(sorted, Elems(keys[..i]))
    {
      assert keys[i] !in Elems(keys[..i]) by {
        forall j | 0 <= j < i ensures keys[..i][j] != keys[i] {
          assert keys[..i][j] == keys[j];
        }
      }
      InsertAscending(sorted, keys[i]);
      sorted := Insert(sorted, keys[i]);
      ElemsSnoc(keys[..i], keys[i]);
      assert keys[..i + 1] == keys[..i] + [keys[i]];
      i := i + 1;
    }
    assert keys[..i] == keys;
  }

  /** Marshal: the keys are collected in the map's (arbitrary) order,
    * sorted, and their fields joined by spaces. The error is always nil, and
    * by OrderedUnique the output does not depend on the iteration order. */
  method Marshal(m: map<string, string>, quote: string -> string) returns (b: string, err: Option<Error>)
    ensures err.None?
    ensures exists ks :: Ordered(ks, m.Keys) && (forall i :: 0 <= i < |ks| ==> ks[i] in m)
                         && b == Join(Fields(ks, m, quote), " ")
  {
    var keys := CollectKeys(m);
    keys := SortStrings(keys);
    assert forall i :: 0 <= i < |keys| ==> keys[i] in m by {
      forall i | 0 <= i < |keys| ensures keys[i] in m {
        assert keys[i] in Elems(keys);
      }
    }
    var fields: seq<string> := [];
    var i := 0;
    while i < |keys|
      invariant 0 <= i <= |keys|
      invariant fields == Fields(keys[..i], m, quote)
    {
      var value := m[keys[i]];
      var field := if NeedQuote(value) then keys[i] + "=" + quote(value) else keys[i] + "=" + value;
      assert keys[..i + 1][..i] == keys[..i];
      fields := fields + [field];
      i := i + 1;
    }
    assert keys[..i] == keys;
    b, err := Join(fields, " "), None;
  }

  /** An empty map encodes to the empty string. */
  lemma EmptyMapIsEmpty(m: map<string, string>, quote: string -> string, ks: seq<string>)
    requires Ordered(ks, m.Keys) && forall i :: 0 <= i < |ks| ==> ks[i] in m
    ensures m == map[] <==> Join(Fields(ks, m, quote), " ") == ""
  {
    if m != map[] {
      var k :| k in m.Keys;
      var i :| 0 <= i < |ks| && ks[i] == k;
      NonEmptyJoin(Fields(ks, m, quote), i);
    }
  }

  /** Joining keeps every field's text: one with an `=` in it makes the
    * output non-empty. */
  lemma {:induction false} NonEmptyJoin(fs: seq<string>, i: nat)
    requires i < |fs| && fs[i] != []
    ensures Join(fs, " ") != []
  {
    if i < |fs| - 1 {
      NonEmptyJoin(fs[..|fs| - 1], i);
    }
  }

  /** A map with one entry encodes to that entry's field alone. */
  lemma SingleEntry(m: map<string, string>, quote: string -> string, ks: seq<string>, k: string)
    requires Ordered(ks, m.Keys) && forall i :: 0 <= i < |ks| ==> ks[i] in m
    requires m.Keys == {k}
    ensures Join(Fields(ks, m, quote), " ") == Field(k, m[k], quote)
  {
    ElemsCons(k, []);
    assert [k] + [] == [k];
    OrderedUnique(ks, [k], m.Keys);
  }

  /** A field's value is quoted exactly when it contains a space; the key and
    * `=` always come first. */
  lemma QuotedIffSpace(key: string, value: string, quote: string -> string)
    ensures (exists i :: 0 <= i < |value| && value[i] == ' ') ==> Field(key, value, quote) == key + "=" + quote(value)
    ensures (forall i :: 0 <= i < |value| ==> value[i] != ' ') ==> Field(key, value, quote) == key + "=" + value
  {
  }
}
