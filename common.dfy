// Values shared by every part of the model: Go's `error` results, nullable
// columns, and the handful of string functions from Go's strings and strconv
// packages that the code relies on.

module Common {

  datatype Option<T> = None | Some(value: T)

  /** The errors the Go code compares against by identity (sql.ErrNoRows,
    * redis.Nil); every other error is carried by its text. */
  datatype Error = ErrNoRows | RedisNil | Failure(msg: string)

  datatype Result<T> = Ok(value: T) | Err(error: Error)

  /** How a Go call ends: it returns (with a possibly nil error), or it
    * panics with a message. */
  datatype Completion = Return(err: Option<Error>) | Panic(msg: string)

  /** err.Error() */
  function ErrorText(e: Error): string
  {
    match e
    case ErrNoRows => "sql: no rows in result set"
    case RedisNil => "redis: nil"
    case Failure(msg) => msg
  }

  /** strings.Join, unfolded from the last element. */
  function Join(parts: seq<string>, sep: string): string
  {
    if |parts| == 0 then ""
    else if |parts| == 1 then parts[0]
    else Join(parts[..|parts| - 1], sep) + sep + parts[|parts| - 1]
  }

  /** Joining one more part adds the separator only if there were parts before. */
  lemma JoinSnoc(parts: seq<string>, last: string, sep: string)
    ensures Join(parts + [last], sep) == Join(parts, sep) + (if |parts| == 0 then "" else sep) + last
  {
    var all := parts + [last];
    assert all[..|all| - 1] == parts;
    if parts == [] {
      assert "" + ("" + last) == last;
    }
  }

  /** The strings of `ss` written one after the other. */
  function Concat(ss: seq<string>): string
  {
    if ss == [] then "" else Concat(ss[..|ss| - 1]) + ss[|ss| - 1]
  }

  lemma {:induction false} ConcatAppend(a: seq<string>, b: seq<string>)
    ensures Concat(a + b) == Concat(a) + Concat(b)
    decreases |b|
  {
    if b == [] {
      assert a + b == a;
    } else {
      var b' := b[..|b| - 1];
      var ab := a + b;
      assert ab[..|ab| - 1] == a + b';
      ConcatAppend(a, b');
    }
  }

  predicate HasPrefix(s: string, prefix: string)
  {
    |prefix| <= |s| && s[..|prefix|] == prefix
  }

  predicate HasSuffix(s: string, suffix: string)
  {
    |suffix| <= |s| && s[|s| - |suffix|..] == suffix
  }

  /** strings.Contains with a one-character needle. */
  predicate ContainsChar(s: string, c: char)
  {
    exists i :: 0 <= i < |s| && s[i] == c
  }

  function DigitChar(d: nat): char
    requires d < 10
  {
    "0123456789"[d]
  }

  /** The decimal digits of `n`, as fmt's %d and strconv.Itoa print them. */
  function DecimalString(n: nat): (s: string)
    ensures |s| >= 1
  {
    if n < 10 then [DigitChar(n)] else DecimalString(n / 10) + [DigitChar(n % 10)]
  }

  /** %d of a signed integer. */
  function IntString(i: int): string
  {
    if i < 0 then "-" + DecimalString(-i) else DecimalString(i)
  }

  /** Index of the first `sep` in `s`, if any. */
  function IndexOfChar(s: string, sep: char): (r: Option<nat>)
    ensures r.Some? ==> r.value < |s| && s[r.value] == sep
    ensures r.Some? ==> forall j :: 0 <= j < r.value ==> s[j] != sep
    ensures r.None? ==> forall j :: 0 <= j < |s| ==> s[j] != sep
  {
    if |s| == 0 then None
    else if s[0] == sep then Some(0)
    else
      match IndexOfChar(s[1..], sep)
      case None => None
      case Some(k) => Some(k + 1)
  }

  /** strings.Split with a one-character separator: Split("", "/") is [""]. */
  function Split(s: string, sep: char): (parts: seq<string>)
    ensures |parts| >= 1
    decreases |s|
  {
    match IndexOfChar(s, sep)
    case None => [s]
    case Some(k) => [s[..k]] + Split(s[k + 1..], sep)
  }

  /** Go's integer division, which truncates toward zero (Dafny's `/` is Euclidean). */
  function GoDiv(a: int, b: nat): int
    requires b > 0
  {
    if a >= 0 then a / b else -((-a) / b)
  }

  /** The early-return loop `for _, re := range patterns { if re.MatchString(s)
    * { return true } }; return false`, with the regular-expression engine
    * given as `matches`. */
  function AnyMatch(patterns: seq<string>, s: string, matches: (string, string) -> bool): bool
  {
    if patterns == [] then false
    else matches(patterns[0], s) || AnyMatch(patterns[1..], s, matches)
  }

  lemma {:induction false} AnyMatchExists(patterns: seq<string>, s: string, matches: (string, string) -> bool)
    ensures AnyMatch(patterns, s, matches) <==> exists i :: 0 <= i < |patterns| && matches(patterns[i], s)
  {
    if patterns != [] {
      AnyMatchExists(patterns[1..], s, matches);
      if AnyMatch(patterns[1..], s, matches) {
        var i :| 0 <= i < |patterns[1..]| && matches(patterns[1..][i], s);
        assert matches(patterns[i + 1], s);
      }
      if exists i :: 0 <= i < |patterns| && matches(patterns[i], s) {
        var i :| 0 <= i < |patterns| && matches(patterns[i], s);
        if i > 0 {
          assert matches(patterns[1..][i - 1], s);
        }
      }
    }
  }
}
