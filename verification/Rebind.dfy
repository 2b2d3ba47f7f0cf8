/** Rewriting "?" placeholders to "$1", "$2", ... for PostgreSQL. */
module Placeholders {
  import opened Options

  datatype Driver = SQLite | Postgres

  predicate IsDigit(c: char) {
    '0' <= c <= '9'
  }

  // strconv.Itoa
  function Decimal(n: nat): string {
    if n < 10 then ['0' + n as char] else Decimal(n / 10) + ['0' + (n % 10) as char]
  }

  // The rewriting of the rest of a query, n placeholders in.
  function Rewritten(query: string, n: nat): string {
    if query == [] then []
    else if query[0] == '?' then "$" + Decimal(n + 1) + Rewritten(query[1..], n + 1)
    else [query[0]] + Rewritten(query[1..], n)
  }

  lemma {:induction false} NothingToRewrite(query: string, n: nat)
    requires '?' !in query
    ensures Rewritten(query, n) == query
  {
    if query != [] {
      NothingToRewrite(query[1..], n);
    }
  }

  method Rebind(driver: Driver, query: string) returns (r: string)
    ensures r == if driver == Postgres then Rewritten(query, 0) else query
  {
    if driver != Postgres || '?' !in query {
      if driver == Postgres {
        NothingToRewrite(query, 0);
      }
      return query;
    }
    r := "";
    var n := 0;
    for i := 0 to |query|
      invariant 0 <= n
      invariant r + Rewritten(query[i..], n) == Rewritten(query, 0)
    {
      assert query[i..][0] == query[i] && query[i..][1..] == query[i + 1..];
      ghost var before, rest := r, Rewritten(query[i + 1..], if query[i] == '?' then n + 1 else n);
      if query[i] == '?' {
        n := n + 1;
        r := r + "$";
        r := r + Decimal(n);
        assert before + ("$" + Decimal(n) + rest) == r + rest;
      } else {
        r := r + [query[i]];
        assert before + ([query[i]] + rest) == r + rest;
      }
    }
    assert query[|query|..] == [];
    assert r + [] == r;
  }

  // ---------- what a query binds ----------

  datatype Token = Text(c: char) | Param(number: nat)

  // Read by position: the k-th "?" takes the k-th argument.
  function Positional(query: string, n: nat): seq<Token> {
    if query == [] then []
    else if query[0] == '?' then [Param(n + 1)] + Positional(query[1..], n + 1)
    else [Text(query[0])] + Positional(query[1..], n)
  }

  // The number of digits a string starts with.
  function DigitRun(s: string): (n: nat)
    ensures n <= |s|
  {
    if s == [] || !IsDigit(s[0]) then 0 else 1 + DigitRun(s[1..])
  }

  function DigitOf(c: char): nat
    requires IsDigit(c)
  {
    c as int - '0' as int
  }

  function Value(s: string): nat
    requires forall i :: 0 <= i < |s| ==> IsDigit(s[i])
  {
    if s == [] then 0 else Value(s[..|s| - 1]) * 10 + DigitOf(s[|s| - 1])
  }

  // Read by number: "$" and all the digits after it name one argument.
  function Numbered(query: string): seq<Token>
    decreases |query|
  {
    if query == [] then []
    else
      var k := DigitRun(query[1..]);
      if query[0] == '$' && k > 0 then
        RunIsDigits(query[1..]);
        [Param(Value(query[1..k + 1]))] + Numbered(query[k + 1..])
      else [Text(query[0])] + Numbered(query[1..])
  }

  // What the database sees: text, and the arguments, where there are any.
  datatype Piece<T> = Literal(c: char) | Argument(value: Option<T>)

  function Bound<T>(tokens: seq<Token>, args: seq<T>): seq<Piece<T>> {
    seq(|tokens|, i requires 0 <= i < |tokens| =>
      match tokens[i]
      case Text(c) => Literal(c)
      case Param(k) => Argument(if 1 <= k <= |args| then Some(args[k - 1]) else None))
  }

  // Every numbered placeholder written back as "?".
  function Unbound(query: string): string {
    var tokens := Numbered(query);
    seq(|tokens|, i requires 0 <= i < |tokens| => if tokens[i].Text? then tokens[i].c else '?')
  }

  // No digit directly follows a "?" or a "$" of the query as written.
  predicate Unambiguous(query: string) {
    forall i :: 0 <= i < |query| - 1 && (query[i] == '?' || query[i] == '$') ==> !IsDigit(query[i + 1])
  }

  // ---------- digits ----------

  lemma {:induction false} RunIsDigits(s: string)
    ensures forall i :: 0 <= i < DigitRun(s) ==> IsDigit(s[i])
  {
    if s != [] && IsDigit(s[0]) {
      RunIsDigits(s[1..]);
    }
  }

  lemma DigitSpelled(d: nat)
    requires d < 10
    ensures '0' + d as char == "0123456789"[d]
  {
  }

  // Most significant digit first, with no leading zeros.
  lemma DecimalSpelled(n: nat)
    ensures Decimal(n) == (if n < 10 then "" else Decimal(n / 10)) + ["0123456789"[n % 10]]
  {
    DigitSpelled(n % 10);
  }

  lemma {:induction false} DecimalRoundTrip(n: nat)
    ensures 0 < |Decimal(n)| && (forall i :: 0 <= i < |Decimal(n)| ==> IsDigit(Decimal(n)[i]))
    ensures Value(Decimal(n)) == n
  {
    if n >= 10 {
      DecimalRoundTrip(n / 10);
      var d := Decimal(n);
      assert d[..|d| - 1] == Decimal(n / 10);
    } else {
      assert Decimal(n)[..0] == [];
    }
  }

  lemma {:induction false} RunAfterDigits(digits: string, rest: string)
    requires forall i :: 0 <= i < |digits| ==> IsDigit(digits[i])
    ensures DigitRun(digits + rest) == |digits| + DigitRun(rest)
  {
    if digits == [] {
      assert digits + rest == rest;
    } else {
      assert (digits + rest)[1..] == digits[1..] + rest;
      RunAfterDigits(digits[1..], rest);
    }
  }

  // The rewriting leaves leading digits as they are.
  lemma {:induction false} DigitsPass(query: string, n: nat)
    ensures var k := DigitRun(query);
            && DigitRun(Rewritten(query, n)) == k
            && Rewritten(query, n)[k..] == Rewritten(query[k..], n)
  {
    var k := DigitRun(query);
    if k > 0 {
      DigitsPass(query[1..], n);
      assert Rewritten(query, n)[1..] == Rewritten(query[1..], n);
      assert query[k..] == query[1..][k - 1..];
      assert Rewritten(query, n)[k..] == Rewritten(query[1..], n)[k - 1..];
    }
  }

  // ---------- one step of the two readings ----------

  lemma NumberedDollar(s: string)
    ensures var k := DigitRun(s);
            && (forall i :: 0 <= i < k ==> IsDigit(s[i]))
            && Numbered("$" + s) == if k > 0 then [Param(Value(s[..k]))] + Numbered(s[k..]) else [Text('$')] + Numbered(s)
  {
    var r, k := "$" + s, DigitRun(s);
    RunIsDigits(s);
    assert r[1..] == s && r[1..k + 1] == s[..k] && r[k + 1..] == s[k..];
  }

  lemma NumberThenRest(digits: string, rest: string)
    requires digits != [] && forall i :: 0 <= i < |digits| ==> IsDigit(digits[i])
    ensures var k := DigitRun(rest);
            && (forall i :: 0 <= i < k ==> IsDigit(rest[i]))
            && Numbered("$" + (digits + rest)) == [Param(Value(digits + rest[..k]))] + Numbered(rest[k..])
  {
    var s, k := digits + rest, DigitRun(rest);
    RunIsDigits(rest);
    RunAfterDigits(digits, rest);
    NumberedDollar(s);
    assert s[..|digits| + k] == digits + rest[..k] && s[|digits| + k..] == rest[k..];
  }

  lemma DropTwice(s: string, k: nat)
    requires 0 < |s| && k < |s|
    ensures s[1..][k..] == s[k + 1..]
  {
  }

  lemma SplitPlaceholder(query: string, n: nat)
    requires query != [] && query[0] == '?'
    ensures var rest, k := Rewritten(query[1..], n + 1), DigitRun(query[1..]);
            && Rewritten(query, n) == "$" + (Decimal(n + 1) + rest)
            && DigitRun(rest) == k && rest[k..] == Rewritten(query[k + 1..], n + 1)
  {
    var rest := Rewritten(query[1..], n + 1);
    assert "$" + Decimal(n + 1) + rest == "$" + (Decimal(n + 1) + rest);
    DigitsPass(query[1..], n + 1);
    DropTwice(query, DigitRun(query[1..]));
  }

  lemma PlaceholderStep(query: string, n: nat) returns (number: nat)
    requires query != [] && query[0] == '?'
    ensures var k := DigitRun(query[1..]);
            && (k == 0 ==> number == n + 1)
            && Numbered(Rewritten(query, n)) == [Param(number)] + Numbered(Rewritten(query[k + 1..], n + 1))
  {
    SplitPlaceholder(query, n);
    number := PlaceholderNumber(n + 1, Rewritten(query[1..], n + 1));
  }

  lemma PlaceholderNumber(n: nat, rest: string) returns (number: nat)
    ensures DigitRun(rest) == 0 ==> number == n
    ensures Numbered("$" + (Decimal(n) + rest)) == [Param(number)] + Numbered(rest[DigitRun(rest)..])
  {
    var d, k := Decimal(n), DigitRun(rest);
    DecimalRoundTrip(n);
    NumberThenRest(d, rest);
    number := Value(d + rest[..k]);
    if k == 0 {
      assert d + rest[..0] == d;
    }
  }

  lemma DollarStep(query: string, n: nat) returns (token: Token)
    requires query != [] && query[0] == '$'
    ensures var k := DigitRun(query[1..]);
            && (k == 0 ==> token == Text('$'))
            && Numbered(Rewritten(query, n)) == [token] + Numbered(Rewritten(query[k + 1..], n))
  {
    var rest, k := Rewritten(query[1..], n), DigitRun(query[1..]);
    DigitsPass(query[1..], n);
    NumberedDollar(rest);
    DropTwice(query, k);
    token := if k == 0 then Text('$') else Param(Value(rest[..k]));
    assert rest[0..] == rest;
  }

  // ---------- the two readings agree exactly on unambiguous queries ----------

  lemma {:induction false} ReadingsAgree(query: string, n: nat)
    requires Unambiguous(query)
    ensures Numbered(Rewritten(query, n)) == Positional(query, n)
  {
    if query != [] {
      var rest := query[1..];
      assert forall i :: 0 <= i < |rest| ==> rest[i] == query[i + 1];
      ReadingsAgree(rest, if query[0] == '?' then n + 1 else n);
      if query[0] == '?' {
        var number := PlaceholderStep(query, n);
        NoDigitNext(query);
      } else if query[0] == '$' {
        var token := DollarStep(query, n);
        NoDigitNext(query);
      }
    }
  }

  lemma NoDigitNext(query: string)
    requires query != [] && Unambiguous(query) && (query[0] == '?' || query[0] == '$')
    ensures DigitRun(query[1..]) == 0
  {
  }

  lemma {:induction false} PositionalLength(query: string, n: nat)
    ensures |Positional(query, n)| == |query|
  {
    if query != [] {
      PositionalLength(query[1..], if query[0] == '?' then n + 1 else n);
    }
  }

  lemma AmbiguityLater(query: string)
    requires query != [] && !Unambiguous(query)
    requires (query[0] == '?' || query[0] == '$') ==> DigitRun(query[1..]) == 0
    ensures !Unambiguous(query[1..])
  {
    var i :| 0 <= i < |query| - 1 && (query[i] == '?' || query[i] == '$') && IsDigit(query[i + 1]);
    assert query[1..][i - 1] == query[i] && query[1..][i] == query[i + 1];
  }

  // Ambiguity makes the numbered reading swallow digits.
  lemma {:induction false} ReadingsShrink(query: string, n: nat)
    ensures |Numbered(Rewritten(query, n))| <= |query|
    ensures !Unambiguous(query) ==> |Numbered(Rewritten(query, n))| < |query|
    decreases |query|
  {
    if query != [] {
      var k := if query[0] == '?' || query[0] == '$' then DigitRun(query[1..]) else 0;
      if k == 0 && !Unambiguous(query) {
        AmbiguityLater(query);
      }
      ReadingsShrink(query[k + 1..], if query[0] == '?' then n + 1 else n);
      if query[0] == '?' {
        var number := PlaceholderStep(query, n);
      } else if query[0] == '$' {
        var token := DollarStep(query, n);
      } else {
        assert Rewritten(query, n)[1..] == Rewritten(query[1..], n);
      }
    }
  }

  /**
    The rewritten query, read by number, binds as the original does read by
    position, placeholders numbered 1, 2, ... in order with as many digits as
    it takes, if and only if the original is unambiguous. With any digit after
    a "?" or a "$" the two differ, whatever the arguments.
   */
  lemma RebindKeepsBindings<T>(query: string, args: seq<T>)
    ensures Bound(Numbered(Rewritten(query, 0)), args) == Bound(Positional(query, 0), args) <==> Unambiguous(query)
    ensures Unambiguous(query) <==>
      forall i :: 0 <= i < |query| - 1 && (query[i] == '?' || query[i] == '$') ==> query[i + 1] < '0' || '9' < query[i + 1]
  {
    if Unambiguous(query) {
      ReadingsAgree(query, 0);
    } else {
      ReadingsShrink(query, 0);
      PositionalLength(query, 0);
      assert |Bound(Numbered(Rewritten(query, 0)), args)| < |Bound(Positional(query, 0), args)|;
    }
  }

  lemma {:induction false} PositionalText(query: string, n: nat, i: nat)
    requires i < |query|
    ensures |Positional(query, n)| == |query|
    ensures Positional(query, n)[i] == Text(query[i]) || (query[i] == '?' && Positional(query, n)[i].Param?)
  {
    PositionalLength(query, n);
    if i > 0 {
      PositionalText(query[1..], if query[0] == '?' then n + 1 else n, i - 1);
    }
  }

  /** Writing the numbers back as "?" recovers exactly the unambiguous queries. */
  lemma RebindRoundTrip(query: string)
    ensures Unbound(Rewritten(query, 0)) == query <==> Unambiguous(query)
  {
    if Unambiguous(query) {
      ReadingsAgree(query, 0);
      PositionalLength(query, 0);
      forall i | 0 <= i < |query| ensures Unbound(Rewritten(query, 0))[i] == query[i] {
        PositionalText(query, 0, i);
      }
    } else {
      ReadingsShrink(query, 0);
      assert |Unbound(Rewritten(query, 0))| < |query|;
    }
  }

  /** So no two unambiguous queries are rewritten alike. */
  lemma RebindInjective(query: string, other: string)
    requires Unambiguous(query) && Unambiguous(other) && Rewritten(query, 0) == Rewritten(other, 0)
    ensures query == other
  {
    RebindRoundTrip(query);
    RebindRoundTrip(other);
  }
}
