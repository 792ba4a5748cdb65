/**
 * The pieces of the Java platform the loaders depend on, as values:
 * exceptions that escape a call, String.split and String.join with a
 * one-character delimiter, and Integer.parseInt / Integer.toString.
 */
module JavaLang {

  datatype Option<+T> = None | Some(value: T)

  /** The unchecked exceptions that the modelled code lets escape. */
  datatype Throwable = NumberFormatException | ArrayIndexOutOfBoundsException

  /** How a Java call ends: normally with a value, or abruptly with an exception. */
  datatype Outcome<+T> = Normal(value: T) | Thrown(exception: Throwable)

  const INT_MIN: int := -0x8000_0000
  const INT_MAX: int := 0x7fff_ffff

  /** No string of `ps` contains the character `d`. */
  predicate Free(ps: seq<string>, d: char)
  {
    forall k :: 0 <= k < |ps| ==> d !in ps[k]
  }

  /** The pieces of `s` between occurrences of `d`, empty pieces included. */
  function Pieces(s: string, d: char): (r: seq<string>)
    ensures |r| >= 1 && Free(r, d)
    decreases |s|
  {
    if s == [] then [""]
    else
      var rest := Pieces(s[1..], d);
      if s[0] == d then [""] + rest
      else [[s[0]] + rest[0]] + rest[1..]
  }

  /** Drops the empty strings at the end of `ps`, as String.split does. */
  function DropTrailingEmpty(ps: seq<string>): (r: seq<string>)
    ensures |r| <= |ps| && r == ps[..|r|]
    ensures r == [] || r[|r| - 1] != ""
    ensures forall k :: |r| <= k < |ps| ==> ps[k] == ""
    decreases |ps|
  {
    if ps == [] || ps[|ps| - 1] != "" then ps
    else DropTrailingEmpty(ps[..|ps| - 1])
  }

  /**
   * s.split(d) for a delimiter that is not a regular-expression
   * metacharacter: a string without `d` gives itself (so "" gives [""]);
   * otherwise the pieces, with the trailing empty ones removed.
   */
  function Split(s: string, d: char): (r: seq<string>)
    ensures Free(r, d)
  {
    if d !in s then [s] else DropTrailingEmpty(Pieces(s, d))
  }

  /** String.join(d, fields). */
  function Join(fields: seq<string>, d: char): string
    decreases |fields|
  {
    if fields == [] then ""
    else if |fields| == 1 then fields[0]
    else fields[0] + [d] + Join(fields[1..], d)
  }

  /** Joining after an empty first field starts with the delimiter. */
  lemma JoinEmptyFirst(rest: seq<string>, d: char)
    requires |rest| >= 1
    ensures Join([""] + rest, d) == [d] + Join(rest, d)
  {
    var fs := [""] + rest;
    assert fs[0] == "" && fs[1..] == rest;
  }

  /** Joining after a character put in front of the first field puts it in front of the join. */
  lemma JoinLongerFirst(c: char, rest: seq<string>, d: char)
    requires |rest| >= 1
    ensures Join([[c] + rest[0]] + rest[1..], d) == [c] + Join(rest, d)
  {
    var fs := [[c] + rest[0]] + rest[1..];
    if |rest| > 1 {
      assert fs[0] == [c] + rest[0] && fs[1..] == rest[1..];
      assert [c] + rest[0] + [d] + Join(rest[1..], d) == [c] + (rest[0] + [d] + Join(rest[1..], d));
    }
  }

  lemma {:induction false} JoinPieces(s: string, d: char)
    ensures Join(Pieces(s, d), d) == s
    decreases |s|
  {
    if s != [] {
      var rest := Pieces(s[1..], d);
      JoinPieces(s[1..], d);
      if s[0] == d {
        JoinEmptyFirst(rest, d);
      } else {
        JoinLongerFirst(s[0], rest, d);
      }
      assert s == [s[0]] + s[1..];
    }
  }

  lemma {:induction false} PiecesOfPrefix(a: string, b: string, d: char)
    requires d !in a
    ensures Pieces(a + b, d) == [a + Pieces(b, d)[0]] + Pieces(b, d)[1..]
    decreases |a|
  {
    if a == [] {
      var p := Pieces(b, d);
      assert a + b == b && a + p[0] == p[0];
      assert [p[0]] + p[1..] == p;
    } else {
      PiecesOfPrefix(a[1..], b, d);
      var p := Pieces(b, d);
      var rest := Pieces(a[1..] + b, d);
      assert (a + b)[1..] == a[1..] + b;
      assert (a + b)[0] == a[0] && a[0] != d;
      assert rest[0] == a[1..] + p[0] && rest[1..] == p[1..];
      assert [a[0]] + (a[1..] + p[0]) == a + p[0];
    }
  }

  /** Splitting a join of delimiter-free fields gives the fields back. */
  lemma {:induction false} PiecesJoin(fields: seq<string>, d: char)
    requires |fields| >= 1 && Free(fields, d)
    ensures Pieces(Join(fields, d), d) == fields
    decreases |fields|
  {
    if |fields| == 1 {
      PiecesOfPrefix(fields[0], [], d);
      assert Pieces([], d) == [""];
      assert fields[0] + [] == fields[0] && fields[0] + "" == fields[0];
    } else {
      PiecesJoin(fields[1..], d);
      var tail := [d] + Join(fields[1..], d);
      PiecesOfPrefix(fields[0], tail, d);
      assert tail[0] == d && tail[1..] == Join(fields[1..], d);
      assert Pieces(tail, d) == [""] + fields[1..];
      assert ([""] + fields[1..])[1..] == fields[1..];
      assert Join(fields, d) == fields[0] + tail;
      assert Pieces(fields[0] + tail, d) == [fields[0] + ""] + fields[1..];
      assert fields[0] + "" == fields[0];
      assert [fields[0]] + fields[1..] == fields;
    }
  }

  /** String.split undoes String.join when no field holds the delimiter and the last is not empty. */
  lemma SplitJoin(fields: seq<string>, d: char)
    requires |fields| >= 1 && Free(fields, d)
    requires |fields| == 1 || fields[|fields| - 1] != ""
    ensures Split(Join(fields, d), d) == fields
  {
    if |fields| > 1 {
      assert Join(fields, d)[|fields[0]|] == d;
      PiecesJoin(fields, d);
    }
  }

  predicate IsDigit(c: char)
  {
    '0' <= c <= '9'
  }

  /** A non-empty run of decimal digits. */
  predicate IsDecimal(ds: string)
  {
    ds != [] && forall k :: 0 <= k < |ds| ==> IsDigit(ds[k])
  }

  function DigitsValue(ds: string): nat
    requires forall k :: 0 <= k < |ds| ==> IsDigit(ds[k])
    decreases |ds|
  {
    if ds == [] then 0
    else
      assert IsDigit(ds[|ds| - 1]);
      DigitsValue(ds[..|ds| - 1]) * 10 + (ds[|ds| - 1] as int - '0' as int)
  }

  /**
   * Integer.parseInt(s): an optional '+' or '-', then one or more decimal
   * digits, whose value must lie in the 32-bit range; None stands for the
   * NumberFormatException thrown otherwise.
   */
  function ParseInt(s: string): (r: Option<int>)
    ensures r.Some? ==> INT_MIN <= r.value <= INT_MAX
    ensures r.Some? ==> s != [] && forall k :: 0 <= k < |s| ==> IsDigit(s[k]) || (k == 0 && s[k] in "+-")
    ensures r.Some? ==> IsDigit(s[|s| - 1])
  {
    if s == [] then None
    else
      var digits := if s[0] == '-' || s[0] == '+' then s[1..] else s;
      if !IsDecimal(digits) then None
      else
        var m: int := DigitsValue(digits);
        var v := if s[0] == '-' then -m else m;
        if INT_MIN <= v <= INT_MAX then Some(v) else None
  }

  function DecimalDigits(n: nat): (ds: string)
    ensures IsDecimal(ds)
    decreases n
  {
    if n < 10 then [('0' as int + n) as char]
    else DecimalDigits(n / 10) + [('0' as int + n % 10) as char]
  }

  /** Integer.toString(n). */
  function Decimal(n: int): string
  {
    if n < 0 then "-" + DecimalDigits(-n) else DecimalDigits(n)
  }

  lemma {:induction false} DigitsValueOfDecimal(n: nat)
    ensures DigitsValue(DecimalDigits(n)) == n
    decreases n
  {
    var ds := DecimalDigits(n);
    if n >= 10 {
      DigitsValueOfDecimal(n / 10);
      assert ds[..|ds| - 1] == DecimalDigits(n / 10);
    }
  }

  /** Integer.parseInt reads back what Integer.toString writes. */
  lemma ParseDecimal(n: int)
    requires INT_MIN <= n <= INT_MAX
    ensures ParseInt(Decimal(n)) == Some(n)
  {
    if n < 0 {
      DigitsValueOfDecimal(-n);
      assert Decimal(n)[1..] == DecimalDigits(-n);
    } else {
      DigitsValueOfDecimal(n);
      assert IsDigit(Decimal(n)[0]);
    }
  }

  /** A string Integer.parseInt accepts holds neither delimiter the loaders split on. */
  lemma ParsedHasNoDelimiter(s: string)
    requires ParseInt(s).Some?
    ensures s != [] && ';' !in s && ',' !in s
  {
  }
}
