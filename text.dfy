/**
 * The string handling the servers rely on: `str.upper()`, `str.split(sep)`,
 * the f-string rendering of a number and `float()` parsing.
 *
 * Numbers are whole values of the controller's unit. `Render` is Python's
 * `str()` of an integral float ("5.0", "-12.0"); `ParseFloat` is `float()`
 * restricted to an optional sign, decimal digits and an optional fraction
 * made of zeros. Every other token is treated as unparsable.
 */
module Text {
  import opened Python

  predicate IsDigit(c: char) {
    '0' <= c <= '9'
  }

  predicate AllDigits(s: string) {
    forall i :: 0 <= i < |s| ==> IsDigit(s[i])
  }

  /** `c.upper()` for ASCII characters. */
  function UpperChar(c: char): char {
    if 'a' <= c <= 'z' then (c as int - 32) as char else c
  }

  /** `s.upper()` for ASCII strings. */
  function Upper(s: string): (u: string)
    ensures |u| == |s|
    ensures forall i :: 0 <= i < |s| ==> u[i] == UpperChar(s[i])
  {
    if s == [] then [] else [UpperChar(s[0])] + Upper(s[1..])
  }

  // ---------------------------------------------------------------------
  // split and join

  /** `sep.join(parts)`. */
  function Join(parts: seq<string>, sep: char): string
    requires |parts| >= 1
  {
    if |parts| == 1 then parts[0] else parts[0] + [sep] + Join(parts[1..], sep)
  }

  /**
   * `s.split(sep)`: the pieces between the separators, in order. Splitting
   * never loses a character: joining the pieces again gives back `s`.
   */
  function Split(s: string, sep: char): (parts: seq<string>)
    ensures |parts| >= 1
    ensures forall i :: 0 <= i < |parts| ==> sep !in parts[i]
    ensures Join(parts, sep) == s
  {
    if s == [] then [[]]
    else
      var rest := Split(s[1..], sep);
      if s[0] == sep then
        [[]] + rest
      else
        var parts := [[s[0]] + rest[0]] + rest[1..];
        assert parts[1..] == rest[1..];
        assert |rest| > 1 ==> rest == [rest[0]] + rest[1..] && Join(rest, sep) == rest[0] + [sep] + Join(rest[1..], sep);
        assert s == [s[0]] + s[1..];
        parts
  }

  /** A piece without the separator is not split. */
  lemma {:induction false} SplitWithoutSeparator(a: string, sep: char)
    requires sep !in a
    ensures Split(a, sep) == [a]
  {
    if a != [] {
      assert sep !in a[1..];
      SplitWithoutSeparator(a[1..], sep);
      assert [a[0]] + a[1..] == a;
    }
  }

  /** A leading piece without the separator comes off whole. */
  lemma {:induction false} SplitAfterPiece(a: string, sep: char, tail: string)
    requires sep !in a
    ensures Split(a + [sep] + tail, sep) == [a] + Split(tail, sep)
  {
    var s := a + [sep] + tail;
    if a == [] {
      assert s == [sep] + tail && s[1..] == tail;
    } else {
      assert s[0] == a[0] && s[1..] == a[1..] + [sep] + tail;
      assert sep !in a[1..];
      SplitAfterPiece(a[1..], sep, tail);
      assert [a[0]] + a[1..] == a;
    }
  }

  /** Splitting undoes joining, as long as no piece holds the separator. */
  lemma {:induction false} SplitJoin(parts: seq<string>, sep: char)
    requires |parts| >= 1
    requires forall i :: 0 <= i < |parts| ==> sep !in parts[i]
    ensures Split(Join(parts, sep), sep) == parts
  {
    if |parts| == 1 {
      SplitWithoutSeparator(parts[0], sep);
    } else {
      assert sep !in parts[0];
      SplitAfterPiece(parts[0], sep, Join(parts[1..], sep));
      assert forall i :: 0 <= i < |parts[1..]| ==> sep !in parts[1..][i] by {
        forall i | 0 <= i < |parts[1..]| ensures sep !in parts[1..][i] {
          assert parts[1..][i] == parts[i + 1];
        }
      }
      SplitJoin(parts[1..], sep);
      assert [parts[0]] + parts[1..] == parts;
    }
  }

  // ---------------------------------------------------------------------
  // numbers

  function DigitChar(d: nat): (c: char)
    requires d < 10
    ensures IsDigit(c)
  {
    ('0' as int + d) as char
  }

  /** The decimal digits of `n`, most significant first. */
  function Digits(n: nat): (s: string)
    ensures |s| >= 1 && AllDigits(s)
  {
    if n < 10 then [DigitChar(n)] else Digits(n / 10) + [DigitChar(n % 10)]
  }

  /** The number a string of decimal digits denotes. */
  function DigitsValue(s: string): nat
    requires AllDigits(s)
  {
    if s == [] then 0 else DigitsValue(s[..|s| - 1]) * 10 + (s[|s| - 1] as int - '0' as int)
  }

  lemma {:induction false} DigitsValueOfDigits(n: nat)
    ensures DigitsValue(Digits(n)) == n
  {
    if n >= 10 {
      var s := Digits(n);
      assert s[..|s| - 1] == Digits(n / 10);
      DigitsValueOfDigits(n / 10);
    }
  }

  /** `str(x)` of an integral float `x`: sign, digits and ".0". */
  function Render(n: int): (r: string)
    ensures |r| >= 3 && r[|r| - 2..] == ".0"
    ensures (r[0] == '-') <==> n < 0
    ensures var start := if n < 0 then 1 else 0;
      start < |r| - 2 && AllDigits(r[start..|r| - 2]) && DigitsValue(r[start..|r| - 2]) == (if n < 0 then -n else n)
  {
    var sign := if n < 0 then "-" else "";
    var digits := Digits(if n < 0 then -n else n);
    var r := sign + digits + ".0";
    assert r[|sign|..|r| - 2] == digits;
    assert r[|r| - 2..] == ".0";
    assert n >= 0 ==> r[0] == digits[0] && IsDigit(r[0]);
    DigitsValueOfDigits(if n < 0 then -n else n);
    r
  }

  /** `float(s)` without a sign, on the modelled token set. */
  function ParseUnsigned(s: string): Option<int> {
    var parts := Split(s, '.');
    var whole := parts[0];
    if whole == [] || !AllDigits(whole) then None
    else if |parts| == 1 then Some(DigitsValue(whole))
    else if |parts| == 2 && forall i :: 0 <= i < |parts[1]| ==> parts[1][i] == '0' then Some(DigitsValue(whole))
    else None
  }

  /**
   * `float(s)` on the modelled token set; None stands for the ValueError.
   * A number starts with a sign or a digit, and a single character is a
   * number exactly when it is a digit.
   */
  function ParseFloat(s: string): (r: Option<int>)
    ensures r.Some? ==> |s| >= 1 && (IsDigit(s[0]) || s[0] == '-' || s[0] == '+')
    ensures |s| == 1 ==> (r.Some? <==> IsDigit(s[0]))
    ensures |s| == 1 && IsDigit(s[0]) ==> r == Some(s[0] as int - '0' as int)
  {
    if |s| > 0 && s[0] == '-' then
      match ParseUnsigned(s[1..])
      case Some(v) => Some(-v)
      case None => None
    else if |s| > 0 && s[0] == '+' then ParseUnsigned(s[1..])
    else
      assert |s| == 1 ==> Split(s, '.') == (if s[0] == '.' then [[], []] else [s]) by {
        if |s| == 1 {
          assert s[1..] == [];
          if s[0] != '.' {
            assert [s[0]] + [] == s;
          }
        }
      }
      assert s == [] ==> Split(s, '.') == [[]];
      assert |s| == 1 && IsDigit(s[0]) ==> DigitsValue(s) == s[0] as int - '0' as int by {
        if |s| == 1 && IsDigit(s[0]) {
          assert s[..0] == [];
        }
      }
      ParseUnsigned(s)
  }

  /** Every number the servers render is parsed back to itself. */
  lemma {:induction false} ParseRender(n: int)
    ensures ParseFloat(Render(n)) == Some(n)
  {
    var m: nat := if n < 0 then -n else n;
    var d := Digits(m);
    ParseUnsignedRendered(m);
    if n < 0 {
      assert Render(n) == "-" + (d + ".0");
      assert Render(n)[1..] == d + ".0";
    } else {
      assert Render(n) == d + ".0";
      assert IsDigit(Render(n)[0]);
    }
  }

  /** The unsigned part of a rendered number, digits then `.0`, parses to the number. */
  lemma ParseUnsignedRendered(m: nat)
    ensures ParseUnsigned(Digits(m) + ".0") == Some(m)
  {
    var d := Digits(m);
    assert '.' !in d by {
      forall i | 0 <= i < |d| ensures d[i] != '.' { assert IsDigit(d[i]); }
    }
    SplitJoin([d, "0"], '.');
    assert Join([d, "0"], '.') == d + "." + "0";
    assert d + ".0" == d + "." + "0";
    DigitsValueOfDigits(m);
  }

  /** The rendered number holds no `=`: only a sign, digits and a point. */
  lemma RenderHasNoEquals(n: int)
    ensures '=' !in Render(n)
  {
    var d := Digits(if n < 0 then -n else n);
    forall i | 0 <= i < |d| ensures d[i] != '=' { assert IsDigit(d[i]); }
  }

  /** The f-string `f"{key}={value}"` both axis servers send. */
  function FormatAssignment(key: string, value: int): (s: string)
    ensures |s| > |key| && s[..|key|] == key && s[|key|] == '='
  {
    key + "=" + Render(value)
  }
}
