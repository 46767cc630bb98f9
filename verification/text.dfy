/**
 * String helpers the planning code leans on: `str.split`, `str.join`,
 * `str.replace` for one character, `str.lower` on ASCII, and the
 * decimal readings `int(...)` and `float(...)` of a string.
 */
module Text {
  import opened Common

  // ---------------------------------------------------------------------
  // Splitting and joining on a separator character
  // ---------------------------------------------------------------------

  /** The pieces of `s` between occurrences of `sep`, as `s.split(sep)`. */
  function Split(s: string, sep: char): (parts: seq<string>)
    ensures |parts| >= 1
    ensures forall i :: 0 <= i < |parts| ==> sep !in parts[i]
  {
    if |s| == 0 then [""]
    else if s[0] == sep then [""] + Split(s[1..], sep)
    else
      var rest := Split(s[1..], sep);
      [[s[0]] + rest[0]] + rest[1..]
  }

  /** `sep.join(parts)`. */
  function Join(parts: seq<string>, sep: char): string
    requires |parts| >= 1
  {
    if |parts| == 1 then parts[0] else parts[0] + [sep] + Join(parts[1..], sep)
  }

  /** Number of occurrences of `c` in `s`. */
  function Count(s: string, c: char): nat
  {
    if |s| == 0 then 0 else (if s[0] == c then 1 else 0) + Count(s[1..], c)
  }

  /** A character occurs in a string exactly when it is counted there. */
  lemma {:induction false} CountPositive(s: string, c: char)
    ensures Count(s, c) > 0 <==> c in s
  {
    if |s| != 0 {
      CountPositive(s[1..], c);
      assert c in s <==> s[0] == c || c in s[1..];
    }
  }

  /** Joining the pieces of a split gives back the original string. */
  lemma {:induction false} JoinSplit(s: string, sep: char)
    ensures Join(Split(s, sep), sep) == s
  {
    if |s| == 0 {
    } else if s[0] == sep {
      JoinSplit(s[1..], sep);
      assert s == [sep] + s[1..];
    } else {
      JoinSplit(s[1..], sep);
      var rest := Split(s[1..], sep);
      if |rest| == 1 {
        assert s == [s[0]] + s[1..];
      } else {
        assert Join(rest, sep) == rest[0] + [sep] + Join(rest[1..], sep);
        assert s == [s[0]] + s[1..];
      }
    }
  }

  /** A split has one more piece than there are separators. */
  lemma {:induction false} SplitCount(s: string, sep: char)
    ensures |Split(s, sep)| == Count(s, sep) + 1
  {
    if |s| != 0 {
      SplitCount(s[1..], sep);
    }
  }

  /** Splitting a string that has no separator yields the string itself. */
  lemma {:induction false} SplitNoSeparator(s: string, sep: char)
    requires sep !in s
    ensures Split(s, sep) == [s]
  {
    if |s| != 0 {
      assert s[0] != sep;
      SplitNoSeparator(s[1..], sep);
      assert s == [s[0]] + s[1..];
    }
  }

  /** Splitting `a + [sep] + b` where `a` holds no separator puts `a` first. */
  lemma {:induction false} SplitAfterPiece(a: string, sep: char, b: string)
    requires sep !in a
    ensures Split(a + [sep] + b, sep) == [a] + Split(b, sep)
  {
    if |a| == 0 {
      assert a + [sep] + b == [sep] + b;
    } else {
      assert (a + [sep] + b)[1..] == a[1..] + [sep] + b;
      SplitAfterPiece(a[1..], sep, b);
      assert [a[0]] + a[1..] == a;
    }
  }

  /** Splitting a join of separator-free pieces gives the pieces back. */
  lemma {:induction false} SplitJoin(parts: seq<string>, sep: char)
    requires |parts| >= 1
    requires forall i :: 0 <= i < |parts| ==> sep !in parts[i]
    ensures Split(Join(parts, sep), sep) == parts
  {
    if |parts| == 1 {
      SplitNoSeparator(parts[0], sep);
    } else {
      SplitJoin(parts[1..], sep);
      SplitAfterPiece(parts[0], sep, Join(parts[1..], sep));
    }
  }

  // ---------------------------------------------------------------------
  // Decimal digits
  // ---------------------------------------------------------------------

  predicate IsDigit(c: char) { '0' <= c <= '9' }

  predicate AllDigits(s: string) { forall i :: 0 <= i < |s| ==> IsDigit(s[i]) }

  function DigitValue(c: char): nat
    requires IsDigit(c)
  {
    (c as int - '0' as int) as nat
  }

  function DigitChar(d: nat): (c: char)
    requires d < 10
    ensures IsDigit(c) && DigitValue(c) == d
  {
    ('0' as int + d) as char
  }

  /** The number a run of decimal digits denotes, most significant first. */
  function DigitsValue(s: string): nat
    requires AllDigits(s)
  {
    if |s| == 0 then 0 else DigitsValue(s[..|s| - 1]) * 10 + DigitValue(s[|s| - 1])
  }

  function Pow10(k: nat): (r: nat)
    ensures r >= 1
  {
    if k == 0 then 1 else 10 * Pow10(k - 1)
  }

  /** A value read from `k` digits is below `10^k`. */
  lemma {:induction false} DigitsValueBound(s: string)
    requires AllDigits(s)
    ensures DigitsValue(s) < Pow10(|s|)
  {
    if |s| != 0 {
      DigitsValueBound(s[..|s| - 1]);
    }
  }

  /** The shortest decimal rendering of `n`, as `str(n)`. */
  function NatStr(n: nat): (s: string)
    ensures |s| >= 1 && AllDigits(s)
  {
    if n < 10 then [DigitChar(n)] else NatStr(n / 10) + [DigitChar(n % 10)]
  }

  /** `int(s)` restricted to an optional sign followed by ASCII digits. */
  function ParseInt(s: string): Option<int>
  {
    if |s| > 0 && (s[0] == '-' || s[0] == '+') then
      match ParseNat(s[1..])
      case Some(n) => Some(if s[0] == '-' then 0 - n as int else n as int)
      case None => None
    else
      match ParseNat(s)
      case Some(n) => Some(n as int)
      case None => None
  }

  /** A non-empty run of ASCII digits read as a number. */
  function ParseNat(s: string): (r: Option<nat>)
    ensures r.Some? <==> |s| > 0 && AllDigits(s)
  {
    if |s| > 0 && AllDigits(s) then Some(DigitsValue(s)) else None
  }

  /** Reading back the rendering of a natural number gives the number. */
  lemma {:induction false} ParseNatStr(n: nat)
    ensures ParseNat(NatStr(n)) == Some(n)
  {
    var s := NatStr(n);
    if n >= 10 {
      ParseNatStr(n / 10);
      assert s[..|s| - 1] == NatStr(n / 10);
      assert DigitsValue(NatStr(n / 10)) == n / 10;
      assert DigitsValue(s) == (n / 10) * 10 + n % 10;
    } else {
      assert DigitsValue(s) == DigitsValue(s[..0]) * 10 + DigitValue(s[0]);
    }
  }

  /** `str(i)` for an integer. */
  function IntStr(i: int): (s: string)
  {
    if i < 0 then "-" + NatStr(-i) else NatStr(i)
  }

  /** Reading back the rendering of an integer gives the integer. */
  lemma ParseIntStr(i: int)
    ensures ParseInt(IntStr(i)) == Some(i)
  {
    if i < 0 {
      ParseNatStr(-i);
      assert IntStr(i)[1..] == NatStr(-i);
    } else {
      ParseNatStr(i);
    }
  }

  /** Every character of an integer's rendering is a digit or a leading minus sign. */
  lemma IntStrChars(i: int)
    ensures forall k :: 0 <= k < |IntStr(i)| ==> IntStr(i)[k] == '-' || IsDigit(IntStr(i)[k])
    ensures ':' !in IntStr(i) && '/' !in IntStr(i) && '.' !in IntStr(i)
  {
    var s := IntStr(i);
    var d := NatStr(if i < 0 then -i else i);
    if i < 0 {
      assert s == "-" + d;
      assert forall k :: 1 <= k < |s| ==> s[k] == d[k - 1];
    }
  }

  /**
   * `float(s)` restricted to an optional sign, digits, and an optional
   * `.` followed by digits, with at least one digit somewhere.
   */
  function ParseDecimal(s: string): Option<real>
  {
    if |s| > 0 && (s[0] == '-' || s[0] == '+') then
      match ParseUnsignedDecimal(s[1..])
      case Some(x) => Some(if s[0] == '-' then -x else x)
      case None => None
    else ParseUnsignedDecimal(s)
  }

  function ParseUnsignedDecimal(s: string): (r: Option<real>)
    ensures r.Some? ==> r.value >= 0.0
  {
    var parts := Split(s, '.');
    if |parts| == 1 then
      if |s| > 0 && AllDigits(s) then Some(DigitsValue(s) as real) else None
    else if |parts| == 2 && AllDigits(parts[0]) && AllDigits(parts[1])
         && |parts[0]| + |parts[1]| > 0 then
      Some(DigitsValue(parts[0]) as real
           + DigitsValue(parts[1]) as real / Pow10(|parts[1]|) as real)
    else None
  }

  /** Digits with no point read as `float` give the same whole number `int` reads. */
  lemma ParseDecimalWhole(n: nat)
    ensures ParseDecimal(NatStr(n)) == Some(n as real)
  {
    var s := NatStr(n);
    SplitNoSeparator(s, '.');
    ParseNatStr(n);
  }

  /** Digit strings hold no `.`. */
  lemma DigitsNoPoint(s: string)
    requires AllDigits(s)
    ensures '.' !in s
  {
    forall i | 0 <= i < |s| ensures s[i] != '.' { assert IsDigit(s[i]); }
  }

  /** `w.f` splits at the point into the whole and the fractional digits. */
  lemma DecimalPieces(w: nat, f: string)
    requires AllDigits(f)
    ensures Split(NatStr(w) + "." + f, '.') == [NatStr(w), f]
  {
    var s := NatStr(w);
    DigitsNoPoint(s);
    DigitsNoPoint(f);
    assert s + "." + f == s + ['.'] + f;
    SplitAfterPiece(s, '.', f);
    SplitNoSeparator(f, '.');
  }

  /** `w.f` with `f` fractional digits reads as `w + f / 10^|f|`, a value in `[w, w+1)`. */
  lemma DecimalWithFraction(w: nat, f: string)
    requires AllDigits(f) && |f| > 0
    ensures ParseDecimal(NatStr(w) + "." + f)
         == Some(w as real + DigitsValue(f) as real / Pow10(|f|) as real)
    ensures w as real <= ParseDecimal(NatStr(w) + "." + f).value < w as real + 1.0
  {
    var t := NatStr(w) + "." + f;
    DecimalPieces(w, f);
    ParseNatStr(w);
    assert t[0] != '-' && t[0] != '+' by { assert t[0] == NatStr(w)[0]; assert IsDigit(t[0]); }
    assert ParseDecimal(t) == ParseUnsignedDecimal(t);
    DigitsValueBound(f);
    FractionBelowOne(DigitsValue(f), Pow10(|f|));
  }

  lemma FractionBelowOne(a: nat, b: nat)
    requires a < b
    ensures 0.0 <= a as real / b as real < 1.0
  {
  }

  // ---------------------------------------------------------------------
  // Character replacement and ASCII lower-casing
  // ---------------------------------------------------------------------

  /** `s.replace(c, rep)` for a one-character pattern. */
  function Replace(s: string, c: char, rep: string): (r: string)
    ensures c !in s ==> r == s
  {
    if |s| == 0 then ""
    else (if s[0] == c then rep else [s[0]]) + Replace(s[1..], c, rep)
  }

  /** Replacement acts on each half of a concatenation separately. */
  lemma {:induction false} ReplaceAppend(a: string, b: string, c: char, rep: string)
    ensures Replace(a + b, c, rep) == Replace(a, c, rep) + Replace(b, c, rep)
  {
    if |a| != 0 {
      assert (a + b)[1..] == a[1..] + b;
      ReplaceAppend(a[1..], b, c, rep);
    } else {
      assert a + b == b;
    }
  }

  function LowerChar(c: char): char
  {
    if 'A' <= c <= 'Z' then (c as int + 32) as char else c
  }

  /** `s.lower()` on ASCII letters. */
  function Lower(s: string): (r: string)
    ensures |r| == |s|
    ensures forall i :: 0 <= i < |s| ==> r[i] == LowerChar(s[i])
  {
    if |s| == 0 then "" else [LowerChar(s[0])] + Lower(s[1..])
  }

  /** `s.startswith(p)`. */
  predicate StartsWith(s: string, p: string)
  {
    |p| <= |s| && s[..|p|] == p
  }
}
