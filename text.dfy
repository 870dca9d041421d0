/**
 * The pieces of Go's `strconv` and `strings` packages, and of Python's `str`
 * and `int`, that the server and the client rely on: decimal conversion,
 * boolean parsing, splitting on a separator, trimming, lower-casing and the
 * byte-wise order of file names.
 */
module Text {
  import opened Common

  // ---------------------------------------------------------------------------
  // Decimal numbers

  predicate IsDigit(c: char) { '0' <= c <= '9' }

  predicate AllDigits(s: string) { forall i :: 0 <= i < |s| ==> IsDigit(s[i]) }

  function DigitChar(d: nat): (c: char)
    requires d < 10
    ensures IsDigit(c) && c as int - '0' as int == d
  {
    ('0' as int + d) as char
  }

  /** The decimal digits of `n`, most significant first, without leading zeros. */
  function Digits(n: nat): (s: string)
    ensures |s| > 0 && AllDigits(s)
    ensures n < 10 ==> s == [DigitChar(n)]
  {
    if n < 10 then [DigitChar(n)] else Digits(n / 10) + [DigitChar(n % 10)]
  }

  /** The value of a string of decimal digits (leading zeros allowed). */
  function DigitsValue(s: string): nat
    requires AllDigits(s)
  {
    if s == [] then 0 else DigitsValue(s[..|s| - 1]) * 10 + (s[|s| - 1] as int - '0' as int)
  }

  lemma {:induction false} DigitsValueOfDigits(n: nat)
    ensures DigitsValue(Digits(n)) == n
  {
    if n >= 10 {
      DigitsValueOfDigits(n / 10);
      var s := Digits(n);
      assert s[..|s| - 1] == Digits(n / 10);
    }
  }

  /** `strconv.Itoa`, and Python's `str` applied to an int. */
  function Itoa(n: int): string
  {
    if n < 0 then "-" + Digits(-n) else Digits(n)
  }

  const Int64Min: int := -0x8000_0000_0000_0000
  const Int64Max: int := 0x7FFF_FFFF_FFFF_FFFF
  const Int32Min: int := -0x8000_0000
  const Int32Max: int := 0x7FFF_FFFF

  /** An optional '+' or '-' followed by at least one decimal digit and nothing else. */
  function SignedDecimal(s: string): (r: Option<int>)
    ensures r.Some? ==> |s| > 0
  {
    var negative := |s| > 0 && s[0] == '-';
    var body := if |s| > 0 && (s[0] == '+' || s[0] == '-') then s[1..] else s;
    if body == [] || !AllDigits(body) then None
    else
      var v: int := DigitsValue(body);
      Some(if negative then -v else v)
  }

  /** `strconv.ParseInt(s, 10, bits)`, where [lo, hi] is the range of the bit size. */
  function ParseInt(s: string, lo: int, hi: int): (r: Option<int>)
    ensures r.Some? ==> lo <= r.value <= hi
    ensures r.Some? ==> SignedDecimal(s) == r
    ensures r.None? ==> SignedDecimal(s).None? || !(lo <= SignedDecimal(s).value <= hi)
  {
    match SignedDecimal(s)
    case None => None
    case Some(v) => if lo <= v <= hi then Some(v) else None
  }

  /** `strconv.Atoi` on a 64-bit platform. */
  function Atoi(s: string): (r: Option<int>)
    ensures r.Some? ==> Int64Min <= r.value <= Int64Max
  {
    ParseInt(s, Int64Min, Int64Max)
  }

  /** `Atoi` reads back exactly what `Itoa` wrote, when it fits in 64 bits. */
  lemma AtoiItoa(n: int)
    ensures Atoi(Itoa(n)) == if Int64Min <= n <= Int64Max then Some(n) else None
  {
    SignedDecimalItoa(n);
  }

  /** Without the 64-bit range check, the decimal text of any integer reads back as that integer. */
  lemma SignedDecimalItoa(n: int)
    ensures SignedDecimal(Itoa(n)) == Some(n)
  {
    var s := Itoa(n);
    if n < 0 {
      DigitsValueOfDigits(-n);
      assert s[0] == '-' && s[1..] == Digits(-n);
    } else {
      DigitsValueOfDigits(n);
      assert s == Digits(n) && IsDigit(s[0]) && s[0] != '+' && s[0] != '-';
    }
  }

  lemma ItoaInjective(m: int, n: int)
    requires Int64Min <= m <= Int64Max && Int64Min <= n <= Int64Max
    requires Itoa(m) == Itoa(n)
    ensures m == n
  {
    AtoiItoa(m);
    AtoiItoa(n);
  }

  /** `strconv.ParseBool`: the spellings Go accepts, and an error for anything else. */
  function ParseBool(s: string): (r: Option<bool>)
    ensures r == Some(true) <==> s in ["1", "t", "T", "TRUE", "true", "True"]
    ensures r == Some(false) <==> s in ["0", "f", "F", "FALSE", "false", "False"]
  {
    if s in ["1", "t", "T", "TRUE", "true", "True"] then Some(true)
    else if s in ["0", "f", "F", "FALSE", "false", "False"] then Some(false)
    else None
  }

  // ---------------------------------------------------------------------------
  // Splitting and joining

  /**
   * Go's `strings.Split(s, sep)` and Python's `s.split(sep)` for a one-character
   * separator: the pieces between separators, at least one, none containing it.
   */
  function Split(s: string, sep: char): (parts: seq<string>)
    ensures |parts| > 0
    ensures forall i :: 0 <= i < |parts| ==> sep !in parts[i]
    decreases |s|
  {
    if s == [] then [""]
    else
      var rest := Split(s[1..], sep);
      if s[0] == sep then [""] + rest else [[s[0]] + rest[0]] + rest[1..]
  }

  /** The inverse of `Split`: the pieces with the separator between them. */
  function Join(parts: seq<string>, sep: char): string
    requires |parts| > 0
  {
    if |parts| == 1 then parts[0] else parts[0] + [sep] + Join(parts[1..], sep)
  }

  /** Joining the pieces of a split gives back the original text. */
  lemma {:induction false} JoinSplit(s: string, sep: char)
    ensures Join(Split(s, sep), sep) == s
    decreases |s|
  {
    if s != [] {
      JoinSplit(s[1..], sep);
      var rest := Split(s[1..], sep);
      if s[0] == sep {
        assert ([""] + rest)[1..] == rest;
      } else {
        var parts := [[s[0]] + rest[0]] + rest[1..];
        if |rest| > 1 {
          assert parts[1..] == rest[1..];
        }
      }
    }
  }

  lemma {:induction false} SplitWithoutSeparator(a: string, sep: char)
    requires sep !in a
    ensures Split(a, sep) == [a]
    decreases |a|
  {
    if a != [] {
      SplitWithoutSeparator(a[1..], sep);
      assert [a[0]] + a[1..] == a;
    }
  }

  /** Text before the first separator becomes the first piece. */
  lemma {:induction false} SplitAtSeparator(a: string, b: string, sep: char)
    requires sep !in a
    ensures Split(a + [sep] + b, sep) == [a] + Split(b, sep)
    decreases |a|
  {
    var s := a + [sep] + b;
    if a == [] {
      assert s[1..] == b;
    } else {
      assert s[1..] == a[1..] + [sep] + b;
      SplitAtSeparator(a[1..], b, sep);
      assert [a[0]] + a[1..] == a;
    }
  }

  /** A separator in front of `b` adds at least one piece to the split of `b`. */
  lemma {:induction false} SplitLonger(a: string, b: string, sep: char)
    ensures |Split(a + [sep] + b, sep)| >= |Split(b, sep)| + 1
    decreases |a|
  {
    var s := a + [sep] + b;
    if a == [] {
      assert s[1..] == b;
    } else {
      assert s[1..] == a[1..] + [sep] + b;
      SplitLonger(a[1..], b, sep);
    }
  }

  /** Four separator-free fields joined by the separator split back into those fields. */
  lemma SplitFour(a: string, b: string, c: string, d: string, sep: char)
    requires sep !in a && sep !in b && sep !in c && sep !in d
    ensures Split(a + [sep] + b + [sep] + c + [sep] + d, sep) == [a, b, c, d]
  {
    SplitWithoutSeparator(d, sep);
    SplitAtSeparator(c, d, sep);
    assert b + [sep] + c + [sep] + d == b + [sep] + (c + [sep] + d);
    SplitAtSeparator(b, c + [sep] + d, sep);
    assert a + [sep] + b + [sep] + c + [sep] + d == a + [sep] + (b + [sep] + c + [sep] + d);
    SplitAtSeparator(a, b + [sep] + c + [sep] + d, sep);
  }

  /** Splitting the join of separator-free pieces gives back the pieces. */
  lemma {:induction false} SplitJoin(parts: seq<string>, sep: char)
    requires |parts| > 0
    requires forall i :: 0 <= i < |parts| ==> sep !in parts[i]
    ensures Split(Join(parts, sep), sep) == parts
    decreases |parts|
  {
    if |parts| == 1 {
      SplitWithoutSeparator(parts[0], sep);
    } else {
      SplitJoin(parts[1..], sep);
      SplitAtSeparator(parts[0], Join(parts[1..], sep), sep);
      assert [parts[0]] + parts[1..] == parts;
    }
  }

  /** `strings.TrimRight(s, "\n")`: drops every trailing newline and nothing else. */
  function TrimRightNewlines(s: string): (r: string)
    ensures r <= s
    ensures r == [] || r[|r| - 1] != '\n'
    ensures forall i :: |r| <= i < |s| ==> s[i] == '\n'
  {
    if s != [] && s[|s| - 1] == '\n' then TrimRightNewlines(s[..|s| - 1]) else s
  }

  // ---------------------------------------------------------------------------
  // Python `str.lower`, `str.strip` and `int`

  function LowerChar(c: char): char
  {
    if 'A' <= c <= 'Z' then (c as int + 32) as char else c
  }

  /** `str.lower` on ASCII letters; every other character is kept. */
  function Lower(s: string): (r: string)
    ensures |r| == |s|
    ensures forall i :: 0 <= i < |s| ==> r[i] == LowerChar(s[i])
  {
    seq(|s|, i requires 0 <= i < |s| => LowerChar(s[i]))
  }

  /** `str.isspace` on ASCII: tab to carriage return, the four separators 0x1C to 0x1F, and the space. */
  predicate IsSpace(c: char)
  {
    ('\t' <= c <= '\r') || ('\U{001C}' <= c <= '\U{001F}') || c == ' '
  }

  predicate AllSpace(s: string)
  {
    forall k :: 0 <= k < |s| ==> IsSpace(s[k])
  }

  /** `str.strip()` on ASCII white space. */
  function Strip(s: string): (r: string)
    ensures r == [] || (!IsSpace(r[0]) && !IsSpace(r[|r| - 1]))
    ensures |r| <= |s|
    decreases |s|
  {
    if s != [] && IsSpace(s[0]) then Strip(s[1..])
    else if s != [] && IsSpace(s[|s| - 1]) then Strip(s[..|s| - 1])
    else s
  }

  /** `r` stands in `s` at `i`, with only white space before and after it. */
  predicate InfixAt(s: string, r: string, i: int)
  {
    0 <= i <= |s| - |r| && s[i..i + |r|] == r && AllSpace(s[..i]) && AllSpace(s[i + |r|..])
  }

  /** What `Strip` removes is white space at the two ends, and nothing else: the rest of `s` is kept as it stands. */
  lemma {:induction false} StripInfix(s: string)
    ensures exists i :: InfixAt(s, Strip(s), i)
    decreases |s|
  {
    var r := Strip(s);
    if s != [] && IsSpace(s[0]) {
      StripInfix(s[1..]);
      var i :| InfixAt(s[1..], r, i);
      InfixAtFront(s, r, i);
    } else if s != [] && IsSpace(s[|s| - 1]) {
      StripInfix(s[..|s| - 1]);
      var i :| InfixAt(s[..|s| - 1], r, i);
      InfixAtBack(s, r, i);
    } else {
      assert InfixAt(s, r, 0);
    }
  }

  lemma InfixAtFront(s: string, r: string, i: int)
    requires s != [] && IsSpace(s[0]) && InfixAt(s[1..], r, i)
    ensures InfixAt(s, r, i + 1)
  {
    var t := s[1..];
    assert s[i + 1..i + 1 + |r|] == t[i..i + |r|];
    assert s[..i + 1] == [s[0]] + t[..i];
    assert s[i + 1 + |r|..] == t[i + |r|..];
  }

  lemma InfixAtBack(s: string, r: string, i: int)
    requires s != [] && IsSpace(s[|s| - 1]) && InfixAt(s[..|s| - 1], r, i)
    ensures InfixAt(s, r, i)
  {
    var t := s[..|s| - 1];
    assert s[i..i + |r|] == t[i..i + |r|];
    assert s[..i] == t[..i];
    assert s[i + |r|..] == t[i + |r|..] + [s[|s| - 1]];
  }

  /** Python's `int(s)` on a string: surrounding white space, an optional sign, decimal digits. */
  function PyInt(s: string): (r: Option<int>)
  {
    SignedDecimal(Strip(s))
  }

  /** Python's `int(str(n))` gives back `n`. */
  lemma PyIntItoa(n: int)
    ensures PyInt(Itoa(n)) == Some(n)
  {
    var s := Itoa(n);
    if n < 0 {
      assert s[0] == '-' && IsDigit(s[|s| - 1]);
    } else {
      assert IsDigit(s[0]) && IsDigit(s[|s| - 1]);
    }
    assert Strip(s) == s;
    SignedDecimalItoa(n);
  }

  // ---------------------------------------------------------------------------
  // Byte-wise order of names, as Go compares strings and sorts a directory

  /** `a < b` on Go strings: the first differing character decides; a proper prefix comes first. */
  predicate Less(a: string, b: string)
    decreases |a|
  {
    b != [] && (a == [] || a[0] < b[0] || (a[0] == b[0] && Less(a[1..], b[1..])))
  }

  lemma {:induction false} LessIrreflexive(a: string)
    ensures !Less(a, a)
    decreases |a|
  {
    if a != [] {
      LessIrreflexive(a[1..]);
    }
  }

  lemma {:induction false} LessTransitive(a: string, b: string, c: string)
    requires Less(a, b) && Less(b, c)
    ensures Less(a, c)
    decreases |a|
  {
    if a != [] && a[0] == b[0] && b[0] == c[0] {
      LessTransitive(a[1..], b[1..], c[1..]);
    }
  }

  lemma {:induction false} LessTotal(a: string, b: string)
    ensures a == b || Less(a, b) || Less(b, a)
    decreases |a|
  {
    if a != [] && b != [] && a[0] == b[0] {
      LessTotal(a[1..], b[1..]);
      if a[1..] == b[1..] {
        assert a == [a[0]] + a[1..] && b == [b[0]] + b[1..];
      }
    }
  }

  lemma {:induction false} LessAsymmetric(a: string, b: string)
    requires Less(a, b)
    ensures !Less(b, a)
    decreases |a|
  {
    if a != [] && a[0] == b[0] {
      LessAsymmetric(a[1..], b[1..]);
    }
  }

  /** `m` is the last name of `names` in Go's order: the last entry `ioutil.ReadDir` returns. */
  ghost predicate IsLast(names: set<string>, m: string)
  {
    m in names && forall x :: x in names ==> !Less(m, x)
  }

  lemma {:induction false} LastExists(names: set<string>)
    requires names != {}
    ensures exists m :: IsLast(names, m)
    decreases |names|
  {
    var x :| x in names;
    if names == {x} {
      LessIrreflexive(x);
      assert IsLast(names, x);
    } else {
      var rest := names - {x};
      LastExists(rest);
      var m :| IsLast(rest, m);
      LessTotal(m, x);
      if Less(m, x) {
        forall y | y in names ensures !Less(x, y) {
          if y == x {
            LessIrreflexive(x);
          } else if Less(x, y) {
            LessTransitive(m, x, y);
          }
        }
        assert IsLast(names, x);
      } else {
        if m != x {
          LessAsymmetric(x, m);
        } else {
          LessIrreflexive(x);
        }
        assert IsLast(names, m);
      }
    }
  }

  lemma LastUnique(names: set<string>, a: string, b: string)
    requires IsLast(names, a) && IsLast(names, b)
    ensures a == b
  {
    LessTotal(a, b);
  }

  /** The last name of a non-empty set of names, in Go's order. */
  ghost function Last(names: set<string>): (m: string)
    requires names != {}
    ensures IsLast(names, m)
  {
    LastExists(names);
    var m :| IsLast(names, m); m
  }
}
