/** String helpers shared by the model: decimal rendering, zero padding,
    substring search, whitespace stripping and the code-point ordering that
    Python uses to compare and sort strings. */
module Text {
  import opened Wrappers

  function Digit(d: nat): char
    requires d < 10
  {
    (d + 48) as char
  }

  lemma DigitInjective(a: nat, b: nat)
    requires a < 10 && b < 10 && Digit(a) == Digit(b)
    ensures a == b
  {
  }

  predicate IsDigit(c: char) {
    '0' <= c <= '9'
  }

  /** Decimal rendering of a natural number, as Python's str(n). */
  function NatToString(n: nat): (s: string)
    ensures |s| >= 1
    ensures forall i :: 0 <= i < |s| ==> IsDigit(s[i])
  {
    if n < 10 then [Digit(n)] else NatToString(n / 10) + [Digit(n % 10)]
  }

  /** Decimal rendering of an integer, with a leading '-' when negative. */
  function IntToString(n: int): string {
    if n < 0 then "-" + NatToString(-n) else NatToString(n)
  }

  lemma {:induction false} NatToStringLong(n: nat)
    requires n >= 10
    ensures |NatToString(n)| >= 2
  {
  }

  /** Different numbers have different decimal renderings. */
  lemma {:induction false} NatToStringInjective(a: nat, b: nat)
    requires NatToString(a) == NatToString(b)
    ensures a == b
  {
    if a < 10 && b < 10 {
      assert NatToString(a)[0] == Digit(a);
    } else if a < 10 {
      NatToStringLong(b);
    } else if b < 10 {
      NatToStringLong(a);
    } else {
      var sa, sb := NatToString(a / 10), NatToString(b / 10);
      assert NatToString(a) == sa + [Digit(a % 10)];
      assert NatToString(b) == sb + [Digit(b % 10)];
      assert |sa| == |sb|;
      assert sa == NatToString(a)[..|sa|] == NatToString(b)[..|sb|] == sb;
      assert Digit(a % 10) == NatToString(a)[|sa|] == NatToString(b)[|sb|] == Digit(b % 10);
      NatToStringInjective(a / 10, b / 10);
    }
  }

  /** Different integers have different renderings. */
  lemma IntToStringInjective(a: int, b: int)
    requires IntToString(a) == IntToString(b)
    ensures a == b
  {
    assert a < 0 <==> IntToString(a)[0] == '-';
    assert b < 0 <==> IntToString(b)[0] == '-';
    if a < 0 && b < 0 {
      assert NatToString(-a) == IntToString(a)[1..] == IntToString(b)[1..] == NatToString(-b);
      NatToStringInjective(-a, -b);
    } else if a >= 0 && b >= 0 {
      NatToStringInjective(a, b);
    }
  }

  function Zeros(k: nat): (s: string)
    ensures |s| == k
  {
    if k == 0 then "" else "0" + Zeros(k - 1)
  }

  /** Zero-padded rendering to at least `width` digits, as "%0*d". */
  function Pad(n: nat, width: nat): (s: string)
    ensures |s| >= width && |s| >= 1
  {
    var digits := NatToString(n);
    if |digits| >= width then digits else Zeros(width - |digits|) + digits
  }

  /** Two-digit fields (hours, minutes, days, months) are exactly two
      characters long: the tens digit then the units digit. */
  lemma Pad2Digits(n: nat)
    requires n < 100
    ensures Pad(n, 2) == [Digit(n / 10), Digit(n % 10)]
  {
    if n >= 10 {
      assert NatToString(n) == NatToString(n / 10) + [Digit(n % 10)];
    }
  }

  /** Two two-digit fields are equal only when their numbers are. */
  lemma Pad2Injective(a: nat, b: nat)
    requires a < 100 && b < 100
    requires Pad(a, 2) == Pad(b, 2)
    ensures a == b
  {
    Pad2Digits(a);
    Pad2Digits(b);
    assert Digit(a / 10) == Pad(a, 2)[0] == Pad(b, 2)[0] == Digit(b / 10);
    assert Digit(a % 10) == Pad(a, 2)[1] == Pad(b, 2)[1] == Digit(b % 10);
  }

  /** A positive number's rendering does not start with '0'. */
  lemma {:induction false} NatToStringLeading(n: nat)
    requires n >= 1
    ensures NatToString(n)[0] != '0'
  {
    if n >= 10 {
      NatToStringLeading(n / 10);
      assert NatToString(n)[0] == NatToString(n / 10)[0];
    }
  }

  lemma {:induction false} ZerosAreZeros(k: nat)
    ensures forall i :: 0 <= i < k ==> Zeros(k)[i] == '0'
  {
    if k > 0 {
      ZerosAreZeros(k - 1);
      assert Zeros(k) == "0" + Zeros(k - 1);
    }
  }

  /** A padded number is its leading zeros, then its digits. */
  lemma PadParts(n: nat, width: nat)
    ensures var p, s := Pad(n, width), NatToString(n);
      && |s| <= |p| && p[|p| - |s|..] == s
      && (forall i :: 0 <= i < |p| - |s| ==> p[i] == '0')
      && (forall i :: 0 <= i < |p| ==> IsDigit(p[i]))
  {
    var s := NatToString(n);
    if |s| < width {
      ZerosAreZeros(width - |s|);
    }
  }

  lemma PadShorter(a: nat, b: nat, width: nat)
    requires Pad(a, width) == Pad(b, width)
    ensures |NatToString(a)| >= |NatToString(b)|
  {
    var p, sa, sb := Pad(a, width), NatToString(a), NatToString(b);
    PadParts(a, width);
    PadParts(b, width);
    if |sa| < |sb| {
      var k := |p| - |sb|;
      assert p[k] == sb[0];
      assert p[k] == '0';
      if b >= 1 {
        NatToStringLeading(b);
      }
    }
  }

  /** Different numbers have different zero-padded renderings. */
  lemma PadInjective(a: nat, b: nat, width: nat)
    requires Pad(a, width) == Pad(b, width)
    ensures a == b
  {
    PadShorter(a, b, width);
    PadShorter(b, a, width);
    var p, sa, sb := Pad(a, width), NatToString(a), NatToString(b);
    PadParts(a, width);
    PadParts(b, width);
    assert sa == p[|p| - |sa|..] == sb;
    NatToStringInjective(a, b);
  }

  /** Zero-padded rendering of an integer, with a leading '-' when negative. */
  function PadInt(n: int, width: nat): (s: string)
    ensures |s| >= 1
  {
    if n < 0 then "-" + Pad(-n, width) else Pad(n, width)
  }

  /** A padded integer is made of digits and a leading '-'. */
  lemma PadIntChars(n: int, width: nat)
    ensures forall i :: 0 <= i < |PadInt(n, width)| ==> IsDigit(PadInt(n, width)[i]) || PadInt(n, width)[i] == '-'
    ensures IsDigit(PadInt(n, width)[0]) <==> n >= 0
  {
    PadParts(if n < 0 then -n else n, width);
  }

  /** Different integers have different zero-padded renderings. */
  lemma PadIntInjective(a: int, b: int, width: nat)
    requires PadInt(a, width) == PadInt(b, width)
    ensures a == b
  {
    PadIntChars(a, width);
    PadIntChars(b, width);
    if a < 0 && b < 0 {
      assert Pad(-a, width) == PadInt(a, width)[1..] == PadInt(b, width)[1..] == Pad(-b, width);
      PadInjective(-a, -b, width);
    } else if a >= 0 && b >= 0 {
      PadInjective(a, b, width);
    }
  }

  /** Python's `sub in s`. */
  predicate Contains(s: string, sub: string) {
    sub <= s || (s != [] && Contains(s[1..], sub))
  }

  /** A string containing `sub` contains its first character. */
  lemma {:induction false} ContainsFirstChar(s: string, sub: string)
    requires sub != [] && Contains(s, sub)
    ensures sub[0] in s
  {
    if !(sub <= s) {
      ContainsFirstChar(s[1..], sub);
    }
  }

  /** Python's str.isspace() for one character. */
  predicate IsSpace(c: char) {
    c == ' ' || '\t' <= c <= '\r' || '\U{1C}' <= c <= '\U{1F}' || c == '\U{85}' || c == '\U{A0}'
    || c == '\U{1680}' || '\U{2000}' <= c <= '\U{200A}' || c == '\U{2028}' || c == '\U{2029}'
    || c == '\U{202F}' || c == '\U{205F}' || c == '\U{3000}'
  }

  /** s.lstrip(chars) for a one-character set of stripped characters. */
  function LStripChar(s: string, c: char): (r: string)
    ensures |r| <= |s| && r == s[|s| - |r|..]
    ensures r == [] || r[0] != c
  {
    if s != [] && s[0] == c then LStripChar(s[1..], c) else s
  }

  function LStrip(s: string): (r: string)
    ensures |r| <= |s| && r == s[|s| - |r|..]
    ensures r == [] || !IsSpace(r[0])
  {
    if s != [] && IsSpace(s[0]) then LStrip(s[1..]) else s
  }

  function RStrip(s: string): (r: string)
    ensures |r| <= |s| && r == s[..|r|]
    ensures r == [] || !IsSpace(r[|r| - 1])
  {
    if s != [] && IsSpace(s[|s| - 1]) then RStrip(s[..|s| - 1]) else s
  }

  /** Python's str.strip() with no argument. */
  function Strip(s: string): string {
    RStrip(LStrip(s))
  }

  /** Python's s.replace(old, new) for one-character old and new. */
  function ReplaceChar(s: string, from: char, to: char): (r: string)
    ensures |r| == |s|
    ensures forall i :: 0 <= i < |s| ==> r[i] == (if s[i] == from then to else s[i])
  {
    if s == [] then [] else [if s[0] == from then to else s[0]] + ReplaceChar(s[1..], from, to)
  }

  // ---- ordering: Python compares strings code point by code point ----

  predicate LexLe(a: string, b: string) {
    |a| == 0 || (|b| > 0 && (a[0] < b[0] || (a[0] == b[0] && LexLe(a[1..], b[1..]))))
  }

  lemma {:induction false} LexLeReflexive(a: string)
    ensures LexLe(a, a)
  {
    if |a| > 0 {
      LexLeReflexive(a[1..]);
    }
  }

  lemma {:induction false} LexLeTotal(a: string, b: string)
    ensures LexLe(a, b) || LexLe(b, a)
  {
    if |a| > 0 && |b| > 0 && a[0] == b[0] {
      LexLeTotal(a[1..], b[1..]);
    }
  }

  lemma {:induction false} LexLeAntisymmetric(a: string, b: string)
    requires LexLe(a, b) && LexLe(b, a)
    ensures a == b
  {
    if |a| > 0 && |b| > 0 {
      LexLeAntisymmetric(a[1..], b[1..]);
      assert a == [a[0]] + a[1..];
      assert b == [b[0]] + b[1..];
    }
  }

  lemma {:induction false} LexLeTransitive(a: string, b: string, c: string)
    requires LexLe(a, b) && LexLe(b, c)
    ensures LexLe(a, c)
  {
    if |a| > 0 && |b| > 0 && |c| > 0 && a[0] == b[0] == c[0] {
      LexLeTransitive(a[1..], b[1..], c[1..]);
    }
  }

  predicate IsLeast(m: string, s: set<string>) {
    m in s && forall x :: x in s ==> LexLe(m, x)
  }

  lemma {:induction false} LeastExists(s: set<string>)
    requires s != {}
    ensures exists m :: IsLeast(m, s)
    decreases |s|
  {
    var x :| x in s;
    LexLeReflexive(x);
    if s != {x} {
      var rest := s - {x};
      LeastExists(rest);
      var m :| IsLeast(m, rest);
      LexLeTotal(x, m);
      if LexLe(x, m) {
        forall y | y in s ensures LexLe(x, y) {
          if y != x { LexLeTransitive(x, m, y); }
        }
        assert IsLeast(x, s);
      } else {
        assert IsLeast(m, s);
      }
    } else {
      assert IsLeast(x, s);
    }
  }

  lemma LeastUnique(s: set<string>)
    ensures forall a, b :: IsLeast(a, s) && IsLeast(b, s) ==> a == b
  {
    forall a, b | IsLeast(a, s) && IsLeast(b, s) ensures a == b {
      LexLeAntisymmetric(a, b);
    }
  }

  predicate StrictlySorted(r: seq<string>) {
    forall i, j :: 0 <= i < j < |r| ==> LexLe(r[i], r[j]) && r[i] != r[j]
  }

  /** The elements of a set of strings in ascending order, as Python's sorted(). */
  function SortedStrings(s: set<string>): (r: seq<string>)
    ensures |r| == |s|
    ensures forall x :: x in s <==> x in r
    ensures StrictlySorted(r)
    decreases |s|
  {
    if s == {} then []
    else
      LeastExists(s);
      LeastUnique(s);
      var m :| IsLeast(m, s);
      [m] + SortedStrings(s - {m})
  }

  // ---- parsing: Python's int(text) ----

  predicate AllDigits(s: string) {
    forall i :: 0 <= i < |s| ==> IsDigit(s[i])
  }

  /** A decimal literal as int() reads it: digits, where a single underscore
      may stand between two digits. */
  predicate IsNumeral(s: string) {
    && s != [] && IsDigit(s[0]) && IsDigit(s[|s| - 1])
    && (forall i :: 0 <= i < |s| ==> IsDigit(s[i]) || s[i] == '_')
    && (forall i :: 0 <= i < |s| - 1 ==> s[i] == '_' ==> s[i + 1] != '_')
  }

  /** The value of a run of decimal digits, most significant first; an
      underscore contributes nothing. */
  function DigitsValue(s: string): nat
    requires forall i :: 0 <= i < |s| ==> IsDigit(s[i]) || s[i] == '_'
  {
    if s == [] then 0
    else if s[|s| - 1] == '_' then DigitsValue(s[..|s| - 1])
    else
      assert IsDigit(s[|s| - 1]);
      DigitsValue(s[..|s| - 1]) * 10 + (s[|s| - 1] as int - '0' as int)
  }

  /** int(text): surrounding whitespace is ignored, one optional sign, then a
      numeral; anything else is a ValueError (None). */
  function ParseInt(text: string): Option<int> {
    var t := Strip(text);
    if t != [] && (t[0] == '-' || t[0] == '+') then
      var body := t[1..];
      if IsNumeral(body) then
        var v: int := DigitsValue(body);
        Some(if t[0] == '-' then -v else v)
      else None
    else if IsNumeral(t) then Some(DigitsValue(t))
    else None
  }

  lemma {:induction false} DigitsValueOfNatToString(n: nat)
    ensures AllDigits(NatToString(n)) && DigitsValue(NatToString(n)) == n
  {
    var s := NatToString(n);
    if n >= 10 {
      DigitsValueOfNatToString(n / 10);
      assert s[..|s| - 1] == NatToString(n / 10);
    }
  }

  lemma StripNoSpace(s: string)
    requires s != [] && !IsSpace(s[0]) && !IsSpace(s[|s| - 1])
    ensures Strip(s) == s
  {
  }

  /** Reading back a rendered number gives the number: int(str(n)) == n. */
  lemma ParseIntOfNatToString(n: nat)
    ensures ParseInt(NatToString(n)) == Some(n)
  {
    var s := NatToString(n);
    assert IsDigit(s[0]) && IsDigit(s[|s| - 1]);
    StripNoSpace(s);
    DigitsValueOfNatToString(n);
    assert Strip(s) == s;
    assert s[0] != '-' && s[0] != '+';
  }

  /** int("0") is 0. */
  lemma ParseIntZero()
    ensures ParseInt("0") == Some(0)
  {
    ParseIntOfNatToString(0);
    assert NatToString(0) == "0";
  }

  /** int() rejects a text without surrounding whitespace whose first
      character is neither a sign nor a digit. */
  lemma ParseIntRejects(t: string)
    requires t != [] && !IsSpace(t[0]) && !IsSpace(t[|t| - 1])
    requires t[0] != '-' && t[0] != '+' && !IsDigit(t[0])
    ensures ParseInt(t) == None
  {
    StripNoSpace(t);
  }

  /** An unsigned text without surrounding whitespace reads as its numeral's
      value, or is rejected when it is no numeral. */
  lemma ParseIntUnsigned(t: string)
    requires t != [] && !IsSpace(t[0]) && !IsSpace(t[|t| - 1])
    requires t[0] != '-' && t[0] != '+'
    ensures IsNumeral(t) ==> ParseInt(t) == Some(DigitsValue(t))
    ensures !IsNumeral(t) ==> ParseInt(t) == None
  {
    StripNoSpace(t);
  }

  /** int() accepts an underscore between two digits: int("1_0") == 10. */
  lemma ParseIntUnderscore()
    ensures ParseInt("1_0") == Some(10)
  {
    var t := "1_0";
    assert IsNumeral(t);
    assert t[..2] == "1_" && t[..2][..1] == "1" && "1"[..0] == [];
    assert DigitsValue("1") == 1;
    assert DigitsValue("1_") == 1;
    ParseIntUnsigned(t);
  }

  /** int() rejects a numeral-like text whose underscore is leading,
      trailing or doubled. */
  lemma ParseIntRejectsUnderscore(t: string, k: nat)
    requires t != [] && !IsSpace(t[0]) && !IsSpace(t[|t| - 1])
    requires t[0] != '-' && t[0] != '+'
    requires k < |t| && t[k] == '_'
    requires k == 0 || k == |t| - 1 || (k + 1 < |t| && t[k + 1] == '_')
    ensures ParseInt(t) == None
  {
    ParseIntUnsigned(t);
  }

  /** int("_1"), int("1_") and int("1__0") are ValueErrors. */
  lemma ParseIntRejectsUnderscores()
    ensures ParseInt("_1") == None
    ensures ParseInt("1_") == None
    ensures ParseInt("1__0") == None
  {
    ParseIntRejectsUnderscore("_1", 0);
    ParseIntRejectsUnderscore("1_", 1);
    ParseIntRejectsUnderscore("1__0", 1);
  }
}
