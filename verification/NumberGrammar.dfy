/** What the three number scans of the lexer match, in terms of a grammar (syntax/lexer.go). */
module NumberGrammar {
  import opened Lexing

  // ----- the grammar -----

  predicate Digits(s: string) {
    forall i :: 0 <= i < |s| ==> IsDigit(s[i])
  }

  predicate HexDigits(s: string) {
    forall i :: 0 <= i < |s| ==> IsHexDigit(s[i])
  }

  /** [+-]? */
  predicate Sign(s: string) {
    s == "" || (|s| == 1 && IsSign(s[0]))
  }

  /** A sign and digits, of which there is at least one. */
  ghost predicate IsInt(t: string) {
    exists g, d: string :: t == g + d && Sign(g) && Digits(d) && d != ""
  }

  /** A sign, "0x" and hex digits, of which there is at least one. */
  ghost predicate IsHex(t: string) {
    exists g, x, d: string :: t == g + x + d && Sign(g) && (x == "0x" || x == "0X") && HexDigits(d) && d != ""
  }

  /** Nothing, or a dot and at least one digit. */
  predicate IsFraction(f: string) {
    f == "" || (f[0] == '.' && |f| > 1 && Digits(f[1..]))
  }

  /** Nothing, or an "e" and an int constant. */
  ghost predicate IsExponent(e: string) {
    e == "" || ((e[0] == 'e' || e[0] == 'E') && IsInt(e[1..]))
  }

  /** A sign, digits and a fraction, not both empty. */
  ghost predicate IsMantissa(t: string) {
    exists g, d, f: string :: t == g + d + f && Sign(g) && Digits(d) && IsFraction(f) && (d != "" || f != "")
  }

  /** A mantissa and an exponent. */
  ghost predicate IsDouble(t: string) {
    exists m, e: string :: t == m + e && IsMantissa(m) && IsExponent(e)
  }

  // ----- prefixes -----

  lemma SignPrefix(s: string, g: string, d: string)
    requires g + d <= s && Sign(g) && d != "" && !IsSign(d[0])
    ensures |g| == SignLen(s) && s[|g|..][..|d|] == d
  {
    assert s[0] == (g + d)[0];
    assert s[|g|..|g| + |d|] == (g + d)[|g|..];
  }

  lemma DigitsPrefix(s: string, d: string)
    requires d <= s && Digits(d)
    ensures |d| <= DigitRun(s)
  {
    assert forall i :: 0 <= i < |d| ==> d[i] == s[i] && IsDigit(s[i]);
  }

  lemma HexDigitsPrefix(s: string, d: string)
    requires d <= s && HexDigits(d)
    ensures |d| <= HexRun(s)
  {
    assert forall i :: 0 <= i < |d| ==> d[i] == s[i] && IsHexDigit(s[i]);
  }

  lemma Split(s: string, i: nat, n: nat)
    requires i <= n <= |s|
    ensures s[..n] == s[..i] + s[i..n] && s[i..n] == s[i..][..n - i]
  {
  }

  lemma SignText(s: string)
    ensures Sign(s[..SignLen(s)])
  {
  }

  // ----- int and hex constants -----

  /** An int constant at the start of s ends within the run of digits after the sign. */
  lemma IntPrefix(s: string, t: string)
    requires t <= s && IsInt(t)
    ensures SignLen(s) < |t| <= SignLen(s) + DigitRun(s[SignLen(s)..])
  {
    hide DigitRun;
    var g, d: string :| t == g + d && Sign(g) && Digits(d) && d != "";
    assert IsDigit(d[0]);
    SignPrefix(s, g, d);
    DigitsPrefix(s[SignLen(s)..], d);
  }

  /** IntLen is the length of the longest int constant at the start of s, or 0 if there is none. */
  lemma IntLongest(s: string)
    ensures IntLen(s) > 0 ==> IsInt(s[..IntLen(s)])
    ensures forall n :: 0 <= n <= |s| && IsInt(s[..n]) ==> n <= IntLen(s)
  {
    hide DigitRun;
    var i := SignLen(s);
    if IntLen(s) > 0 {
      Split(s, i, IntLen(s));
      SignText(s);
    }
    forall n | 0 <= n <= |s| && IsInt(s[..n]) ensures n <= IntLen(s) {
      IntPrefix(s, s[..n]);
    }
  }

  lemma HexPrefix(s: string, t: string)
    requires t <= s && IsHex(t)
    ensures 0 < |t| <= HexLen(s)
  {
    hide HexRun, HexDigits, Sign, SignLen;
    var g, x, d: string :| t == g + x + d && Sign(g) && (x == "0x" || x == "0X") && HexDigits(d) && d != "";
    var i := |g|;
    assert t == g + (x + d) && (x + d)[0] == '0';
    SignPrefix(s, g, x + d);
    ThreeParts(s, g, x, d);
    assert s[i] == s[i..][0] == x[0] && s[i + 1] == s[i..][1] == x[1];
    HexDigitsPrefix(s[i + 2..], d);
  }

  /** HexLen is the length of the longest hex constant at the start of s, or 0 if there is none. */
  lemma HexLongest(s: string)
    ensures HexLen(s) > 0 ==> IsHex(s[..HexLen(s)])
    ensures forall n :: 0 <= n <= |s| && IsHex(s[..n]) ==> n <= HexLen(s)
  {
    hide HexRun;
    var i, n := SignLen(s), HexLen(s);
    if n > 0 {
      Split(s, i + 2, n);
      Split(s, i, i + 2);
      SignText(s);
      assert s[i..i + 2] == [s[i], s[i + 1]];
      assert HexDigits(s[i + 2..n]);
      assert s[..n] == s[..i] + s[i..i + 2] + s[i + 2..n];
    }
    forall n | 0 <= n <= |s| && IsHex(s[..n]) ensures n <= HexLen(s) {
      HexPrefix(s, s[..n]);
    }
  }

  // ----- double constants -----

  /** The longest fraction at the start of s, dangling dots aside. */
  function FractionLen(s: string): (n: nat)
    ensures n <= |s|
  {
    if Fraction(s).Good? then Fraction(s).len else 0
  }

  function ExponentLen(s: string): (n: nat)
    ensures n <= |s|
  {
    if Exponent(s).Good? then Exponent(s).len else 0
  }

  lemma FractionText(s: string)
    ensures IsFraction(s[..FractionLen(s)])
  {
    if FractionLen(s) > 0 {
      assert s[..FractionLen(s)][1..] == s[1..][..FractionLen(s) - 1];
    }
  }

  lemma FractionPrefix(s: string, f: string)
    requires f <= s && IsFraction(f)
    ensures |f| <= FractionLen(s)
  {
    if f != "" {
      assert s[0] == f[0] && s[1..][..|f| - 1] == f[1..];
      DigitsPrefix(s[1..], f[1..]);
    }
  }

  /** After the "e" an exponent is an int constant. */
  lemma ExponentIsInt(s: string)
    requires s != "" && (s[0] == 'e' || s[0] == 'E')
    ensures Exponent(s) == if IntLen(s[1..]) == 0 then Bad else Good(1 + IntLen(s[1..]))
  {
    assert s[1 + SignLen(s[1..])..] == s[1..][SignLen(s[1..])..];
  }

  lemma ExponentText(s: string)
    ensures IsExponent(s[..ExponentLen(s)])
  {
    hide IntLen, Exponent, IsInt;
    if s == "" || (s[0] != 'e' && s[0] != 'E') {
      NoExponent(s);
    } else {
      ExponentIsInt(s);
      IntLongest(s[1..]);
      if ExponentLen(s) > 0 {
        assert s[..ExponentLen(s)][1..] == s[1..][..ExponentLen(s) - 1];
      }
    }
  }

  lemma NoExponent(s: string)
    requires s == "" || (s[0] != 'e' && s[0] != 'E')
    ensures Exponent(s) == Good(0)
  {
  }

  lemma ExponentPrefix(s: string, e: string)
    requires e <= s && IsExponent(e)
    ensures |e| <= ExponentLen(s)
  {
    hide IntLen, Exponent, IsInt;
    if e != "" {
      assert s[0] == e[0] && s[1..][..|e| - 1] == e[1..];
      ExponentIsInt(s);
      IntLongest(s[1..]);
      SomeInt(e[1..]);
    }
  }

  lemma SomeInt(t: string)
    requires IsInt(t)
    ensures t != ""
  {
  }

  /** The longest mantissa at the start of s, or 0. */
  function MantissaLen(s: string): (n: nat)
    ensures n <= |s|
  {
    var i := SignLen(s);
    var d := DigitRun(s[i..]);
    var f := FractionLen(s[i + d..]);
    if d + f == 0 then 0 else i + d + f
  }

  lemma MantissaText(s: string)
    requires MantissaLen(s) > 0
    ensures IsMantissa(s[..MantissaLen(s)])
  {
    hide FractionLen, DigitRun, IsFraction;
    var i := SignLen(s);
    var j, n := i + DigitRun(s[i..]), MantissaLen(s);
    SignText(s);
    FractionText(s[j..]);
    Split(s, i, j);
    Split(s, j, n);
    assert s[..n] == s[..i] + s[i..j] + s[j..n] && Digits(s[i..j]) && IsFraction(s[j..n]);
  }

  /** The parts of a mantissa at the start of s: the sign, k digits and a fraction. */
  lemma MantissaParts(s: string, t: string) returns (k: nat, f: string)
    requires t <= s && IsMantissa(t)
    ensures |t| == SignLen(s) + k + |f| && k <= DigitRun(s[SignLen(s)..]) && (k > 0 || f != "") && IsFraction(f)
    ensures f == s[SignLen(s) + k..][..|f|]
  {
    hide DigitRun, SignLen, Digits, IsFraction;
    var g, d: string;
    g, d, f :| t == g + d + f && Sign(g) && Digits(d) && IsFraction(f) && (d != "" || f != "");
    k := |d|;
    assert t == g + (d + f);
    NoSign(d, f);
    SignPrefix(s, g, d + f);
    ThreeParts(s, g, d, f);
    DigitsPrefix(s[|g|..], d);
  }

  lemma NoSign(d: string, f: string)
    requires Digits(d) && IsFraction(f) && (d != "" || f != "")
    ensures d + f != "" && !IsSign((d + f)[0])
  {
    assert (d + f)[0] == if d != "" then d[0] else f[0];
  }

  lemma ThreeParts(s: string, a: string, b: string, c: string)
    requires a + b + c <= s
    ensures |a| + |b| + |c| <= |s| && b <= s[|a|..] && c == s[|a| + |b|..][..|c|]
  {
    assert a + b + c == s[..|a| + |b| + |c|];
    assert b == (a + b + c)[|a|..|a| + |b|] && c == (a + b + c)[|a| + |b|..];
    assert s[|a|..][..|b|] == b;
  }

  /** A mantissa at the start of s is no longer. */
  lemma MantissaPrefix(s: string, t: string)
    requires t <= s && IsMantissa(t)
    ensures 0 < |t| <= MantissaLen(s)
  {
    hide FractionLen, DigitRun, IsMantissa, IsFraction;
    var k, f := MantissaParts(s, t);
    var rest := s[SignLen(s)..];
    assert rest[k..] == s[SignLen(s) + k..];
    FractionAfter(rest, k, f);
    assert rest[DigitRun(rest)..] == s[SignLen(s) + DigitRun(rest)..];
  }

  /** A fraction comes after all of the digits. */
  lemma FractionAfter(s: string, k: nat, f: string)
    requires k <= DigitRun(s) && k + |f| <= |s| && s[k..][..|f|] == f && IsFraction(f)
    ensures k + |f| <= DigitRun(s) + FractionLen(s[DigitRun(s)..])
  {
    hide FractionLen, DigitRun;
    if f != "" {
      assert s[k] == f[0] && !IsDigit(s[k]);
      FractionPrefix(s[k..], f);
    }
  }

  /** The longest double constant at the start of s, or 0. */
  function DoubleBest(s: string): (n: nat)
    ensures n <= |s|
  {
    var m := MantissaLen(s);
    if m == 0 then 0 else m + ExponentLen(s[m..])
  }

  lemma DoubleText(s: string)
    requires DoubleBest(s) > 0
    ensures IsDouble(s[..DoubleBest(s)])
  {
    hide MantissaLen, ExponentLen, IsMantissa, IsExponent;
    var m := MantissaLen(s);
    MantissaText(s);
    ExponentText(s[m..]);
    Split(s, m, DoubleBest(s));
  }

  /** What follows a mantissa that stops short of the longest one is a digit or a dot. */
  lemma MantissaContinues(s: string, k: nat)
    requires k < MantissaLen(s) && IsMantissa(s[..k])
    ensures IsDigit(s[k]) || s[k] == '.'
  {
    hide DigitRun, IsMantissa, FractionLen;
    var _, _ := MantissaParts(s, s[..k]);
    var i := SignLen(s);
    var j := i + DigitRun(s[i..]);
    if k < j {
      assert s[k] == s[i..][k - i];
    } else {
      AfterDigits(s, j, k);
    }
  }

  /** With all of the digits taken, a shorter fraction is followed by a digit or a dot. */
  lemma AfterDigits(s: string, j: nat, k: nat)
    requires j <= |s| && j <= k < j + FractionLen(s[j..])
    ensures IsDigit(s[k]) || s[k] == '.'
  {
    if k == j {
      assert s[k] == s[j..][0];
    } else {
      assert s[k] == s[j..][1..][k - j - 1];
    }
  }

  lemma DoublePrefix(s: string, t: string)
    requires t <= s && IsDouble(t)
    ensures 0 < |t| <= DoubleBest(s)
  {
    hide MantissaLen, ExponentLen, IsMantissa, IsExponent;
    var m, e: string :| t == m + e && IsMantissa(m) && IsExponent(e);
    assert m <= s && s[..|m|] == m;
    MantissaPrefix(s, m);
    assert s[|m|..][..|e|] == e;
    if |m| < MantissaLen(s) {
      MantissaContinues(s, |m|);
      ExponentStarts(e);
    } else {
      ExponentPrefix(s[|m|..], e);
    }
  }

  lemma ExponentStarts(e: string)
    requires IsExponent(e)
    ensures e != "" ==> e[0] == 'e' || e[0] == 'E'
  {
  }

  // ----- what the scan makes of it -----

  /** c after the constant t looks like the start of a fraction or an exponent, but is none. */
  ghost predicate Dangles(t: string, c: char) {
    (c == '.' && IsInt(t)) || ((c == 'e' || c == 'E') && IsMantissa(t))
  }

  /** t is the longest double constant at the start of s. */
  ghost predicate LongestDouble(s: string, n: nat) {
    n <= |s| && IsDouble(s[..n]) && forall k :: n < k <= |s| ==> !IsDouble(s[..k])
  }

  /** The scan fails exactly at a dangling dot or "e". */
  lemma DoubleSteps(s: string)
    ensures var i := SignLen(s);
            var j := i + DigitRun(s[i..]);
            var m := MantissaLen(s);
            && (DoubleLen(s) > 0 <==> m > 0 && Fraction(s[j..]).Good? && Exponent(s[m..]).Good?)
            && (DoubleLen(s) > 0 ==> DoubleLen(s) == DoubleBest(s))
            && (m > 0 && Fraction(s[j..]).Bad? ==> m == j)
  {
    hide Fraction, Exponent, DigitRun;
  }

  lemma BadFraction(s: string)
    ensures Fraction(s).Bad? ==> s != "" && s[0] == '.' && FractionLen(s) == 0
    ensures s != "" && s[0] == '.' && FractionLen(s) == 0 ==> Fraction(s).Bad?
  {
  }

  lemma BadExponent(s: string)
    ensures Exponent(s).Bad? <==> s != "" && (s[0] == 'e' || s[0] == 'E') && ExponentLen(s) == 0
  {
  }

  lemma IntMantissa(s: string)
    ensures IsInt(s) ==> IsMantissa(s) && IsDouble(s)
    ensures IsMantissa(s) ==> IsDouble(s)
  {
    if g, d: string :| s == g + d && Sign(g) && Digits(d) && d != "" {
      assert s == g + d + "";
    }
    assert s == s + "";
  }

  /** DoubleLen is the length of the longest double constant at the start of s unless a dot or an "e"
      dangles after it, and then it is 0. */
  lemma DoubleExactly(s: string, n: nat)
    requires LongestDouble(s, n)
    ensures DoubleLen(s) == if n < |s| && Dangles(s[..n], s[n]) then 0 else n
  {
    hide MantissaLen, ExponentLen, FractionLen, DigitRun, Fraction, Exponent, IsMantissa, IsDouble, IsInt, DoubleLen;
    DoublePrefix(s, s[..n]);
    DoubleText(s);
    assert DoubleBest(s) == n;
    DoubleSteps(s);
    var i := SignLen(s);
    var j, m := i + DigitRun(s[i..]), MantissaLen(s);
    BadFraction(s[j..]);
    BadExponent(s[m..]);
    DanglesExactly(s, n);
  }

  lemma DanglesExactly(s: string, n: nat)
    requires n == DoubleBest(s) && n > 0
    ensures var i := SignLen(s);
            var j := i + DigitRun(s[i..]);
            n < |s| && Dangles(s[..n], s[n]) <==> Fraction(s[j..]).Bad? || Exponent(s[MantissaLen(s)..]).Bad?
  {
    hide MantissaLen, ExponentLen, FractionLen, DigitRun, Fraction, Exponent, IsMantissa, IsInt, DoubleLen;
    var i := SignLen(s);
    var j, m := i + DigitRun(s[i..]), MantissaLen(s);
    BadFraction(s[j..]);
    BadExponent(s[m..]);
    DoubleSteps(s);
    if Fraction(s[j..]).Bad? {
      DotDangles(s, n);
    }
    if Exponent(s[m..]).Bad? {
      MantissaText(s);
    }
    if n < |s| && s[n] == '.' && IsInt(s[..n]) {
      IntPrefix(s, s[..n]);
      DotAfterInt(s, n);
    }
    if n < |s| && (s[n] == 'e' || s[n] == 'E') && IsMantissa(s[..n]) {
      MantissaPrefix(s, s[..n]);
    }
  }

  lemma DotDangles(s: string, n: nat)
    requires n == DoubleBest(s) && n > 0 && Fraction(s[SignLen(s) + DigitRun(s[SignLen(s)..])..]).Bad?
    ensures n == SignLen(s) + DigitRun(s[SignLen(s)..]) && n < |s| && s[n] == '.' && IsInt(s[..n])
  {
    hide DigitRun, Fraction, IsInt;
    var i := SignLen(s);
    var j := i + DigitRun(s[i..]);
    BadFraction(s[j..]);
    NoExponent(s[j..]);
    IntLongest(s);
  }

  lemma DotAfterInt(s: string, n: nat)
    requires n == DoubleBest(s) && n < |s| && s[n] == '.' && SignLen(s) < n <= SignLen(s) + DigitRun(s[SignLen(s)..])
    ensures Fraction(s[SignLen(s) + DigitRun(s[SignLen(s)..])..]).Bad?
  {
    hide DigitRun, Fraction;
    var i := SignLen(s);
    var j := i + DigitRun(s[i..]);
    assert forall k :: i <= k < j ==> IsDigit(s[k]) by {
      forall k | i <= k < j ensures IsDigit(s[k]) {
        assert s[k] == s[i..][k - i];
      }
    }
    BadFraction(s[j..]);
  }

  /** Where no double constant starts DoubleLen is 0. */
  lemma NoDouble(s: string)
    requires forall k :: 0 <= k <= |s| ==> !IsDouble(s[..k])
    ensures DoubleLen(s) == 0
  {
    hide MantissaLen, ExponentLen, FractionLen, DigitRun, Fraction, Exponent, IsDouble, DoubleLen;
    DoubleSteps(s);
    if DoubleBest(s) > 0 {
      DoubleText(s);
    }
  }

  /** "1e" starts with the double constant "1", and the scan finds none. */
  lemma DanglingExponent()
    ensures LongestDouble("1e", 1) && DoubleLen("1e") == 0
  {
    hide IsDouble, IsMantissa;
    var s := "1e";
    assert s[..1] == "" + "1" && s[..2] == s;
    assert IsInt(s[..1]);
    IntMantissa(s[..1]);
    if IsDouble(s[..2]) {
      DoublePrefix(s, s[..2]);
      OneAndE();
    }
    DoubleExactly(s, 1);
  }

  lemma OneAndE()
    ensures DoubleBest("1e") == 1
  {
    var s := "1e";
    assert s[0..] == s && s[1..] == "e" && s[1..][1..] == "";
    assert DigitRun("e") == 0 && DigitRun(s) == 1;
    assert MantissaLen(s) == 1;
    assert DigitRun("") == 0;
  }
}
