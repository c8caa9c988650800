/**
 * The JavaScript string and number built-ins that the order wizard relies on:
 * `parseFloat`, `parseInt`, `Number`, `String(n)`, `padStart`, `split`, `trim`,
 * `toLowerCase` and the `\s` character class. Numbers are modelled as exact
 * integers and reals; a failed parse (`NaN`) is `None`.
 */
module JsText {
  import opened Wrappers

  /** The characters of ECMA-262 WhiteSpace and LineTerminator: what `\s` matches
      and what `trim`, `parseFloat` and `parseInt` skip. */
  predicate IsSpace(c: char)
  {
    || c == '\t' || c == '\n' || c == '\U{B}' || c == '\U{C}' || c == '\r' || c == ' '
    || c == '\U{A0}' || c == '\U{1680}' || ('\U{2000}' <= c <= '\U{200A}')
    || c == '\U{2028}' || c == '\U{2029}' || c == '\U{202F}' || c == '\U{205F}'
    || c == '\U{3000}' || c == '\U{FEFF}'
  }

  predicate NoSpace(s: string)
  {
    forall i :: 0 <= i < |s| ==> !IsSpace(s[i])
  }

  predicate IsDigit(c: char)
  {
    '0' <= c <= '9'
  }

  predicate AllDigits(s: string)
  {
    forall i :: 0 <= i < |s| ==> IsDigit(s[i])
  }

  function DigitValue(c: char): (d: nat)
    requires IsDigit(c)
    ensures d < 10
  {
    c as int - '0' as int
  }

  function DigitChar(d: nat): (c: char)
    requires d < 10
    ensures IsDigit(c) && DigitValue(c) == d
  {
    ('0' as int + d) as char
  }

  /** The value of a string of decimal digits, most significant first; "" is 0. */
  function DigitsValue(s: string): nat
    requires AllDigits(s)
  {
    if |s| == 0 then 0 else DigitsValue(s[..|s| - 1]) * 10 + DigitValue(s[|s| - 1])
  }

  /** `String(n)` for a non-negative integer: its decimal digits, no leading zero. */
  function NatToString(n: nat): (s: string)
    ensures 1 <= |s| && AllDigits(s)
    ensures DigitsValue(s) == n
    ensures s[0] == '0' ==> n == 0
  {
    if n < 10 then [DigitChar(n)]
    else
      var s := NatToString(n / 10) + [DigitChar(n % 10)];
      assert s[..|s| - 1] == NatToString(n / 10);
      s
  }

  /** `String(i)` for any integer. */
  function IntToString(i: int): (s: string)
    ensures i >= 0 ==> s == NatToString(i)
  {
    if i < 0 then "-" + NatToString(-i) else NatToString(i)
  }

  /** `s.padStart(n, fill)`: `fill` repeated in front of `s` up to length `n`. */
  function PadStart(s: string, n: nat, fill: char): (r: string)
    ensures |s| >= n ==> r == s
    ensures |s| < n ==> |r| == n && r[n - |s|..] == s
    ensures forall i :: 0 <= i < |r| - |s| ==> r[i] == fill
    decreases n - |s|
  {
    if |s| >= n then s else PadStart([fill] + s, n, fill)
  }

  /** The length of the longest prefix of `s` made of decimal digits. */
  function DigitRun(s: string): (k: nat)
    ensures k <= |s| && AllDigits(s[..k])
    ensures k < |s| ==> !IsDigit(s[k])
  {
    if |s| == 0 || !IsDigit(s[0]) then 0
    else
      var k := 1 + DigitRun(s[1..]);
      assert s[..k] == [s[0]] + s[1..][..k - 1];
      k
  }

  /** `s` with its leading white space removed (`trimStart`). */
  function TrimStart(s: string): (r: string)
    ensures |r| <= |s|
  {
    if |s| > 0 && IsSpace(s[0]) then TrimStart(s[1..]) else s
  }

  /** `s` with its trailing white space removed (`trimEnd`). */
  function TrimEnd(s: string): (r: string)
    ensures |r| <= |s|
  {
    if |s| > 0 && IsSpace(s[|s| - 1]) then TrimEnd(s[..|s| - 1]) else s
  }

  /** `trimStart` removes exactly the leading white space: what remains is a
      suffix that does not start with white space, and all that went is white space. */
  lemma {:induction false} TrimStartShape(s: string)
    ensures var r := TrimStart(s);
      && r == s[|s| - |r|..]
      && (forall i :: 0 <= i < |s| - |r| ==> IsSpace(s[i]))
      && (|r| > 0 ==> !IsSpace(r[0]))
  {
    if |s| > 0 && IsSpace(s[0]) {
      TrimStartShape(s[1..]);
      var r := TrimStart(s);
      forall i | 0 <= i < |s| - |r| ensures IsSpace(s[i]) {
        if i > 0 { assert s[i] == s[1..][i - 1]; }
      }
    }
  }

  /** `trimEnd` removes exactly the trailing white space. */
  lemma {:induction false} TrimEndShape(s: string)
    ensures var r := TrimEnd(s);
      && r == s[..|r|]
      && (forall i :: |r| <= i < |s| ==> IsSpace(s[i]))
      && (|r| > 0 ==> !IsSpace(r[|r| - 1]))
  {
    if |s| > 0 && IsSpace(s[|s| - 1]) {
      var p := s[..|s| - 1];
      TrimEndShape(p);
      var r := TrimEnd(s);
      assert r == TrimEnd(p);
      forall i | |r| <= i < |s| ensures IsSpace(s[i]) {
        if i < |s| - 1 { assert s[i] == p[i]; }
      }
    }
  }

  /** `s.trim()`. */
  function Trim(s: string): string
  {
    TrimEnd(TrimStart(s))
  }

  /** A leading sign, split off the way the number parsers read it. */
  datatype Signed = Signed(negative: bool, body: string)

  function SplitSign(s: string): (r: Signed)
    ensures r.body == s || (|s| > 0 && (s[0] == '-' || s[0] == '+') && r.body == s[1..])
    ensures r.negative <==> |s| > 0 && s[0] == '-'
  {
    if |s| > 0 && s[0] == '-' then Signed(true, s[1..])
    else if |s| > 0 && s[0] == '+' then Signed(false, s[1..])
    else Signed(false, s)
  }

  /** The value of the digits after a decimal point: "25" is 0.25. */
  function FractionValue(s: string): (r: real)
    requires AllDigits(s)
    ensures 0.0 <= r < 1.0
  {
    if |s| == 0 then 0.0 else (DigitValue(s[0]) as real + FractionValue(s[1..])) / 10.0
  }

  /** The digits that follow a '.' at the head of `rest`, or "" if there is no '.'. */
  function FractionDigits(rest: string): (f: string)
    ensures AllDigits(f)
  {
    if |rest| > 0 && rest[0] == '.' then rest[1..][..DigitRun(rest[1..])] else ""
  }

  /** The number at the head of a string with no sign: digits [ '.' digits ],
      at least one digit in all; `None` when there is none. */
  function UnsignedDecimal(body: string): (r: Option<real>)
    ensures r.Some? ==> r.value >= 0.0
  {
    var k := DigitRun(body);
    var frac := FractionDigits(body[k..]);
    if k == 0 && |frac| == 0 then None
    else Some(DigitsValue(body[..k]) as real + FractionValue(frac))
  }

  /** `parseFloat(s)`: leading white space, an optional sign, then the longest
      prefix of the form digits [ '.' digits ] with at least one digit; `None` is NaN. */
  function ParseFloat(s: string): (r: Option<real>)
  {
    var t := SplitSign(TrimStart(s));
    match UnsignedDecimal(t.body)
    case None => None
    case Some(m) => Some(if t.negative then -m else m)
  }

  /** `parseFloat(s) || 0`: NaN (and zero) become 0. */
  function LenientNumber(s: string): real
  {
    ParseFloat(s).GetOr(0.0)
  }

  predicate IsHexDigit(c: char)
  {
    IsDigit(c) || 'a' <= c <= 'f' || 'A' <= c <= 'F'
  }

  function HexDigitValue(c: char): (d: nat)
    requires IsHexDigit(c)
    ensures d < 16
  {
    if IsDigit(c) then DigitValue(c)
    else if 'a' <= c <= 'f' then c as int - 'a' as int + 10
    else c as int - 'A' as int + 10
  }

  predicate AllHexDigits(s: string)
  {
    forall i :: 0 <= i < |s| ==> IsHexDigit(s[i])
  }

  function HexValue(s: string): nat
    requires AllHexDigits(s)
  {
    if |s| == 0 then 0 else HexValue(s[..|s| - 1]) * 16 + HexDigitValue(s[|s| - 1])
  }

  /** The length of the longest prefix of `s` made of hexadecimal digits. */
  function HexRun(s: string): (k: nat)
    ensures k <= |s| && AllHexDigits(s[..k])
    ensures k < |s| ==> !IsHexDigit(s[k])
  {
    if |s| == 0 || !IsHexDigit(s[0]) then 0
    else
      var k := 1 + HexRun(s[1..]);
      assert s[..k] == [s[0]] + s[1..][..k - 1];
      k
  }

  predicate HasHexPrefix(s: string)
  {
    |s| >= 2 && s[0] == '0' && (s[1] == 'x' || s[1] == 'X')
  }

  /** The integer at the head of a string with no sign: "0x"/"0X" and
      hexadecimal digits, or decimal digits; `None` when there is none. */
  function UnsignedInteger(body: string): Option<nat>
  {
    if HasHexPrefix(body) then
      var k := HexRun(body[2..]);
      if k == 0 then None else Some(HexValue(body[2..][..k]))
    else
      var k := DigitRun(body);
      if k == 0 then None else Some(DigitsValue(body[..k]))
  }

  /** `parseInt(s)` with no radix: leading white space, an optional sign, then
      either "0x"/"0X" and hexadecimal digits or decimal digits; `None` is NaN. */
  function ParseInt(s: string): (r: Option<int>)
  {
    var t := SplitSign(TrimStart(s));
    match UnsignedInteger(t.body)
    case None => None
    case Some(m) => var v: int := m; Some(if t.negative then -v else v)
  }

  /** `Number(s)` for the strings the calendar produces: surrounding white space
      is ignored, an empty string is 0, a string of decimal digits is its value,
      and anything else is NaN. */
  function Number(s: string): (r: Option<nat>)
  {
    var t := Trim(s);
    if AllDigits(t) then Some(DigitsValue(t)) else None
  }

  /** `r` is `s` with some elements left out, the rest kept in their order. */
  ghost predicate IsSubsequence<T>(r: seq<T>, s: seq<T>)
    decreases |s|
  {
    if |r| == 0 then true
    else if |s| == 0 then false
    else (r[0] == s[0] && IsSubsequence(r[1..], s[1..])) || IsSubsequence(r, s[1..])
  }

  /** A prefix of an ordered selection is an ordered selection too. */
  lemma {:induction false} PrefixOfSubsequence<T>(r: seq<T>, s: seq<T>, n: nat)
    requires IsSubsequence(r, s) && n <= |r|
    ensures IsSubsequence(r[..n], s)
  {
    if n > 0 && |s| > 0 {
      if r[0] == s[0] && IsSubsequence(r[1..], s[1..]) {
        PrefixOfSubsequence(r[1..], s[1..], n - 1);
        assert r[..n][1..] == r[1..][..n - 1];
      } else {
        PrefixOfSubsequence(r, s[1..], n);
      }
    }
  }

  /** `s.filter(keep)`: the elements that satisfy `keep`, in order, each as often
      as it occurs in `s` (see `FilterInOrder` and `FilterCounts`). */
  function Filter<T>(s: seq<T>, keep: T -> bool): (r: seq<T>)
    ensures |r| <= |s|
    ensures forall k :: 0 <= k < |r| ==> keep(r[k])
    ensures forall x :: x in r ==> x in s
    ensures forall x :: x in s && keep(x) ==> x in r
  {
    if |s| == 0 then []
    else if keep(s[0]) then [s[0]] + Filter(s[1..], keep)
    else Filter(s[1..], keep)
  }

  /** The kept elements keep their order in `s`. */
  lemma {:induction false} FilterInOrder<T>(s: seq<T>, keep: T -> bool)
    ensures IsSubsequence(Filter(s, keep), s)
  {
    if |s| > 0 {
      var rest := Filter(s[1..], keep);
      FilterInOrder(s[1..], keep);
      if keep(s[0]) {
        assert ([s[0]] + rest)[1..] == rest;
      }
    }
  }

  /** Every element that passes is kept as often as it occurs in `s`, every other one never. */
  lemma {:induction false} FilterCounts<T>(s: seq<T>, keep: T -> bool)
    ensures forall x :: x in s ==> multiset(Filter(s, keep))[x] == if keep(x) then multiset(s)[x] else 0
  {
    if |s| > 0 {
      var rest := Filter(s[1..], keep);
      FilterCounts(s[1..], keep);
      assert s == [s[0]] + s[1..];
      assert multiset(s) == multiset([s[0]]) + multiset(s[1..]);
      if keep(s[0]) {
        assert multiset(Filter(s, keep)) == multiset([s[0]]) + multiset(rest);
      }
    }
  }

  /** `s.split(sep)` for a one-character separator. */
  function Split(s: string, sep: char): (parts: seq<string>)
    ensures |parts| >= 1
  {
    if |s| == 0 then [""]
    else
      var rest := Split(s[1..], sep);
      if s[0] == sep then [""] + rest else [[s[0]] + rest[0]] + rest[1..]
  }

  /** `s.startsWith(prefix)`. */
  predicate StartsWith(s: string, prefix: string)
  {
    |prefix| <= |s| && s[..|prefix|] == prefix
  }

  /** `toLowerCase` for one character: ASCII, Latin-1 and the Romanian letters
      with comma and cedilla below. */
  function LowerChar(c: char): char
  {
    if 'A' <= c <= 'Z' || ('\U{C0}' <= c <= '\U{DE}' && c != '\U{D7}') then (c as int + 32) as char
    else if c == '\U{102}' || c == '\U{15E}' || c == '\U{162}' || c == '\U{218}' || c == '\U{21A}'
    then (c as int + 1) as char
    else c
  }

  /** `s.toLowerCase()`, character by character. */
  function ToLower(s: string): (r: string)
    ensures |r| == |s|
    ensures forall i :: 0 <= i < |s| ==> r[i] == LowerChar(s[i])
  {
    seq(|s|, i requires 0 <= i < |s| => LowerChar(s[i]))
  }

  // ---------------------------------------------------------------------------
  // Properties of the parsers

  lemma {:induction false} DigitsValueAppend(a: string, c: char)
    requires AllDigits(a) && IsDigit(c)
    ensures AllDigits(a + [c]) && DigitsValue(a + [c]) == DigitsValue(a) * 10 + DigitValue(c)
  {
    assert (a + [c])[..|a|] == a;
  }

  /** The digit run of a digit string followed by a non-digit is that string. */
  lemma {:induction false} DigitRunOfDigits(s: string, rest: string)
    requires AllDigits(s)
    requires |rest| == 0 || !IsDigit(rest[0])
    ensures DigitRun(s + rest) == |s| && (s + rest)[..|s|] == s
  {
    if |s| > 0 {
      assert (s + rest)[1..] == s[1..] + rest;
      DigitRunOfDigits(s[1..], rest);
    }
  }

  /** A string with no leading white space or sign is its own body. */
  lemma UnsignedBody(s: string)
    requires |s| > 0 && IsDigit(s[0])
    ensures TrimStart(s) == s && SplitSign(s) == Signed(false, s)
  {
    DigitIsNotSpace(s[0]);
  }

  /** Decimal digits followed by text that cannot continue the number read as
      those digits' value. */
  lemma UnsignedDecimalOfDigits(d: string, rest: string)
    requires |d| > 0 && AllDigits(d)
    requires |rest| == 0 || (!IsDigit(rest[0]) && rest[0] != '.')
    ensures UnsignedDecimal(d + rest) == Some(DigitsValue(d) as real)
  {
    var s := d + rest;
    DigitRunOfDigits(d, rest);
    var k := DigitRun(s);
    assert k == |d| && s[..k] == d && s[k..] == rest;
    var frac := FractionDigits(s[k..]);
    assert frac == "";
    var u := UnsignedDecimal(s);
    assert u.Some? && u.value == DigitsValue(s[..k]) as real + FractionValue(frac);
    assert FractionValue(frac) == 0.0;
    assert u.value == DigitsValue(d) as real;
  }

  /** `parseFloat(String(n)) == n`. */
  lemma ParseFloatOfNatString(n: nat)
    ensures ParseFloat(NatToString(n)) == Some(n as real)
    ensures LenientNumber(NatToString(n)) == n as real
  {
    var s := NatToString(n);
    UnsignedBody(s);
    UnsignedDecimalOfDigits(s, "");
    assert s + "" == s;
  }

  /** A minus sign before a number negates what `parseFloat` reads. */
  lemma ParseFloatOfNegative(s: string)
    requires |s| > 0 && IsDigit(s[0])
    ensures ParseFloat(s).Some? && ParseFloat(['-'] + s) == Some(-ParseFloat(s).value)
  {
    var m := ['-'] + s;
    assert !IsSpace(m[0]);
    assert TrimStart(m) == m;
    assert SplitSign(m) == Signed(true, s) by { assert m[1..] == s; }
    UnsignedBody(s);
    UnsignedDecimalOfLeadingDigit(s);
  }

  lemma UnsignedDecimalOfLeadingDigit(s: string)
    requires |s| > 0 && IsDigit(s[0])
    ensures UnsignedDecimal(s).Some?
  {
    assert DigitRun(s) > 0;
  }

  /** An empty or white-space-only string is NaN to `parseFloat`, so 0 to `parseFloat(x) || 0`. */
  lemma ParseFloatOfBlank(s: string)
    requires forall i :: 0 <= i < |s| ==> IsSpace(s[i])
    ensures ParseFloat(s) == None && LenientNumber(s) == 0.0
  {
    TrimStartShape(s);
    assert TrimStart(s) == "";
    assert SplitSign("") == Signed(false, "");
  }

  /** A body with no decimal digit holds no number. */
  lemma UnsignedDecimalWithoutDigits(body: string)
    requires forall i :: 0 <= i < |body| ==> !IsDigit(body[i])
    ensures UnsignedDecimal(body) == None
  {
    assert DigitRun(body) == 0;
    assert body[0..] == body;
    if |body| > 0 && body[0] == '.' {
      assert DigitRun(body[1..]) == 0 by {
        if |body| > 1 { assert body[1..][0] == body[1]; }
      }
    }
    assert FractionDigits(body) == "";
  }

  /** A string with no decimal digit at all is NaN to `parseFloat`. */
  lemma ParseFloatWithoutDigits(s: string)
    requires forall i :: 0 <= i < |s| ==> !IsDigit(s[i])
    ensures ParseFloat(s) == None && LenientNumber(s) == 0.0
  {
    var u := TrimStart(s);
    TrimStartShape(s);
    forall i | 0 <= i < |u| ensures !IsDigit(u[i]) {
      assert u[i] == s[|s| - |u| + i];
    }
    var t := SplitSign(u);
    forall i | 0 <= i < |t.body| ensures !IsDigit(t.body[i]) {
      if t.body != u { assert t.body[i] == u[i + 1]; }
    }
    UnsignedDecimalWithoutDigits(t.body);
  }

  /** Decimal digits followed by text that cannot continue the number, and
      not "0x", read as those digits' value. */
  lemma UnsignedIntegerOfDigits(d: string, rest: string)
    requires |d| > 0 && AllDigits(d)
    requires |rest| == 0 || (!IsDigit(rest[0]) && rest[0] != 'x' && rest[0] != 'X')
    ensures UnsignedInteger(d + rest) == Some(DigitsValue(d))
  {
    var s := d + rest;
    assert !HasHexPrefix(s) by {
      if |s| >= 2 {
        if |d| >= 2 { assert IsDigit(s[1]); } else { assert s[1] == rest[0]; }
      }
    }
    DigitRunOfDigits(d, rest);
  }

  /** `parseInt(String(n)) == n`. */
  lemma ParseIntOfNatString(n: nat)
    ensures ParseInt(NatToString(n)) == Some(n)
  {
    ParseIntOfNatStringThen(n, "");
    assert NatToString(n) + "" == NatToString(n);
  }

  /** `parseInt` reads the leading decimal number and ignores whatever follows it,
      as long as that does not begin with a digit or, after a lone "0", an "x". */
  lemma ParseIntOfNatStringThen(n: nat, rest: string)
    requires |rest| == 0 || (!IsDigit(rest[0]) && rest[0] != 'x' && rest[0] != 'X')
    ensures ParseInt(NatToString(n) + rest) == Some(n)
  {
    var d := NatToString(n);
    UnsignedBody(d + rest);
    UnsignedIntegerOfDigits(d, rest);
  }

  /** An empty or white-space-only string is NaN to `parseInt`. */
  lemma ParseIntOfBlank(s: string)
    requires forall i :: 0 <= i < |s| ==> IsSpace(s[i])
    ensures ParseInt(s) == None
  {
    TrimStartShape(s);
    assert TrimStart(s) == "";
    assert SplitSign("") == Signed(false, "");
  }

  /** `Number(String(n)) == n`. */
  lemma NumberOfNatString(n: nat)
    ensures Number(NatToString(n)) == Some(n)
  {
    var s := NatToString(n);
    DigitIsNotSpace(s[0]);
    DigitIsNotSpace(s[|s| - 1]);
    assert TrimStart(s) == s;
    assert TrimEnd(s) == s;
  }

  lemma DigitIsNotSpace(c: char)
    requires IsDigit(c)
    ensures !IsSpace(c)
  {
  }

  /** Splitting at the first separator. */
  lemma {:induction false} SplitAtSeparator(a: string, sep: char, b: string)
    requires sep !in a
    ensures Split(a + [sep] + b, sep) == [a] + Split(b, sep)
  {
    if |a| > 0 {
      assert (a + [sep] + b)[1..] == a[1..] + [sep] + b;
      SplitAtSeparator(a[1..], sep, b);
      assert [a[0]] + a[1..] == a;
    } else {
      assert (a + [sep] + b)[1..] == b;
    }
  }

  /** A string without the separator splits into itself. */
  lemma {:induction false} SplitWithoutSeparator(a: string, sep: char)
    requires sep !in a
    ensures Split(a, sep) == [a]
  {
    if |a| > 0 {
      SplitWithoutSeparator(a[1..], sep);
      assert [a[0]] + a[1..] == a;
    }
  }
}
