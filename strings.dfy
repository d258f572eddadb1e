// The small pieces of std::string behaviour the renderer relies on:
// find_last_of followed by substr(0, pos), decimal text of non-negative
// integers (std::to_string) and its inverse, and the stream extraction of
// an unsigned integer that yaml-cpp's unsigned conversions perform.
module Strings {
  import opened Wrappers

  /** The index of the last occurrence of `c` in `s` (std::string::find_last_of
      with one character); None plays the part of std::string::npos. */
  function LastIndexOf(s: string, c: char): (r: Option<nat>)
    ensures r.Some? ==> r.value < |s| && s[r.value] == c && c !in s[r.value + 1..]
    ensures r.None? <==> c !in s
    decreases |s|
  {
    if |s| == 0 then None
    else if s[|s| - 1] == c then Some(|s| - 1)
    else
      var r := LastIndexOf(s[..|s| - 1], c);
      assert s == s[..|s| - 1] + [s[|s| - 1]];
      r
  }

  /** `s.substr(0, s.find_last_of(c))`: everything before the last `c`, or
      the whole string when there is none (substr clamps npos). */
  function BeforeLast(s: string, c: char): string
  {
    match LastIndexOf(s, c)
    case None => s
    case Some(i) => s[..i]
  }

  /** BeforeLast cuts exactly one `c` and a tail free of `c`, or nothing. */
  lemma BeforeLastSplits(s: string, c: char)
    ensures c in s ==> exists tail :: s == BeforeLast(s, c) + [c] + tail && c !in tail
    ensures c !in s ==> BeforeLast(s, c) == s
  {
    if c in s {
      var i := LastIndexOf(s, c).value;
      assert s == s[..i] + [c] + s[i + 1..];
    }
  }

  function DigitChar(d: nat): (ch: char)
    requires d < 10
    ensures '0' <= ch <= '9'
  {
    ['0', '1', '2', '3', '4', '5', '6', '7', '8', '9'][d]
  }

  function DigitValue(ch: char): nat
    requires '0' <= ch <= '9'
  {
    (ch as int - '0' as int) as nat
  }

  predicate IsDigits(s: string)
  {
    |s| > 0 && forall i :: 0 <= i < |s| ==> '0' <= s[i] <= '9'
  }

  /** Decimal text of `n`, as std::to_string writes a non-negative integer. */
  function NatToString(n: nat): (s: string)
    ensures IsDigits(s)
    decreases n
  {
    if n < 10 then [DigitChar(n)] else NatToString(n / 10) + [DigitChar(n % 10)]
  }

  /** The value of a non-empty run of decimal digits. */
  function DigitsValue(s: string): nat
    requires IsDigits(s)
    decreases |s|
  {
    if |s| == 1 then DigitValue(s[0])
    else
      assert IsDigits(s[..|s| - 1]);
      DigitsValue(s[..|s| - 1]) * 10 + DigitValue(s[|s| - 1])
  }

  /** The inverse of NatToString: a non-empty run of decimal digits and its
      value, nothing else. */
  function ParseNat(s: string): (r: Option<nat>)
    ensures r.Some? <==> IsDigits(s)
  {
    if IsDigits(s) then Some(DigitsValue(s)) else None
  }

  lemma DigitRoundTrip(d: nat)
    requires d < 10
    ensures DigitValue(DigitChar(d)) == d
  {
  }

  /** Parsing the decimal text of a number gives the number back. */
  lemma {:induction false} NatToStringRoundTrip(n: nat)
    ensures ParseNat(NatToString(n)) == Some(n)
    decreases n
  {
    DigitRoundTrip(n % 10);
    if n >= 10 {
      NatToStringRoundTrip(n / 10);
      var s := NatToString(n);
      assert s[..|s| - 1] == NatToString(n / 10);
    }
  }

  // ------------------------------------------------------------ stream extraction

  /** The characters `std::ws` skips in the classic locale. */
  predicate IsSpace(c: char)
  {
    c == ' ' || c == '\t' || c == '\n' || c == 11 as char || c == 12 as char || c == '\r'
  }

  /** `s` without its trailing white space. */
  function TrimEnd(s: string): (r: string)
    ensures r <= s && (r == [] || !IsSpace(r[|r| - 1]))
    ensures forall i | |r| <= i < |s| :: IsSpace(s[i])
    decreases |s|
  {
    if s != [] && IsSpace(s[|s| - 1]) then TrimEnd(s[..|s| - 1]) else s
  }

  /** The value of a digit character in base 8, 10 or 16, if it is one. */
  function RadixDigit(c: char, radix: nat): (r: Option<nat>)
    ensures r.Some? ==> r.value < radix
  {
    if '0' <= c <= '9' && (c as int - '0' as int) < radix then Some((c as int - '0' as int) as nat)
    else if radix == 16 && 'a' <= c <= 'f' then Some((c as int - 'a' as int + 10) as nat)
    else if radix == 16 && 'A' <= c <= 'F' then Some((c as int - 'A' as int + 10) as nat)
    else None
  }

  /** The value of a non-empty run of digits in `radix`, if every character
      is one. */
  function RadixValue(s: string, radix: nat): (r: Option<nat>)
    ensures r.Some? ==> s != []
    decreases |s|
  {
    if s == [] then None
    else
      var last := RadixDigit(s[|s| - 1], radix);
      if last.None? then None
      else if |s| == 1 then last
      else
        match RadixValue(s[..|s| - 1], radix)
        case None => None
        case Some(v) => Some(v * radix + last.value)
  }

  /** The digits after an optional '+': `0x` or `0X` and hexadecimal digits,
      else a leading `0` and octal digits, else decimal digits. */
  function PrefixedValue(body: string): (r: Option<nat>)
  {
    if |body| >= 2 && body[0] == '0' && (body[1] == 'x' || body[1] == 'X') then RadixValue(body[2..], 16)
    else if |body| >= 1 && body[0] == '0' then RadixValue(body, 8)
    else RadixValue(body, 10)
  }

  /** `stream >> std::noskipws >> v` with the base left to the prefix, for an
      unsigned `v`, succeeding only when nothing but white space follows: a
      leading '-' is refused before extraction, a leading '+' is accepted,
      leading white space is not skipped. The bound on the value is the
      caller's. */
  function StreamUnsigned(s: string): (r: Option<nat>)
    ensures s != [] && (s[0] == '-' || IsSpace(s[0])) ==> r.None?
  {
    var t := TrimEnd(s);
    if t == [] || t[0] == '-' || IsSpace(t[0]) then None
    else if t[0] == '+' then PrefixedValue(t[1..])
    else PrefixedValue(t)
  }

  /** Decimal digits are read in base 10 by RadixValue. */
  lemma {:induction false} DecimalRadixValue(s: string)
    requires IsDigits(s)
    ensures RadixValue(s, 10) == Some(DigitsValue(s))
    decreases |s|
  {
    if |s| > 1 {
      assert IsDigits(s[..|s| - 1]);
      DecimalRadixValue(s[..|s| - 1]);
    }
  }

  /** Decimal digits without a leading zero, or the single digit 0, are
      extracted as their decimal value. */
  lemma StreamUnsignedDecimal(s: string)
    requires IsDigits(s) && (s[0] != '0' || s == "0")
    ensures StreamUnsigned(s) == Some(DigitsValue(s))
  {
    assert TrimEnd(s) == s;
    DecimalRadixValue(s);
    if s == "0" {
      assert RadixValue(s, 8) == Some(0);
    }
  }

  /** std::to_string never writes a leading zero. */
  lemma {:induction false} NatToStringLead(n: nat)
    ensures NatToString(n)[0] != '0' || n == 0
    decreases n
  {
    if n >= 10 {
      NatToStringLead(n / 10);
      assert NatToString(n)[0] == NatToString(n / 10)[0];
    } else {
      DigitRoundTrip(n);
    }
  }

  /** The stream reads back what std::to_string writes. */
  lemma NatToStringExtracts(n: nat)
    ensures StreamUnsigned(NatToString(n)) == Some(n)
  {
    NatToStringLead(n);
    NatToStringRoundTrip(n);
    if n == 0 {
      assert NatToString(0) == "0";
    }
    StreamUnsignedDecimal(NatToString(n));
  }

  /** The base prefix decides the radix: hexadecimal after 0x, octal after
      a leading 0, where 8 is not a digit, and 0x alone is no number. */
  lemma StreamUnsignedRadix()
    ensures StreamUnsigned("0x1F") == Some(31)
    ensures StreamUnsigned("017") == Some(15)
    ensures StreamUnsigned("08") == None
    ensures StreamUnsigned("0x") == None
  {
    assert "0x1F"[2..] == "1F" && "1F"[..1] == "1";
    assert "017"[..2] == "01" && "01"[..1] == "0";
  }

  /** A '+' sign is accepted and trailing white space ignored; a '-' sign
      and leading white space are refused. */
  lemma StreamUnsignedSigns()
    ensures StreamUnsigned("+42") == Some(42)
    ensures StreamUnsigned("42 ") == Some(42)
    ensures StreamUnsigned(" 42") == None
    ensures StreamUnsigned("-1") == None
  {
    assert TrimEnd("42 ") == "42";
    assert "+42"[1..] == "42" && "42"[..1] == "4";
  }
}
