/** std::stoi(token) with its default base 10, as the face-index conversion uses it:
    strtol's grammar (leading white space, an optional sign, the longest run of
    decimal digits, anything after that ignored) followed by std::stoi's two
    exceptions. */
module DecimalInt {
  import opened Wrappers

  const IntMin: int := -0x8000_0000
  const IntMax: int := 0x7fff_ffff

  /** The exceptions std::stoi throws. */
  datatype StoiError =
    | InvalidArgument  // no digits where a number must start
    | OutOfRange       // the number does not fit a 32-bit int

  /** isspace in the "C" locale. */
  predicate IsSpace(c: char)
  {
    c == ' ' || c == '\t' || c == '\n' || c == '\U{B}' || c == '\U{C}' || c == '\r'
  }

  predicate IsDigit(c: char)
  {
    '0' <= c <= '9'
  }

  function DigitValue(c: char): nat
    requires IsDigit(c)
  {
    c as int - '0' as int
  }

  function DigitChar(d: nat): char
    requires d < 10
  {
    ('0' as int + d) as char
  }

  /** `s` without its leading white space. */
  function SkipSpace(s: string): (r: string)
    ensures |r| <= |s|
    ensures r == [] || !IsSpace(r[0])
  {
    if s != [] && IsSpace(s[0]) then SkipSpace(s[1..]) else s
  }

  /** The longest prefix of `s` made of decimal digits. */
  function DigitPrefix(s: string): (r: string)
    ensures |r| <= |s| && r == s[..|r|]
    ensures forall k :: 0 <= k < |r| ==> IsDigit(r[k])
    ensures |r| == |s| || !IsDigit(s[|r|])
  {
    if s != [] && IsDigit(s[0]) then [s[0]] + DigitPrefix(s[1..]) else []
  }

  /** The value of a string of decimal digits, most significant first. */
  function DigitsValue(ds: string): nat
    requires forall k :: 0 <= k < |ds| ==> IsDigit(ds[k])
  {
    if ds == [] then 0 else 10 * DigitsValue(ds[..|ds| - 1]) + DigitValue(ds[|ds| - 1])
  }

  /** std::stoi(t): the leading decimal integer of `t`, or the exception it throws. */
  function Stoi(t: string): (r: Result<int, StoiError>)
    ensures r.Success? ==> IntMin <= r.value <= IntMax
  {
    var s := SkipSpace(t);
    var negative := s != [] && s[0] == '-';
    var unsigned := if s != [] && (s[0] == '-' || s[0] == '+') then s[1..] else s;
    var ds := DigitPrefix(unsigned);
    if ds == [] then Failure(InvalidArgument)
    else
      var v: int := if negative then -(DigitsValue(ds) as int) else DigitsValue(ds);
      if IntMin <= v <= IntMax then Success(v) else Failure(OutOfRange)
  }

  /** The shortest decimal numeral of a natural number. */
  function NatDigits(n: nat): (ds: string)
    ensures ds != []
    ensures forall k :: 0 <= k < |ds| ==> IsDigit(ds[k])
  {
    if n < 10 then [DigitChar(n)] else NatDigits(n / 10) + [DigitChar(n % 10)]
  }

  /** The numeral of an integer as printf("%d") writes it. */
  function DecimalText(n: int): string
  {
    if n < 0 then "-" + NatDigits(-n) else NatDigits(n)
  }

  lemma {:induction false} DigitsValueOfNatDigits(n: nat)
    ensures DigitsValue(NatDigits(n)) == n
  {
    var ds := NatDigits(n);
    if n >= 10 {
      DigitsValueOfNatDigits(n / 10);
      assert ds[..|ds| - 1] == NatDigits(n / 10);
    }
  }

  /** DigitPrefix stops exactly where the digits end. */
  lemma {:induction false} DigitPrefixOfDigits(ds: string, rest: string)
    requires forall k :: 0 <= k < |ds| ==> IsDigit(ds[k])
    requires rest == [] || !IsDigit(rest[0])
    ensures DigitPrefix(ds + rest) == ds
  {
    if ds != [] {
      DigitPrefixOfDigits(ds[1..], rest);
      assert (ds + rest)[1..] == ds[1..] + rest;
    }
  }

  /** std::stoi on a numeral with an optional minus sign, followed by non-digit text. */
  lemma {:induction false} StoiOfNumeral(negative: bool, ds: string, rest: string)
    requires ds != [] && forall k :: 0 <= k < |ds| ==> IsDigit(ds[k])
    requires rest == [] || !IsDigit(rest[0])
    ensures var v: int := if negative then -(DigitsValue(ds) as int) else DigitsValue(ds);
      Stoi((if negative then "-" else "") + ds + rest) ==
        if IntMin <= v <= IntMax then Success(v) else Failure(OutOfRange)
  {
    DigitPrefixOfDigits(ds, rest);
    var unsigned := ds + rest;
    if negative {
      assert "-" + ds + rest == "-" + unsigned;
      StoiOfNegative(unsigned);
    } else {
      assert "" + ds + rest == unsigned;
      StoiOfUnsigned(unsigned);
    }
  }

  /** A digit first: the value of the digits that lead. */
  lemma StoiOfUnsigned(unsigned: string)
    requires unsigned != [] && IsDigit(unsigned[0])
    ensures var v: int := DigitsValue(DigitPrefix(unsigned));
      Stoi(unsigned) == if v <= IntMax then Success(v) else Failure(OutOfRange)
  {
    assert !IsSpace(unsigned[0]) && unsigned[0] != '-' && unsigned[0] != '+';
    assert SkipSpace(unsigned) == unsigned;
    assert DigitPrefix(unsigned) != [];
  }

  /** A minus sign, then a digit: the negated value of the digits that lead. */
  lemma StoiOfNegative(unsigned: string)
    requires unsigned != [] && IsDigit(unsigned[0])
    ensures var v: int := -(DigitsValue(DigitPrefix(unsigned)) as int);
      Stoi("-" + unsigned) == if IntMin <= v then Success(v) else Failure(OutOfRange)
  {
    var s := "-" + unsigned;
    assert s[0] == '-' && s[1..] == unsigned;
    assert SkipSpace(s) == s;
    assert DigitPrefix(unsigned) != [];
  }

  /** Round trip: std::stoi reads back every int written in decimal, also when the
      numeral is followed by text that does not start with a digit (so a face
      token "7/2/5" converts to 7). Outside the int range it throws out_of_range. */
  lemma {:induction false} StoiOfDecimalText(n: int, rest: string)
    requires rest == [] || !IsDigit(rest[0])
    ensures IntMin <= n <= IntMax ==> Stoi(DecimalText(n) + rest) == Success(n)
    ensures !(IntMin <= n <= IntMax) ==> Stoi(DecimalText(n) + rest) == Failure(OutOfRange)
  {
    var m: nat := if n < 0 then -n else n;
    DigitsValueOfNatDigits(m);
    StoiOfNumeral(n < 0, NatDigits(m), rest);
    if n >= 0 {
      assert DecimalText(n) + rest == "" + NatDigits(m) + rest;
    }
  }

  /** std::stoi rejects a token whose first non-blank character is neither a sign nor a
      digit, and a bare sign. */
  lemma StoiNeedsDigit(t: string)
    requires var s := SkipSpace(t);
      s == [] || (!IsDigit(s[0]) && s[0] != '-' && s[0] != '+') ||
      ((s[0] == '-' || s[0] == '+') && (|s| == 1 || !IsDigit(s[1])))
    ensures Stoi(t) == Failure(InvalidArgument)
  {
  }
}
