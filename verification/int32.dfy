/** 32-bit signed integers as C# handles them: `int.Parse` with the default
    `NumberStyles.Integer`, and unchecked wrap-around arithmetic. */
module Int32 {
  import opened Results

  const MinValue: int := -0x8000_0000
  const MaxValue: int := 0x7FFF_FFFF
  const Modulus: int := 0x1_0000_0000

  predicate InRange(x: int) {
    MinValue <= x <= MaxValue
  }

  /** Unchecked `int` arithmetic: the exact result reduced modulo 2^32 into range. */
  function Wrap(x: int): (r: int)
    ensures InRange(r)
    ensures (r - x) % Modulus == 0
    ensures InRange(x) ==> r == x
  {
    (x - MinValue) % Modulus + MinValue
  }

  predicate IsDigit(c: char) {
    '0' <= c <= '9'
  }

  predicate AllDigits(s: string) {
    forall i :: 0 <= i < |s| ==> IsDigit(s[i])
  }

  function DigitValue(c: char): nat
    requires IsDigit(c)
  {
    (c as int) - ('0' as int)
  }

  function DigitChar(d: nat): (c: char)
    requires d < 10
    ensures IsDigit(c) && DigitValue(c) == d
  {
    (('0' as int) + d) as char
  }

  /** A digit string contains no other character. */
  lemma DigitsExclude(s: string, c: char)
    requires AllDigits(s) && !IsDigit(c)
    ensures c !in s
  {
  }

  /** The value of a string of decimal digits, most significant first. */
  function DigitsValue(s: string): nat
    requires AllDigits(s)
    decreases |s|
  {
    if |s| == 0 then 0 else DigitsValue(s[..|s| - 1]) * 10 + DigitValue(s[|s| - 1])
  }

  /** The shortest decimal spelling of `n`. */
  function Decimal(n: nat): (s: string)
    ensures |s| >= 1 && AllDigits(s)
    decreases n
  {
    if n < 10 then [DigitChar(n)] else Decimal(n / 10) + [DigitChar(n % 10)]
  }

  /** Reading a decimal spelling gives back the number. */
  lemma {:induction false} DecimalValue(n: nat)
    ensures DigitsValue(Decimal(n)) == n
    decreases n
  {
    if n >= 10 {
      var s := Decimal(n);
      DecimalValue(n / 10);
      assert s[..|s| - 1] == Decimal(n / 10);
    }
  }

  /** The white space `NumberStyles.AllowLeadingWhite`/`AllowTrailingWhite` skip. */
  predicate IsNumberWhite(c: char) {
    c == ' ' || ('\t' <= c <= '\r')
  }

  function TrimStart(s: string): (r: string)
    ensures |r| <= |s|
    decreases |s|
  {
    if |s| > 0 && IsNumberWhite(s[0]) then TrimStart(s[1..]) else s
  }

  function TrimEnd(s: string): (r: string)
    ensures |r| <= |s|
    decreases |s|
  {
    if |s| > 0 && IsNumberWhite(s[|s| - 1]) then TrimEnd(s[..|s| - 1]) else s
  }

  datatype ParseError = FormatError | OverflowError

  /** The characters `int.Parse` accepts as a sign. */
  predicate IsSign(c: char) {
    c == '-' || c == '+'
  }

  /** The shape `NumberStyles.Integer` accepts once white space is trimmed:
      an optional sign followed by at least one digit. */
  predicate WellFormed(t: string) {
    if |t| > 0 && IsSign(t[0]) then |t| >= 2 && AllDigits(t[1..]) else |t| >= 1 && AllDigits(t)
  }

  /** `int.Parse(s)`: optional surrounding white space, an optional sign and
      one or more ASCII digits; `FormatError` otherwise, and `OverflowError`
      when the value does not fit in 32 bits. */
  function Parse(s: string): (r: Result<int, ParseError>)
    ensures r.Ok? ==> InRange(r.value)
    ensures r == Err(FormatError) <==> !WellFormed(TrimEnd(TrimStart(s)))
  {
    ParseTrimmed(TrimEnd(TrimStart(s)))
  }

  /** `int.Parse` once the surrounding white space is gone. */
  function ParseTrimmed(t: string): (r: Result<int, ParseError>)
    ensures r.Ok? ==> InRange(r.value)
    ensures r == Err(FormatError) <==> !WellFormed(t)
  {
    if |t| == 0 then Err(FormatError)
    else
      var signed := t[0] == '-' || t[0] == '+';
      var digits := if signed then t[1..] else t;
      if |digits| == 0 || !AllDigits(digits) then Err(FormatError)
      else
        var magnitude := DigitsValue(digits);
        var value: int := if t[0] == '-' then 0 - (magnitude as int) else magnitude;
        if InRange(value) then Ok(value) else Err(OverflowError)
  }

  /** A string that neither starts nor ends with white space is not trimmed. */
  lemma NothingToTrim(s: string)
    requires |s| > 0 && !IsNumberWhite(s[0]) && !IsNumberWhite(s[|s| - 1])
    ensures Parse(s) == ParseTrimmed(s)
  {
    assert TrimStart(s) == s;
    assert TrimEnd(s) == s;
  }

  /** A decimal spelling within range parses to its value; outside the
      range it overflows. */
  lemma ParseDecimal(n: nat)
    ensures n <= MaxValue ==> Parse(Decimal(n)) == Ok(n)
    ensures n > MaxValue ==> Parse(Decimal(n)) == Err(OverflowError)
  {
    var s := Decimal(n);
    NothingToTrim(s);
    DecimalValue(n);
  }

  /** A minus sign followed by digits parses to the negated digits when that
      fits. */
  lemma ParseMinus(t: string)
    requires |t| >= 2 && t[0] == '-' && AllDigits(t[1..])
    requires InRange(0 - DigitsValue(t[1..]))
    ensures ParseTrimmed(t) == Ok(0 - DigitsValue(t[1..]))
  {
  }

  /** A minus sign negates, down to `int.MinValue`. */
  lemma ParseNegativeDecimal(n: nat)
    requires n <= -MinValue
    ensures Parse("-" + Decimal(n)) == Ok(-(n as int))
  {
    var d := Decimal(n);
    var s := "-" + d;
    assert s[1..] == d && s[|s| - 1] == d[|d| - 1];
    NothingToTrim(s);
    DecimalValue(n);
    ParseMinus(s);
  }

  /** Trimming leading white space keeps every other character. */
  lemma {:induction false} TrimStartKeeps(s: string, i: nat)
    requires i < |s| && !IsNumberWhite(s[i])
    ensures s[i] in TrimStart(s)
    decreases |s|
  {
    if IsNumberWhite(s[0]) {
      assert s[1..][i - 1] == s[i];
      TrimStartKeeps(s[1..], i - 1);
    }
  }

  /** Trimming trailing white space keeps every other character. */
  lemma {:induction false} TrimEndKeeps(s: string, i: nat)
    requires i < |s| && !IsNumberWhite(s[i])
    ensures s[i] in TrimEnd(s)
    decreases |s|
  {
    if IsNumberWhite(s[|s| - 1]) {
      assert s[..|s| - 1][i] == s[i];
      TrimEndKeeps(s[..|s| - 1], i);
    }
  }

  /** A string of white space trims to nothing. */
  lemma {:induction false} TrimStartBlank(s: string)
    requires forall i :: 0 <= i < |s| ==> IsNumberWhite(s[i])
    ensures TrimStart(s) == ""
    decreases |s|
  {
    if |s| > 0 {
      TrimStartBlank(s[1..]);
    }
  }

  /** A character that is neither a digit, a sign nor white space anywhere
      in the text makes it a format error, as in "1.5", "1/2" or "abc". */
  lemma ParseRejectsForeign(s: string, i: nat)
    requires i < |s| && !IsDigit(s[i]) && !IsNumberWhite(s[i]) && !IsSign(s[i])
    ensures Parse(s) == Err(FormatError)
  {
    TrimStartKeeps(s, i);
    var u := TrimStart(s);
    var j :| 0 <= j < |u| && u[j] == s[i];
    TrimEndKeeps(u, j);
    var t := TrimEnd(u);
    var k :| 0 <= k < |t| && t[k] == s[i];
    if |t| > 0 && IsSign(t[0]) {
      assert t[1..][k - 1] == t[k];
    }
  }

  /** Empty or all-white text is a format error. */
  lemma ParseBlank(s: string)
    requires forall i :: 0 <= i < |s| ==> IsNumberWhite(s[i])
    ensures Parse(s) == Err(FormatError)
  {
    TrimStartBlank(s);
  }

  /** A sign with no digits after it is a format error. */
  lemma ParseSignAlone(c: char)
    requires IsSign(c)
    ensures Parse([c]) == Err(FormatError)
  {
    NothingToTrim([c]);
  }

  /** Text that is not an integer throws `FormatException`. */
  lemma ParseRejectsExamples()
    ensures Parse("") == Err(FormatError) && Parse("   ") == Err(FormatError)
    ensures Parse("+") == Err(FormatError) && Parse("-") == Err(FormatError)
    ensures Parse("1.5") == Err(FormatError) && Parse("1/2") == Err(FormatError)
    ensures Parse("abc") == Err(FormatError)
  {
    ParseBlank("");
    ParseBlank("   ");
    ParseSignAlone('+');
    ParseSignAlone('-');
    ParseRejectsForeign("1.5", 1);
    ParseRejectsForeign("1/2", 1);
    ParseRejectsForeign("abc", 0);
  }
}
