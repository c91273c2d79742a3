/** Python's `int(x)` on a decoded value, as `expand` applies it to the
    line number the editor sends (src/debug_session.py:167). */
module PyInt {
  import opened Values

  predicate IsDigit(c: char) {
    '0' <= c <= '9'
  }

  predicate AllDigits(s: string) {
    forall i :: 0 <= i < |s| ==> IsDigit(s[i])
  }

  /** The characters below 128 that Python counts as whitespace, which
      `int()` strips from both ends of a string: tab to carriage return,
      the four separators 0x1C to 0x1F, and space. */
  predicate IsSpace(c: char) {
    c == ' ' || '\t' <= c <= '\r' || '\U{1C}' <= c <= '\U{1F}'
  }

  function TrimLeft(s: string): string
    decreases |s|
  {
    if s != [] && IsSpace(s[0]) then TrimLeft(s[1..]) else s
  }

  function TrimRight(s: string): string
    decreases |s|
  {
    if s != [] && IsSpace(s[|s| - 1]) then TrimRight(s[..|s| - 1]) else s
  }

  /** The value of a string of decimal digits, most significant first. */
  function DigitsValue(s: string): nat
    requires AllDigits(s)
    decreases |s|
  {
    if s == [] then 0
    else 10 * DigitsValue(s[..|s| - 1]) + (s[|s| - 1] as int - '0' as int)
  }

  /** An optional sign followed by at least one decimal digit. */
  function ParseDecimal(s: string): Option<int> {
    if s != [] && (s[0] == '-' || s[0] == '+') then
      var digits := s[1..];
      if digits != [] && AllDigits(digits) then
        var n: int := DigitsValue(digits);
        Some(if s[0] == '-' then -n else n)
      else None
    else if s != [] && AllDigits(s) then Some(DigitsValue(s))
    else None
  }

  /** `int(v)`: integers pass, booleans become 0 or 1, strings are parsed
      after stripping surrounding whitespace (a malformed one raises
      `ValueError`), and `None`, lists and dicts raise `TypeError`. */
  function ToInt(v: Value): (r: Result<int, Exc>)
    ensures v.Int? ==> r == Ok(v.i)
    ensures r.Err? ==> (r.error == ValueError <==> v.Str?)
    ensures v.Null? || v.List? || v.Dict? ==> r == Err(TypeError)
  {
    match v
    case Int(i) => Ok(i)
    case Bool(b) => Ok(if b then 1 else 0)
    case Str(s) =>
      (match ParseDecimal(TrimRight(TrimLeft(s)))
       case Some(n) => Ok(n)
       case None => Err(ValueError))
    case _ => Err(TypeError)
  }

  function Digit(d: nat): (c: char)
    requires d < 10
    ensures IsDigit(c) && c as int - '0' as int == d
  {
    ['0', '1', '2', '3', '4', '5', '6', '7', '8', '9'][d]
  }

  /** Decimal rendering, the inverse of `ToInt` on strings. */
  function NatToString(n: nat): (r: string)
    ensures r != [] && AllDigits(r)
    decreases n
  {
    if n < 10 then [Digit(n)] else NatToString(n / 10) + [Digit(n % 10)]
  }

  function IntToString(i: int): string {
    if i < 0 then "-" + NatToString(-i) else NatToString(i)
  }

  lemma {:induction false} DigitsRoundTrip(n: nat)
    ensures DigitsValue(NatToString(n)) == n
    decreases n
  {
    if n >= 10 {
      DigitsRoundTrip(n / 10);
      var s := NatToString(n);
      assert s[..|s| - 1] == NatToString(n / 10);
    }
  }

  /** A rendered integer reads back as itself. */
  lemma ToIntRoundTrip(i: int)
    ensures ToInt(Str(IntToString(i))) == Ok(i)
  {
    var s := IntToString(i);
    var d := NatToString(if i < 0 then -i else i);
    DigitsRoundTrip(if i < 0 then -i else i);
    assert !IsSpace(s[0]) && !IsSpace(s[|s| - 1]);
    assert TrimLeft(s) == s;
    assert TrimRight(s) == s;
    if i < 0 {
      assert s[1..] == d;
    } else {
      assert s == d;
      assert s[0] != '-' && s[0] != '+';
    }
  }

  /** Whitespace around the number is ignored; other text is not a number. */
  lemma ToIntExamples()
    ensures ToInt(Str(" 42\n")) == Ok(42)
    ensures ToInt(Str("4x")) == Err(ValueError)
    ensures ToInt(Str("")) == Err(ValueError)
    ensures ToInt(Bool(true)) == Ok(1)
  {
    assert TrimLeft(" 42\n") == TrimLeft("42\n");
    assert "42\n"[..2] == "42";
    assert TrimRight("42\n") == TrimRight("42");
    assert "42"[..1] == "4";
    assert DigitsValue("42") == 10 * DigitsValue("4") + 2;
    assert DigitsValue("4") == 10 * DigitsValue("") + 4;
    assert !IsDigit("4x"[1]);
  }
}
