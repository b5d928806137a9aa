/** Decimal numbers as text. */
module Numerals {
  import opened Types
  import opened Decimal

  predicate IsDigit(c: char) {
    '0' <= c <= '9'
  }

  function DigitOf(c: char): Digit
    requires IsDigit(c)
  {
    (c - '0') as int
  }

  predicate AllDigits(s: string) {
    forall i :: 0 <= i < |s| ==> IsDigit(s[i])
  }

  function DigitsOf(s: string): seq<Digit>
    requires AllDigits(s)
  {
    seq(|s|, i requires 0 <= i < |s| => DigitOf(s[i]))
  }

  function ToChar(d: Digit): char {
    '0' + d as char
  }

  function AsChars(ds: seq<Digit>): (s: string)
    ensures |s| == |ds| && AllDigits(s) && DigitsOf(s) == ds
  {
    seq(|ds|, i requires 0 <= i < |ds| => ToChar(ds[i]))
  }

  function Number(n: nat): string {
    AsChars(Digits(n))
  }

  function Signed(n: int): string {
    if n < 0 then "-" + Number(-n) else Number(n)
  }

  // Which digit a character stands for: a library may also know those of other scripts.
  type DigitReader = char -> Option<Digit>

  ghost predicate ReadsAscii(read: DigitReader) {
    forall c :: IsDigit(c) ==> read(c) == Some(DigitOf(c))
  }

  function AsciiDigit(): DigitReader {
    (c: char) => if IsDigit(c) then Some(DigitOf(c)) else None
  }

  function Magnitude(read: DigitReader, body: string): Option<nat> {
    if body == "" || exists i :: 0 <= i < |body| && read(body[i]) == None then None
    else Some(ValueOf(seq(|body|, i requires 0 <= i < |body| && read(body[i]).Some? => read(body[i]).value)))
  }

  // Digits with an optional sign.
  function ParseSigned(read: DigitReader, s: string): Option<int> {
    var signed := s != "" && (s[0] == '-' || s[0] == '+');
    match Magnitude(read, if signed then s[1..] else s)
    case None => None
    case Some(m) => Some(Negated(signed && s[0] == '-', m))
  }

  function Negated(negative: bool, m: int): int {
    if negative then -m else m
  }

  lemma MagnitudeReadBack(read: DigitReader, m: nat)
    requires ReadsAscii(read)
    ensures Magnitude(read, Number(m)) == Some(m)
    ensures Number(m) != "" && Number(m)[0] != '-' && Number(m)[0] != '+'
  {
    DigitsHaveValue(m);
    var s := Number(m);
    assert forall i :: 0 <= i < |s| ==> IsDigit(s[i]) && read(s[i]) == Some(DigitOf(s[i]));
    assert seq(|s|, i requires 0 <= i < |s| && read(s[i]).Some? => read(s[i]).value) == DigitsOf(s) == Digits(m);
    assert IsDigit(s[0]);
  }

  lemma SignDropped(read: DigitReader, body: string, m: int)
    requires body != "" && body[0] != '-' && body[0] != '+'
    requires Magnitude(read, body).Some? && Magnitude(read, body).value == m
    ensures ParseSigned(read, body) == Some(m) && ParseSigned(read, "-" + body) == Some(-m)
  {
    assert ("-" + body)[1..] == body;
  }

  lemma SignedReadBack(read: DigitReader, n: int)
    requires ReadsAscii(read)
    ensures ParseSigned(read, Signed(n)) == Some(n)
  {
    var m := if n < 0 then -n else n;
    MagnitudeReadBack(read, m);
    SignDropped(read, Number(m), m);
  }

  lemma DecimalText()
    ensures Number(0) == "0" && Number(1907) == "1907" && Signed(-42) == "-42"
  {
    assert Digits(190) == [1, 9] + [0] by { assert Digits(19) == [1] + [9]; }
    assert Digits(1907) == Digits(190) + [7];
    assert Digits(42) == [4] + [2];
    assert Number(1907) == [ToChar(1), ToChar(9), ToChar(0), ToChar(7)];
    assert Number(42) == [ToChar(4), ToChar(2)];
  }
}
