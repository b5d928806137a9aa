/**
 * The service's reader of the Redis serialization protocol (RESP): a recursive reader over
 * a buffered connection, and the proof that it inverts the protocol's encoding.
 */
module Resp {
  import opened Types
  import opened Decimal

  const LF: uint8 := 10
  const CR: uint8 := 13
  const PLUS: uint8 := 43
  const MINUS: uint8 := 45
  const COLON: uint8 := 58
  const DOLLAR: uint8 := 36
  const STAR: uint8 := 42
  const MAX_INT64 := 0x7FFF_FFFF_FFFF_FFFF

  type Bytes = seq<uint8>

  datatype Value = Text(s: Bytes) | Number(n: int64) | Array(xs: seq<Value>)

  datatype Error = EndOfStream | ShortLine | BadInteger | ServerError(s: Bytes) | UnsupportedTag | ExpectedArray

  // Panic is the runtime failure of allocating a slice of negative length.
  datatype Outcome<T> = Got(value: T, rest: Bytes) | Failed(error: Error) | Panic

  // ---- what the reader makes of a stream ----

  function LineEnd(b: Bytes): (i: nat)
    ensures i <= |b| && LF !in b[..i] && (i < |b| ==> b[i] == LF)
  {
    if b == [] || b[0] == LF then 0
    else
      var i := LineEnd(b[1..]);
      assert b[..i + 1] == [b[0]] + b[1..][..i];
      i + 1
  }

  // A line without its last two bytes, which are taken to be CR LF.
  function Line(b: Bytes): (r: Outcome<Bytes>)
    ensures r.Got? ==> |r.rest| < |b|
  {
    var i := LineEnd(b);
    if i == |b| then Failed(EndOfStream)
    else if i == 0 then Failed(ShortLine)
    else Got(b[..i - 1], b[i + 1..])
  }

  predicate IsDigit(c: uint8) {
    48 <= c < 58
  }

  function DigitsOf(s: Bytes): (ds: seq<Digit>)
    requires forall i :: 0 <= i < |s| ==> IsDigit(s[i])
  {
    seq(|s|, i requires 0 <= i < |s| => ToDigit(s[i]))
  }

  function ToDigit(c: uint8): Digit
    requires IsDigit(c)
  {
    c as int - 48
  }

  function FromDigit(d: Digit): uint8 {
    48 + d as int
  }

  // Base-ten integers of 64 bits with an optional sign.
  function ParseInt(s: Bytes): Option<int64> {
    var signed := s != [] && (s[0] == PLUS || s[0] == MINUS);
    match Magnitude(if signed then s[1..] else s)
    case None => None
    case Some(m) =>
      var n := if signed && s[0] == MINUS then -(m as int) else m;
      if -MAX_INT64 - 1 <= n <= MAX_INT64 then Some(n) else None
  }

  function Magnitude(body: Bytes): Option<nat> {
    if body == [] || exists i :: 0 <= i < |body| && !IsDigit(body[i]) then None
    else Some(ValueOf(DigitsOf(body)))
  }

  function Integer(b: Bytes): (r: Outcome<int64>)
    ensures r.Got? ==> |r.rest| < |b|
  {
    match Line(b)
    case Failed(e) => Failed(e)
    case Panic => Panic
    case Got(s, rest) => if ParseInt(s).Some? then Got(ParseInt(s).value, rest) else Failed(BadInteger)
  }

  // The payload of a bulk string of announced length n: n bytes and two more, not looked at.
  function Bulk(b: Bytes, n: int64): (r: Outcome<Value>)
    ensures r.Got? ==> |r.rest| <= |b|
  {
    if n < 0 then Got(Text([]), b)
    else if n + 2 > MAX_INT64 then Panic
    else if |b| < n + 2 then Failed(EndOfStream)
    else Got(Text(b[..n]), b[n + 2..])
  }

  function Read(b: Bytes): (r: Outcome<Value>)
    ensures r.Got? ==> |r.rest| < |b|
    decreases |b|, 0
  {
    if b == [] then Failed(EndOfStream)
    else if b[0] == PLUS then
      (match Line(b[1..])
       case Got(s, rest) => Got(Text(s), rest)
       case Failed(e) => Failed(e)
       case Panic => Panic)
    else if b[0] == MINUS then
      (match Line(b[1..])
       case Got(s, _) => Failed(ServerError(s))
       case Failed(e) => Failed(e)
       case Panic => Panic)
    else if b[0] == COLON then
      (match Integer(b[1..])
       case Got(n, rest) => Got(Number(n), rest)
       case Failed(e) => Failed(e)
       case Panic => Panic)
    else if b[0] == DOLLAR then
      (match Integer(b[1..])
       case Got(n, rest) => Bulk(rest, n)
       case Failed(e) => Failed(e)
       case Panic => Panic)
    else if b[0] == STAR then
      (match Integer(b[1..])
       case Got(n, rest) =>
         if n < 0 then Panic
         else
           (match ReadMany(rest, n)
            case Got(xs, rest') => Got(Array(xs), rest')
            case Failed(e) => Failed(e)
            case Panic => Panic)
       case Failed(e) => Failed(e)
       case Panic => Panic)
    else Failed(UnsupportedTag)
  }

  function ReadMany(b: Bytes, n: nat): (r: Outcome<seq<Value>>)
    ensures r.Got? ==> |r.rest| <= |b| && |r.value| == n
    decreases |b|, n
  {
    if n == 0 then Got([], b)
    else
      match Read(b)
      case Failed(e) => Failed(e)
      case Panic => Panic
      case Got(x, rest) =>
        match ReadMany(rest, n - 1)
        case Failed(e) => Failed(e)
        case Panic => Panic
        case Got(xs, rest') => Got([x] + xs, rest')
  }

  // The top-level frame: a negative count is a null array, read as an empty one.
  function Frame(b: Bytes): (r: Outcome<seq<Value>>)
    ensures r.Got? ==> |r.rest| < |b|
  {
    if b == [] then Failed(EndOfStream)
    else if b[0] != STAR then Failed(ExpectedArray)
    else
      match Integer(b[1..])
      case Failed(e) => Failed(e)
      case Panic => Panic
      case Got(n, rest) => if n < 0 then Got([], rest) else ReadMany(rest, n)
  }

  function Frames(b: Bytes): seq<seq<Value>>
    decreases |b|
  {
    match Frame(b)
    case Got(xs, rest) => [xs] + Frames(rest)
    case _ => []
  }

  // ---- the protocol's encoding ----

  // A null is announced by a negative length, whatever its magnitude.
  datatype Item =
    | SimpleString(s: Bytes) | BulkString(s: Bytes) | NullBulk(length: int64) | Int(n: int64)
    | Items(xs: seq<Item>) | NullArray(count: int64)

  predicate HasNullArray(x: Item) {
    match x
    case NullArray(_) => true
    case Items(xs) => AnyNullArray(xs)
    case _ => false
  }

  predicate AnyNullArray(xs: seq<Item>) {
    xs != [] && (HasNullArray(xs[0]) || AnyNullArray(xs[1..]))
  }

  function Meaning(x: Item): Value
    requires !HasNullArray(x)
  {
    match x
    case SimpleString(s) => Text(s)
    case BulkString(s) => Text(s)
    case NullBulk(_) => Text([])
    case Int(n) => Number(n)
    case Items(xs) => Array(Meanings(xs))
  }

  function Meanings(xs: seq<Item>): (vs: seq<Value>)
    requires !AnyNullArray(xs)
    ensures |vs| == |xs|
  {
    if xs == [] then [] else [Meaning(xs[0])] + Meanings(xs[1..])
  }

  // A simple string holds no line feed, and lengths fit the reader's integers.
  ghost predicate Encodable(x: Item) {
    match x
    case SimpleString(s) => LF !in s
    case BulkString(s) => |s| + 2 <= MAX_INT64
    case NullBulk(length) => length < 0
    case NullArray(count) => count < 0
    case Int(_) => true
    case Items(xs) => |xs| <= MAX_INT64 && forall i :: 0 <= i < |xs| ==> Encodable(xs[i])
  }

  function DecimalBytes(n: int): Bytes {
    if n < 0 then [MINUS] + AsBytes(Digits(-n)) else AsBytes(Digits(n))
  }

  function AsBytes(ds: seq<Digit>): (b: Bytes)
  {
    seq(|ds|, i requires 0 <= i < |ds| => FromDigit(ds[i]))
  }

  const CRLF: Bytes := [CR, LF]

  function Encode(x: Item): Bytes {
    match x
    case SimpleString(s) => [PLUS] + (s + CRLF)
    case BulkString(s) => [DOLLAR] + (DecimalBytes(|s|) + CRLF + (s + CRLF))
    case NullBulk(length) => [DOLLAR] + (DecimalBytes(length) + CRLF)
    case NullArray(count) => [STAR] + (DecimalBytes(count) + CRLF)
    case Int(n) => [COLON] + (DecimalBytes(n) + CRLF)
    case Items(xs) => [STAR] + (DecimalBytes(|xs|) + CRLF + EncodeMany(xs))
  }

  function EncodeMany(xs: seq<Item>): Bytes {
    if xs == [] then [] else Encode(xs[0]) + EncodeMany(xs[1..])
  }

  // ---- reading inverts encoding ----

  lemma {:induction false} LineEndAt(s: Bytes, rest: Bytes)
    requires LF !in s
    ensures LineEnd(s + [LF] + rest) == |s|
  {
    var b := s + [LF] + rest;
    if s == [] {
      assert b[0] == LF;
    } else {
      assert b[0] == s[0] && b[1..] == s[1..] + [LF] + rest;
      LineEndAt(s[1..], rest);
    }
  }

  lemma LineInverts(s: Bytes, rest: Bytes)
    requires LF !in s
    ensures Line(s + CRLF + rest) == Got(s, rest)
  {
    LineEndAt(s + [CR], rest);
    var b := s + CRLF + rest;
    assert b == (s + [CR]) + [LF] + rest;
    assert b[..|s|] == s && b[|s| + 2..] == rest;
  }

  lemma MagnitudeInverts(n: nat)
    ensures Magnitude(AsBytes(Digits(n))) == Some(n)
    ensures forall i :: 0 <= i < |AsBytes(Digits(n))| ==> IsDigit(AsBytes(Digits(n))[i])
  {
    DigitsHaveValue(n);
    assert DigitsOf(AsBytes(Digits(n))) == Digits(n);
  }

  lemma ParseIntInverts(n: int64)
    ensures ParseInt(DecimalBytes(n)) == Some(n)
  {
    var m: nat := if n < 0 then -(n as int) else n;
    var digits := AsBytes(Digits(m));
    MagnitudeInverts(m);
    if n < 0 {
      assert ([MINUS] + digits)[1..] == digits;
    } else {
      assert IsDigit(digits[0]);
    }
  }

  lemma NoLineFeed(n: int64)
    ensures LF !in DecimalBytes(n)
  {
  }

  lemma IntegerInverts(n: int64, rest: Bytes)
    ensures Integer(DecimalBytes(n) + CRLF + rest) == Got(n, rest)
  {
    ParseIntInverts(n);
    NoLineFeed(n);
    LineInverts(DecimalBytes(n), rest);
  }

  lemma BulkInverts(s: Bytes, rest: Bytes)
    requires |s| + 2 <= MAX_INT64
    ensures Bulk(s + CRLF + rest, |s|) == Got(Text(s), rest)
  {
    var b := s + CRLF + rest;
    assert b[..|s|] == s && b[|s| + 2..] == rest;
  }

  // What reading an item comes to: a null array anywhere brings the reader down, since it
  // allocates a slice of the announced length without checking it.
  function ReadingOf(x: Item, rest: Bytes): Outcome<Value> {
    if HasNullArray(x) then Panic else Got(Meaning(x), rest)
  }

  function ReadingOfMany(xs: seq<Item>, rest: Bytes): Outcome<seq<Value>> {
    if AnyNullArray(xs) then Panic else Got(Meanings(xs), rest)
  }

  // Reading an encoded item from a stream gives its value and leaves exactly what follows it,
  // unless there is a null array in it.
  lemma {:induction false} ReadInverts(x: Item, rest: Bytes)
    requires Encodable(x)
    ensures Read(Encode(x) + rest) == ReadingOf(x, rest)
    decreases x, 0
  {
    match x {
      case SimpleString(s) => ReadSimpleInverts(s, rest);
      case BulkString(s) => ReadBulkInverts(s, rest);
      case NullBulk(length) => ReadNullBulk(length, rest);
      case NullArray(count) => ReadNullArray(count, rest);
      case Int(n) => ReadIntInverts(n, rest);
      case Items(xs) =>
        ReadManyInverts(xs, rest);
        ReadItems(xs, rest);
    }
  }

  lemma ReadItems(xs: seq<Item>, rest: Bytes)
    requires |xs| <= MAX_INT64 && ReadMany(EncodeMany(xs) + rest, |xs|) == ReadingOfMany(xs, rest)
    ensures Read(Encode(Items(xs)) + rest) == ReadingOf(Items(xs), rest)
  {
    ItemsSplit(xs, rest);
    IntegerInverts(|xs|, EncodeMany(xs) + rest);
  }

  lemma HeaderSplit(tag: uint8, n: int64, rest: Bytes)
    ensures var b := [tag] + (DecimalBytes(n) + CRLF) + rest;
            b != [] && b[0] == tag && Integer(b[1..]) == Got(n, rest)
  {
    var b := [tag] + (DecimalBytes(n) + CRLF) + rest;
    assert b[1..] == DecimalBytes(n) + CRLF + rest;
    IntegerInverts(n, rest);
  }

  lemma ReadNullBulk(length: int64, rest: Bytes)
    requires length < 0
    ensures Read(Encode(NullBulk(length)) + rest) == Got(Text([]), rest)
  {
    HeaderSplit(DOLLAR, length, rest);
  }

  lemma ReadNullArray(count: int64, rest: Bytes)
    requires count < 0
    ensures Read(Encode(NullArray(count)) + rest) == Panic
  {
    HeaderSplit(STAR, count, rest);
  }

  lemma ReadSimpleInverts(s: Bytes, rest: Bytes)
    requires LF !in s
    ensures Read(Encode(SimpleString(s)) + rest) == Got(Text(s), rest)
  {
    var b := Encode(SimpleString(s)) + rest;
    assert b[0] == PLUS && b[1..] == s + CRLF + rest;
    LineInverts(s, rest);
  }

  lemma ReadBulkInverts(s: Bytes, rest: Bytes)
    requires |s| + 2 <= MAX_INT64
    ensures Read(Encode(BulkString(s)) + rest) == Got(Text(s), rest)
  {
    var b := Encode(BulkString(s)) + rest;
    assert b[0] == DOLLAR && b[1..] == DecimalBytes(|s|) + CRLF + (s + CRLF + rest);
    IntegerInverts(|s|, s + CRLF + rest);
    BulkInverts(s, rest);
  }

  lemma ReadIntInverts(n: int64, rest: Bytes)
    ensures Read(Encode(Int(n)) + rest) == Got(Number(n), rest)
  {
    var b := Encode(Int(n)) + rest;
    assert b[0] == COLON && b[1..] == DecimalBytes(n) + CRLF + rest;
    IntegerInverts(n, rest);
  }

  lemma Untag(tag: uint8, header: Bytes, body: Bytes, rest: Bytes)
    ensures var b := [tag] + (header + CRLF + body) + rest;
            b != [] && b[0] == tag && b[1..] == header + CRLF + (body + rest)
  {
  }

  lemma ItemsSplit(xs: seq<Item>, rest: Bytes)
    ensures var b := Encode(Items(xs)) + rest;
            b != [] && b[0] == STAR && b[1..] == DecimalBytes(|xs|) + CRLF + (EncodeMany(xs) + rest)
  {
    Untag(STAR, DecimalBytes(|xs|), EncodeMany(xs), rest);
  }

  lemma {:induction false} ReadManyInverts(xs: seq<Item>, rest: Bytes)
    requires forall i :: 0 <= i < |xs| ==> Encodable(xs[i])
    ensures ReadMany(EncodeMany(xs) + rest, |xs|) == ReadingOfMany(xs, rest)
    decreases xs
  {
    if xs == [] {
      assert EncodeMany(xs) + rest == rest;
    } else {
      assert EncodeMany(xs) + rest == Encode(xs[0]) + (EncodeMany(xs[1..]) + rest);
      ReadInverts(xs[0], EncodeMany(xs[1..]) + rest);
      ReadManyInverts(xs[1..], rest);
    }
  }

  // ---- frames ----

  // A whole frame is an array, or a null array, which is read as an empty one.
  predicate WholeFrame(x: Item) {
    x.Items? || x.NullArray?
  }

  predicate BringsDown(x: Item) {
    x.Items? && AnyNullArray(x.xs)
  }

  function FrameMeaning(x: Item): seq<Value>
    requires WholeFrame(x) && !BringsDown(x)
  {
    if x.Items? then Meanings(x.xs) else []
  }

  // A frame is read as its meaning, or brings the reader down, exactly if a null array is
  // nested anywhere inside it.
  lemma FrameInverts(x: Item, rest: Bytes)
    requires Encodable(x) && WholeFrame(x)
    ensures Frame(Encode(x) + rest) == if BringsDown(x) then Panic else Got(FrameMeaning(x), rest)
  {
    match x {
      case Items(xs) =>
        ItemsSplit(xs, rest);
        IntegerInverts(|xs|, EncodeMany(xs) + rest);
        ReadManyInverts(xs, rest);
      case NullArray(count) => HeaderSplit(STAR, count, rest);
    }
  }

  lemma NestedNullArrayPanics(xs: seq<Item>, rest: Bytes)
    requires Encodable(Items(xs))
    ensures Frame(Encode(Items(xs)) + rest) == Panic <==> exists i :: 0 <= i < |xs| && HasNullArray(xs[i])
  {
    FrameInverts(Items(xs), rest);
    AnyNullArrayIff(xs);
  }

  lemma {:induction false} AnyNullArrayIff(xs: seq<Item>)
    ensures AnyNullArray(xs) <==> exists i :: 0 <= i < |xs| && HasNullArray(xs[i])
  {
    if xs == [] {
    } else {
      AnyNullArrayIff(xs[1..]);
      if i :| 0 <= i < |xs[1..]| && HasNullArray(xs[1..][i]) {
        assert HasNullArray(xs[i + 1]);
      }
      if i :| 0 <= i < |xs| && HasNullArray(xs[i]) {
        assert i > 0 ==> xs[i] == xs[1..][i - 1];
      }
    }
  }

  function EncodeFrames(frames: seq<Item>): Bytes {
    if frames == [] then [] else Encode(frames[0]) + EncodeFrames(frames[1..])
  }

  // The meanings of the frames before the first one that brings the reader down.
  function Delivered(frames: seq<Item>): seq<seq<Value>>
    requires forall k :: 0 <= k < |frames| ==> WholeFrame(frames[k])
  {
    if frames == [] || BringsDown(frames[0]) then [] else [FrameMeaning(frames[0])] + Delivered(frames[1..])
  }

  // A stream of frames decodes to the list of frames, none lost, split or merged, up to the
  // first that brings the reader down.
  lemma {:induction false} FramesInvert(frames: seq<Item>)
    requires forall k :: 0 <= k < |frames| ==> Encodable(frames[k]) && WholeFrame(frames[k])
    ensures Frames(EncodeFrames(frames)) == Delivered(frames)
  {
    if frames == [] {
      assert Frame([]) == Failed(EndOfStream);
    } else {
      FrameInverts(frames[0], EncodeFrames(frames[1..]));
      FramesInvert(frames[1..]);
    }
  }

  // ---- errors ----

  // An error line fails with its text, and any other first byte than the five known fails too.
  lemma ErrorLineFails(s: Bytes, rest: Bytes)
    requires LF !in s
    ensures Read([45] + (s + [13, 10] + rest)) == Failed(ServerError(s))
  {
    var b := [MINUS] + (s + CRLF + rest);
    assert b[1..] == s + CRLF + rest;
    LineInverts(s, rest);
  }

  // A stream that ends within a line fails as such, and so does an empty line in another way.
  lemma NoLineFails(b: Bytes)
    ensures LF !in b ==> Line(b) == Failed(EndOfStream)
    ensures b != [] && b[0] == 10 ==> Line(b) == Failed(ShortLine)
  {
    assert LineEnd(b) < |b| ==> b[LineEnd(b)] in b;
  }

  lemma BadIntegerFails(s: Bytes, rest: Bytes)
    requires LF !in s && ParseInt(s).None?
    ensures Integer(s + [13, 10] + rest) == Failed(BadInteger)
  {
    LineInverts(s, rest);
  }

  // A null is empty; what is announced beyond the stream's end fails, and a length that does
  // not leave room for the two bytes that follow brings the reader down.
  lemma BulkReads(b: Bytes, n: int64)
    ensures n < 0 ==> Bulk(b, n) == Got(Text([]), b)
    ensures Bulk(b, n) == Panic <==> n >= 0x7FFF_FFFF_FFFF_FFFE
    ensures Bulk(b, n) == Failed(EndOfStream) <==> |b| - 2 < n < 0x7FFF_FFFF_FFFF_FFFE && n >= 0
    ensures 0 <= n <= |b| - 2 && n < 0x7FFF_FFFF_FFFF_FFFE ==> Bulk(b, n) == Got(Text(b[..n]), b[n + 2..])
  {
  }

  // Only digits, at least one, after at most one sign, and within 64 bits.
  lemma IntegerReadIff(s: Bytes)
    ensures var body := if s != [] && (s[0] == 43 || s[0] == 45) then s[1..] else s;
            ParseInt(s).Some? <==>
            && body != [] && (forall i :: 0 <= i < |body| ==> IsDigit(body[i]))
            && ValueOf(DigitsOf(body)) <=
               if s[0] == 45 then 0x8000_0000_0000_0000 else 0x7FFF_FFFF_FFFF_FFFF
  {
  }

  lemma PlusIsNoSign(body: Bytes)
    requires body != [] && IsDigit(body[0])
    ensures ParseInt([43] + body) == ParseInt(body)
  {
    assert ([PLUS] + body)[1..] == body;
  }

  lemma UnknownTagFails(b: Bytes)
    requires b != [] && b[0] != 43 && b[0] != 45 && b[0] != 58 && b[0] != 36 && b[0] != 42
    ensures Read(b) == Failed(UnsupportedTag) && Frame(b) == Failed(ExpectedArray)
  {
  }
}
