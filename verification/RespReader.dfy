/**
 * The imperative reader: it advances a buffered connection and yields what Resp says the
 * bytes mean, however the connection chops them up.
 */
module RespReader {
  import opened Types
  import opened Resp

  class BufReader {
    // The bytes still to come before the connection closes.
    var stream: Bytes

    constructor (stream: Bytes)
      ensures this.stream == stream
    {
      this.stream := stream;
    }

    // Up to and including the next line feed, or nothing if the stream ends first.
    method ReadString() returns (line: Option<Bytes>)
      modifies this
      ensures var i := LineEnd(old(stream));
              if i < |old(stream)| then line == Some(old(stream)[..i + 1]) && stream == old(stream)[i + 1..]
              else line == None
    {
      var i := 0;
      while i < |stream| && stream[i] != LF
        invariant i <= |stream| && stream == old(stream)
        invariant LineEnd(stream) == i + LineEnd(stream[i..])
      {
        assert stream[i..][1..] == stream[i + 1..];
        i := i + 1;
      }
      if i == |stream| {
        return None;
      }
      assert stream[i..][0] == LF;
      line := Some(stream[..i + 1]);
      stream := stream[i + 1..];
    }

    method ReadLine() returns (r: Outcome<Bytes>)
      modifies this
      ensures r == Line(old(stream)) && (r.Got? ==> stream == r.rest)
    {
      var line := ReadString();
      if line.None? {
        return Failed(EndOfStream);
      }
      if |line.value| < 2 {
        return Failed(ShortLine);
      }
      ghost var i := LineEnd(old(stream));
      assert old(stream)[..i + 1][..i - 1] == old(stream)[..i - 1];
      r := Got(line.value[..|line.value| - 2], stream);
    }

    method ReadInt() returns (r: Outcome<int64>)
      modifies this
      ensures r == Integer(old(stream)) && (r.Got? ==> stream == r.rest)
    {
      var line := ReadLine();
      match line
      case Failed(e) => r := Failed(e);
      case Panic => r := Panic;
      case Got(s, _) =>
        var n := ParseInt(s);
        r := if n.Some? then Got(n.value, stream) else Failed(BadInteger);
    }

    // One read of the connection: some of what was asked for, at least one byte.
    method ReadSome(limit: nat) returns (chunk: Bytes)
      requires 0 < limit && stream != []
      modifies this
      ensures 0 < |chunk| <= limit && chunk + stream == old(stream)
    {
      var k: nat :| 0 < k <= limit && k <= |stream|;
      chunk := stream[..k];
      stream := stream[k..];
    }

    // Reads until the buffer is full or the stream ends.
    method ReadFull(n: nat) returns (buf: Option<Bytes>)
      modifies this
      ensures if n <= |old(stream)| then buf == Some(old(stream)[..n]) && stream == old(stream)[n..] else buf == None
    {
      var got := [];
      while |got| < n && stream != []
        invariant |got| <= n
        invariant got + stream == old(stream)
        decreases n - |got|
      {
        var chunk := ReadSome(n - |got|);
        assert (got + chunk) + stream == got + (chunk + stream);
        got := got + chunk;
      }
      if |got| < n {
        assert got + [] == got;
        return None;
      }
      return Some(got);
    }

    method ReadBulk(n: int64) returns (r: Outcome<Value>)
      modifies this
      ensures r == Bulk(old(stream), n) && (r.Got? ==> stream == r.rest)
    {
      if n < 0 {
        return Got(Text([]), stream);
      }
      if n + 2 > MAX_INT64 {
        return Panic;
      }
      var buf := ReadFull(n + 2);
      if buf.None? {
        return Failed(EndOfStream);
      }
      assert old(stream)[..n + 2][..n] == old(stream)[..n];
      r := Got(Text(buf.value[..n]), stream);
    }

    method ReadValue() returns (r: Outcome<Value>)
      modifies this
      ensures r == Read(old(stream)) && (r.Got? ==> stream == r.rest)
      decreases |stream|, 0
    {
      if stream == [] {
        return Failed(EndOfStream);
      }
      var tag := stream[0];
      stream := stream[1..];
      if tag == PLUS || tag == MINUS {
        var line := ReadLine();
        match line
        case Failed(e) => r := Failed(e);
        case Panic => r := Panic;
        case Got(s, _) => r := if tag == PLUS then Got(Text(s), stream) else Failed(ServerError(s));
      } else if tag == COLON {
        var n := ReadInt();
        match n
        case Failed(e) => r := Failed(e);
        case Panic => r := Panic;
        case Got(i, _) => r := Got(Number(i), stream);
      } else if tag == DOLLAR {
        var n := ReadInt();
        match n
        case Failed(e) => r := Failed(e);
        case Panic => r := Panic;
        case Got(i, _) => r := ReadBulk(i);
      } else if tag == STAR {
        r := ReadNested();
      } else {
        r := Failed(UnsupportedTag);
      }
    }

    // The rest of an array after its tag, at any depth below the top.
    method ReadNested() returns (r: Outcome<Value>)
      modifies this
      ensures r == (match Integer(old(stream))
                    case Failed(e) => Failed(e)
                    case Panic => Panic
                    case Got(n, rest) =>
                      if n < 0 then Panic
                      else match ReadMany(rest, n)
                           case Got(xs, rest') => Got(Array(xs), rest')
                           case Failed(e) => Failed(e)
                           case Panic => Panic)
      ensures r.Got? ==> stream == r.rest
      decreases |stream|, 3
    {
      var n := ReadInt();
      match n
      case Failed(e) => r := Failed(e);
      case Panic => r := Panic;
      case Got(i, _) =>
        if i < 0 {
          return Panic;
        }
        var elements := ReadElements(i);
        match elements
        case Failed(e) => r := Failed(e);
        case Panic => r := Panic;
        case Got(xs, _) => r := Got(Array(xs), stream);
    }

    method ReadElements(n: nat) returns (r: Outcome<seq<Value>>)
      modifies this
      ensures r == ReadMany(old(stream), n) && (r.Got? ==> stream == r.rest)
      decreases |stream|, 2
    {
      ghost var start := stream;
      var out: seq<Value> := [];
      var left := n;
      ContinueNothing(ReadMany(start, n));
      while left > 0
        invariant |stream| <= |start| && |out| + left == n
        invariant ReadMany(start, n) == Continue(out, ReadMany(stream, left))
        decreases left
      {
        ContinueOne(out, stream, left);
        var x := ReadValue();
        assert ReadMany(start, n) == ContinueWith(out, x, left - 1);
        match x {
          case Failed(e) => return Failed(e);
          case Panic => return Panic;
          case Got(v, _) => out := out + [v];
        }
        left := left - 1;
      }
      assert out + [] == out;
      r := Got(out, stream);
    }

    method ReadRESPArray() returns (r: Outcome<seq<Value>>)
      modifies this
      ensures r == Frame(old(stream)) && (r.Got? ==> stream == r.rest)
    {
      if stream == [] {
        return Failed(EndOfStream);
      }
      if stream[0] != STAR {
        return Failed(ExpectedArray);
      }
      stream := stream[1..];
      var n := ReadInt();
      match n
      case Failed(e) => r := Failed(e);
      case Panic => r := Panic;
      case Got(i, _) =>
        if i < 0 {
          return Got([], stream);
        }
        r := ReadElements(i);
    }
  }

  ghost function Continue(done: seq<Value>, later: Outcome<seq<Value>>): Outcome<seq<Value>> {
    match later
    case Got(xs, rest) => Got(done + xs, rest)
    case Failed(e) => Failed(e)
    case Panic => Panic
  }

  ghost function ContinueWith(done: seq<Value>, next: Outcome<Value>, n: nat): Outcome<seq<Value>> {
    match next
    case Got(x, rest) => Continue(done + [x], ReadMany(rest, n))
    case Failed(e) => Failed(e)
    case Panic => Panic
  }

  lemma ContinueNothing(later: Outcome<seq<Value>>)
    ensures Continue([], later) == later
  {
    if later.Got? {
      assert [] + later.value == later.value;
    }
  }

  // What follows a value that has been read.
  ghost function More(next: Outcome<Value>, n: nat): Outcome<seq<Value>> {
    match next
    case Got(x, rest) => Continue([x], ReadMany(rest, n))
    case Failed(e) => Failed(e)
    case Panic => Panic
  }

  lemma ContinueMore(done: seq<Value>, next: Outcome<Value>, n: nat)
    ensures Continue(done, More(next, n)) == ContinueWith(done, next, n)
  {
    if next.Got? && ReadMany(next.rest, n).Got? {
      var x, xs := next.value, ReadMany(next.rest, n).value;
      assert done + ([x] + xs) == (done + [x]) + xs;
    }
  }

  lemma ContinueOne(done: seq<Value>, b: Bytes, n: nat)
    requires n > 0
    ensures Continue(done, ReadMany(b, n)) == ContinueWith(done, Read(b), n - 1)
  {
    var next := Read(b);
    assert ReadMany(b, n) == More(next, n - 1);
    ContinueMore(done, next, n - 1);
  }
}
