/**
 * Where the client's search for a key lands in the text the server prints.
 *
 * The text is cut at its quoted words. Since the words are distinct, free of quotes and
 * followed by a colon or a comma, a search for a quoted key can only succeed at that key.
 */
module KeySearch {
  import opened Types
  import opened Decimal
  import opened Numerals
  import opened Json
  import opened Scanner

  // A quoted word and the unquoted text after it.
  datatype Chunk = Chunk(key: Key, junk: string)

  function Flat(cs: seq<Chunk>): string {
    if cs == [] then "" else Quoted(cs[0].key) + cs[0].junk + Flat(cs[1..])
  }

  predicate Tidy(junk: string) {
    junk != "" && (junk[0] == ':' || junk[0] == ',') && '"' !in junk
  }

  ghost predicate AllTidy(cs: seq<Chunk>) {
    forall i :: 0 <= i < |cs| ==> Tidy(cs[i].junk)
  }

  ghost predicate Suffix(suffix: string) {
    suffix == ":" || suffix == ":["
  }

  // What follows the first word k that is followed by the suffix.
  function RestAt(cs: seq<Chunk>, k: Key, suffix: string): Option<string> {
    if cs == [] then None
    else if cs[0].key == k && StartsWith(cs[0].junk, suffix) then Some(cs[0].junk[|suffix|..] + Flat(cs[1..]))
    else RestAt(cs[1..], k, suffix)
  }

  // ---- a search for a quoted key stops at that key ----

  lemma {:induction false} FindSkips(s: string, needle: string, n: nat)
    requires n <= |s| && forall i :: 0 <= i < n ==> !StartsWith(s[i..], needle)
    ensures Find(s, needle) == Shift(Find(s[n..], needle), n)
    decreases n
  {
    if n == 0 {
      assert s[0..] == s;
    } else {
      FindSkips(s, needle, n - 1);
      FindLater(s, needle, n - 1);
      assert Shift(Find(s[n - 1..], needle), n - 1) == Shift(Find(s[n..], needle), n);
    }
  }

  lemma AfterSkips(s: string, needle: string, n: nat)
    requires n <= |s| && forall i :: 0 <= i < n ==> !StartsWith(s[i..], needle)
    ensures After(s, needle) == After(s[n..], needle)
  {
    FindSkips(s, needle, n);
    if Find(s[n..], needle).Some? {
      var p := Find(s[n..], needle).value;
      assert s[n..][p + |needle|..] == s[n + p + |needle|..];
    }
  }

  lemma Differs(s: string, prefix: string, i: nat)
    requires i < |prefix| && (i < |s| ==> s[i] != prefix[i])
    ensures !StartsWith(s, prefix)
  {
  }

  lemma Agrees(s: string, prefix: string)
    requires |prefix| <= |s| && forall i :: 0 <= i < |prefix| ==> s[i] == prefix[i]
    ensures StartsWith(s, prefix)
  {
  }

  // At an opening quote, the search succeeds only on its own word with its own suffix.
  lemma HeadMatch(word: Key, junk: string, rest: string, k: Key, suffix: string)
    requires Tidy(junk) && Suffix(suffix) && (rest == "" || rest[0] == '"')
    ensures StartsWith(Quoted(word) + junk + rest, Quoted(k) + suffix) <==> word == k && StartsWith(junk, suffix)
  {
    if word == k {
      SuffixMatch(Quoted(k), junk, rest, suffix);
    } else {
      WordMismatch(word, junk + rest, k, suffix);
      assert Quoted(word) + junk + rest == Quoted(word) + (junk + rest);
    }
  }

  lemma WordMismatch(word: Key, rest: string, k: Key, suffix: string)
    requires word != k
    ensures !StartsWith(Quoted(word) + rest, Quoted(k) + suffix)
  {
    var text, needle := Quoted(word) + rest, Quoted(k) + suffix;
    var v, w := NameOf(word), NameOf(k);
    NameFacts(word);
    NameFacts(k);
    assert text[|v| + 1] == '"' && needle[|w| + 1] == '"';
    assert forall i :: 0 <= i < |v| ==> text[i + 1] == v[i];
    assert forall i :: 0 <= i < |w| ==> needle[i + 1] == w[i];
    if |v| < |w| {
      Differs(text, needle, |v| + 1);
    } else if |w| < |v| {
      Differs(text, needle, |w| + 1);
    } else {
      var i := DifferentAt(word, k);
      Differs(text, needle, i + 1);
    }
  }

  lemma DifferentAt(a: Key, b: Key) returns (i: nat)
    requires a != b && |NameOf(a)| == |NameOf(b)|
    ensures i < |NameOf(a)| && NameOf(a)[i] != NameOf(b)[i]
  {
    NameFacts(a);
    NameFacts(b);
    i := if NameOf(a)[0] != NameOf(b)[0] then 0 else if NameOf(a)[1] != NameOf(b)[1] then 1 else 3;
  }

  lemma SuffixMatch(quoted: string, junk: string, rest: string, suffix: string)
    requires Tidy(junk) && Suffix(suffix) && (rest == "" || rest[0] == '"')
    ensures StartsWith(quoted + junk + rest, quoted + suffix) <==> StartsWith(junk, suffix)
  {
    var text, needle, n := quoted + junk + rest, quoted + suffix, |quoted|;
    assert forall i :: 0 <= i < |junk| ==> text[n + i] == junk[i];
    assert forall i :: 0 <= i < |suffix| ==> needle[n + i] == suffix[i];
    if |junk| < |suffix| {
      assert |junk| < |rest + junk| ==> text[n + |junk|] == '"';
      Differs(text, needle, n + |junk|);
    } else if junk[0] != suffix[0] {
      Differs(text, needle, n);
      Differs(junk, suffix, 0);
    } else if |suffix| == 2 && junk[1] != suffix[1] {
      Differs(text, needle, n + 1);
      Differs(junk, suffix, 1);
    } else {
      Agrees(junk, suffix);
      Agrees(text, needle);
    }
  }

  // Nowhere else in the chunk can it succeed.
  lemma InnerMismatch(word: Key, junk: string, rest: string, k: Key, suffix: string, i: nat)
    requires Tidy(junk) && 0 < i < |Quoted(word) + junk|
    ensures !StartsWith((Quoted(word) + junk + rest)[i..], Quoted(k) + suffix)
  {
    var text, needle := Quoted(word) + junk + rest, Quoted(k) + suffix;
    NameFacts(word);
    NameFacts(k);
    assert needle[0] == '"' && needle[1] == NameOf(k)[0];
    var a := |NameOf(word)|;
    assert text[i..][0] == text[i];
    if i <= a {
      assert text[i] == NameOf(word)[i - 1];
      Differs(text[i..], needle, 0);
    } else if i == a + 1 {
      assert text[i..][1] == text[i + 1] == junk[0];
      Differs(text[i..], needle, 1);
    } else {
      assert text[i] == junk[i - a - 2];
      Differs(text[i..], needle, 0);
    }
  }

  lemma ChunkSkipped(word: Key, junk: string, rest: string, k: Key, suffix: string)
    requires Tidy(junk) && Suffix(suffix) && (rest == "" || rest[0] == '"')
    requires word != k || !StartsWith(junk, suffix)
    ensures After(Quoted(word) + junk + rest, Quoted(k) + suffix) == After(rest, Quoted(k) + suffix)
  {
    var text, n := Quoted(word) + junk + rest, |Quoted(word) + junk|;
    forall i | 0 <= i < n
      ensures !StartsWith(text[i..], Quoted(k) + suffix)
    {
      if i == 0 {
        HeadMatch(word, junk, rest, k, suffix);
        assert text[0..] == text;
      } else {
        InnerMismatch(word, junk, rest, k, suffix, i);
      }
    }
    AfterSkips(text, Quoted(k) + suffix, n);
    assert text[n..] == rest;
  }

  lemma ChunkFound(junk: string, rest: string, k: Key, suffix: string)
    requires Tidy(junk) && Suffix(suffix) && StartsWith(junk, suffix) && (rest == "" || rest[0] == '"')
    ensures After(Quoted(k) + junk + rest, Quoted(k) + suffix) == Some(junk[|suffix|..] + rest)
  {
    var text, needle := Quoted(k) + junk + rest, Quoted(k) + suffix;
    HeadMatch(k, junk, rest, k, suffix);
    assert text[|needle|..] == junk[|suffix|..] + rest;
  }

  lemma {:induction false} AfterIsRestAt(cs: seq<Chunk>, k: Key, suffix: string)
    requires AllTidy(cs) && Suffix(suffix)
    ensures After(Flat(cs), Quoted(k) + suffix) == RestAt(cs, k, suffix)
  {
    if cs == [] {
      NothingAfter(Quoted(k) + suffix);
    } else {
      var c, rest := cs[0], Flat(cs[1..]);
      AfterIsRestAt(cs[1..], k, suffix);
      if c.key == k && StartsWith(c.junk, suffix) {
        ChunkFound(c.junk, rest, k, suffix);
      } else {
        ChunkSkipped(c.key, c.junk, rest, k, suffix);
      }
    }
  }

  lemma NothingAfter(needle: string)
    requires needle != ""
    ensures After("", needle) == None
  {
  }

  // The opening brace before the first word does not matter.
  lemma AfterInObject(cs: seq<Chunk>, k: Key, suffix: string)
    requires AllTidy(cs) && Suffix(suffix)
    ensures After("{" + Flat(cs), Quoted(k) + suffix) == RestAt(cs, k, suffix)
  {
    var text, needle := "{" + Flat(cs), Quoted(k) + suffix;
    assert text[0..] == text && text[0] == '{' && needle[0] == '"';
    Differs(text, needle, 0);
    AfterSkips(text, needle, 1);
    assert text[1..] == Flat(cs);
    AfterIsRestAt(cs, k, suffix);
  }

  // ---- values are read back ----

  ghost predicate PlainText(s: string) {
    '"' !in s && NoBrackets(s)
  }

  ghost predicate Ends(t: string) {
    t != "" && !IsDigit(t[0])
  }

  lemma NumberPlain(n: nat)
    ensures PlainText(Number(n)) && Number(n) != "" && forall i :: 0 <= i < |Number(n)| ==> IsDigit(Number(n)[i])
  {
  }

  lemma BoolPlain(b: bool)
    ensures PlainText(Bool(b))
  {
  }

  lemma {:induction false} DigitRunStops(s: string, t: string)
    requires Ends(t) && forall i :: 0 <= i < |s| ==> IsDigit(s[i])
    ensures DigitRun(s + t) == |s|
  {
    if s == [] {
      assert s + t == t;
    } else {
      assert (s + t)[1..] == s[1..] + t;
      DigitRunStops(s[1..], t);
    }
  }

  // No wrap-around happens below the 64-bit bound.
  lemma {:induction false} AccumulateExact(ds: seq<Digit>)
    requires ValueOf(ds) < 0x1_0000_0000_0000_0000
    ensures Accumulate(ds) == ValueOf(ds)
  {
    if ds == [] {
    } else {
      AccumulateExact(ds[..|ds| - 1]);
    }
  }

  lemma NumberReadBack(n: nat, t: string)
    requires n < 0x1_0000_0000_0000_0000 && Ends(t)
    ensures LeadingNumber(Number(n) + t) == Some(n)
  {
    var s := Number(n);
    NumberPlain(n);
    DigitRunStops(s, t);
    assert (s + t)[..|s|] == s;
    assert DigitsOf(s) == Digits(n);
    DigitsHaveValue(n);
    AccumulateExact(Digits(n));
  }

  lemma BoolReadBack(b: bool, t: string)
    ensures LeadingBool(Bool(b) + t) == Some(b)
  {
    Agrees(Bool(b) + t, Bool(b));
    if !b {
      Differs(Bool(b) + t, "true", 0);
    }
  }

  // ---- objects of plain fields ----

  function FieldChunks(fields: seq<Field>, tail: string): seq<Chunk> {
    if fields == [] then []
    else
      [Chunk(fields[0].key, ":" + fields[0].value + if |fields| == 1 then tail else ",")] +
      FieldChunks(fields[1..], tail)
  }

  ghost predicate PlainFields(fields: seq<Field>) {
    forall i :: 0 <= i < |fields| ==> PlainText(fields[i].value)
  }

  lemma {:induction false} FieldChunksFlat(fields: seq<Field>, tail: string)
    requires fields != []
    ensures Flat(FieldChunks(fields, tail)) == JoinFields(fields) + tail
  {
    var cs := FieldChunks(fields, tail);
    assert cs[1..] == FieldChunks(fields[1..], tail);
    if |fields| <= 1 {
    } else {
      FieldChunksFlat(fields[1..], tail);
    }
  }

  lemma {:induction false} FieldChunksTidy(fields: seq<Field>, tail: string)
    requires PlainFields(fields) && '"' !in tail
    ensures AllTidy(FieldChunks(fields, tail))
  {
    if fields == [] {
    } else {
      FieldChunksTidy(fields[1..], tail);
    }
  }

  // The first field with a key is found, whatever comes after the object.
  lemma {:induction false} FieldFound(fields: seq<Field>, tail: string, later: seq<Chunk>, i: nat) returns (t: string)
    requires i < |fields| && forall j :: 0 <= j < i ==> fields[j].key != fields[i].key
    requires Ends(tail)
    ensures RestAt(FieldChunks(fields, tail) + later, fields[i].key, ":") == Some(fields[i].value + t) && Ends(t)
  {
    var cs := FieldChunks(fields, tail) + later;
    assert cs[1..] == FieldChunks(fields[1..], tail) + later;
    if i == 0 {
      var sep := if |fields| == 1 then tail else ",";
      t := sep + Flat(cs[1..]);
      ValueFound(cs, fields[0], sep);
    } else {
      t := FieldFound(fields[1..], tail, later, i - 1);
    }
  }

  lemma ValueFound(cs: seq<Chunk>, f: Field, sep: string)
    requires cs != [] && cs[0] == Chunk(f.key, ":" + f.value + sep)
    ensures RestAt(cs, f.key, ":") == Some(f.value + (sep + Flat(cs[1..])))
  {
    Agrees(cs[0].junk, ":");
    ColonDropped(f.value, sep, Flat(cs[1..]));
  }

  lemma ColonDropped(value: string, sep: string, rest: string)
    ensures (":" + value + sep)[1..] + rest == value + (sep + rest)
  {
  }

  ghost predicate Lacks(cs: seq<Chunk>, k: Key) {
    forall i :: 0 <= i < |cs| ==> cs[i].key != k
  }

  lemma {:induction false} RestAtLacking(cs: seq<Chunk>, later: seq<Chunk>, k: Key, suffix: string)
    requires Lacks(cs, k)
    ensures RestAt(cs + later, k, suffix) == RestAt(later, k, suffix)
  {
    if cs == [] {
      assert cs + later == later;
    } else {
      assert (cs + later)[1..] == cs[1..] + later;
      RestAtLacking(cs[1..], later, k, suffix);
    }
  }

  lemma {:induction false} FieldChunksKeys(fields: seq<Field>, tail: string)
    ensures |FieldChunks(fields, tail)| == |fields|
    ensures forall i :: 0 <= i < |fields| ==> FieldChunks(fields, tail)[i].key == fields[i].key
  {
    if fields == [] {
    } else {
      FieldChunksKeys(fields[1..], tail);
    }
  }
}
