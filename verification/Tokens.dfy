/**
 * The bridge's one-shot voice tokens: what a validation checks, which tokens it remembers,
 * and why no token is ever accepted twice.
 */
module Tokens {
  import opened Types
  import opened Numerals

  const TTL_MS := 60000

  // Milliseconds since the epoch, as a 64-bit clock gives them.
  type Time = t: int64 | 0 <= t witness 0

  type Bytes = seq<uint8>

  // The keyed hash, the text encoding of its result and the reading of digits are library code.
  datatype Crypto = Crypto(hmac: string -> Bytes, encode: Bytes -> string, decode: string -> Option<Bytes>,
                           digit: DigitReader)

  // What is asked of them to have issued tokens accepted.
  ghost predicate Sound(c: Crypto) {
    && ReadsAscii(c.digit)
    && (forall payload :: c.hmac(payload) != [])
    && (forall b :: b != [] ==> c.encode(b) != "" && '.' !in c.encode(b) && c.decode(c.encode(b)) == Some(b))
  }

  // ---- the token text ----

  function HexDigit(n: nat): char
    requires n < 16
  {
    "0123456789abcdef"[n]
  }

  function Hex(b: Bytes): string {
    if b == [] then "" else [HexDigit(b[0] / 16), HexDigit(b[0] % 16)] + Hex(b[1..])
  }

  function Payload(player: int32, issued: Time, nonce: Bytes): string {
    Signed(player) + "." + (Signed(issued) + "." + Hex(nonce))
  }

  function Token(c: Crypto, player: int32, issued: Time, nonce: Bytes): string {
    Signed(player) + "." + (Signed(issued) + "." + (Hex(nonce) + "." + c.encode(c.hmac(Payload(player, issued,
        nonce)))))
  }

  lemma Regroup(a: string, b: string, c: string, d: string)
    ensures a + "." + b + "." + c == a + "." + (b + "." + c)
    ensures a + "." + b + "." + c + "." + d == a + "." + (b + "." + (c + "." + d))
  {
  }

  // ---- what a validation checks ----

  // The text between the dots.
  function Pieces(s: string): (r: seq<string>)
    ensures r != []
  {
    if s == "" then [""]
    else if s[0] == '.' then [""] + Pieces(s[1..])
    else
      var later := Pieces(s[1..]);
      [[s[0]] + later[0]] + later[1..]
  }

  function DropTrailingEmpty(pieces: seq<string>): seq<string> {
    if pieces == [] || pieces[|pieces| - 1] != "" then pieces else DropTrailingEmpty(pieces[..|pieces| - 1])
  }

  // The library's split gives up trailing empty pieces.
  function Split(s: string): seq<string> {
    DropTrailingEmpty(Pieces(s))
  }

  function ParseInt(read: DigitReader, s: string): Option<int32> {
    match ParseSigned(read, s)
    case None => None
    case Some(n) => if -0x8000_0000 <= n < 0x8000_0000 then Some(n) else None
  }

  function ParseLong(read: DigitReader, s: string): Option<int64> {
    match ParseSigned(read, s)
    case None => None
    case Some(n) => if -0x8000_0000_0000_0000 <= n < 0x8000_0000_0000_0000 then Some(n) else None
  }

  // 64-bit subtraction wraps around.
  function Minus(a: int64, b: int64): int64 {
    var d := a - b;
    if d >= 0x8000_0000_0000_0000 then d - 0x1_0000_0000_0000_0000
    else if d < -0x8000_0000_0000_0000 then d + 0x1_0000_0000_0000_0000
    else d
  }

  // Wrap-around never makes an old or future token look fresh.
  lemma AgeIsExact(now: Time, issued: int64)
    ensures 0 <= Minus(now, issued) <= TTL_MS <==> 0 <= now - issued <= TTL_MS
  {
  }

  // What a token claims: the player, the time of issue and the nonce.
  datatype Claim = Claim(player: int32, issued: int64, nonce: string)

  // The token is three parts that spell the claim, and a fourth that decodes to their hash.
  predicate SignedWith(c: Crypto, token: string, claim: Claim) {
    var parts := Split(token);
    && |parts| == 4
    && ParseInt(c.digit, parts[0]) == Some(claim.player) && ParseLong(c.digit, parts[1]) == Some(claim.issued)
    && parts[2] == claim.nonce
    && c.decode(parts[3]) == Some(c.hmac(parts[0] + "." + (parts[1] + "." + parts[2])))
  }

  // The claim of a token that passes every check but the one for replay.
  function Genuine(c: Crypto, player: int32, token: Option<string>, now: Time): (r: Option<Claim>)
    ensures r.Some? ==> r.value.player == player && 0 <= now - r.value.issued <= TTL_MS
    ensures r.Some? ==> token.Some? && SignedWith(c, token.value, r.value)
  {
    if token.None? then None
    else
      var parts := Split(token.value);
      if |parts| != 4 then None
      else
        var owner, issued := ParseInt(c.digit, parts[0]), ParseLong(c.digit, parts[1]);
        if owner.None? || issued.None? || owner.value != player then None
        else
          AgeIsExact(now, issued.value);
          var age := Minus(now, issued.value);
          if age < 0 || age > TTL_MS then None
          else if c.decode(parts[3]) != Some(c.hmac(parts[0] + "." + (parts[1] + "." + parts[2]))) then None
          else Some(Claim(player, issued.value, parts[2]))
  }

  function KeyOf(claim: Claim): string {
    Signed(claim.player) + ":" + claim.nonce
  }

  // ---- what it remembers ----

  type Consumed = map<string, Time>

  function Pruned(consumed: Consumed, now: Time): Consumed {
    map k | k in consumed && consumed[k] >= now - TTL_MS :: consumed[k]
  }

  // One validation: the claim if genuine, and the up to three times the clock was read.
  datatype Use = Use(claim: Option<Claim>, t1: Time, t2: Time, t3: Time)

  predicate Accepts(consumed: Consumed, u: Use) {
    u.claim.Some? && KeyOf(u.claim.value) !in consumed
  }

  function Validated(consumed: Consumed, u: Use): Consumed {
    if Accepts(consumed, u) then Pruned(consumed[KeyOf(u.claim.value) := u.t2], u.t3) else consumed
  }

  class TokenIssuer {
    const crypto: Crypto
    var consumed: Consumed

    constructor (crypto: Crypto)
      ensures this.crypto == crypto && consumed == map[]
    {
      this.crypto := crypto;
      consumed := map[];
    }

    method Issue(player: int32, now: Time, nonce: Bytes) returns (token: string)
      ensures token == Token(crypto, player, now, nonce)
    {
      var nonceHex := ToHex(nonce);
      var payload := Signed(player) + "." + Signed(now) + "." + nonceHex;
      Regroup(Signed(player), Signed(now), nonceHex, crypto.encode(crypto.hmac(payload)));
      token := payload + "." + crypto.encode(crypto.hmac(payload));
    }

    static method ToHex(b: Bytes) returns (s: string)
      ensures s == Hex(b)
    {
      s := "";
      var i := 0;
      assert b[0..] == b;
      while i < |b|
        invariant i <= |b| && s + Hex(b[i..]) == Hex(b)
      {
        assert b[i..][1..] == b[i + 1..];
        s := s + [HexDigit(b[i] / 16), HexDigit(b[i] % 16)];
        i := i + 1;
      }
    }

    method Validate(player: int32, token: Option<string>, t1: Time, t2: Time, t3: Time) returns (ok: bool)
      modifies this
      ensures ok == Accepts(old(consumed), Use(Genuine(crypto, player, token, t1), t1, t2, t3))
      ensures consumed == Validated(old(consumed), Use(Genuine(crypto, player, token, t1), t1, t2, t3))
    {
      if token.None? {
        return false;
      }
      var parts := Split(token.value);
      if |parts| != 4 {
        return false;
      }
      var tokPlayer, issued := ParseInt(crypto.digit, parts[0]), ParseLong(crypto.digit, parts[1]);
      if tokPlayer.None? || issued.None? {
        return false;
      }
      if tokPlayer.value != player {
        return false;
      }
      var age := Minus(t1, issued.value);
      if age < 0 || age > TTL_MS {
        return false;
      }
      var payload := parts[0] + "." + (parts[1] + "." + parts[2]);
      var expected := crypto.hmac(payload);
      var given := crypto.decode(parts[3]);
      if given.None? || given.value != expected {
        return false;
      }
      var key := Signed(player) + ":" + parts[2];
      assert key == KeyOf(Claim(player, issued.value, parts[2]));
      if key in consumed {
        return false;
      }
      consumed := consumed[key := t2];
      PruneExpired(t3);
      ok := true;
    }

    method PruneExpired(now: Time)
      modifies this
      ensures consumed == Pruned(old(consumed), now)
    {
      consumed := map k | k in consumed && !(consumed[k] < now - TTL_MS) :: consumed[k];
    }
  }

  // ---- runs of validations ----

  predicate Ordered(run: seq<Use>) {
    && (forall i :: 0 <= i < |run| ==> run[i].t1 <= run[i].t2 <= run[i].t3)
    && (forall i, j :: 0 <= i < j < |run| ==> run[i].t3 <= run[j].t1)
  }

  predicate InTime(u: Use) {
    u.claim.Some? ==> 0 <= u.t1 - u.claim.value.issued <= TTL_MS
  }

  // The clock does not go back, and every genuine claim is within its time to live.
  predicate Proper(run: seq<Use>) {
    Ordered(run) && forall i :: 0 <= i < |run| ==> InTime(run[i])
  }

  function After(run: seq<Use>): Consumed {
    if run == [] then map[] else Validated(After(run[..|run| - 1]), run[|run| - 1])
  }

  predicate Accepted(run: seq<Use>, i: nat)
    requires i < |run|
  {
    Accepts(After(run[..i]), run[i])
  }

  // A claim that was accepted is remembered until it is too old to be accepted.
  ghost predicate Spent(consumed: Consumed, claim: Claim, clock: Time) {
    (KeyOf(claim) in consumed && consumed[KeyOf(claim)] >= claim.issued) || clock > claim.issued + TTL_MS
  }

  lemma StaysSpent(consumed: Consumed, u: Use, claim: Claim, clock: Time)
    requires Spent(consumed, claim, clock) && clock <= u.t1 <= u.t2 <= u.t3
    ensures Spent(Validated(consumed, u), claim, u.t3)
  {
  }

  lemma SpentOnAcceptance(consumed: Consumed, u: Use)
    requires Accepts(consumed, u) && InTime(u) && u.t1 <= u.t2 <= u.t3
    ensures Spent(Validated(consumed, u), u.claim.value, u.t3)
  {
  }

  lemma AfterOneMore(run: seq<Use>, n: nat)
    requires Ordered(run) && 0 < n <= |run|
    ensures After(run[..n]) == Validated(After(run[..n - 1]), run[n - 1])
    ensures run[n - 1].t1 <= run[n - 1].t2 <= run[n - 1].t3
    ensures n > 1 ==> run[n - 2].t3 <= run[n - 1].t1
  {
    assert run[..n][..n - 1] == run[..n - 1] && run[..n][n - 1] == run[n - 1];
  }

  lemma {:induction false} SpentForever(run: seq<Use>, i: nat, n: nat)
    requires Proper(run) && i < n <= |run| && Accepted(run, i)
    ensures Spent(After(run[..n]), run[i].claim.value, run[n - 1].t3)
  {
    AfterOneMore(run, n);
    if n == i + 1 {
      SpentOnAcceptance(After(run[..i]), run[i]);
    } else {
      SpentForever(run, i, n - 1);
      StaysSpent(After(run[..n - 1]), run[n - 1], run[i].claim.value, run[n - 2].t3);
    }
  }

  // No claim is accepted twice, whatever is validated in between and however it is signed.
  lemma AcceptedAtMostOnce(run: seq<Use>, i: nat, j: nat)
    requires Proper(run) && i < j < |run| && Accepted(run, i) && run[j].claim == run[i].claim
    ensures !Accepted(run, j)
  {
    SpentForever(run, i, j);
    assert InTime(run[j]);
  }

  // Only accepted claims are remembered.
  lemma {:induction false} RememberedWasAccepted(run: seq<Use>, key: string) returns (i: nat)
    requires key in After(run)
    ensures i < |run| && Accepted(run, i) && KeyOf(run[i].claim.value) == key
  {
    var n := |run| - 1;
    if Accepted(run, n) && KeyOf(run[n].claim.value) == key {
      i := n;
    } else {
      i := RememberedWasAccepted(run[..n], key);
      assert run[..n][..i] == run[..i];
    }
  }

  // No other claim of the player carries the nonce.
  ghost predicate NonceFresh(run: seq<Use>, claim: Claim) {
    forall j :: 0 <= j < |run| && run[j].claim.Some? ==> CarriesOnly(run[j].claim.value, claim)
  }

  ghost predicate CarriesOnly(other: Claim, claim: Claim) {
    other.player == claim.player && other.nonce == claim.nonce ==> other == claim
  }

  ghost predicate PresentedBefore(run: seq<Use>, i: nat, claim: Claim)
    requires i <= |run|
  {
    exists j :: 0 <= j < i && run[j].claim == Some(claim)
  }

  // A claim with a fresh nonce is accepted the first time it is presented, and only then.
  lemma AcceptedIffFirst(run: seq<Use>, i: nat, claim: Claim)
    requires Proper(run) && i < |run| && run[i].claim == Some(claim) && NonceFresh(run, claim)
    ensures Accepted(run, i) <==> !PresentedBefore(run, i, claim)
  {
    if !Accepted(run, i) {
      var j := EarlierAcceptance(run, i, claim);
    } else if PresentedBefore(run, i, claim) {
      var j :| 0 <= j < i && run[j].claim == Some(claim);
      var first := j;
      if !Accepted(run, j) {
        first := EarlierAcceptance(run, j, claim);
      }
      AcceptedAtMostOnce(run, first, i);
    }
  }

  // Only an earlier acceptance of the same claim can refuse a genuine one.
  lemma EarlierAcceptance(run: seq<Use>, i: nat, claim: Claim) returns (j: nat)
    requires i < |run| && run[i].claim == Some(claim) && !Accepted(run, i) && NonceFresh(run, claim)
    ensures j < i && run[j].claim == Some(claim) && Accepted(run, j)
  {
    j := RememberedWasAccepted(run[..i], KeyOf(claim));
    assert run[..i][..j] == run[..j];
    KeyNamesPlayerAndNonce(run[j].claim.value, claim);
    assert CarriesOnly(run[j].claim.value, claim);
  }

  // ---- issued tokens ----

  ghost predicate Undotted(s: string) {
    forall i :: 0 <= i < |s| ==> s[i] != '.' && s[i] != ':'
  }

  lemma SignedUndotted(n: int)
    ensures Undotted(Signed(n)) && Signed(n) != ""
  {
  }

  lemma {:induction false} HexUndotted(b: Bytes)
    ensures Undotted(Hex(b))
  {
    if b == [] {
    } else {
      HexUndotted(b[1..]);
    }
  }

  lemma {:induction false} FirstPiece(a: string, rest: string)
    requires '.' !in a
    ensures Pieces(a + "." + rest) == [a] + Pieces(rest)
  {
    if a == "" {
      assert a + "." + rest == "." + rest && ("." + rest)[1..] == rest;
    } else {
      FirstPiece(a[1..], rest);
      assert (a + "." + rest)[1..] == a[1..] + "." + rest;
      assert a == [a[0]] + a[1..];
    }
  }

  lemma {:induction false} OnePiece(a: string)
    requires '.' !in a
    ensures Pieces(a) == [a]
  {
    if a == "" {
    } else {
      OnePiece(a[1..]);
      assert a == [a[0]] + a[1..];
    }
  }

  lemma SplitFour(a: string, b: string, c: string, d: string)
    requires '.' !in a && '.' !in b && '.' !in c && '.' !in d && d != ""
    ensures Split(a + "." + (b + "." + (c + "." + d))) == [a, b, c, d]
  {
    FirstPiece(a, b + "." + (c + "." + d));
    FirstPiece(b, c + "." + d);
    FirstPiece(c, d);
    OnePiece(d);
  }

  // An issued token passes the checks exactly for its own player within its time to live.
  lemma IssuedIsGenuineIff(c: Crypto, player: int32, issued: Time, nonce: Bytes, presenter: int32, now: Time)
    requires Sound(c)
    ensures Genuine(c, presenter, Some(Token(c, player, issued, nonce)), now) ==
            if presenter == player && 0 <= now - issued <= TTL_MS then Some(Claim(player, issued, Hex(nonce))) else None
  {
    var hash := c.hmac(Payload(player, issued, nonce));
    IssuedPieces(c, player, issued, nonce);
    SignedReadBack(c.digit, player);
    SignedReadBack(c.digit, issued);
    AgeIsExact(now, issued);
  }

  lemma IssuedPieces(c: Crypto, player: int32, issued: Time, nonce: Bytes)
    requires Sound(c)
    ensures Split(Token(c, player, issued, nonce)) ==
            [Signed(player), Signed(issued), Hex(nonce), c.encode(c.hmac(Payload(player, issued, nonce)))]
  {
    SignedUndotted(player);
    SignedUndotted(issued);
    HexUndotted(nonce);
    SplitFour(Signed(player), Signed(issued), Hex(nonce), c.encode(c.hmac(Payload(player, issued, nonce))));
  }

  lemma KeysDiffer(a: string, b: string, x: string, y: string)
    requires Undotted(a) && Undotted(b) && a + ":" + x == b + ":" + y
    ensures a == b && x == y
  {
    var s := a + ":" + x;
    assert s[|a|] == ':' && s[|b|] == ':';
    assert forall i :: 0 <= i < |a| ==> s[i] == a[i];
    assert forall i :: 0 <= i < |b| ==> s[i] == b[i];
    assert s[..|a|] == a && s[..|b|] == b;
    assert s[|a| + 1..] == x && s[|b| + 1..] == y;
  }

  lemma KeyNamesPlayerAndNonce(a: Claim, b: Claim)
    requires KeyOf(a) == KeyOf(b)
    ensures a.player == b.player && a.nonce == b.nonce
  {
    SignedUndotted(a.player);
    SignedUndotted(b.player);
    KeysDiffer(Signed(a.player), Signed(b.player), a.nonce, b.nonce);
    SignedReadBack(AsciiDigit(), a.player);
    SignedReadBack(AsciiDigit(), b.player);
  }

  // One call of the validation, as its caller sees it.
  datatype Attempt = Attempt(player: int32, token: Option<string>, t1: Time, t2: Time, t3: Time)

  function UseOf(c: Crypto, a: Attempt): Use {
    Use(Genuine(c, a.player, a.token, a.t1), a.t1, a.t2, a.t3)
  }

  function UsesOf(c: Crypto, run: seq<Attempt>): (uses: seq<Use>)
    ensures |uses| == |run|
  {
    seq(|run|, i requires 0 <= i < |run| => UseOf(c, run[i]))
  }

  // The promise of a one-shot token: its player can use it once, within its time to live.
  lemma IssuedTokenIsOneShot(c: Crypto, run: seq<Attempt>, i: nat, player: int32, issued: Time, nonce: Bytes)
    requires Sound(c) && Ordered(UsesOf(c, run))
    requires i < |run| && run[i].token == Some(Token(c, player, issued, nonce))
    requires NonceFresh(UsesOf(c, run), Claim(player, issued, Hex(nonce)))
    ensures Accepted(UsesOf(c, run), i) <==>
            && run[i].player == player
            && 0 <= run[i].t1 - issued <= TTL_MS
            && !PresentedBefore(UsesOf(c, run), i, Claim(player, issued, Hex(nonce)))
  {
    IssuedIsGenuineIff(c, player, issued, nonce, run[i].player, run[i].t1);
    var uses := UsesOf(c, run);
    assert forall j :: 0 <= j < |run| ==> uses[j] == UseOf(c, run[j]) && InTime(uses[j]);
    if uses[i].claim.Some? {
      AcceptedIffFirst(uses, i, Claim(player, issued, Hex(nonce)));
    }
  }

  // ---- the formats and the tests, spelled out ----

  // Player, time, nonce and the encoded hash of these, with dots between them.
  lemma TokenText(c: Crypto, player: int32, issued: Time, nonce: Bytes)
    ensures var payload := Signed(player) + "." + Signed(issued) + "." + Hex(nonce);
            Token(c, player, issued, nonce) == payload + "." + c.encode(c.hmac(payload))
  {
    Regroup(Signed(player), Signed(issued), Hex(nonce), c.encode(c.hmac(Payload(player, issued, nonce))));
  }

  function HexValue(c: char): int {
    if '0' <= c <= '9' then (c - '0') as int else if 'a' <= c <= 'f' then 10 + (c - 'a') as int else -1
  }

  // Two lower-case digits to the byte, the higher one first.
  lemma {:induction false} HexReadsBack(b: Bytes, i: nat)
    requires i < |b|
    ensures |Hex(b)| == 2 * |b|
    ensures HexValue(Hex(b)[2 * i]) >= 0 && HexValue(Hex(b)[2 * i + 1]) >= 0
    ensures 16 * HexValue(Hex(b)[2 * i]) + HexValue(Hex(b)[2 * i + 1]) == b[i] as int
  {
    HexLength(b);
    if i == 0 {
      HexDigitValue(b[0] / 16);
      HexDigitValue(b[0] % 16);
    } else {
      HexReadsBack(b[1..], i - 1);
      var later := Hex(b[1..]);
      assert Hex(b)[2 * i] == later[2 * (i - 1)] && Hex(b)[2 * i + 1] == later[2 * (i - 1) + 1];
    }
  }

  lemma {:induction false} HexLength(b: Bytes)
    ensures |Hex(b)| == 2 * |b|
  {
    if b == [] {
    } else {
      HexLength(b[1..]);
    }
  }

  lemma HexDigitValue(n: nat)
    requires n < 16
    ensures HexValue(HexDigit(n)) == n
  {
  }

  // Splitting is undone by putting the dots back, but for empty pieces at the end.
  function Dotted(pieces: seq<string>): string {
    if pieces == [] then "" else if |pieces| == 1 then pieces[0] else pieces[0] + "." + Dotted(pieces[1..])
  }

  lemma {:induction false} PiecesAreDotted(s: string)
    ensures Dotted(Pieces(s)) == s
    ensures forall i :: 0 <= i < |Pieces(s)| ==> '.' !in Pieces(s)[i]
  {
    if s == "" {
    } else {
      PiecesAreDotted(s[1..]);
      if s[0] == '.' {
        DottedAfterDot(Pieces(s[1..]));
      } else {
        DottedAfterChar(s[0], Pieces(s[1..]));
      }
    }
  }

  lemma DottedAfterDot(later: seq<string>)
    requires later != []
    ensures Dotted([""] + later) == "." + Dotted(later)
  {
    assert ([""] + later)[1..] == later;
  }

  lemma DottedAfterChar(c: char, later: seq<string>)
    requires later != []
    ensures Dotted([[c] + later[0]] + later[1..]) == [c] + Dotted(later)
  {
    var pieces := [[c] + later[0]] + later[1..];
    assert pieces[1..] == later[1..];
    if |later| > 1 {
      Regrouped([c], later[0], ".", Dotted(later[1..]));
    }
  }

  lemma Regrouped(a: string, b: string, c: string, d: string)
    ensures (a + b) + c + d == a + (b + c + d)
  {
  }

  lemma {:induction false} SplitDropsEmptyEnd(s: string)
    ensures var pieces, kept := Pieces(s), Split(s);
            && |kept| <= |pieces| && kept == pieces[..|kept|]
            && (forall i :: |kept| <= i < |pieces| ==> pieces[i] == "")
            && (kept != [] ==> kept[|kept| - 1] != "")
  {
    DropsEmptyEnd(Pieces(s));
  }

  lemma {:induction false} DropsEmptyEnd(pieces: seq<string>)
    ensures var kept := DropTrailingEmpty(pieces);
            && |kept| <= |pieces| && kept == pieces[..|kept|]
            && (forall i :: |kept| <= i < |pieces| ==> pieces[i] == "")
            && (kept != [] ==> kept[|kept| - 1] != "")
  {
    if pieces == [] || pieces[|pieces| - 1] != "" {
    } else {
      DropsEmptyEnd(pieces[..|pieces| - 1]);
    }
  }

  // A token is genuine exactly if it has four pieces, the first reads as the presenter, the
  // second as a 64-bit time at most 60000 ms ago and not ahead, and the fourth decodes to the
  // hash of the first three.
  lemma GenuineIff(c: Crypto, player: int32, token: string, now: Time)
    ensures var parts := Split(token);
            Genuine(c, player, Some(token), now).Some? <==>
            && |parts| == 4
            && ParseSigned(c.digit, parts[0]) == Some(player)
            && ParseSigned(c.digit, parts[1]).Some?
            && 0 <= now - ParseSigned(c.digit, parts[1]).value <= 60000
            && c.decode(parts[3]) == Some(c.hmac(parts[0] + "." + (parts[1] + "." + parts[2])))
    ensures Genuine(c, player, Some(token), now).Some? ==>
              var claim := Genuine(c, player, Some(token), now).value;
              && claim.player == player && claim.nonce == Split(token)[2]
              && ParseSigned(c.digit, Split(token)[1]) == Some(claim.issued)
  {
    var parts := Split(token);
    if |parts| == 4 && ParseLong(c.digit, parts[1]).Some? {
      AgeIsExact(now, ParseLong(c.digit, parts[1]).value);
    }
  }

  lemma NoTokenIsNotGenuine(c: Crypto, player: int32, now: Time)
    ensures Genuine(c, player, None, now) == None
  {
  }

  // An accepted claim is remembered under its player and nonce at the second reading of the
  // clock, and what is then older than 60000 ms by the third is forgotten; a refused one
  // changes nothing.
  lemma RememberedIff(consumed: Consumed, u: Use, k: string)
    ensures Accepts(consumed, u) <==>
            u.claim.Some? && Signed(u.claim.value.player) + ":" + u.claim.value.nonce !in consumed
    ensures !Accepts(consumed, u) ==> Validated(consumed, u) == consumed
    ensures Accepts(consumed, u) ==>
              var own := Signed(u.claim.value.player) + ":" + u.claim.value.nonce;
              && (k == own ==>
                    (k in Validated(consumed, u) <==> u.t2 >= u.t3 - 60000) &&
                    (k in Validated(consumed, u) ==> Validated(consumed, u)[k] == u.t2))
              && (k != own ==>
                    (k in Validated(consumed, u) <==> k in consumed && consumed[k] >= u.t3 - 60000) &&
                    (k in Validated(consumed, u) ==> Validated(consumed, u)[k] == consumed[k]))
  {
  }
}
