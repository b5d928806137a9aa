/**
 * The client's hand-written scanner of client_state frames: it looks each key up by
 * searching for its quoted name, and reads what follows.
 */
module Scanner {
  import opened Types
  import opened Decimal
  import opened Numerals
  import opened Frames
  import opened Json

  // ---- what each step extracts ----

  predicate StartsWith(s: string, prefix: string) {
    |prefix| <= |s| && s[..|prefix|] == prefix
  }

  function Shift(p: Option<nat>, distance: nat): Option<nat> {
    match p
    case None => None
    case Some(q) => Some(distance + q)
  }

  // The position of the first occurrence.
  function Find(s: string, needle: string): (p: Option<nat>)
    ensures p.Some? ==> p.value + |needle| <= |s|
  {
    if StartsWith(s, needle) then Some(0)
    else if s == [] then None
    else Shift(Find(s[1..], needle), 1)
  }

  // What follows the first occurrence.
  function After(s: string, needle: string): Option<string> {
    match Find(s, needle)
    case None => None
    case Some(p) => Some(s[p + |needle|..])
  }

  function DigitRun(s: string): (n: nat)
    ensures n <= |s| && forall i :: 0 <= i < n ==> IsDigit(s[i])
    ensures n < |s| ==> !IsDigit(s[n])
  {
    if s == [] || !IsDigit(s[0]) then 0 else 1 + DigitRun(s[1..])
  }

  // 64-bit accumulation wraps around.
  function WithDigit(v: uint64, d: Digit): uint64 {
    (10 * v + d) % 0x1_0000_0000_0000_0000
  }

  function Accumulate(ds: seq<Digit>): uint64 {
    if ds == [] then 0 else WithDigit(Accumulate(ds[..|ds| - 1]), ds[|ds| - 1])
  }

  function LeadingNumber(s: string): Option<uint64> {
    var n := DigitRun(s);
    if n == 0 then None else Some(Accumulate(DigitsOf(s[..n])))
  }

  function LeadingBool(s: string): Option<bool> {
    if StartsWith(s, "true") then Some(true) else if StartsWith(s, "false") then Some(false) else None
  }

  function NumberAt(s: string, k: Key): Option<uint64> {
    match After(s, Quoted(k) + ":")
    case None => None
    case Some(rest) => LeadingNumber(rest)
  }

  function BoolAt(s: string, k: Key): Option<bool> {
    match After(s, Quoted(k) + ":")
    case None => None
    case Some(rest) => LeadingBool(rest)
  }

  // The length of the text before the closing bracket that is outside any braces.
  function ArrayEnd(s: string, depth: int): (n: Option<nat>)
    ensures n.Some? ==> n.value < |s|
  {
    if s == [] then None
    else if s[0] == ']' && depth == 0 then Some(0)
    else
      Shift(ArrayEnd(s[1..], if s[0] == '{' then depth + 1 else if s[0] == '}' then depth - 1 else depth), 1)
  }

  function ArrayAt(s: string, k: Key): Option<string> {
    match After(s, Quoted(k) + ":[")
    case None => None
    case Some(rest) =>
      match ArrayEnd(rest, 0)
      case None => None
      case Some(n) => Some(rest[..n])
  }

  // The position of the first opening brace, or the length.
  function BraceStart(s: string): (n: nat)
    ensures n <= |s|
  {
    if s == [] || s[0] == '{' then 0 else 1 + BraceStart(s[1..])
  }

  // The length up to and including the brace that brings the depth back to zero.
  function BraceEnd(s: string, depth: int): (n: Option<nat>)
    ensures n.Some? ==> 0 < n.value <= |s|
  {
    if s == [] then None
    else
      var d := if s[0] == '{' then depth + 1 else if s[0] == '}' then depth - 1 else depth;
      if s[0] == '}' && d == 0 then Some(1) else Shift(BraceEnd(s[1..], d), 1)
  }

  function Narrow32(v: uint64): uint32 {
    v % 0x1_0000_0000
  }

  function Narrow8(v: uint64): uint8 {
    v % 0x100
  }

  function OrZero(v: Option<uint64>): uint64 {
    if v.Some? then v.value else 0
  }

  function OrFalse(v: Option<bool>): bool {
    v.Some? && v.value
  }

  function MemberOf(obj: string): Member {
    Member(Narrow32(OrZero(NumberAt(obj, Id))), OrFalse(BoolAt(obj, VoiceActive)), Narrow8(OrZero(NumberAt(obj, Role))),
           OrFalse(BoolAt(obj, CanSpeak)), OrFalse(BoolAt(obj, RemoteMuted)))
  }

  // The first object of a list of them, and what follows it.
  function FirstObject(body: string): (r: Option<(Member, string)>)
    ensures r.Some? ==> |r.value.1| < |body|
  {
    var text := body[BraceStart(body)..];
    match BraceEnd(text, 0)
    case None => None
    case Some(n) => Some((MemberOf(text[..n]), text[n..]))
  }

  function MembersOf(body: string): seq<Member>
    decreases |body|
  {
    match FirstObject(body)
    case None => []
    case Some((m, rest)) => (if m.id != 0 then [m] else []) + MembersOf(rest)
  }

  function RosterAt(s: string, k: Key): seq<Member> {
    match ArrayAt(s, k)
    case None => []
    case Some(body) => MembersOf(body)
  }

  // What the client stores of a frame; it does not tell a missing roster from an empty one.
  datatype Received = Received(
    role: uint8, clanId: uint32, allyId: uint32, partyId: uint64, ccId: uint32, ccLeaderId: uint32,
    ccCanSpeak: bool, clanMode: uint8, optedOut: bool,
    party: seq<Member>, clan: seq<Member>, ally: seq<Member>, cc: seq<Member>)

  function Receive(s: string): Received {
    Received(Narrow8(OrZero(NumberAt(s, Role))), Narrow32(OrZero(NumberAt(s, ClanId))),
             Narrow32(OrZero(NumberAt(s, AllyId))), OrZero(NumberAt(s, PartyId)),
             Narrow32(OrZero(NumberAt(s, CCId))), Narrow32(OrZero(NumberAt(s, CCLeaderId))),
             OrFalse(BoolAt(s, CCCanSpeak)), Narrow8(OrZero(NumberAt(s, ClanMode))), OrFalse(BoolAt(s, OptedOut)),
             RosterAt(s, PartyMembers), RosterAt(s, ClanMembers), RosterAt(s, AllyMembers), RosterAt(s, CCMembers))
  }

  // ---- the scanning loops ----

  // The library search.
  method FindFirst(s: string, needle: string) returns (p: Option<nat>)
    ensures p == Find(s, needle)
  {
    var i := 0;
    assert s[0..] == s;
    while i < |s|
      invariant i <= |s|
      invariant Find(s, needle) == Shift(Find(s[i..], needle), i)
    {
      if StartsWith(s[i..], needle) {
        return Some(i);
      }
      FindLater(s, needle, i);
      i := i + 1;
    }
    assert s[i..] == "";
    return if needle == "" then Some(i) else None;
  }

  lemma FindLater(s: string, needle: string, i: nat)
    requires i < |s| && !StartsWith(s[i..], needle)
    ensures Shift(Find(s[i..], needle), i) == Shift(Find(s[i + 1..], needle), i + 1)
  {
  }

  // The search, and the step past what was found.
  method FindAfter(s: string, needle: string) returns (rest: Option<string>)
    ensures rest == After(s, needle)
  {
    var at := FindFirst(s, needle);
    rest := if at.None? then None else Some(s[at.value + |needle|..]);
  }

  method ExtractNumber(s: string, k: Key) returns (v: Option<uint64>)
    ensures v == NumberAt(s, k)
  {
    var rest := FindAfter(s, Quoted(k) + ":");
    if rest.None? {
      return None;
    }
    v := ReadNumber(rest.value);
  }

  method ReadNumber(rest: string) returns (v: Option<uint64>)
    ensures v == LeadingNumber(rest)
  {
    var n, value: uint64 := 0, 0;
    assert rest[0..] == rest;
    while n < |rest| && IsDigit(rest[n])
      invariant n <= |rest| && forall i :: 0 <= i < n ==> IsDigit(rest[i])
      invariant DigitRun(rest) == n + DigitRun(rest[n..])
      invariant value == Accumulate(DigitsOf(rest[..n]))
    {
      AnotherDigit(rest, n);
      value := WithDigit(value, DigitOf(rest[n]));
      n := n + 1;
    }
    v := if n == 0 then None else Some(value);
  }

  lemma AnotherDigit(rest: string, n: nat)
    requires n < |rest| && forall i :: 0 <= i <= n ==> IsDigit(rest[i])
    ensures DigitRun(rest[n..]) == 1 + DigitRun(rest[n + 1..])
    ensures Accumulate(DigitsOf(rest[..n + 1])) == WithDigit(Accumulate(DigitsOf(rest[..n])), DigitOf(rest[n]))
  {
    assert rest[n..][1..] == rest[n + 1..];
    assert DigitsOf(rest[..n + 1])[..n] == DigitsOf(rest[..n]);
  }

  method ExtractBool(s: string, k: Key) returns (v: Option<bool>)
    ensures v == BoolAt(s, k)
  {
    var rest := FindAfter(s, Quoted(k) + ":");
    if rest.None? {
      return None;
    }
    v := LeadingBool(rest.value);
  }

  method ExtractArrayBody(s: string, k: Key) returns (body: Option<string>)
    ensures body == ArrayAt(s, k)
  {
    var rest := FindAfter(s, Quoted(k) + ":[");
    if rest.None? {
      return None;
    }
    var end := MatchBracket(rest.value);
    body := if end.None? then None else Some(rest.value[..end.value]);
  }

  method MatchBracket(s: string) returns (n: Option<nat>)
    ensures n == ArrayEnd(s, 0)
  {
    var i, depth := 0, 0;
    assert s[0..] == s;
    while i < |s|
      invariant i <= |s|
      invariant ArrayEnd(s, 0) == Shift(ArrayEnd(s[i..], depth), i)
    {
      assert s[i..][0] == s[i] && s[i..][1..] == s[i + 1..];
      if s[i] == '{' {
        depth := depth + 1;
      } else if s[i] == '}' {
        depth := depth - 1;
      } else if s[i] == ']' && depth == 0 {
        return Some(i);
      }
      i := i + 1;
    }
    return None;
  }

  // One member object from a position on: the member and the position after its brace.
  method ParseMemberObject(body: string, from: nat) returns (r: Option<(Member, nat)>)
    requires from <= |body|
    ensures r.None? <==> FirstObject(body[from..]).None?
    ensures r.Some? ==> from < r.value.1 <= |body| &&
                        FirstObject(body[from..]) == Some((r.value.0, body[r.value.1..]))
  {
    var start := SkipToBrace(body, from);
    assert body[from..][BraceStart(body[from..])..] == body[start..];
    var n := MatchBrace(body[start..]);
    if n.None? {
      return None;
    }
    var m := ParseMember(body[start..][..n.value]);
    assert body[start..][n.value..] == body[start + n.value..];
    r := Some((m, start + n.value));
  }

  method SkipToBrace(body: string, from: nat) returns (start: nat)
    requires from <= |body|
    ensures start == from + BraceStart(body[from..])
  {
    start := from;
    while start < |body| && body[start] != '{'
      invariant from <= start <= |body|
      invariant from + BraceStart(body[from..]) == start + BraceStart(body[start..])
    {
      assert body[start..][0] == body[start] && body[start..][1..] == body[start + 1..];
      start := start + 1;
    }
  }

  method MatchBrace(s: string) returns (n: Option<nat>)
    ensures n == BraceEnd(s, 0)
  {
    var i, depth := 0, 0;
    assert s[0..] == s;
    while i < |s|
      invariant i <= |s|
      invariant BraceEnd(s, 0) == Shift(BraceEnd(s[i..], depth), i)
    {
      assert s[i..][0] == s[i] && s[i..][1..] == s[i + 1..];
      if s[i] == '{' {
        depth := depth + 1;
      } else if s[i] == '}' {
        depth := depth - 1;
        if depth == 0 {
          return Some(i + 1);
        }
      }
      i := i + 1;
    }
    return None;
  }

  method ParseMember(obj: string) returns (m: Member)
    ensures m == MemberOf(obj)
  {
    var id := ExtractNumber(obj, Id);
    var voice := ExtractBool(obj, VoiceActive);
    var role := ExtractNumber(obj, Role);
    var speak := ExtractBool(obj, CanSpeak);
    var muted := ExtractBool(obj, RemoteMuted);
    m := Member(Narrow32(OrZero(id)), OrFalse(voice), Narrow8(OrZero(role)), OrFalse(speak), OrFalse(muted));
  }

  method ParseMemberArray(s: string, k: Key) returns (out: seq<Member>)
    ensures out == RosterAt(s, k)
  {
    out := [];
    var body := ExtractArrayBody(s, k);
    if body.None? {
      return;
    }
    out := ParseMembers(body.value);
  }

  method ParseMembers(text: string) returns (out: seq<Member>)
    ensures out == MembersOf(text)
  {
    out := [];
    var pos := 0;
    ghost var later := MembersOf(text);
    assert text[0..] == text;
    while pos < |text|
      invariant pos <= |text|
      invariant later == MembersOf(text[pos..]) && out + later == MembersOf(text)
      decreases |text| - pos
    {
      var next := ParseMemberObject(text, pos);
      if next.None? {
        NoMoreMembers(text[pos..]);
        assert out + [] == out;
        return;
      }
      OneMoreMember(text[pos..], next.value.0, text[next.value.1..]);
      later := MembersOf(text[next.value.1..]);
      Reassociate(out, if next.value.0.id != 0 then [next.value.0] else [], later);
      if next.value.0.id != 0 {
        out := out + [next.value.0];
      } else {
        assert out + [] == out;
      }
      pos := next.value.1;
    }
    NoMoreMembers(text[pos..]);
    assert out + [] == out;
  }

  lemma Reassociate(a: seq<Member>, b: seq<Member>, c: seq<Member>)
    ensures a + (b + c) == (a + b) + c
  {
  }

  lemma NoMoreMembers(body: string)
    requires body == "" || FirstObject(body).None?
    ensures MembersOf(body) == []
  {
  }

  lemma OneMoreMember(body: string, m: Member, rest: string)
    requires FirstObject(body) == Some((m, rest))
    ensures MembersOf(body) == (if m.id != 0 then [m] else []) + MembersOf(rest)
  {
  }

  method HandleClientState(s: string) returns (r: Received)
    ensures r == Receive(s)
  {
    var role := ExtractNumber(s, Role);
    var clan := ExtractNumber(s, ClanId);
    var ally := ExtractNumber(s, AllyId);
    var party := ExtractNumber(s, PartyId);
    var cc := ExtractNumber(s, CCId);
    var ccLeader := ExtractNumber(s, CCLeaderId);
    var ccCanSpeak := ExtractBool(s, CCCanSpeak);
    var mode := ExtractNumber(s, ClanMode);
    var optedOut := ExtractBool(s, OptedOut);
    var partyMembers := ParseMemberArray(s, PartyMembers);
    var clanMembers := ParseMemberArray(s, ClanMembers);
    var allyMembers := ParseMemberArray(s, AllyMembers);
    var ccMembers := ParseMemberArray(s, CCMembers);
    r := Received(Narrow8(OrZero(role)), Narrow32(OrZero(clan)), Narrow32(OrZero(ally)), OrZero(party),
                  Narrow32(OrZero(cc)), Narrow32(OrZero(ccLeader)), OrFalse(ccCanSpeak), Narrow8(OrZero(mode)),
                  OrFalse(optedOut), partyMembers, clanMembers, allyMembers, ccMembers);
  }
}
