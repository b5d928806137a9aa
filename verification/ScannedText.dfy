/**
 * What the client stores of any text at all, printed by the server or not, in terms of the
 * text's characters; and what the server prints.
 */
module ScannedText {
  import opened Types
  import opened Decimal
  import opened Numerals
  import opened Frames
  import opened Json
  import opened Scanner

  // ---- where a search ends ----

  ghost predicate OccursAt(s: string, needle: string, p: int) {
    0 <= p && p + |needle| <= |s| && s[p..p + |needle|] == needle
  }

  ghost predicate FirstAt(s: string, needle: string, p: int) {
    OccursAt(s, needle, p) && forall q :: 0 <= q < p ==> !OccursAt(s, needle, q)
  }

  // The place after the first occurrence.
  ghost predicate FirstEndsAt(s: string, needle: string, at: int) {
    FirstAt(s, needle, at - |needle|)
  }

  ghost predicate Absent(s: string, needle: string) {
    forall q :: !OccursAt(s, needle, q)
  }

  lemma {:induction false} FindIsFirst(s: string, needle: string)
    ensures Find(s, needle).Some? ==> FirstAt(s, needle, Find(s, needle).value)
    ensures Find(s, needle).None? ==> Absent(s, needle)
  {
    assert OccursAt(s, needle, 0) <==> StartsWith(s, needle);
    if StartsWith(s, needle) || s == [] {
    } else {
      FindIsFirst(s[1..], needle);
      forall q | q > 0
        ensures OccursAt(s, needle, q) <==> OccursAt(s[1..], needle, q - 1)
      {
        if q + |needle| <= |s| {
          assert s[1..][q - 1..q - 1 + |needle|] == s[q..q + |needle|];
        }
      }
    }
  }

  // ---- numbers ----

  // From p on, n digits and then none.
  ghost predicate DigitsFrom(s: string, p: nat, n: nat) {
    && p + n <= |s| && AllDigits(s[p..p + n]) && (p + n < |s| ==> !IsDigit(s[p + n]))
  }

  // The digits after the first occurrence of the words, if any, as a 64-bit number.
  ghost predicate NumberAfter(s: string, needle: string, v: nat) {
    || (v == 0 && Absent(s, needle))
    || exists at: nat, n: nat :: FirstEndsAt(s, needle, at) && DigitsFrom(s, at, n) &&
                                 v == ValueOf(DigitsOf(s[at..at + n])) % 0x1_0000_0000_0000_0000
  }

  lemma {:induction false} AccumulateWraps(ds: seq<Digit>)
    ensures Accumulate(ds) == ValueOf(ds) % 0x1_0000_0000_0000_0000
  {
    if ds == [] {
    } else {
      AccumulateWraps(ds[..|ds| - 1]);
      WithDigitWraps(ValueOf(ds[..|ds| - 1]), ds[|ds| - 1]);
    }
  }

  lemma WithDigitWraps(v: nat, d: Digit)
    ensures WithDigit(v % 0x1_0000_0000_0000_0000, d) == (10 * v + d) % 0x1_0000_0000_0000_0000
  {
    var laps, r := v / 0x1_0000_0000_0000_0000, v % 0x1_0000_0000_0000_0000;
    MultipleVanishes(10 * laps, 10 * r + d);
    assert 10 * v + d == 0x1_0000_0000_0000_0000 * (10 * laps) + (10 * r + d);
  }

  lemma MultipleVanishes(k: nat, x: nat)
    ensures (0x1_0000_0000_0000_0000 * k + x) % 0x1_0000_0000_0000_0000 == x % 0x1_0000_0000_0000_0000
  {
  }

  lemma NumberIsAfter(s: string, k: Key)
    ensures NumberAfter(s, Quoted(k) + ":", OrZero(NumberAt(s, k)))
  {
    FoundNumberIsAfter(s, Quoted(k) + ":");
  }

  lemma FoundNumberIsAfter(s: string, needle: string)
    ensures var v := match After(s, needle) case None => None case Some(rest) => LeadingNumber(rest);
            NumberAfter(s, needle, OrZero(v))
  {
    FindIsFirst(s, needle);
    match Find(s, needle) {
      case None => AbsentIsZero(s, needle);
      case Some(p) =>
        assert After(s, needle) == Some(s[p + |needle|..]);
        DigitsAreAfter(s, needle, p + |needle|);
    }
  }

  lemma AbsentIsZero(s: string, needle: string)
    requires Absent(s, needle)
    ensures NumberAfter(s, needle, 0)
  {
  }

  lemma DigitsAreAfter(s: string, needle: string, at: nat)
    requires at <= |s| && FirstEndsAt(s, needle, at)
    ensures NumberAfter(s, needle, OrZero(LeadingNumber(s[at..])))
  {
    var rest := s[at..];
    var n := DigitRun(rest);
    assert rest[..n] == s[at..at + n] && forall i :: 0 <= i < n ==> s[at..at + n][i] == rest[i];
    assert n < |rest| ==> rest[n] == s[at + n];
    assert DigitsFrom(s, at, n);
    AccumulateWraps(DigitsOf(rest[..n]));
    if n == 0 {
      assert DigitsOf(s[at..at + n]) == [];
    }
  }

  // A number is found if and only if a digit follows.
  lemma NumberFoundIff(s: string, k: Key)
    ensures NumberAt(s, k).Some? <==> DigitAfter(s, Quoted(k) + ":")
  {
    FoundNumberIff(s, Quoted(k) + ":");
  }

  ghost predicate DigitAfter(s: string, needle: string) {
    exists at: nat :: FirstEndsAt(s, needle, at) && at < |s| && IsDigit(s[at])
  }

  lemma FoundNumberIff(s: string, needle: string)
    ensures (match After(s, needle) case None => false case Some(rest) => LeadingNumber(rest).Some?) <==>
            DigitAfter(s, needle)
  {
    FindIsFirst(s, needle);
    match Find(s, needle) {
      case None =>
        forall at
          ensures !FirstEndsAt(s, needle, at)
        {
          assert !OccursAt(s, needle, at - |needle|);
        }
      case Some(p) =>
        var at := p + |needle|;
        assert FirstEndsAt(s, needle, at);
        assert LeadingNumber(s[at..]).Some? <==> at < |s| && IsDigit(s[at]);
        if q: nat :| FirstEndsAt(s, needle, q) && q < |s| && IsDigit(s[q]) {
          OnlyOneFirst(s, needle, at, q);
        }
    }
  }

  // ---- truth values ----

  // The word that follows the first occurrence.
  ghost predicate WordAfter(s: string, needle: string, word: string) {
    exists at :: FirstEndsAt(s, needle, at) && OccursAt(s, word, at)
  }

  ghost predicate TrueAfter(s: string, needle: string) {
    WordAfter(s, needle, "true")
  }

  lemma TrueIsAfterIff(s: string, k: Key)
    ensures OrFalse(BoolAt(s, k)) <==> TrueAfter(s, Quoted(k) + ":")
  {
    FlagIsAfterIff(s, k);
  }

  // A flag is found if and only if true or false follows.
  lemma FlagIsAfterIff(s: string, k: Key)
    ensures BoolAt(s, k) == Some(true) <==> WordAfter(s, Quoted(k) + ":", "true")
    ensures BoolAt(s, k) == Some(false) <==> WordAfter(s, Quoted(k) + ":", "false")
  {
    FoundFlagIsAfterIff(s, Quoted(k) + ":");
  }

  lemma FoundFlagIsAfterIff(s: string, needle: string)
    ensures var v := match After(s, needle) case None => None case Some(rest) => LeadingBool(rest);
            && (v == Some(true) <==> WordAfter(s, needle, "true"))
            && (v == Some(false) <==> WordAfter(s, needle, "false"))
  {
    WordAfterIff(s, needle, "true");
    WordAfterIff(s, needle, "false");
    match After(s, needle) {
      case None =>
      case Some(rest) => OneWordLeads(rest);
    }
  }

  lemma WordAfterIff(s: string, needle: string, word: string)
    ensures (match After(s, needle) case None => false case Some(rest) => StartsWith(rest, word)) <==>
            WordAfter(s, needle, word)
  {
    FindIsFirst(s, needle);
    match Find(s, needle) {
      case None => AbsentHasNoWord(s, needle, word);
      case Some(p) => WordFollowsIff(s, needle, p + |needle|, word);
    }
  }

  lemma OneWordLeads(rest: string)
    ensures !(StartsWith(rest, "true") && StartsWith(rest, "false"))
  {
    assert StartsWith(rest, "true") ==> rest[0] == rest[..4][0] == 't';
    assert StartsWith(rest, "false") ==> rest[0] == rest[..5][0] == 'f';
  }

  lemma AbsentHasNoWord(s: string, needle: string, word: string)
    requires Absent(s, needle)
    ensures !WordAfter(s, needle, word)
  {
    forall at
      ensures !FirstEndsAt(s, needle, at)
    {
      assert !OccursAt(s, needle, at - |needle|);
    }
  }

  lemma WordFollowsIff(s: string, needle: string, at: nat, word: string)
    requires at <= |s| && FirstEndsAt(s, needle, at)
    ensures StartsWith(s[at..], word) <==> WordAfter(s, needle, word)
  {
    if at + |word| <= |s| {
      assert s[at..][..|word|] == s[at..at + |word|];
    }
    assert StartsWith(s[at..], word) <==> OccursAt(s, word, at);
    if q :| FirstEndsAt(s, needle, q) && OccursAt(s, word, q) {
      OnlyOneFirst(s, needle, at, q);
    }
  }

  lemma OnlyOneFirst(s: string, needle: string, a: int, b: int)
    requires FirstEndsAt(s, needle, a) && FirstEndsAt(s, needle, b)
    ensures a == b
  {
    assert OccursAt(s, needle, a - |needle|) && OccursAt(s, needle, b - |needle|);
  }

  // ---- the fields of a frame ----

  // Each field is what follows its name, cut to the field's width, and zero or false without it.
  lemma ReceivedFields(s: string)
    ensures var r := Receive(s);
            && (exists v: nat :: NumberAfter(s, "\"role\":", v) && r.role == v % 0x100)
            && (exists v: nat :: NumberAfter(s, "\"clan_id\":", v) && r.clanId == v % 0x1_0000_0000)
            && (exists v: nat :: NumberAfter(s, "\"ally_id\":", v) && r.allyId == v % 0x1_0000_0000)
            && NumberAfter(s, "\"party_id\":", r.partyId)
            && (exists v: nat :: NumberAfter(s, "\"cc_id\":", v) && r.ccId == v % 0x1_0000_0000)
            && (exists v: nat :: NumberAfter(s, "\"cc_leader_id\":", v) && r.ccLeaderId == v % 0x1_0000_0000)
            && (exists v: nat :: NumberAfter(s, "\"clan_mode\":", v) && r.clanMode == v % 0x100)
    ensures var r := Receive(s);
            && (r.ccCanSpeak <==> TrueAfter(s, "\"cc_can_speak\":"))
            && (r.optedOut <==> TrueAfter(s, "\"opted_out\":"))
  {
    FrameNames();
    MoreFrameNames();
    NumberIsAfter(s, Role);
    NumberIsAfter(s, ClanId);
    NumberIsAfter(s, AllyId);
    NumberIsAfter(s, PartyId);
    NumberIsAfter(s, CCId);
    NumberIsAfter(s, CCLeaderId);
    NumberIsAfter(s, ClanMode);
    TrueIsAfterIff(s, CCCanSpeak);
    TrueIsAfterIff(s, OptedOut);
  }

  lemma MemberFieldsRead(obj: string)
    ensures var m := MemberOf(obj);
            && (exists v: nat :: NumberAfter(obj, "\"id\":", v) && m.id == v % 0x1_0000_0000)
            && (exists v: nat :: NumberAfter(obj, "\"role\":", v) && m.role == v % 0x100)
            && (m.voiceActive <==> TrueAfter(obj, "\"voice_active\":"))
            && (m.canSpeak <==> TrueAfter(obj, "\"can_speak\":"))
            && (m.remoteMuted <==> TrueAfter(obj, "\"remote_muted\":"))
  {
    MemberNames();
    NumberIsAfter(obj, Id);
    NumberIsAfter(obj, Role);
    TrueIsAfterIff(obj, VoiceActive);
    TrueIsAfterIff(obj, CanSpeak);
    TrueIsAfterIff(obj, RemoteMuted);
  }

  lemma FrameNames()
    ensures Quoted(Role) + ":" == "\"role\":" && Quoted(ClanId) + ":" == "\"clan_id\":"
    ensures Quoted(AllyId) + ":" == "\"ally_id\":" && Quoted(PartyId) + ":" == "\"party_id\":"
    ensures Quoted(OptedOut) + ":" == "\"opted_out\":"
  {
  }

  lemma MoreFrameNames()
    ensures Quoted(CCId) + ":" == "\"cc_id\":" && Quoted(CCLeaderId) + ":" == "\"cc_leader_id\":"
    ensures Quoted(CCCanSpeak) + ":" == "\"cc_can_speak\":" && Quoted(ClanMode) + ":" == "\"clan_mode\":"
  {
  }

  lemma MemberNames()
    ensures Quoted(Id) + ":" == "\"id\":" && Quoted(Role) + ":" == "\"role\":"
    ensures Quoted(VoiceActive) + ":" == "\"voice_active\":" && Quoted(CanSpeak) + ":" == "\"can_speak\":"
    ensures Quoted(RemoteMuted) + ":" == "\"remote_muted\":"
  {
  }

  lemma RosterNames()
    ensures Quoted(PartyMembers) + ":[" == "\"party_members\":[" && Quoted(ClanMembers) + ":[" == "\"clan_members\":["
  {
  }

  lemma MoreRosterNames()
    ensures Quoted(AllyMembers) + ":[" == "\"ally_members\":[" && Quoted(CCMembers) + ":[" == "\"cc_members\":["
  {
  }

  // ---- rosters ----

  // Opening less closing braces.
  function Depth(s: string): int {
    if s == [] then 0 else (if s[0] == '{' then 1 else if s[0] == '}' then -1 else 0) + Depth(s[1..])
  }

  ghost predicate ClosesListAt(s: string, depth: int, n: int) {
    0 <= n < |s| && s[n] == ']' && depth + Depth(s[..n]) == 0
  }

  lemma {:induction false} ArrayEndIsFirst(s: string, depth: int)
    ensures ArrayEnd(s, depth).Some? ==> ClosesListAt(s, depth, ArrayEnd(s, depth).value) &&
                                         forall m :: m < ArrayEnd(s, depth).value ==> !ClosesListAt(s, depth, m)
    ensures ArrayEnd(s, depth).None? ==> forall m :: !ClosesListAt(s, depth, m)
  {
    if s == [] {
    } else {
      var d := if s[0] == '{' then depth + 1 else if s[0] == '}' then depth - 1 else depth;
      assert ClosesListAt(s, depth, 0) <==> s[0] == ']' && depth == 0;
      ArrayEndIsFirst(s[1..], d);
      forall m | m > 0
        ensures ClosesListAt(s, depth, m) <==> ClosesListAt(s[1..], d, m - 1)
      {
        if m < |s| {
          assert s[..m][1..] == s[1..][..m - 1];
        }
      }
    }
  }

  ghost predicate ClosesObjectAt(s: string, depth: int, n: int) {
    0 < n <= |s| && s[n - 1] == '}' && depth + Depth(s[..n]) == 0
  }

  lemma {:induction false} BraceEndIsFirst(s: string, depth: int)
    ensures BraceEnd(s, depth).Some? ==> ClosesObjectAt(s, depth, BraceEnd(s, depth).value) &&
                                         forall m :: m < BraceEnd(s, depth).value ==> !ClosesObjectAt(s, depth, m)
    ensures BraceEnd(s, depth).None? ==> forall m :: !ClosesObjectAt(s, depth, m)
  {
    if s == [] {
    } else {
      var d := if s[0] == '{' then depth + 1 else if s[0] == '}' then depth - 1 else depth;
      assert s[..1] == [s[0]] && Depth(s[..1]) == d - depth;
      BraceEndIsFirst(s[1..], d);
      forall m | m > 1
        ensures ClosesObjectAt(s, depth, m) <==> ClosesObjectAt(s[1..], d, m - 1)
      {
        if m <= |s| {
          assert s[..m][1..] == s[1..][..m - 1];
        }
      }
    }
  }

  // The text from the first occurrence of the words to the first bracket that closes it, if any.
  ghost predicate ListAfter(s: string, needle: string, body: Option<string>) {
    match body
    case Some(b) =>
      exists at: nat :: FirstEndsAt(s, needle, at) && at + |b| <= |s| && b == s[at..at + |b|] &&
                        ClosesListAt(s[at..], 0, |b|) && forall m :: m < |b| ==> !ClosesListAt(s[at..], 0, m)
    case None =>
      Absent(s, needle) ||
      exists at: nat :: at <= |s| && FirstEndsAt(s, needle, at) && forall m :: !ClosesListAt(s[at..], 0, m)
  }

  lemma ListIsAfter(s: string, k: Key)
    ensures ListAfter(s, Quoted(k) + ":[", ArrayAt(s, k))
  {
    FoundListIsAfter(s, Quoted(k) + ":[");
  }

  lemma FoundListIsAfter(s: string, needle: string)
    ensures var body := match After(s, needle)
                        case None => None
                        case Some(rest) =>
                          if ArrayEnd(rest, 0).Some? then Some(rest[..ArrayEnd(rest, 0).value]) else None;
            ListAfter(s, needle, body)
  {
    FindIsFirst(s, needle);
    match Find(s, needle) {
      case None =>
      case Some(p) =>
        var at := p + |needle|;
        var rest := s[at..];
        ArrayEndIsFirst(rest, 0);
        assert FirstEndsAt(s, needle, at);
        if ArrayEnd(rest, 0).Some? {
          var n := ArrayEnd(rest, 0).value;
          assert rest[..n] == s[at..at + n];
        }
    }
  }

  ghost predicate RosterAfter(s: string, needle: string, ms: seq<Frames.Member>) {
    exists body :: ListAfter(s, needle, body) && ms == if body.Some? then MembersOf(body.value) else []
  }

  lemma ReceivedRosters(s: string)
    ensures var r := Receive(s);
            && RosterAfter(s, "\"party_members\":[", r.party) && RosterAfter(s, "\"clan_members\":[", r.clan)
            && RosterAfter(s, "\"ally_members\":[", r.ally) && RosterAfter(s, "\"cc_members\":[", r.cc)
  {
    RosterNames();
    MoreRosterNames();
    ListIsAfter(s, PartyMembers);
    ListIsAfter(s, ClanMembers);
    ListIsAfter(s, AllyMembers);
    ListIsAfter(s, CCMembers);
  }

  lemma {:induction false} BraceStartIsFirst(s: string)
    ensures BraceStart(s) < |s| ==> s[BraceStart(s)] == '{'
    ensures forall i :: 0 <= i < BraceStart(s) ==> s[i] != '{'
  {
    if s == [] || s[0] == '{' {
    } else {
      BraceStartIsFirst(s[1..]);
      assert forall i :: 0 < i < |s| ==> s[i] == s[1..][i - 1];
    }
  }

  // The first object: from the first opening brace to the first brace that closes it.
  ghost predicate ObjectAt(body: string, start: nat, end: nat) {
    && start < end <= |body| && body[start] == '{' && (forall i :: 0 <= i < start ==> body[i] != '{')
    && ClosesObjectAt(body[start..], 0, end - start)
    && forall m :: m < end - start ==> !ClosesObjectAt(body[start..], 0, m)
  }

  lemma FirstObjectIs(body: string)
    ensures FirstObject(body).Some? ==>
              exists start: nat, end: nat :: ObjectAt(body, start, end) &&
                FirstObject(body).value == (MemberOf(body[start..end]), body[end..])
    ensures FirstObject(body).None? ==> forall start: nat, end: nat :: !ObjectAt(body, start, end)
  {
    var start := BraceStart(body);
    var text := body[start..];
    BraceStartIsFirst(body);
    BraceEndIsFirst(text, 0);
    match BraceEnd(text, 0) {
      case Some(n) =>
        assert text[..n] == body[start..start + n] && text[n..] == body[start + n..];
        assert ObjectAt(body, start, start + n);
      case None =>
        forall a: nat, b: nat
          ensures !ObjectAt(body, a, b)
        {
          if ObjectAt(body, a, b) {
            ObjectIsFound(body, a, b);
          }
        }
    }
  }

  lemma ObjectIsFound(body: string, start: nat, end: nat)
    requires ObjectAt(body, start, end)
    ensures start == BraceStart(body) && BraceEnd(body[BraceStart(body)..], 0).Some?
  {
    BraceStartIsFirst(body);
    assert start == BraceStart(body);
    BraceEndIsFirst(body[start..], 0);
    assert ClosesObjectAt(body[start..], 0, end - start);
  }

  // Only objects with an identifier make it into a roster.
  lemma {:induction false} MembersHaveIds(body: string)
    ensures forall m :: m in MembersOf(body) ==> m.id != 0
    decreases |body|
  {
    match FirstObject(body) {
      case None =>
      case Some((first, rest)) => MembersHaveIds(rest);
    }
  }

  // ---- what the server prints ----

  lemma FrameBegins(f: Frame)
    ensures var head := "{\"type\":\"client_state\"," + FieldText(Field(Role, Number(f.role))) + ",";
            |head| <= |FrameText(f)| && FrameText(f)[..|head|] == head
  {
    var head, fields := "{" + Quoted(Type) + ":" + Quoted(ClientState) + ",", ScalarFields(f);
    HeadPrinted();
    FieldsBegin(fields);
    BeginsWithBoth(head, FieldText(fields[0]), JoinFields(fields[1..]), RostersText(f));
  }

  lemma HeadPrinted()
    ensures "{" + Quoted(Type) + ":" + Quoted(ClientState) + "," == "{\"type\":\"client_state\","
  {
  }

  lemma FieldsBegin(fields: seq<Field>)
    requires |fields| > 1
    ensures JoinFields(fields) == FieldText(fields[0]) + "," + JoinFields(fields[1..])
  {
  }

  lemma BeginsWithBoth(a: string, b: string, c: string, d: string)
    ensures var s := a + (b + "," + c) + "," + d; |s| >= |a + b + ","| && s[..|a + b + ","|] == a + b + ","
  {
  }

  // A member with nothing but its id.
  lemma PlainMemberPrinted()
    ensures MemberText(Frames.Member(7, false, 0, false, false)) == "{\"id\":" + Number(7) + ",\"voice_active\":false}"
  {
    var fields := MemberFields(Frames.Member(7, false, 0, false, false));
    var id, voice := Field(Id, Number(7)), Field(VoiceActive, Bool(false));
    assert fields == [id, voice] && fields[1..] == [voice];
    FieldsBegin(fields);
    assert JoinFields([voice]) == FieldText(voice);
    PlainFieldsPrinted(Number(7));
  }

  lemma PlainFieldsPrinted(n: string)
    ensures "{" + (FieldText(Field(Id, n)) + "," + FieldText(Field(VoiceActive, "false"))) + "}" ==
            "{\"id\":" + n + ",\"voice_active\":false}"
  {
    MemberNames();
  }

  // What is zero or false of rank, right to speak and mute is left out.
  lemma OmittedIff(m: Frames.Member)
    ensures |MemberFields(m)| ==
            2 + (if m.role != 0 then 1 else 0) + (if m.canSpeak then 1 else 0) + (if m.remoteMuted then 1 else 0)
  {
  }
}
