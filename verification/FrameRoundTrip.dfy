/** The client's scanner recovers every frame the server prints. */
module FrameRoundTrip {
  import opened Types
  import opened Frames
  import opened Numerals
  import opened Json
  import opened Scanner
  import opened KeySearch
  import opened MemberRoundTrip

  // ---- the text of a frame as quoted words ----

  function ListChunks(ms: seq<Member>, end: string): seq<Chunk>
    requires ms != []
  {
    if |ms| == 1 then FieldChunks(MemberFields(ms[0]), "}" + end)
    else FieldChunks(MemberFields(ms[0]), "},{") + ListChunks(ms[1..], end)
  }

  function RosterChunks(k: Key, r: Roster, end: string): seq<Chunk> {
    match r
    case None => [Chunk(k, ":null" + end)]
    case Some(ms) =>
      if ms == [] then [Chunk(k, ":[]" + end)] else [Chunk(k, ":[{")] + ListChunks(ms, "]" + end)
  }

  function RostersChunks(f: Frame): seq<Chunk> {
    RosterChunks(PartyMembers, f.party, ",") + (RosterChunks(ClanMembers, f.clan, ",") +
    (RosterChunks(AllyMembers, f.ally, ",") + RosterChunks(CCMembers, f.cc, "}")))
  }

  const PREAMBLE := [Chunk(Type, ":"), Chunk(ClientState, ",")]

  function FrameChunks(f: Frame): seq<Chunk> {
    PREAMBLE + (FieldChunks(ScalarFields(f), ",") + RostersChunks(f))
  }

  lemma {:induction false} FlatJoin(a: seq<Chunk>, b: seq<Chunk>)
    ensures Flat(a + b) == Flat(a) + Flat(b)
  {
    if a == [] {
      assert a + b == b;
    } else {
      assert (a + b)[1..] == a[1..] + b;
      FlatJoin(a[1..], b);
    }
  }

  lemma {:induction false} ListFlat(ms: seq<Member>, end: string)
    requires ms != []
    ensures "{" + Flat(ListChunks(ms, end)) == JoinMembers(ms) + end
  {
    var fields := MemberFields(ms[0]);
    if |ms| == 1 {
      FieldChunksFlat(fields, "}" + end);
      Braced(JoinFields(fields), "", end);
    } else {
      FieldChunksFlat(fields, "},{");
      FlatJoin(FieldChunks(fields, "},{"), ListChunks(ms[1..], end));
      ListFlat(ms[1..], end);
      Reassociated(JoinFields(fields), Flat(ListChunks(ms[1..], end)), JoinMembers(ms[1..]), end);
    }
  }

  lemma Braced(fields: string, more: string, end: string)
    ensures "{" + (fields + ("}" + more + end)) == ("{" + fields + "}") + more + end
  {
  }

  lemma Reassociated(fields: string, flat: string, list: string, end: string)
    requires "{" + flat == list + end
    ensures "{" + (fields + "},{" + flat) == ("{" + fields + "}" + ("," + list)) + end
  {
    calc {
      "{" + (fields + "},{" + flat);
      "{" + fields + "}," + ("{" + flat);
      "{" + fields + "}," + (list + end);
      ("{" + fields + "}" + ("," + list)) + end;
    }
  }

  lemma RosterFlat(k: Key, r: Roster, end: string)
    ensures Flat(RosterChunks(k, r, end)) == Quoted(k) + ":" + RosterText(r) + end
  {
    var cs := RosterChunks(k, r, end);
    match r {
      case None =>
        OneChunk(k, ":null" + end);
        assert ":null" + end == ":" + "null" + end;
        assert Quoted(k) + (":" + "null" + end) == Quoted(k) + ":" + "null" + end;
      case Some(ms) =>
        if ms == [] {
          OneChunk(k, ":[]" + end);
          assert Quoted(k) + (":[]" + end) == Quoted(k) + ":" + ("[" + "" + "]") + end;
        } else {
          ListFlat(ms, "]" + end);
          assert cs[1..] == ListChunks(ms, "]" + end);
          Bracketed(Quoted(k), Flat(ListChunks(ms, "]" + end)), JoinMembers(ms), end);
        }
    }
  }

  lemma OneChunk(k: Key, junk: string)
    ensures Flat([Chunk(k, junk)]) == Quoted(k) + junk
  {
  }

  lemma Bracketed(quoted: string, flat: string, list: string, end: string)
    requires "{" + flat == list + ("]" + end)
    ensures quoted + ":[{" + flat == quoted + ":" + ("[" + list + "]") + end
  {
    calc {
      quoted + ":[{" + flat;
      quoted + ":[" + ("{" + flat);
      quoted + ":[" + (list + ("]" + end));
      quoted + ":" + ("[" + list + "]") + end;
    }
  }

  lemma RostersFlat(f: Frame)
    ensures Flat(RostersChunks(f)) == RostersText(f)
  {
    var a, b := RosterChunks(PartyMembers, f.party, ","), RosterChunks(ClanMembers, f.clan, ",");
    var c, d := RosterChunks(AllyMembers, f.ally, ","), RosterChunks(CCMembers, f.cc, "}");
    RosterFlat(PartyMembers, f.party, ",");
    RosterFlat(ClanMembers, f.clan, ",");
    RosterFlat(AllyMembers, f.ally, ",");
    RosterFlat(CCMembers, f.cc, "}");
    FlatJoin(c, d);
    FlatJoin(b, c + d);
    FlatJoin(a, b + (c + d));
  }

  lemma FrameFlat(f: Frame)
    ensures FrameText(f) == "{" + Flat(FrameChunks(f))
  {
    var scalars, rosters := FieldChunks(ScalarFields(f), ","), RostersChunks(f);
    RostersFlat(f);
    FieldChunksFlat(ScalarFields(f), ",");
    FlatJoin(scalars, rosters);
    FlatJoin(PREAMBLE, scalars + rosters);
    PreambleFlat();
    FramePieces(Quoted(Type), Quoted(ClientState), JoinFields(ScalarFields(f)), RostersText(f));
  }

  lemma PreambleFlat()
    ensures Flat(PREAMBLE) == Quoted(Type) + ":" + (Quoted(ClientState) + ",")
  {
  }

  lemma FramePieces(a: string, b: string, scalars: string, rosters: string)
    ensures "{" + a + ":" + b + "," + scalars + "," + rosters ==
            "{" + (a + ":" + (b + ",") + (scalars + "," + rosters))
  {
  }

  // ---- the words of rosters ----

  // Only member keys are used inside a roster.
  ghost predicate MemberKeysOnly(cs: seq<Chunk>) {
    forall i :: 0 <= i < |cs| ==> Rank(cs[i].key) <= 4
  }

  lemma MemberObject(m: Member, tail: string)
    requires '"' !in tail
    ensures AllTidy(FieldChunks(MemberFields(m), tail)) && MemberKeysOnly(FieldChunks(MemberFields(m), tail))
  {
    var fields := MemberFields(m);
    MemberFieldFacts(m);
    FieldChunksTidy(fields, tail);
    FieldChunksKeys(fields, tail);
    forall i | 0 <= i < |fields|
      ensures Rank(fields[i].key) <= 4
    {
      assert fields[i] in fields;
    }
  }

  lemma {:induction false} ListWords(ms: seq<Member>, end: string)
    requires ms != [] && '"' !in end
    ensures AllTidy(ListChunks(ms, end)) && MemberKeysOnly(ListChunks(ms, end))
  {
    if |ms| == 1 {
      MemberObject(ms[0], "}" + end);
    } else {
      MemberObject(ms[0], "},{");
      ListWords(ms[1..], end);
    }
  }

  lemma RosterWords(k: Key, r: Roster, end: string)
    requires end == "," || end == "}"
    ensures AllTidy(RosterChunks(k, r, end))
    ensures RosterChunks(k, r, end) != [] && RosterChunks(k, r, end)[0].key == k
    ensures MemberKeysOnly(RosterChunks(k, r, end)[1..])
  {
    if r.Some? && r.value != [] {
      ListWords(r.value, "]" + end);
    }
  }

  lemma OtherRosterLacks(k: Key, r: Roster, end: string, other: Key)
    requires (end == "," || end == "}") && Rank(other) > 4 && k != other
    ensures AllTidy(RosterChunks(k, r, end)) && Lacks(RosterChunks(k, r, end), other)
  {
    var cs := RosterChunks(k, r, end);
    RosterWords(k, r, end);
    forall i | 0 <= i < |cs|
      ensures cs[i].key != other
    {
      assert i > 0 ==> cs[i] == cs[1..][i - 1];
    }
  }

  // ---- every value is read back ----

  function OrEmpty(r: Roster): seq<Member> {
    match r
    case None => []
    case Some(ms) => ms
  }

  // The words from the roster on: a search for its key and bracket lands in its list.
  lemma RosterFound(k: Key, r: Roster, end: string, later: seq<Chunk>)
    requires (end == "," || end == "}") && Rank(k) > 4 && Lacks(later, k)
    ensures r.None? ==> RestAt(RosterChunks(k, r, end) + later, k, ":[") == None
    ensures r.Some? ==> RestAt(RosterChunks(k, r, end) + later, k, ":[") ==
                        Some(JoinMembers(r.value) + ("]" + end + Flat(later)))
  {
    var cs := RosterChunks(k, r, end);
    match r {
      case None =>
        assert (cs + later)[1..] == later;
        Differs(":null" + end, ":[", 1);
        RestAtLacking(later, [], k, ":[");
        assert later + [] == later;
      case Some(ms) =>
        Agrees(cs[0].junk, ":[");
        if ms == [] {
          assert (cs + later)[1..] == later;
          assert (":[]" + end)[2..] == "]" + end;
          assert JoinMembers(ms) + ("]" + end + Flat(later)) == "]" + end + Flat(later);
        } else {
          var list := ListChunks(ms, "]" + end);
          assert (cs + later)[1..] == list + later;
          FlatJoin(list, later);
          ListFlat(ms, "]" + end);
          assert ":[{"[2..] == "{";
          Opened(Flat(list), Flat(later), JoinMembers(ms), "]" + end);
        }
    }
  }

  lemma Opened(flat: string, later: string, list: string, end: string)
    requires "{" + flat == list + end
    ensures "{" + (flat + later) == list + (end + later)
  {
    calc {
      "{" + (flat + later);
      ("{" + flat) + later;
      list + (end + later);
    }
  }

  lemma RosterLocated(before: seq<Chunk>, k: Key, r: Roster, end: string, later: seq<Chunk>)
    requires (end == "," || end == "}") && Rank(k) > 4 && Lacks(before, k) && Lacks(later, k)
    requires AllTidy(before) && AllTidy(later)
    ensures RosterAt("{" + Flat(before + (RosterChunks(k, r, end) + later)), k) == Named(OrEmpty(r))
  {
    var cs := RosterChunks(k, r, end) + later;
    RosterWords(k, r, end);
    AfterInObject(before + cs, k, ":[");
    RestAtLacking(before, cs, k, ":[");
    RosterFound(k, r, end, later);
    if r.Some? {
      var list, rest := JoinMembers(r.value), "]" + end + Flat(later);
      ListEnd(r.value, rest);
      assert (list + rest)[..|list|] == list;
      MembersReadBack(r.value);
    }
  }

  lemma ScalarFieldsPlain(f: Frame)
    ensures PlainFields(ScalarFields(f))
  {
    NumberPlain(f.role);
    NumberPlain(f.clanId);
    NumberPlain(f.allyId);
    NumberPlain(f.partyId);
    NumberPlain(f.ccId);
    NumberPlain(f.ccLeaderId);
    NumberPlain(f.clanMode);
    BoolPlain(f.ccCanSpeak);
    BoolPlain(f.optedOut);
  }

  lemma ScalarFieldsRanked(f: Frame)
    ensures Ranked(ScalarFields(f)) && forall i :: 0 <= i < 9 ==> Rank(ScalarFields(f)[i].key) <= 12
  {
    var ranks := [2, 5, 6, 7, 8, 9, 10, 11, 12];
    assert forall i :: 0 <= i < 9 ==> Rank(ScalarFields(f)[i].key) == ranks[i];
  }

  lemma ScalarFieldFacts(f: Frame)
    ensures Ranked(ScalarFields(f)) && PlainFields(ScalarFields(f))
    ensures forall i :: 0 <= i < |ScalarFields(f)| ==> Rank(ScalarFields(f)[i].key) <= 12
  {
    ScalarFieldsPlain(f);
    ScalarFieldsRanked(f);
  }

  lemma RostersTidy(f: Frame)
    ensures AllTidy(RostersChunks(f))
  {
    RosterWords(PartyMembers, f.party, ",");
    RosterWords(ClanMembers, f.clan, ",");
    RosterWords(AllyMembers, f.ally, ",");
    RosterWords(CCMembers, f.cc, "}");
  }

  lemma ScalarNumber(f: Frame, k: Key, n: nat)
    requires Field(k, Number(n)) in ScalarFields(f) && n < 0x1_0000_0000_0000_0000
    ensures NumberAt(FrameText(f), k) == Some(n)
  {
    FrameFlat(f);
    ScalarFieldFacts(f);
    RostersTidy(f);
    var i :| 0 <= i < |ScalarFields(f)| && ScalarFields(f)[i] == Field(k, Number(n));
    NumberLocated(PREAMBLE, ScalarFields(f), ",", RostersChunks(f), k, n);
  }

  lemma ScalarBool(f: Frame, k: Key, b: bool)
    requires Field(k, Bool(b)) in ScalarFields(f)
    ensures BoolAt(FrameText(f), k) == Some(b)
  {
    FrameFlat(f);
    ScalarFieldFacts(f);
    RostersTidy(f);
    var i :| 0 <= i < |ScalarFields(f)| && ScalarFields(f)[i] == Field(k, Bool(b));
    BoolLocated(PREAMBLE, ScalarFields(f), ",", RostersChunks(f), k, b);
  }

  // The words before the rosters name none of them.
  lemma ScalarsLack(f: Frame, k: Key)
    requires 13 <= Rank(k) <= 16
    ensures AllTidy(PREAMBLE + FieldChunks(ScalarFields(f), ","))
    ensures Lacks(PREAMBLE + FieldChunks(ScalarFields(f), ","), k)
  {
    ScalarFieldFacts(f);
    FieldChunksTidy(ScalarFields(f), ",");
    FieldChunksKeys(ScalarFields(f), ",");
  }

  lemma LacksJoin(a: seq<Chunk>, b: seq<Chunk>, k: Key)
    requires Lacks(a, k) && Lacks(b, k) && AllTidy(a) && AllTidy(b)
    ensures Lacks(a + b, k) && AllTidy(a + b)
  {
  }

  // The words of the four rosters, the first three followed by a comma.
  lemma Regroup(s: seq<Chunk>, a: seq<Chunk>, b: seq<Chunk>, c: seq<Chunk>, d: seq<Chunk>)
    ensures s + (a + (b + (c + d))) == (s + a) + (b + (c + d))
    ensures s + (a + (b + (c + d))) == ((s + a) + b) + (c + d)
    ensures s + (a + (b + (c + d))) == (((s + a) + b) + c) + (d + [])
  {
  }

  lemma FrameWords(f: Frame)
    ensures FrameText(f) == "{" + Flat(
              (PREAMBLE + FieldChunks(ScalarFields(f), ",")) +
              (RosterChunks(PartyMembers, f.party, ",") + (RosterChunks(ClanMembers, f.clan, ",") +
               (RosterChunks(AllyMembers, f.ally, ",") + RosterChunks(CCMembers, f.cc, "}")))))
  {
    FrameFlat(f);
    assert FrameChunks(f) == (PREAMBLE + FieldChunks(ScalarFields(f), ",")) + RostersChunks(f);
  }

  lemma PartyReadBack(f: Frame)
    ensures RosterAt(FrameText(f), PartyMembers) == Named(OrEmpty(f.party))
  {
    var s := PREAMBLE + FieldChunks(ScalarFields(f), ",");
    var b, c := RosterChunks(ClanMembers, f.clan, ","), RosterChunks(AllyMembers, f.ally, ",");
    var d := RosterChunks(CCMembers, f.cc, "}");
    FrameWords(f);
    ScalarsLack(f, PartyMembers);
    OtherRosterLacks(ClanMembers, f.clan, ",", PartyMembers);
    OtherRosterLacks(AllyMembers, f.ally, ",", PartyMembers);
    OtherRosterLacks(CCMembers, f.cc, "}", PartyMembers);
    LacksJoin(c, d, PartyMembers);
    LacksJoin(b, c + d, PartyMembers);
    RosterLocated(s, PartyMembers, f.party, ",", b + (c + d));
  }

  lemma ClanReadBack(f: Frame)
    ensures RosterAt(FrameText(f), ClanMembers) == Named(OrEmpty(f.clan))
  {
    var s, a := PREAMBLE + FieldChunks(ScalarFields(f), ","), RosterChunks(PartyMembers, f.party, ",");
    var c, d := RosterChunks(AllyMembers, f.ally, ","), RosterChunks(CCMembers, f.cc, "}");
    FrameWords(f);
    ScalarsLack(f, ClanMembers);
    OtherRosterLacks(PartyMembers, f.party, ",", ClanMembers);
    OtherRosterLacks(AllyMembers, f.ally, ",", ClanMembers);
    OtherRosterLacks(CCMembers, f.cc, "}", ClanMembers);
    LacksJoin(s, a, ClanMembers);
    LacksJoin(c, d, ClanMembers);
    RosterLocated(s + a, ClanMembers, f.clan, ",", c + d);
    Regroup(s, a, RosterChunks(ClanMembers, f.clan, ","), c, d);
  }

  lemma AllyReadBack(f: Frame)
    ensures RosterAt(FrameText(f), AllyMembers) == Named(OrEmpty(f.ally))
  {
    var s, a := PREAMBLE + FieldChunks(ScalarFields(f), ","), RosterChunks(PartyMembers, f.party, ",");
    var b, d := RosterChunks(ClanMembers, f.clan, ","), RosterChunks(CCMembers, f.cc, "}");
    FrameWords(f);
    ScalarsLack(f, AllyMembers);
    OtherRosterLacks(PartyMembers, f.party, ",", AllyMembers);
    OtherRosterLacks(ClanMembers, f.clan, ",", AllyMembers);
    OtherRosterLacks(CCMembers, f.cc, "}", AllyMembers);
    LacksJoin(s, a, AllyMembers);
    LacksJoin(s + a, b, AllyMembers);
    RosterLocated((s + a) + b, AllyMembers, f.ally, ",", d);
    Regroup(s, a, b, RosterChunks(AllyMembers, f.ally, ","), d);
  }

  lemma CCReadBack(f: Frame)
    ensures RosterAt(FrameText(f), CCMembers) == Named(OrEmpty(f.cc))
  {
    var s, a := PREAMBLE + FieldChunks(ScalarFields(f), ","), RosterChunks(PartyMembers, f.party, ",");
    var b, c := RosterChunks(ClanMembers, f.clan, ","), RosterChunks(AllyMembers, f.ally, ",");
    FrameWords(f);
    ScalarsLack(f, CCMembers);
    OtherRosterLacks(PartyMembers, f.party, ",", CCMembers);
    OtherRosterLacks(ClanMembers, f.clan, ",", CCMembers);
    OtherRosterLacks(AllyMembers, f.ally, ",", CCMembers);
    LacksJoin(s, a, CCMembers);
    LacksJoin(s + a, b, CCMembers);
    LacksJoin((s + a) + b, c, CCMembers);
    RosterLocated(((s + a) + b) + c, CCMembers, f.cc, "}", []);
    Regroup(s, a, b, c, RosterChunks(CCMembers, f.cc, "}"));
  }

  // What a client can receive of a frame.
  function Sent(f: Frame): Received {
    Received(f.role, f.clanId, f.allyId, f.partyId, f.ccId, f.ccLeaderId, f.ccCanSpeak, f.clanMode, f.optedOut,
             Named(OrEmpty(f.party)), Named(OrEmpty(f.clan)), Named(OrEmpty(f.ally)), Named(OrEmpty(f.cc)))
  }

  // Every field comes through, and all four rosters but for members without an id.
  lemma FrameReadBack(f: Frame)
    ensures Receive(FrameText(f)) == Sent(f)
  {
    ScalarsReadBack(f);
    PartyReadBack(f);
    ClanReadBack(f);
    AllyReadBack(f);
    CCReadBack(f);
  }

  lemma ScalarsReadBack(f: Frame)
    ensures Receive(FrameText(f)).(party := [], clan := [], ally := [], cc := []) ==
            Sent(f).(party := [], clan := [], ally := [], cc := [])
  {
    var s := FrameText(f);
    ScalarNumber(f, Role, f.role);
    ScalarNumber(f, ClanId, f.clanId);
    ScalarNumber(f, AllyId, f.allyId);
    ScalarNumber(f, PartyId, f.partyId);
    ScalarNumber(f, CCId, f.ccId);
    ScalarNumber(f, CCLeaderId, f.ccLeaderId);
    ScalarBool(f, CCCanSpeak, f.ccCanSpeak);
    ScalarNumber(f, ClanMode, f.clanMode);
    ScalarBool(f, OptedOut, f.optedOut);
    NoNarrowing(NumberAt(s, Role));
    NoNarrowing(NumberAt(s, ClanId));
    NoNarrowing(NumberAt(s, AllyId));
    NoNarrowing(NumberAt(s, CCId));
    NoNarrowing(NumberAt(s, CCLeaderId));
    NoNarrowing(NumberAt(s, ClanMode));
  }
}
