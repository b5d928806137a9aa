/** The client's scanner recovers every list of members the server prints. */
module MemberRoundTrip {
  import opened Types
  import opened Frames
  import opened Numerals
  import opened Json
  import opened Scanner
  import opened KeySearch

  // ---- a member object ----

  function Rank(k: Key): nat {
    match k
    case Id => 0 case VoiceActive => 1 case Role => 2 case CanSpeak => 3 case RemoteMuted => 4
    case ClanId => 5 case AllyId => 6 case PartyId => 7 case CCId => 8 case CCLeaderId => 9 case CCCanSpeak => 10
    case ClanMode => 11 case OptedOut => 12 case PartyMembers => 13 case ClanMembers => 14 case AllyMembers => 15
    case CCMembers => 16 case Type => 17 case ClientState => 18
  }

  ghost predicate Ranked(fields: seq<Field>) {
    forall i, j :: 0 <= i < j < |fields| ==> Rank(fields[i].key) < Rank(fields[j].key)
  }

  // In the order of the declaration, and none after the rank.
  ghost predicate Upto(fields: seq<Field>, rank: nat) {
    Ranked(fields) && PlainFields(fields) && forall f :: f in fields ==> Rank(f.key) <= rank
  }

  ghost predicate LacksField(fields: seq<Field>, k: Key) {
    forall f :: f in fields ==> f.key != k
  }

  // One more, possibly omitted, field.
  lemma Extend(fields: seq<Field>, present: bool, f: Field, rank: nat)
    requires Upto(fields, rank) && rank < Rank(f.key) && PlainText(f.value)
    ensures Upto(fields + OmitEmpty(present, f), Rank(f.key))
    ensures if present then f in fields + OmitEmpty(present, f) else LacksField(fields + OmitEmpty(present, f), f.key)
    ensures forall g :: g in fields ==> g in fields + OmitEmpty(present, f)
    ensures forall k :: k != f.key && LacksField(fields, k) ==> LacksField(fields + OmitEmpty(present, f), k)
  {
  }

  lemma MemberFieldFacts(m: Member)
    ensures MemberFields(m) != [] && Upto(MemberFields(m), 4)
    ensures Field(Id, Number(m.id)) in MemberFields(m) && Field(VoiceActive, Bool(m.voiceActive)) in MemberFields(m)
    ensures if m.role != 0 then Field(Role, Number(m.role)) in MemberFields(m) else LacksField(MemberFields(m), Role)
    ensures if m.canSpeak then Field(CanSpeak, Bool(true)) in MemberFields(m)
            else LacksField(MemberFields(m), CanSpeak)
    ensures if m.remoteMuted then Field(RemoteMuted, Bool(true)) in MemberFields(m)
            else LacksField(MemberFields(m), RemoteMuted)
  {
    NumberPlain(m.id);
    NumberPlain(m.role);
    BoolPlain(m.voiceActive);
    BoolPlain(true);
    FiveFields(Field(Id, Number(m.id)), Field(VoiceActive, Bool(m.voiceActive)), m.role != 0,
               Field(Role, Number(m.role)), m.canSpeak, Field(CanSpeak, Bool(true)), m.remoteMuted,
               Field(RemoteMuted, Bool(true)));
  }

  lemma FiveFields(a: Field, b: Field, third: bool, c: Field, fourth: bool, d: Field, fifth: bool, e: Field)
    requires PlainFields([a, b, c, d, e])
    requires a.key == Id && b.key == VoiceActive && c.key == Role && d.key == CanSpeak && e.key == RemoteMuted
    ensures var fs := [a, b] + OmitEmpty(third, c) + OmitEmpty(fourth, d) + OmitEmpty(fifth, e);
            && Upto(fs, 4) && a in fs && b in fs
            && (if third then c in fs else LacksField(fs, c.key))
            && (if fourth then d in fs else LacksField(fs, d.key))
            && (if fifth then e in fs else LacksField(fs, e.key))
  {
    var all := [a, b, c, d, e];
    assert PlainText(all[0].value) && PlainText(all[1].value) && PlainText(all[2].value);
    assert PlainText(all[3].value) && PlainText(all[4].value);
    var f1 := [a, b];
    assert f1[0] == a && f1[1] == b;
    var f2 := f1 + OmitEmpty(third, c);
    var f3 := f2 + OmitEmpty(fourth, d);
    Extend(f1, third, c, 1);
    Extend(f2, fourth, d, 2);
    Extend(f3, fifth, e, 3);
  }

  // The value read for a key of plain fields, with words before and after them.
  lemma FieldLocated(before: seq<Chunk>, fields: seq<Field>, tail: string, later: seq<Chunk>, f: Field)
    returns (t: string)
    requires Ranked(fields) && PlainFields(fields) && Ends(tail) && '"' !in tail && f in fields
    requires AllTidy(before) && AllTidy(later) && Lacks(before, f.key)
    ensures After("{" + Flat(before + (FieldChunks(fields, tail) + later)), Quoted(f.key) + ":") == Some(f.value + t)
    ensures Ends(t)
  {
    FieldChunksTidy(fields, tail);
    AfterInObject(before + (FieldChunks(fields, tail) + later), f.key, ":");
    RestAtLacking(before, FieldChunks(fields, tail) + later, f.key, ":");
    var i :| 0 <= i < |fields| && fields[i] == f;
    t := FieldFound(fields, tail, later, i);
  }

  lemma NumberLocated(before: seq<Chunk>, fields: seq<Field>, tail: string, later: seq<Chunk>, k: Key, n: nat)
    requires Ranked(fields) && PlainFields(fields) && Ends(tail) && '"' !in tail && Field(k, Number(n)) in fields
    requires AllTidy(before) && AllTidy(later) && Lacks(before, k) && n < 0x1_0000_0000_0000_0000
    ensures NumberAt("{" + Flat(before + (FieldChunks(fields, tail) + later)), k) == Some(n)
  {
    var t := FieldLocated(before, fields, tail, later, Field(k, Number(n)));
    NumberReadBack(n, t);
  }

  lemma BoolLocated(before: seq<Chunk>, fields: seq<Field>, tail: string, later: seq<Chunk>, k: Key, b: bool)
    requires Ranked(fields) && PlainFields(fields) && Ends(tail) && '"' !in tail && Field(k, Bool(b)) in fields
    requires AllTidy(before) && AllTidy(later) && Lacks(before, k)
    ensures BoolAt("{" + Flat(before + (FieldChunks(fields, tail) + later)), k) == Some(b)
  {
    var t := FieldLocated(before, fields, tail, later, Field(k, Bool(b)));
    BoolReadBack(b, t);
  }

  lemma FieldMissing(fields: seq<Field>, tail: string, k: Key)
    requires PlainFields(fields) && '"' !in tail
    requires LacksField(fields, k)
    ensures NumberAt("{" + Flat(FieldChunks(fields, tail)), k) == None
    ensures BoolAt("{" + Flat(FieldChunks(fields, tail)), k) == None
  {
    var cs := FieldChunks(fields, tail);
    FieldChunksTidy(fields, tail);
    AfterInObject(cs, k, ":");
    FieldChunksKeys(fields, tail);
    RestAtLacking(cs, [], k, ":");
    assert cs + [] == cs;
  }

  lemma MemberChunks(m: Member)
    ensures MemberText(m) == "{" + Flat(FieldChunks(MemberFields(m), "}"))
  {
    FieldChunksFlat(MemberFields(m), "}");
    assert "{" + JoinFields(MemberFields(m)) + "}" == "{" + (JoinFields(MemberFields(m)) + "}");
  }

  lemma MemberNumber(m: Member, k: Key, n: nat)
    requires Field(k, Number(n)) in MemberFields(m) && n < 0x1_0000_0000_0000_0000
    ensures NumberAt(MemberText(m), k) == Some(n)
  {
    MemberChunks(m);
    MemberFieldFacts(m);
    var cs := FieldChunks(MemberFields(m), "}");
    NumberLocated([], MemberFields(m), "}", [], k, n);
    assert [] + (cs + []) == cs;
  }

  lemma MemberBool(m: Member, k: Key, b: bool)
    requires Field(k, Bool(b)) in MemberFields(m)
    ensures BoolAt(MemberText(m), k) == Some(b)
  {
    MemberChunks(m);
    MemberFieldFacts(m);
    var cs := FieldChunks(MemberFields(m), "}");
    BoolLocated([], MemberFields(m), "}", [], k, b);
    assert [] + (cs + []) == cs;
  }

  lemma NoNarrowing(v: Option<uint64>)
    ensures OrZero(v) < 0x1_0000_0000 ==> Narrow32(OrZero(v)) == OrZero(v)
    ensures OrZero(v) < 0x100 ==> Narrow8(OrZero(v)) == OrZero(v)
  {
  }

  lemma IdReadBack(m: Member)
    ensures Narrow32(OrZero(NumberAt(MemberText(m), Id))) == m.id
  {
    MemberFieldFacts(m);
    MemberNumber(m, Id, m.id);
    NoNarrowing(NumberAt(MemberText(m), Id));
  }

  lemma RoleReadBack(m: Member)
    ensures Narrow8(OrZero(NumberAt(MemberText(m), Role))) == m.role
  {
    MemberFieldFacts(m);
    if m.role != 0 {
      MemberNumber(m, Role, m.role);
    } else {
      MemberChunks(m);
      FieldMissing(MemberFields(m), "}", Role);
    }
    NoNarrowing(NumberAt(MemberText(m), Role));
  }

  lemma FlagReadBack(m: Member, k: Key, b: bool)
    requires (k, b) in [(VoiceActive, m.voiceActive), (CanSpeak, m.canSpeak), (RemoteMuted, m.remoteMuted)]
    ensures OrFalse(BoolAt(MemberText(m), k)) == b
  {
    MemberFieldFacts(m);
    if b || k == VoiceActive {
      MemberBool(m, k, b);
    } else {
      MemberChunks(m);
      FieldMissing(MemberFields(m), "}", k);
    }
  }

  // Omitted fields read back as their zero values.
  lemma MemberReadBack(m: Member)
    ensures MemberOf(MemberText(m)) == m
  {
    IdReadBack(m);
    RoleReadBack(m);
    FlagReadBack(m, VoiceActive, m.voiceActive);
    FlagReadBack(m, CanSpeak, m.canSpeak);
    FlagReadBack(m, RemoteMuted, m.remoteMuted);
  }

  // ---- braces and brackets match ----

  lemma ShiftTwice(p: Option<nat>, a: nat, b: nat)
    ensures Shift(Shift(p, a), b) == Shift(p, a + b)
  {
  }

  lemma {:induction false} ArrayEndSkips(s: string, t: string, depth: int)
    requires NoBrackets(s)
    ensures ArrayEnd(s + t, depth) == Shift(ArrayEnd(t, depth), |s|)
  {
    if s == [] {
      assert s + t == t;
    } else {
      assert (s + t)[1..] == s[1..] + t && (s + t)[0] == s[0];
      ArrayEndSkips(s[1..], t, depth);
    }
  }

  lemma {:induction false} BraceEndSkips(s: string, t: string, depth: int)
    requires NoBrackets(s)
    ensures BraceEnd(s + t, depth) == Shift(BraceEnd(t, depth), |s|)
  {
    if s == [] {
      assert s + t == t;
    } else {
      assert (s + t)[1..] == s[1..] + t && (s + t)[0] == s[0];
      BraceEndSkips(s[1..], t, depth);
    }
  }

  lemma {:induction false} JoinFieldsNoBrackets(fields: seq<Field>)
    requires PlainFields(fields)
    ensures NoBrackets(JoinFields(fields))
  {
    if fields == [] {
    } else {
      NoBracketsInName(fields[0].key);
      JoinFieldsNoBrackets(fields[1..]);
    }
  }

  // The text of an object is skipped as a whole, and is exactly what its braces enclose.
  lemma MemberSkipped(m: Member, t: string)
    ensures ArrayEnd(MemberText(m) + t, 0) == Shift(ArrayEnd(t, 0), |MemberText(m)|)
    ensures BraceEnd(MemberText(m) + t, 0) == Some(|MemberText(m)|)
  {
    MemberFieldFacts(m);
    JoinFieldsNoBrackets(MemberFields(m));
    ObjectSkipped(JoinFields(MemberFields(m)), t);
  }

  lemma ObjectSkipped(fields: string, t: string)
    requires NoBrackets(fields)
    ensures ArrayEnd("{" + fields + "}" + t, 0) == Shift(ArrayEnd(t, 0), |fields| + 2)
    ensures BraceEnd("{" + fields + "}" + t, 0) == Some(|fields| + 2)
  {
    var s := "{" + fields + "}" + t;
    assert s[1..] == fields + ("}" + t) && ("}" + t)[1..] == t;
    ArrayEndSkips(fields, "}" + t, 1);
    BraceEndSkips(fields, "}" + t, 1);
    ShiftTwice(ArrayEnd(t, 0), 1, |fields|);
    ShiftTwice(ArrayEnd(t, 0), |fields| + 1, 1);
  }

  lemma CommaSkipped(s: string, t: string)
    ensures ArrayEnd("," + s + t, 0) == Shift(ArrayEnd(s + t, 0), 1)
  {
    ArrayEndSkips(",", s + t, 0);
    assert "," + (s + t) == "," + s + t;
  }

  // The closing bracket of a list of objects is found.
  lemma {:induction false} ListEnd(ms: seq<Member>, t: string)
    requires t != "" && t[0] == ']'
    ensures ArrayEnd(JoinMembers(ms) + t, 0) == Some(|JoinMembers(ms)|)
    decreases |ms|, 0
  {
    if ms == [] {
      assert "" + t == t;
    } else {
      OthersEnd(ms[1..], t);
      ObjectThenRest(ms[0], Others(ms[1..]), t);
    }
  }

  lemma ObjectThenRest(m: Member, others: string, t: string)
    requires ArrayEnd(others + t, 0) == Some(|others|)
    ensures ArrayEnd(MemberText(m) + others + t, 0) == Some(|MemberText(m) + others|)
  {
    MemberSkipped(m, others + t);
    assert MemberText(m) + (others + t) == MemberText(m) + others + t;
  }

  lemma {:induction false} OthersEnd(ms: seq<Member>, t: string)
    requires t != "" && t[0] == ']'
    ensures ArrayEnd(Others(ms) + t, 0) == Some(|Others(ms)|)
    decreases |ms|, 1
  {
    if ms == [] {
      assert "" + t == t;
    } else {
      ListEnd(ms, t);
      CommaSkipped(JoinMembers(ms), t);
    }
  }

  // ---- a list of objects ----

  lemma FirstMemberReadBack(sep: string, m: Member, rest: string)
    requires sep == "" || sep == ","
    ensures FirstObject(sep + (MemberText(m) + rest)) == Some((m, rest))
  {
    var body, text := sep + (MemberText(m) + rest), MemberText(m) + rest;
    assert text[0] == '{';
    assert body[|sep|..] == text;
    assert sep == "," ==> body[0] == ',' && body[1..] == text;
    assert BraceStart(text) == 0;
    assert BraceStart(body) == |sep|;
    MemberSkipped(m, rest);
    assert text[..|MemberText(m)|] == MemberText(m) && text[|MemberText(m)|..] == rest;
    MemberReadBack(m);
  }

  lemma NextMember(sep: string, m: Member, rest: string)
    requires sep == "" || sep == ","
    ensures MembersOf(sep + (MemberText(m) + rest)) == OneNamed(m) + MembersOf(rest)
  {
    FirstMemberReadBack(sep, m, rest);
    OneMoreMember(sep + (MemberText(m) + rest), m, rest);
  }

  lemma NothingToRead()
    ensures MembersOf("") == []
  {
  }

  // The client drops members whose id is zero.
  function Named(ms: seq<Member>): seq<Member> {
    if ms == [] then [] else OneNamed(ms[0]) + Named(ms[1..])
  }

  function OneNamed(m: Member): seq<Member> {
    if m.id != 0 then [m] else []
  }

  lemma {:induction false} NamedKeepsAllIff(ms: seq<Member>)
    ensures |Named(ms)| <= |ms|
    ensures Named(ms) == ms <==> forall i :: 0 <= i < |ms| ==> ms[i].id != 0
  {
    if ms == [] {
    } else {
      NamedKeepsAllIff(ms[1..]);
      assert ms == [ms[0]] + ms[1..];
    }
  }

  lemma {:induction false} MembersReadBack(ms: seq<Member>)
    ensures MembersOf(JoinMembers(ms)) == Named(ms) && MembersOf(Others(ms)) == Named(ms)
  {
    NothingToRead();
    if ms == [] {
    } else {
      MembersReadBack(ms[1..]);
      NextMember("", ms[0], Others(ms[1..]));
      NextMember(",", ms[0], Others(ms[1..]));
      assert "" + JoinMembers(ms) == JoinMembers(ms);
    }
  }
}
