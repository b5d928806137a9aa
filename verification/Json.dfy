/**
 * The text of a client_state frame, as the server's JSON encoder prints it: fields in
 * declaration order, omitted when marked so and empty, a nil slice as null.
 */
module Json {
  import opened Numerals
  import opened Frames

  // Every quoted word of the text.
  datatype Key =
    | Type | ClientState | Role | ClanId | AllyId | PartyId | CCId | CCLeaderId | CCCanSpeak | ClanMode | OptedOut
    | PartyMembers | ClanMembers | AllyMembers | CCMembers
    | Id | VoiceActive | CanSpeak | RemoteMuted

  function NameOf(k: Key): string {
    match k
    case Type => "type"
    case ClientState => "client_state"
    case Role => "role"
    case ClanId => "clan_id"
    case AllyId => "ally_id"
    case PartyId => "party_id"
    case CCId => "cc_id"
    case CCLeaderId => "cc_leader_id"
    case CCCanSpeak => "cc_can_speak"
    case ClanMode => "clan_mode"
    case OptedOut => "opted_out"
    case PartyMembers => "party_members"
    case ClanMembers => "clan_members"
    case AllyMembers => "ally_members"
    case CCMembers => "cc_members"
    case Id => "id"
    case VoiceActive => "voice_active"
    case CanSpeak => "can_speak"
    case RemoteMuted => "remote_muted"
  }

  function Quoted(k: Key): string {
    "\"" + NameOf(k) + "\""
  }

  function Bool(b: bool): string {
    if b then "true" else "false"
  }

  // ---- objects of plain fields ----

  // The value is text without quotes, braces or brackets.
  datatype Field = Field(key: Key, value: string)

  function FieldText(f: Field): string {
    Quoted(f.key) + ":" + f.value
  }

  function JoinFields(fields: seq<Field>): string {
    if fields == [] then ""
    else if |fields| == 1 then FieldText(fields[0])
    else FieldText(fields[0]) + "," + JoinFields(fields[1..])
  }

  function OmitEmpty(present: bool, f: Field): seq<Field> {
    if present then [f] else []
  }

  function MemberFields(m: Member): seq<Field> {
    [Field(Id, Number(m.id)), Field(VoiceActive, Bool(m.voiceActive))] +
    OmitEmpty(m.role != 0, Field(Role, Number(m.role))) +
    OmitEmpty(m.canSpeak, Field(CanSpeak, Bool(true))) +
    OmitEmpty(m.remoteMuted, Field(RemoteMuted, Bool(true)))
  }

  function MemberText(m: Member): string {
    "{" + JoinFields(MemberFields(m)) + "}"
  }

  function JoinMembers(ms: seq<Member>): string
    decreases |ms|, 0
  {
    if ms == [] then "" else MemberText(ms[0]) + Others(ms[1..])
  }

  function Others(ms: seq<Member>): string
    decreases |ms|, 1
  {
    if ms == [] then "" else "," + JoinMembers(ms)
  }

  function RosterText(r: Roster): string {
    match r
    case None => "null"
    case Some(ms) => "[" + JoinMembers(ms) + "]"
  }

  // ---- the frame ----

  function ScalarFields(f: Frame): seq<Field> {
    [Field(Role, Number(f.role)), Field(ClanId, Number(f.clanId)), Field(AllyId, Number(f.allyId)),
     Field(PartyId, Number(f.partyId)), Field(CCId, Number(f.ccId)), Field(CCLeaderId, Number(f.ccLeaderId)),
     Field(CCCanSpeak, Bool(f.ccCanSpeak)), Field(ClanMode, Number(f.clanMode)), Field(OptedOut, Bool(f.optedOut))]
  }

  function FrameText(f: Frame): string {
    "{" + Quoted(Type) + ":" + Quoted(ClientState) + "," + JoinFields(ScalarFields(f)) + "," + RostersText(f)
  }

  // The rosters, which close the object.
  function RostersText(f: Frame): string {
    (Quoted(PartyMembers) + ":" + RosterText(f.party) + ",") + ((Quoted(ClanMembers) + ":" + RosterText(f.clan) + ",") +
    ((Quoted(AllyMembers) + ":" + RosterText(f.ally) + ",") + (Quoted(CCMembers) + ":" + RosterText(f.cc) + "}")))
  }

  // ---- the words are distinct and free of quotes ----

  function Fingerprint(s: string): (nat, char, char, char)
    requires |s| >= 2
  {
    (|s|, s[0], s[1], if |s| > 3 then s[3] else ' ')
  }

  function FingerprintOf(k: Key): (nat, char, char, char) {
    match k
    case Type => (4, 't', 'y', 'e')
    case ClientState => (12, 'c', 'l', 'e')
    case Role => (4, 'r', 'o', 'e')
    case ClanId => (7, 'c', 'l', 'n')
    case AllyId => (7, 'a', 'l', 'y')
    case PartyId => (8, 'p', 'a', 't')
    case CCId => (5, 'c', 'c', 'i')
    case CCLeaderId => (12, 'c', 'c', 'l')
    case CCCanSpeak => (12, 'c', 'c', 'c')
    case ClanMode => (9, 'c', 'l', 'n')
    case OptedOut => (9, 'o', 'p', 'e')
    case PartyMembers => (13, 'p', 'a', 't')
    case ClanMembers => (12, 'c', 'l', 'n')
    case AllyMembers => (12, 'a', 'l', 'y')
    case CCMembers => (10, 'c', 'c', 'm')
    case Id => (2, 'i', 'd', ' ')
    case VoiceActive => (12, 'v', 'o', 'c')
    case CanSpeak => (9, 'c', 'a', '_')
    case RemoteMuted => (12, 'r', 'e', 'o')
  }

  lemma NameFacts(k: Key)
    ensures |NameOf(k)| >= 2 && Fingerprint(NameOf(k)) == FingerprintOf(k)
    ensures '"' !in NameOf(k) && NameOf(k)[0] != ':' && NameOf(k)[0] != ','
  {
  }

  predicate Bracket(c: char) {
    c == '{' || c == '}' || c == '[' || c == ']'
  }

  ghost predicate NoBrackets(s: string) {
    forall i :: 0 <= i < |s| ==> !Bracket(s[i])
  }

  lemma NoBracketsInName(k: Key)
    ensures NoBrackets(NameOf(k))
  {
    forall i | 0 <= i < |NameOf(k)|
      ensures !Bracket(NameOf(k)[i])
    {
      LetterOfName(k, i);
    }
  }

  lemma LetterOfName(k: Key, i: nat)
    requires i < |NameOf(k)|
    ensures NameOf(k)[i] == '_' || 'a' <= NameOf(k)[i] <= 'z'
  {
  }

}
