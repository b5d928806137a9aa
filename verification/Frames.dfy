/** The snapshot frame a client is sent. */
module Frames {
  import opened Types

  datatype Member = Member(id: uint32, voiceActive: bool, role: uint8, canSpeak: bool, remoteMuted: bool)

  // A roster is None when the server leaves its slice nil.
  type Roster = Option<seq<Member>>

  datatype Frame = Frame(
    role: uint8,
    clanId: uint32,
    allyId: uint32,
    partyId: uint64,
    ccId: uint32,
    ccLeaderId: uint32,
    ccCanSpeak: bool,
    clanMode: uint8,
    optedOut: bool,
    party: Roster,
    clan: Roster,
    ally: Roster,
    cc: Roster)

  const EMPTY_FRAME := Frame(0, 0, 0, 0, 0, 0, false, 0, false, None, None, None, None)

  ghost function RosterSet(r: Roster): set<Member> {
    match r
    case None => {}
    case Some(ms) => set m | m in ms
  }

  // What a client can tell apart: everything, except the order of the clan and ally rosters.
  ghost predicate SameToClient(f: Frame, g: Frame) {
    && f.(clan := None, ally := None) == g.(clan := None, ally := None)
    && f.clan.Some? == g.clan.Some? && f.ally.Some? == g.ally.Some?
    && RosterSet(f.clan) == RosterSet(g.clan) && RosterSet(f.ally) == RosterSet(g.ally)
  }
}
