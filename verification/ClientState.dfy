/**
 * The snapshot built for one client, and who needs a new one after a game event: everybody
 * whose snapshot changes is on the event's list of affected players.
 */
module ClientState {
  import opened Types
  import opened Worlds
  import opened WorldStates
  import opened Topology
  import opened SessionTables
  import opened Events
  import opened Frames

  function RoleCode(role: Worlds.Role): uint8 {
    match role
    case Member => 0
    case SubLeader => 1
    case Leader => 2
  }

  function VoiceActive(t: Sessions, id: uint32): bool {
    LookupByPlayer(t, id).Some?
  }

  // ---- the party list's order: the party leader first, then by id ----

  predicate Leads(players: map<uint32, Player>, id: uint32) {
    id in players && players[id].isPartyLeader
  }

  predicate Before(players: map<uint32, Player>, a: uint32, b: uint32) {
    if Leads(players, a) != Leads(players, b) then Leads(players, a) else a < b
  }

  ghost predicate InOrder(players: map<uint32, Player>, s: seq<uint32>) {
    forall i, j :: 0 <= i < j < |s| ==> Before(players, s[i], s[j])
  }

  ghost predicate Lists(s: seq<uint32>, ids: set<uint32>) {
    && (forall i, j :: 0 <= i < j < |s| ==> s[i] != s[j])
    && (forall id :: id in s <==> id in ids)
  }

  // However it is sorted, there is only one such list.
  lemma {:induction false} OrderUnique(players: map<uint32, Player>, s: seq<uint32>, t: seq<uint32>)
    requires InOrder(players, s) && InOrder(players, t) && forall id :: id in s <==> id in t
    ensures s == t
    decreases |s|
  {
    EmptyTogether(s, t);
    if s == [] {
    } else {
      FirstIsLeast(players, s, t[0]);
      FirstIsLeast(players, t, s[0]);
      assert s[0] == t[0];
      forall id ensures id in s[1..] <==> id in t[1..] {
        InTail(players, s, id);
        InTail(players, t, id);
      }
      OrderUnique(players, s[1..], t[1..]);
      assert s == [s[0]] + s[1..] && t == [t[0]] + t[1..];
    }
  }

  lemma EmptyTogether(s: seq<uint32>, t: seq<uint32>)
    requires forall id :: id in s <==> id in t
    ensures s == [] <==> t == []
  {
    if s != [] {
      assert s[0] in s;
    }
    if t != [] {
      assert t[0] in t;
    }
  }

  lemma FirstIsLeast(players: map<uint32, Player>, s: seq<uint32>, id: uint32)
    requires InOrder(players, s) && id in s
    ensures id == s[0] || Before(players, s[0], id)
  {
  }

  lemma InTail(players: map<uint32, Player>, s: seq<uint32>, id: uint32)
    requires s != [] && InOrder(players, s)
    ensures id in s[1..] <==> id in s && id != s[0]
  {
  }

  // ---- the snapshot ----

  function PartyInfo(t: Sessions, id: uint32): Frames.Member {
    Frames.Member(id, VoiceActive(t, id), 0, false, false)
  }

  ghost function ClanInfo(w: World, t: Sessions, id: uint32): Frames.Member {
    Frames.Member(id, VoiceActive(t, id), RoleCode(RoleOf(w, id)), false, RemotelyMuted(w, id, ClanScope))
  }

  ghost function AllyInfo(w: World, t: Sessions, id: uint32): Frames.Member {
    Frames.Member(id, VoiceActive(t, id), 0, false, RemotelyMuted(w, id, AllyScope))
  }

  function ChannelInfo(cc: CommandChannel, t: Sessions, id: uint32): Frames.Member {
    Frames.Member(id, VoiceActive(t, id), 0, id == cc.leaderId || id in cc.speak, false)
  }

  ghost function PartyInfos(t: Sessions, ids: seq<uint32>): seq<Frames.Member> {
    seq(|ids|, i requires 0 <= i < |ids| => PartyInfo(t, ids[i]))
  }

  ghost function ClanInfos(w: World, t: Sessions, ids: seq<uint32>): seq<Frames.Member> {
    seq(|ids|, i requires 0 <= i < |ids| => ClanInfo(w, t, ids[i]))
  }

  ghost function AllyInfos(w: World, t: Sessions, ids: seq<uint32>): seq<Frames.Member> {
    seq(|ids|, i requires 0 <= i < |ids| => AllyInfo(w, t, ids[i]))
  }

  ghost function ChannelInfos(cc: CommandChannel, t: Sessions): seq<Frames.Member> {
    seq(|cc.memberIds|, i requires 0 <= i < |cc.memberIds| => ChannelInfo(cc, t, cc.memberIds[i]))
  }

  ghost predicate IsParty(roster: Roster, w: World, t: Sessions, player: uint32) {
    if player !in w.players || w.players[player].partyId == 0 then roster == None
    else
      roster.Some? && exists ids ::
        && Lists(ids, PartyMembers(w, player)) && InOrder(w.players, ids)
        && roster.value == PartyInfos(t, ids)
  }

  ghost predicate IsClan(roster: Roster, w: World, t: Sessions, clanId: uint32) {
    if clanId == 0 then roster == None
    else
      roster.Some? && exists ids ::
        && Lists(ids, ClanMembers(w, clanId))
        && roster.value == ClanInfos(w, t, ids)
  }

  ghost predicate IsAlly(roster: Roster, w: World, t: Sessions, allyId: uint32) {
    if allyId == 0 then roster == None
    else
      roster.Some? && exists ids ::
        && Lists(ids, AllyMembers(w, allyId))
        && roster.value == AllyInfos(w, t, ids)
  }

  ghost predicate IsChannel(f: Frame, w: World, t: Sessions, player: uint32) {
    match ChannelOf(w.channels, player)
    case None => f.ccId == 0 && f.ccLeaderId == 0 && !f.ccCanSpeak && f.cc == None
    case Some(cc) =>
      && f.ccId == cc.id && f.ccLeaderId == cc.leaderId && f.ccCanSpeak == (player == cc.leaderId || player in cc.speak)
      && f.cc == Some(ChannelInfos(cc, t))
  }

  ghost predicate IsHeader(f: Frame, w: World, player: uint32)
    requires player in w.players
  {
    var p := w.players[player];
    && f.role == RoleCode(RoleOf(w, player))
    && f.clanId == p.clanId && f.allyId == p.allyId && f.partyId == p.partyId
    && f.clanMode == (if p.clanId in w.clans then w.clans[p.clanId].mode else 0)
    && f.optedOut == (p.clanId in w.clans && w.clans[p.clanId].optedOut)
  }

  ghost predicate IsFrame(f: Frame, w: World, t: Sessions, player: uint32) {
    if player !in w.players then f == EMPTY_FRAME
    else
      var p := w.players[player];
      && IsHeader(f, w, player)
      && IsChannel(f, w, t, player)
      && IsParty(f.party, w, t, player) && IsClan(f.clan, w, t, p.clanId) && IsAlly(f.ally, w, t, p.allyId)
  }

  // ---- building it ----

  // Go's map iteration: some order of the ids.
  method ListIds(ids: set<uint32>) returns (s: seq<uint32>)
    ensures Lists(s, ids)
  {
    s := [];
    var todo := ids;
    while todo != {}
      invariant todo <= ids
      invariant Lists(s, ids - todo)
    {
      var id :| id in todo;
      s := s + [id];
      assert ids - (todo - {id}) == (ids - todo) + {id};
      todo := todo - {id};
    }
    assert ids - {} == ids;
  }

  // Any sort by the party order will do; this one inserts the ids one by one.
  method SortParty(players: map<uint32, Player>, ids: set<uint32>) returns (s: seq<uint32>)
    ensures Lists(s, ids) && InOrder(players, s)
  {
    s := [];
    var todo := ids;
    while todo != {}
      invariant todo <= ids
      invariant Lists(s, ids - todo) && InOrder(players, s)
    {
      var id :| id in todo;
      var k := 0;
      while k < |s| && Before(players, s[k], id)
        invariant k <= |s|
        invariant forall i :: 0 <= i < k ==> Before(players, s[i], id)
      {
        k := k + 1;
      }
      InsertInOrder(players, s, k, id);
      assert ids - (todo - {id}) == (ids - todo) + {id};
      s := s[..k] + [id] + s[k..];
      todo := todo - {id};
    }
    assert ids - {} == ids;
  }

  lemma InsertInOrder(players: map<uint32, Player>, s: seq<uint32>, k: nat, id: uint32)
    requires InOrder(players, s) && id !in s && k <= |s|
    requires forall i :: 0 <= i < k ==> Before(players, s[i], id)
    requires k < |s| ==> !Before(players, s[k], id)
    ensures InOrder(players, s[..k] + [id] + s[k..])
    ensures forall x :: x in s[..k] + [id] + s[k..] <==> x == id || x in s
    ensures forall i, j :: 0 <= i < j <= |s| ==> (s[..k] + [id] + s[k..])[i] != (s[..k] + [id] + s[k..])[j]
  {
  }

  method BuildClientState(ws: WorldState, sessions: SessionTable, player: uint32) returns (f: Frame)
    requires ws.Valid() && sessions.Valid()
    ensures IsFrame(f, ws.View(), sessions.View(), player)
  {
    if player !in ws.players {
      return EMPTY_FRAME;
    }
    var p := ws.players[player];
    f := BuildHeader(ws, player);
    if player in ws.playerCC && ws.playerCC[player] in ws.ccs {
      var cc := ws.ccs[ws.playerCC[player]];
      var members := CollectChannel(cc, sessions);
      f := f.(ccId := cc.id, ccLeaderId := cc.leaderId, ccCanSpeak := player == cc.leaderId || player in cc.speak,
              cc := Some(members));
    }
    var party := CollectParty(ws, sessions, player);
    var clan := CollectClan(ws, sessions, p.clanId);
    var ally := CollectAlly(ws, sessions, p.allyId);
    f := f.(party := party, clan := clan, ally := ally);
  }

  // The fields of a known player's frame that do not come from a group.
  method BuildHeader(ws: WorldState, player: uint32) returns (f: Frame)
    requires player in ws.players
    ensures f == EMPTY_FRAME.(role := f.role, clanId := f.clanId, allyId := f.allyId, partyId := f.partyId,
                              clanMode := f.clanMode, optedOut := f.optedOut)
    ensures IsHeader(f, ws.View(), player)
  {
    var p := ws.players[player];
    var role := ws.RoleOfPlayer(player);
    f := EMPTY_FRAME.(role := RoleCode(role), clanId := p.clanId, allyId := p.allyId, partyId := p.partyId);
    if p.clanId in ws.clans {
      f := f.(clanMode := ws.clans[p.clanId].mode, optedOut := ws.clans[p.clanId].optedOut);
    }
  }

  method CollectChannel(cc: CommandChannel, sessions: SessionTable) returns (members: seq<Frames.Member>)
    requires sessions.Valid()
    ensures members == ChannelInfos(cc, sessions.View())
  {
    ghost var t := sessions.View();
    members := [];
    for i := 0 to |cc.memberIds|
      invariant |members| == i
      invariant forall k :: 0 <= k < i ==> members[k] == ChannelInfo(cc, t, cc.memberIds[k])
    {
      var id := cc.memberIds[i];
      members := members + [Frames.Member(id, id in sessions.byPlayer, 0, id == cc.leaderId || id in cc.speak, false)];
    }
  }

  method CollectParty(ws: WorldState, sessions: SessionTable, player: uint32) returns (roster: Roster)
    requires ws.Valid() && sessions.Valid()
    ensures IsParty(roster, ws.View(), sessions.View(), player)
  {
    if player !in ws.players || ws.players[player].partyId == 0 {
      return None;
    }
    ghost var t := sessions.View();
    var ids := ws.PartyMembersOf(player);
    var order := SortParty(ws.players, ids);
    var members := [];
    for i := 0 to |order|
      invariant |members| == i
      invariant forall k :: 0 <= k < i ==> members[k] == PartyInfo(t, order[k])
    {
      members := members + [Frames.Member(order[i], order[i] in sessions.byPlayer, 0, false, false)];
    }
    assert members == PartyInfos(t, order);
    return Some(members);
  }

  method CollectClan(ws: WorldState, sessions: SessionTable, clanId: uint32) returns (roster: Roster)
    requires ws.Valid() && sessions.Valid()
    ensures IsClan(roster, ws.View(), sessions.View(), clanId)
  {
    if clanId == 0 {
      return None;
    }
    ghost var w, t := ws.View(), sessions.View();
    var ids := ws.ClanMembersOf(clanId);
    var order := ListIds(ids);
    var members := [];
    for i := 0 to |order|
      invariant |members| == i
      invariant forall k :: 0 <= k < i ==> members[k] == ClanInfo(w, t, order[k])
    {
      var id := order[i];
      var role := ws.RoleOfPlayer(id);
      var muted := ws.IsRemotelyMuted(id, ClanScope);
      members := members + [Frames.Member(id, id in sessions.byPlayer, RoleCode(role), false, muted)];
    }
    assert members == ClanInfos(w, t, order);
    return Some(members);
  }

  method CollectAlly(ws: WorldState, sessions: SessionTable, allyId: uint32) returns (roster: Roster)
    requires ws.Valid() && sessions.Valid()
    ensures IsAlly(roster, ws.View(), sessions.View(), allyId)
  {
    if allyId == 0 {
      return None;
    }
    ghost var w, t := ws.View(), sessions.View();
    var ids := ws.AllyMembersOf(allyId);
    var order := ListIds(ids);
    var members := [];
    for i := 0 to |order|
      invariant |members| == i
      invariant forall k :: 0 <= k < i ==> members[k] == AllyInfo(w, t, order[k])
    {
      var muted := ws.IsRemotelyMuted(order[i], AllyScope);
      members := members + [Frames.Member(order[i], order[i] in sessions.byPlayer, 0, false, muted)];
    }
    assert members == AllyInfos(w, t, order);
    return Some(members);
  }

  // ---- what a snapshot depends on ----

  lemma ClanRosterSet(roster: Roster, w: World, t: Sessions, clanId: uint32)
    requires IsClan(roster, w, t, clanId)
    ensures RosterSet(roster) == set id | id in ClanMembers(w, clanId) :: ClanInfo(w, t, id)
  {
    if clanId != 0 {
      var ids :| Lists(ids, ClanMembers(w, clanId)) &&
                 roster.value == ClanInfos(w, t, ids);
      forall id | id in ClanMembers(w, clanId)
        ensures ClanInfo(w, t, id) in roster.value
      {
        var i :| 0 <= i < |ids| && ids[i] == id;
        assert roster.value[i] == ClanInfo(w, t, id);
      }
      assert forall i :: 0 <= i < |ids| ==> ids[i] in ids;
    }
  }

  lemma AllyRosterSet(roster: Roster, w: World, t: Sessions, allyId: uint32)
    requires IsAlly(roster, w, t, allyId)
    ensures RosterSet(roster) == set id | id in AllyMembers(w, allyId) :: AllyInfo(w, t, id)
  {
    if allyId != 0 {
      var ids :| Lists(ids, AllyMembers(w, allyId)) &&
                 roster.value == AllyInfos(w, t, ids);
      forall id | id in AllyMembers(w, allyId)
        ensures AllyInfo(w, t, id) in roster.value
      {
        var i :| 0 <= i < |ids| && ids[i] == id;
        assert roster.value[i] == AllyInfo(w, t, id);
      }
      assert forall i :: 0 <= i < |ids| ==> ids[i] in ids;
    }
  }

  lemma PartyRosterSame(f: Roster, g: Roster, w: World, v: World, t: Sessions, player: uint32)
    requires IsParty(f, w, t, player) && IsParty(g, v, t, player)
    requires player in w.players && player in v.players
    requires w.players[player].partyId == v.players[player].partyId
    requires PartyMembers(w, player) == PartyMembers(v, player)
    requires forall id :: id in PartyMembers(w, player) ==> (Leads(w.players, id) <==> Leads(v.players, id))
    ensures f == g
  {
    if w.players[player].partyId != 0 {
      var s :| Lists(s, PartyMembers(w, player)) && InOrder(w.players, s) &&
               f.value == PartyInfos(t, s);
      var s' :| Lists(s', PartyMembers(v, player)) && InOrder(v.players, s') &&
                g.value == PartyInfos(t, s');
      forall i, j | 0 <= i < j < |s'|
        ensures Before(w.players, s'[i], s'[j])
      {
        assert s'[i] in s' && s'[j] in s';
      }
      OrderUnique(w.players, s, s');
    }
  }

  // The parts of the world a player's snapshot is made of are the same in both.
  ghost predicate LooksSame(w: World, v: World, player: uint32) {
    && (player in w.players <==> player in v.players)
    && (player in w.players ==>
          var p, q := w.players[player], v.players[player];
          && p.clanId == q.clanId && p.allyId == q.allyId && p.partyId == q.partyId
          && RoleOf(w, player) == RoleOf(v, player)
          && (if p.clanId in w.clans then w.clans[p.clanId].mode else 0) ==
             (if q.clanId in v.clans then v.clans[q.clanId].mode else 0)
          && (p.clanId in w.clans && w.clans[p.clanId].optedOut) == (q.clanId in v.clans && v.clans[q.clanId].optedOut)
          && PartyMembers(w, player) == PartyMembers(v, player)
          && (forall id :: id in PartyMembers(w, player) ==> (Leads(w.players, id) <==> Leads(v.players, id)))
          && ClanMembers(w, p.clanId) == ClanMembers(v, p.clanId)
          && ChannelOf(w.channels, player) == ChannelOf(v.channels, player)
          && (forall id :: id in ClanMembers(w, p.clanId) ==>
                RoleOf(w, id) == RoleOf(v, id) && RemotelyMuted(w, id, ClanScope) == RemotelyMuted(v, id, ClanScope))
          && AllyMembers(w, p.allyId) == AllyMembers(v, p.allyId)
          && (forall id :: id in AllyMembers(w, p.allyId) ==>
                RemotelyMuted(w, id, AllyScope) == RemotelyMuted(v, id, AllyScope)))
  }

  lemma SameMutes(w: World, v: World)
    requires w.mutes == v.mutes
    ensures forall id, scope :: RemotelyMuted(w, id, scope) == RemotelyMuted(v, id, scope)
  {
  }

  lemma LooksSameSameFrame(f: Frame, g: Frame, w: World, v: World, t: Sessions, player: uint32)
    requires LooksSame(w, v, player) && IsFrame(f, w, t, player) && IsFrame(g, v, t, player)
    ensures SameToClient(f, g)
  {
    if player in w.players {
      var p := w.players[player];
      PartyRosterSame(f.party, g.party, w, v, t, player);
      ClanRosterSet(f.clan, w, t, p.clanId);
      ClanRosterSet(g.clan, v, t, p.clanId);
      AllyRosterSet(f.ally, w, t, p.allyId);
      AllyRosterSet(g.ally, v, t, p.allyId);
      assert forall id :: id in ClanMembers(w, p.clanId) ==> ClanInfo(w, t, id) == ClanInfo(v, t, id);
      assert forall id :: id in AllyMembers(w, p.allyId) ==> AllyInfo(w, t, id) == AllyInfo(v, t, id);
    }
  }

  // ---- notification ----

  ghost predicate ChangesMembership(e: Event) {
    e.ClanChange? || e.AllyChange? || e.PartyChange? || e.ClanLeaderChange?
  }

  // Two worlds that differ in one player's record.
  ghost predicate Moved(w: World, v: World, mover: uint32) {
    mover in v.players && v == w.(players := w.players[mover := v.players[mover]])
  }

  lemma ClanSame(w: World, v: World, mover: uint32, player: uint32)
    requires Moved(w, v, mover) && player in w.players && player in v.players
    requires w.players[player].clanId == v.players[player].clanId
    requires var c, prior, next := w.players[player].clanId, PlayerOrNew(w, mover), v.players[mover];
             || c == 0 || (prior.clanId != c && next.clanId != c)
             || (prior.clanId == next.clanId && prior.isLeader == next.isLeader)
    ensures var c := w.players[player].clanId;
            ClanMembers(w, c) == ClanMembers(v, c) &&
            forall id :: id in ClanMembers(w, c) ==> RoleOf(w, id) == RoleOf(v, id)
  {
  }

  lemma AllySame(w: World, v: World, mover: uint32, player: uint32)
    requires Moved(w, v, mover) && player in w.players
    requires var a, prior, next := w.players[player].allyId, PlayerOrNew(w, mover), v.players[mover];
             a == 0 || (prior.allyId != a && next.allyId != a) || prior.allyId == next.allyId
    ensures var a := w.players[player].allyId; AllyMembers(w, a) == AllyMembers(v, a)
  {
  }

  lemma PartySame(w: World, v: World, mover: uint32, player: uint32)
    requires Moved(w, v, mover) && player in w.players && player in v.players
    requires w.players[player].partyId == v.players[player].partyId
    requires var k, prior, next := w.players[player].partyId, PlayerOrNew(w, mover), v.players[mover];
             || k == 0 || (prior.partyId != k && next.partyId != k)
             || (prior.partyId == next.partyId && prior.isPartyLeader == next.isPartyLeader)
    ensures PartyMembers(w, player) == PartyMembers(v, player) &&
            forall id :: id in PartyMembers(w, player) ==> (Leads(w.players, id) <==> Leads(v.players, id))
  {
  }

  lemma MovedLooksSame(w: World, v: World, mover: uint32, player: uint32)
    requires Moved(w, v, mover)
    requires player == mover ==> player in w.players
    requires player in w.players ==>
               var p, q, prior, next := w.players[player], v.players[player], PlayerOrNew(w, mover), v.players[mover];
               && p.clanId == q.clanId && p.allyId == q.allyId && p.partyId == q.partyId
               && (p.clanId == 0 || (prior.clanId != p.clanId && next.clanId != p.clanId) ||
                   (prior.clanId == next.clanId && prior.isLeader == next.isLeader))
               && (p.allyId == 0 || (prior.allyId != p.allyId && next.allyId != p.allyId) ||
                   prior.allyId == next.allyId)
               && (p.partyId == 0 || (prior.partyId != p.partyId && next.partyId != p.partyId) ||
                   (prior.partyId == next.partyId && prior.isPartyLeader == next.isPartyLeader))
    ensures LooksSame(w, v, player)
  {
    SameMutes(w, v);
    if player in w.players {
      ClanSame(w, v, mover, player);
      AllySame(w, v, mover, player);
      PartySame(w, v, mover, player);
    }
  }

  // Only an event about an unknown player 0 can leave that same player untold.
  ghost predicate Nameable(w: World, e: Event, player: uint32) {
    e.player == 0 && player == 0 ==> 0 in w.players
  }

  lemma UnaffectedByMembership(w: World, e: Event, player: uint32, grow: Allocator)
    requires e.ClanChange? || e.AllyChange? || e.PartyChange?
    requires Nameable(w, e, player) && player !in Affected(w, e, grow)
    ensures LooksSame(w, ApplyToWorld(w, e, grow), player)
  {
    var v := ApplyToWorld(w, e, grow);
    if player in w.players {
      var k := w.players[player].partyId;
      assert k != 0 && e.player in w.players && w.players[e.player].partyId == k ==> player in PartyMembers(w,
          e.player);
      assert k != 0 && v.players[e.player].partyId == k && player != e.player ==> player in PartyMembers(v, e.player);
    }
    MovedLooksSame(w, v, e.player, player);
  }

  lemma UnaffectedByClanLeader(w: World, e: Event, player: uint32, grow: Allocator)
    requires e.ClanLeaderChange? && player !in Affected(w, e, grow)
    ensures LooksSame(w, ApplyToWorld(w, e, grow), player)
  {
    SameMutes(w, ApplyToWorld(w, e, grow));
  }

  lemma ToldIfNameable(w: World, t: Sessions, e: Event, player: uint32, f: Frame, g: Frame, grow: Allocator)
    requires ChangesMembership(e) && (e.ClanLeaderChange? || Nameable(w, e, player))
    requires IsFrame(f, w, t, player)
    requires IsFrame(g, ApplyToWorld(w, e, grow), ApplyToSessions(t, e), player)
    requires !SameToClient(f, g)
    ensures player in Affected(w, e, grow)
  {
    if player !in Affected(w, e, grow) {
      match e {
        case ClanLeaderChange(_, _, _) => UnaffectedByClanLeader(w, e, player, grow);
        case _ => UnaffectedByMembership(w, e, player, grow);
      }
      LooksSameSameFrame(f, g, w, ApplyToWorld(w, e, grow), t, player);
    }
  }

  ghost predicate JoinsNothing(e: Event) {
    || (e.ClanChange? && e.clanId == 0)
    || (e.AllyChange? && e.allyId == 0)
    || (e.PartyChange? && e.partyId == 0)
  }

  // The service learns of player 0 by an event that puts it in no group, while it is mapped
  // to a channel already or there is a clan 0 in a mode or opted out.
  ghost predicate Untold(w: World, e: Event, player: uint32) {
    && player == 0 && e.player == 0 && 0 !in w.players && JoinsNothing(e)
    && (ChannelOf(w.channels, 0).Some? || (0 in w.clans && (w.clans[0].mode != MODE_NONE || w.clans[0].optedOut)))
  }

  lemma UnnamedTold(w: World, e: Event, grow: Allocator)
    requires (e.ClanChange? || e.AllyChange? || e.PartyChange?) && e.player == 0 && 0 !in w.players
    ensures 0 in Affected(w, e, grow) <==> !JoinsNothing(e)
  {
    var v := ApplyToWorld(w, e, grow);
    assert 0 in v.players;
  }

  lemma UnnamedSees(w: World, t: Sessions, e: Event, f: Frame, g: Frame, grow: Allocator)
    requires (e.ClanChange? || e.AllyChange? || e.PartyChange?) && e.player == 0 && 0 !in w.players && JoinsNothing(e)
    requires IsFrame(f, w, t, 0) && IsFrame(g, ApplyToWorld(w, e, grow), ApplyToSessions(t, e), 0)
    ensures SameToClient(f, g) <==> !Untold(w, e, 0)
  {
    var v := ApplyToWorld(w, e, grow);
    assert v.players[0].clanId == 0 && v.players[0].allyId == 0 && v.players[0].partyId == 0;
    assert RoleOf(v, 0) == Role.Member && v.channels == w.channels && v.clans == w.clans;
  }

  // After a change of clan, alliance, party or clan leader, everybody is told who sees a
  // different snapshot, with one exception.
  lemma NotificationComplete(w: World, t: Sessions, e: Event, player: uint32, f: Frame, g: Frame, grow: Allocator)
    requires ChangesMembership(e)
    requires IsFrame(f, w, t, player)
    requires IsFrame(g, ApplyToWorld(w, e, grow), ApplyToSessions(t, e), player)
    ensures SameToClient(f, g) || player in Affected(w, e, grow) <==> !Untold(w, e, player)
  {
    if e.ClanLeaderChange? || Nameable(w, e, player) {
      if !SameToClient(f, g) {
        ToldIfNameable(w, t, e, player, f, g, grow);
      }
    } else {
      UnnamedTold(w, e, grow);
      if JoinsNothing(e) {
        UnnamedSees(w, t, e, f, g, grow);
      }
    }
  }

  // Player 0 is mapped to a channel before the service knows it; learning of it is not told.
  lemma NamelessIsNotTold(grow: Allocator, f: Frame, g: Frame)
    requires var w := EMPTY_WORLD.(channels := Channels(map[7 := CommandChannel(7, 0, [0], 1, {})], map[0 := 7]));
             IsFrame(f, w, NO_SESSIONS, 0) && IsFrame(g, ApplyToWorld(w, PartyChange(0, 0, false), grow),
                 NO_SESSIONS, 0)
    ensures !SameToClient(f, g)
    ensures 0 !in Affected(EMPTY_WORLD.(channels := Channels(map[7 := CommandChannel(7, 0, [0], 1, {})], map[0 := 7])),
                           PartyChange(0, 0, false), grow)
  {
  }
}
