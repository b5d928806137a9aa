/**
 * Game events from the bridge: what each one does to the world and to the session table,
 * and which players are told about it.
 */
module Events {
  import opened Types
  import opened Worlds
  import opened WorldStates
  import opened Topology
  import opened SessionTables

  // A player_login event is a Position event: the service reads the same fields from both.
  datatype Event =
    | Position(player: uint32, x: real, y: real, z: real, instanceId: uint32)
    | InstanceChange(player: uint32, instanceId: uint32)
    | ClanChange(player: uint32, clanId: uint32, isLeader: bool)
    | AllyChange(player: uint32, allyId: uint32)
    | PartyChange(player: uint32, partyId: uint64, isPartyLeader: bool)
    | ClanLeaderChange(player: uint32, clanId: uint32, leaderId: uint32)
    | CCChange(player: uint32, ccId: uint32, leaderId: uint32, members: seq<uint32>)
    | Logout(player: uint32)

  datatype State = State(world: World, sessions: Sessions)

  function MoveSession(t: Sessions, player: uint32, x: real, y: real, z: real, instanceId: uint32): Sessions {
    match LookupByPlayer(t, player)
    case None => t
    case Some(sess) => UpdatePosition(t, sess.id, x, y, z, instanceId)
  }

  function ChangeSessionInstance(t: Sessions, player: uint32, instanceId: uint32): Sessions {
    match LookupByPlayer(t, player)
    case None => t
    case Some(sess) => UpdatePosition(t, sess.id, sess.x, sess.y, sess.z, instanceId)
  }

  function DropSessionOf(t: Sessions, player: uint32): Sessions {
    match LookupByPlayer(t, player)
    case None => t
    case Some(sess) => Drop(t, sess.id)
  }

  function ApplyToWorld(w: World, e: Event, grow: Allocator): World {
    var p := PlayerOrNew(w, e.player);
    match e
    case Position(player, x, y, z, instanceId) => SetPlayerPosition(w, player, x, y, z, instanceId)
    case InstanceChange(player, instanceId) => SetPlayerPosition(w, player, p.x, p.y, p.z, instanceId)
    case ClanChange(player, clanId, isLeader) =>
      UpsertPlayer(w, player, clanId, p.allyId, p.partyId, p.instanceId, isLeader, p.isPartyLeader)
    case AllyChange(player, allyId) =>
      UpsertPlayer(w, player, p.clanId, allyId, p.partyId, p.instanceId, p.isLeader, p.isPartyLeader)
    case PartyChange(player, partyId, isPartyLeader) =>
      UpsertPlayer(w, player, p.clanId, p.allyId, partyId, p.instanceId, p.isLeader, isPartyLeader)
    case ClanLeaderChange(_, clanId, leaderId) => UpsertClan(w, clanId, leaderId, false)
    case CCChange(player, ccId, leaderId, members) =>
      w.(channels := if ccId == 0 then LeaveOwnChannel(w.channels, player, grow)
                     else UpsertChannel(w.channels, ccId, leaderId, members, grow))
    case Logout(player) => RemovePlayer(w, player)
  }

  function ApplyToSessions(t: Sessions, e: Event): Sessions {
    match e
    case Position(player, x, y, z, instanceId) => MoveSession(t, player, x, y, z, instanceId)
    case InstanceChange(player, instanceId) => ChangeSessionInstance(t, player, instanceId)
    case Logout(player) => DropSessionOf(t, player)
    case _ => t
  }

  function Apply(s: State, e: Event, grow: Allocator): State {
    State(ApplyToWorld(s.world, e, grow), ApplyToSessions(s.sessions, e))
  }

  // The players whose clients are sent a fresh snapshot.
  ghost function Affected(w: World, e: Event, grow: Allocator): set<uint32> {
    (if e.player != 0 then {e.player} else {}) + GroupsTouched(w, e, grow)
  }

  // The members, before and after, of every group the event takes the player out of or into.
  ghost function GroupsTouched(w: World, e: Event, grow: Allocator): set<uint32> {
    var p, after := PlayerOrNew(w, e.player), ApplyToWorld(w, e, grow);
    match e
    case ClanChange(_, clanId, _) => ClanMembers(w, p.clanId) + ClanMembers(after, clanId)
    case AllyChange(_, allyId) => AllyMembers(w, p.allyId) + AllyMembers(after, allyId)
    case PartyChange(player, _, _) => PartyMembers(w, player) + PartyMembers(after, player)
    case ClanLeaderChange(_, clanId, _) => ClanMembers(after, clanId)
    case CCChange(player, ccId, _, members) =>
      ChannelMembersOf(w, player) + if ccId == 0 then {} else ElementsOf(members)
    case Logout(player) =>
      if player !in w.players then {}
      else PartyMembers(w, player) + ClanMembers(w, p.clanId) + AllyMembers(w, p.allyId) + ChannelMembersOf(w, player)
    case _ => {}
  }

  ghost function ChannelMembersOf(w: World, player: uint32): set<uint32> {
    match ChannelOf(w.channels, player)
    case None => {}
    case Some(cc) => ElementsOf(cc.memberIds)
  }

  method HandleEvent(ws: WorldState, sessions: SessionTable, e: Event, grow: Allocator)
    returns (affected: set<uint32>)
    requires ws.Valid() && sessions.Valid()
    modifies ws, sessions
    ensures ws.Valid() && sessions.Valid()
    ensures State(ws.View(), sessions.View()) == Apply(old(State(ws.View(), sessions.View())), e, grow)
    ensures affected == Affected(old(ws.View()), e, grow)
  {
    UpdateSessions(sessions, e);
    affected := UpdateWorld(ws, e, grow);
    affected := (if e.player != 0 then {e.player} else {}) + affected;
  }

  method UpdateWorld(ws: WorldState, e: Event, grow: Allocator) returns (affected: set<uint32>)
    requires ws.Valid()
    modifies ws
    ensures ws.Valid() && ws.View() == ApplyToWorld(old(ws.View()), e, grow)
    ensures affected == GroupsTouched(old(ws.View()), e, grow)
  {
    match e {
      case Position(player, x, y, z, instanceId) =>
        ws.SetPlayerPosition(player, x, y, z, instanceId);
        affected := {};
      case InstanceChange(player, instanceId) =>
        if player in ws.players {
          var p := ws.players[player];
          ws.SetPlayerPosition(player, p.x, p.y, p.z, instanceId);
        }
        affected := {};
      case ClanChange(player, clanId, isLeader) =>
        affected := HandleClanChange(ws, player, clanId, isLeader, grow);
      case AllyChange(player, allyId) =>
        affected := HandleAllyChange(ws, player, allyId, grow);
      case PartyChange(player, partyId, isPartyLeader) =>
        affected := HandlePartyChange(ws, player, partyId, isPartyLeader, grow);
      case ClanLeaderChange(_, clanId, leaderId) =>
        ws.UpsertClan(clanId, leaderId, false);
        affected := ws.ClanMembersOf(clanId);
      case CCChange(player, ccId, leaderId, members) =>
        affected := HandleCCChange(ws, player, ccId, leaderId, members, grow);
      case Logout(player) =>
        affected := HandleLogout(ws, player);
    }
  }

  // The part of the event that concerns the player's voice session, if it has one.
  method UpdateSessions(sessions: SessionTable, e: Event)
    requires sessions.Valid()
    modifies sessions
    ensures sessions.Valid()
    ensures sessions.View() == ApplyToSessions(old(sessions.View()), e)
  {
    if e.player !in sessions.byPlayer {
      return;
    }
    var sess := sessions.bySID[sessions.byPlayer[e.player]];
    match e
    case Position(_, x, y, z, instanceId) => sessions.UpdatePosition(sess.id, x, y, z, instanceId);
    case InstanceChange(_, instanceId) => sessions.UpdatePosition(sess.id, sess.x, sess.y, sess.z, instanceId);
    case Logout(_) => sessions.Drop(sess.id);
    case _ =>
  }

  // A change of clan, alliance or party: the old group is collected before the change, the
  // new one after it.
  method HandleClanChange(ws: WorldState, player: uint32, clanId: uint32, isLeader: bool, grow: Allocator)
    returns (affected: set<uint32>)
    requires ws.Valid()
    modifies ws
    ensures ws.Valid() && ws.View() == ApplyToWorld(old(ws.View()), ClanChange(player, clanId, isLeader), grow)
    ensures affected == ClanMembers(old(ws.View()), PlayerOrNew(old(ws.View()), player).clanId) +
                        ClanMembers(ws.View(), clanId)
  {
    var p := if player in ws.players then ws.players[player] else NewPlayer(player);
    var leaving := ws.ClanMembersOf(p.clanId);
    ws.UpsertPlayer(player, clanId, p.allyId, p.partyId, p.instanceId, isLeader, p.isPartyLeader);
    var joined := ws.ClanMembersOf(clanId);
    affected := leaving + joined;
  }

  method HandleAllyChange(ws: WorldState, player: uint32, allyId: uint32, grow: Allocator)
    returns (affected: set<uint32>)
    requires ws.Valid()
    modifies ws
    ensures ws.Valid() && ws.View() == ApplyToWorld(old(ws.View()), AllyChange(player, allyId), grow)
    ensures affected == AllyMembers(old(ws.View()), PlayerOrNew(old(ws.View()), player).allyId) +
                        AllyMembers(ws.View(), allyId)
  {
    var p := if player in ws.players then ws.players[player] else NewPlayer(player);
    var leaving := ws.AllyMembersOf(p.allyId);
    ws.UpsertPlayer(player, p.clanId, allyId, p.partyId, p.instanceId, p.isLeader, p.isPartyLeader);
    var joined := ws.AllyMembersOf(allyId);
    affected := leaving + joined;
  }

  method HandlePartyChange(ws: WorldState, player: uint32, partyId: uint64, isPartyLeader: bool, grow: Allocator)
    returns (affected: set<uint32>)
    requires ws.Valid()
    modifies ws
    ensures ws.Valid() && ws.View() == ApplyToWorld(old(ws.View()), PartyChange(player, partyId, isPartyLeader), grow)
    ensures affected == PartyMembers(old(ws.View()), player) +
                        PartyMembers(ws.View(), player)
  {
    var p := if player in ws.players then ws.players[player] else NewPlayer(player);
    var leaving := ws.PartyMembersOf(player);
    ws.UpsertPlayer(player, p.clanId, p.allyId, partyId, p.instanceId, p.isLeader, isPartyLeader);
    var joined := ws.PartyMembersOf(player);
    affected := leaving + joined;
  }

  method HandleCCChange(ws: WorldState, player: uint32, ccId: uint32, leaderId: uint32, members: seq<uint32>,
                        grow: Allocator)
    returns (affected: set<uint32>)
    requires ws.Valid()
    modifies ws
    ensures ws.Valid()
    ensures ws.View() == ApplyToWorld(old(ws.View()), CCChange(player, ccId, leaderId, members), grow)
    ensures affected == GroupsTouched(old(ws.View()), CCChange(player, ccId, leaderId, members), grow)
  {
    var peers := ws.ChannelPeers(player);
    if ccId == 0 {
      LeaveCommandChannel(ws, player, grow);
      affected := peers + {};
    } else {
      ws.UpsertCommandChannel(ccId, leaderId, members, grow);
      affected := peers + ElementsOf(members);
    }
  }

  method HandleLogout(ws: WorldState, player: uint32) returns (affected: set<uint32>)
    requires ws.Valid()
    modifies ws
    ensures ws.Valid() && ws.View() == RemovePlayer(old(ws.View()), player)
    ensures forall grow: Allocator :: affected == GroupsTouched(old(ws.View()), Logout(player), grow)
  {
    affected := {};
    if player in ws.players {
      var p := ws.players[player];
      var party := ws.PartyMembersOf(player);
      var clan := ws.ClanMembersOf(p.clanId);
      var ally := ws.AllyMembersOf(p.allyId);
      var peers := ws.ChannelPeers(player);
      affected := party + clan + ally + peers;
    }
    ws.RemovePlayer(player);
  }

  // The safety net for a player that reports being in no channel: it is taken off the one
  // it is mapped to, which is dissolved when nobody else is left.
  method LeaveCommandChannel(ws: WorldState, player: uint32, grow: Allocator)
    requires ws.Valid()
    modifies ws`ccs, ws`playerCC
    ensures ws.Valid()
    ensures ws.View() == old(ws.View()).(channels := LeaveOwnChannel(old(ws.View()).channels, player, grow))
  {
    if player !in ws.playerCC || ws.playerCC[player] !in ws.ccs {
      return;
    }
    var cc := ws.ccs[ws.playerCC[player]];
    var rest := [];
    for i := 0 to |cc.memberIds|
      invariant rest == Without(cc.memberIds[..i], player)
    {
      assert cc.memberIds[..i + 1][..i] == cc.memberIds[..i];
      if cc.memberIds[i] != player {
        rest := rest + [cc.memberIds[i]];
      }
    }
    assert cc.memberIds[..|cc.memberIds|] == cc.memberIds;
    if rest == [] {
      ws.DissolveCommandChannel(cc.id);
    } else {
      ws.UpsertCommandChannel(cc.id, cc.leaderId, rest, grow);
    }
  }

  // ---- both transports deliver every event: handling one twice is handling it once ----

  lemma RebuiltTwice(chs: Channels, ccId: uint32, leaderId: uint32, members: seq<uint32>, grow: Allocator)
    requires ChannelsWellFormed(chs)
    ensures var once := UpsertChannel(chs, ccId, leaderId, members, grow);
            UpsertChannel(once, ccId, leaderId, members, grow) == once
  {
    var once := UpsertChannel(chs, ccId, leaderId, members, grow);
    var cc := once.ccs[ccId];
    assert OldAsSeen(cc.memberIds, cc.capacity, members) == members;
    assert ElementsOf(members) - ElementsOf(members) == {};
    assert cc.speak - {} == cc.speak;
    assert once.ccs[ccId := cc] == once.ccs;
    var was := ChannelOrNew(chs, ccId);
    PointedTwice(chs.playerCC, members, ccId,
                 ElementsOf(OldAsSeen(was.memberIds, was.capacity, members)) - ElementsOf(members));
  }

  lemma PointedTwice(playerCC: map<uint32, uint32>, members: seq<uint32>, ccId: uint32, gone: set<uint32>)
    requires gone !! ElementsOf(members)
    ensures var once := Unpoint(PointTo(playerCC, members, ccId), gone, ccId);
            Unpoint(PointTo(once, members, ccId), {}, ccId) == once
  {
  }

  lemma LeftTwice(chs: Channels, id: uint32, grow: Allocator)
    requires ChannelsWellFormed(chs)
    ensures var once := LeaveOwnChannel(chs, id, grow);
            LeaveOwnChannel(once, id, grow) == once
  {
    if id in chs.playerCC && chs.playerCC[id] in chs.ccs {
      var cc := chs.ccs[chs.playerCC[id]];
      var rest := Without(cc.memberIds, id);
      if rest != [] {
        RebuiltTwice(chs, cc.id, cc.leaderId, rest, grow);
        assert Without(rest, id) == rest;
      }
    }
  }

  lemma SessionsUpdatedTwice(t: Sessions, e: Event)
    requires Sound(t)
    ensures ApplyToSessions(ApplyToSessions(t, e), e) == ApplyToSessions(t, e)
  {
  }

  lemma WorldUpdatedTwice(w: World, e: Event, grow: Allocator)
    requires WellFormed(w)
    ensures ApplyToWorld(ApplyToWorld(w, e, grow), e, grow) == ApplyToWorld(w, e, grow)
  {
    match e
    case CCChange(player, ccId, leaderId, members) =>
      if ccId == 0 {
        LeftTwice(w.channels, player, grow);
      } else {
        RebuiltTwice(w.channels, ccId, leaderId, members, grow);
      }
    case ClanLeaderChange(_, clanId, _) =>
      var once := ApplyToWorld(w, e, grow);
      assert once.clans[clanId := once.clans[clanId]] == once.clans;
    case Logout(player) =>
    case _ =>
      var once := ApplyToWorld(w, e, grow);
      assert e.player in once.players ==> once.players[e.player := once.players[e.player]] == once.players;
  }

  lemma HandledTwice(s: State, e: Event, grow: Allocator)
    requires WellFormed(s.world) && Sound(s.sessions)
    ensures Apply(Apply(s, e, grow), e, grow) == Apply(s, e, grow)
  {
    SessionsUpdatedTwice(s.sessions, e);
    WorldUpdatedTwice(s.world, e, grow);
  }
}
