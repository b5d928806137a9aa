/**
 * What each game event changes in the world, and who is told about it, read off the records.
 */
module WorldChanges {
  import opened Types
  import opened Worlds
  import opened Events
  import opened DecisionMatrix
  import Replication

  // ---- players ----

  // The worlds differ in one player's record at most, which the second has.
  ghost predicate OnlyPlayerDiffers(w: World, v: World, id: uint32) {
    && v == w.(players := v.players) && v.players.Keys == w.players.Keys + {id}
    && forall other :: other in w.players && other != id ==> v.players[other] == w.players[other]
  }

  // A player the service has not heard of: in no group, at the origin, every channel on at
  // volume 1, nobody muted, not whispering.
  ghost predicate IsNew(p: Player, id: uint32) {
    && p.id == id && p.sessionId == 0 && p.clanId == 0 && p.allyId == 0 && p.partyId == 0 && p.instanceId == 0
    && p.x == 0.0 && p.y == 0.0 && p.z == 0.0 && !p.isLeader && !p.isPartyLeader
    && p.prefs.channelEnabled == [true, true, true, true] && p.prefs.channelVolume == [1.0, 1.0, 1.0, 1.0]
    && p.prefs.muted == {} && p.prefs.playerVolume == map[] && p.prefs.whisperMode == 0 && p.prefs.whisperKey == 0
  }

  // What was known of a player before: its record, or that of a new one.
  ghost predicate Known(w: World, id: uint32, p: Player) {
    if id in w.players then p == w.players[id] else IsNew(p, id)
  }

  lemma PositionChanges(w: World, player: uint32, x: real, y: real, z: real, instanceId: uint32, grow: Allocator)
    ensures var v := ApplyToWorld(w, Position(player, x, y, z, instanceId), grow);
            if player !in w.players then v == w
            else
              && OnlyPlayerDiffers(w, v, player)
              && v.players[player].x == x && v.players[player].y == y && v.players[player].z == z
              && v.players[player].instanceId == instanceId
              && var p, q := w.players[player], v.players[player];
                 q == p.(x := q.x, y := q.y, z := q.z, instanceId := q.instanceId)
  {
  }

  lemma InstanceChanges(w: World, player: uint32, instanceId: uint32, grow: Allocator)
    ensures var v := ApplyToWorld(w, InstanceChange(player, instanceId), grow);
            if player !in w.players then v == w
            else
              && OnlyPlayerDiffers(w, v, player) && v.players[player].instanceId == instanceId
              && v.players[player] == w.players[player].(instanceId := v.players[player].instanceId)
  {
  }

  lemma ClanChanges(w: World, player: uint32, clanId: uint32, isLeader: bool, grow: Allocator)
    ensures var v := ApplyToWorld(w, ClanChange(player, clanId, isLeader), grow);
            && OnlyPlayerDiffers(w, v, player)
            && v.players[player].clanId == clanId && v.players[player].isLeader == isLeader
            && exists p :: Known(w, player, p) && v.players[player] == p.(clanId := clanId, isLeader := isLeader)
  {
    assert Known(w, player, PlayerOrNew(w, player));
  }

  lemma AllyChanges(w: World, player: uint32, allyId: uint32, grow: Allocator)
    ensures var v := ApplyToWorld(w, AllyChange(player, allyId), grow);
            && OnlyPlayerDiffers(w, v, player) && v.players[player].allyId == allyId
            && exists p :: Known(w, player, p) && v.players[player] == p.(allyId := allyId)
  {
    assert Known(w, player, PlayerOrNew(w, player));
  }

  lemma PartyChanges(w: World, player: uint32, partyId: uint64, isPartyLeader: bool, grow: Allocator)
    ensures var v := ApplyToWorld(w, PartyChange(player, partyId, isPartyLeader), grow);
            && OnlyPlayerDiffers(w, v, player)
            && v.players[player].partyId == partyId && v.players[player].isPartyLeader == isPartyLeader
            && exists p :: Known(w, player, p) &&
                 v.players[player] == p.(partyId := partyId, isPartyLeader := isPartyLeader)
  {
    assert Known(w, player, PlayerOrNew(w, player));
  }

  // An authentication makes the player known and gives it its session.
  lemma AuthChanges(w: World, player: uint32, sid: uint32, grow: Allocator)
    ensures var v := Replication.Step(w, Replication.Auth(player, sid), grow);
            && OnlyPlayerDiffers(w, v, player) && v.players[player].sessionId == sid
            && exists p :: Known(w, player, p) && v.players[player] == p.(sessionId := sid)
  {
    assert Known(w, player, PlayerOrNew(w, player));
    assert PlayerOrNew(w, player) == PlayerOrNew(w, player).(clanId := PlayerOrNew(w, player).clanId);
  }

  // ---- clans ----

  // The clan is led by whom the event names; a new one has no sub-leaders and no mode.
  lemma LeaderChanges(w: World, player: uint32, clanId: uint32, leaderId: uint32, grow: Allocator)
    ensures var v := ApplyToWorld(w, ClanLeaderChange(player, clanId, leaderId), grow);
            && v == w.(clans := v.clans) && v.clans.Keys == w.clans.Keys + {clanId}
            && (forall c :: c in w.clans && c != clanId ==> v.clans[c] == w.clans[c])
            && var q := v.clans[clanId];
               && q.leaderId == leaderId && !q.isAllyLeader
               && if clanId in w.clans then q == w.clans[clanId].(leaderId := leaderId, isAllyLeader := false)
                  else q.id == clanId && q.subLeaders == {} && q.mode == 0 && q.modeSetBy == 0 && !q.optedOut
  {
  }

  // ---- command channels ----

  function ListBefore(chs: Channels, ccId: uint32): seq<uint32> {
    if ccId in chs.ccs then chs.ccs[ccId].memberIds else []
  }

  function CapacityBefore(chs: Channels, ccId: uint32): nat {
    if ccId in chs.ccs then chs.ccs[ccId].capacity else 0
  }

  // A member of the old list but not of the new one, listed at a place the new one does not
  // overwrite: the new list overwrites the old one's array if that holds it.
  ghost predicate SeenToLeave(chs: Channels, ccId: uint32, members: seq<uint32>, id: uint32) {
    id !in members &&
    exists i :: 0 <= i < |ListBefore(chs, ccId)| && ListBefore(chs, ccId)[i] == id &&
                (|members| > CapacityBefore(chs, ccId) || i >= |members|)
  }

  lemma SeenToLeaveIff(chs: Channels, ccId: uint32, members: seq<uint32>, id: uint32)
    ensures var cc := ChannelOrNew(chs, ccId);
            SeenToLeave(chs, ccId, members, id) <==>
            id in ElementsOf(OldAsSeen(cc.memberIds, cc.capacity, members)) && id !in members
  {
    var prior, capacity := ListBefore(chs, ccId), CapacityBefore(chs, ccId);
    var seen := OldAsSeen(prior, capacity, members);
    forall i | 0 <= i < |prior|
      ensures seen[i] == if |members| <= capacity && i < |members| then members[i] else prior[i]
    {
      OldAsSeenAt(prior, capacity, members, i);
    }
    if id in seen && id !in members {
      var i :| 0 <= i < |seen| && seen[i] == id;
      assert prior[i] == id;
    }
    if SeenToLeave(chs, ccId, members, id) {
      var i :| 0 <= i < |prior| && prior[i] == id && (|members| > capacity || i >= |members|);
      assert seen[i] == id;
    }
  }

  // The list and the leader are replaced; members are mapped to the channel, and those seen to
  // leave lose their grant and their mapping to it.
  lemma ChannelChanges(w: World, player: uint32, ccId: uint32, leaderId: uint32, members: seq<uint32>, grow: Allocator)
    requires ccId != 0
    ensures var v := ApplyToWorld(w, CCChange(player, ccId, leaderId, members), grow);
            v == w.(channels := v.channels) && ChannelRebuilt(w.channels, v.channels, ccId, leaderId, members)
  {
    RebuildChanges(w.channels, ccId, leaderId, members, grow);
  }

  ghost predicate ChannelRebuilt(chs: Channels, after: Channels, ccId: uint32, leaderId: uint32, members: seq<uint32>) {
    && after.ccs.Keys == chs.ccs.Keys + {ccId}
    && (forall c :: c in chs.ccs && c != ccId ==> after.ccs[c] == chs.ccs[c])
    && (ccId in chs.ccs ==> after.ccs[ccId].id == chs.ccs[ccId].id) && (ccId !in chs.ccs ==> after.ccs[ccId].id == ccId)
    && after.ccs[ccId].leaderId == leaderId && after.ccs[ccId].memberIds == members
    && after.ccs[ccId].capacity >= |members|
    && (|members| <= CapacityBefore(chs, ccId) ==> after.ccs[ccId].capacity == CapacityBefore(chs, ccId))
    && (forall id :: id in after.ccs[ccId].speak <==>
          ccId in chs.ccs && id in chs.ccs[ccId].speak && !SeenToLeave(chs, ccId, members, id))
    && (forall id :: id in members ==> id in after.playerCC && after.playerCC[id] == ccId)
    && (forall id :: id !in members ==>
          && (id in after.playerCC <==>
                id in chs.playerCC && !(chs.playerCC[id] == ccId && SeenToLeave(chs, ccId, members, id)))
          && (id in after.playerCC ==> after.playerCC[id] == chs.playerCC[id]))
  }

  lemma RebuildChanges(chs: Channels, ccId: uint32, leaderId: uint32, members: seq<uint32>, grow: Allocator)
    ensures ChannelRebuilt(chs, UpsertChannel(chs, ccId, leaderId, members, grow), ccId, leaderId, members)
  {
    forall id
      ensures SeenToLeave(chs, ccId, members, id) <==>
              id in ElementsOf(OldAsSeen(ChannelOrNew(chs, ccId).memberIds, ChannelOrNew(chs, ccId).capacity,
                                         members)) - ElementsOf(members)
    {
      SeenToLeaveIff(chs, ccId, members, id);
    }
  }

  // A player that reports no channel is taken off the list of its own, which is rebuilt
  // without it, or goes with the mappings of its members if nobody else is listed.
  lemma LeavingChanges(w: World, player: uint32, leaderId: uint32, members: seq<uint32>, grow: Allocator)
    requires ChannelsWellFormed(w.channels)
    ensures var v := ApplyToWorld(w, CCChange(player, 0, leaderId, members), grow);
            && v == w.(channels := v.channels)
            && if !Mapped(w.channels, player) then v == w
               else
                 var c := w.channels.playerCC[player];
                 var cc := w.channels.ccs[c];
                 if forall id :: id in cc.memberIds ==> id == player then ChannelGone(w.channels, v.channels, c)
                 else ChannelRebuilt(w.channels, v.channels, c, cc.leaderId, Without(cc.memberIds, player))
  {
    if Mapped(w.channels, player) {
      var c := w.channels.playerCC[player];
      var cc := w.channels.ccs[c];
      var rest := Without(cc.memberIds, player);
      if rest == [] {
        assert forall id :: id in cc.memberIds && id != player ==> id in rest;
      } else {
        assert rest[0] in rest;
        RebuildChanges(w.channels, c, cc.leaderId, rest, grow);
      }
    }
  }

  ghost predicate ChannelGone(chs: Channels, after: Channels, ccId: uint32)
    requires ccId in chs.ccs
  {
    && after.ccs == chs.ccs - {ccId}
    && forall id ::
         && (id in after.playerCC <==>
               id in chs.playerCC && !(id in chs.ccs[ccId].memberIds && chs.playerCC[id] == ccId))
         && (id in after.playerCC ==> after.playerCC[id] == chs.playerCC[id])
  }

  lemma DissolvingChanges(chs: Channels, ccId: uint32)
    ensures if ccId in chs.ccs then ChannelGone(chs, DissolveChannel(chs, ccId), ccId)
            else DissolveChannel(chs, ccId) == chs
  {
  }

  // ---- logouts ----

  // The player's record goes, its ranks, the modes it set and its mutes; its channel loses it,
  // or goes if it led it.
  lemma LogoutChanges(w: World, player: uint32, grow: Allocator)
    ensures var v := ApplyToWorld(w, Logout(player), grow);
            if player !in w.players then v == w
            else
              && v.players == w.players - {player}
              && v.clans.Keys == w.clans.Keys
              && (forall c :: c in w.clans ==> Stripped(w.clans[c], v.clans[c], player))
              && (forall k :: k in v.mutes <==> k in w.mutes && k.0 != player && k.1 != player)
              && (forall k :: k in v.mutes ==> v.mutes[k] == w.mutes[k])
              && ChannelLeft(w.channels, v.channels, player)
  {
  }

  ghost predicate Stripped(p: Clan, q: Clan, id: uint32) {
    && q == p.(subLeaders := q.subLeaders, mode := q.mode, modeSetBy := q.modeSetBy)
    && (forall x :: x in q.subLeaders <==> x in p.subLeaders && x != id)
    && (if p.modeSetBy == id then q.mode == 0 && q.modeSetBy == 0 else q.mode == p.mode && q.modeSetBy == p.modeSetBy)
  }

  ghost predicate ChannelLeft(chs: Channels, after: Channels, id: uint32) {
    if !Mapped(chs, id) then after == chs.(playerCC := chs.playerCC - {id})
    else
      var c := chs.playerCC[id];
      && (forall k :: k in chs.ccs && k != c ==> k in after.ccs && after.ccs[k] == chs.ccs[k])
      && (forall k :: k in after.ccs ==> k in chs.ccs)
      && (c in after.ccs <==> chs.ccs[c].leaderId != id)
      && (c in after.ccs ==>
            && after.ccs[c] == chs.ccs[c].(memberIds := after.ccs[c].memberIds, speak := after.ccs[c].speak)
            && after.ccs[c].memberIds == Without(chs.ccs[c].memberIds, id)
            && forall x :: x in after.ccs[c].speak <==> x in chs.ccs[c].speak && x != id)
      && (forall x ::
            && (x in after.playerCC <==>
                  x in chs.playerCC && x != id &&
                  !(chs.ccs[c].leaderId == id && x in chs.ccs[c].memberIds && chs.playerCC[x] == c))
            && (x in after.playerCC ==> after.playerCC[x] == chs.playerCC[x]))
  }

  // ---- who is told ----

  ghost predicate InClan(w: World, id: uint32, clanId: uint32) {
    clanId != 0 && id in w.players && w.players[id].clanId == clanId
  }

  ghost predicate InAlly(w: World, id: uint32, allyId: uint32) {
    allyId != 0 && id in w.players && w.players[id].allyId == allyId
  }

  ghost predicate InParty(w: World, id: uint32, partyId: uint64) {
    partyId != 0 && id in w.players && w.players[id].partyId == partyId
  }

  function ClanBefore(w: World, id: uint32): uint32 {
    if id in w.players then w.players[id].clanId else 0
  }

  function AllyBefore(w: World, id: uint32): uint32 {
    if id in w.players then w.players[id].allyId else 0
  }

  function PartyBefore(w: World, id: uint32): uint64 {
    if id in w.players then w.players[id].partyId else 0
  }

  ghost predicate SharesChannel(w: World, id: uint32, other: uint32) {
    Mapped(w.channels, id) && other in w.channels.ccs[w.channels.playerCC[id]].memberIds
  }

  // The subject, unless it is player 0, and the members of the groups the event takes it out
  // of or into; of a channel, those listed before and after.
  lemma ToldIff(w: World, e: Event, id: uint32, grow: Allocator)
    ensures id in Affected(w, e, grow) <==>
            || (id == e.player && id != 0)
            || match e
               case Position(_, _, _, _, _) => false
               case InstanceChange(_, _) => false
               case ClanChange(player, clanId, _) =>
                 InClan(w, id, ClanBefore(w, player)) || InClan(w, id, clanId) || (clanId != 0 && id == player)
               case AllyChange(player, allyId) =>
                 InAlly(w, id, AllyBefore(w, player)) || InAlly(w, id, allyId) || (allyId != 0 && id == player)
               case PartyChange(player, partyId, _) =>
                 InParty(w, id, PartyBefore(w, player)) || InParty(w, id, partyId) || (partyId != 0 && id == player)
               case ClanLeaderChange(_, clanId, _) => InClan(w, id, clanId)
               case CCChange(player, ccId, _, members) => SharesChannel(w, player, id) || (ccId != 0 && id in members)
               case Logout(player) =>
                 player in w.players &&
                 (InParty(w, id, w.players[player].partyId) || InClan(w, id, w.players[player].clanId) ||
                  InAlly(w, id, w.players[player].allyId) || SharesChannel(w, player, id))
  {
  }
}
