/**
 * What a logout leaves behind: nothing of the player, and everything of the others, but
 * for the member lists of channels the player had moved on from.
 */
module Logout {
  import opened Types
  import opened Worlds

  // The player is named nowhere outside the command channels, and mapped to none of them.
  ghost predicate Forgotten(w: World, id: uint32) {
    && id !in w.players
    && (forall c :: c in w.clans ==> id !in w.clans[c].subLeaders && (w.clans[c].modeSetBy == id ==> id == 0))
    && (forall k :: k in w.mutes ==> k.0 != id && k.1 != id)
    && id !in w.channels.playerCC
  }

  lemma LogoutForgets(w: World, id: uint32)
    requires id in w.players
    ensures Forgotten(RemovePlayer(w, id), id)
  {
  }

  // Another player keeps its record and role, and its party but for the one who left.
  lemma LogoutSparesOthers(w: World, id: uint32, other: uint32)
    requires other != id
    ensures other in RemovePlayer(w, id).players <==> other in w.players
    ensures other in w.players ==> RemovePlayer(w, id).players[other] == w.players[other]
    ensures RoleOf(RemovePlayer(w, id), other) == RoleOf(w, other)
    ensures PartyMembers(RemovePlayer(w, id), other) ==
            if id in w.players then PartyMembers(w, other) - {id} else PartyMembers(w, other)
  {
  }

  // A clan loses the player as sub-leader, and its mode if the player had set it.
  lemma StrippedClan(clans: map<uint32, Clan>, id: uint32, c: uint32)
    requires c in clans
    ensures c in StripClans(clans, id)
    ensures StripClans(clans, id)[c].leaderId == clans[c].leaderId
    ensures StripClans(clans, id)[c].subLeaders == clans[c].subLeaders - {id}
    ensures StripClans(clans, id)[c].optedOut == clans[c].optedOut
    ensures StripClans(clans, id)[c].mode == if clans[c].modeSetBy == id then MODE_NONE else clans[c].mode
  {
  }

  lemma LogoutSparesMutes(w: World, id: uint32, muter: uint32, target: uint32)
    requires id in w.players
    ensures (muter, target) in RemovePlayer(w, id).mutes <==>
            (muter, target) in w.mutes && muter != id && target != id
    ensures (muter, target) in RemovePlayer(w, id).mutes ==>
              RemovePlayer(w, id).mutes[(muter, target)] == w.mutes[(muter, target)]
  {
  }

  ghost predicate MappedTo(chs: Channels, id: uint32, c: uint32) {
    id in chs.playerCC && chs.playerCC[id] == c
  }

  // What becomes of one channel.
  lemma LeavingOneChannel(chs: Channels, id: uint32, c: uint32)
    requires c in chs.ccs
    ensures !MappedTo(chs, id, c) ==> c in LeaveChannel(chs, id).ccs && LeaveChannel(chs, id).ccs[c] == chs.ccs[c]
    ensures MappedTo(chs, id, c) ==> (c in LeaveChannel(chs, id).ccs <==> chs.ccs[c].leaderId != id)
    ensures MappedTo(chs, id, c) && chs.ccs[c].leaderId != id ==>
              LeaveChannel(chs, id).ccs[c] == chs.ccs[c].(memberIds := Without(chs.ccs[c].memberIds, id),
                                                          speak := chs.ccs[c].speak - {id})
  {
  }

  lemma LeavingAddsNoChannel(chs: Channels, id: uint32, c: uint32)
    requires c !in chs.ccs
    ensures c !in LeaveChannel(chs, id).ccs
  {
  }

  ghost predicate ListedNowhere(chs: Channels, id: uint32) {
    forall c :: c in chs.ccs ==> id !in chs.ccs[c].memberIds && id !in chs.ccs[c].speak
  }

  // A player that had moved from one channel to another stays listed in the first.
  lemma LogoutUnlistsIff(chs: Channels, id: uint32)
    ensures ListedNowhere(LeaveChannel(chs, id), id) <==>
            forall c :: c in chs.ccs && (id in chs.ccs[c].memberIds || id in chs.ccs[c].speak) ==> MappedTo(chs, id, c)
  {
    var after := LeaveChannel(chs, id);
    forall c | c in chs.ccs
      ensures c in after.ccs && (id in after.ccs[c].memberIds || id in after.ccs[c].speak) <==>
              (id in chs.ccs[c].memberIds || id in chs.ccs[c].speak) && !MappedTo(chs, id, c)
    {
      LeavingOneChannel(chs, id, c);
    }
    forall c | c in after.ccs
      ensures c in chs.ccs
    {
      if c !in chs.ccs {
        LeavingAddsNoChannel(chs, id, c);
      }
    }
  }

  // The other players keep their channel, unless the player led it: then its members are let go.
  lemma LogoutSparesOtherMappings(chs: Channels, id: uint32, other: uint32)
    requires other != id
    ensures other in LeaveChannel(chs, id).playerCC <==>
            other in chs.playerCC && !LetGo(chs, id, other)
    ensures other in LeaveChannel(chs, id).playerCC ==> LeaveChannel(chs, id).playerCC[other] == chs.playerCC[other]
  {
  }

  ghost predicate LetGo(chs: Channels, leader: uint32, other: uint32) {
    && other in chs.playerCC && MappedTo(chs, leader, chs.playerCC[other]) && chs.playerCC[other] in chs.ccs
    && chs.ccs[chs.playerCC[other]].leaderId == leader && other in chs.ccs[chs.playerCC[other]].memberIds
  }

  // A player taken into a second channel and then logged out stays on the first one's list.
  lemma MovedPlayerStaysListed(id: uint32, first: uint32, second: uint32, other: uint32, grow: Allocator)
    requires first != second && other != id
    ensures var moved := UpsertChannel(UpsertChannel(EMPTY_WORLD.channels, first, other, [other, id], grow), second,
                                       other, [other, id], grow);
            MappedTo(moved, id, second) && id in LeaveChannel(moved, id).ccs[first].memberIds
  {
    var once := UpsertChannel(EMPTY_WORLD.channels, first, other, [other, id], grow);
    var moved := UpsertChannel(once, second, other, [other, id], grow);
    assert [other, id][1] == id;
    assert moved.ccs[first].memberIds == [other, id] && MappedTo(moved, id, second);
    LeavingOneChannel(moved, id, first);
  }
}
