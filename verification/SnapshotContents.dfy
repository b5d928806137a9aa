/** What a client's snapshot says, field by field, in terms of the world's and the sessions' records. */
module SnapshotContents {
  import opened Types
  import opened Worlds
  import opened Topology
  import opened Frames
  import opened ClientState
  import opened DecisionMatrix

  // 2 for leaders, 1 for sub-leaders, 0 for others.
  function Rank(w: World, id: uint32): uint8 {
    if id !in w.players || w.players[id].clanId == 0 || w.players[id].clanId !in w.clans then 0
    else if w.players[id].isLeader || w.clans[w.players[id].clanId].leaderId == id then 2
    else if id in w.clans[w.players[id].clanId].subLeaders then 1
    else 0
  }

  lemma RankIsRole(w: World, id: uint32)
    ensures RoleCode(RoleOf(w, id)) == Rank(w, id)
  {
  }

  lemma ActiveIffConnected(t: Sessions, id: uint32)
    requires Sound(t)
    ensures VoiceActive(t, id) <==> id in t.byPlayer
  {
  }

  lemma UnknownSeesNothing(f: Frame, w: World, t: Sessions, player: uint32)
    requires IsFrame(f, w, t, player) && player !in w.players
    ensures f == Frame(0, 0, 0, 0, 0, 0, false, 0, false, None, None, None, None)
  {
  }

  lemma HeaderContents(f: Frame, w: World, t: Sessions, player: uint32)
    requires IsFrame(f, w, t, player) && player in w.players
    ensures var p := w.players[player];
            && f.role == Rank(w, player)
            && f.clanId == p.clanId && f.allyId == p.allyId && f.partyId == p.partyId
            && (p.clanId in w.clans ==>
                  f.clanMode == w.clans[p.clanId].mode && f.optedOut == w.clans[p.clanId].optedOut)
            && (p.clanId !in w.clans ==> f.clanMode == 0 && !f.optedOut)
  {
    RankIsRole(w, player);
  }

  // ---- rosters ----

  // Each of a group once, and nobody else.
  ghost predicate Rosters(ms: seq<Frames.Member>, group: uint32 -> bool) {
    && (forall i, j :: 0 <= i < j < |ms| ==> ms[i].id != ms[j].id)
    && (forall i :: 0 <= i < |ms| ==> group(ms[i].id))
    && (forall id :: group(id) ==> exists i :: 0 <= i < |ms| && ms[i].id == id)
  }

  function ClanOf(w: World, clanId: uint32): uint32 -> bool {
    (id: uint32) => id in w.players && w.players[id].clanId == clanId
  }

  function AllyOf(w: World, allyId: uint32): uint32 -> bool {
    (id: uint32) => id in w.players && w.players[id].allyId == allyId
  }

  function PartyOf(w: World, partyId: uint64): uint32 -> bool {
    (id: uint32) => id in w.players && w.players[id].partyId == partyId
  }

  lemma ListRosters(ms: seq<Frames.Member>, ids: seq<uint32>, members: set<uint32>, group: uint32 -> bool)
    requires Lists(ids, members) && forall id :: id in members <==> group(id)
    requires |ms| == |ids| && forall i :: 0 <= i < |ids| ==> ms[i].id == ids[i]
    ensures Rosters(ms, group)
  {
    forall id | group(id)
      ensures exists i :: 0 <= i < |ms| && ms[i].id == id
    {
      assert id in ids;
      var i :| 0 <= i < |ids| && ids[i] == id;
      assert ms[i].id == id;
    }
    assert forall i :: 0 <= i < |ids| ==> ids[i] in ids;
  }

  // The clan's, with ranks and who is muted on the clan's scope.
  lemma ClanContents(f: Frame, w: World, t: Sessions, player: uint32)
    requires IsFrame(f, w, t, player) && player in w.players && Sound(t)
    ensures w.players[player].clanId == 0 ==> f.clan == None
    ensures w.players[player].clanId != 0 ==>
              && f.clan.Some? && Rosters(f.clan.value, ClanOf(w, w.players[player].clanId))
              && forall i :: 0 <= i < |f.clan.value| ==>
                   var m := f.clan.value[i];
                   && (m.voiceActive <==> m.id in t.byPlayer) && m.role == Rank(w, m.id)
                   && !m.canSpeak && (m.remoteMuted <==> ClanMutedByAny(w, m.id))
  {
    var c := w.players[player].clanId;
    if c != 0 {
      var ids :| Lists(ids, ClanMembers(w, c)) && f.clan.value == ClanInfos(w, t, ids);
      ListRosters(f.clan.value, ids, ClanMembers(w, c), ClanOf(w, c));
      forall i | 0 <= i < |ids|
        ensures f.clan.value[i] == Frames.Member(ids[i], ids[i] in t.byPlayer, Rank(w, ids[i]), false,
                                                 ClanMutedByAny(w, ids[i]))
      {
        RankIsRole(w, ids[i]);
        ActiveIffConnected(t, ids[i]);
        MutedByAnyIff(w, ids[i]);
      }
    }
  }

  // The alliance's, with who is muted on its scope.
  lemma AllyContents(f: Frame, w: World, t: Sessions, player: uint32)
    requires IsFrame(f, w, t, player) && player in w.players && Sound(t)
    ensures w.players[player].allyId == 0 ==> f.ally == None
    ensures w.players[player].allyId != 0 ==>
              && f.ally.Some? && Rosters(f.ally.value, AllyOf(w, w.players[player].allyId))
              && forall i :: 0 <= i < |f.ally.value| ==>
                   var m := f.ally.value[i];
                   && (m.voiceActive <==> m.id in t.byPlayer) && m.role == 0
                   && !m.canSpeak && (m.remoteMuted <==> AllyMutedByAny(w, m.id))
  {
    var a := w.players[player].allyId;
    if a != 0 {
      var ids :| Lists(ids, AllyMembers(w, a)) && f.ally.value == AllyInfos(w, t, ids);
      ListRosters(f.ally.value, ids, AllyMembers(w, a), AllyOf(w, a));
      forall i | 0 <= i < |ids|
        ensures f.ally.value[i] == Frames.Member(ids[i], ids[i] in t.byPlayer, 0, false, AllyMutedByAny(w, ids[i]))
      {
        ActiveIffConnected(t, ids[i]);
        MutedByAnyIff(w, ids[i]);
      }
    }
  }

  // The party's: its leaders first, and by id among equals.
  lemma PartyContents(f: Frame, w: World, t: Sessions, player: uint32)
    requires IsFrame(f, w, t, player) && player in w.players && Sound(t)
    ensures w.players[player].partyId == 0 ==> f.party == None
    ensures w.players[player].partyId != 0 ==>
              && f.party.Some? && Rosters(f.party.value, PartyOf(w, w.players[player].partyId))
              && (forall i :: 0 <= i < |f.party.value| ==>
                    var m := f.party.value[i];
                    (m.voiceActive <==> m.id in t.byPlayer) && m.role == 0 && !m.canSpeak && !m.remoteMuted)
              && (forall i, j :: 0 <= i < j < |f.party.value| ==>
                    f.party.value[i].id in w.players && f.party.value[j].id in w.players &&
                    var p, q := w.players[f.party.value[i].id], w.players[f.party.value[j].id];
                    (p.isPartyLeader && !q.isPartyLeader) ||
                    (p.isPartyLeader == q.isPartyLeader && f.party.value[i].id < f.party.value[j].id))
  {
    var k := w.players[player].partyId;
    if k != 0 {
      var ids :| Lists(ids, PartyMembers(w, player)) && InOrder(w.players, ids) && f.party.value == PartyInfos(t, ids);
      ListRosters(f.party.value, ids, PartyMembers(w, player), PartyOf(w, k));
      forall i | 0 <= i < |ids|
        ensures f.party.value[i] == Frames.Member(ids[i], ids[i] in t.byPlayer, 0, false, false)
        ensures ids[i] in w.players
      {
        ActiveIffConnected(t, ids[i]);
        assert ids[i] in ids;
      }
    }
  }

  // The channel's, in the order of its list, with who may speak.
  lemma ChannelContents(f: Frame, w: World, t: Sessions, player: uint32)
    requires IsFrame(f, w, t, player) && player in w.players && Sound(t)
    ensures !Mapped(w.channels, player) ==> f.ccId == 0 && f.ccLeaderId == 0 && !f.ccCanSpeak && f.cc == None
    ensures Mapped(w.channels, player) ==>
              var cc := w.channels.ccs[w.channels.playerCC[player]];
              && f.ccId == cc.id && f.ccLeaderId == cc.leaderId
              && (f.ccCanSpeak <==> player == cc.leaderId || player in cc.speak)
              && f.cc.Some? && |f.cc.value| == |cc.memberIds|
              && forall i :: 0 <= i < |cc.memberIds| ==>
                   var m := f.cc.value[i];
                   && m.id == cc.memberIds[i] && (m.voiceActive <==> m.id in t.byPlayer) && m.role == 0
                   && (m.canSpeak <==> m.id == cc.leaderId || m.id in cc.speak) && !m.remoteMuted
  {
    if Mapped(w.channels, player) {
      var cc := w.channels.ccs[w.channels.playerCC[player]];
      forall i | 0 <= i < |cc.memberIds|
        ensures f.cc.value[i] == Frames.Member(cc.memberIds[i], cc.memberIds[i] in t.byPlayer, 0,
                                               cc.memberIds[i] == cc.leaderId || cc.memberIds[i] in cc.speak, false)
      {
        ActiveIffConnected(t, cc.memberIds[i]);
      }
    }
  }
}
