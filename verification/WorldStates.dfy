/**
 * The service's mutable world container. Each method is one locked operation; its
 * contract gives the whole new state through View, and Valid says what the two
 * redundant structures (party index, list of remote mutes) always are.
 */
module WorldStates {
  import opened Types
  import opened Worlds

  datatype RemoteMute = RemoteMute(muterId: uint32, targetId: uint32, onClan: bool, onAlly: bool)

  lemma Overwritten<K, V>(m: map<K, V>, k: K, v: V, v': V)
    ensures m[k := v][k := v'] == m[k := v']
  {
  }

  // ---- the party index ----

  // `parties` lists exactly the parties that have a member, each with exactly its members.
  ghost predicate IndexesParties(parties: map<uint64, set<uint32>>, players: map<uint32, Player>) {
    && (forall k :: k in parties ==> k != 0 && parties[k] != {})
    && (forall k, m :: k in parties && m in parties[k] ==> m in players && players[m].partyId == k)
    && (forall m :: m in players && players[m].partyId != 0 ==>
          players[m].partyId in parties && m in parties[players[m].partyId])
  }

  lemma IndexDependsOnPartyIds(parties: map<uint64, set<uint32>>, before: map<uint32, Player>, after: map<uint32,
      Player>)
    requires IndexesParties(parties, before)
    requires before.Keys == after.Keys && forall m :: m in before ==> after[m].partyId == before[m].partyId
    ensures IndexesParties(parties, after)
  {
  }

  function Leave(parties: map<uint64, set<uint32>>, k: uint64, id: uint32): map<uint64, set<uint32>> {
    if k !in parties then parties
    else if parties[k] - {id} == {} then parties - {k}
    else parties[k := parties[k] - {id}]
  }

  function Join(parties: map<uint64, set<uint32>>, k: uint64, id: uint32): map<uint64, set<uint32>> {
    parties[k := (if k in parties then parties[k] else {}) + {id}]
  }

  lemma IndexAfterLeave(parties: map<uint64, set<uint32>>, players: map<uint32, Player>, id: uint32)
    requires IndexesParties(parties, players) && id in players && players[id].partyId != 0
    ensures IndexesParties(Leave(parties, players[id].partyId, id), players[id := players[id].(partyId := 0)])
  {
    var after := Leave(parties, players[id].partyId, id);
    forall m | m in players && m != id && players[m].partyId != 0
      ensures players[m].partyId in after && m in after[players[m].partyId]
    {
      assert m in parties[players[m].partyId] - {id};
    }
  }

  lemma IndexAfterJoin(parties: map<uint64, set<uint32>>, players: map<uint32, Player>, id: uint32, k: uint64)
    requires IndexesParties(parties, players) && id in players && players[id].partyId == 0 && k != 0
    ensures IndexesParties(Join(parties, k, id), players[id := players[id].(partyId := k)])
  {
  }

  lemma IndexIgnoresNewcomer(parties: map<uint64, set<uint32>>, players: map<uint32, Player>, id: uint32)
    requires IndexesParties(parties, players) && id !in players
    ensures IndexesParties(parties, players[id := NewPlayer(id)])
  {
  }

  lemma IndexIgnoresSolo(parties: map<uint64, set<uint32>>, players: map<uint32, Player>, id: uint32)
    requires IndexesParties(parties, players) && id in players && players[id].partyId == 0
    ensures IndexesParties(parties, players - {id})
  {
  }

  // ---- the list of remote mutes ----

  function PairOf(m: RemoteMute): (uint32, uint32) {
    (m.muterId, m.targetId)
  }

  ghost predicate DistinctPairs(ms: seq<RemoteMute>) {
    forall i, j :: 0 <= i < j < |ms| ==> PairOf(ms[i]) != PairOf(ms[j])
  }

  ghost function MuteTable(ms: seq<RemoteMute>): map<(uint32, uint32), MuteScopes> {
    if ms == [] then map[]
    else
      var m := ms[|ms| - 1];
      MuteTable(ms[..|ms| - 1])[PairOf(m) := MuteScopes(m.onClan, m.onAlly)]
  }

  ghost function Keep(ms: seq<RemoteMute>, keep: ((uint32, uint32)) -> bool): (r: seq<RemoteMute>)
    ensures |r| <= |ms|
    ensures forall m :: m in r ==> m in ms && keep(PairOf(m))
  {
    if ms == [] then []
    else
      var m := ms[|ms| - 1];
      Keep(ms[..|ms| - 1], keep) + if keep(PairOf(m)) then [m] else []
  }

  lemma DistinctPairsSnoc(ms: seq<RemoteMute>, m: RemoteMute)
    requires DistinctPairs(ms) && forall r :: r in ms ==> PairOf(r) != PairOf(m)
    ensures DistinctPairs(ms + [m])
    ensures MuteTable(ms + [m]) == MuteTable(ms)[PairOf(m) := MuteScopes(m.onClan, m.onAlly)]
  {
  }

  // The table holds exactly the listed pairs, each with the scopes of its entry.
  lemma {:induction false} MuteTableEntries(ms: seq<RemoteMute>)
    requires DistinctPairs(ms)
    ensures forall m :: m in ms ==> PairOf(m) in MuteTable(ms) &&
                                    MuteTable(ms)[PairOf(m)] == MuteScopes(m.onClan, m.onAlly)
    ensures forall k :: k in MuteTable(ms) ==> exists m :: m in ms && PairOf(m) == k
  {
    if ms == [] {
    } else {
      var front, last := ms[..|ms| - 1], ms[|ms| - 1];
      MuteTableEntries(front);
      assert ms == front + [last];
      assert forall m :: m in front ==> PairOf(m) != PairOf(last);
    }
  }

  // Dropping entries from the list is restricting the table.
  lemma {:induction false} KeepTableAt(ms: seq<RemoteMute>, keep: ((uint32, uint32)) -> bool, k: (uint32, uint32))
    ensures k in MuteTable(Keep(ms, keep)) <==> k in MuteTable(ms) && keep(k)
    ensures k in MuteTable(Keep(ms, keep)) ==> MuteTable(Keep(ms, keep))[k] == MuteTable(ms)[k]
  {
    if ms == [] {
    } else {
      var front, last := ms[..|ms| - 1], ms[|ms| - 1];
      KeepTableAt(front, keep, k);
      if keep(PairOf(last)) {
        assert (Keep(front, keep) + [last])[..|Keep(front, keep)|] == Keep(front, keep);
      } else {
        assert Keep(ms, keep) == Keep(front, keep);
      }
    }
  }

  lemma KeepTable(ms: seq<RemoteMute>, keep: ((uint32, uint32)) -> bool)
    requires DistinctPairs(ms)
    ensures DistinctPairs(Keep(ms, keep))
    ensures MuteTable(Keep(ms, keep)) == KeepMutes(MuteTable(ms), keep)
  {
    KeepDistinct(ms, keep);
    forall k
      ensures k in MuteTable(Keep(ms, keep)) <==> k in KeepMutes(MuteTable(ms), keep)
      ensures k in MuteTable(Keep(ms, keep)) ==> MuteTable(Keep(ms, keep))[k] == MuteTable(ms)[k]
    {
      KeepTableAt(ms, keep, k);
    }
  }

  lemma {:induction false} KeepDistinct(ms: seq<RemoteMute>, keep: ((uint32, uint32)) -> bool)
    requires DistinctPairs(ms)
    ensures DistinctPairs(Keep(ms, keep))
  {
    if ms == [] {
    } else {
      var front, last := ms[..|ms| - 1], ms[|ms| - 1];
      KeepDistinct(front, keep);
      assert forall m :: m in front ==> PairOf(m) != PairOf(last) by {
        assert ms == front + [last];
      }
      if keep(PairOf(last)) {
        DistinctPairsSnoc(Keep(front, keep), last);
      } else {
        assert Keep(ms, keep) == Keep(front, keep);
      }
    }
  }

  lemma OverwrittenMute(mutes: map<(uint32, uint32), MuteScopes>, pair: (uint32, uint32), scopes: MuteScopes)
    ensures KeepMutes(mutes, OtherThan(pair))[pair := scopes] == mutes[pair := scopes]
  {
  }

  class WorldState {
    var players: map<uint32, Player>
    var clans: map<uint32, Clan>
    var parties: map<uint64, set<uint32>>
    var ccs: map<uint32, CommandChannel>
    var playerCC: map<uint32, uint32>
    var remoteMutes: seq<RemoteMute>

    ghost function View(): World
      reads this
    {
      World(players, clans, Channels(ccs, playerCC), MuteTable(remoteMutes))
    }

    ghost predicate Valid()
      reads this
    {
      && WellFormed(View())
      && IndexesParties(parties, players)
      && DistinctPairs(remoteMutes)
    }

    constructor ()
      ensures Valid() && View() == EMPTY_WORLD
    {
      players, clans, parties, ccs, playerCC, remoteMutes := map[], map[], map[], map[], map[], [];
    }

    // ---- player lifecycle ----

    method UpsertPlayer(id: uint32, clanId: uint32, allyId: uint32, partyId: uint64,
                        instanceId: uint32, isLeader: bool, isPartyLeader: bool)
      requires Valid()
      modifies this`players, this`parties
      ensures Valid()
      ensures View() == Worlds.UpsertPlayer(old(View()), id, clanId, allyId, partyId, instanceId, isLeader,
          isPartyLeader)
    {
      ghost var before := View();
      UpsertPlayerWellFormed(before, id, clanId, allyId, partyId, instanceId, isLeader, isPartyLeader);
      Admit(id);
      MoveParty(id, partyId);
      Overwritten(before.players, id, PlayerOrNew(before, id), players[id]);
      ghost var moved := players[id];
      SetRecord(id, players[id].(clanId := clanId, allyId := allyId, instanceId := instanceId,
                                 isLeader := isLeader, isPartyLeader := isPartyLeader));
      Overwritten(before.players, id, moved, players[id]);
    }

    // The fields of a known player's record other than its party.
    method SetRecord(id: uint32, p: Player)
      requires id in players && p.partyId == players[id].partyId && IndexesParties(parties, players)
      modifies this`players
      ensures players == old(players)[id := p] && IndexesParties(parties, players)
    {
      ghost var before := players;
      players := players[id := p];
      IndexDependsOnPartyIds(parties, before, players);
    }

    method Admit(id: uint32)
      requires IndexesParties(parties, players)
      modifies this`players
      ensures id in players && players == old(players)[id := PlayerOrNew(old(View()), id)]
      ensures IndexesParties(parties, players)
    {
      if id !in players {
        IndexIgnoresNewcomer(parties, players, id);
        players := players[id := NewPlayer(id)];
      }
    }

    // Moves a known player between party buckets; 0 takes it out of any party.
    method MoveParty(id: uint32, newPartyId: uint64)
      requires id in players
      requires IndexesParties(parties, players)
      modifies this`players, this`parties
      ensures players == old(players)[id := old(players)[id].(partyId := newPartyId)]
      ensures IndexesParties(parties, players)
    {
      var p := players[id];
      if p.partyId == newPartyId {
        assert players == players[id := p];
        return;
      }
      ghost var solo := players[id := p.(partyId := 0)];
      if p.partyId != 0 {
        IndexAfterLeave(parties, players, id);
        parties := Leave(parties, p.partyId, id);
      } else {
        assert solo == players;
      }
      players := players[id := p.(partyId := newPartyId)];
      if newPartyId != 0 {
        IndexAfterJoin(parties, solo, id, newPartyId);
        parties := Join(parties, newPartyId, id);
        Overwritten(old(players), id, solo[id], players[id]);
      }
    }

    method SetPlayerSession(id: uint32, sid: uint32)
      requires Valid()
      modifies this`players
      ensures Valid() && View() == Worlds.SetPlayerSession(old(View()), id, sid)
    {
      if id in players {
        players := players[id := players[id].(sessionId := sid)];
      }
    }

    method SetPlayerPosition(id: uint32, x: real, y: real, z: real, instanceId: uint32)
      requires Valid()
      modifies this`players
      ensures Valid() && View() == Worlds.SetPlayerPosition(old(View()), id, x, y, z, instanceId)
    {
      if id in players {
        players := players[id := players[id].(x := x, y := y, z := z, instanceId := instanceId)];
      }
    }

    method SetPrefs(id: uint32, prefs: Prefs)
      requires Valid()
      modifies this`players
      ensures View() == Worlds.SetPrefs(old(View()), id, prefs)
      ensures VolumesInRange(prefs) ==> Valid()
    {
      if id in players {
        players := players[id := players[id].(prefs := prefs)];
      }
    }

    method RemovePlayer(id: uint32)
      requires Valid()
      modifies this
      ensures Valid() && View() == Worlds.RemovePlayer(old(View()), id)
      ensures id in old(players) ==> remoteMutes == Keep(old(remoteMutes), NotInvolving(id))
    {
      if id !in players {
        return;
      }
      ghost var before := View();
      MoveParty(id, 0);
      IndexIgnoresSolo(parties, players, id);
      players := players - {id};
      assert players == before.players - {id};
      StripClans(id);
      LeaveChannelOf(id);
      CompactMutes(NotInvolving(id));
      RemovePlayerWellFormed(before, id);
      assert View() == Worlds.RemovePlayer(before, id);
    }

    // Drops one member from the member slice, writing the survivors over its start.
    static method CompactMembers(memberIds: seq<uint32>, id: uint32) returns (members: seq<uint32>)
      ensures members == Without(memberIds, id)
    {
      members := memberIds;
      var n := 0;
      for i := 0 to |memberIds|
        invariant n <= i
        invariant |members| == |memberIds|
        invariant members[..n] == Without(memberIds[..i], id)
        invariant forall k :: i <= k < |memberIds| ==> members[k] == memberIds[k]
      {
        assert memberIds[..i + 1][..i] == memberIds[..i];
        if members[i] != id {
          ghost var done := members[..n];
          members := members[n := members[i]];
          assert members[..n + 1] == done + [members[n]];
          n := n + 1;
        }
      }
      assert memberIds[..|memberIds|] == memberIds;
      members := members[..n];
    }

    // The command-channel part of a logout.
    method LeaveChannelOf(id: uint32)
      modifies this`ccs, this`playerCC
      ensures Channels(ccs, playerCC) == LeaveChannel(old(Channels(ccs, playerCC)), id)
    {
      if id in playerCC {
        var ccId := playerCC[id];
        if ccId in ccs {
          var cc := ccs[ccId].(speak := ccs[ccId].speak - {id});
          var members := CompactMembers(cc.memberIds, id);
          cc := cc.(memberIds := members);
          ccs := ccs[ccId := cc];
          if cc.leaderId == id {
            DissolveMembers(ccId);
          }
        }
        playerCC := playerCC - {id};
      }
    }

    // The compaction loop of the three mute operations: survivors are written over the
    // list from its start, which is then cut.
    static method Compact(list: seq<RemoteMute>, keep: ((uint32, uint32)) -> bool) returns (kept: seq<RemoteMute>)
      ensures kept == Keep(list, keep)
    {
      kept := list;
      var n := 0;
      for i := 0 to |list|
        invariant n <= i
        invariant |kept| == |list|
        invariant kept[..n] == Keep(list[..i], keep)
        invariant forall k :: i <= k < |list| ==> kept[k] == list[k]
      {
        assert list[..i + 1][..i] == list[..i];
        if keep(PairOf(kept[i])) {
          ghost var done := kept[..n];
          kept := kept[n := kept[i]];
          assert kept[..n + 1] == done + [kept[n]];
          n := n + 1;
        }
      }
      assert list[..|list|] == list;
      kept := kept[..n];
    }

    method CompactMutes(keep: ((uint32, uint32)) -> bool)
      requires DistinctPairs(remoteMutes)
      modifies this`remoteMutes
      ensures remoteMutes == Keep(old(remoteMutes), keep)
      ensures DistinctPairs(remoteMutes)
      ensures MuteTable(remoteMutes) == KeepMutes(MuteTable(old(remoteMutes)), keep)
    {
      KeepTable(remoteMutes, keep);
      remoteMutes := Compact(remoteMutes, keep);
    }

    method StripClans(id: uint32)
      modifies this`clans
      ensures clans == Worlds.StripClans(old(clans), id)
    {
      var todo := clans.Keys;
      while todo != {}
        invariant todo <= clans.Keys == old(clans).Keys
        invariant forall c :: c in clans ==>
                    clans[c] == if c in todo then old(clans)[c] else StripClan(old(clans)[c], id)
      {
        var c :| c in todo;
        var clan := clans[c].(subLeaders := clans[c].subLeaders - {id});
        if clan.modeSetBy == id {
          clan := clan.(mode := MODE_NONE, modeSetBy := 0);
        }
        clans := clans[c := clan];
        todo := todo - {c};
      }
    }

    // Drops a channel and every reverse entry of its members that still points to it.
    method DissolveMembers(ccId: uint32)
      requires ccId in ccs
      modifies this`ccs, this`playerCC
      ensures ccs == old(ccs) - {ccId}
      ensures playerCC == Unpoint(old(playerCC), ElementsOf(old(ccs)[ccId].memberIds), ccId)
    {
      var members := ccs[ccId].memberIds;
      for i := 0 to |members|
        invariant ccs == old(ccs)
        invariant playerCC == Unpoint(old(playerCC), ElementsOf(members[..i]), ccId)
      {
        assert ElementsOf(members[..i + 1]) == ElementsOf(members[..i]) + {members[i]};
        if members[i] in playerCC && playerCC[members[i]] == ccId {
          playerCC := playerCC - {members[i]};
        }
      }
      assert members[..|members|] == members;
      ccs := ccs - {ccId};
    }

    // ---- clan state ----

    method UpsertClan(id: uint32, leaderId: uint32, isAllyLeader: bool)
      requires Valid()
      modifies this`clans
      ensures Valid() && View() == Worlds.UpsertClan(old(View()), id, leaderId, isAllyLeader)
    {
      if id !in clans {
        clans := clans[id := Clan(id, 0, {}, MODE_NONE, 0, false, false)];
      }
      clans := clans[id := clans[id].(leaderId := leaderId, isAllyLeader := isAllyLeader)];
    }

    method SetSubLeader(clanId: uint32, target: uint32, promote: bool) returns (ok: bool)
      requires Valid()
      modifies this`clans
      ensures ok == (clanId in old(clans))
      ensures Valid() && View() == Worlds.SetSubLeader(old(View()), clanId, target, promote)
    {
      if clanId !in clans {
        return false;
      }
      var c := clans[clanId];
      if promote {
        c := c.(subLeaders := c.subLeaders + {target});
      } else {
        c := c.(subLeaders := c.subLeaders - {target});
      }
      clans := clans[clanId := c];
      return true;
    }

    method SetClanMode(clanId: uint32, mode: uint8, setBy: uint32) returns (ok: bool)
      requires Valid()
      modifies this`clans
      ensures ok == (clanId in old(clans))
      ensures Valid() && View() == Worlds.SetClanMode(old(View()), clanId, mode, setBy)
    {
      if clanId !in clans {
        return false;
      }
      var c := clans[clanId].(mode := mode);
      if mode == MODE_NONE {
        c := c.(modeSetBy := 0);
      } else {
        c := c.(modeSetBy := setBy);
      }
      clans := clans[clanId := c];
      return true;
    }

    method SetClanOptOut(clanId: uint32, optOut: bool) returns (ok: bool)
      requires Valid()
      modifies this`clans
      ensures ok == (clanId in old(clans))
      ensures Valid() && View() == Worlds.SetClanOptOut(old(View()), clanId, optOut)
    {
      if clanId !in clans {
        return false;
      }
      clans := clans[clanId := clans[clanId].(optedOut := optOut)];
      return true;
    }

    // ---- command channels ----

    // Appends `members` to a slice cut to length zero and returns what the uncut slice
    // then holds: it keeps its length but shares its array with the new one unless the
    // append had to move to a larger array.
    static method AppendOver(slice: seq<uint32>, capacity: nat, members: seq<uint32>) returns (prior: seq<uint32>)
      ensures prior == OldAsSeen(slice, capacity, members)
    {
      prior := slice;
      if |members| <= capacity {
        for i := 0 to |members|
          invariant |prior| == |slice|
          invariant forall k :: 0 <= k < |slice| ==> prior[k] == if k < i then members[k] else slice[k]
        {
          if i < |prior| {
            prior := prior[i := members[i]];
          }
        }
      }
    }

    method PointToChannel(members: seq<uint32>, ccId: uint32)
      modifies this`playerCC
      ensures playerCC == PointTo(old(playerCC), members, ccId)
    {
      for i := 0 to |members|
        invariant playerCC.Keys == old(playerCC).Keys + ElementsOf(members[..i])
        invariant forall p :: p in playerCC ==> playerCC[p] == if p in members[..i] then ccId else old(playerCC)[p]
      {
        assert members[..i + 1] == members[..i] + [members[i]];
        playerCC := playerCC[members[i] := ccId];
      }
      assert members[..|members|] == members;
    }

    // Cleans up after everyone still seen in the old slice who is not a member any more.
    method ForgetDeparted(prior: seq<uint32>, members: seq<uint32>, ccId: uint32, speakers: set<uint32>)
      returns (speak: set<uint32>)
      modifies this`playerCC
      ensures playerCC == Unpoint(old(playerCC), ElementsOf(prior) - ElementsOf(members), ccId)
      ensures speak == speakers - (ElementsOf(prior) - ElementsOf(members))
    {
      speak := speakers;
      ghost var gone := {};
      for i := 0 to |prior|
        invariant gone == ElementsOf(prior[..i]) - ElementsOf(members)
        invariant speak == speakers - gone
        invariant playerCC == Unpoint(old(playerCC), gone, ccId)
      {
        assert ElementsOf(prior[..i + 1]) == ElementsOf(prior[..i]) + {prior[i]};
        if prior[i] !in members {
          gone := gone + {prior[i]};
          if prior[i] in playerCC && playerCC[prior[i]] == ccId {
            playerCC := playerCC - {prior[i]};
          }
          speak := speak - {prior[i]};
        }
      }
      assert prior[..|prior|] == prior;
    }

    method UpsertCommandChannel(ccId: uint32, leaderId: uint32, members: seq<uint32>, grow: Allocator)
      requires Valid()
      modifies this`ccs, this`playerCC
      ensures Valid() && View() == old(View()).(channels := UpsertChannel(old(View()).channels, ccId, leaderId,
          members, grow))
    {
      UpsertChannelWellFormed(Channels(ccs, playerCC), ccId, leaderId, members, grow);
      var cc := if ccId in ccs then ccs[ccId] else CommandChannel(ccId, 0, [], 0, {});
      var prior := AppendOver(cc.memberIds, cc.capacity, members);
      cc := cc.(leaderId := leaderId, memberIds := members, capacity := Capacity(grow, cc.capacity, |members|));
      PointToChannel(members, ccId);
      var speak := ForgetDeparted(prior, members, ccId, cc.speak);
      ccs := ccs[ccId := cc.(speak := speak)];
    }

    method DissolveCommandChannel(ccId: uint32)
      requires Valid()
      modifies this`ccs, this`playerCC
      ensures Valid() && View() == old(View()).(channels := DissolveChannel(old(View()).channels, ccId))
    {
      if ccId in ccs {
        DissolveMembers(ccId);
      }
    }

    method SetCCSpeakPermission(ccId: uint32, target: uint32, allow: bool) returns (ok: bool)
      requires Valid()
      modifies this`ccs
      ensures ok == CanGrantSpeak(old(View()).channels, ccId, target)
      ensures Valid() && View() == old(View()).(channels := SetSpeakPermission(old(View()).channels, ccId, target,
          allow))
    {
      if ccId !in ccs {
        return false;
      }
      var cc := ccs[ccId];
      if target == cc.leaderId {
        return false;
      }
      var inCC := false;
      for i := 0 to |cc.memberIds|
        invariant !inCC && target !in cc.memberIds[..i]
      {
        assert cc.memberIds[..i + 1] == cc.memberIds[..i] + [cc.memberIds[i]];
        if cc.memberIds[i] == target {
          inCC := true;
          break;
        }
      }
      if !inCC {
        assert cc.memberIds[..|cc.memberIds|] == cc.memberIds;
        return false;
      }
      if allow {
        cc := cc.(speak := cc.speak + {target});
      } else {
        cc := cc.(speak := cc.speak - {target});
      }
      ccs := ccs[ccId := cc];
      return true;
    }

    // ---- remote mutes ----

    method AddRemoteMute(muter: uint32, target: uint32, onClan: bool, onAlly: bool)
      requires Valid()
      modifies this`remoteMutes
      ensures Valid() && View() == Worlds.AddRemoteMute(old(View()), muter, target, onClan, onAlly)
      ensures remoteMutes == Keep(old(remoteMutes), OtherThan((muter, target))) +
                             [RemoteMute(muter, target, onClan, onAlly)]
    {
      CompactMutes(OtherThan((muter, target)));
      OverwrittenMute(MuteTable(old(remoteMutes)), (muter, target), MuteScopes(onClan, onAlly));
      DistinctPairsSnoc(remoteMutes, RemoteMute(muter, target, onClan, onAlly));
      remoteMutes := remoteMutes + [RemoteMute(muter, target, onClan, onAlly)];
    }

    method ClearRemoteMute(muter: uint32, target: uint32)
      requires Valid()
      modifies this`remoteMutes
      ensures Valid() && View() == Worlds.ClearRemoteMute(old(View()), muter, target)
      ensures remoteMutes == Keep(old(remoteMutes), OtherThan((muter, target)))
    {
      CompactMutes(OtherThan((muter, target)));
    }

    method IsRemotelyMuted(target: uint32, scope: Scope) returns (muted: bool)
      requires Valid()
      ensures muted == RemotelyMuted(View(), target, scope)
    {
      MuteTableEntries(remoteMutes);
      for i := 0 to |remoteMutes|
        invariant forall m :: m in remoteMutes[..i] && m.targetId == target ==>
                    !(if scope == ClanScope then m.onClan else m.onAlly)
      {
        var m := remoteMutes[i];
        assert remoteMutes[..i + 1] == remoteMutes[..i] + [m];
        if m.targetId == target && (if scope == ClanScope then m.onClan else m.onAlly) {
          assert PairOf(m) == (m.muterId, target) && m in remoteMutes;
          return true;
        }
      }
      assert remoteMutes[..|remoteMutes|] == remoteMutes;
      return false;
    }

    // ---- readers ----

    method PartyMembersOf(id: uint32) returns (members: set<uint32>)
      requires Valid()
      ensures members == PartyMembers(View(), id)
    {
      if id !in players || players[id].partyId == 0 {
        return {};
      }
      return parties[players[id].partyId];
    }

    method RoleOfPlayer(id: uint32) returns (role: Role)
      ensures role == RoleOf(View(), id)
    {
      if id !in players || players[id].clanId == 0 {
        return Member;
      }
      var p := players[id];
      if p.clanId !in clans {
        return Member;
      }
      var c := clans[p.clanId];
      if p.isLeader || c.leaderId == id {
        return Leader;
      }
      return if id in c.subLeaders then SubLeader else Member;
    }

    // Both scans walk all known players in no particular order.
    method ClanMembersOf(clanId: uint32) returns (members: set<uint32>)
      ensures members == ClanMembers(View(), clanId)
    {
      members := {};
      if clanId != 0 {
        var todo := players.Keys;
        while todo != {}
          invariant todo <= players.Keys
          invariant members == set m | m in players && m !in todo && players[m].clanId == clanId
        {
          var id :| id in todo;
          if players[id].clanId == clanId {
            members := members + {id};
          }
          todo := todo - {id};
        }
      }
    }

    method PlayersInInstance(instanceId: uint32) returns (members: set<uint32>)
      ensures members == set m | m in players && players[m].instanceId == instanceId
    {
      members := {};
      var todo := players.Keys;
      while todo != {}
        invariant todo <= players.Keys
        invariant members == set m | m in players && m !in todo && players[m].instanceId == instanceId
      {
        var id :| id in todo;
        if players[id].instanceId == instanceId {
          members := members + {id};
        }
        todo := todo - {id};
      }
    }

    method AllyMembersOf(allyId: uint32) returns (members: set<uint32>)
      ensures members == AllyMembers(View(), allyId)
    {
      members := {};
      if allyId != 0 {
        var todo := players.Keys;
        while todo != {}
          invariant todo <= players.Keys
          invariant members == set m | m in players && m !in todo && players[m].allyId == allyId
        {
          var id :| id in todo;
          if players[id].allyId == allyId {
            members := members + {id};
          }
          todo := todo - {id};
        }
      }
    }

    method ChannelPeers(id: uint32) returns (members: set<uint32>)
      ensures members == match ChannelOf(View().channels, id)
                         case None => {}
                         case Some(cc) => ElementsOf(cc.memberIds)
    {
      if id !in playerCC || playerCC[id] !in ccs {
        return {};
      }
      return ElementsOf(ccs[playerCC[id]].memberIds);
    }
  }
}
