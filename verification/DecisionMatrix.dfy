/**
 * The decision matrix read off the records: for each channel, who is delivered a packet, how
 * loud, on which channel and whether by force, in terms of the players' fields and numbers.
 */
module DecisionMatrix {
  import opened Types
  import opened Worlds
  import opened Router

  // ---- what decides, field by field ----

  // Leader by its own record or the clan's, or sub-leader.
  ghost predicate LeadsOrSubLeads(w: World, id: uint32) {
    && id in w.players && w.players[id].clanId != 0 && w.players[id].clanId in w.clans
    && var c := w.clans[w.players[id].clanId];
       w.players[id].isLeader || c.leaderId == id || id in c.subLeaders
  }

  ghost predicate ClanMutedByAny(w: World, id: uint32) {
    exists k :: k in w.mutes && k.1 == id && w.mutes[k].onClan
  }

  ghost predicate AllyMutedByAny(w: World, id: uint32) {
    exists k :: k in w.mutes && k.1 == id && w.mutes[k].onAlly
  }

  ghost predicate Whispering(w: World, pkt: Packet) {
    pkt.whisperActive && LeadsOrSubLeads(w, pkt.senderId)
  }

  ghost predicate InMode(w: World, id: uint32) {
    && id in w.players && w.players[id].clanId != 0 && w.players[id].clanId in w.clans
    && w.clans[w.players[id].clanId].mode != 0 && !w.clans[w.players[id].clanId].optedOut
  }

  // Somebody else, who has not muted the sender itself.
  ghost predicate Listens(w: World, senderId: uint32, id: uint32) {
    id in w.players && id != senderId && senderId !in w.players[id].prefs.muted
  }

  // The volume set for a slot times the one set for the sender, if any.
  function Loudness(prefs: Prefs, slot: nat, senderId: uint32): real
    requires slot < 4
  {
    prefs.channelVolume[slot] * (if senderId in prefs.playerVolume then prefs.playerVolume[senderId] else 1.0)
  }

  lemma LeadsIffPrivileged(w: World, id: uint32)
    ensures LeadsOrSubLeads(w, id) <==> Privileged(w, id)
  {
  }

  lemma MutedByAnyIff(w: World, id: uint32)
    ensures ClanMutedByAny(w, id) <==> RemotelyMuted(w, id, ClanScope)
    ensures AllyMutedByAny(w, id) <==> RemotelyMuted(w, id, AllyScope)
  {
    if m :| (m, id) in w.mutes && w.mutes[(m, id)].onClan {
      assert (m, id).1 == id;
    }
    if m :| (m, id) in w.mutes && w.mutes[(m, id)].onAlly {
      assert (m, id).1 == id;
    }
    if k :| k in w.mutes && k.1 == id && w.mutes[k].onClan {
      assert (k.0, id) == k;
    }
    if k :| k in w.mutes && k.1 == id && w.mutes[k].onAlly {
      assert (k.0, id) == k;
    }
  }

  // ---- the channels ----

  lemma UnknownSenderIsSilent(w: World, pkt: Packet, cfg: Config, d: Decision)
    requires pkt.senderId !in w.players
    ensures !Delivers(w, pkt, cfg, d)
  {
  }

  lemma OtherChannelsAreSilent(w: World, pkt: Packet, cfg: Config, d: Decision)
    requires pkt.channel > 4 && !Whispering(w, pkt)
    ensures !Delivers(w, pkt, cfg, d)
  {
    LeadsIffPrivileged(w, pkt.senderId);
  }

  lemma PartyDeliversIff(w: World, pkt: Packet, cfg: Config, d: Decision)
    requires pkt.senderId in w.players && pkt.channel == 1 && !Whispering(w, pkt)
    ensures Delivers(w, pkt, cfg, d) <==>
            && Listens(w, pkt.senderId, d.recipientId)
            && var s, p := w.players[pkt.senderId], w.players[d.recipientId];
               && s.partyId != 0 && p.partyId == s.partyId && p.prefs.channelEnabled[1]
               && d == Decision(d.recipientId, 1, Loudness(p.prefs, 1, pkt.senderId), false)
  {
    LeadsIffPrivileged(w, pkt.senderId);
  }

  function Straight(pkt: Packet, p: Player, cfg: Config): real {
    cfg.sqrt((p.x - pkt.x) * (p.x - pkt.x) + (p.y - pkt.y) * (p.y - pkt.y) + (p.z - pkt.z) * (p.z - pkt.z))
  }

  function Reach(cfg: Config): real {
    if cfg.proximityMaxDist <= 0.0 then 1500.0 else cfg.proximityMaxDist
  }

  function Faded(volume: real, dist: real, reach: real): real
    requires reach > 0.0
  {
    volume * (1.0 - dist / reach)
  }

  // Within straight reach, by default 1500; the volume falls linearly to 0.
  lemma ProximityDeliversIff(w: World, pkt: Packet, cfg: Config, d: Decision)
    requires pkt.senderId in w.players && pkt.channel == 0 && !Whispering(w, pkt)
    ensures Delivers(w, pkt, cfg, d) <==>
            && Listens(w, pkt.senderId, d.recipientId)
            && var p := w.players[d.recipientId];
               && p.instanceId == pkt.instanceId && Straight(pkt, p, cfg) <= Reach(cfg) && p.prefs.channelEnabled[0]
               && d == Decision(d.recipientId, 0,
                                Faded(Loudness(p.prefs, 0, pkt.senderId), Straight(pkt, p, cfg), Reach(cfg)), false)
  {
    LeadsIffPrivileged(w, pkt.senderId);
    if d.recipientId in w.players {
      var p := w.players[d.recipientId];
      StraightIsDistance(pkt, p, cfg);
      if Straight(pkt, p, cfg) <= Reach(cfg) {
        NearbyVolume(pkt, cfg, p);
      }
    }
  }

  lemma StraightIsDistance(pkt: Packet, p: Player, cfg: Config)
    ensures Straight(pkt, p, cfg) == Distance(pkt, p, cfg)
  {
    var dx, dy, dz := p.x - pkt.x, p.y - pkt.y, p.z - pkt.z;
    assert SumOfSquares(dx, dy, dz) == dx * dx + dy * dy + dz * dz;
  }

  lemma NearbyVolume(pkt: Packet, cfg: Config, p: Player)
    requires Straight(pkt, p, cfg) <= Reach(cfg)
    ensures Volume(pkt, cfg, Nearby, p) ==
            Faded(Loudness(p.prefs, 0, pkt.senderId), Straight(pkt, p, cfg), Reach(cfg))
  {
    StraightIsDistance(pkt, p, cfg);
    assert Straight(pkt, p, cfg) / Reach(cfg) <= 1.0;
  }

  lemma ClanDeliversIff(w: World, pkt: Packet, cfg: Config, d: Decision)
    requires pkt.senderId in w.players && pkt.channel == 2
    requires !Whispering(w, pkt) && !InMode(w, pkt.senderId)
    ensures Delivers(w, pkt, cfg, d) <==>
            && !ClanMutedByAny(w, pkt.senderId) && Listens(w, pkt.senderId, d.recipientId)
            && var s, p := w.players[pkt.senderId], w.players[d.recipientId];
               && s.clanId != 0 && p.clanId == s.clanId
               && (p.prefs.channelEnabled[2] || LeadsOrSubLeads(w, pkt.senderId))
               && d == Decision(d.recipientId, 2, Loudness(p.prefs, 2, pkt.senderId), !p.prefs.channelEnabled[2])
  {
    LeadsIffPrivileged(w, pkt.senderId);
    MutedByAnyIff(w, pkt.senderId);
  }

  lemma AllyDeliversIff(w: World, pkt: Packet, cfg: Config, d: Decision)
    requires pkt.senderId in w.players && pkt.channel == 3
    requires !Whispering(w, pkt) && !InMode(w, pkt.senderId)
    ensures Delivers(w, pkt, cfg, d) <==>
            && !AllyMutedByAny(w, pkt.senderId) && Listens(w, pkt.senderId, d.recipientId)
            && var s, p := w.players[pkt.senderId], w.players[d.recipientId];
               && s.allyId != 0 && p.allyId == s.allyId
               && (p.prefs.channelEnabled[3] || LeadsOrSubLeads(w, pkt.senderId))
               && d == Decision(d.recipientId, 3, Loudness(p.prefs, 3, pkt.senderId), !p.prefs.channelEnabled[3])
  {
    LeadsIffPrivileged(w, pkt.senderId);
    MutedByAnyIff(w, pkt.senderId);
  }

  // In a mode, clan and alliance packets alike reach clan and alliance, past every toggle,
  // unless the sender is muted on either scope.
  lemma ModeDeliversIff(w: World, pkt: Packet, cfg: Config, d: Decision)
    requires pkt.channel == 2 || pkt.channel == 3
    requires !Whispering(w, pkt) && InMode(w, pkt.senderId)
    ensures Delivers(w, pkt, cfg, d) <==>
            && !ClanMutedByAny(w, pkt.senderId) && !AllyMutedByAny(w, pkt.senderId)
            && Listens(w, pkt.senderId, d.recipientId)
            && var s, p := w.players[pkt.senderId], w.players[d.recipientId];
               && (p.clanId == s.clanId || (s.allyId != 0 && p.allyId == s.allyId))
               && d == Decision(d.recipientId, 8, Loudness(p.prefs, 2, pkt.senderId), true)
  {
    LeadsIffPrivileged(w, pkt.senderId);
    MutedByAnyIff(w, pkt.senderId);
  }

  // The player is mapped to a channel there is.
  ghost predicate Mapped(chs: Channels, id: uint32) {
    id in chs.playerCC && chs.playerCC[id] in chs.ccs
  }

  ghost predicate SpeaksTo(chs: Channels, id: uint32, other: uint32) {
    && Mapped(chs, id)
    && (chs.ccs[chs.playerCC[id]].leaderId == id || id in chs.ccs[chs.playerCC[id]].speak)
    && other in chs.ccs[chs.playerCC[id]].memberIds
  }

  // On the command channel the leader and those granted it reach everybody else on the list.
  lemma ChannelDeliversIff(w: World, pkt: Packet, cfg: Config, d: Decision)
    requires pkt.senderId in w.players && pkt.channel == 4 && !Whispering(w, pkt)
    ensures Delivers(w, pkt, cfg, d) <==>
            && SpeaksTo(w.channels, pkt.senderId, d.recipientId) && Listens(w, pkt.senderId, d.recipientId)
            && d == Decision(d.recipientId, 4, Loudness(w.players[d.recipientId].prefs, 2, pkt.senderId), true)
  {
    LeadsIffPrivileged(w, pkt.senderId);
  }

  // A whisper reaches the clan whatever channel was pressed.
  lemma WhisperDeliversIff(w: World, pkt: Packet, cfg: Config, d: Decision)
    requires Whispering(w, pkt)
    ensures Delivers(w, pkt, cfg, d) <==>
            && !ClanMutedByAny(w, pkt.senderId) && Listens(w, pkt.senderId, d.recipientId)
            && var p := w.players[d.recipientId];
               && p.clanId == w.players[pkt.senderId].clanId
               && d == Decision(d.recipientId, 2, Loudness(p.prefs, 2, pkt.senderId), !p.prefs.channelEnabled[2])
  {
    LeadsIffPrivileged(w, pkt.senderId);
    MutedByAnyIff(w, pkt.senderId);
  }

  // ---- the order of a command channel's recipients ----

  // Served in list order, once for each time a member that listens is listed.
  lemma {:induction false} RowsFollowList(w: World, pkt: Packet, cfg: Config, ids: seq<uint32>)
    requires pkt.senderId in w.players && ids == ChannelMembers(w, pkt.senderId)
    ensures Served(Rows(w, pkt, cfg, ids)) == ListenersIn(w, pkt.senderId, ids)
  {
    RowsFollowPrefix(w, pkt, cfg, ids, |ids|);
    assert ids[..|ids|] == ids;
  }

  lemma {:induction false} RowsFollowPrefix(w: World, pkt: Packet, cfg: Config, ids: seq<uint32>, n: nat)
    requires pkt.senderId in w.players && ids == ChannelMembers(w, pkt.senderId) && n <= |ids|
    ensures Served(Rows(w, pkt, cfg, ids[..n])) == ListenersIn(w, pkt.senderId, ids[..n])
  {
    if n == 0 {
    } else {
      RowsFollowPrefix(w, pkt, cfg, ids, n - 1);
      assert ids[..n][..n - 1] == ids[..n - 1] && ids[n - 1] in ids;
    }
  }

  function Served(out: seq<Decision>): seq<uint32> {
    seq(|out|, i requires 0 <= i < |out| => out[i].recipientId)
  }

  ghost function ListenersIn(w: World, senderId: uint32, ids: seq<uint32>): seq<uint32> {
    if ids == [] then []
    else
      ListenersIn(w, senderId, ids[..|ids| - 1]) +
      if Listens(w, senderId, ids[|ids| - 1]) then [ids[|ids| - 1]] else []
  }
}
