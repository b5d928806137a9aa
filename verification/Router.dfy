/**
 * The routing decision: who hears a voice packet, on which channel, how loud, and whether
 * despite their own toggle.
 *
 * Delivers is the decision matrix, one column at a time; the routing methods, which walk
 * member lists, produce exactly its rows. The square root of the proximity distance is a
 * parameter, since the mathematics library is not part of this model.
 */
module Router {
  import opened Types
  import opened Worlds
  import opened WorldStates

  datatype Packet = Packet(
    senderId: uint32,
    channel: uint8,
    instanceId: uint32,
    x: real, y: real, z: real,
    whisperActive: bool)

  datatype Decision = Decision(recipientId: uint32, egress: uint8, volume: real, forceAudible: bool)

  const DEFAULT_MAX_DIST := 1500.0

  type Root = f: real -> real | forall x :: f(x) >= 0.0 witness (x: real) => 0.0

  datatype Config = Config(proximityMaxDist: real, sqrt: Root)

  // ---- the decision matrix ----

  datatype Lane = Silence | Nearby | PartyLane | ClanLane(priv: bool) | AllyLane(priv: bool) | ModeLane | ChannelLane

  ghost predicate Privileged(w: World, id: uint32) {
    RoleOf(w, id) != Member
  }

  ghost predicate ModeActive(w: World, p: Player) {
    p.clanId != 0 && p.clanId in w.clans && w.clans[p.clanId].mode != MODE_NONE && !w.clans[p.clanId].optedOut
  }

  // Which rule governs a packet.
  ghost function LaneOf(w: World, pkt: Packet): Lane {
    if pkt.senderId !in w.players then Silence
    else
      var s, priv := w.players[pkt.senderId], Privileged(w, pkt.senderId);
      if pkt.whisperActive && priv && s.clanId != 0 then
        if RemotelyMuted(w, pkt.senderId, ClanScope) then Silence else ClanLane(true)
      else if (pkt.channel == CH_CLAN || pkt.channel == CH_ALLY) && ModeActive(w, s) then
        if RemotelyMuted(w, pkt.senderId, ClanScope) || RemotelyMuted(w, pkt.senderId,
            AllyScope) then Silence else ModeLane
      else if pkt.channel == CH_PROXIMITY then Nearby
      else if pkt.channel == CH_PARTY then PartyLane
      else if pkt.channel == CH_CLAN then if RemotelyMuted(w, pkt.senderId, ClanScope) then Silence else ClanLane(priv)
      else if pkt.channel == CH_ALLY then if RemotelyMuted(w, pkt.senderId, AllyScope) then Silence else AllyLane(priv)
      else if pkt.channel == CH_CC && SpeakAllowed(w.channels, pkt.senderId) then ChannelLane
      else Silence
  }

  function MaxDist(cfg: Config): real {
    if cfg.proximityMaxDist <= 0.0 then DEFAULT_MAX_DIST else cfg.proximityMaxDist
  }

  function Distance(pkt: Packet, p: Player, cfg: Config): real {
    Length(cfg, p.x - pkt.x, p.y - pkt.y, p.z - pkt.z)
  }

  function Length(cfg: Config, dx: real, dy: real, dz: real): real {
    cfg.sqrt(SumOfSquares(dx, dy, dz))
  }

  function SumOfSquares(dx: real, dy: real, dz: real): real {
    dx * dx + dy * dy + dz * dz
  }

  function Attenuation(pkt: Packet, p: Player, cfg: Config): real {
    var atten := 1.0 - Distance(pkt, p, cfg) / MaxDist(cfg);
    if atten < 0.0 then 0.0 else atten
  }

  // The member list of a player's command channel, as the bridge reported it.
  ghost function ChannelMembers(w: World, id: uint32): seq<uint32> {
    match ChannelOf(w.channels, id)
    case None => []
    case Some(cc) => cc.memberIds
  }

  // Who is in the lane's group.
  ghost predicate InGroup(w: World, pkt: Packet, cfg: Config, lane: Lane, id: uint32)
    requires pkt.senderId in w.players && id in w.players
  {
    var s, p := w.players[pkt.senderId], w.players[id];
    match lane
    case Silence => false
    case Nearby => p.instanceId == pkt.instanceId && Distance(pkt, p, cfg) <= MaxDist(cfg)
    case PartyLane => id in PartyMembers(w, pkt.senderId)
    case ClanLane(_) => id in ClanMembers(w, s.clanId)
    case AllyLane(_) => id in AllyMembers(w, s.allyId)
    case ModeLane => id in ClanMembers(w, s.clanId) || id in AllyMembers(w, s.allyId)
    case ChannelLane => id in ChannelMembers(w, pkt.senderId)
  }

  // Whether the recipient's own channel toggle lets the packet through.
  predicate ToggleAllows(lane: Lane, prefs: Prefs) {
    match lane
    case Nearby => prefs.channelEnabled[CH_PROXIMITY]
    case PartyLane => prefs.channelEnabled[CH_PARTY]
    case ClanLane(priv) => priv || prefs.channelEnabled[CH_CLAN]
    case AllyLane(priv) => priv || prefs.channelEnabled[CH_ALLY]
    case _ => true
  }

  function Egress(lane: Lane): uint8 {
    match lane
    case Nearby => CH_PROXIMITY
    case PartyLane => CH_PARTY
    case ClanLane(_) => CH_CLAN
    case AllyLane(_) => CH_ALLY
    case ModeLane => CH_MODE_UNIFIED
    case _ => CH_CC
  }

  // The slot of the recipient's channel volumes that applies: mode and command-channel
  // audio use the clan slot.
  function VolumeSlot(lane: Lane): (slot: uint8)
    ensures slot <= CH_ALLY
  {
    if lane.ModeLane? || lane.ChannelLane? || lane.Silence? then CH_CLAN else Egress(lane)
  }

  predicate Forced(lane: Lane, prefs: Prefs) {
    match lane
    case ClanLane(priv) => priv && !prefs.channelEnabled[CH_CLAN]
    case AllyLane(priv) => priv && !prefs.channelEnabled[CH_ALLY]
    case ModeLane => true
    case ChannelLane => true
    case _ => false
  }

  function PlayerVolume(prefs: Prefs, senderId: uint32): real {
    if senderId in prefs.playerVolume then prefs.playerVolume[senderId] else 1.0
  }

  function Volume(pkt: Packet, cfg: Config, lane: Lane, p: Player): real {
    var base := Scaled(p.prefs.channelVolume[VolumeSlot(lane)], PlayerVolume(p.prefs, pkt.senderId));
    if lane == Nearby then Scaled(base, Attenuation(pkt, p, cfg)) else base
  }

  function Scaled(volume: real, factor: real): real {
    volume * factor
  }

  function DecisionFor(pkt: Packet, cfg: Config, lane: Lane, id: uint32, p: Player): Decision {
    Decision(id, Egress(lane), Volume(pkt, cfg, lane, p), Forced(lane, p.prefs))
  }

  ghost predicate Hears(w: World, pkt: Packet, cfg: Config, lane: Lane, id: uint32) {
    && pkt.senderId in w.players && id in w.players && id != pkt.senderId
    && InGroup(w, pkt, cfg, lane, id)
    && ToggleAllows(lane, w.players[id].prefs)
    && pkt.senderId !in w.players[id].prefs.muted
  }

  ghost predicate DeliversIn(w: World, pkt: Packet, cfg: Config, lane: Lane, d: Decision) {
    Hears(w, pkt, cfg, lane, d.recipientId) &&
    d == DecisionFor(pkt, cfg, lane, d.recipientId, w.players[d.recipientId])
  }

  ghost predicate Delivers(w: World, pkt: Packet, cfg: Config, d: Decision) {
    DeliversIn(w, pkt, cfg, LaneOf(w, pkt), d)
  }

  ghost function Recipients(w: World, pkt: Packet, cfg: Config): set<uint32> {
    set id | id in w.players && Hears(w, pkt, cfg, LaneOf(w, pkt), id)
  }

  ghost predicate Once(out: seq<Decision>) {
    forall i, j :: 0 <= i < j < |out| ==> out[i].recipientId != out[j].recipientId
  }

  ghost predicate Distinct(ids: seq<uint32>) {
    forall i, j :: 0 <= i < j < |ids| ==> ids[i] != ids[j]
  }

  // ---- routing ----

  method Route(ws: WorldState, pkt: Packet, cfg: Config) returns (out: seq<Decision>)
    requires ws.Valid()
    ensures forall d :: d in out <==> Delivers(ws.View(), pkt, cfg, d)
    ensures LaneOf(ws.View(), pkt) != ChannelLane ==> Once(out)
    ensures LaneOf(ws.View(), pkt) == ChannelLane ==>
              && out == Rows(ws.View(), pkt, cfg, ChannelMembers(ws.View(), pkt.senderId))
              && (Distinct(ChannelMembers(ws.View(), pkt.senderId)) ==> Once(out))
  {
    if pkt.senderId !in ws.players {
      return [];
    }
    var s := ws.players[pkt.senderId];
    var role := ws.RoleOfPlayer(pkt.senderId);
    var priv := role != Member;
    var clanMuted := ws.IsRemotelyMuted(pkt.senderId, ClanScope);
    var allyMuted := ws.IsRemotelyMuted(pkt.senderId, AllyScope);
    if pkt.whisperActive && priv && s.clanId != 0 {
      if clanMuted {
        return [];
      }
      out := RouteClanOrAlly(ws, pkt, cfg, true, CH_CLAN, s.clanId);
      return;
    }
    if pkt.channel == CH_CLAN || pkt.channel == CH_ALLY {
      var active := IsModeActive(ws, s);
      if active {
        if clanMuted || allyMuted {
          return [];
        }
        out := RouteMode(ws, pkt, cfg);
        return;
      }
    }
    if pkt.channel == CH_PROXIMITY {
      out := RouteProximity(ws, pkt, cfg);
    } else if pkt.channel == CH_PARTY {
      out := RouteParty(ws, pkt, cfg);
    } else if pkt.channel == CH_CLAN {
      if clanMuted {
        return [];
      }
      out := RouteClanOrAlly(ws, pkt, cfg, priv, CH_CLAN, s.clanId);
    } else if pkt.channel == CH_ALLY {
      if allyMuted {
        return [];
      }
      out := RouteClanOrAlly(ws, pkt, cfg, priv, CH_ALLY, s.allyId);
    } else if pkt.channel == CH_CC {
      var allowed := SpeakAllowed(Channels(ws.ccs, ws.playerCC), pkt.senderId);
      if !allowed {
        return [];
      }
      out := RouteCC(ws, pkt, cfg);
    } else {
      out := [];
    }
  }

  method IsModeActive(ws: WorldState, s: Player) returns (active: bool)
    ensures active == ModeActive(ws.View(), s)
  {
    if s.clanId == 0 || s.clanId !in ws.clans {
      return false;
    }
    var c := ws.clans[s.clanId];
    active := c.mode != MODE_NONE && !c.optedOut;
  }

  // ---- the loops of the five lanes ----

  // The decisions made once the members visited so far are through.
  ghost predicate Partial(w: World, pkt: Packet, cfg: Config, lane: Lane, visited: set<uint32>, out: seq<Decision>) {
    && (forall d :: d in out <==> d.recipientId in visited && DeliversIn(w, pkt, cfg, lane, d))
    && Once(out)
  }

  lemma OneMore(w: World, pkt: Packet, cfg: Config, lane: Lane, visited: set<uint32>, out: seq<Decision>, id: uint32,
                next: seq<Decision>)
    requires Partial(w, pkt, cfg, lane, visited, out) && id !in visited
    requires if Hears(w, pkt, cfg, lane, id) then next == out + [DecisionFor(pkt, cfg, lane, id, w.players[id])]
             else next == out
    ensures Partial(w, pkt, cfg, lane, visited + {id}, next)
  {
    assert forall i :: 0 <= i < |out| ==> out[i] in out;
    forall d
      ensures d in next <==> d.recipientId in visited + {id} && DeliversIn(w, pkt, cfg, lane, d)
    {
    }
  }

  lemma AllVisited(w: World, pkt: Packet, cfg: Config, lane: Lane, visited: set<uint32>, out: seq<Decision>)
    requires Partial(w, pkt, cfg, lane, visited, out)
    requires forall id :: Hears(w, pkt, cfg, lane, id) ==> id in visited
    ensures forall d :: d in out <==> DeliversIn(w, pkt, cfg, lane, d)
    ensures Once(out)
  {
  }

  method RouteProximity(ws: WorldState, pkt: Packet, cfg: Config) returns (out: seq<Decision>)
    requires ws.Valid() && pkt.senderId in ws.players
    ensures forall d :: d in out <==> DeliversIn(ws.View(), pkt, cfg, Nearby, d)
    ensures Once(out)
  {
    var candidates := ws.PlayersInInstance(pkt.instanceId);
    var maxD := cfg.proximityMaxDist;
    if maxD <= 0.0 {
      maxD := DEFAULT_MAX_DIST;
    }
    out := WalkNearby(ws.players, pkt, cfg, candidates, maxD, ws.View());
    AllVisited(ws.View(), pkt, cfg, Nearby, candidates, out);
  }

  method WalkNearby(players: map<uint32, Player>, pkt: Packet, cfg: Config, candidates: set<uint32>, maxD: real,
                    ghost w: World)
    returns (out: seq<Decision>)
    requires players == w.players && pkt.senderId in players && maxD == MaxDist(cfg)
    requires candidates == set id | id in players && players[id].instanceId == pkt.instanceId
    ensures Partial(w, pkt, cfg, Nearby, candidates, out)
  {
    out := [];
    var todo := candidates;
    while todo != {}
      invariant todo <= candidates && Partial(w, pkt, cfg, Nearby, candidates - todo, out)
    {
      var id :| id in todo;
      var p, before := players[id], out;
      ghost var visited := candidates - todo;
      todo := todo - {id};
      if id != pkt.senderId {
        var dx, dy, dz := p.x - pkt.x, p.y - pkt.y, p.z - pkt.z;
        var squares := dx * dx + dy * dy + dz * dz;
        assert squares == SumOfSquares(dx, dy, dz);
        var dist := cfg.sqrt(squares);
        assert Distance(pkt, p, cfg) == Length(cfg, dx, dy, dz) == dist;
        if dist <= maxD && p.prefs.channelEnabled[CH_PROXIMITY] && pkt.senderId !in p.prefs.muted {
          var atten := 1.0 - dist / maxD;
          if atten < 0.0 {
            atten := 0.0;
          }
          var slot, personal := p.prefs.channelVolume[CH_PROXIMITY], PlayerVolume(p.prefs, pkt.senderId);
          var vol := slot * personal * atten;
          assert vol == Scaled(Scaled(slot, personal), atten) == Volume(pkt, cfg, Nearby, p);
          out := out + [Decision(id, CH_PROXIMITY, vol, false)];
        }
      }
      OneMore(w, pkt, cfg, Nearby, visited, before, id, out);
      assert candidates - todo == visited + {id};
    }
    assert candidates - {} == candidates;
  }

  method RouteParty(ws: WorldState, pkt: Packet, cfg: Config) returns (out: seq<Decision>)
    requires ws.Valid() && pkt.senderId in ws.players
    ensures forall d :: d in out <==> DeliversIn(ws.View(), pkt, cfg, PartyLane, d)
    ensures Once(out)
  {
    var members := ws.PartyMembersOf(pkt.senderId);
    out := WalkParty(ws.players, pkt, cfg, members, ws.View());
    AllVisited(ws.View(), pkt, cfg, PartyLane, members, out);
  }

  method WalkParty(players: map<uint32, Player>, pkt: Packet, cfg: Config, members: set<uint32>, ghost w: World)
    returns (out: seq<Decision>)
    requires players == w.players && pkt.senderId in players && members == PartyMembers(w, pkt.senderId)
    ensures Partial(w, pkt, cfg, PartyLane, members, out)
  {
    out := [];
    var todo := members;
    while todo != {}
      invariant todo <= members && Partial(w, pkt, cfg, PartyLane, members - todo, out)
    {
      var id :| id in todo;
      var before := out;
      ghost var visited := members - todo;
      todo := todo - {id};
      if id != pkt.senderId && id in players {
        var p := players[id];
        if p.prefs.channelEnabled[CH_PARTY] && pkt.senderId !in p.prefs.muted {
          var slot, personal := p.prefs.channelVolume[CH_PARTY], PlayerVolume(p.prefs, pkt.senderId);
          var vol := slot * personal;
          assert vol == Scaled(slot, personal) == Volume(pkt, cfg, PartyLane, p);
          out := out + [Decision(id, CH_PARTY, vol, false)];
        }
      }
      OneMore(w, pkt, cfg, PartyLane, visited, before, id, out);
      assert members - todo == visited + {id};
    }
    assert members - {} == members;
  }

  // The lane of a clan or alliance packet of a sender that may or may not override toggles.
  ghost function GroupLane(ch: uint8, override: bool): Lane {
    if ch == CH_CLAN then ClanLane(override) else AllyLane(override)
  }

  method RouteClanOrAlly(ws: WorldState, pkt: Packet, cfg: Config, override: bool, ch: uint8, scopeId: uint32)
    returns (out: seq<Decision>)
    requires ws.Valid() && pkt.senderId in ws.players && (ch == CH_CLAN || ch == CH_ALLY)
    requires scopeId == if ch == CH_CLAN then ws.players[pkt.senderId].clanId else ws.players[pkt.senderId].allyId
    ensures forall d :: d in out <==> DeliversIn(ws.View(), pkt, cfg, GroupLane(ch, override), d)
    ensures Once(out)
  {
    if scopeId == 0 {
      return [];
    }
    var members;
    if ch == CH_CLAN {
      members := ws.ClanMembersOf(scopeId);
    } else {
      members := ws.AllyMembersOf(scopeId);
    }
    out := WalkGroup(ws.players, pkt, cfg, override, ch, members, ws.View());
    AllVisited(ws.View(), pkt, cfg, GroupLane(ch, override), members, out);
  }

  lemma GroupLaneRules(ch: uint8, override: bool, prefs: Prefs)
    requires ch == CH_CLAN || ch == CH_ALLY
    ensures var lane := GroupLane(ch, override);
            && VolumeSlot(lane) == Egress(lane) == ch && lane != Nearby
            && (ToggleAllows(lane, prefs) <==> prefs.channelEnabled[ch] || override)
            && (Forced(lane, prefs) <==> override && !prefs.channelEnabled[ch])
  {
  }

  method WalkGroup(players: map<uint32, Player>, pkt: Packet, cfg: Config, override: bool, ch: uint8,
                   members: set<uint32>, ghost w: World)
    returns (out: seq<Decision>)
    requires players == w.players && pkt.senderId in players && (ch == CH_CLAN || ch == CH_ALLY)
    requires var s := players[pkt.senderId];
             members == if ch == CH_CLAN then ClanMembers(w, s.clanId) else AllyMembers(w, s.allyId)
    ensures Partial(w, pkt, cfg, GroupLane(ch, override), members, out)
  {
    out := [];
    ghost var lane := GroupLane(ch, override);
    var todo := members;
    while todo != {}
      invariant todo <= members && Partial(w, pkt, cfg, lane, members - todo, out)
    {
      var id :| id in todo;
      var before := out;
      ghost var visited := members - todo;
      todo := todo - {id};
      if id != pkt.senderId && id in players {
        var p := players[id];
        var enabled := p.prefs.channelEnabled[ch];
        GroupLaneRules(ch, override, p.prefs);
        if (enabled || override) && pkt.senderId !in p.prefs.muted {
          var slot, personal := p.prefs.channelVolume[ch], PlayerVolume(p.prefs, pkt.senderId);
          var vol := slot * personal;
          assert vol == Scaled(slot, personal) == Volume(pkt, cfg, lane, p);
          out := out + [Decision(id, ch, vol, override && !enabled)];
        }
      }
      OneMore(w, pkt, cfg, lane, visited, before, id, out);
      assert members - todo == visited + {id};
    }
    assert members - {} == members;
  }

  method RouteMode(ws: WorldState, pkt: Packet, cfg: Config) returns (out: seq<Decision>)
    requires ws.Valid() && pkt.senderId in ws.players
    ensures forall d :: d in out <==> DeliversIn(ws.View(), pkt, cfg, ModeLane, d)
    ensures Once(out)
  {
    var s := ws.players[pkt.senderId];
    var seen := ws.ClanMembersOf(s.clanId);
    if s.allyId != 0 {
      var allies := ws.AllyMembersOf(s.allyId);
      seen := seen + allies;
    }
    seen := seen - {pkt.senderId};
    out := WalkSeen(ws.players, pkt, cfg, seen, ws.View());
    AllVisited(ws.View(), pkt, cfg, ModeLane, seen, out);
  }

  method WalkSeen(players: map<uint32, Player>, pkt: Packet, cfg: Config, seen: set<uint32>, ghost w: World)
    returns (out: seq<Decision>)
    requires players == w.players && pkt.senderId in players
    requires var s := players[pkt.senderId];
             seen == ClanMembers(w, s.clanId) + AllyMembers(w, s.allyId) - {pkt.senderId}
    ensures Partial(w, pkt, cfg, ModeLane, seen, out)
  {
    out := [];
    var todo := seen;
    while todo != {}
      invariant todo <= seen && Partial(w, pkt, cfg, ModeLane, seen - todo, out)
    {
      var id :| id in todo;
      var before := out;
      ghost var visited := seen - todo;
      todo := todo - {id};
      if id in players {
        var p := players[id];
        if pkt.senderId !in p.prefs.muted {
          var slot, personal := p.prefs.channelVolume[CH_CLAN], PlayerVolume(p.prefs, pkt.senderId);
          var vol := slot * personal;
          assert vol == Scaled(slot, personal) == Volume(pkt, cfg, ModeLane, p);
          out := out + [Decision(id, CH_MODE_UNIFIED, vol, true)];
        }
      }
      OneMore(w, pkt, cfg, ModeLane, visited, before, id, out);
      assert seen - todo == visited + {id};
    }
    assert seen - {} == seen;
  }

  // The member list is walked in order, so a member listed twice is served twice.
  method RouteCC(ws: WorldState, pkt: Packet, cfg: Config) returns (out: seq<Decision>)
    requires ws.Valid() && pkt.senderId in ws.players
    ensures forall d :: d in out <==> DeliversIn(ws.View(), pkt, cfg, ChannelLane, d)
    ensures out == Rows(ws.View(), pkt, cfg, ChannelMembers(ws.View(), pkt.senderId))
    ensures Distinct(ChannelMembers(ws.View(), pkt.senderId)) ==> Once(out)
  {
    if pkt.senderId !in ws.playerCC || ws.playerCC[pkt.senderId] !in ws.ccs {
      return [];
    }
    var ids := ws.ccs[ws.playerCC[pkt.senderId]].memberIds;
    out := WalkList(ws.players, pkt, cfg, ids, ws.View());
    RowsDeliver(ws.View(), pkt, cfg, ids);
  }

  method WalkList(players: map<uint32, Player>, pkt: Packet, cfg: Config, ids: seq<uint32>, ghost w: World)
    returns (out: seq<Decision>)
    requires players == w.players && pkt.senderId in players && ids == ChannelMembers(w, pkt.senderId)
    ensures out == Rows(w, pkt, cfg, ids)
  {
    out := [];
    for i := 0 to |ids|
      invariant out == Rows(w, pkt, cfg, ids[..i])
    {
      assert ids[..i + 1][..i] == ids[..i];
      var id := ids[i];
      assert id in ids;
      if id != pkt.senderId && id in players {
        var p := players[id];
        if pkt.senderId !in p.prefs.muted {
          var slot, personal := p.prefs.channelVolume[CH_CLAN], PlayerVolume(p.prefs, pkt.senderId);
          var vol := slot * personal;
          assert vol == Scaled(slot, personal) == Volume(pkt, cfg, ChannelLane, p);
          out := out + [Decision(id, CH_CC, vol, true)];
        }
      }
    }
    assert ids[..|ids|] == ids;
  }

  // The decisions for a list, in its order.
  ghost function Rows(w: World, pkt: Packet, cfg: Config, ids: seq<uint32>): seq<Decision> {
    if ids == [] then []
    else
      var id := ids[|ids| - 1];
      Rows(w, pkt, cfg, ids[..|ids| - 1]) +
      if Hears(w, pkt, cfg, ChannelLane, id) then [DecisionFor(pkt, cfg, ChannelLane, id, w.players[id])] else []
  }

  lemma {:induction false} RowsDeliver(w: World, pkt: Packet, cfg: Config, ids: seq<uint32>)
    ensures forall d :: d in Rows(w, pkt, cfg, ids) <==>
              d.recipientId in ids && DeliversIn(w, pkt, cfg, ChannelLane, d)
    ensures Distinct(ids) ==> Once(Rows(w, pkt, cfg, ids))
  {
    if ids == [] {
    } else {
      var front, id := ids[..|ids| - 1], ids[|ids| - 1];
      RowsDeliver(w, pkt, cfg, front);
      assert ids == front + [id];
      var rows := Rows(w, pkt, cfg, front);
      if Distinct(ids) {
        assert id !in front;
        assert forall i :: 0 <= i < |rows| ==> rows[i] in rows;
      }
    }
  }
}
