/** How routing in one world compares with routing in another. */
module RouterLaws {
  import opened Types
  import opened Worlds
  import opened Router

  ghost predicate Whispers(w: World, pkt: Packet) {
    && pkt.whisperActive && pkt.senderId in w.players
    && Privileged(w, pkt.senderId) && w.players[pkt.senderId].clanId != 0
  }

  // ---- clan mode ----

  // The same world with the sender's clan in a mode.
  ghost predicate SwitchesModeOn(w: World, v: World, senderId: uint32) {
    && senderId in w.players
    && var c := w.players[senderId].clanId;
       && c != 0 && c in w.clans && w.clans[c].mode == MODE_NONE && !w.clans[c].optedOut
       && c in v.clans && v.clans[c].mode != MODE_NONE
       && v == w.(clans := w.clans[c := w.clans[c].(mode := v.clans[c].mode, modeSetBy := v.clans[c].modeSetBy)])
  }

  // A mode merges clan and alliance into one channel: both buttons then reach the same
  // people, everybody either reached before and, for a leader or sub-leader, nobody else.
  lemma ModeIsUnion(w: World, v: World, pkt: Packet, cfg: Config)
    requires SwitchesModeOn(w, v, pkt.senderId) && !Whispers(w, pkt)
    requires !RemotelyMuted(w, pkt.senderId, ClanScope) && !RemotelyMuted(w, pkt.senderId, AllyScope)
    ensures var viaClan, viaAlly := pkt.(channel := CH_CLAN), pkt.(channel := CH_ALLY);
            && Recipients(v, viaClan, cfg) == Recipients(v, viaAlly, cfg)
            && Recipients(w, viaClan, cfg) + Recipients(w, viaAlly, cfg) <= Recipients(v, viaClan, cfg)
            && (Privileged(w, pkt.senderId) ==>
                  Recipients(w, viaClan, cfg) + Recipients(w, viaAlly, cfg) == Recipients(v, viaClan, cfg))
  {
  }

  // Mode audio stays inside clan and alliance, however near a stranger stands, and it
  // overrides every toggle.
  lemma ModeIsIsolated(w: World, pkt: Packet, cfg: Config, d: Decision)
    requires pkt.senderId in w.players && !Whispers(w, pkt)
    requires pkt.channel == CH_CLAN || pkt.channel == CH_ALLY
    requires ModeActive(w, w.players[pkt.senderId]) && Delivers(w, pkt, cfg, d)
    ensures d.egress == CH_MODE_UNIFIED && d.forceAudible
    ensures d.recipientId in w.players
    ensures var s, r := w.players[pkt.senderId], w.players[d.recipientId];
            r.clanId == s.clanId || (s.allyId != 0 && r.allyId == s.allyId)
  {
  }

  // ---- remote mutes ----

  // Remote mutes only govern clan and alliance: on any other channel, and unless the sender
  // is whispering, they make no difference to anyone.
  lemma MutesOnlyGovernClanAndAlly(w: World, v: World, pkt: Packet, cfg: Config, d: Decision)
    requires v == w.(mutes := v.mutes) && !Whispers(w, pkt)
    requires pkt.channel != CH_CLAN && pkt.channel != CH_ALLY
    ensures Delivers(w, pkt, cfg, d) <==> Delivers(v, pkt, cfg, d)
  {
  }

  // A remote mute that covers the scope silences it, mode or no mode, whisper or not.
  lemma RemotelyMutedIsSilent(w: World, pkt: Packet, cfg: Config, scope: Scope, d: Decision)
    requires RemotelyMuted(w, pkt.senderId, scope)
    requires pkt.channel == if scope == ClanScope then CH_CLAN else CH_ALLY
    requires scope == AllyScope ==> !Whispers(w, pkt)
    ensures !Delivers(w, pkt, cfg, d)
  {
  }

  // ---- toggles ----

  ghost predicate SameButToggles(w: World, v: World) {
    && w.players.Keys == v.players.Keys
    && v == w.(players := v.players)
    && forall id :: id in w.players ==>
         var p, q := w.players[id], v.players[id];
         q == p.(prefs := p.prefs.(channelEnabled := q.prefs.channelEnabled))
  }

  lemma TogglesKeepRoles(w: World, v: World)
    requires SameButToggles(w, v)
    ensures forall id :: RoleOf(v, id) == RoleOf(w, id)
    ensures forall c :: ClanMembers(v, c) == ClanMembers(w, c) && AllyMembers(v, c) == AllyMembers(w, c)
    ensures forall id, scope :: RemotelyMuted(v, id, scope) == RemotelyMuted(w, id, scope)
  {
  }

  // Nobody escapes a leader by switching a channel off: who hears a leader or sub-leader on
  // clan and alliance, and how loud, does not depend on anybody's toggles.
  lemma LeadersOverrideToggles(w: World, v: World, pkt: Packet, cfg: Config, id: uint32)
    requires SameButToggles(w, v) && Privileged(w, pkt.senderId)
    requires pkt.channel == CH_CLAN || pkt.channel == CH_ALLY
    ensures Hears(w, pkt, cfg, LaneOf(w, pkt), id) <==> Hears(v, pkt, cfg, LaneOf(v, pkt), id)
    ensures id in w.players && id in v.players && LaneOf(w, pkt) == LaneOf(v, pkt)
            ==> Volume(pkt, cfg, LaneOf(w, pkt), w.players[id]) == Volume(pkt, cfg, LaneOf(v, pkt), v.players[id])
    ensures LaneOf(w, pkt) == LaneOf(v, pkt)
  {
    TogglesKeepRoles(w, v);
    assert LaneOf(w, pkt) == LaneOf(v, pkt);
  }

  ghost function Hearers(w: World, pkt: Packet, cfg: Config, lane: Lane): set<uint32> {
    set id | id in w.players && Hears(w, pkt, cfg, lane, id)
  }

  // The group members who switched the channel off and did not mute the sender.
  ghost function SwitchedOff(w: World, pkt: Packet, cfg: Config, ch: uint8): set<uint32>
    requires pkt.senderId in w.players && (ch == CH_CLAN || ch == CH_ALLY)
  {
    set id | && id in w.players && id != pkt.senderId && InGroup(w, pkt, cfg, GroupLane(ch, true), id)
             && !w.players[id].prefs.channelEnabled[ch] && pkt.senderId !in w.players[id].prefs.muted
  }

  // On clan and alliance, a privileged sender reaches everybody a plain one would, and on
  // top exactly those who switched the channel off; they, and nobody else, hear it by force.
  lemma OverrideReachesTheDisabled(w: World, pkt: Packet, cfg: Config, ch: uint8)
    requires pkt.senderId in w.players && (ch == CH_CLAN || ch == CH_ALLY)
    ensures Hearers(w, pkt, cfg, GroupLane(ch, false)) <= Hearers(w, pkt, cfg, GroupLane(ch, true))
    ensures Hearers(w, pkt, cfg, GroupLane(ch, true)) - Hearers(w, pkt, cfg, GroupLane(ch, false)) ==
            SwitchedOff(w, pkt, cfg, ch)
    ensures forall d :: DeliversIn(w, pkt, cfg, GroupLane(ch, true), d) ==>
              (d.forceAudible <==> d.recipientId in SwitchedOff(w, pkt, cfg, ch))
    ensures forall d :: DeliversIn(w, pkt, cfg, GroupLane(ch, false), d) ==> !d.forceAudible
  {
    forall id | id in w.players
      ensures InGroup(w, pkt, cfg, GroupLane(ch, true), id) == InGroup(w, pkt, cfg, GroupLane(ch, false), id)
    {
    }
  }

  // ---- volumes ----

  lemma ScaledInRange(volume: real, factor: real, top: real, most: real)
    requires 0.0 <= volume <= top && 0.0 <= factor <= most
    ensures 0.0 <= Scaled(volume, factor) <= top * most
  {
    assert volume * factor <= top * factor <= top * most;
  }

  lemma VolumesAreBounded(w: World, pkt: Packet, cfg: Config, d: Decision)
    requires WellFormed(w) && Delivers(w, pkt, cfg, d)
    ensures 0.0 <= d.volume <= 4.0
  {
    var p, lane := w.players[d.recipientId], LaneOf(w, pkt);
    assert VolumesInRange(p.prefs);
    VolumeInRange(pkt, cfg, lane, p);
  }

  lemma VolumeInRange(pkt: Packet, cfg: Config, lane: Lane, p: Player)
    requires VolumesInRange(p.prefs)
    ensures 0.0 <= Volume(pkt, cfg, lane, p) <= 4.0
  {
    var slot, personal := p.prefs.channelVolume[VolumeSlot(lane)], PlayerVolume(p.prefs, pkt.senderId);
    ScaledInRange(slot, personal, 2.0, 2.0);
    if lane == Nearby {
      AttenuationIsFraction(pkt, p, cfg);
      ScaledInRange(Scaled(slot, personal), Attenuation(pkt, p, cfg), 4.0, 1.0);
    }
  }

  lemma AttenuationIsFraction(pkt: Packet, p: Player, cfg: Config)
    ensures 0.0 <= Attenuation(pkt, p, cfg) <= 1.0
  {
  }

  // The byte that carries a volume on the wire.
  function GainByte(volume: real): uint8 {
    var g := volume * 128.0;
    if g > 255.0 then 255 else if g < 0.0 then 0 else g.Floor
  }

  // 128 steps to the unit, cut off at 255.
  ghost predicate GainSteps(b: uint8, volume: real) {
    && (volume >= 2.0 ==> b == 255) && (volume <= 0.0 ==> b == 0)
    && (0.0 <= volume < 2.0 ==> b as real <= volume * 128.0 < b as real + 1.0)
  }

  lemma GainByteSteps(volume: real)
    ensures forall b: uint8 :: GainSteps(b, volume) <==> b == GainByte(volume)
  {
  }

  lemma LouderIsNeverQuieterOnTheWire(a: real, b: real)
    requires a <= b
    ensures GainByte(a) <= GainByte(b)
  {
  }

  // ---- logout ----

  // A player that has logged out neither hears nor is heard.
  lemma LoggedOutIsGone(w: World, id: uint32, pkt: Packet, cfg: Config, d: Decision)
    requires Delivers(RemovePlayer(w, id), pkt, cfg, d)
    ensures pkt.senderId != id && d.recipientId != id
  {
  }
}
