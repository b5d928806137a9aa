/**
 * Live group audio: the router's decisions as datagrams to the recipients' sessions, and who
 * is sent what in the end, over records and bytes.
 */
module GroupAudio {
  import opened Types
  import opened Worlds
  import opened WorldStates
  import opened Topology
  import opened SessionTables
  import opened Router
  import opened RouterLaws
  import opened DecisionMatrix
  import Proximity

  type Datagram = Proximity.Datagram

  type Bytes = Proximity.Bytes

  type uint16 = Proximity.uint16

  function PacketOf(speaker: Session, channel: uint8): Packet {
    Packet(speaker.playerId, channel, speaker.instanceId, speaker.x, speaker.y, speaker.z, false)
  }

  function DefaultConfig(sqrt: Root): Config {
    Config(DEFAULT_MAX_DIST, sqrt)
  }

  function AddressOf(t: Sessions, player: uint32): Option<string> {
    match LookupByPlayer(t, player)
    case None => None
    case Some(sess) => sess.udpAddr
  }

  // Sequence number and source, low bytes first.
  function Origin(seqLo: uint16, srcSid: uint32): Bytes {
    [seqLo % 0x100, seqLo / 0x100,
     srcSid % 0x100, srcSid / 0x100 % 0x100, srcSid / 0x1_0000 % 0x100, srcSid / 0x100_0000]
  }

  function DatagramFor(seqLo: uint16, srcSid: uint32, payload: Bytes, d: Decision, addr: string): Datagram {
    Proximity.Datagram(addr, [1, d.egress] + Origin(seqLo, srcSid) + [GainByte(d.volume), 0] + payload)
  }

  // One for each decision whose recipient has a session with an address, in order.
  function Sends(t: Sessions, seqLo: uint16, srcSid: uint32, payload: Bytes, ds: seq<Decision>): seq<Datagram> {
    if ds == [] then []
    else
      var d := ds[|ds| - 1];
      Sends(t, seqLo, srcSid, payload, ds[..|ds| - 1]) +
      match AddressOf(t, d.recipientId) {
        case None => []
        case Some(addr) => [DatagramFor(seqLo, srcSid, payload, d, addr)]
      }
  }

  ghost predicate Emits(w: World, t: Sessions, sqrt: Root, speaker: Session, channel: uint8, seqLo: uint16,
                        srcSid: uint32, payload: Bytes, sent: seq<Datagram>)
  {
    exists ds ::
      && (forall d :: d in ds <==> Delivers(w, PacketOf(speaker, channel), DefaultConfig(sqrt), d))
      && (channel != CH_CC ==> Once(ds))
      && sent == Sends(t, seqLo, srcSid, payload, ds)
  }

  // The buffer of one packet, reused for every send: all but channel and gain is set.
  ghost predicate Prepared(out: array<uint8>, seqLo: uint16, srcSid: uint32, payload: Bytes)
    reads out
  {
    && out.Length == 10 + |payload| && out[0] == 1 && out[9] == 0
    && out[2..8] == Origin(seqLo, srcSid) && out[10..] == payload
  }

  method RouteViaRouter(ws: WorldState, sessions: SessionTable, sqrt: Root, speaker: Session, channel: uint8,
                        seqLo: uint16, srcSid: uint32, payload: Bytes)
    returns (sent: seq<Datagram>)
    requires ws.Valid()
    ensures if payload == [] || speaker.playerId == 0 then sent == []
            else Emits(ws.View(), sessions.View(), sqrt, speaker, channel, seqLo, srcSid, payload, sent)
  {
    if |payload| == 0 || speaker.playerId == 0 {
      return [];
    }
    var decisions := Route(ws, PacketOf(speaker, channel), DefaultConfig(sqrt));
    sent := SendAll(sessions, seqLo, srcSid, payload, decisions);
  }

  method SendAll(sessions: SessionTable, seqLo: uint16, srcSid: uint32, payload: Bytes, decisions: seq<Decision>)
    returns (sent: seq<Datagram>)
    ensures sent == Sends(sessions.View(), seqLo, srcSid, payload, decisions)
  {
    var out := Prepare(seqLo, srcSid, payload);
    sent := [];
    for i := 0 to |decisions|
      invariant Prepared(out, seqLo, srcSid, payload)
      invariant sent == Sends(sessions.View(), seqLo, srcSid, payload, decisions[..i])
    {
      assert decisions[..i + 1][..i] == decisions[..i];
      var addr := FindAddress(sessions, decisions[i].recipientId);
      if addr.Some? {
        var datagram := Send(out, seqLo, srcSid, payload, decisions[i], addr.value);
        sent := sent + [datagram];
      }
    }
    assert decisions[..|decisions|] == decisions;
  }

  method FindAddress(sessions: SessionTable, player: uint32) returns (addr: Option<string>)
    ensures addr == AddressOf(sessions.View(), player)
  {
    if player !in sessions.byPlayer || sessions.byPlayer[player] !in sessions.bySID {
      return None;
    }
    addr := sessions.bySID[sessions.byPlayer[player]].udpAddr;
  }

  method Prepare(seqLo: uint16, srcSid: uint32, payload: Bytes) returns (out: array<uint8>)
    ensures fresh(out) && Prepared(out, seqLo, srcSid, payload)
  {
    out := new uint8[10 + |payload|](i => 0);
    out[0], out[9] := 1, 0;
    out[2], out[3] := seqLo % 0x100, seqLo / 0x100;
    out[4], out[5] := srcSid % 0x100, srcSid / 0x100 % 0x100;
    out[6], out[7] := srcSid / 0x1_0000 % 0x100, srcSid / 0x100_0000;
    OriginBytes(out[2..8], seqLo, srcSid);
    for i := 0 to |payload|
      invariant out[0] == 1 && out[9] == 0 && out[2..8] == Origin(seqLo, srcSid)
      invariant out[10..10 + i] == payload[..i]
    {
      out[10 + i] := payload[i];
    }
    assert out[10..10 + |payload|] == out[10..] && payload[..|payload|] == payload;
  }

  lemma OriginBytes(b: Bytes, seqLo: uint16, srcSid: uint32)
    requires |b| == 6 && b[0] == seqLo % 0x100 && b[1] == seqLo / 0x100
    requires b[2] == srcSid % 0x100 && b[3] == srcSid / 0x100 % 0x100
    requires b[4] == srcSid / 0x1_0000 % 0x100 && b[5] == srcSid / 0x100_0000
    ensures b == Origin(seqLo, srcSid)
  {
  }

  method Send(out: array<uint8>, seqLo: uint16, srcSid: uint32, payload: Bytes, d: Decision, addr: string)
    returns (datagram: Datagram)
    requires Prepared(out, seqLo, srcSid, payload)
    modifies out
    ensures Prepared(out, seqLo, srcSid, payload) && datagram == DatagramFor(seqLo, srcSid, payload, d, addr)
  {
    var g := d.volume * 128.0;
    if g > 255.0 {
      g := 255.0;
    } else if g < 0.0 {
      g := 0.0;
    }
    out[1] := d.egress;
    out[8] := g.Floor;
    assert out[..] == [out[0], out[1]] + out[2..8] + [out[8], out[9]] + out[10..];
    datagram := Proximity.Datagram(addr, out[..]);
  }

  // ---- who is sent what ----

  // The player has a session, which has this address.
  ghost predicate ReachedAt(t: Sessions, player: uint32, addr: string) {
    && player in t.byPlayer && t.byPlayer[player] in t.bySID
    && t.bySID[t.byPlayer[player]].udpAddr == Some(addr)
  }

  // Version 1, the channel, sequence number and source, low bytes first, the volume in 128
  // steps to the unit, from the middle, and the audio.
  ghost predicate Carries(d: Datagram, seqLo: uint16, srcSid: uint32, payload: Bytes, channel: uint8, volume: real) {
    && |d.bytes| == 10 + |payload| && d.bytes[0] == 1 && d.bytes[1] == channel
    && d.bytes[2] as int + 0x100 * d.bytes[3] as int == seqLo
    && d.bytes[4] as int + 0x100 * d.bytes[5] as int + 0x1_0000 * d.bytes[6] as int + 0x100_0000 * d.bytes[7] as int
       == srcSid
    && GainSteps(d.bytes[8], volume) && d.bytes[9] == 0 && d.bytes[10..] == payload
  }

  lemma CarriesIff(d: Datagram, seqLo: uint16, srcSid: uint32, payload: Bytes, decision: Decision)
    ensures Carries(d, seqLo, srcSid, payload, decision.egress, decision.volume) <==>
            d == DatagramFor(seqLo, srcSid, payload, decision, d.addr)
  {
    var b := DatagramFor(seqLo, srcSid, payload, decision, d.addr).bytes;
    Proximity.SourceReadsBack(srcSid);
    GainByteSteps(decision.volume);
    assert b[2..8] == Origin(seqLo, srcSid) && b[10..] == payload;
    assert Carries(Proximity.Datagram(d.addr, b), seqLo, srcSid, payload, decision.egress, decision.volume);
    if Carries(d, seqLo, srcSid, payload, decision.egress, decision.volume) {
      LowBytesFirst(d.bytes[4], d.bytes[5], d.bytes[6], d.bytes[7], srcSid);
      OriginBytes(d.bytes[2..8], seqLo, srcSid);
      assert d.bytes == [d.bytes[0], d.bytes[1]] + d.bytes[2..8] + [d.bytes[8], d.bytes[9]] + d.bytes[10..];
    }
  }

  lemma LowBytesFirst(a: uint8, b: uint8, c: uint8, d: uint8, x: uint32)
    requires a as int + 0x100 * b as int + 0x1_0000 * c as int + 0x100_0000 * d as int == x
    ensures a == x % 0x100 && b == x / 0x100 % 0x100 && c == x / 0x1_0000 % 0x100 && d == x / 0x100_0000
  {
    LowByte(a, b as int + 0x100 * (c as int + 0x100 * d as int), x);
    LowByte(b, c as int + 0x100 * d as int, x / 0x100);
    LowByte(c, d, x / 0x100 / 0x100);
    assert x / 0x1_0000 == x / 0x100 / 0x100 && x / 0x100_0000 == x / 0x100 / 0x100 / 0x100;
  }

  lemma LowByte(a: uint8, rest: nat, x: nat)
    requires a as int + 0x100 * rest == x
    ensures a == x % 0x100 && rest == x / 0x100
  {
  }

  lemma {:induction false} SendsIff(t: Sessions, seqLo: uint16, srcSid: uint32, payload: Bytes, ds: seq<Decision>,
                                    d: Datagram)
    ensures d in Sends(t, seqLo, srcSid, payload, ds) <==>
            exists decision :: decision in ds && ReachedAt(t, decision.recipientId, d.addr) &&
                               Carries(d, seqLo, srcSid, payload, decision.egress, decision.volume)
  {
    if ds == [] {
    } else {
      var front, last := ds[..|ds| - 1], ds[|ds| - 1];
      SendsIff(t, seqLo, srcSid, payload, front, d);
      CarriesIff(d, seqLo, srcSid, payload, last);
      assert ds == front + [last];
    }
  }

  // A datagram is sent if and only if it carries, to the address of its recipient's session,
  // what the decision matrix delivers.
  lemma SentIff(w: World, t: Sessions, sqrt: Root, speaker: Session, channel: uint8, seqLo: uint16, srcSid: uint32,
                payload: Bytes, sent: seq<Datagram>, d: Datagram)
    requires Emits(w, t, sqrt, speaker, channel, seqLo, srcSid, payload, sent)
    ensures d in sent <==>
            exists decision ::
              && Delivers(w, PacketOf(speaker, channel), DefaultConfig(sqrt), decision)
              && ReachedAt(t, decision.recipientId, d.addr)
              && Carries(d, seqLo, srcSid, payload, decision.egress, decision.volume)
  {
    var ds :| (forall x :: x in ds <==> Delivers(w, PacketOf(speaker, channel), DefaultConfig(sqrt), x)) &&
              sent == Sends(t, seqLo, srcSid, payload, ds);
    SendsIff(t, seqLo, srcSid, payload, ds, d);
  }

  ghost predicate HearsParty(w: World, senderId: uint32, id: uint32)
    requires senderId in w.players
  {
    && Listens(w, senderId, id) && w.players[id].prefs.channelEnabled[1]
    && w.players[senderId].partyId != 0 && w.players[id].partyId == w.players[senderId].partyId
  }

  // From the records to the bytes: party audio is sent to the address of each other member
  // that has a session, has the channel on and has not muted the speaker, at its own volume.
  lemma PartyAudioIff(w: World, t: Sessions, sqrt: Root, speaker: Session, seqLo: uint16, srcSid: uint32,
                      payload: Bytes, sent: seq<Datagram>, d: Datagram)
    requires Emits(w, t, sqrt, speaker, 1, seqLo, srcSid, payload, sent) && speaker.playerId in w.players
    ensures d in sent <==>
            exists id ::
              && HearsParty(w, speaker.playerId, id) && ReachedAt(t, id, d.addr)
              && Carries(d, seqLo, srcSid, payload, 1, Loudness(w.players[id].prefs, 1, speaker.playerId))
  {
    var pkt, cfg := PacketOf(speaker, 1), DefaultConfig(sqrt);
    SentIff(w, t, sqrt, speaker, 1, seqLo, srcSid, payload, sent, d);
    forall decision
      ensures Delivers(w, pkt, cfg, decision) <==>
              && HearsParty(w, speaker.playerId, decision.recipientId)
              && decision == PartyDecision(w, speaker.playerId, decision.recipientId)
    {
      PartyDeliversIff(w, pkt, cfg, decision);
    }
    if id :| HearsParty(w, speaker.playerId, id) && ReachedAt(t, id, d.addr) &&
             Carries(d, seqLo, srcSid, payload, 1, Loudness(w.players[id].prefs, 1, speaker.playerId)) {
      assert Delivers(w, pkt, cfg, PartyDecision(w, speaker.playerId, id));
    }
  }

  ghost function PartyDecision(w: World, senderId: uint32, id: uint32): Decision {
    if id in w.players then Decision(id, 1, Loudness(w.players[id].prefs, 1, senderId), false)
    else Decision(id, 0, 0.0, false)
  }

  // A remote mute reaches the wire: no datagram at all is sent on the scope, nor on either
  // scope in a mode.
  lemma MutedSpeakerSendsNothing(w: World, t: Sessions, sqrt: Root, speaker: Session, channel: uint8, seqLo: uint16,
                                 srcSid: uint32, payload: Bytes, sent: seq<Datagram>)
    requires Emits(w, t, sqrt, speaker, channel, seqLo, srcSid, payload, sent)
    requires var clanMuted, allyMuted := ClanMutedByAny(w, speaker.playerId), AllyMutedByAny(w, speaker.playerId);
             || (channel == 2 && clanMuted) || (channel == 3 && allyMuted)
             || ((channel == 2 || channel == 3) && InMode(w, speaker.playerId) && (clanMuted || allyMuted))
    ensures sent == []
  {
    var pkt, cfg := PacketOf(speaker, channel), DefaultConfig(sqrt);
    forall decision
      ensures !Delivers(w, pkt, cfg, decision)
    {
      if speaker.playerId !in w.players {
        UnknownSenderIsSilent(w, pkt, cfg, decision);
      } else if InMode(w, speaker.playerId) {
        ModeDeliversIff(w, pkt, cfg, decision);
      } else if channel == 2 {
        ClanDeliversIff(w, pkt, cfg, decision);
      } else {
        AllyDeliversIff(w, pkt, cfg, decision);
      }
    }
    EmptyIff(sent);
    forall d
      ensures d !in sent
    {
      SentIff(w, t, sqrt, speaker, channel, seqLo, srcSid, payload, sent, d);
    }
  }

  lemma EmptyIff(sent: seq<Datagram>)
    ensures sent == [] <==> forall d :: d !in sent
  {
    var first := if sent == [] then None else Some(sent[0]);
    assert first.Some? ==> first.value in sent;
  }
}
