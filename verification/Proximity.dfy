/**
 * Live proximity audio: which sessions hear a speaker, and the datagram each is sent. The
 * square root and the host part of an address are parameters.
 */
module Proximity {
  import opened Types
  import opened Topology

  const MIN_DISTANCE := 500.0
  const MAX_DISTANCE := 2500.0
  const PAN_HALF_WIDTH := 1500.0

  type int8 = x: int | -128 <= x < 128

  datatype Config = Config(echo: bool, multiboxMute: bool, sqrt: real -> real, host: string -> string)

  type uint16 = x: int | 0 <= x < 0x1_0000

  type Bytes = seq<uint8>

  datatype Datagram = Datagram(addr: string, bytes: Bytes)

  // What differs between the datagrams of one packet: where to, and the two spatial bytes.
  datatype Spatial = Spatial(addr: string, gain: uint8, pan: int8)

  // ---- the datagram ----

  const VERSION: uint8 := 1
  const PROXIMITY: uint8 := 0

  // Version, channel, sequence number and source, low bytes first.
  function Header(seqLo: uint16, srcSid: uint32): (h: Bytes)
    ensures |h| == 8
  {
    [VERSION, PROXIMITY, seqLo % 0x100, seqLo / 0x100,
     srcSid % 0x100, srcSid / 0x100 % 0x100, srcSid / 0x1_0000 % 0x100, srcSid / 0x100_0000]
  }

  // Two's complement.
  function Octet(x: int8): uint8 {
    x % 0x100
  }

  function Packet(seqLo: uint16, srcSid: uint32, payload: Bytes, sp: Spatial): Datagram {
    Datagram(sp.addr, Header(seqLo, srcSid) + [sp.gain, Octet(sp.pan)] + payload)
  }

  function LittleEndian(b: Bytes): int {
    if b == [] then 0 else (b[0] as int) + 0x100 * LittleEndian(b[1..])
  }

  function FromOctet(o: uint8): int {
    if o < 0x80 then o as int else (o as int) - 0x100
  }

  // A client reads back the numbers and the audio that were sent.
  lemma PacketReadsBack(seqLo: uint16, srcSid: uint32, payload: Bytes, sp: Spatial)
    ensures var b := Packet(seqLo, srcSid, payload, sp).bytes;
            && |b| == 10 + |payload| && b[10..] == payload
            && LittleEndian(b[2..4]) == seqLo && LittleEndian(b[4..8]) == srcSid
            && b[8] == sp.gain && FromOctet(b[9]) == sp.pan
  {
    var b := Packet(seqLo, srcSid, payload, sp).bytes;
    assert b[2..4] == [seqLo % 0x100, seqLo / 0x100];
    assert b[4..8] == [srcSid % 0x100, srcSid / 0x100 % 0x100, srcSid / 0x1_0000 % 0x100, srcSid / 0x100_0000];
    TwoBytes(b[2..4]);
    FourBytes(b[4..8]);
    SourceReadsBack(srcSid);
  }

  lemma TwoBytes(b: Bytes)
    requires |b| == 2
    ensures LittleEndian(b) == (b[0] as int) + 0x100 * (b[1] as int)
  {
    assert b[1..][1..] == [] && LittleEndian([]) == 0;
    assert LittleEndian(b[1..]) == b[1] as int;
  }

  lemma FourBytes(b: Bytes)
    requires |b| == 4
    ensures LittleEndian(b) ==
            (b[0] as int) + 0x100 * (b[1] as int) + 0x1_0000 * (b[2] as int) + 0x100_0000 * (b[3] as int)
  {
    TwoBytes(b[2..]);
    assert b[1..][1..] == b[2..];
  }

  lemma SourceReadsBack(x: uint32)
    ensures x % 0x100 + 0x100 * (x / 0x100 % 0x100) + 0x1_0000 * (x / 0x1_0000 % 0x100) + 0x100_0000 * (x / 0x100_0000)
            == x
  {
    assert x / 0x1_0000 == x / 0x100 / 0x100 && x / 0x100_0000 == x / 0x1_0000 / 0x100;
  }

  // ---- gain and pan ----

  function Gain(dist: real): (g: real)
    ensures g <= 1.0
  {
    if dist > MIN_DISTANCE then 1.0 - (dist - MIN_DISTANCE) / (MAX_DISTANCE - MIN_DISTANCE) else 1.0
  }

  function GainByte(gain: real): uint8
    requires 0.0 < gain <= 1.0
  {
    (gain * 255.0 + 0.5).Floor
  }

  function Pan(dx: real): (p: real)
    ensures -1.0 <= p <= 1.0
  {
    var p := dx / PAN_HALF_WIDTH;
    if p < -1.0 then -1.0 else if p > 1.0 then 1.0 else p
  }

  // Conversion to an integer rounds toward zero.
  function Truncated(x: real): int {
    if x >= 0.0 then x.Floor else -((-x).Floor)
  }

  function PanByte(pan: real): int8
    requires -1.0 <= pan <= 1.0
  {
    Truncated(pan * 127.0 + 0.5)
  }

  lemma FartherIsNeverLouder(near: real, far: real)
    requires near <= far && Gain(far) > 0.0
    ensures GainByte(Gain(far)) <= GainByte(Gain(near))
  {
  }

  // The protocol promises that no packet is sent with gain 0; the last four units of the
  // range break it.
  lemma SentSilentIff(dist: real)
    requires Gain(dist) > 0.0
    ensures GainByte(Gain(dist)) == 0 <==> dist > MAX_DISTANCE - 2000.0 / 510.0
  {
  }

  // Pan never falls from left to right; the documented -127 is not used.
  lemma PanRises(a: real, b: real)
    requires a <= b
    ensures -126 <= PanByte(Pan(a)) <= PanByte(Pan(b)) <= 127
    ensures a >= 0.0 ==> PanByte(Pan(a)) >= 0
  {
  }

  // Mirrored positions give opposite pan bytes, but for rounding.
  lemma PanMirrors(dx: real)
    ensures 0 <= PanByte(Pan(dx)) + PanByte(Pan(-dx)) <= 1
  {
  }

  // ---- who is sent what ----

  function SumOfSquares(dx: real, dy: real, dz: real): real {
    dx * dx + dy * dy + dz * dz
  }

  function DistanceSquared(a: Session, b: Session): real {
    SumOfSquares(a.x - b.x, a.y - b.y, a.z - b.z)
  }

  predicate Neighbor(speaker: Session, s: Session) {
    s.id != speaker.id && s.instanceId == speaker.instanceId &&
    DistanceSquared(s, speaker) <= MAX_DISTANCE * MAX_DISTANCE
  }

  predicate SameHost(cfg: Config, a: Session, b: Session) {
    a.udpAddr.Some? && b.udpAddr.Some? && cfg.host(a.udpAddr.value) == cfg.host(b.udpAddr.value)
  }

  function Heard(cfg: Config, speaker: Session, recv: Session): Option<Spatial> {
    if !Neighbor(speaker, recv) || recv.udpAddr.None? then None
    else if cfg.multiboxMute && SameHost(cfg, speaker, recv) then None
    else if !recv.positionKnown then None
    else
      var gain := Gain(cfg.sqrt(DistanceSquared(speaker, recv)));
      if gain <= 0.0 then None
      else Some(Spatial(recv.udpAddr.value, GainByte(gain), PanByte(Pan(speaker.x - recv.x))))
  }

  // The spatial parts for some of the sessions, in any order, one for each that hears.
  ghost predicate Placed(cfg: Config, speaker: Session, recvs: set<Session>, placed: seq<Spatial>) {
    exists order :: PlacedInOrder(cfg, speaker, recvs, order, placed)
  }

  ghost predicate PlacedInOrder(cfg: Config, speaker: Session, recvs: set<Session>, order: seq<Session>,
                                placed: seq<Spatial>)
  {
    && (forall s :: s in order <==> s in recvs && Heard(cfg, speaker, s).Some?)
    && (forall i, j :: 0 <= i < j < |order| ==> order[i] != order[j])
    && |placed| == |order| && forall i :: 0 <= i < |order| ==> Some(placed[i]) == Heard(cfg, speaker, order[i])
  }

  function Packets(seqLo: uint16, srcSid: uint32, payload: Bytes, placed: seq<Spatial>): seq<Datagram> {
    seq(|placed|, i requires 0 <= i < |placed| => Packet(seqLo, srcSid, payload, placed[i]))
  }

  method ProximityNeighbors(t: Sessions, speaker: Session) returns (out: seq<Session>)
    ensures forall s :: s in out <==> s in t.bySID.Values && Neighbor(speaker, s)
    ensures forall i, j :: 0 <= i < j < |out| ==> out[i] != out[j]
  {
    out := [];
    var left := t.bySID.Values;
    while left != {}
      invariant left <= t.bySID.Values
      invariant forall s :: s in out <==> s in t.bySID.Values - left && Neighbor(speaker, s)
      invariant forall i, j :: 0 <= i < j < |out| ==> out[i] != out[j]
      decreases |left|
    {
      var sess :| sess in left;
      left := left - {sess};
      var near := InReach(speaker, sess);
      if near {
        out := out + [sess];
      }
    }
  }

  // The scan's tests of one session.
  method InReach(speaker: Session, sess: Session) returns (near: bool)
    ensures near == Neighbor(speaker, sess)
  {
    if sess.id == speaker.id {
      return false;
    }
    if sess.instanceId != speaker.instanceId {
      return false;
    }
    var dx, dy, dz := sess.x - speaker.x, sess.y - speaker.y, sess.z - speaker.z;
    var squares := dx * dx + dy * dy + dz * dz;
    assert squares == SumOfSquares(dx, dy, dz) == DistanceSquared(sess, speaker);
    near := squares <= MAX_DISTANCE * MAX_DISTANCE;
  }

  // The operator's loopback mode plays a speaker back to itself.
  function Echo(cfg: Config, speaker: Session): seq<Spatial> {
    if cfg.echo && speaker.udpAddr.Some? then [Spatial(speaker.udpAddr.value, 255, 0)] else []
  }

  // The buffer of one packet, reused for every send: all but the two spatial bytes is set.
  ghost predicate Prepared(out: array<uint8>, seqLo: uint16, srcSid: uint32, payload: Bytes)
    reads out
  {
    out.Length == 10 + |payload| && out[..8] == Header(seqLo, srcSid) && out[10..] == payload
  }

  method Prepare(seqLo: uint16, srcSid: uint32, payload: Bytes) returns (out: array<uint8>)
    ensures fresh(out) && Prepared(out, seqLo, srcSid, payload)
  {
    out := new uint8[10 + |payload|](i => 0);
    out[0], out[1] := VERSION, PROXIMITY;
    out[2], out[3] := seqLo % 0x100, seqLo / 0x100;
    out[4], out[5] := srcSid % 0x100, srcSid / 0x100 % 0x100;
    out[6], out[7] := srcSid / 0x1_0000 % 0x100, srcSid / 0x100_0000;
    HeaderBytes(out[..8], seqLo, srcSid);
    for i := 0 to |payload|
      invariant out[..8] == Header(seqLo, srcSid) && out[10..10 + i] == payload[..i]
    {
      out[10 + i] := payload[i];
    }
    assert out[10..10 + |payload|] == out[10..] && payload[..|payload|] == payload;
  }

  lemma HeaderBytes(b: Bytes, seqLo: uint16, srcSid: uint32)
    requires |b| == 8 && b[0] == VERSION && b[1] == PROXIMITY
    requires b[2] == seqLo % 0x100 && b[3] == seqLo / 0x100
    requires b[4] == srcSid % 0x100 && b[5] == srcSid / 0x100 % 0x100
    requires b[6] == srcSid / 0x1_0000 % 0x100 && b[7] == srcSid / 0x100_0000
    ensures b == Header(seqLo, srcSid)
  {
  }

  method Send(out: array<uint8>, seqLo: uint16, srcSid: uint32, payload: Bytes, sp: Spatial) returns (d: Datagram)
    requires Prepared(out, seqLo, srcSid, payload)
    modifies out
    ensures Prepared(out, seqLo, srcSid, payload) && d == Packet(seqLo, srcSid, payload, sp)
  {
    out[8] := sp.gain;
    out[9] := Octet(sp.pan);
    assert out[..] == out[..8] + [out[8], out[9]] + out[10..];
    d := Datagram(sp.addr, out[..]);
  }

  // The echo if there is one, then one datagram for each of the sessions that hears.
  ghost predicate Emits(cfg: Config, speaker: Session, all: set<Session>, seqLo: uint16, srcSid: uint32,
                        payload: Bytes, sent: seq<Datagram>)
  {
    exists placed: seq<Spatial> ::
      && sent == Packets(seqLo, srcSid, payload, Echo(cfg, speaker) + placed)
      && if speaker.positionKnown then Placed(cfg, speaker, all, placed) else placed == []
  }

  method RouteProximity(cfg: Config, t: Sessions, speaker: Session, seqLo: uint16, srcSid: uint32, payload: Bytes)
    returns (sent: seq<Datagram>)
    ensures if payload == [] then sent == []
            else Emits(cfg, speaker, t.bySID.Values, seqLo, srcSid, payload, sent)
  {
    if |payload| == 0 {
      return [];
    }
    var out := Prepare(seqLo, srcSid, payload);
    sent := SendEcho(out, seqLo, srcSid, payload, cfg, speaker);
    if !speaker.positionKnown {
      assert Echo(cfg, speaker) + [] == Echo(cfg, speaker);
      return;
    }
    var neighbors := ProximityNeighbors(t, speaker);
    var sends;
    ghost var placed;
    sends, placed := SendToEach(out, seqLo, srcSid, payload, cfg, speaker, neighbors, t.bySID.Values);
    PacketsAppend(seqLo, srcSid, payload, Echo(cfg, speaker), placed);
    sent := sent + sends;
  }

  lemma PacketsAppend(seqLo: uint16, srcSid: uint32, payload: Bytes, a: seq<Spatial>, b: seq<Spatial>)
    ensures Packets(seqLo, srcSid, payload, a + b) ==
            Packets(seqLo, srcSid, payload, a) + Packets(seqLo, srcSid, payload, b)
  {
  }

  method SendEcho(out: array<uint8>, seqLo: uint16, srcSid: uint32, payload: Bytes, cfg: Config, speaker: Session)
    returns (sent: seq<Datagram>)
    requires Prepared(out, seqLo, srcSid, payload)
    modifies out
    ensures Prepared(out, seqLo, srcSid, payload) && sent == Packets(seqLo, srcSid, payload, Echo(cfg, speaker))
  {
    sent := [];
    if cfg.echo && speaker.udpAddr.Some? {
      var d := Send(out, seqLo, srcSid, payload, Spatial(speaker.udpAddr.value, 255, 0));
      sent := [d];
    }
  }

  method SendToEach(out: array<uint8>, seqLo: uint16, srcSid: uint32, payload: Bytes, cfg: Config, speaker: Session,
                    neighbors: seq<Session>, ghost all: set<Session>)
    returns (sent: seq<Datagram>, ghost placed: seq<Spatial>)
    requires Prepared(out, seqLo, srcSid, payload)
    requires forall s :: s in neighbors <==> s in all && Neighbor(speaker, s)
    requires forall i, j :: 0 <= i < j < |neighbors| ==> neighbors[i] != neighbors[j]
    modifies out
    ensures sent == Packets(seqLo, srcSid, payload, placed) && Placed(cfg, speaker, all, placed)
  {
    sent, placed := [], [];
    ghost var order: seq<Session> := [];
    for i := 0 to |neighbors|
      invariant Prepared(out, seqLo, srcSid, payload) && sent == Packets(seqLo, srcSid, payload, placed)
      invariant InStep(cfg, speaker, neighbors[..i], order, placed)
    {
      var recv := neighbors[i];
      assert neighbors[..i + 1] == neighbors[..i] + [recv] && Neighbor(speaker, recv) by {
        assert recv in neighbors;
      }
      var sp := SpatialFor(cfg, speaker, recv);
      NextInStep(cfg, speaker, neighbors[..i], order, placed, recv);
      if sp.Some? {
        var d := Send(out, seqLo, srcSid, payload, sp.value);
        sent, placed, order := sent + [d], placed + [sp.value], order + [recv];
      }
    }
    assert neighbors[..|neighbors|] == neighbors;
    assert PlacedInOrder(cfg, speaker, all, order, placed);
  }

  // The order in which the receivers so far were served.
  ghost predicate InStep(cfg: Config, speaker: Session, recvs: seq<Session>, order: seq<Session>,
                         placed: seq<Spatial>)
  {
    && (forall s :: s in order <==> s in recvs && Heard(cfg, speaker, s).Some?)
    && (forall a, b :: 0 <= a < b < |order| ==> order[a] != order[b])
    && |placed| == |order| && forall k :: 0 <= k < |order| ==> Some(placed[k]) == Heard(cfg, speaker, order[k])
  }

  lemma NextInStep(cfg: Config, speaker: Session, recvs: seq<Session>, order: seq<Session>, placed: seq<Spatial>,
                   recv: Session)
    requires InStep(cfg, speaker, recvs, order, placed) && recv !in recvs
    ensures var sp := Heard(cfg, speaker, recv);
            if sp.Some? then InStep(cfg, speaker, recvs + [recv], order + [recv], placed + [sp.value])
            else InStep(cfg, speaker, recvs + [recv], order, placed)
  {
    assert recv !in order;
  }

  // The tests and the arithmetic for one neighbour.
  method SpatialFor(cfg: Config, speaker: Session, recv: Session) returns (sp: Option<Spatial>)
    requires Neighbor(speaker, recv)
    ensures sp == Heard(cfg, speaker, recv)
  {
    if recv.udpAddr.None? {
      return None;
    }
    if cfg.multiboxMute && speaker.udpAddr.Some? && recv.udpAddr.Some? {
      if cfg.host(speaker.udpAddr.value) == cfg.host(recv.udpAddr.value) {
        return None;
      }
    }
    if !recv.positionKnown {
      return None;
    }
    var dx, dy, dz := speaker.x - recv.x, speaker.y - recv.y, speaker.z - recv.z;
    var squares := dx * dx + dy * dy + dz * dz;
    assert squares == SumOfSquares(dx, dy, dz) == DistanceSquared(speaker, recv);
    var dist := cfg.sqrt(squares);
    var gainF := 1.0;
    if dist > MIN_DISTANCE {
      gainF := 1.0 - (dist - MIN_DISTANCE) / (MAX_DISTANCE - MIN_DISTANCE);
    }
    if gainF <= 0.0 {
      return None;
    }
    var panF := dx / PAN_HALF_WIDTH;
    if panF < -1.0 {
      panF := -1.0;
    } else if panF > 1.0 {
      panF := 1.0;
    }
    sp := Some(Spatial(recv.udpAddr.value, (gainF * 255.0 + 0.5).Floor, Truncated(panF * 127.0 + 0.5)));
  }

  // ---- silent packets ----

  lemma HeardIsPlaced(cfg: Config, speaker: Session, all: set<Session>, placed: seq<Spatial>, recv: Session)
    requires Placed(cfg, speaker, all, placed) && recv in all && Heard(cfg, speaker, recv).Some?
    ensures Heard(cfg, speaker, recv).value in placed
  {
    var order :| PlacedInOrder(cfg, speaker, all, order, placed);
    assert recv in order;
    var i :| 0 <= i < |order| && order[i] == recv;
    assert Some(placed[i]) == Heard(cfg, speaker, order[i]);
  }

  lemma PlacedIsSent(seqLo: uint16, srcSid: uint32, payload: Bytes, placed: seq<Spatial>, sp: Spatial)
    requires sp in placed
    ensures Packet(seqLo, srcSid, payload, sp) in Packets(seqLo, srcSid, payload, placed)
  {
    var i :| 0 <= i < |placed| && placed[i] == sp;
    assert Packets(seqLo, srcSid, payload, placed)[i] == Packet(seqLo, srcSid, payload, sp);
  }

  lemma HeardIsSent(cfg: Config, speaker: Session, all: set<Session>, seqLo: uint16, srcSid: uint32, payload: Bytes,
                    sent: seq<Datagram>, recv: Session)
    requires Emits(cfg, speaker, all, seqLo, srcSid, payload, sent) && speaker.positionKnown
    requires recv in all && Heard(cfg, speaker, recv).Some?
    ensures Packet(seqLo, srcSid, payload, Heard(cfg, speaker, recv).value) in sent
  {
    var placed: seq<Spatial> :| sent == Packets(seqLo, srcSid, payload, Echo(cfg, speaker) + placed) &&
                                Placed(cfg, speaker, all, placed);
    HeardIsPlaced(cfg, speaker, all, placed, recv);
    PlacedIsSent(seqLo, srcSid, payload, Echo(cfg, speaker) + placed, Heard(cfg, speaker, recv).value);
  }

  // A session that hears the speaker is sent a datagram with gain byte 0 exactly if its
  // distance is within the last four units of the range.
  lemma SilentPacketSentIff(cfg: Config, speaker: Session, all: set<Session>, seqLo: uint16, srcSid: uint32,
                            payload: Bytes, sent: seq<Datagram>, recv: Session)
    requires Emits(cfg, speaker, all, seqLo, srcSid, payload, sent) && speaker.positionKnown
    requires recv in all && Heard(cfg, speaker, recv).Some?
    ensures var d := Packet(seqLo, srcSid, payload, Heard(cfg, speaker, recv).value);
            && d in sent && Some(d.addr) == recv.udpAddr
            && (d.bytes[8] == 0 <==> cfg.sqrt(DistanceSquared(speaker, recv)) > MAX_DISTANCE - 2000.0 / 510.0)
  {
    HeardIsSent(cfg, speaker, all, seqLo, srcSid, payload, sent, recv);
    PacketReadsBack(seqLo, srcSid, payload, Heard(cfg, speaker, recv).value);
    SentSilentIff(cfg.sqrt(DistanceSquared(speaker, recv)));
  }

  // Two sessions 2498 units apart: the packet is sent, and silent.
  lemma SilentPacket(cfg: Config, all: set<Session>, seqLo: uint16, srcSid: uint32, payload: Bytes,
                     sent: seq<Datagram>)
    requires !cfg.multiboxMute && cfg.sqrt(2498.0 * 2498.0) == 2498.0
    requires Session(2, 8, Some("b"), 2498.0, 0.0, 0.0, 0, true) in all
    requires Emits(cfg, Session(1, 7, Some("a"), 0.0, 0.0, 0.0, 0, true), all, seqLo, srcSid, payload, sent)
    ensures exists d :: d in sent && d.addr == "b" && |d.bytes| == 10 + |payload| && d.bytes[8] == 0
  {
    var speaker := Session(1, 7, Some("a"), 0.0, 0.0, 0.0, 0, true);
    var recv := Session(2, 8, Some("b"), 2498.0, 0.0, 0.0, 0, true);
    assert DistanceSquared(speaker, recv) == 2498.0 * 2498.0 == DistanceSquared(recv, speaker);
    SilentPacketSentIff(cfg, speaker, all, seqLo, srcSid, payload, sent, recv);
  }
}
