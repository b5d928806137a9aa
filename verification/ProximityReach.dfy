/**
 * What live proximity audio sends, in terms of the sessions' fields and the datagrams' bytes:
 * who is reached, how loud and from which side.
 */
module ProximityReach {
  import opened Types
  import opened Topology
  import opened Proximity

  // ---- who is reached ----

  function Squares(a: Session, b: Session): real {
    (a.x - b.x) * (a.x - b.x) + (a.y - b.y) * (a.y - b.y) + (a.z - b.z) * (a.z - b.z)
  }

  function Apart(cfg: Config, speaker: Session, recv: Session): real {
    cfg.sqrt(Squares(speaker, recv))
  }

  // Another session of the same instance, with known position and address, within 2500 and at
  // less than that by the root, and not on the speaker's own host where those are silenced.
  ghost predicate Reaches(cfg: Config, speaker: Session, recv: Session) {
    && recv.id != speaker.id && recv.instanceId == speaker.instanceId && recv.positionKnown && recv.udpAddr.Some?
    && Squares(recv, speaker) <= 2500.0 * 2500.0 && Apart(cfg, speaker, recv) < 2500.0
    && !(cfg.multiboxMute && speaker.udpAddr.Some? &&
         cfg.host(speaker.udpAddr.value) == cfg.host(recv.udpAddr.value))
  }

  lemma SquaresAreDistanceSquared(a: Session, b: Session)
    ensures Squares(a, b) == DistanceSquared(a, b)
  {
    var dx, dy, dz := a.x - b.x, a.y - b.y, a.z - b.z;
    assert SumOfSquares(dx, dy, dz) == dx * dx + dy * dy + dz * dz;
  }

  lemma ReachesIffHeard(cfg: Config, speaker: Session, recv: Session)
    ensures Reaches(cfg, speaker, recv) <==> Heard(cfg, speaker, recv).Some?
  {
    SquaresAreDistanceSquared(speaker, recv);
    SquaresAreDistanceSquared(recv, speaker);
    GainIsPositiveIff(Apart(cfg, speaker, recv));
  }

  lemma GainIsPositiveIff(dist: real)
    ensures Gain(dist) > 0.0 <==> dist < 2500.0
  {
  }

  // ---- how loud and from which side ----

  // Full up to 500, then falling linearly to nothing at 2500, rounded to the nearest of 255 steps.
  ghost predicate LoudnessByte(b: uint8, dist: real) {
    if dist <= 500.0 then b == 255
    else b as real <= (2500.0 - dist) / 2000.0 * 255.0 + 0.5 < b as real + 1.0
  }

  // From -126 for a speaker 1500 or more to the left to 127 for one as far to the right,
  // proportional in between and rounded.
  ghost predicate SideByte(p: int, dx: real) {
    && (dx >= 1500.0 ==> p == 127) && (dx <= -1500.0 ==> p == -126)
    && (0.0 <= dx < 1500.0 ==> p as real <= dx / 1500.0 * 127.0 + 0.5 < p as real + 1.0)
    && (-1500.0 < dx < 0.0 ==>
          var exact := dx / 1500.0 * 127.0 + 0.5;
          if exact >= 0.0 then p == 0 else exact <= p as real < exact + 1.0)
    && (p == 0 || (p > 0 && dx > 0.0) || (p < 0 && dx < 0.0))
  }

  lemma GainByteIsLoudness(dist: real)
    requires Gain(dist) > 0.0
    ensures LoudnessByte(GainByte(Gain(dist)), dist)
  {
  }

  lemma PanByteIsSide(dx: real)
    ensures SideByte(PanByte(Pan(dx)), dx)
  {
  }

  // ---- what is sent ----

  // One whole datagram: version, channel, sequence number and source, low bytes first, the two
  // spatial bytes, and the audio.
  ghost predicate Whole(d: Datagram, seqLo: uint16, srcSid: uint32, payload: Bytes) {
    && |d.bytes| == 10 + |payload| && d.bytes[0] == 1 && d.bytes[1] == 0
    && d.bytes[2] as int + 0x100 * d.bytes[3] as int == seqLo
    && d.bytes[4] as int + 0x100 * d.bytes[5] as int + 0x1_0000 * d.bytes[6] as int + 0x100_0000 * d.bytes[7] as int
       == srcSid
    && d.bytes[10..] == payload
  }

  function Signed(b: uint8): int {
    if b < 128 then b as int else b as int - 256
  }

  // The datagram a session is sent.
  ghost predicate Carries(d: Datagram, cfg: Config, speaker: Session, recv: Session) {
    && Reaches(cfg, speaker, recv) && Some(d.addr) == recv.udpAddr && |d.bytes| >= 10
    && LoudnessByte(d.bytes[8], Apart(cfg, speaker, recv)) && SideByte(Signed(d.bytes[9]), speaker.x - recv.x)
  }

  function Echoes(cfg: Config, speaker: Session): nat {
    if cfg.echo && speaker.udpAddr.Some? then 1 else 0
  }

  lemma PacketIsWhole(seqLo: uint16, srcSid: uint32, payload: Bytes, sp: Spatial)
    ensures var d := Packet(seqLo, srcSid, payload, sp);
            && Whole(d, seqLo, srcSid, payload)
            && d.addr == sp.addr && d.bytes[8] == sp.gain && Signed(d.bytes[9]) == sp.pan
  {
    var b := Packet(seqLo, srcSid, payload, sp).bytes;
    PacketReadsBack(seqLo, srcSid, payload, sp);
    TwoBytes(b[2..4]);
    FourBytes(b[4..8]);
  }

  lemma HeardIsCarried(cfg: Config, speaker: Session, recv: Session, seqLo: uint16, srcSid: uint32, payload: Bytes)
    requires Heard(cfg, speaker, recv).Some?
    ensures Carries(Packet(seqLo, srcSid, payload, Heard(cfg, speaker, recv).value), cfg, speaker, recv)
  {
    var sp := Heard(cfg, speaker, recv).value;
    ReachesIffHeard(cfg, speaker, recv);
    PacketIsWhole(seqLo, srcSid, payload, sp);
    SquaresAreDistanceSquared(speaker, recv);
    GainByteIsLoudness(Apart(cfg, speaker, recv));
    PanByteIsSide(speaker.x - recv.x);
  }

  // The echo comes first, at full volume from the middle. After it, in some order, comes one
  // datagram for each session that is reached, and no other.
  ghost predicate SentTo(sent: seq<Datagram>, order: seq<Session>, cfg: Config, speaker: Session, all: set<Session>) {
    && |sent| == Echoes(cfg, speaker) + |order|
    && (forall s :: s in order <==> s in all && Reaches(cfg, speaker, s))
    && (forall i, j :: 0 <= i < j < |order| ==> order[i] != order[j])
    && (forall i :: 0 <= i < |order| ==> Carries(sent[Echoes(cfg, speaker) + i], cfg, speaker, order[i]))
  }

  lemma SentToReached(cfg: Config, speaker: Session, all: set<Session>, seqLo: uint16, srcSid: uint32,
                      payload: Bytes, sent: seq<Datagram>)
    requires Emits(cfg, speaker, all, seqLo, srcSid, payload, sent) && speaker.positionKnown
    ensures exists order :: SentTo(sent, order, cfg, speaker, all)
  {
    var placed: seq<Spatial> :| sent == Packets(seqLo, srcSid, payload, Echo(cfg, speaker) + placed) &&
                                Placed(cfg, speaker, all, placed);
    var order :| PlacedInOrder(cfg, speaker, all, order, placed);
    PlacedAreSent(cfg, speaker, all, seqLo, srcSid, payload, placed, order);
  }

  lemma PlacedAreSent(cfg: Config, speaker: Session, all: set<Session>, seqLo: uint16, srcSid: uint32, payload: Bytes,
                      placed: seq<Spatial>, order: seq<Session>)
    requires PlacedInOrder(cfg, speaker, all, order, placed)
    ensures SentTo(Packets(seqLo, srcSid, payload, Echo(cfg, speaker) + placed), order, cfg, speaker, all)
  {
    var sent, echo := Packets(seqLo, srcSid, payload, Echo(cfg, speaker) + placed), Echo(cfg, speaker);
    forall s
      ensures s in order <==> s in all && Reaches(cfg, speaker, s)
    {
      ReachesIffHeard(cfg, speaker, s);
    }
    forall i | 0 <= i < |order|
      ensures Carries(sent[Echoes(cfg, speaker) + i], cfg, speaker, order[i])
    {
      assert Some(placed[i]) == Heard(cfg, speaker, order[i]);
      assert (echo + placed)[|echo| + i] == placed[i];
      HeardIsCarried(cfg, speaker, order[i], seqLo, srcSid, payload);
    }
  }

  lemma AllWhole(cfg: Config, speaker: Session, all: set<Session>, seqLo: uint16, srcSid: uint32, payload: Bytes,
                 sent: seq<Datagram>)
    requires Emits(cfg, speaker, all, seqLo, srcSid, payload, sent)
    ensures forall d :: d in sent ==> Whole(d, seqLo, srcSid, payload)
    ensures |sent| >= Echoes(cfg, speaker) && (!speaker.positionKnown ==> |sent| == Echoes(cfg, speaker))
    ensures Echoes(cfg, speaker) == 1 ==>
              Some(sent[0].addr) == speaker.udpAddr && |sent[0].bytes| >= 10 &&
              sent[0].bytes[8] == 255 && sent[0].bytes[9] == 0
  {
    var placed: seq<Spatial> :| sent == Packets(seqLo, srcSid, payload, Echo(cfg, speaker) + placed) &&
                                if speaker.positionKnown then Placed(cfg, speaker, all, placed) else placed == [];
    var spatial := Echo(cfg, speaker) + placed;
    forall i | 0 <= i < |sent|
      ensures Whole(sent[i], seqLo, srcSid, payload)
      ensures sent[i].addr == spatial[i].addr && sent[i].bytes[8] == spatial[i].gain &&
              Signed(sent[i].bytes[9]) == spatial[i].pan
    {
      PacketIsWhole(seqLo, srcSid, payload, spatial[i]);
    }
  }

  // So an address is sent something after the echo if and only if a session that is reached has it.
  lemma AddressReachedIff(cfg: Config, speaker: Session, all: set<Session>, seqLo: uint16, srcSid: uint32,
                          payload: Bytes, sent: seq<Datagram>, addr: string)
    requires Emits(cfg, speaker, all, seqLo, srcSid, payload, sent) && speaker.positionKnown
    ensures (exists i :: Echoes(cfg, speaker) <= i < |sent| && sent[i].addr == addr) <==>
            exists recv :: recv in all && Reaches(cfg, speaker, recv) && recv.udpAddr == Some(addr)
  {
    SentToReached(cfg, speaker, all, seqLo, srcSid, payload, sent);
    var order :| SentTo(sent, order, cfg, speaker, all);
    var n := Echoes(cfg, speaker);
    if recv :| recv in all && Reaches(cfg, speaker, recv) && recv.udpAddr == Some(addr) {
      var i := ReachedIsSent(sent, order, cfg, speaker, all, recv);
      assert sent[i].addr == addr;
    }
    if i :| n <= i < |sent| && sent[i].addr == addr {
      var recv := SentIsReached(sent, order, cfg, speaker, all, i);
      assert recv.udpAddr == Some(addr);
    }
  }

  lemma ReachedIsSent(sent: seq<Datagram>, order: seq<Session>, cfg: Config, speaker: Session, all: set<Session>,
                      recv: Session)
    returns (i: nat)
    requires SentTo(sent, order, cfg, speaker, all) && recv in all && Reaches(cfg, speaker, recv)
    ensures Echoes(cfg, speaker) <= i < |sent| && Carries(sent[i], cfg, speaker, recv)
  {
    assert recv in order;
    var k :| 0 <= k < |order| && order[k] == recv;
    i := Echoes(cfg, speaker) + k;
  }

  lemma SentIsReached(sent: seq<Datagram>, order: seq<Session>, cfg: Config, speaker: Session, all: set<Session>,
                      i: nat)
    returns (recv: Session)
    requires SentTo(sent, order, cfg, speaker, all) && Echoes(cfg, speaker) <= i < |sent|
    ensures recv in all && Carries(sent[i], cfg, speaker, recv)
  {
    var k := i - Echoes(cfg, speaker);
    recv := order[k];
    assert recv in order && Carries(sent[Echoes(cfg, speaker) + k], cfg, speaker, order[k]);
  }
}
