/** The service's mutable session table; each method is one locked operation. */
module SessionTables {
  import opened Types
  import opened Topology

  class SessionTable {
    var nextId: uint32
    var bySID: map<uint32, Session>
    var byUDP: map<string, uint32>
    var byPlayer: map<uint32, uint32>

    ghost function View(): Sessions
      reads this
    {
      Sessions(nextId, bySID, byUDP, byPlayer)
    }

    ghost predicate Valid()
      reads this
    {
      Sound(View())
    }

    constructor ()
      ensures Valid() && View() == NO_SESSIONS
    {
      nextId, bySID, byUDP, byPlayer := 0, map[], map[], map[];
    }

    method AllocSession(player: uint32) returns (sid: uint32)
      modifies this
      ensures View() == Topology.AllocSession(old(View()), player) && sid == nextId
      ensures old(Valid()) ==> (Valid() <==> !NextIdNamed(old(View()), player))
    {
      AllocKeepsValidIff(player);
      nextId := (nextId + 1) % ID_LIMIT;
      sid := nextId;
      bySID := bySID[sid := Session(sid, player, None, 0.0, 0.0, 0.0, 0, false)];
      if player != 0 {
        byPlayer := byPlayer[player := sid];
      }
    }

    lemma AllocKeepsValidIff(player: uint32)
      ensures Valid() ==> (Sound(Topology.AllocSession(View(), player)) <==> !NextIdNamed(View(), player))
    {
      if Valid() {
        AllocKeepsIndicesSoundIff(View(), player);
      }
    }

    lemma RememberKeepsValidIff(sess: Session, addr: string)
      ensures Valid() ==> (Sound(Topology.RememberUDP(View(), sess, addr)) <==> sess.id in bySID)
    {
      if Valid() {
        RememberKeepsIndicesSoundIff(View(), sess, addr);
      }
    }

    // The session handed in may have been dropped since it was looked up.
    method RememberUDP(sess: Session, addr: string)
      modifies this`bySID, this`byUDP
      ensures View() == Topology.RememberUDP(old(View()), sess, addr)
      ensures old(Valid()) ==> (Valid() <==> sess.id in old(bySID))
    {
      RememberKeepsValidIff(sess, addr);
      var known := if sess.id in bySID then bySID[sess.id] else sess;
      if known.udpAddr.Some? {
        byUDP := byUDP - {known.udpAddr.value};
      }
      if sess.id in bySID {
        bySID := bySID[sess.id := known.(udpAddr := Some(addr))];
      }
      byUDP := byUDP[addr := sess.id];
    }

    method UpdatePosition(sid: uint32, x: real, y: real, z: real, instanceId: uint32)
      modifies this`bySID
      ensures View() == Topology.UpdatePosition(old(View()), sid, x, y, z, instanceId)
      ensures old(Valid()) ==> Valid()
    {
      if sid in bySID {
        bySID := bySID[sid := bySID[sid].(x := x, y := y, z := z, instanceId := instanceId, positionKnown := true)];
      }
    }

    method Drop(sid: uint32)
      modifies this`bySID, this`byUDP, this`byPlayer
      ensures View() == Topology.Drop(old(View()), sid)
      ensures old(Valid()) ==> Valid()
    {
      if sid !in bySID {
        return;
      }
      var sess := bySID[sid];
      bySID := bySID - {sid};
      if sess.udpAddr.Some? {
        byUDP := byUDP - {sess.udpAddr.value};
      }
      if sess.playerId != 0 {
        byPlayer := byPlayer - {sess.playerId};
      }
    }
  }
}
