/**
 * Where a voice session stands, from which proximity audio is computed: what each event does
 * to the session table, field by field, and where whole runs leave a session.
 */
module SessionPositions {
  import opened Types
  import opened Topology
  import opened Bridge
  import opened LastWriter
  import Events
  import Replication
  import Positions
  import Drift

  // ---- one event ----

  // The two tables differ in the record of one session at most.
  ghost predicate OnlyRecordDiffers(t: Sessions, v: Sessions, sid: uint32) {
    && v == t.(bySID := v.bySID) && v.bySID.Keys == t.bySID.Keys
    && forall other :: other in t.bySID && other != sid ==> v.bySID[other] == t.bySID[other]
  }

  lemma PositionMovesSession(t: Sessions, player: uint32, x: real, y: real, z: real, instanceId: uint32)
    requires Sound(t)
    ensures var v := Events.ApplyToSessions(t, Events.Position(player, x, y, z, instanceId));
            if player !in t.byPlayer then v == t
            else
              var sid := t.byPlayer[player];
              && OnlyRecordDiffers(t, v, sid)
              && var s, r := t.bySID[sid], v.bySID[sid];
                 && r.x == x && r.y == y && r.z == z && r.instanceId == instanceId && r.positionKnown
                 && r.id == s.id && r.playerId == s.playerId && r.udpAddr == s.udpAddr
  {
  }

  lemma InstanceChangeMovesSession(t: Sessions, player: uint32, instanceId: uint32)
    requires Sound(t)
    ensures var v := Events.ApplyToSessions(t, Events.InstanceChange(player, instanceId));
            if player !in t.byPlayer then v == t
            else
              var sid := t.byPlayer[player];
              && OnlyRecordDiffers(t, v, sid)
              && var s, r := t.bySID[sid], v.bySID[sid];
                 && r.x == s.x && r.y == s.y && r.z == s.z && r.instanceId == instanceId && r.positionKnown
                 && r.id == s.id && r.playerId == s.playerId && r.udpAddr == s.udpAddr
  {
  }

  lemma LogoutEndsSession(t: Sessions, player: uint32)
    requires Sound(t)
    ensures var v := Events.ApplyToSessions(t, Events.Logout(player));
            if player !in t.byPlayer then v == t
            else
              var sid := t.byPlayer[player];
              && v.nextId == t.nextId
              && v.bySID == t.bySID - {sid} && v.byPlayer == t.byPlayer - {player}
              && v.byUDP == match t.bySID[sid].udpAddr { case None => t.byUDP case Some(addr) => t.byUDP - {addr} }
  {
  }

  lemma OtherEventsSpareSessions(t: Sessions, e: Events.Event)
    requires !e.Position? && !e.InstanceChange? && !e.Logout?
    ensures Events.ApplyToSessions(t, e) == t
  {
  }

  // ---- runs ----

  // Events as they are delivered, and what connections do to the table.
  datatype Entry = Wire(event: WireEvent) | Local(op: Op)

  function StepEntry(t: Sessions, entry: Entry): Sessions {
    match entry
    case Wire(event) =>
      (match Decode(event)
       case None => t
       case Some(e) => Events.ApplyToSessions(t, e))
    case Local(op) => Topology.Step(t, op)
  }

  function RunEntries(t: Sessions, entries: seq<Entry>): Sessions
    decreases |entries|
  {
    if entries == [] then t else RunEntries(StepEntry(t, entries[0]), entries[1..])
  }

  ghost predicate Found(t: Sessions, id: uint32, sid: uint32) {
    Sound(t) && id in t.byPlayer && t.byPlayer[id] == sid
  }

  // The session is the one its player is found by all along, and only events move it.
  ghost predicate Attached(t: Sessions, entries: seq<Entry>, id: uint32, sid: uint32)
    decreases |entries|
  {
    Found(t, id, sid) &&
    (entries == [] ||
     (LeavesPlace(t, entries[0], sid) && Attached(StepEntry(t, entries[0]), entries[1..], id, sid)))
  }

  ghost predicate LeavesPlace(t: Sessions, entry: Entry, sid: uint32) {
    match entry
    case Wire(_) => true
    case Local(Alloc(_)) => NextId(t) != sid
    case Local(Move(moved, _, _, _, _)) => moved != sid
    case Local(_) => true
  }

  // A login event carries no position, which the service reads as the origin.
  predicate Puts(e: WireEvent, id: int32, x: int32, y: int32, z: int32) {
    match e
    case WLogin(player) => player == id && x == 0 && y == 0 && z == 0
    case WPosition(player, px, py, pz, instanceId) => player == id && px == x && py == y && pz == z && instanceId >= 0
    case _ => false
  }

  predicate IsPut(e: WireEvent, id: int32) {
    (e.WLogin? || e.WPosition?) && e.player == id
  }

  function PutsHere(id: int32, x: int32, y: int32, z: int32): Entry -> bool {
    (entry: Entry) => entry.Wire? && Puts(entry.event, id, x, y, z)
  }

  function PutsElsewhere(id: int32, x: int32, y: int32, z: int32): Entry -> bool {
    (entry: Entry) => entry.Wire? && IsPut(entry.event, id) && !Puts(entry.event, id, x, y, z)
  }

  ghost predicate SessionAt(t: Sessions, sid: uint32, x: int32, y: int32, z: int32) {
    && sid in t.bySID
    && t.bySID[sid].x == x as real && t.bySID[sid].y == y as real && t.bySID[sid].z == z as real
    && t.bySID[sid].positionKnown
  }

  lemma EntryMoves(t: Sessions, entry: Entry, id: int32, sid: uint32, x: int32, y: int32, z: int32)
    requires 0 <= id && Found(t, id, sid) && Found(StepEntry(t, entry), id, sid) && LeavesPlace(t, entry, sid)
    ensures PutsHere(id, x, y, z)(entry) ==> SessionAt(StepEntry(t, entry), sid, x, y, z)
    ensures SessionAt(t, sid, x, y, z) && !PutsElsewhere(id, x, y, z)(entry) ==>
              SessionAt(StepEntry(t, entry), sid, x, y, z)
  {
    match entry
    case Wire(event) =>
      match Decode(event) {
        case None =>
        case Some(e) => EventMoves(t, e, id, sid);
      }
    case Local(op) =>
  }

  lemma EventMoves(t: Sessions, e: Events.Event, id: uint32, sid: uint32)
    requires Found(t, id, sid)
    ensures var v := Events.ApplyToSessions(t, e);
            && (e.Position? && e.player == id ==>
                  sid in v.bySID && v.bySID[sid] == t.bySID[sid].(x := e.x, y := e.y, z := e.z,
                                                                  instanceId := e.instanceId, positionKnown := true))
            && (e.InstanceChange? && e.player == id ==>
                  sid in v.bySID && v.bySID[sid] == t.bySID[sid].(instanceId := e.instanceId, positionKnown := true))
            && (e.player != id && sid in v.bySID ==> v.bySID[sid] == t.bySID[sid])
            && (!e.Position? && !e.InstanceChange? && !e.Logout? ==> v == t)
  {
    match e
    case Position(player, x, y, z, instanceId) => PositionMovesSession(t, player, x, y, z, instanceId);
    case InstanceChange(player, instanceId) => InstanceChangeMovesSession(t, player, instanceId);
    case Logout(player) => LogoutEndsSession(t, player);
    case _ => OtherEventsSpareSessions(t, e);
  }

  lemma {:induction false} StaysPut(t: Sessions, entries: seq<Entry>, id: int32, sid: uint32, x: int32, y: int32,
                                    z: int32)
    requires 0 <= id && Attached(t, entries, id, sid) && SessionAt(t, sid, x, y, z)
    requires Clean(entries, PutsElsewhere(id, x, y, z))
    ensures SessionAt(RunEntries(t, entries), sid, x, y, z)
    decreases |entries|
  {
    if entries == [] {
    } else {
      EntryMoves(t, entries[0], id, sid, x, y, z);
      StaysPut(StepEntry(t, entries[0]), entries[1..], id, sid, x, y, z);
    }
  }

  // A session its player is found by stands where the last position delivered for it put it.
  lemma {:induction false} SessionStandsWhereLastPut(t: Sessions, entries: seq<Entry>, id: int32, sid: uint32,
                                                     x: int32, y: int32, z: int32)
    requires 0 <= id && Attached(t, entries, id, sid)
    requires Settled(entries, PutsHere(id, x, y, z), PutsElsewhere(id, x, y, z))
    ensures SessionAt(RunEntries(t, entries), sid, x, y, z)
    decreases |entries|
  {
    var next := StepEntry(t, entries[0]);
    EntryMoves(t, entries[0], id, sid, x, y, z);
    if Settled(entries[1..], PutsHere(id, x, y, z), PutsElsewhere(id, x, y, z)) {
      SessionStandsWhereLastPut(next, entries[1..], id, sid, x, y, z);
    } else {
      StaysPut(next, entries[1..], id, sid, x, y, z);
    }
  }

  // ---- whole runs of the poller, delivered twice ----

  function Wires(events: seq<WireEvent>): seq<Entry> {
    seq(|events|, i requires 0 <= i < |events| => Wire(events[i]))
  }

  lemma {:induction false} PutsOfLog(events: seq<WireEvent>, id: int32, x: int32, y: int32, z: int32)
    requires 0 <= id
    requires Settled(Replication.Delivered(events), Positions.WritesSpot(id, Positions.Spot(x, y, z)),
                     Positions.SpoilsSpot(id, Positions.Spot(x, y, z)))
    ensures Settled(Wires(events), PutsHere(id, x, y, z), PutsElsewhere(id, x, y, z))
    decreases |events|
  {
    var p := Positions.Spot(x, y, z);
    var hits, spoils := Positions.WritesSpot(id, p), Positions.SpoilsSpot(id, p);
    var log, rest := Replication.Delivered(events), events[1..];
    assert log[1..] == Replication.Delivered(rest) && Wires(events)[1..] == Wires(rest);
    if Settled(log[1..], hits, spoils) {
      PutsOfLog(rest, id, x, y, z);
    } else {
      assert hits(log[0]) && Clean(Replication.Delivered(rest), spoils);
      forall i | 0 <= i < |rest|
        ensures !PutsElsewhere(id, x, y, z)(Wires(rest)[i])
      {
        assert !spoils(Replication.Delivered(rest)[i]);
      }
    }
  }

  lemma {:induction false} MadeIsSettledToo<T>(log: seq<T>, makes: T -> bool, unmakes: T -> bool, hits: T -> bool,
                                               spoils: T -> bool)
    requires MadeAndSettled(log, makes, unmakes, hits, spoils)
    ensures Settled(log, hits, spoils)
  {
    if MadeAndSettled(log[1..], makes, unmakes, hits, spoils) {
      MadeIsSettledToo(log[1..], makes, unmakes, hits, spoils);
    }
  }

  // If anything after a point is such an entry at all, what comes after the point is settled.
  lemma {:induction false} SettledSuffix<T>(a: seq<T>, b: seq<T>, hits: T -> bool, spoils: T -> bool, i: nat)
    requires Settled(a + b, hits, spoils) && i < |b| && (hits(b[i]) || spoils(b[i]))
    ensures Settled(b, hits, spoils)
    decreases |a|
  {
    if a == [] {
      assert a + b == b;
    } else {
      assert (a + b)[1..] == a[1..] + b;
      if Settled(a[1..] + b, hits, spoils) {
        SettledSuffix(a[1..], b, hits, spoils, i);
      } else {
        assert (a[1..] + b)[|a| - 1 + i] == b[i];
        assert forall k :: 0 <= k < |b| ==> (a[1..] + b)[|a| - 1 + k] == b[k];
        CleanAndHitSettled(b, i, hits, spoils);
      }
    }
  }

  ghost predicate LocalOnly(entries: seq<Entry>) {
    forall i :: 0 <= i < |entries| ==> entries[i].Local?
  }

  // However two deliveries of the poller's events and the connections' operations interleave:
  // from a moment at which a player has the session it is found by, and as long as it keeps it,
  // if a position of the player is still delivered then the session ends where the last position
  // published for the player says.
  lemma SessionHoldsLastSent(t: Sessions, minDelta: int, polls: seq<Replication.Poll>, both: seq<Entry>,
                             locals: seq<Entry>, before: seq<Entry>, rest: seq<Entry>, id: int32, sid: uint32, i: nat)
    requires Replication.PollerRun(NOTHING_SEEN, minDelta, polls) && 0 <= id && id in Replication.Online(polls)
    requires Shuffle(both, Wires(Replication.EventsOf(polls)), Wires(Replication.EventsOf(polls)))
    requires Shuffle(before + rest, both, locals) && LocalOnly(locals)
    requires Attached(t, rest, id, sid) && i < |rest| && rest[i].Wire? && IsPut(rest[i].event, id)
    ensures Positions.LastSpot(Replication.EventsOf(polls), id).Some?
    ensures var p := Positions.LastSpot(Replication.EventsOf(polls), id).value;
            SessionAt(RunEntries(t, rest), sid, p.x, p.y, p.z)
  {
    var events := Replication.EventsOf(polls);
    Drift.RunBooked(minDelta, polls, id);
    var p := Positions.LastSpot(events, id).value;
    var here, elsewhere := PutsHere(id, p.x, p.y, p.z), PutsElsewhere(id, p.x, p.y, p.z);
    MadeIsSettledToo(Replication.Delivered(events), Replication.Brings(id), Replication.LogsOut(id),
                     Positions.WritesSpot(id, p), Positions.SpoilsSpot(id, p));
    PutsOfLog(events, id, p.x, p.y, p.z);
    ShuffleSettled(both, Wires(events), Wires(events), here, elsewhere);
    ShuffleSettledClean(before + rest, both, locals, here, elsewhere);
    SettledSuffix(before, rest, here, elsewhere, i);
    SessionStandsWhereLastPut(t, rest, id, sid, p.x, p.y, p.z);
  }
}
