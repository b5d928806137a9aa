/**
 * Replicated positions: whatever the interleaving, each online player stands where its last
 * published position put it.
 */
module Positions {
  import opened Types
  import opened Worlds
  import opened Bridge
  import opened LastWriter
  import opened Replication

  datatype Spot = Spot(x: int32, y: int32, z: int32)

  function SpotOf(s: Snapshot): Spot {
    Spot(s.x, s.y, s.z)
  }

  // ---- the writes of a player's position ----

  // A login event carries no position, which the service reads as the origin.
  predicate Places(e: WireEvent, p: Spot) {
    match e
    case WLogin(_) => p == Spot(0, 0, 0)
    case WPosition(_, x, y, z, _) => p == Spot(x, y, z) && Decode(e).Some?
    case _ => false
  }

  function WritesSpot(id: int32, p: Spot): Test {
    (input: Input) => input.Deliver? && input.event.player == id && Places(input.event, p)
  }

  function SpoilsSpot(id: int32, p: Spot): Test {
    (input: Input) => input.Deliver? && input.event.player == id &&
                      (input.event.WLogout? ||
                       ((input.event.WLogin? || input.event.WPosition?) && !Places(input.event, p)))
  }

  ghost predicate SpotShown(log: seq<Input>, id: int32, p: Spot) {
    MadeAndSettled(log, Brings(id), LogsOut(id), WritesSpot(id, p), SpoilsSpot(id, p))
  }

  ghost predicate StandsAt(r: Option<Record>, p: Spot) {
    r.Some? && r.value.x == p.x as real && r.value.y == p.y as real && r.value.z == p.z as real
  }

  lemma LogDecidesSpot(r: Option<Record>, log: seq<Input>, id: uint32, p: Spot)
    requires id < 0x8000_0000 && SpotShown(log, id, p)
    ensures StandsAt(RunRecord(r, log, id), p)
  {
    var known := (r: Option<Record>) => r.Some?;
    var prop := (r: Option<Record>) => StandsAt(r, p);
    MadeDecides(r, log, id, Brings(id), LogsOut(id), WritesSpot(id, p), SpoilsSpot(id, p), known, prop);
  }

  // ---- the last position an event log publishes ----

  function LastSpot(events: seq<WireEvent>, id: int32): Option<Spot> {
    if events == [] then None
    else
      match events[|events| - 1]
      case WPosition(player, x, y, z, _) =>
        if player == id then Some(Spot(x, y, z)) else LastSpot(events[..|events| - 1], id)
      case _ => LastSpot(events[..|events| - 1], id)
  }

  lemma {:induction false} LastSpotAppend(a: seq<WireEvent>, b: seq<WireEvent>, id: int32)
    ensures LastSpot(a + b, id) == if LastSpot(b, id).Some? then LastSpot(b, id) else LastSpot(a, id)
  {
    if b == [] {
      assert a + b == a;
    } else {
      assert (a + b)[..|a + b| - 1] == a + b[..|b| - 1];
      LastSpotAppend(a, b[..|b| - 1], id);
    }
  }

  ghost predicate NoSpotFor(events: seq<WireEvent>, id: int32) {
    forall e :: e in events && e.WPosition? ==> e.player != id
  }

  lemma {:induction false} NoLastSpot(events: seq<WireEvent>, id: int32)
    requires NoSpotFor(events, id)
    ensures LastSpot(events, id) == None
  {
    if events == [] {
    } else {
      NoLastSpot(events[..|events| - 1], id);
      assert events[|events| - 1] in events;
    }
  }

  function Here(s: Snapshot): WireEvent {
    WPosition(s.objectId, s.x, s.y, s.z, s.instanceId)
  }

  // Everything a reading publishes but the position.
  function EventsButPosition(ch: Changes, s: Snapshot): seq<WireEvent> {
    EmitIf(ch.first, WLogin(s.objectId)) + EmitIf(ch.clan, WClan(s.objectId, s.clanId, s.isClanLeader)) +
    GroupEventsFor(ch, s)
  }

  lemma PositionComesLast(ch: Changes, s: Snapshot)
    ensures EventsFor(ch, s) ==
            EventsButPosition(ch, s) + EmitIf(ch.position, Here(s))
  {
  }

  lemma NoSpotInGroups(ch: Changes, s: Snapshot, id: int32)
    ensures NoSpotFor(GroupEventsFor(ch, s), id)
  {
  }

  lemma NoSpotButLast(ch: Changes, s: Snapshot, id: int32)
    ensures NoSpotFor(EventsButPosition(ch, s), id)
  {
    NoSpotInGroups(ch, s, id);
    NoSpotJoin(EmitIf(ch.first, WLogin(s.objectId)), EmitIf(ch.clan, WClan(s.objectId, s.clanId, s.isClanLeader)),
               GroupEventsFor(ch, s), id);
  }

  lemma NoSpotJoin(a: seq<WireEvent>, b: seq<WireEvent>, c: seq<WireEvent>, id: int32)
    requires NoSpotFor(a, id) && NoSpotFor(b, id) && NoSpotFor(c, id)
    ensures NoSpotFor(a + b + c, id)
  {
  }

  // One reading publishes the position exactly when it is due.
  lemma SpotEmittedIff(m: Memory, minDelta: int, s: Snapshot, now: int, id: int32)
    ensures LastSpot(Emitted(m, minDelta, s, now), id) ==
            if s.objectId == id && PositionDue(m, minDelta, s, now) then Some(SpotOf(s)) else None
  {
    var ch := ChangesIn(m, minDelta, s, now);
    PositionComesLast(ch, s);
    NoSpotButLast(ch, s, id);
    NoLastSpot(EventsButPosition(ch, s), id);
    LastSpotAppend(EventsButPosition(ch, s), EmitIf(ch.position, Here(s)), id);
  }

  // ---- the poller's log shows the last position it published ----

  lemma PositionsAreCurrent(ch: Changes, s: Snapshot)
    ensures forall e :: e in EventsFor(ch, s) && e.WPosition? ==> ch.position && e == Here(s)
    ensures forall e :: e in LaterEventsFor(ch, s) && e.WPosition? ==> ch.position && e == Here(s)
    ensures ch.position ==> Here(s) in EventsFor(ch, s) && Here(s) in LaterEventsFor(ch, s)
  {
    forall e
      ensures e in LaterEventsFor(ch, s) && e.WPosition? ==> ch.position && e == Here(s)
      ensures e in EventsFor(ch, s) && e.WPosition? ==> ch.position && e == Here(s)
    {
      EventIff(ch, s, e);
      LaterEventIff(ch, s, e);
      GroupEventIff(ch, s, e);
    }
    EventIff(ch, s, Here(s));
    LaterEventIff(ch, s, Here(s));
  }

  lemma NewcomerSpotShown(log: seq<Input>, ch: Changes, s: Snapshot)
    requires Usable(s) && ch.first && ch.clan && ch.position
    ensures SpotShown(log + Delivered(EventsFor(ch, s)), s.objectId, SpotOf(s))
  {
    var id, later, p := s.objectId, LaterEventsFor(ch, s), SpotOf(s);
    LaterEventsAreAboutSnapshot(ch, s);
    PositionsAreCurrent(ch, s);
    DeliveredClean(later, LogsOut(id));
    DeliveredSettles(later, Here(s), WritesSpot(id, p), SpoilsSpot(id, p));
    var known := Deliver(WClan(id, s.clanId, s.isClanLeader));
    MadeFirst(known, Delivered(later), Brings(id), LogsOut(id), WritesSpot(id, p), SpoilsSpot(id, p));
    MadeAppendMade(log + [Deliver(WLogin(id))], [known] + Delivered(later), Brings(id), LogsOut(id),
                   WritesSpot(id, p), SpoilsSpot(id, p));
    NewcomerLog(log, ch, s);
  }

  lemma MovedSpotShown(log: seq<Input>, ch: Changes, s: Snapshot, prior: Spot)
    requires Usable(s) && !ch.first && SpotShown(log, s.objectId, prior)
    ensures SpotShown(log + Delivered(EventsFor(ch, s)), s.objectId, if ch.position then SpotOf(s) else prior)
  {
    var id, events, p := s.objectId, EventsFor(ch, s), SpotOf(s);
    EventsAreAboutSnapshot(ch, s);
    PositionsAreCurrent(ch, s);
    DeliveredClean(events, LogsOut(id));
    if ch.position {
      MadeIsSettled(log, Brings(id), LogsOut(id), WritesSpot(id, prior), SpoilsSpot(id, prior));
      DeliveredSettles(events, Here(s), WritesSpot(id, p), SpoilsSpot(id, p));
      MadeAppendSettled(log, Delivered(events), Brings(id), LogsOut(id), WritesSpot(id, p), SpoilsSpot(id, p));
    } else {
      DeliveredClean(events, SpoilsSpot(id, prior));
      MadeAppendClean(log, Delivered(events), Brings(id), LogsOut(id), WritesSpot(id, prior), SpoilsSpot(id, prior));
    }
  }

  lemma SpotUntouched(log: seq<Input>, events: seq<WireEvent>, id: int32, p: Spot)
    requires SpotShown(log, id, p) && forall e :: e in events ==> e.player != id
    ensures SpotShown(log + Delivered(events), id, p)
  {
    DeliveredClean(events, LogsOut(id));
    DeliveredClean(events, SpoilsSpot(id, p));
    MadeAppendClean(log, Delivered(events), Brings(id), LogsOut(id), WritesSpot(id, p), SpoilsSpot(id, p));
  }

  lemma EventsNameOne(ch: Changes, s: Snapshot)
    ensures forall e :: e in EventsFor(ch, s) ==> e.player == s.objectId
  {
    EventsAreAboutSnapshot(ch, s);
  }

  // After any reading, the log shows the position of each player's last publication.
  lemma ReadingSpotShown(log: seq<Input>, m: Memory, minDelta: int, s: Snapshot, now: int, id: int32, prior: Spot)
    requires Usable(s) && (id in m.last ==> SpotShown(log, id, prior)) && (s.objectId == id || id in m.last)
    ensures SpotShown(log + Delivered(Emitted(m, minDelta, s, now)), id,
                      if s.objectId == id && PositionDue(m, minDelta, s, now) then SpotOf(s) else prior)
  {
    var ch := ChangesIn(m, minDelta, s, now);
    if s.objectId != id {
      EventsNameOne(ch, s);
      SpotUntouched(log, EventsFor(ch, s), id, prior);
    } else if ch.first {
      NewcomerSpotShown(log, ch, s);
    } else {
      MovedSpotShown(log, ch, s, prior);
    }
  }

  // ---- interleavings ----

  lemma SpotShuffledIn(m: seq<Input>, a: seq<Input>, clients: seq<Input>, id: int32, p: Spot)
    requires Shuffle(m, a, clients) && FromClients(clients) && SpotShown(a, id, p)
    ensures SpotShown(m, id, p)
  {
    ShuffleMadeClean(m, a, clients, Brings(id), LogsOut(id), WritesSpot(id, p), SpoilsSpot(id, p));
  }

  lemma SpotDeliveredTwice(w: World, events: seq<WireEvent>, inputs: seq<Input>, both: seq<Input>,
                           clients: seq<Input>, id: uint32, p: Spot, grow: Allocator)
    requires id < 0x8000_0000 && SpotShown(Delivered(events), id, p) && DeliveredTwice(inputs, events, both, clients)
    ensures StandsAt(RecordOf(Run(w, inputs, grow), id), p)
  {
    var log := Delivered(events);
    ShuffleMade(both, log, log, Brings(id), LogsOut(id), WritesSpot(id, p), SpoilsSpot(id, p));
    SpotShuffledIn(inputs, both, clients, id, p);
    RunActsOnRecord(w, inputs, id, grow);
    LogDecidesSpot(RecordOf(w, id), inputs, id, p);
  }

  lemma SpotDeliveredOnce(w: World, events: seq<WireEvent>, inputs: seq<Input>, clients: seq<Input>, id: uint32,
                          p: Spot, grow: Allocator)
    requires id < 0x8000_0000 && SpotShown(Delivered(events), id, p) && DeliveredOnce(inputs, events, clients)
    ensures StandsAt(RecordOf(Run(w, inputs, grow), id), p)
  {
    SpotShuffledIn(inputs, Delivered(events), clients, id, p);
    RunActsOnRecord(w, inputs, id, grow);
    LogDecidesSpot(RecordOf(w, id), inputs, id, p);
  }
}
