/**
 * The game-server side: the poller that turns periodic snapshots of the online players
 * into events, and the decoding of those events by the service.
 *
 * Snapshot fields are Java ints; the service decodes identifiers into unsigned integers
 * and ignores an event with a negative one.
 */
module Bridge {
  import opened Types
  import opened Events

  const HEARTBEAT_MS := 3000

  datatype Snapshot = Snapshot(
    objectId: int32,
    x: int32, y: int32, z: int32,
    instanceId: int32,
    clanId: int32,
    allyId: int32,
    partyId: int32,
    isClanLeader: bool,
    ccId: int32,
    ccLeaderId: int32,
    ccMembers: Option<seq<int32>>)

  datatype WireEvent =
    | WLogin(player: int32)
    | WLogout(player: int32)
    | WPosition(player: int32, x: int32, y: int32, z: int32, instanceId: int32)
    | WInstance(player: int32, instanceId: int32)
    | WClan(player: int32, clanId: int32, isLeader: bool)
    | WClanLeader(player: int32, clanId: int32)
    | WAlly(player: int32, allyId: int32)
    | WParty(player: int32, partyId: int32)
    | WCC(player: int32, ccId: int32, ccLeaderId: int32, members: seq<int32>)

  predicate Unsigned(x: int32) {
    0 <= x
  }

  // What the service makes of an event: login carries no position fields, so they read as
  // zero; the party event carries no leader flag, so it reads as false.
  function Decode(e: WireEvent): Option<Event> {
    if !Unsigned(e.player) then None
    else
      match e
      case WLogin(player) => Some(Position(player, 0.0, 0.0, 0.0, 0))
      case WLogout(player) => Some(Logout(player))
      case WPosition(player, x, y, z, instanceId) =>
        if Unsigned(instanceId) then Some(Position(player, x as real, y as real, z as real, instanceId)) else None
      case WInstance(player, instanceId) =>
        if Unsigned(instanceId) then Some(InstanceChange(player, instanceId)) else None
      case WClan(player, clanId, isLeader) =>
        if Unsigned(clanId) then Some(ClanChange(player, clanId, isLeader)) else None
      case WClanLeader(player, clanId) =>
        if Unsigned(clanId) then Some(ClanLeaderChange(player, clanId, player)) else None
      case WAlly(player, allyId) =>
        if Unsigned(allyId) then Some(AllyChange(player, allyId)) else None
      case WParty(player, partyId) =>
        if Unsigned(partyId) then Some(PartyChange(player, partyId, false)) else None
      case WCC(player, ccId, ccLeaderId, members) =>
        if Unsigned(ccId) && Unsigned(ccLeaderId) && forall i :: 0 <= i < |members| ==> Unsigned(members[i]) then
          Some(CCChange(player, ccId, ccLeaderId, AsIds(members)))
        else None
  }

  function AsIds(members: seq<int32>): (ids: seq<uint32>)
    requires forall i :: 0 <= i < |members| ==> Unsigned(members[i])
    ensures ids == members
  {
    if members == [] then []
    else
      assert Unsigned(members[0]);
      var id: uint32 := members[0];
      [id] + AsIds(members[1..])
  }

  // What the poller remembers: each player's last snapshot, and when its position was last sent.
  datatype Memory = Memory(last: map<int32, Snapshot>, lastPosPublishMs: map<int32, int>)

  const NOTHING_SEEN := Memory(map[], map[])

  // None stands for the null array of a player outside any command channel.
  predicate SameIntSet(a: Option<seq<int32>>, b: Option<seq<int32>>) {
    match (a, b)
    case (None, None) => true
    case (Some(xs), Some(ys)) => |xs| == |ys| && forall i :: 0 <= i < |xs| ==> xs[i] in ys
    case _ => false
  }

  function ListOf(members: Option<seq<int32>>): seq<int32> {
    match members
    case None => []
    case Some(ids) => ids
  }

  // The difference of two Java ints wraps around, and so does the absolute value of the
  // smallest one.
  function JavaDistance(a: int32, b: int32): int32 {
    var d: int32 := (a - b + 0x8000_0000) % 0x1_0000_0000 - 0x8000_0000;
    if 0 <= d || d == -0x8000_0000 then d else -d
  }

  predicate PositionDue(m: Memory, minDelta: int, s: Snapshot, now: int) {
    || s.objectId !in m.lastPosPublishMs
    || now - m.lastPosPublishMs[s.objectId] >= HEARTBEAT_MS
    || s.objectId !in m.last
    || JavaDistance(m.last[s.objectId].x, s.x) >= minDelta
    || JavaDistance(m.last[s.objectId].y, s.y) >= minDelta
    || JavaDistance(m.last[s.objectId].z, s.z) >= minDelta
  }

  function EmitIf(condition: bool, e: WireEvent): seq<WireEvent> {
    if condition then [e] else []
  }

  // What differs between a player's snapshot and what is remembered of it; everything does
  // when the player is new.
  datatype Changes = Changes(first: bool, clan: bool, leader: bool, ally: bool, party: bool, instance: bool,
                             cc: bool, position: bool)

  function ChangesIn(m: Memory, minDelta: int, s: Snapshot, now: int): Changes {
    var id := s.objectId;
    var position := PositionDue(m, minDelta, s, now);
    if id !in m.last then Changes(true, true, s.isClanLeader && s.clanId != 0, true, true, true, true, position)
    else
      var prev := m.last[id];
      var clan := prev.clanId != s.clanId || prev.isClanLeader != s.isClanLeader;
      Changes(false, clan, clan && s.isClanLeader && s.clanId != 0 && !prev.isClanLeader, prev.allyId != s.allyId,
              prev.partyId != s.partyId, prev.instanceId != s.instanceId,
              prev.ccId != s.ccId || prev.ccLeaderId != s.ccLeaderId || !SameIntSet(prev.ccMembers, s.ccMembers),
              position)
  }

  function EventsFor(ch: Changes, s: Snapshot): seq<WireEvent> {
    EmitIf(ch.first, WLogin(s.objectId)) +
    EmitIf(ch.clan, WClan(s.objectId, s.clanId, s.isClanLeader)) +
    LaterEventsFor(ch, s)
  }

  function LaterEventsFor(ch: Changes, s: Snapshot): seq<WireEvent> {
    GroupEventsFor(ch, s) + EmitIf(ch.position, WPosition(s.objectId, s.x, s.y, s.z, s.instanceId))
  }

  function GroupEventsFor(ch: Changes, s: Snapshot): seq<WireEvent> {
    EmitIf(ch.leader, WClanLeader(s.objectId, s.clanId)) +
    EmitIf(ch.ally, WAlly(s.objectId, s.allyId)) +
    EmitIf(ch.party, WParty(s.objectId, s.partyId)) +
    EmitIf(ch.instance, WInstance(s.objectId, s.instanceId)) +
    EmitIf(ch.cc, WCC(s.objectId, s.ccId, s.ccLeaderId, ListOf(s.ccMembers)))
  }

  // Which event is among them, and when.
  lemma EventIff(ch: Changes, s: Snapshot, e: WireEvent)
    ensures e in EventsFor(ch, s) <==>
            || (ch.first && e == WLogin(s.objectId))
            || (ch.clan && e == WClan(s.objectId, s.clanId, s.isClanLeader))
            || e in LaterEventsFor(ch, s)
  {
  }

  lemma LaterEventIff(ch: Changes, s: Snapshot, e: WireEvent)
    ensures e in LaterEventsFor(ch, s) <==>
            || e in GroupEventsFor(ch, s)
            || (ch.position && e == WPosition(s.objectId, s.x, s.y, s.z, s.instanceId))
  {
  }

  lemma GroupEventIff(ch: Changes, s: Snapshot, e: WireEvent)
    ensures e in GroupEventsFor(ch, s) <==>
            || (ch.leader && e == WClanLeader(s.objectId, s.clanId))
            || (ch.ally && e == WAlly(s.objectId, s.allyId))
            || (ch.party && e == WParty(s.objectId, s.partyId))
            || (ch.instance && e == WInstance(s.objectId, s.instanceId))
            || (ch.cc && e == WCC(s.objectId, s.ccId, s.ccLeaderId, ListOf(s.ccMembers)))
  {
    var leader := EmitIf(ch.leader, WClanLeader(s.objectId, s.clanId));
    var ally := EmitIf(ch.ally, WAlly(s.objectId, s.allyId));
    assert e in leader + ally <==> e in leader || e in ally;
  }

  // The events one player's snapshot gives rise to, in the order they are published.
  function Emitted(m: Memory, minDelta: int, s: Snapshot, now: int): seq<WireEvent> {
    EventsFor(ChangesIn(m, minDelta, s, now), s)
  }

  function Remember(m: Memory, minDelta: int, s: Snapshot, now: int): Memory {
    Memory(m.last[s.objectId := s],
           if PositionDue(m, minDelta, s, now) then m.lastPosPublishMs[s.objectId := now] else m.lastPosPublishMs)
  }

  // A tick's snapshots, each with the clock reading its handling makes.
  datatype Reading = Reading(snapshot: Snapshot, now: int)

  function EmittedByAll(m: Memory, minDelta: int, readings: seq<Reading>): seq<WireEvent>
    decreases |readings|
  {
    if readings == [] then []
    else
      var r := readings[0];
      Emitted(m, minDelta, r.snapshot, r.now) +
      EmittedByAll(Remember(m, minDelta, r.snapshot, r.now), minDelta, readings[1..])
  }

  function RememberAll(m: Memory, minDelta: int, readings: seq<Reading>): Memory
    decreases |readings|
  {
    if readings == [] then m
    else RememberAll(Remember(m, minDelta, readings[0].snapshot, readings[0].now), minDelta, readings[1..])
  }

  function IdsOf(readings: seq<Reading>): set<int32> {
    set i | 0 <= i < |readings| :: readings[i].snapshot.objectId
  }

  // The players remembered from before that the tick did not see.
  function GoneAfter(m: Memory, minDelta: int, readings: seq<Reading>): set<int32> {
    RememberAll(m, minDelta, readings).last.Keys - IdsOf(readings)
  }

  // One logout for each id, in whatever order the map iterates.
  ghost predicate LogoutsOf(gone: set<int32>, events: seq<WireEvent>) {
    && (forall i :: 0 <= i < |events| ==> events[i].WLogout? && events[i].player in gone)
    && (forall id :: id in gone ==> WLogout(id) in events)
  }

  function Forget(m: Memory, gone: set<int32>): Memory {
    Memory(m.last - gone, m.lastPosPublishMs - gone)
  }

  /** One poll of the game world, from the memory before it to the memory after it. */
  ghost predicate Tick(before: Memory, minDelta: int, readings: seq<Reading>, events: seq<WireEvent>, after: Memory) {
    exists logouts ::
      && LogoutsOf(GoneAfter(before, minDelta, readings), logouts)
      && events == EmittedByAll(before, minDelta, readings) + logouts
      && after == Forget(RememberAll(before, minDelta, readings), GoneAfter(before, minDelta, readings))
  }

  lemma Regroup(a: seq<WireEvent>, b: seq<WireEvent>, c: seq<WireEvent>)
    ensures (a + b) + c == a + (b + c)
  {
  }

  lemma SnocIds(readings: seq<Reading>, i: nat)
    requires i < |readings|
    ensures IdsOf(readings[..i + 1]) == IdsOf(readings[..i]) + {readings[i].snapshot.objectId}
  {
  }

  class PositionPoller {
    const minDelta: int
    var last: map<int32, Snapshot>
    var lastPosPublishMs: map<int32, int>
    // Everything handed to the publisher so far.
    var published: seq<WireEvent>

    ghost function View(): Memory
      reads this
    {
      Memory(last, lastPosPublishMs)
    }

    constructor (minDelta: int)
      ensures View() == NOTHING_SEEN && published == []
      ensures this.minDelta == if minDelta < 1 then 1 else minDelta
    {
      this.minDelta := if minDelta < 1 then 1 else minDelta;
      last, lastPosPublishMs, published := map[], map[], [];
    }

    method PublishIf(condition: bool, e: WireEvent, ghost start: seq<WireEvent>, ghost sent: seq<WireEvent>)
      returns (ghost nowSent: seq<WireEvent>)
      requires published == start + sent
      modifies this`published
      ensures nowSent == sent + EmitIf(condition, e)
      ensures published == start + nowSent
    {
      nowSent := sent + EmitIf(condition, e);
      if condition {
        published := published + [e];
      }
    }

    static method SameMembers(a: Option<seq<int32>>, b: Option<seq<int32>>) returns (same: bool)
      ensures same == SameIntSet(a, b)
    {
      if a.None? || b.None? {
        return a.None? && b.None?;
      }
      var xs, ys := a.value, b.value;
      if |xs| != |ys| {
        return false;
      }
      for i := 0 to |xs|
        invariant forall k :: 0 <= k < i ==> xs[k] in ys
      {
        var found := false;
        for j := 0 to |ys|
          invariant !found && xs[i] !in ys[..j]
        {
          assert ys[..j + 1] == ys[..j] + [ys[j]];
          if xs[i] == ys[j] {
            found := true;
            break;
          }
        }
        assert ys[..|ys|] == ys;
        if !found {
          return false;
        }
      }
      return true;
    }

    method CheckPosition(s: Snapshot, now: int) returns (due: bool)
      ensures due == PositionDue(View(), minDelta, s, now)
    {
      var heartbeatDue := s.objectId !in lastPosPublishMs || now - lastPosPublishMs[s.objectId] >= HEARTBEAT_MS;
      var movedEnough := true;
      if s.objectId in last {
        var prev := last[s.objectId];
        movedEnough :=
          || JavaDistance(prev.x, s.x) >= minDelta
          || JavaDistance(prev.y, s.y) >= minDelta
          || JavaDistance(prev.z, s.z) >= minDelta;
      }
      due := heartbeatDue || movedEnough;
    }

    method Detect(s: Snapshot, now: int) returns (ch: Changes)
      ensures ch == ChangesIn(View(), minDelta, s, now)
    {
      var position := CheckPosition(s, now);
      if s.objectId !in last {
        return Changes(true, true, s.isClanLeader && s.clanId != 0, true, true, true, true, position);
      }
      var prev := last[s.objectId];
      var clan := prev.clanId != s.clanId || prev.isClanLeader != s.isClanLeader;
      var leader := clan && s.isClanLeader && s.clanId != 0 && !prev.isClanLeader;
      var sameMembers := SameMembers(prev.ccMembers, s.ccMembers);
      var cc := prev.ccId != s.ccId || prev.ccLeaderId != s.ccLeaderId || !sameMembers;
      ch := Changes(false, clan, leader, prev.allyId != s.allyId, prev.partyId != s.partyId,
                    prev.instanceId != s.instanceId, cc, position);
    }

    method PublishChanges(ch: Changes, s: Snapshot)
      modifies this`published
      ensures published == old(published) + EventsFor(ch, s)
    {
      ghost var start, sent := published, [];
      sent := PublishIf(ch.first, WLogin(s.objectId), start, sent);
      sent := PublishIf(ch.clan, WClan(s.objectId, s.clanId, s.isClanLeader), start, sent);
      Regroup(start, sent, LaterEventsFor(ch, s));
      assert [] + EmitIf(ch.first, WLogin(s.objectId)) == EmitIf(ch.first, WLogin(s.objectId));
      PublishLaterChanges(ch, s);
    }

    method PublishLaterChanges(ch: Changes, s: Snapshot)
      modifies this`published
      ensures published == old(published) + LaterEventsFor(ch, s)
    {
      ghost var start, sent := published, [];
      var id := s.objectId;
      sent := PublishIf(ch.leader, WClanLeader(id, s.clanId), start, sent);
      sent := PublishIf(ch.ally, WAlly(id, s.allyId), start, sent);
      sent := PublishIf(ch.party, WParty(id, s.partyId), start, sent);
      sent := PublishIf(ch.instance, WInstance(id, s.instanceId), start, sent);
      sent := PublishIf(ch.cc, WCC(id, s.ccId, s.ccLeaderId, ListOf(s.ccMembers)), start, sent);
      sent := PublishIf(ch.position, WPosition(id, s.x, s.y, s.z, s.instanceId), start, sent);
      assert [] + EmitIf(ch.leader, WClanLeader(id, s.clanId)) == EmitIf(ch.leader, WClanLeader(id, s.clanId));
    }

    method TickPlayer(s: Snapshot, now: int)
      modifies this
      ensures View() == Remember(old(View()), minDelta, s, now)
      ensures published == old(published) + Emitted(old(View()), minDelta, s, now)
    {
      var ch := Detect(s, now);
      PublishChanges(ch, s);
      if ch.position {
        lastPosPublishMs := lastPosPublishMs[s.objectId := now];
      }
      last := last[s.objectId := s];
    }

    method TickAll(readings: seq<Reading>) returns (currentTick: set<int32>)
      modifies this
      ensures currentTick == IdsOf(readings)
      ensures View() == RememberAll(old(View()), minDelta, readings)
      ensures published == old(published) + EmittedByAll(old(View()), minDelta, readings)
    {
      ghost var before, start, emitted := View(), published, [];
      currentTick := {};
      for i := 0 to |readings|
        invariant currentTick == IdsOf(readings[..i])
        invariant RememberAll(View(), minDelta, readings[i..]) == RememberAll(before, minDelta, readings)
        invariant published == start + emitted
        invariant emitted + EmittedByAll(View(), minDelta, readings[i..]) == EmittedByAll(before, minDelta, readings)
      {
        var r := readings[i];
        ghost var m, rest := View(), readings[i + 1..];
        assert readings[i..][1..] == rest && readings[i..][0] == r;
        SnocIds(readings, i);
        currentTick := currentTick + {r.snapshot.objectId};
        TickPlayer(r.snapshot, r.now);
        ghost var es := Emitted(m, minDelta, r.snapshot, r.now);
        assert EmittedByAll(m, minDelta, readings[i..]) == es + EmittedByAll(View(), minDelta, rest);
        Regroup(start, emitted, es);
        Regroup(emitted, es, EmittedByAll(View(), minDelta, rest));
        emitted := emitted + es;
      }
      assert readings[..|readings|] == readings;
    }

    method LogOut(gone: set<int32>)
      modifies this
      ensures View() == Forget(old(View()), gone)
      ensures exists logouts :: LogoutsOf(gone, logouts) && published == old(published) + logouts
    {
      ghost var before, start, logouts := View(), published, [];
      var todo := gone;
      while todo != {}
        invariant todo <= gone
        invariant published == start + logouts
        invariant LogoutsOf(gone - todo, logouts)
        invariant View() == Forget(before, gone - todo)
      {
        var id :| id in todo;
        published := published + [WLogout(id)];
        logouts := logouts + [WLogout(id)];
        last := last - {id};
        lastPosPublishMs := lastPosPublishMs - {id};
        assert gone - (todo - {id}) == (gone - todo) + {id};
        todo := todo - {id};
      }
      assert gone - {} == gone;
    }

    method Poll(readings: seq<Reading>)
      modifies this
      ensures exists events ::
                published == old(published) + events && Tick(old(View()), minDelta, readings, events, View())
    {
      ghost var before, start := View(), published;
      var currentTick := TickAll(readings);
      ghost var polled := published;
      LogOut(last.Keys - currentTick);
      ghost var logouts :| LogoutsOf(GoneAfter(before, minDelta, readings), logouts) && published == polled + logouts;
      ghost var events := EmittedByAll(before, minDelta, readings) + logouts;
      Regroup(start, EmittedByAll(before, minDelta, readings), logouts);
      assert Tick(before, minDelta, readings, events, View());
    }
  }
}
