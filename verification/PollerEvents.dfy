/**
 * Which events a reading publishes, field by field, and what the last command-channel event
 * of each online player says.
 */
module PollerEvents {
  import opened Types
  import opened Bridge
  import opened Replication
  import Drift
  import opened Events

  // ---- one reading ----

  function Apart(a: int32, b: int32): nat {
    if a >= b then a - b else b - a
  }

  // Moved by at least the threshold, as far as 32-bit differences show it.
  ghost predicate AxisMoved(a: int32, b: int32, minDelta: int) {
    minDelta <= Apart(a, b) <= 0x1_0000_0000 - minDelta && Apart(a, b) != 0x8000_0000
  }

  lemma AxisMovedIff(a: int32, b: int32, minDelta: int)
    requires Drift.Threshold(minDelta)
    ensures AxisMoved(a, b, minDelta) <==> JavaDistance(a, b) >= minDelta
  {
    if Apart(a, b) >= minDelta {
      Drift.MoveMissedIff(a, b, minDelta);
    } else {
      Drift.JavaDistanceIsExactIff(a, b);
    }
  }

  // The same list but for order: both absent, or equally long and one within the other.
  ghost predicate SameList(a: Option<seq<int32>>, b: Option<seq<int32>>) {
    || (a == None && b == None)
    || (a.Some? && b.Some? && |a.value| == |b.value| && forall x :: x in a.value ==> x in b.value)
  }

  lemma SameListIff(a: Option<seq<int32>>, b: Option<seq<int32>>)
    ensures SameList(a, b) <==> SameIntSet(a, b)
  {
  }

  // What a reading publishes: everything of a newcomer, of others what differs from the
  // reading before, and the position when it moved or was last sent 3000 ms ago.
  ghost predicate Due(m: Memory, minDelta: int, s: Snapshot, now: int, e: WireEvent) {
    var id := s.objectId;
    match e
    case WLogin(player) => player == id && id !in m.last
    case WLogout(_) => false
    case WClan(player, clanId, isLeader) =>
      && player == id && clanId == s.clanId && isLeader == s.isClanLeader
      && (id in m.last ==> m.last[id].clanId != s.clanId || m.last[id].isClanLeader != s.isClanLeader)
    case WClanLeader(player, clanId) =>
      && player == id && clanId == s.clanId && clanId != 0 && s.isClanLeader
      && (id in m.last ==> !m.last[id].isClanLeader)
    case WAlly(player, allyId) => player == id && allyId == s.allyId && (id in m.last ==> m.last[id].allyId != allyId)
    case WParty(player, partyId) =>
      player == id && partyId == s.partyId && (id in m.last ==> m.last[id].partyId != partyId)
    case WInstance(player, instanceId) =>
      player == id && instanceId == s.instanceId && (id in m.last ==> m.last[id].instanceId != instanceId)
    case WCC(player, ccId, ccLeaderId, members) =>
      && player == id && ccId == s.ccId && ccLeaderId == s.ccLeaderId
      && members == (if s.ccMembers.Some? then s.ccMembers.value else [])
      && (id in m.last ==>
            || m.last[id].ccId != ccId || m.last[id].ccLeaderId != ccLeaderId
            || !SameList(m.last[id].ccMembers, s.ccMembers))
    case WPosition(player, x, y, z, instanceId) =>
      && player == id && x == s.x && y == s.y && z == s.z && instanceId == s.instanceId
      && (|| id !in m.last
          || id !in m.lastPosPublishMs || now - m.lastPosPublishMs[id] >= 3000
          || AxisMoved(m.last[id].x, x, minDelta) || AxisMoved(m.last[id].y, y, minDelta)
          || AxisMoved(m.last[id].z, z, minDelta))
  }

  lemma EmittedIff(m: Memory, minDelta: int, s: Snapshot, now: int, e: WireEvent)
    requires Drift.Threshold(minDelta)
    ensures e in Emitted(m, minDelta, s, now) <==> Due(m, minDelta, s, now, e)
  {
    var ch := ChangesIn(m, minDelta, s, now);
    EventIff(ch, s, e);
    LaterEventIff(ch, s, e);
    GroupEventIff(ch, s, e);
    if s.objectId in m.last {
      var prev := m.last[s.objectId];
      AxisMovedIff(prev.x, s.x, minDelta);
      AxisMovedIff(prev.y, s.y, minDelta);
      AxisMovedIff(prev.z, s.z, minDelta);
      SameListIff(prev.ccMembers, s.ccMembers);
    }
  }

  function Rank(e: WireEvent): nat {
    match e
    case WLogin(_) => 0
    case WClan(_, _, _) => 1
    case WClanLeader(_, _) => 2
    case WAlly(_, _) => 3
    case WParty(_, _) => 4
    case WInstance(_, _) => 5
    case WCC(_, _, _, _) => 6
    case WPosition(_, _, _, _, _) => 7
    case WLogout(_) => 8
  }

  ghost predicate Ranked(events: seq<WireEvent>, low: nat, high: nat) {
    && (forall i, j :: 0 <= i < j < |events| ==> Rank(events[i]) < Rank(events[j]))
    && forall i :: 0 <= i < |events| ==> low <= Rank(events[i]) <= high
  }

  lemma RankedJoin(a: seq<WireEvent>, b: seq<WireEvent>, low: nat, mid: nat, high: nat)
    requires Ranked(a, low, mid) && Ranked(b, mid + 1, high) && low <= mid < high
    ensures Ranked(a + b, low, high)
  {
  }

  lemma EmitIfRanked(condition: bool, e: WireEvent)
    ensures Ranked(EmitIf(condition, e), Rank(e), Rank(e))
  {
  }

  // At most one event of each kind, in a fixed order; with EmittedIff this is the whole sequence.
  lemma EmittedInOrder(m: Memory, minDelta: int, s: Snapshot, now: int)
    ensures Ranked(Emitted(m, minDelta, s, now), 0, 7)
  {
    EventsInOrder(ChangesIn(m, minDelta, s, now), s);
  }

  lemma EventsInOrder(ch: Changes, s: Snapshot)
    ensures Ranked(EventsFor(ch, s), 0, 7)
  {
    LaterEventsInOrder(ch, s);
    TwoBefore(ch.first, WLogin(s.objectId), ch.clan, WClan(s.objectId, s.clanId, s.isClanLeader),
              LaterEventsFor(ch, s));
  }

  lemma TwoBefore(first: bool, login: WireEvent, changed: bool, clan: WireEvent, later: seq<WireEvent>)
    requires Rank(login) == 0 && Rank(clan) == 1 && Ranked(later, 2, 7)
    ensures Ranked(EmitIf(first, login) + EmitIf(changed, clan) + later, 0, 7)
  {
    EmitIfRanked(first, login);
    EmitIfRanked(changed, clan);
    RankedJoin(EmitIf(first, login), EmitIf(changed, clan), 0, 0, 1);
    RankedJoin(EmitIf(first, login) + EmitIf(changed, clan), later, 0, 1, 7);
  }

  lemma LaterEventsInOrder(ch: Changes, s: Snapshot)
    ensures Ranked(LaterEventsFor(ch, s), 2, 7)
  {
    GroupEventsInOrder(ch, s);
    OneAfter(GroupEventsFor(ch, s), ch.position, WPosition(s.objectId, s.x, s.y, s.z, s.instanceId));
  }

  lemma OneAfter(group: seq<WireEvent>, due: bool, position: WireEvent)
    requires Ranked(group, 2, 6) && Rank(position) == 7
    ensures Ranked(group + EmitIf(due, position), 2, 7)
  {
    EmitIfRanked(due, position);
    RankedJoin(group, EmitIf(due, position), 2, 6, 7);
  }

  lemma GroupEventsInOrder(ch: Changes, s: Snapshot)
    ensures Ranked(GroupEventsFor(ch, s), 2, 6)
  {
    var id := s.objectId;
    EmitIfRanked(ch.leader, WClanLeader(id, s.clanId));
    EmitIfRanked(ch.ally, WAlly(id, s.allyId));
    EmitIfRanked(ch.party, WParty(id, s.partyId));
    EmitIfRanked(ch.instance, WInstance(id, s.instanceId));
    EmitIfRanked(ch.cc, WCC(id, s.ccId, s.ccLeaderId, ListOf(s.ccMembers)));
    FiveInOrder(EmitIf(ch.leader, WClanLeader(id, s.clanId)), EmitIf(ch.ally, WAlly(id, s.allyId)),
                EmitIf(ch.party, WParty(id, s.partyId)), EmitIf(ch.instance, WInstance(id, s.instanceId)),
                EmitIf(ch.cc, WCC(id, s.ccId, s.ccLeaderId, ListOf(s.ccMembers))));
  }

  lemma FiveInOrder(leader: seq<WireEvent>, ally: seq<WireEvent>, party: seq<WireEvent>, instance: seq<WireEvent>,
                    cc: seq<WireEvent>)
    requires Ranked(leader, 2, 2) && Ranked(ally, 3, 3) && Ranked(party, 4, 4) && Ranked(instance, 5, 5)
    requires Ranked(cc, 6, 6)
    ensures Ranked(leader + ally + party + instance + cc, 2, 6)
  {
    RankedJoin(leader, ally, 2, 2, 3);
    RankedJoin(leader + ally, party, 2, 3, 4);
    RankedJoin(leader + ally + party, instance, 2, 4, 5);
    RankedJoin(leader + ally + party + instance, cc, 2, 5, 6);
  }

  // ---- what is remembered ----

  // The snapshot, and the time when its position was sent.
  lemma RememberedAs(m: Memory, minDelta: int, s: Snapshot, now: int)
    requires Drift.Threshold(minDelta)
    ensures var v, own := Remember(m, minDelta, s, now), WPosition(s.objectId, s.x, s.y, s.z, s.instanceId);
            && v.last == m.last[s.objectId := s]
            && v.lastPosPublishMs == if Due(m, minDelta, s, now, own) then m.lastPosPublishMs[s.objectId := now]
                                     else m.lastPosPublishMs
  {
    var own := WPosition(s.objectId, s.x, s.y, s.z, s.instanceId);
    EmittedIff(m, minDelta, s, now, own);
    EventIff(ChangesIn(m, minDelta, s, now), s, own);
    LaterEventIff(ChangesIn(m, minDelta, s, now), s, own);
    GroupEventIff(ChangesIn(m, minDelta, s, now), s, own);
  }

  // After every run of polls, times of sending are remembered of exactly the players read in
  // the last one.
  lemma SentTimesOfOnline(minDelta: int, polls: seq<Poll>)
    requires PollerRun(NOTHING_SEEN, minDelta, polls)
    ensures MemoryAfter(NOTHING_SEEN, polls).lastPosPublishMs.Keys == Online(polls).Keys
  {
    SentTimesKept(NOTHING_SEEN, minDelta, polls);
    OnlineRemembered(minDelta, polls);
  }

  lemma {:induction false} SentTimesKept(m: Memory, minDelta: int, polls: seq<Poll>)
    requires m.lastPosPublishMs.Keys == m.last.Keys && PollerRun(m, minDelta, polls)
    ensures MemoryAfter(m, polls).lastPosPublishMs.Keys == MemoryAfter(m, polls).last.Keys
    decreases |polls|
  {
    if polls == [] {
    } else {
      SentTimesOfAll(m, minDelta, polls[0].readings);
      SentTimesKept(polls[0].after, minDelta, polls[1..]);
    }
  }

  lemma {:induction false} SentTimesOfAll(m: Memory, minDelta: int, readings: seq<Reading>)
    requires m.lastPosPublishMs.Keys == m.last.Keys
    ensures var v := RememberAll(m, minDelta, readings); v.lastPosPublishMs.Keys == v.last.Keys
    decreases |readings|
  {
    if readings == [] {
    } else {
      SentTimesOfAll(Remember(m, minDelta, readings[0].snapshot, readings[0].now), minDelta, readings[1..]);
    }
  }

  // ---- what the service makes of an event ----

  // Events with a negative identifier are not decoded; the others carry over field by field,
  // with the origin for a login and no leader flag for a party.
  lemma DecodedAs(e: WireEvent)
    ensures Decode(e) ==
            match e
            case WLogin(p) => if p < 0 then None else Some(Event.Position(p, 0.0, 0.0, 0.0, 0))
            case WLogout(p) => if p < 0 then None else Some(Event.Logout(p))
            case WPosition(p, x, y, z, i) =>
              if p < 0 || i < 0 then None else Some(Event.Position(p, x as real, y as real, z as real, i))
            case WInstance(p, i) => if p < 0 || i < 0 then None else Some(Event.InstanceChange(p, i))
            case WClan(p, c, leader) => if p < 0 || c < 0 then None else Some(Event.ClanChange(p, c, leader))
            case WClanLeader(p, c) => if p < 0 || c < 0 then None else Some(Event.ClanLeaderChange(p, c, p))
            case WAlly(p, a) => if p < 0 || a < 0 then None else Some(Event.AllyChange(p, a))
            case WParty(p, k) => if p < 0 || k < 0 then None else Some(Event.PartyChange(p, k, false))
            case WCC(p, c, l, members) =>
              if p < 0 || c < 0 || l < 0 || (exists i :: 0 <= i < |members| && members[i] < 0) then None
              else Some(Event.CCChange(p, c, l, AsIds(members)))
  {
  }

  // ---- the last command channel reported ----

  function LastChannel(events: seq<WireEvent>, id: int32): Option<WireEvent> {
    if events == [] then None
    else
      var e := events[|events| - 1];
      if e.WCC? && e.player == id then Some(e) else LastChannel(events[..|events| - 1], id)
  }

  lemma {:induction false} LastChannelAppend(a: seq<WireEvent>, b: seq<WireEvent>, id: int32)
    ensures LastChannel(a + b, id) == if LastChannel(b, id).Some? then LastChannel(b, id) else LastChannel(a, id)
  {
    if b == [] {
      assert a + b == a;
    } else {
      assert (a + b)[..|a + b| - 1] == a + b[..|b| - 1];
      LastChannelAppend(a, b[..|b| - 1], id);
    }
  }

  lemma {:induction false} LastChannelListed(events: seq<WireEvent>, id: int32)
    ensures LastChannel(events, id).Some? ==>
              LastChannel(events, id).value in events && LastChannel(events, id).value.WCC? &&
              LastChannel(events, id).value.player == id
    ensures LastChannel(events, id).None? ==> forall e :: e in events && e.WCC? ==> e.player != id
  {
    if events == [] {
    } else {
      var front := events[..|events| - 1];
      LastChannelListed(front, id);
      assert events == front + [events[|events| - 1]];
    }
  }

  // A channel event that says what the snapshot says, up to the order of the members.
  ghost predicate Reports(e: Option<WireEvent>, s: Snapshot) {
    && e.Some? && e.value.WCC? && e.value.player == s.objectId
    && e.value.ccId == s.ccId && e.value.ccLeaderId == s.ccLeaderId
    && var members := if s.ccMembers.Some? then s.ccMembers.value else [];
       |e.value.members| == |members| && forall x :: x in e.value.members ==> x in members
  }

  ghost predicate AllReported(events: seq<WireEvent>, m: Memory) {
    forall id :: id in m.last ==> m.last[id].objectId == id && Reports(LastChannel(events, id), m.last[id])
  }

  lemma ReadingReported(events: seq<WireEvent>, m: Memory, minDelta: int, r: Reading)
    requires AllReported(events, m)
    ensures AllReported(events + Emitted(m, minDelta, r.snapshot, r.now), Remember(m, minDelta, r.snapshot, r.now))
  {
    var s, xs := r.snapshot, Emitted(m, minDelta, r.snapshot, r.now);
    forall id | id in m.last || id == s.objectId
      ensures Reports(LastChannel(events + xs, id), if id == s.objectId then s else m.last[id])
    {
      LastChannelAppend(events, xs, id);
      LastChannelListed(xs, id);
      ChannelEmittedIff(m, minDelta, s, r.now, id);
    }
  }

  lemma ChannelEmittedIff(m: Memory, minDelta: int, s: Snapshot, now: int, id: int32)
    ensures (exists e :: e in Emitted(m, minDelta, s, now) && e.WCC? && e.player == id) <==>
            && id == s.objectId
            && (id in m.last ==>
                  || m.last[id].ccId != s.ccId || m.last[id].ccLeaderId != s.ccLeaderId
                  || !SameList(m.last[id].ccMembers, s.ccMembers))
    ensures forall e :: e in Emitted(m, minDelta, s, now) && e.WCC? ==> Reports(Some(e), s)
  {
    var ch, own := ChangesIn(m, minDelta, s, now), WCC(s.objectId, s.ccId, s.ccLeaderId, ListOf(s.ccMembers));
    forall e: WireEvent | e.WCC?
      ensures e in Emitted(m, minDelta, s, now) <==> ch.cc && e == own
    {
      EventIff(ch, s, e);
      LaterEventIff(ch, s, e);
      GroupEventIff(ch, s, e);
    }
    if s.objectId in m.last {
      SameListIff(m.last[s.objectId].ccMembers, s.ccMembers);
    }
    assert ch.cc ==> own in Emitted(m, minDelta, s, now);
  }

  lemma {:induction false} ReadingsReported(events: seq<WireEvent>, m: Memory, minDelta: int, readings: seq<Reading>)
    requires AllReported(events, m)
    ensures AllReported(events + EmittedByAll(m, minDelta, readings), RememberAll(m, minDelta, readings))
    decreases |readings|
  {
    if readings == [] {
      assert events + [] == events;
    } else {
      var r := readings[0];
      var xs, next := Emitted(m, minDelta, r.snapshot, r.now), Remember(m, minDelta, r.snapshot, r.now);
      ReadingReported(events, m, minDelta, r);
      ReadingsReported(events + xs, next, minDelta, readings[1..]);
      Regroup(events, xs, EmittedByAll(next, minDelta, readings[1..]));
    }
  }

  lemma LogoutsReported(events: seq<WireEvent>, m: Memory, gone: set<int32>, logouts: seq<WireEvent>)
    requires AllReported(events, m) && LogoutsOf(gone, logouts)
    ensures AllReported(events + logouts, Forget(m, gone))
  {
    forall id | id in m.last
      ensures LastChannel(events + logouts, id) == LastChannel(events, id)
    {
      LastChannelAppend(events, logouts, id);
      LastChannelListed(logouts, id);
    }
  }

  lemma PollReported(events: seq<WireEvent>, m: Memory, minDelta: int, p: Poll)
    requires AllReported(events, m) && Tick(m, minDelta, p.readings, p.events, p.after)
    ensures AllReported(events + p.events, p.after)
  {
    var gone, observed := GoneAfter(m, minDelta, p.readings), EmittedByAll(m, minDelta, p.readings);
    var logouts :| LogoutsOf(gone, logouts) && p.events == observed + logouts &&
                   p.after == Forget(RememberAll(m, minDelta, p.readings), gone);
    ReadingsReported(events, m, minDelta, p.readings);
    LogoutsReported(events + observed, RememberAll(m, minDelta, p.readings), gone, logouts);
    Regroup(events, observed, logouts);
  }

  lemma {:induction false} PollsReported(events: seq<WireEvent>, m: Memory, minDelta: int, polls: seq<Poll>)
    requires AllReported(events, m) && PollerRun(m, minDelta, polls)
    ensures AllReported(events + EventsOf(polls), MemoryAfter(m, polls))
    decreases |polls|
  {
    if polls == [] {
      assert events + [] == events;
    } else {
      PollReported(events, m, minDelta, polls[0]);
      PollsReported(events + polls[0].events, polls[0].after, minDelta, polls[1..]);
      Regroup(events, polls[0].events, EventsOf(polls[1..]));
    }
  }

  // Over every run of polls, the last command-channel event of each player read in the last
  // poll names the channel and leader it was last read with, and as many members, each of
  // which was read.
  lemma ChannelsReported(minDelta: int, polls: seq<Poll>, id: int32)
    requires PollerRun(NOTHING_SEEN, minDelta, polls) && id in Online(polls)
    ensures Online(polls)[id].objectId == id && Reports(LastChannel(EventsOf(polls), id), Online(polls)[id])
  {
    PollsReported([], NOTHING_SEEN, minDelta, polls);
    OnlineRemembered(minDelta, polls);
    assert [] + EventsOf(polls) == EventsOf(polls);
  }
}
