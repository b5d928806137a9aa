/**
 * How far a replicated position can be from the player: each online player stands, in the
 * service, where its last published position put it, and has moved less than the threshold
 * per reading since.
 */
module Drift {
  import opened Types
  import opened Worlds
  import opened Bridge
  import opened Replication
  import opened Positions

  // ---- the distance the poller computes ----

  // Differences of Java ints are right exactly while they fit 32 bits.
  lemma JavaDistanceIsExactIff(a: int32, b: int32)
    ensures JavaDistance(a, b) == (if a >= b then a - b else b - a) <==> -0x8000_0000 < a - b < 0x8000_0000
  {
  }

  // Whether the wrapped difference of two coordinates is less than the threshold although
  // the real one is not.
  predicate MoveMissed(a: int32, b: int32, minDelta: int) {
    var moved := if a >= b then a - b else b - a;
    moved == 0x8000_0000 || moved > 0x1_0000_0000 - minDelta
  }

  predicate MoveSeen(s: Snapshot, t: Snapshot, minDelta: int) {
    !MoveMissed(s.x, t.x, minDelta) && !MoveMissed(s.y, t.y, minDelta) && !MoveMissed(s.z, t.z, minDelta)
  }

  // A threshold the poller can be constructed with.
  predicate Threshold(minDelta: int) {
    1 <= minDelta < 0x8000_0000
  }

  // A move of at least the threshold is missed exactly when it is half the range of a Java
  // int, or so near its whole range that it wraps to less than the threshold.
  lemma MoveMissedIff(a: int32, b: int32, minDelta: int)
    requires Threshold(minDelta) && (a - b >= minDelta || b - a >= minDelta)
    ensures JavaDistance(a, b) < minDelta <==> MoveMissed(a, b, minDelta)
  {
    var d := a - b;
    if d >= 0x8000_0000 {
      assert (d + 0x8000_0000) % 0x1_0000_0000 == d - 0x8000_0000;
    } else if d < -0x8000_0000 {
      assert (d + 0x8000_0000) % 0x1_0000_0000 == d + 0x1_8000_0000;
    } else {
      assert (d + 0x8000_0000) % 0x1_0000_0000 == d + 0x8000_0000;
    }
  }

  // A jump by half the range is taken for no movement at all.
  lemma JumpGoesUnnoticed(m: Memory, s: Snapshot, t: Snapshot, now: int)
    requires s.objectId == t.objectId && s.x == -0x4000_0000 && t == s.(x := 0x4000_0000)
    requires m == Memory(map[s.objectId := s], map[s.objectId := now])
    ensures !PositionDue(m, 1, t, now + 1)
  {
  }

  ghost predicate Within(s: Snapshot, t: Snapshot, distance: int) {
    -distance <= s.x - t.x <= distance && -distance <= s.y - t.y <= distance && -distance <= s.z - t.z <= distance
  }

  lemma AxisMovedLittle(a: int32, b: int32, minDelta: int)
    requires Threshold(minDelta) && JavaDistance(a, b) < minDelta && !MoveMissed(a, b, minDelta)
    ensures -minDelta < a - b < minDelta
  {
    if a - b >= minDelta || b - a >= minDelta {
      MoveMissedIff(a, b, minDelta);
    }
  }

  lemma NotDueMovedLittle(m: Memory, minDelta: int, s: Snapshot, now: int)
    requires Threshold(minDelta) && s.objectId in m.last && !PositionDue(m, minDelta, s, now)
    requires MoveSeen(m.last[s.objectId], s, minDelta)
    ensures Within(s, m.last[s.objectId], minDelta - 1)
  {
    var prev := m.last[s.objectId];
    AxisMovedLittle(prev.x, s.x, minDelta);
    AxisMovedLittle(prev.y, s.y, minDelta);
    AxisMovedLittle(prev.z, s.z, minDelta);
  }

  // ---- the account of one player's publications ----

  // The snapshot whose position was published last, when that was, and the player's
  // readings since, all held back.
  datatype Account = Account(sent: Snapshot, at: int, held: seq<Reading>)

  function NoteReading(a: Option<Account>, m: Memory, minDelta: int, r: Reading, id: int32): Option<Account> {
    if r.snapshot.objectId != id then a
    else if a.None? || PositionDue(m, minDelta, r.snapshot, r.now) then Some(Account(r.snapshot, r.now, []))
    else Some(a.value.(held := a.value.held + [r]))
  }

  function NoteReadings(a: Option<Account>, m: Memory, minDelta: int, readings: seq<Reading>, id: int32)
    : Option<Account>
    decreases |readings|
  {
    if readings == [] then a
    else
      NoteReadings(NoteReading(a, m, minDelta, readings[0], id),
                   Remember(m, minDelta, readings[0].snapshot, readings[0].now), minDelta, readings[1..], id)
  }

  // A logout closes the account.
  function AccountAfter(a: Option<Account>, m: Memory, minDelta: int, readings: seq<Reading>, id: int32)
    : Option<Account>
  {
    if id in GoneAfter(m, minDelta, readings) then None else NoteReadings(a, m, minDelta, readings, id)
  }

  function NotePolls(a: Option<Account>, m: Memory, minDelta: int, polls: seq<Poll>, id: int32): Option<Account>
    decreases |polls|
  {
    if polls == [] then a
    else
      NotePolls(AccountAfter(a, m, minDelta, polls[0].readings, id), polls[0].after, minDelta, polls[1..], id)
  }

  // ---- the events agree with the account ----

  ghost predicate Booked(events: seq<WireEvent>, m: Memory, a: Option<Account>, id: int32) {
    id in m.last ==>
      && a.Some? && SpotShown(Delivered(events), id, SpotOf(a.value.sent))
      && LastSpot(events, id) == Some(SpotOf(a.value.sent))
  }

  lemma DeliveredBoth(a: seq<WireEvent>, b: seq<WireEvent>)
    ensures Delivered(a + b) == Delivered(a) + Delivered(b)
  {
  }

  lemma ReadingBooked(events: seq<WireEvent>, m: Memory, a: Option<Account>, minDelta: int, r: Reading, id: int32)
    requires Booked(events, m, a, id) && Usable(r.snapshot)
    ensures Booked(events + Emitted(m, minDelta, r.snapshot, r.now), Remember(m, minDelta, r.snapshot, r.now),
                   NoteReading(a, m, minDelta, r, id), id)
  {
    var xs := Emitted(m, minDelta, r.snapshot, r.now);
    if r.snapshot.objectId == id || id in m.last {
      DeliveredBoth(events, xs);
      LastSpotAppend(events, xs, id);
      SpotEmittedIff(m, minDelta, r.snapshot, r.now, id);
      ReadingSpotShown(Delivered(events), m, minDelta, r.snapshot, r.now, id,
                       if id in m.last then SpotOf(a.value.sent) else SpotOf(r.snapshot));
    }
  }

  lemma {:induction false} ReadingsBooked(events: seq<WireEvent>, m: Memory, a: Option<Account>, minDelta: int,
                                          readings: seq<Reading>, id: int32)
    requires Booked(events, m, a, id) && AllUsable(readings)
    ensures Booked(events + EmittedByAll(m, minDelta, readings), RememberAll(m, minDelta, readings),
                   NoteReadings(a, m, minDelta, readings, id), id)
    decreases |readings|
  {
    if readings == [] {
      assert events + [] == events;
    } else {
      var r := readings[0];
      var xs, next := Emitted(m, minDelta, r.snapshot, r.now), Remember(m, minDelta, r.snapshot, r.now);
      ReadingBooked(events, m, a, minDelta, r, id);
      ReadingsBooked(events + xs, next, NoteReading(a, m, minDelta, r, id), minDelta, readings[1..], id);
      Regroup(events, xs, EmittedByAll(next, minDelta, readings[1..]));
    }
  }

  lemma LogoutsBooked(events: seq<WireEvent>, m: Memory, a: Option<Account>, gone: set<int32>,
                      logouts: seq<WireEvent>, id: int32)
    requires Booked(events, m, a, id) && LogoutsOf(gone, logouts)
    ensures Booked(events + logouts, Forget(m, gone), if id in gone then None else a, id)
  {
    if id in m.last && id !in gone {
      DeliveredBoth(events, logouts);
      LastSpotAppend(events, logouts, id);
      NoLastSpot(logouts, id);
      SpotUntouched(Delivered(events), logouts, id, SpotOf(a.value.sent));
    }
  }

  lemma PollBooked(events: seq<WireEvent>, m: Memory, a: Option<Account>, minDelta: int, p: Poll, id: int32)
    requires Booked(events, m, a, id) && AllUsable(p.readings) && Tick(m, minDelta, p.readings, p.events, p.after)
    ensures Booked(events + p.events, p.after, AccountAfter(a, m, minDelta, p.readings, id), id)
  {
    var gone, observed := GoneAfter(m, minDelta, p.readings), EmittedByAll(m, minDelta, p.readings);
    var logouts :| LogoutsOf(gone, logouts) && p.events == observed + logouts &&
                   p.after == Forget(RememberAll(m, minDelta, p.readings), gone);
    ReadingsBooked(events, m, a, minDelta, p.readings, id);
    LogoutsBooked(events + observed, RememberAll(m, minDelta, p.readings),
                  NoteReadings(a, m, minDelta, p.readings, id), gone, logouts, id);
    Regroup(events, observed, logouts);
  }

  lemma {:induction false} PollsBooked(events: seq<WireEvent>, m: Memory, a: Option<Account>, minDelta: int,
                                       polls: seq<Poll>, id: int32)
    requires Booked(events, m, a, id) && PollerRun(m, minDelta, polls)
    ensures Booked(events + EventsOf(polls), MemoryAfter(m, polls),
                   NotePolls(a, m, minDelta, polls, id), id)
    decreases |polls|
  {
    if polls == [] {
      assert events + [] == events;
    } else {
      var p := polls[0];
      PollBooked(events, m, a, minDelta, p, id);
      PollsBooked(events + p.events, p.after, AccountAfter(a, m, minDelta, p.readings, id), minDelta, polls[1..], id);
      Regroup(events, p.events, EventsOf(polls[1..]));
    }
  }

  // ---- the player is near ----

  ghost predicate HeldBriefly(a: Account, id: int32) {
    forall i :: 0 <= i < |a.held| ==> a.held[i].snapshot.objectId == id && a.held[i].now - a.at < HEARTBEAT_MS
  }

  function Latest(a: Account): Snapshot {
    if a.held == [] then a.sent else a.held[|a.held| - 1].snapshot
  }

  ghost predicate Timely(m: Memory, a: Option<Account>, id: int32) {
    id in m.last ==>
      && a.Some? && id in m.lastPosPublishMs && m.lastPosPublishMs[id] == a.value.at
      && m.last[id] == Latest(a.value) && HeldBriefly(a.value, id)
  }

  lemma {:induction false} ReadingsTimely(m: Memory, a: Option<Account>, minDelta: int, readings: seq<Reading>,
                                          id: int32)
    requires Timely(m, a, id)
    ensures Timely(RememberAll(m, minDelta, readings), NoteReadings(a, m, minDelta, readings, id), id)
    decreases |readings|
  {
    if readings == [] {
    } else {
      var r := readings[0];
      ReadingsTimely(Remember(m, minDelta, r.snapshot, r.now), NoteReading(a, m, minDelta, r, id), minDelta,
                     readings[1..], id);
    }
  }

  lemma {:induction false} PollsTimely(m: Memory, a: Option<Account>, minDelta: int, polls: seq<Poll>, id: int32)
    requires Timely(m, a, id) && PollerRun(m, minDelta, polls)
    ensures Timely(MemoryAfter(m, polls), NotePolls(a, m, minDelta, polls, id), id)
    decreases |polls|
  {
    if polls == [] {
    } else {
      var p := polls[0];
      ReadingsTimely(m, a, minDelta, p.readings, id);
      PollsTimely(p.after, AccountAfter(a, m, minDelta, p.readings, id), minDelta, polls[1..], id);
    }
  }

  ghost predicate Near(m: Memory, a: Option<Account>, minDelta: int, id: int32) {
    id in m.last ==>
      a.Some? && Within(m.last[id], a.value.sent, |a.value.held| * (minDelta - 1))
  }

  lemma OneMoreStep(n: nat, d: int)
    ensures (n + 1) * d == n * d + d
  {
  }

  lemma WithinBoth(s: Snapshot, t: Snapshot, u: Snapshot, a: int, b: int)
    requires Within(s, t, a) && Within(t, u, b)
    ensures Within(s, u, a + b)
  {
  }

  // Each reading is compared with the one before, not with what was sent, so a slow walk
  // adds up: by less than the threshold a reading.
  lemma ReadingNear(m: Memory, a: Option<Account>, minDelta: int, r: Reading, id: int32)
    requires Threshold(minDelta) && Near(m, a, minDelta, id)
    requires r.snapshot.objectId == id && id in m.last ==> MoveSeen(m.last[id], r.snapshot, minDelta)
    ensures Near(Remember(m, minDelta, r.snapshot, r.now), NoteReading(a, m, minDelta, r, id), minDelta, id)
  {
    var s := r.snapshot;
    if s.objectId == id && !PositionDue(m, minDelta, s, r.now) {
      NotDueMovedLittle(m, minDelta, s, r.now);
      WithinBoth(s, m.last[id], a.value.sent, minDelta - 1, |a.value.held| * (minDelta - 1));
      OneMoreStep(|a.value.held|, minDelta - 1);
    }
  }

  // No move from one reading of the player to the next is missed.
  ghost predicate ReadingsSeen(m: Memory, minDelta: int, readings: seq<Reading>, id: int32)
    decreases |readings|
  {
    readings == [] ||
    (var r := readings[0];
     && (r.snapshot.objectId == id && id in m.last ==> MoveSeen(m.last[id], r.snapshot, minDelta))
     && ReadingsSeen(Remember(m, minDelta, r.snapshot, r.now), minDelta, readings[1..], id))
  }

  lemma {:induction false} ReadingsNear(m: Memory, a: Option<Account>, minDelta: int, readings: seq<Reading>, id: int32)
    requires Threshold(minDelta) && Near(m, a, minDelta, id) && ReadingsSeen(m, minDelta, readings, id)
    ensures Near(RememberAll(m, minDelta, readings), NoteReadings(a, m, minDelta, readings, id), minDelta, id)
    decreases |readings|
  {
    if readings == [] {
    } else {
      var r := readings[0];
      ReadingNear(m, a, minDelta, r, id);
      ReadingsNear(Remember(m, minDelta, r.snapshot, r.now), NoteReading(a, m, minDelta, r, id), minDelta,
                   readings[1..], id);
    }
  }

  ghost predicate PollsSeen(m: Memory, minDelta: int, polls: seq<Poll>, id: int32)
    decreases |polls|
  {
    polls == [] ||
    (ReadingsSeen(m, minDelta, polls[0].readings, id) && PollsSeen(polls[0].after, minDelta, polls[1..], id))
  }

  lemma {:induction false} PollsNear(m: Memory, a: Option<Account>, minDelta: int, polls: seq<Poll>, id: int32)
    requires Threshold(minDelta) && Near(m, a, minDelta, id)
    requires PollsSeen(m, minDelta, polls, id) && PollerRun(m, minDelta, polls)
    ensures Near(MemoryAfter(m, polls), NotePolls(a, m, minDelta, polls, id), minDelta,
                 id)
    decreases |polls|
  {
    if polls == [] {
    } else {
      var p := polls[0];
      ReadingsNear(m, a, minDelta, p.readings, id);
      PollsNear(p.after, AccountAfter(a, m, minDelta, p.readings, id), minDelta, polls[1..], id);
    }
  }

  // ---- main results ----

  function AccountOf(minDelta: int, polls: seq<Poll>, id: int32): Option<Account> {
    NotePolls(None, NOTHING_SEEN, minDelta, polls, id)
  }

  lemma RunBooked(minDelta: int, polls: seq<Poll>, id: int32)
    requires PollerRun(NOTHING_SEEN, minDelta, polls) && id in Online(polls)
    ensures var a := AccountOf(minDelta, polls, id);
            && a.Some? && SpotShown(Delivered(EventsOf(polls)), id, SpotOf(a.value.sent))
            && LastSpot(EventsOf(polls), id) == Some(SpotOf(a.value.sent))
  {
    OnlineRemembered(minDelta, polls);
    PollsBooked([], NOTHING_SEEN, None, minDelta, polls, id);
    assert [] + EventsOf(polls) == EventsOf(polls);
  }

  // However two deliveries of the events and the clients' requests interleave, the service
  // places each online player where the last position published for it says.
  lemma ReplicaHoldsLastSent(w: World, minDelta: int, polls: seq<Poll>, inputs: seq<Input>, both: seq<Input>,
                             clients: seq<Input>, id: int32, grow: Allocator)
    requires PollerRun(NOTHING_SEEN, minDelta, polls) && DeliveredTwice(inputs, EventsOf(polls), both, clients)
    requires 0 <= id && id in Online(polls)
    ensures LastSpot(EventsOf(polls), id).Some?
    ensures StandsAt(RecordOf(Run(w, inputs, grow), id), LastSpot(EventsOf(polls), id).value)
  {
    RunBooked(minDelta, polls, id);
    SpotDeliveredTwice(w, EventsOf(polls), inputs, both, clients, id, LastSpot(EventsOf(polls), id).value, grow);
  }

  lemma ReplicaHoldsLastSentOnOneTransport(w: World, minDelta: int, polls: seq<Poll>, inputs: seq<Input>,
                                           clients: seq<Input>, id: int32, grow: Allocator)
    requires PollerRun(NOTHING_SEEN, minDelta, polls) && DeliveredOnce(inputs, EventsOf(polls), clients)
    requires 0 <= id && id in Online(polls)
    ensures LastSpot(EventsOf(polls), id).Some?
    ensures StandsAt(RecordOf(Run(w, inputs, grow), id), LastSpot(EventsOf(polls), id).value)
  {
    RunBooked(minDelta, polls, id);
    SpotDeliveredOnce(w, EventsOf(polls), inputs, clients, id, LastSpot(EventsOf(polls), id).value, grow);
  }

  ghost predicate PlacedNear(r: Option<Record>, s: Snapshot, distance: int) {
    && r.Some?
    && -(distance as real) <= s.x as real - r.value.x <= distance as real
    && -(distance as real) <= s.y as real - r.value.y <= distance as real
    && -(distance as real) <= s.z as real - r.value.z <= distance as real
  }

  // The replicated position is within the threshold, less one, per reading since the last
  // publication, per axis, of where the player was last seen.
  lemma DriftIsBounded(w: World, minDelta: int, polls: seq<Poll>, inputs: seq<Input>, both: seq<Input>,
                       clients: seq<Input>, id: int32, grow: Allocator)
    requires PollerRun(NOTHING_SEEN, minDelta, polls) && DeliveredTwice(inputs, EventsOf(polls), both, clients)
    requires Threshold(minDelta) && PollsSeen(NOTHING_SEEN, minDelta, polls, id)
    requires 0 <= id && id in Online(polls)
    ensures var a := AccountOf(minDelta, polls, id);
            && a.Some? && Online(polls)[id] == Latest(a.value)
            && PlacedNear(RecordOf(Run(w, inputs, grow), id), Latest(a.value), |a.value.held| * (minDelta - 1))
  {
    OnlineRemembered(minDelta, polls);
    RunBooked(minDelta, polls, id);
    PollsTimely(NOTHING_SEEN, None, minDelta, polls, id);
    PollsNear(NOTHING_SEEN, None, minDelta, polls, id);
    ReplicaHoldsLastSent(w, minDelta, polls, inputs, both, clients, id, grow);
  }

  // And that publication was less than 3000 ms old at each of those readings.
  lemma HeldBackBriefly(minDelta: int, polls: seq<Poll>, id: int32)
    requires PollerRun(NOTHING_SEEN, minDelta, polls) && id in Online(polls)
    ensures AccountOf(minDelta, polls, id).Some? && HeldBriefly(AccountOf(minDelta, polls, id).value, id)
  {
    OnlineRemembered(minDelta, polls);
    PollsTimely(NOTHING_SEEN, None, minDelta, polls, id);
  }
}
