/** A leader that steps down: two polls after which the service still takes it for the leader. */
module SteppingDown {
  import opened Types
  import opened Worlds
  import opened Bridge
  import opened Replication
  import opened Leaders

  // Two polls that see one player, first leading its clan and then no longer.
  function Resignation(s: Snapshot, minDelta: int, now: int, later: int): seq<Poll> {
    var t, m := s.(isClanLeader := false), Remember(NOTHING_SEEN, minDelta, s, now);
    [Poll([Reading(s, now)], Emitted(NOTHING_SEEN, minDelta, s, now), m),
     Poll([Reading(t, later)], Emitted(m, minDelta, t, later), Remember(m, minDelta, t, later))]
  }

  lemma OneReadingTicks(m: Memory, minDelta: int, s: Snapshot, now: int)
    requires m.last.Keys <= {s.objectId}
    ensures Tick(m, minDelta, [Reading(s, now)], Emitted(m, minDelta, s, now), Remember(m, minDelta, s, now))
  {
    var readings, after := [Reading(s, now)], Remember(m, minDelta, s, now);
    assert RememberAll(m, minDelta, readings) == after;
    assert readings[0].snapshot.objectId in IdsOf(readings);
    assert GoneAfter(m, minDelta, readings) == {};
    assert LogoutsOf({}, []) && Forget(after, {}) == after;
    assert EmittedByAll(m, minDelta, readings) == Emitted(m, minDelta, s, now);
    assert Emitted(m, minDelta, s, now) == Emitted(m, minDelta, s, now) + [];
  }

  lemma {:induction false} OnlyOneNamed(events: seq<WireEvent>, c: int, leader: uint32)
    requires forall i :: 0 <= i < |events| && NamesLeader(events[i], c) ==> events[i].player == leader
    requires exists i :: 0 <= i < |events| && NamesLeader(events[i], c)
    ensures LastLeader(events, c) == Some(leader)
  {
    if NamesLeader(events[|events| - 1], c) {
    } else {
      OnlyOneNamed(events[..|events| - 1], c, leader);
    }
  }

  // However its events arrive, the service goes on taking it for the leader.
  lemma SteppedDownStillLeads(s: Snapshot, minDelta: int, now: int, later: int, inputs: seq<Input>, both: seq<Input>,
                              clients: seq<Input>, grow: Allocator)
    requires Usable(s) && s.isClanLeader && s.clanId != 0
    requires DeliveredTwice(inputs, EventsOf(Resignation(s, minDelta, now, later)), both, clients)
    ensures var polls := Resignation(s, minDelta, now, later);
            && PollerRun(NOTHING_SEEN, minDelta, polls)
            && s.objectId in Online(polls) && !Online(polls)[s.objectId].isClanLeader
    ensures RoleOf(Run(EMPTY_WORLD, inputs, grow), s.objectId) == Leader
  {
    var id, polls := s.objectId, Resignation(s, minDelta, now, later);
    SteppingDownIsRun(s, minDelta, now, later);
    SteppingDownNames(s, minDelta, now, later);
    LeadsIff(minDelta, polls, inputs, both, clients, id, grow);
  }

  lemma SteppingDownIsRun(s: Snapshot, minDelta: int, now: int, later: int)
    requires Usable(s)
    ensures var polls := Resignation(s, minDelta, now, later);
            && PollerRun(NOTHING_SEEN, minDelta, polls)
            && Online(polls) == map[s.objectId := s.(isClanLeader := false)]
  {
    var polls := Resignation(s, minDelta, now, later);
    OneReadingTicks(NOTHING_SEEN, minDelta, s, now);
    OneReadingTicks(polls[0].after, minDelta, s.(isClanLeader := false), later);
    assert PollerRun(polls[1].after, minDelta, []);
    assert polls[1..] == [polls[1]] && [polls[1]][1..] == [];
    OnlineRemembered(minDelta, polls);
  }

  lemma EventsOfTwo(a: Poll, b: Poll)
    ensures EventsOf([a, b]) == a.events + b.events
  {
    assert [a, b][1..] == [b] && [b][1..] == [];
    assert EventsOf([b]) == b.events + EventsOf([]) == b.events;
  }

  lemma NamedOnceFirst(first: seq<WireEvent>, second: seq<WireEvent>, c: int, leader: uint32)
    requires forall e :: e in first || e in second ==> e.player == leader
    requires exists e :: e in first && NamesLeader(e, c)
    ensures LastLeader(first + second, c) == Some(leader)
  {
    var e :| e in first && NamesLeader(e, c);
    var i :| 0 <= i < |first| && first[i] == e;
    assert (first + second)[i] == e;
    OnlyOneNamed(first + second, c, leader);
  }

  lemma SteppingDownNames(s: Snapshot, minDelta: int, now: int, later: int)
    requires Usable(s) && s.isClanLeader && s.clanId != 0
    ensures LastLeader(EventsOf(Resignation(s, minDelta, now, later)), s.clanId) == Some(s.objectId)
  {
    var t, m := s.(isClanLeader := false), Remember(NOTHING_SEEN, minDelta, s, now);
    var first, second := Emitted(NOTHING_SEEN, minDelta, s, now), Emitted(m, minDelta, t, later);
    EventsAreAboutSnapshot(ChangesIn(NOTHING_SEEN, minDelta, s, now), s);
    EventsAreAboutSnapshot(ChangesIn(m, minDelta, t, later), t);
    LeaderNamedIff(NOTHING_SEEN, minDelta, s, now);
    assert NamesLeader(WClanLeader(s.objectId, s.clanId), s.clanId);
    NamedOnceFirst(first, second, s.clanId, s.objectId);
    EventsOfTwo(Poll([Reading(s, now)], first, m), Poll([Reading(t, later)], second, Remember(m, minDelta, t, later)));
  }
}
