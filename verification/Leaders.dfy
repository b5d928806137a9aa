/**
 * When the service's idea of a clan's leader agrees with the game.
 *
 * A leader is recognized by the flag of its own record or by the clan record, and the clan
 * record is only written when the poller sees somebody newly become leader. So a leader
 * that stepped down can go on leading, and one whose clan has no record does not lead yet.
 */
module Leaders {
  import opened Types
  import opened Worlds
  import opened Events
  import opened Bridge
  import opened LastWriter
  import opened Replication
  import Convergence

  // ---- when the poller names a leader ----

  lemma LeaderNamedIff(m: Memory, minDelta: int, s: Snapshot, now: int)
    ensures WClanLeader(s.objectId, s.clanId) in Emitted(m, minDelta, s, now) <==>
            s.isClanLeader && s.clanId != 0 && (s.objectId in m.last ==> !m.last[s.objectId].isClanLeader)
  {
    var ch := ChangesIn(m, minDelta, s, now);
    var e := WClanLeader(s.objectId, s.clanId);
    EventIff(ch, s, e);
    LaterEventIff(ch, s, e);
    GroupEventIff(ch, s, e);
  }

  // ---- what a clan record goes through ----

  function LeaderOf(w: World, c: uint32): Option<uint32> {
    if c in w.clans then Some(w.clans[c].leaderId) else None
  }

  function StepLeader(l: Option<uint32>, input: Input, c: uint32): Option<uint32> {
    match input
    case Deliver(event) => if NamesLeader(event, c) then Some(event.player) else l
    case _ => l
  }

  predicate NamesLeader(e: WireEvent, c: int) {
    e.WClanLeader? && e.clanId == c && Unsigned(e.player)
  }

  function RunLeader(l: Option<uint32>, inputs: seq<Input>, c: uint32): Option<uint32>
    decreases |inputs|
  {
    if inputs == [] then l else RunLeader(StepLeader(l, inputs[0], c), inputs[1..], c)
  }

  lemma StepActsOnLeader(w: World, input: Input, c: uint32, grow: Allocator)
    ensures LeaderOf(Step(w, input, grow), c) == StepLeader(LeaderOf(w, c), input, c)
  {
    match input {
      case Deliver(event) =>
        match Decode(event) {
          case None =>
          case Some(e) => EventActsOnLeader(w, e, c, grow);
        }
      case Client(actor, cmd) => ExecActsOnLeader(w, actor, cmd, c);
      case Auth(player, sid) =>
    }
  }

  lemma ExecActsOnLeader(w: World, actor: uint32, cmd: Commands.Command, c: uint32)
    ensures LeaderOf(Commands.Exec(w, actor, cmd), c) == LeaderOf(w, c)
  {
  }

  lemma EventActsOnLeader(w: World, e: Event, c: uint32, grow: Allocator)
    ensures LeaderOf(ApplyToWorld(w, e, grow), c) ==
            if e.ClanLeaderChange? && e.clanId == c then Some(e.leaderId) else LeaderOf(w, c)
  {
  }

  lemma {:induction false} RunActsOnLeader(w: World, inputs: seq<Input>, c: uint32, grow: Allocator)
    ensures LeaderOf(Run(w, inputs, grow), c) == RunLeader(LeaderOf(w, c), inputs, c)
    decreases |inputs|
  {
    if inputs == [] {
    } else {
      StepActsOnLeader(w, inputs[0], c, grow);
      RunActsOnLeader(Step(w, inputs[0], grow), inputs[1..], c, grow);
    }
  }

  // ---- the last leader named decides ----

  function Names(c: int): Test {
    (input: Input) => input.Deliver? && NamesLeader(input.event, c)
  }

  function NamesThis(c: int, leader: int): Test {
    (input: Input) => input.Deliver? && NamesLeader(input.event, c) && input.event.player == leader
  }

  function NamesAnother(c: int, leader: int): Test {
    (input: Input) => input.Deliver? && NamesLeader(input.event, c) && input.event.player != leader
  }

  lemma {:induction false} CleanLeader(l: Option<uint32>, log: seq<Input>, c: uint32, leader: uint32)
    requires (Clean(log, Names(c))) || (l == Some(leader) && Clean(log, NamesAnother(c, leader)))
    ensures RunLeader(l, log, c) == l
    decreases |log|
  {
    if log == [] {
    } else {
      CleanLeader(l, log[1..], c, leader);
    }
  }

  lemma {:induction false} SettledLeader(l: Option<uint32>, log: seq<Input>, c: uint32, leader: uint32)
    requires Settled(log, NamesThis(c, leader), NamesAnother(c, leader))
    ensures RunLeader(l, log, c) == Some(leader)
    decreases |log|
  {
    var next := StepLeader(l, log[0], c);
    if Settled(log[1..], NamesThis(c, leader), NamesAnother(c, leader)) {
      SettledLeader(next, log[1..], c, leader);
    } else {
      CleanLeader(next, log[1..], c, leader);
    }
  }

  function LastLeader(events: seq<WireEvent>, c: int): Option<uint32> {
    if events == [] then None
    else if NamesLeader(events[|events| - 1], c) then Some(events[|events| - 1].player)
    else LastLeader(events[..|events| - 1], c)
  }

  lemma {:induction false} LastLeaderSettles(events: seq<WireEvent>, c: int)
    ensures LastLeader(events, c).None? ==> Clean(Delivered(events), Names(c))
    ensures LastLeader(events, c).Some? ==>
              var l := LastLeader(events, c).value;
              Settled(Delivered(events), NamesThis(c, l), NamesAnother(c, l))
  {
    if events == [] {
    } else {
      var front, e := events[..|events| - 1], events[|events| - 1];
      LastLeaderSettles(front, c);
      assert Delivered(events) == Delivered(front) + [Deliver(e)];
      if LastLeader(events, c).Some? {
        var l := LastLeader(events, c).value;
        if NamesLeader(e, c) {
          CleanAndHitSettled([Deliver(e)], 0, NamesThis(c, l), NamesAnother(c, l));
        }
        SettledAppend(Delivered(front), [Deliver(e)], NamesThis(c, l), NamesAnother(c, l));
      }
    }
  }

  // What the clan's record says once everything is delivered.
  lemma ReplicatedLeader(w: World, events: seq<WireEvent>, inputs: seq<Input>, both: seq<Input>, clients: seq<Input>,
                         c: uint32, grow: Allocator)
    requires DeliveredTwice(inputs, events, both, clients)
    ensures LeaderOf(Run(w, inputs, grow), c) ==
            if LastLeader(events, c).Some? then LastLeader(events, c) else LeaderOf(w, c)
  {
    var log := Delivered(events);
    RunActsOnLeader(w, inputs, c, grow);
    LastLeaderSettles(events, c);
    match LastLeader(events, c) {
      case Some(l) =>
        ShuffleSettled(both, log, log, NamesThis(c, l), NamesAnother(c, l));
        ShuffleSettledClean(inputs, both, clients, NamesThis(c, l), NamesAnother(c, l));
        SettledLeader(LeaderOf(w, c), inputs, c, l);
      case None =>
        ShuffleClean(both, log, log, Names(c));
        ShuffleClean(inputs, both, clients, Names(c));
        CleanLeader(LeaderOf(w, c), inputs, c, 0);
    }
  }

  // ---- when a player leads ----

  // Who was last named leader of an online player's clan.
  function LastNamed(polls: seq<Poll>, id: int32): Option<uint32>
    requires id in Online(polls)
  {
    LastLeader(EventsOf(polls), Online(polls)[id].clanId)
  }

  // From an empty world: an online player leads exactly if its clan has a record and its
  // snapshot or that record says so.
  lemma LeadsIff(minDelta: int, polls: seq<Poll>, inputs: seq<Input>, both: seq<Input>, clients: seq<Input>,
                 id: int32, grow: Allocator)
    requires PollerRun(NOTHING_SEEN, minDelta, polls) && DeliveredTwice(inputs, EventsOf(polls), both, clients)
    requires 0 <= id && id in Online(polls)
    ensures var s, named := Online(polls)[id], LastNamed(polls, id);
            RoleOf(Run(EMPTY_WORLD, inputs, grow), id) == Leader <==>
            s.clanId != 0 && named.Some? && (s.isClanLeader || named.value == id)
  {
    var s, w := Online(polls)[id], Run(EMPTY_WORLD, inputs, grow);
    RunShown(minDelta, polls);
    assert LogMatchesAt(Delivered(EventsOf(polls)), Online(polls), id);
    Convergence.ReplicaFollowsGameOnTwoTransports(EMPTY_WORLD, minDelta, polls, inputs, both, clients, grow);
    assert Mirrors(w, s);
    ReplicatedLeader(EMPTY_WORLD, EventsOf(polls), inputs, both, clients, s.clanId, grow);
    LastLeaderSettles(EventsOf(polls), s.clanId);
  }

  // So the service and the game agree on whether a player leads exactly when a leader's
  // clan has ever had a leader named, and somebody else was named last in the clan of one
  // who does not lead.
  lemma LeadershipAgreesIff(minDelta: int, polls: seq<Poll>, inputs: seq<Input>, both: seq<Input>,
                            clients: seq<Input>, id: int32, grow: Allocator)
    requires PollerRun(NOTHING_SEEN, minDelta, polls) && DeliveredTwice(inputs, EventsOf(polls), both, clients)
    requires 0 <= id && id in Online(polls)
    ensures var s, named := Online(polls)[id], LastNamed(polls, id);
            (RoleOf(Run(EMPTY_WORLD, inputs, grow), id) == Leader <==> s.isClanLeader) <==>
            if s.isClanLeader then s.clanId != 0 && named.Some? else s.clanId == 0 || named.None? || named.value != id
  {
    LeadsIff(minDelta, polls, inputs, both, clients, id, grow);
  }
}
