/**
 * How the service's copy of the game state comes about.
 *
 * The poller's events reach the service over two transports that each deliver all of them
 * in order, interleaved in any way with each other and with what clients do. Whatever the
 * interleaving, the log of all inputs ends, for each online player, with its last snapshot.
 */
module Replication {
  import opened Types
  import opened Worlds
  import opened Events
  import opened Commands
  import opened Bridge
  import opened LastWriter
  import Authority

  // What reaches the world state, in the order it does.
  datatype Input =
    | Deliver(event: WireEvent)
    | Client(actor: uint32, cmd: Command)
    | Auth(player: uint32, sid: uint32)

  function Step(w: World, input: Input, grow: Allocator): World {
    match input
    case Deliver(event) =>
      (match Decode(event)
       case None => w
       case Some(e) => ApplyToWorld(w, e, grow))
    case Client(actor, cmd) => Exec(w, actor, cmd)
    case Auth(player, sid) =>
      var known := if player in w.players then w else UpsertPlayer(w, player, 0, 0, 0, 0, false, false);
      SetPlayerSession(known, player, sid)
  }

  function Run(w: World, inputs: seq<Input>, grow: Allocator): World
    decreases |inputs|
  {
    if inputs == [] then w else Run(Step(w, inputs[0], grow), inputs[1..], grow)
  }

  function Delivered(events: seq<WireEvent>): seq<Input> {
    seq(|events|, i requires 0 <= i < |events| => Deliver(events[i]))
  }

  type Test = Input -> bool

  // ---- what one player's replicated fields go through ----

  datatype Record = Record(clanId: uint32, isLeader: bool, allyId: uint32, partyId: uint64, instanceId: uint32,
                           x: real, y: real, z: real)

  const BLANK := Record(0, false, 0, 0, 0, 0.0, 0.0, 0.0)

  function RecordOf(w: World, id: uint32): Option<Record> {
    if id !in w.players then None
    else
      var p := w.players[id];
      Some(Record(p.clanId, p.isLeader, p.allyId, p.partyId, p.instanceId, p.x, p.y, p.z))
  }

  function OrBlank(r: Option<Record>): Record {
    if r.Some? then r.value else BLANK
  }

  function EventOnRecord(r: Option<Record>, e: Event): Option<Record> {
    match e
    case Position(_, x, y, z, instanceId) =>
      if r.Some? then Some(r.value.(x := x, y := y, z := z, instanceId := instanceId)) else None
    case InstanceChange(_, instanceId) => if r.Some? then Some(r.value.(instanceId := instanceId)) else None
    case ClanChange(_, clanId, isLeader) => Some(OrBlank(r).(clanId := clanId, isLeader := isLeader))
    case AllyChange(_, allyId) => Some(OrBlank(r).(allyId := allyId))
    case PartyChange(_, partyId, _) => Some(OrBlank(r).(partyId := partyId))
    case Logout(_) => None
    case _ => r
  }

  function StepRecord(r: Option<Record>, input: Input, id: uint32): Option<Record> {
    match input
    case Deliver(event) =>
      (match Decode(event)
       case None => r
       case Some(e) => if e.player == id then EventOnRecord(r, e) else r)
    case Client(_, _) => r
    case Auth(player, _) => if player == id then Some(OrBlank(r)) else r
  }

  function RunRecord(r: Option<Record>, inputs: seq<Input>, id: uint32): Option<Record>
    decreases |inputs|
  {
    if inputs == [] then r else RunRecord(StepRecord(r, inputs[0], id), inputs[1..], id)
  }

  lemma EventActsOnRecord(w: World, e: Event, id: uint32, grow: Allocator)
    ensures RecordOf(ApplyToWorld(w, e, grow), id) ==
            if e.player == id then EventOnRecord(RecordOf(w, id), e) else RecordOf(w, id)
  {
  }

  lemma StepActsOnRecord(w: World, input: Input, id: uint32, grow: Allocator)
    ensures RecordOf(Step(w, input, grow), id) == StepRecord(RecordOf(w, id), input, id)
  {
    match input
    case Deliver(event) =>
      if Decode(event).Some? {
        EventActsOnRecord(w, Decode(event).value, id, grow);
      }
    case Client(actor, cmd) => Authority.ExecPlayers(w, actor, cmd);
    case Auth(player, sid) =>
  }

  lemma {:induction false} RunActsOnRecord(w: World, inputs: seq<Input>, id: uint32, grow: Allocator)
    ensures RecordOf(Run(w, inputs, grow), id) == RunRecord(RecordOf(w, id), inputs, id)
    decreases |inputs|
  {
    if inputs == [] {
    } else {
      StepActsOnRecord(w, inputs[0], id, grow);
      RunActsOnRecord(Step(w, inputs[0], grow), inputs[1..], id, grow);
    }
  }

  // ---- a settled log decides the record it leads to ----

  type Prop = Option<Record> -> bool

  ghost predicate Establishes(id: uint32, given: Prop, tests: Test, prop: Prop) {
    forall r, input {:trigger StepRecord(r, input, id)} :: given(r) && tests(input) ==> prop(StepRecord(r, input, id))
  }

  ghost predicate KeptUnless(id: uint32, tests: Test, prop: Prop) {
    forall r, input {:trigger StepRecord(r, input, id)} :: prop(r) && !tests(input) ==> prop(StepRecord(r, input, id))
  }

  function Anything(): Prop {
    (r: Option<Record>) => true
  }

  lemma {:induction false} CleanKeeps(r: Option<Record>, log: seq<Input>, id: uint32, spoils: Test, prop: Prop)
    requires KeptUnless(id, spoils, prop) && prop(r) && Clean(log, spoils)
    ensures prop(RunRecord(r, log, id))
    decreases |log|
  {
    if log == [] {
    } else {
      CleanKeeps(StepRecord(r, log[0], id), log[1..], id, spoils, prop);
    }
  }

  lemma {:induction false} SettledDecides(r: Option<Record>, log: seq<Input>, id: uint32, hits: Test, spoils: Test,
      prop: Prop)
    requires Settled(log, hits, spoils) && Establishes(id, Anything(), hits, prop) && KeptUnless(id, spoils, prop)
    ensures prop(RunRecord(r, log, id))
    decreases |log|
  {
    var next := StepRecord(r, log[0], id);
    if Settled(log[1..], hits, spoils) {
      SettledDecides(next, log[1..], id, hits, spoils, prop);
    } else {
      assert Anything()(r);
      CleanKeeps(next, log[1..], id, spoils, prop);
    }
  }

  // The same when the hit only counts while an earlier entry's effect lasts.
  lemma {:induction false} MadeDecides(r: Option<Record>, log: seq<Input>, id: uint32, makes: Test, unmakes: Test,
                                       hits: Test, spoils: Test, made: Prop, prop: Prop)
    requires MadeAndSettled(log, makes, unmakes, hits, spoils)
    requires Establishes(id, Anything(), makes, made) && KeptUnless(id, unmakes, made)
    requires Establishes(id, made, hits, prop) && KeptUnless(id, spoils, prop)
    ensures prop(RunRecord(r, log, id))
    decreases |log|
  {
    var next := StepRecord(r, log[0], id);
    if MadeAndSettled(log[1..], makes, unmakes, hits, spoils) {
      MadeDecides(next, log[1..], id, makes, unmakes, hits, spoils, made, prop);
    } else {
      assert Anything()(r);
      SettledWhileMade(next, log[1..], id, unmakes, hits, spoils, made, prop);
    }
  }

  lemma {:induction false} SettledWhileMade(r: Option<Record>, log: seq<Input>, id: uint32, unmakes: Test,
                                            hits: Test, spoils: Test, made: Prop, prop: Prop)
    requires made(r) && Clean(log, unmakes) && Settled(log, hits, spoils)
    requires KeptUnless(id, unmakes, made)
    requires Establishes(id, made, hits, prop) && KeptUnless(id, spoils, prop)
    ensures prop(RunRecord(r, log, id))
    decreases |log|
  {
    var next := StepRecord(r, log[0], id);
    if Settled(log[1..], hits, spoils) {
      SettledWhileMade(next, log[1..], id, unmakes, hits, spoils, made, prop);
    } else {
      CleanKeeps(next, log[1..], id, spoils, prop);
    }
  }

  // ---- the writes of each replicated field of a player ----

  function WritesClan(id: int32, clanId: int32, isLeader: bool): Test {
    (input: Input) => input == Deliver(WClan(id, clanId, isLeader))
  }

  function SpoilsClan(id: int32, clanId: int32, isLeader: bool): Test {
    (input: Input) => input.Deliver? && input.event.player == id &&
                      (input.event.WLogout? ||
                       (input.event.WClan? && input.event != WClan(id, clanId, isLeader)))
  }

  function WritesAlly(id: int32, allyId: int32): Test {
    (input: Input) => input == Deliver(WAlly(id, allyId))
  }

  function SpoilsAlly(id: int32, allyId: int32): Test {
    (input: Input) => input.Deliver? && input.event.player == id &&
                      (input.event.WLogout? || (input.event.WAlly? && input.event != WAlly(id, allyId)))
  }

  function WritesParty(id: int32, partyId: int32): Test {
    (input: Input) => input == Deliver(WParty(id, partyId))
  }

  function SpoilsParty(id: int32, partyId: int32): Test {
    (input: Input) => input.Deliver? && input.event.player == id &&
                      (input.event.WLogout? || (input.event.WParty? && input.event != WParty(id, partyId)))
  }

  // Login, position and instance events all write the instance, but only of a known player.
  predicate MovesTo(e: WireEvent, instanceId: int32) {
    match e
    case WLogin(_) => instanceId == 0
    case WPosition(_, _, _, _, i) => i == instanceId
    case WInstance(_, i) => i == instanceId
    case _ => false
  }

  predicate Moves(e: WireEvent) {
    e.WLogin? || e.WPosition? || e.WInstance?
  }

  function WritesInstance(id: int32, instanceId: int32): Test {
    (input: Input) => input.Deliver? && input.event.player == id && MovesTo(input.event, instanceId)
  }

  function SpoilsInstance(id: int32, instanceId: int32): Test {
    (input: Input) => input.Deliver? && input.event.player == id &&
                      (input.event.WLogout? || (Moves(input.event) && !MovesTo(input.event, instanceId)))
  }

  // A clan, alliance or party event the service can decode creates an unknown player.
  predicate Creates(e: WireEvent) {
    (e.WClan? || e.WAlly? || e.WParty?) && Decode(e).Some?
  }

  function Brings(id: int32): Test {
    (input: Input) => input.Deliver? && input.event.player == id && Creates(input.event)
  }

  function BringsOrAuths(id: int32): Test {
    (input: Input) => (input.Deliver? && input.event.player == id && Creates(input.event)) ||
                      (input.Auth? && input.player == id)
  }

  function LogsOut(id: int32): Test {
    (input: Input) => input == Deliver(WLogout(id))
  }

  // ---- what the poller's log always ends with ----

  ghost predicate LogShows(log: seq<Input>, s: Snapshot) {
    var id := s.objectId;
    && Settled(log, WritesClan(id, s.clanId, s.isClanLeader), SpoilsClan(id, s.clanId, s.isClanLeader))
    && Settled(log, WritesAlly(id, s.allyId), SpoilsAlly(id, s.allyId))
    && Settled(log, WritesParty(id, s.partyId), SpoilsParty(id, s.partyId))
    && MadeAndSettled(log, Brings(id), LogsOut(id), WritesInstance(id, s.instanceId), SpoilsInstance(id, s.instanceId))
  }

  ghost predicate LogShowsAbsence(log: seq<Input>, id: int32) {
    Clean(log, BringsOrAuths(id)) || Settled(log, LogsOut(id), BringsOrAuths(id))
  }

  ghost predicate Usable(s: Snapshot) {
    Unsigned(s.objectId) && Unsigned(s.clanId) && Unsigned(s.allyId) && Unsigned(s.partyId) && Unsigned(s.instanceId)
  }

  ghost predicate Mirrors(w: World, s: Snapshot) {
    Unsigned(s.objectId) && Shows(RecordOf(w, s.objectId), s)
  }

  ghost predicate Shows(r: Option<Record>, s: Snapshot) {
    && r.Some?
    && r.value.clanId == s.clanId && r.value.isLeader == s.isClanLeader
    && r.value.allyId == s.allyId && r.value.partyId == s.partyId && r.value.instanceId == s.instanceId
  }

  lemma LogDecidesClan(r: Option<Record>, log: seq<Input>, s: Snapshot)
    requires Usable(s) && LogShows(log, s)
    ensures var after := RunRecord(r, log, s.objectId);
            after.Some? && after.value.clanId == s.clanId && after.value.isLeader == s.isClanLeader
  {
    var prop := (r: Option<Record>) => r.Some? && r.value.clanId == s.clanId && r.value.isLeader == s.isClanLeader;
    SettledDecides(r, log, s.objectId, WritesClan(s.objectId, s.clanId, s.isClanLeader),
                   SpoilsClan(s.objectId, s.clanId, s.isClanLeader), prop);
  }

  lemma LogDecidesAlly(r: Option<Record>, log: seq<Input>, s: Snapshot)
    requires Usable(s) && LogShows(log, s)
    ensures var after := RunRecord(r, log, s.objectId); after.Some? && after.value.allyId == s.allyId
  {
    var prop := (r: Option<Record>) => r.Some? && r.value.allyId == s.allyId;
    SettledDecides(r, log, s.objectId, WritesAlly(s.objectId, s.allyId), SpoilsAlly(s.objectId, s.allyId), prop);
  }

  lemma LogDecidesParty(r: Option<Record>, log: seq<Input>, s: Snapshot)
    requires Usable(s) && LogShows(log, s)
    ensures var after := RunRecord(r, log, s.objectId); after.Some? && after.value.partyId == s.partyId
  {
    var prop := (r: Option<Record>) => r.Some? && r.value.partyId == s.partyId;
    SettledDecides(r, log, s.objectId, WritesParty(s.objectId, s.partyId), SpoilsParty(s.objectId, s.partyId), prop);
  }

  lemma LogDecidesInstance(r: Option<Record>, log: seq<Input>, s: Snapshot)
    requires Usable(s) && LogShows(log, s)
    ensures var after := RunRecord(r, log, s.objectId); after.Some? && after.value.instanceId == s.instanceId
  {
    InstanceIsWritten(s.objectId, s.instanceId);
    MadeDecides(r, log, s.objectId, Brings(s.objectId), LogsOut(s.objectId),
                WritesInstance(s.objectId, s.instanceId), SpoilsInstance(s.objectId, s.instanceId), Known(),
                StandsIn(s.instanceId));
  }

  function Known(): Prop {
    (r: Option<Record>) => r.Some?
  }

  function StandsIn(instanceId: int32): Prop {
    (r: Option<Record>) => r.Some? && r.value.instanceId == instanceId
  }

  lemma InstanceIsWritten(id: int32, instanceId: int32)
    requires Unsigned(id) && Unsigned(instanceId)
    ensures Establishes(id, Anything(), Brings(id), Known()) && KeptUnless(id, LogsOut(id), Known())
    ensures Establishes(id, Known(), WritesInstance(id, instanceId), StandsIn(instanceId))
    ensures KeptUnless(id, SpoilsInstance(id, instanceId), StandsIn(instanceId))
  {
  }

  lemma LogDecidesAbsence(r: Option<Record>, log: seq<Input>, id: uint32)
    requires id < 0x8000_0000 && LogShowsAbsence(log, id)
    ensures RunRecord(r, log, id) == None || (r.Some? && Clean(log, BringsOrAuths(id)))
  {
    var unknown := (r: Option<Record>) => r.None?;
    assert KeptUnless(id, BringsOrAuths(id), unknown);
    if Clean(log, BringsOrAuths(id)) {
      if r.None? {
        CleanKeeps(r, log, id, BringsOrAuths(id), unknown);
      }
    } else {
      SettledDecides(r, log, id, LogsOut(id), BringsOrAuths(id), unknown);
    }
  }

  lemma LogDecidesRecord(w: World, log: seq<Input>, s: Snapshot, grow: Allocator)
    requires Usable(s) && LogShows(log, s)
    ensures Mirrors(Run(w, log, grow), s)
  {
    var r := RecordOf(w, s.objectId);
    RunActsOnRecord(w, log, s.objectId, grow);
    LogDecidesClan(r, log, s);
    LogDecidesAlly(r, log, s);
    LogDecidesParty(r, log, s);
    LogDecidesInstance(r, log, s);
  }

  // ---- the poller's log shows what the poller remembers ----

  ghost predicate LogMatches(log: seq<Input>, last: map<int32, Snapshot>) {
    forall id: int32 :: LogMatchesAt(log, last, id)
  }

  ghost predicate LogMatchesAt(log: seq<Input>, last: map<int32, Snapshot>, id: int32) {
    if id in last then last[id].objectId == id && Usable(last[id]) && LogShows(log, last[id])
    else LogShowsAbsence(log, id)
  }

  ghost predicate AboutSnapshot(e: WireEvent, s: Snapshot) {
    && e.player == s.objectId && !e.WLogout?
    && (e.WClan? ==> e == WClan(s.objectId, s.clanId, s.isClanLeader))
    && (e.WAlly? ==> e == WAlly(s.objectId, s.allyId))
    && (e.WParty? ==> e == WParty(s.objectId, s.partyId))
    && (Moves(e) && !e.WLogin? ==> MovesTo(e, s.instanceId))
  }

  lemma LaterEventsAreAboutSnapshot(ch: Changes, s: Snapshot)
    ensures forall e :: e in LaterEventsFor(ch, s) ==> AboutSnapshot(e, s) && !e.WLogin? && !e.WClan?
    ensures ch.ally ==> WAlly(s.objectId, s.allyId) in LaterEventsFor(ch, s)
    ensures ch.party ==> WParty(s.objectId, s.partyId) in LaterEventsFor(ch, s)
    ensures ch.instance ==> WInstance(s.objectId, s.instanceId) in LaterEventsFor(ch, s)
  {
    forall e | e in LaterEventsFor(ch, s)
      ensures AboutSnapshot(e, s) && !e.WLogin? && !e.WClan?
    {
      LaterEventIff(ch, s, e);
      GroupEventIff(ch, s, e);
    }
    LaterEventIff(ch, s, WAlly(s.objectId, s.allyId));
    LaterEventIff(ch, s, WParty(s.objectId, s.partyId));
    LaterEventIff(ch, s, WInstance(s.objectId, s.instanceId));
    GroupEventIff(ch, s, WAlly(s.objectId, s.allyId));
    GroupEventIff(ch, s, WParty(s.objectId, s.partyId));
    GroupEventIff(ch, s, WInstance(s.objectId, s.instanceId));
  }

  lemma EventsAreAboutSnapshot(ch: Changes, s: Snapshot)
    ensures forall e :: e in EventsFor(ch, s) ==> AboutSnapshot(e, s) && (e.WLogin? ==> ch.first)
    ensures ch.clan ==> WClan(s.objectId, s.clanId, s.isClanLeader) in EventsFor(ch, s)
    ensures forall e :: e in LaterEventsFor(ch, s) ==> e in EventsFor(ch, s)
  {
    LaterEventsAreAboutSnapshot(ch, s);
    forall e
      ensures e in EventsFor(ch, s) ==> AboutSnapshot(e, s) && (e.WLogin? ==> ch.first)
      ensures e in LaterEventsFor(ch, s) ==> e in EventsFor(ch, s)
    {
      EventIff(ch, s, e);
    }
    EventIff(ch, s, WClan(s.objectId, s.clanId, s.isClanLeader));
  }

  lemma DeliveredClean(events: seq<WireEvent>, spoils: Test)
    requires forall x :: x in events ==> !spoils(Deliver(x))
    ensures Clean(Delivered(events), spoils)
  {
  }

  lemma DeliveredSettles(events: seq<WireEvent>, e: WireEvent, hits: Test, spoils: Test)
    requires e in events && hits(Deliver(e)) && forall x :: x in events ==> !spoils(Deliver(x))
    ensures Settled(Delivered(events), hits, spoils)
  {
    var i :| 0 <= i < |events| && events[i] == e;
    CleanAndHitSettled(Delivered(events), i, hits, spoils);
  }

  lemma OtherUntouched(log: seq<Input>, xs: seq<Input>, last: map<int32, Snapshot>, id: int32, other: int32)
    requires LogMatchesAt(log, last, other) && other != id
    requires forall i :: 0 <= i < |xs| ==> xs[i].Deliver? && xs[i].event.player == id
    ensures LogMatchesAt(log + xs, last, other)
  {
    if other in last {
      LogShowsAppend(log, xs, last[other]);
    } else if !Clean(log, BringsOrAuths(other)) {
      SettledAppend(log, xs, LogsOut(other), BringsOrAuths(other));
    }
  }

  // Entries that spoil nothing of a snapshot leave the log showing it.
  lemma LogShowsAppend(log: seq<Input>, xs: seq<Input>, s: Snapshot)
    requires LogShows(log, s)
    requires Clean(xs, SpoilsClan(s.objectId, s.clanId, s.isClanLeader)) && Clean(xs, SpoilsAlly(s.objectId, s.allyId))
    requires Clean(xs, SpoilsParty(s.objectId, s.partyId)) && Clean(xs, SpoilsInstance(s.objectId, s.instanceId))
    ensures LogShows(log + xs, s)
  {
    var id := s.objectId;
    SettledAppend(log, xs, WritesClan(id, s.clanId, s.isClanLeader), SpoilsClan(id, s.clanId, s.isClanLeader));
    SettledAppend(log, xs, WritesAlly(id, s.allyId), SpoilsAlly(id, s.allyId));
    SettledAppend(log, xs, WritesParty(id, s.partyId), SpoilsParty(id, s.partyId));
    forall i | 0 <= i < |xs| ensures !LogsOut(id)(xs[i]) {
      assert !SpoilsClan(id, s.clanId, s.isClanLeader)(xs[i]);
    }
    MadeAppendClean(log, xs, Brings(id), LogsOut(id), WritesInstance(id, s.instanceId), SpoilsInstance(id,
        s.instanceId));
  }

  // One field of the snapshot: written by the events if it changed, untouched otherwise.
  lemma FieldShown(log: seq<Input>, events: seq<WireEvent>, changed: bool, e: WireEvent, hits: Test, spoils: Test)
    requires if changed then e in events && hits(Deliver(e)) else Settled(log, hits, spoils)
    requires forall x :: x in events ==> !spoils(Deliver(x))
    ensures Settled(log + Delivered(events), hits, spoils)
  {
    if changed {
      DeliveredSettles(events, e, hits, spoils);
    }
    SettledAppend(log, Delivered(events), hits, spoils);
  }

  lemma GroupFieldsShown(log: seq<Input>, ch: Changes, s: Snapshot)
    requires !ch.clan ==>
      Settled(log, WritesClan(s.objectId, s.clanId, s.isClanLeader), SpoilsClan(s.objectId, s.clanId, s.isClanLeader))
    requires !ch.ally ==> Settled(log, WritesAlly(s.objectId, s.allyId), SpoilsAlly(s.objectId, s.allyId))
    requires !ch.party ==> Settled(log, WritesParty(s.objectId, s.partyId), SpoilsParty(s.objectId, s.partyId))
    ensures var after := log + Delivered(EventsFor(ch, s));
      && Settled(after, WritesClan(s.objectId, s.clanId, s.isClanLeader), SpoilsClan(s.objectId, s.clanId,
          s.isClanLeader))
      && Settled(after, WritesAlly(s.objectId, s.allyId), SpoilsAlly(s.objectId, s.allyId))
      && Settled(after, WritesParty(s.objectId, s.partyId), SpoilsParty(s.objectId, s.partyId))
  {
    var id, events := s.objectId, EventsFor(ch, s);
    EventsAreAboutSnapshot(ch, s);
    LaterEventsAreAboutSnapshot(ch, s);
    FieldShown(log, events, ch.clan, WClan(id, s.clanId, s.isClanLeader), WritesClan(id, s.clanId, s.isClanLeader),
               SpoilsClan(id, s.clanId, s.isClanLeader));
    FieldShown(log, events, ch.ally, WAlly(id, s.allyId), WritesAlly(id, s.allyId), SpoilsAlly(id, s.allyId));
    FieldShown(log, events, ch.party, WParty(id, s.partyId), WritesParty(id, s.partyId), SpoilsParty(id, s.partyId));
  }

  lemma NewcomerShown(log: seq<Input>, ch: Changes, s: Snapshot)
    requires Usable(s) && ch.first && ch.clan && ch.ally && ch.party && ch.instance
    ensures LogShows(log + Delivered(EventsFor(ch, s)), s)
  {
    GroupFieldsShown(log, ch, s);
    NewcomerInstanceShown(log, ch, s);
  }

  // A newcomer's events are its login, its clan, which makes it known, and the rest.
  lemma NewcomerInstanceShown(log: seq<Input>, ch: Changes, s: Snapshot)
    requires Usable(s) && ch.first && ch.clan && ch.instance
    ensures MadeAndSettled(log + Delivered(EventsFor(ch, s)), Brings(s.objectId), LogsOut(s.objectId),
                           WritesInstance(s.objectId, s.instanceId), SpoilsInstance(s.objectId, s.instanceId))
  {
    var id, later := s.objectId, LaterEventsFor(ch, s);
    LaterEventsAreAboutSnapshot(ch, s);
    DeliveredClean(later, LogsOut(id));
    DeliveredSettles(later, WInstance(id, s.instanceId), WritesInstance(id, s.instanceId), SpoilsInstance(id,
        s.instanceId));
    var known := Deliver(WClan(id, s.clanId, s.isClanLeader));
    MadeFirst(known, Delivered(later), Brings(id), LogsOut(id), WritesInstance(id, s.instanceId),
              SpoilsInstance(id, s.instanceId));
    MadeAppendMade(log + [Deliver(WLogin(id))], [known] + Delivered(later), Brings(id), LogsOut(id),
                   WritesInstance(id, s.instanceId), SpoilsInstance(id, s.instanceId));
    NewcomerLog(log, ch, s);
  }

  lemma NewcomerLog(log: seq<Input>, ch: Changes, s: Snapshot)
    requires ch.first && ch.clan
    ensures log + Delivered(EventsFor(ch, s)) ==
            (log + [Deliver(WLogin(s.objectId))]) +
            ([Deliver(WClan(s.objectId, s.clanId, s.isClanLeader))] + Delivered(LaterEventsFor(ch, s)))
  {
    var login, clan := WLogin(s.objectId), WClan(s.objectId, s.clanId, s.isClanLeader);
    assert EventsFor(ch, s) == [login] + ([clan] + LaterEventsFor(ch, s));
    DeliveredBeforeRest(log, login, clan, LaterEventsFor(ch, s));
  }

  lemma DeliveredBeforeRest(log: seq<Input>, a: WireEvent, b: WireEvent, rest: seq<WireEvent>)
    ensures log + Delivered([a] + ([b] + rest)) == (log + [Deliver(a)]) + ([Deliver(b)] + Delivered(rest))
  {
    assert Delivered([a] + ([b] + rest)) == [Deliver(a)] + ([Deliver(b)] + Delivered(rest));
  }

  lemma ChangedShown(log: seq<Input>, ch: Changes, prev: Snapshot, s: Snapshot)
    requires Usable(s) && LogShows(log, prev) && prev.objectId == s.objectId && !ch.first
    requires ch.clan <==> prev.clanId != s.clanId || prev.isClanLeader != s.isClanLeader
    requires ch.ally <==> prev.allyId != s.allyId
    requires ch.party <==> prev.partyId != s.partyId
    requires ch.instance <==> prev.instanceId != s.instanceId
    ensures LogShows(log + Delivered(EventsFor(ch, s)), s)
  {
    var id, events := s.objectId, EventsFor(ch, s);
    GroupFieldsShown(log, ch, s);
    EventsAreAboutSnapshot(ch, s);
    LaterEventsAreAboutSnapshot(ch, s);
    DeliveredClean(events, LogsOut(id));
    DeliveredClean(events, SpoilsInstance(id, s.instanceId));
    if ch.instance {
      DeliveredSettles(events, WInstance(id, s.instanceId), WritesInstance(id, s.instanceId),
                       SpoilsInstance(id, s.instanceId));
      MadeIsSettled(log, Brings(id), LogsOut(id), WritesInstance(id, prev.instanceId), SpoilsInstance(id,
          prev.instanceId));
      MadeAppendSettled(log, Delivered(events), Brings(id), LogsOut(id), WritesInstance(id, s.instanceId),
                        SpoilsInstance(id, s.instanceId));
    } else {
      MadeAppendClean(log, Delivered(events), Brings(id), LogsOut(id), WritesInstance(id, s.instanceId),
                      SpoilsInstance(id, s.instanceId));
    }
  }

  lemma ObservedPlayerShown(log: seq<Input>, m: Memory, minDelta: int, s: Snapshot, now: int)
    requires LogMatchesAt(log, m.last, s.objectId) && Usable(s)
    ensures LogShows(log + Delivered(Emitted(m, minDelta, s, now)), s)
  {
    var ch := ChangesIn(m, minDelta, s, now);
    if ch.first {
      NewcomerShown(log, ch, s);
    } else {
      ChangedShown(log, ch, m.last[s.objectId], s);
    }
  }

  lemma ObservedOtherShown(log: seq<Input>, m: Memory, minDelta: int, s: Snapshot, now: int, other: int32)
    requires LogMatchesAt(log, m.last, other) && other != s.objectId
    ensures LogMatchesAt(log + Delivered(Emitted(m, minDelta, s, now)), m.last[s.objectId := s], other)
  {
    var events := Emitted(m, minDelta, s, now);
    assert forall e :: e in events ==> e.player == s.objectId by {
      EventsAreAboutSnapshot(ChangesIn(m, minDelta, s, now), s);
    }
    OtherUntouched(log, Delivered(events), m.last, s.objectId, other);
  }

  lemma ObservedShown(log: seq<Input>, m: Memory, minDelta: int, s: Snapshot, now: int)
    requires LogMatches(log, m.last) && Usable(s)
    ensures LogMatches(log + Delivered(Emitted(m, minDelta, s, now)), Remember(m, minDelta, s, now).last)
  {
    var after, last := log + Delivered(Emitted(m, minDelta, s, now)), m.last[s.objectId := s];
    assert LogMatchesAt(log, m.last, s.objectId);
    ObservedPlayerShown(log, m, minDelta, s, now);
    forall other: int32
      ensures LogMatchesAt(after, last, other)
    {
      assert LogMatchesAt(log, m.last, other);
      if other != s.objectId {
        ObservedOtherShown(log, m, minDelta, s, now, other);
      }
    }
  }

  lemma DeliveredAppend(log: seq<Input>, a: seq<WireEvent>, b: seq<WireEvent>)
    ensures log + Delivered(a + b) == (log + Delivered(a)) + Delivered(b)
  {
  }

  ghost predicate AllUsable(readings: seq<Reading>) {
    forall i :: 0 <= i < |readings| ==> Usable(readings[i].snapshot)
  }

  lemma {:induction false} ReadingsShown(log: seq<Input>, m: Memory, minDelta: int, readings: seq<Reading>)
    requires LogMatches(log, m.last) && AllUsable(readings)
    ensures LogMatches(log + Delivered(EmittedByAll(m, minDelta, readings)), RememberAll(m, minDelta, readings).last)
    decreases |readings|
  {
    if readings == [] {
      assert log + Delivered([]) == log;
    } else {
      var r := readings[0];
      var m', xs := Remember(m, minDelta, r.snapshot, r.now), Emitted(m, minDelta, r.snapshot, r.now);
      var ys := EmittedByAll(m', minDelta, readings[1..]);
      ObservedShown(log, m, minDelta, r.snapshot, r.now);
      ReadingsShown(log + Delivered(xs), m', minDelta, readings[1..]);
      DeliveredAppend(log, xs, ys);
    }
  }

  lemma LogoutsShownAt(log: seq<Input>, last: map<int32, Snapshot>, gone: set<int32>, logouts: seq<WireEvent>,
      id: int32)
    requires LogMatchesAt(log, last, id) && LogoutsOf(gone, logouts)
    ensures LogMatchesAt(log + Delivered(logouts), last - gone, id)
  {
    var xs := Delivered(logouts);
    if id in gone {
      DeliveredSettles(logouts, WLogout(id), LogsOut(id), BringsOrAuths(id));
      SettledAppend(log, xs, LogsOut(id), BringsOrAuths(id));
    } else if id in last {
      LogShowsAppend(log, xs, last[id]);
    } else if !Clean(log, BringsOrAuths(id)) {
      SettledAppend(log, xs, LogsOut(id), BringsOrAuths(id));
    }
  }

  lemma LogoutsShown(log: seq<Input>, last: map<int32, Snapshot>, gone: set<int32>, logouts: seq<WireEvent>)
    requires LogMatches(log, last) && LogoutsOf(gone, logouts)
    ensures LogMatches(log + Delivered(logouts), last - gone)
  {
    forall id: int32
      ensures LogMatchesAt(log + Delivered(logouts), last - gone, id)
    {
      LogoutsShownAt(log, last, gone, logouts, id);
    }
  }

  lemma TickShown(log: seq<Input>, before: Memory, minDelta: int, readings: seq<Reading>,
                  events: seq<WireEvent>, after: Memory)
    requires LogMatches(log, before.last) && AllUsable(readings) && Tick(before, minDelta, readings, events, after)
    ensures LogMatches(log + Delivered(events), after.last)
  {
    var gone, seen := GoneAfter(before, minDelta, readings), RememberAll(before, minDelta, readings);
    var observed := EmittedByAll(before, minDelta, readings);
    var logouts :| LogoutsOf(gone, logouts) && events == observed + logouts && after == Forget(seen, gone);
    ReadingsShown(log, before, minDelta, readings);
    LogoutsShown(log + Delivered(observed), seen.last, gone, logouts);
    DeliveredAppend(log, observed, logouts);
  }

  // ---- whole runs of the poller ----

  datatype Poll = Poll(readings: seq<Reading>, events: seq<WireEvent>, after: Memory)

  ghost predicate PollerRun(before: Memory, minDelta: int, polls: seq<Poll>)
    decreases |polls|
  {
    polls == [] ||
    (AllUsable(polls[0].readings) &&
     Tick(before, minDelta, polls[0].readings, polls[0].events, polls[0].after) &&
     PollerRun(polls[0].after, minDelta, polls[1..]))
  }

  function EventsOf(polls: seq<Poll>): seq<WireEvent> {
    if polls == [] then [] else polls[0].events + EventsOf(polls[1..])
  }

  // The number of the last reading of a player.
  function LastReading(readings: seq<Reading>, id: int32): (i: nat)
    requires id in IdsOf(readings)
    ensures i < |readings| && readings[i].snapshot.objectId == id
    ensures forall j :: i < j < |readings| ==> readings[j].snapshot.objectId != id
  {
    if readings[|readings| - 1].snapshot.objectId == id then |readings| - 1
    else LastReading(readings[..|readings| - 1], id)
  }

  // The players that were read, each with its last snapshot.
  function SeenIn(readings: seq<Reading>): map<int32, Snapshot> {
    map id | id in IdsOf(readings) :: readings[LastReading(readings, id)].snapshot
  }

  // The players of the last poll, as it read them.
  function Online(polls: seq<Poll>): map<int32, Snapshot> {
    if polls == [] then map[] else SeenIn(polls[|polls| - 1].readings)
  }

  // What the poller remembers in the end.
  function MemoryAfter(before: Memory, polls: seq<Poll>): Memory
    decreases |polls|
  {
    if polls == [] then before else MemoryAfter(polls[0].after, polls[1..])
  }

  // ---- the poller remembers the players of its last poll and nobody else ----

  lemma SeenLastAt(readings: seq<Reading>, id: int32)
    requires readings != []
    ensures var front, s := readings[..|readings| - 1], readings[|readings| - 1].snapshot;
            && (id in IdsOf(readings) <==> id == s.objectId || id in IdsOf(front))
            && (id in IdsOf(readings) ==>
                  SeenIn(readings)[id] == if id == s.objectId then s else SeenIn(front)[id])
  {
    var n := |readings| - 1;
    assert readings[..n + 1] == readings;
    SnocIds(readings, n);
    if id in IdsOf(readings) && readings[n].snapshot.objectId != id {
      assert readings[..n][LastReading(readings[..n], id)] == readings[LastReading(readings[..n], id)];
    }
  }

  lemma SeenLast(readings: seq<Reading>)
    requires readings != []
    ensures var s := readings[|readings| - 1].snapshot;
            SeenIn(readings) == SeenIn(readings[..|readings| - 1])[s.objectId := s]
  {
    var front, s := readings[..|readings| - 1], readings[|readings| - 1].snapshot;
    var all, extended := SeenIn(readings), SeenIn(front)[s.objectId := s];
    forall id: int32
      ensures id in all <==> id in extended
      ensures id in all ==> all[id] == extended[id]
    {
      SeenLastAt(readings, id);
    }
  }

  lemma {:induction false} RememberedLast(m: Memory, minDelta: int, readings: seq<Reading>)
    requires readings != []
    ensures var r := readings[|readings| - 1];
            RememberAll(m, minDelta, readings) ==
            Remember(RememberAll(m, minDelta, readings[..|readings| - 1]), minDelta, r.snapshot, r.now)
    decreases |readings|
  {
    if |readings| == 1 {
    } else {
      var r, rest := readings[0], readings[1..];
      RememberedLast(Remember(m, minDelta, r.snapshot, r.now), minDelta, rest);
      assert readings[..|readings| - 1][1..] == rest[..|rest| - 1];
    }
  }

  lemma {:induction false} ReadingsRemembered(m: Memory, minDelta: int, readings: seq<Reading>)
    ensures RememberAll(m, minDelta, readings).last == m.last + SeenIn(readings)
    decreases |readings|
  {
    if readings == [] {
      assert SeenIn(readings) == map[];
    } else {
      var s, front := readings[|readings| - 1].snapshot, readings[..|readings| - 1];
      ReadingsRemembered(m, minDelta, front);
      RememberedLast(m, minDelta, readings);
      SeenLast(readings);
      RememberedToo(m.last, SeenIn(front), s);
    }
  }

  lemma RememberedToo(last: map<int32, Snapshot>, seen: map<int32, Snapshot>, s: Snapshot)
    ensures (last + seen)[s.objectId := s] == last + seen[s.objectId := s]
  {
  }

  lemma PollRemembered(before: Memory, minDelta: int, readings: seq<Reading>, events: seq<WireEvent>, after: Memory)
    requires Tick(before, minDelta, readings, events, after)
    ensures after.last == SeenIn(readings)
  {
    ReadingsRemembered(before, minDelta, readings);
    OnlySeenRemain(before.last, SeenIn(readings), IdsOf(readings));
  }

  lemma OnlySeenRemain(last: map<int32, Snapshot>, seen: map<int32, Snapshot>, ids: set<int32>)
    requires seen.Keys == ids
    ensures (last + seen) - ((last + seen).Keys - ids) == seen
  {
  }

  lemma {:induction false} LastPollRemembered(before: Memory, minDelta: int, polls: seq<Poll>)
    requires PollerRun(before, minDelta, polls) && polls != []
    ensures MemoryAfter(before, polls).last == Online(polls)
    decreases |polls|
  {
    PollRemembered(before, minDelta, polls[0].readings, polls[0].events, polls[0].after);
    if |polls| == 1 {
      assert MemoryAfter(polls[0].after, polls[1..]) == polls[0].after;
    } else {
      LastPollRemembered(polls[0].after, minDelta, polls[1..]);
      assert polls[1..][|polls| - 2] == polls[|polls| - 1];
    }
  }

  lemma OnlineRemembered(minDelta: int, polls: seq<Poll>)
    requires PollerRun(NOTHING_SEEN, minDelta, polls)
    ensures MemoryAfter(NOTHING_SEEN, polls).last == Online(polls)
  {
    if polls != [] {
      LastPollRemembered(NOTHING_SEEN, minDelta, polls);
    }
  }

  // ---- the log of a run shows the players of the last poll ----

  lemma {:induction false} PollsShown(log: seq<Input>, before: Memory, minDelta: int, polls: seq<Poll>)
    requires LogMatches(log, before.last) && PollerRun(before, minDelta, polls)
    ensures LogMatches(log + Delivered(EventsOf(polls)), MemoryAfter(before, polls).last)
    decreases |polls|
  {
    if polls == [] {
      assert log + Delivered([]) == log;
    } else {
      TickShown(log, before, minDelta, polls[0].readings, polls[0].events, polls[0].after);
      PollsShown(log + Delivered(polls[0].events), polls[0].after, minDelta, polls[1..]);
      DeliveredAppend(log, polls[0].events, EventsOf(polls[1..]));
    }
  }

  lemma RunShown(minDelta: int, polls: seq<Poll>)
    requires PollerRun(NOTHING_SEEN, minDelta, polls)
    ensures LogMatches(Delivered(EventsOf(polls)), Online(polls))
  {
    forall id: int32
      ensures LogMatchesAt([], NOTHING_SEEN.last, id)
    {
    }
    PollsShown([], NOTHING_SEEN, minDelta, polls);
    OnlineRemembered(minDelta, polls);
    assert [] + Delivered(EventsOf(polls)) == Delivered(EventsOf(polls));
  }

  // ---- interleavings ----

  lemma ShuffleShowsAt(m: seq<Input>, a: seq<Input>, b: seq<Input>, last: map<int32, Snapshot>, id: int32)
    requires Shuffle(m, a, b) && LogMatchesAt(a, last, id) && LogMatchesAt(b, last, id)
    requires a == b
    ensures LogMatchesAt(m, last, id)
  {
    if id in last {
      var s := last[id];
      ShuffleSettled(m, a, b, WritesClan(id, s.clanId, s.isClanLeader), SpoilsClan(id, s.clanId, s.isClanLeader));
      ShuffleSettled(m, a, b, WritesAlly(id, s.allyId), SpoilsAlly(id, s.allyId));
      ShuffleSettled(m, a, b, WritesParty(id, s.partyId), SpoilsParty(id, s.partyId));
      ShuffleMade(m, a, b, Brings(id), LogsOut(id), WritesInstance(id, s.instanceId), SpoilsInstance(id, s.instanceId));
    } else if Clean(a, BringsOrAuths(id)) {
      ShuffleClean(m, a, b, BringsOrAuths(id));
    } else {
      ShuffleSettled(m, a, b, LogsOut(id), BringsOrAuths(id));
    }
  }

  ghost predicate FromClients(inputs: seq<Input>) {
    forall i :: 0 <= i < |inputs| ==> !inputs[i].Deliver?
  }

  lemma ClientsShuffledIn(m: seq<Input>, log: seq<Input>, clients: seq<Input>, s: Snapshot)
    requires Shuffle(m, log, clients) && FromClients(clients) && LogShows(log, s)
    ensures LogShows(m, s)
  {
    var id := s.objectId;
    ShuffleSettledClean(m, log, clients, WritesClan(id, s.clanId, s.isClanLeader), SpoilsClan(id, s.clanId,
        s.isClanLeader));
    ShuffleSettledClean(m, log, clients, WritesAlly(id, s.allyId), SpoilsAlly(id, s.allyId));
    ShuffleSettledClean(m, log, clients, WritesParty(id, s.partyId), SpoilsParty(id, s.partyId));
    ShuffleMadeClean(m, log, clients, Brings(id), LogsOut(id), WritesInstance(id, s.instanceId),
                     SpoilsInstance(id, s.instanceId));
  }

  lemma AbsenceShuffledIn(m: seq<Input>, log: seq<Input>, clients: seq<Input>, id: int32)
    requires Shuffle(m, log, clients) && LogShowsAbsence(log, id) && Clean(clients, BringsOrAuths(id))
    ensures LogShowsAbsence(m, id)
  {
    if Clean(log, BringsOrAuths(id)) {
      ShuffleClean(m, log, clients, BringsOrAuths(id));
    } else {
      ShuffleSettledClean(m, log, clients, LogsOut(id), BringsOrAuths(id));
    }
  }

  // Both transports delivered everything: `inputs` is any interleaving of the poller's events
  // with themselves and with client activity.
  ghost predicate DeliveredTwice(inputs: seq<Input>, events: seq<WireEvent>, both: seq<Input>, clients: seq<Input>) {
    && Shuffle(both, Delivered(events), Delivered(events))
    && Shuffle(inputs, both, clients)
    && FromClients(clients)
  }

  // One transport delivered everything.
  ghost predicate DeliveredOnce(inputs: seq<Input>, events: seq<WireEvent>, clients: seq<Input>) {
    Shuffle(inputs, Delivered(events), clients) && FromClients(clients)
  }

  ghost predicate Replicates(w: World, online: map<int32, Snapshot>) {
    forall id :: id in online ==> Mirrors(w, online[id])
  }
}
