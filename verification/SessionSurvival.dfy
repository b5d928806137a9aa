/** How long a voice session lasts while logouts may be delivered again. */
module SessionSurvival {
  import opened Types
  import Events
  import Topology

  datatype SessionInput = FromGame(event: Events.Event) | Local(op: Topology.Op)

  function StepSessions(t: Topology.Sessions, input: SessionInput): Topology.Sessions {
    match input
    case FromGame(e) => Events.ApplyToSessions(t, e)
    case Local(op) => Topology.Step(t, op)
  }

  function RunSessions(t: Topology.Sessions, inputs: seq<SessionInput>): Topology.Sessions
    decreases |inputs|
  {
    if inputs == [] then t else RunSessions(StepSessions(t, inputs[0]), inputs[1..])
  }

  function Allocations(inputs: seq<SessionInput>): nat {
    if inputs == [] then 0 else (if IsAlloc(inputs[0]) then 1 else 0) + Allocations(inputs[1..])
  }

  predicate IsAlloc(input: SessionInput) {
    input.Local? && input.op.Alloc?
  }

  // The player has this one session, and is found by it.
  ghost predicate OnlySession(t: Topology.Sessions, id: uint32, sid: uint32) {
    && sid in t.bySID && id in t.byPlayer && t.byPlayer[id] == sid
    && forall other :: other in t.bySID && t.bySID[other].playerId == id ==> other == sid
  }

  // Neither a new connection of the player nor the end of this one.
  ghost predicate LeavesAlone(input: SessionInput, id: uint32, sid: uint32) {
    input != Local(Topology.Alloc(id)) && input != Local(Topology.Close(sid))
  }

  ghost predicate HarmlessRun(t: Topology.Sessions, inputs: seq<SessionInput>)
    decreases |inputs|
  {
    inputs == [] ||
    ((inputs[0].Local? ==> Topology.Harmless(t, inputs[0].op)) &&
     HarmlessRun(StepSessions(t, inputs[0]), inputs[1..]))
  }

  lemma StepKeepsSound(t: Topology.Sessions, input: SessionInput)
    requires Topology.Sound(t) && (input.Local? ==> Topology.Harmless(t, input.op))
    ensures Topology.Sound(StepSessions(t, input))
  {
    match input
    case FromGame(e) =>
    case Local(op) => Topology.StepKeepsIndicesSoundIff(t, op);
  }

  lemma StepKeepsSession(t: Topology.Sessions, input: SessionInput, id: uint32, sid: uint32)
    requires Topology.Sound(t) && (IsAlloc(input) ==> Topology.NextId(t) != sid)
    requires OnlySession(t, id, sid) && LeavesAlone(input, id, sid)
    ensures var after := StepSessions(t, input);
            if input == FromGame(Events.Logout(id)) then sid !in after.bySID else OnlySession(after, id, sid)
  {
  }

  lemma StepTowards(t: Topology.Sessions, input: SessionInput, sid: uint32)
    ensures var n := Topology.UntilHandedOut(t.nextId, sid);
            && (n == 1 <==> Topology.NextId(t) == sid)
            && (IsAlloc(input) && n > 1 ==> Topology.UntilHandedOut(StepSessions(t, input).nextId, sid) == n - 1)
            && (!IsAlloc(input) ==> StepSessions(t, input).nextId == t.nextId)
  {
  }

  lemma {:induction false} StaysDropped(t: Topology.Sessions, inputs: seq<SessionInput>, sid: uint32)
    requires Allocations(inputs) < Topology.UntilHandedOut(t.nextId, sid) && sid !in t.bySID
    ensures sid !in RunSessions(t, inputs).bySID
    decreases |inputs|
  {
    if inputs == [] {
    } else {
      StepTowards(t, inputs[0], sid);
      StaysDropped(StepSessions(t, inputs[0]), inputs[1..], sid);
    }
  }

  // A player's only session lasts until a logout of the player is delivered, be it the
  // second delivery of one from before the session began.
  lemma {:induction false} SessionLastsUntilLogout(t: Topology.Sessions, inputs: seq<SessionInput>, id: uint32,
                                                   sid: uint32)
    requires Topology.Sound(t) && HarmlessRun(t, inputs) && OnlySession(t, id, sid)
    requires Allocations(inputs) < Topology.UntilHandedOut(t.nextId, sid)
    requires forall i :: 0 <= i < |inputs| ==> LeavesAlone(inputs[i], id, sid)
    ensures sid in RunSessions(t, inputs).bySID <==> FromGame(Events.Logout(id)) !in inputs
    decreases |inputs|
  {
    if inputs == [] {
    } else {
      var next := StepSessions(t, inputs[0]);
      assert inputs == [inputs[0]] + inputs[1..];
      assert LeavesAlone(inputs[0], id, sid);
      StepTowards(t, inputs[0], sid);
      StepKeepsSession(t, inputs[0], id, sid);
      StepKeepsSound(t, inputs[0]);
      if inputs[0] == FromGame(Events.Logout(id)) {
        StaysDropped(next, inputs[1..], sid);
      } else {
        SessionLastsUntilLogout(next, inputs[1..], id, sid);
      }
    }
  }

  // The first delivery of a logout ends the session, the player connects again, and the
  // second delivery ends that session too.
  lemma SecondLogoutDropsNewSession(t: Topology.Sessions, id: uint32, sid: uint32)
    requires Topology.Sound(t) && id != 0 && OnlySession(t, id, sid)
    ensures var again := Topology.AllocSession(Events.ApplyToSessions(t, Events.Logout(id)), id);
            && OnlySession(again, id, Topology.NextId(t))
            && Topology.NextId(t) !in Events.ApplyToSessions(again, Events.Logout(id)).bySID
  {
    assert Events.ApplyToSessions(t, Events.Logout(id)) == Topology.Drop(t, sid);
  }
}
