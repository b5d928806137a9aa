/**
 * When the reverse index and the speak permissions agree with the member lists of the
 * command channels.
 *
 * Rebuilding a channel reads the departed members through a slice that the new members
 * have already been written over, so a departure can go unnoticed. Coherence is lost
 * exactly then, and never when the old list is copied first.
 */
module ChannelCoherence {
  import opened Types
  import opened Worlds

  ghost predicate Coherent(chs: Channels) {
    && (forall p :: p in chs.playerCC ==>
          chs.playerCC[p] in chs.ccs && p in chs.ccs[chs.playerCC[p]].memberIds)
    && (forall c, p :: c in chs.ccs && p in chs.ccs[c].speak ==> p in chs.ccs[c].memberIds)
  }

  // Whoever the rebuild drops either sits in the part of the old list that the new one
  // does not overwrite, or has nothing to be cleaned up. Checkable before the call.
  ghost predicate DeparturesSeen(chs: Channels, ccId: uint32, members: seq<uint32>) {
    var cc := ChannelOrNew(chs, ccId);
    |members| <= cc.capacity ==>
      forall p :: p in cc.memberIds && p !in members ==>
        || (exists i :: |members| <= i < |cc.memberIds| && cc.memberIds[i] == p)
        || (p !in cc.speak && !(p in chs.playerCC && chs.playerCC[p] == ccId))
  }

  lemma SeenOfOld(chs: Channels, ccId: uint32, members: seq<uint32>, p: uint32)
    requires p !in members
    ensures var cc := ChannelOrNew(chs, ccId);
            p in OldAsSeen(cc.memberIds, cc.capacity, members) <==>
            if |members| <= cc.capacity then exists i :: |members| <= i < |cc.memberIds| && cc.memberIds[i] == p
            else p in cc.memberIds
  {
  }

  // Rebuilding keeps coherence exactly when it sees every departure it must clean up.
  lemma RebuildCoherent(chs: Channels, ccId: uint32, leaderId: uint32, members: seq<uint32>,
                        seen: set<uint32>, grow: Allocator)
    requires Coherent(chs)
    ensures var cc := ChannelOrNew(chs, ccId);
            Coherent(Rebuild(chs, ccId, leaderId, members, seen, grow)) <==>
            forall p :: p in cc.memberIds && p !in members && p !in seen ==>
              p !in cc.speak && !(p in chs.playerCC && chs.playerCC[p] == ccId)
  {
    var cc, after := ChannelOrNew(chs, ccId), Rebuild(chs, ccId, leaderId, members, seen, grow);
    assert forall p :: p in cc.speak ==> p in cc.memberIds;
    forall p | p in cc.memberIds && p !in members && p !in seen
      ensures p in cc.speak ==> p in after.ccs[ccId].speak
      ensures p in chs.playerCC && chs.playerCC[p] == ccId ==> p in after.playerCC && after.playerCC[p] == ccId
    {
    }
  }

  lemma UpsertCoherentIff(chs: Channels, ccId: uint32, leaderId: uint32, members: seq<uint32>, grow: Allocator)
    requires Coherent(chs)
    ensures Coherent(UpsertChannel(chs, ccId, leaderId, members, grow)) <==> DeparturesSeen(chs, ccId, members)
  {
    var cc := ChannelOrNew(chs, ccId);
    RebuildCoherent(chs, ccId, leaderId, members, ElementsOf(OldAsSeen(cc.memberIds, cc.capacity, members)), grow);
    forall p | p !in members
      ensures p in OldAsSeen(cc.memberIds, cc.capacity, members) <==>
              if |members| <= cc.capacity then exists i :: |members| <= i < |cc.memberIds| && cc.memberIds[i] == p
              else p in cc.memberIds
    {
      SeenOfOld(chs, ccId, members, p);
    }
  }

  lemma DocumentedUpsertCoherent(chs: Channels, ccId: uint32, leaderId: uint32, members: seq<uint32>, grow: Allocator)
    requires Coherent(chs)
    ensures Coherent(UpsertChannelAsDocumented(chs, ccId, leaderId, members, grow))
  {
  }

  // ---- whole runs ----

  datatype Operation =
    | Upsert(ccId: uint32, leaderId: uint32, members: seq<uint32>)
    | Dissolve(ccId: uint32)
    | Grant(ccId: uint32, target: uint32, allow: bool)
    | Logout(player: uint32)

  function Step(chs: Channels, op: Operation, grow: Allocator): Channels {
    match op
    case Upsert(ccId, leaderId, members) => UpsertChannel(chs, ccId, leaderId, members, grow)
    case Dissolve(ccId) => DissolveChannel(chs, ccId)
    case Grant(ccId, target, allow) => SetSpeakPermission(chs, ccId, target, allow)
    case Logout(player) => LeaveChannel(chs, player)
  }

  function Run(chs: Channels, ops: seq<Operation>, grow: Allocator): Channels {
    if ops == [] then chs else Step(Run(chs, ops[..|ops| - 1], grow), ops[|ops| - 1], grow)
  }

  lemma StepCoherentIff(chs: Channels, op: Operation, grow: Allocator)
    requires Coherent(chs)
    ensures Coherent(Step(chs, op, grow)) <==> (op.Upsert? ==> DeparturesSeen(chs, op.ccId, op.members))
  {
    match op
    case Upsert(ccId, leaderId, members) => UpsertCoherentIff(chs, ccId, leaderId, members, grow);
    case Dissolve(ccId) =>
    case Grant(ccId, target, allow) =>
    case Logout(player) => LeaveCoherent(chs, player);
  }

  lemma LeaveCoherent(chs: Channels, id: uint32)
    requires Coherent(chs)
    ensures Coherent(LeaveChannel(chs, id))
  {
  }

  const NO_CHANNELS := Channels(map[], map[])

  ghost predicate CoherentAt(ops: seq<Operation>, k: nat, grow: Allocator)
    requires k <= |ops|
  {
    Coherent(Run(NO_CHANNELS, ops[..k], grow))
  }

  ghost predicate SeesDeparturesAt(ops: seq<Operation>, k: nat, grow: Allocator)
    requires k < |ops|
  {
    ops[k].Upsert? ==> DeparturesSeen(Run(NO_CHANNELS, ops[..k], grow), ops[k].ccId, ops[k].members)
  }

  // A run is coherent throughout exactly when each of its rebuilds sees its departures.
  lemma RunCoherentIff(ops: seq<Operation>, grow: Allocator)
    ensures (forall k :: 0 <= k <= |ops| ==> CoherentAt(ops, k, grow)) <==>
            (forall k :: 0 <= k < |ops| ==> SeesDeparturesAt(ops, k, grow))
  {
    RunCoherentUpTo(ops, |ops|, grow);
  }

  lemma {:induction false} RunCoherentUpTo(ops: seq<Operation>, n: nat, grow: Allocator)
    requires n <= |ops|
    ensures (forall k :: 0 <= k <= n ==> CoherentAt(ops, k, grow)) <==>
            (forall k :: 0 <= k < n ==> SeesDeparturesAt(ops, k, grow))
  {
    if n == 0 {
      assert CoherentAt(ops, 0, grow);
    } else {
      RunCoherentUpTo(ops, n - 1, grow);
      CoherentNextIff(ops, n - 1, grow);
    }
  }

  lemma CoherentNextIff(ops: seq<Operation>, k: nat, grow: Allocator)
    requires k < |ops|
    ensures CoherentAt(ops, k, grow) ==> (CoherentAt(ops, k + 1, grow) <==> SeesDeparturesAt(ops, k, grow))
  {
    if CoherentAt(ops, k, grow) {
      assert ops[..k + 1][..k] == ops[..k];
      StepCoherentIff(Run(NO_CHANNELS, ops[..k], grow), ops[k], grow);
    }
  }

  // With departures read from a copy, as the comment has it, every run stays coherent.
  function DocumentedRun(ops: seq<Operation>, grow: Allocator): Channels {
    if ops == [] then NO_CHANNELS
    else
      var before := DocumentedRun(ops[..|ops| - 1], grow);
      match ops[|ops| - 1]
      case Upsert(ccId, leaderId, members) => UpsertChannelAsDocumented(before, ccId, leaderId, members, grow)
      case op => Step(before, op, grow)
  }

  lemma {:induction false} DocumentedRunCoherent(ops: seq<Operation>, grow: Allocator)
    ensures Coherent(DocumentedRun(ops, grow))
  {
    if ops == [] {
    } else {
      var before, op := DocumentedRun(ops[..|ops| - 1], grow), ops[|ops| - 1];
      DocumentedRunCoherent(ops[..|ops| - 1], grow);
      match op {
        case Upsert(ccId, leaderId, members) => DocumentedUpsertCoherent(before, ccId, leaderId, members, grow);
        case _ => StepCoherentIff(before, op, grow);
      }
    }
  }

  // ---- what coherence gives, and what its loss costs ----

  lemma CoherentSpeakersAreMembers(chs: Channels, id: uint32)
    requires Coherent(chs)
    ensures SpeakAllowed(chs, id) <==>
            exists c :: c in chs.ccs && id in chs.playerCC && chs.playerCC[id] == c &&
                        id in chs.ccs[c].memberIds && (id == chs.ccs[c].leaderId || id in chs.ccs[c].speak)
  {
  }

  lemma DissolvedChannelIsForgotten(chs: Channels, ccId: uint32)
    requires Coherent(chs)
    ensures Coherent(DissolveChannel(chs, ccId))
    ensures forall p :: p in DissolveChannel(chs, ccId).playerCC ==> DissolveChannel(chs, ccId).playerCC[p] != ccId
  {
  }

  // A player leaving its channel is really out of it exactly when its entries of the list
  // reach past the entries of those who stay.
  lemma LeavingTakesEffectIff(chs: Channels, id: uint32, grow: Allocator)
    requires Coherent(chs) && ChannelsWellFormed(chs) && id in chs.playerCC
    ensures var ms := chs.ccs[chs.playerCC[id]].memberIds;
            id !in LeaveOwnChannel(chs, id, grow).playerCC <==>
            exists i :: |Without(ms, id)| <= i < |ms| && ms[i] == id
  {
    var cc := chs.ccs[chs.playerCC[id]];
    var rest := Without(cc.memberIds, id);
    if rest == [] {
      assert exists i :: 0 <= i < |cc.memberIds| && cc.memberIds[i] == id;
    } else {
      SeenOfOld(chs, cc.id, rest, id);
    }
  }

  lemma {:induction false} WithoutLength(s: seq<uint32>, id: uint32)
    requires forall i, j :: 0 <= i < j < |s| ==> s[i] != s[j]
    ensures |Without(s, id)| == if id in s then |s| - 1 else |s|
  {
    if s == [] {
    } else {
      var front := s[..|s| - 1];
      assert s == front + [s[|s| - 1]];
      WithoutLength(front, id);
    }
  }

  // So in a list without repetitions: exactly when it is the last of the list.
  lemma LeavingTakesEffectIffLast(chs: Channels, id: uint32, grow: Allocator)
    requires Coherent(chs) && ChannelsWellFormed(chs) && id in chs.playerCC
    requires var ms := chs.ccs[chs.playerCC[id]].memberIds;
             forall i, j :: 0 <= i < j < |ms| ==> ms[i] != ms[j]
    ensures var ms := chs.ccs[chs.playerCC[id]].memberIds;
            id !in LeaveOwnChannel(chs, id, grow).playerCC <==> ms[|ms| - 1] == id
  {
    LeavingTakesEffectIff(chs, id, grow);
    WithoutLength(chs.ccs[chs.playerCC[id]].memberIds, id);
  }

  // The guard can fail: in a three-member channel the first member, holding a grant,
  // leaves. It is off the list, yet still mapped to the channel and allowed to speak.
  const TRIO_SETUP := [Upsert(1, 12, [10, 11, 12]), Grant(1, 10, true)]

  function Trio(grow: Allocator): Channels {
    var cc := CommandChannel(1, 12, [10, 11, 12], Capacity(grow, 0, 3), {10});
    Channels(map[1 := cc], map[10 := 1, 11 := 1, 12 := 1])
  }

  // The channel before its leader grants anything.
  function Founded(grow: Allocator): Channels {
    Channels(map[1 := CommandChannel(1, 12, [10, 11, 12], Capacity(grow, 0, 3), {})], map[10 := 1, 11 := 1, 12 := 1])
  }

  lemma TrioFounded(grow: Allocator)
    ensures UpsertChannel(NO_CHANNELS, 1, 12, [10, 11, 12], grow) == Founded(grow)
  {
    var members: seq<uint32> := [10, 11, 12];
    var after := UpsertChannel(NO_CHANNELS, 1, 12, members, grow);
    var seen := ElementsOf(OldAsSeen([], 0, members));
    assert seen == {};
    assert after == Rebuild(NO_CHANNELS, 1, 12, members, seen, grow);
    assert seen - ElementsOf(members) == {};
    assert after.ccs[1] == CommandChannel(1, 12, members, Capacity(grow, 0, 3), {});
    assert after.ccs == Founded(grow).ccs;
    assert after.playerCC == Founded(grow).playerCC;
  }

  lemma TrioReached(grow: Allocator)
    ensures Run(NO_CHANNELS, TRIO_SETUP, grow) == Trio(grow)
  {
    var ops := TRIO_SETUP;
    assert ops[..1] == [ops[0]] && ops[..1][..0] == [];
    TrioFounded(grow);
    assert Run(NO_CHANNELS, ops[..1], grow) == Founded(grow);
    GrantedTrio(grow);
  }

  lemma GrantedTrio(grow: Allocator)
    ensures Step(Founded(grow), Grant(1, 10, true), grow) == Trio(grow)
  {
    assert {} + {10} == {10};
  }

  lemma TrioWithoutFirst(grow: Allocator)
    ensures LeaveOwnChannel(Trio(grow), 10, grow) == UpsertChannel(Trio(grow), 1, 12, [11, 12], grow)
  {
    assert [10, 11, 12] == [10] + ([11] + [12]) && [11, 12] == [11] + [12];
    WithoutJoin([10], [11] + [12], 10);
    WithoutJoin([11], [12], 10);
    WithoutOne(10, 10);
    WithoutOne(11, 10);
    WithoutOne(12, 10);
  }

  // Whatever the runtime's growth of slices.
  lemma DepartedSpeakerKeepsSpeaking(grow: Allocator)
    ensures var after := LeaveOwnChannel(Run(NO_CHANNELS, TRIO_SETUP, grow), 10, grow);
            1 in after.ccs && 10 !in after.ccs[1].memberIds && SpeakAllowed(after, 10)
  {
    TrioReached(grow);
    TrioWithoutFirst(grow);
    OverwrittenTrio(Trio(grow), grow);
  }

  lemma OverwrittenTrio(chs: Channels, grow: Allocator)
    requires chs == Trio(grow)
    ensures var after := UpsertChannel(chs, 1, 12, [11, 12], grow);
            1 in after.ccs && 10 !in after.ccs[1].memberIds && SpeakAllowed(after, 10)
  {
    assert OldAsSeen([10, 11, 12], Capacity(grow, 0, 3), [11, 12]) == [11, 12, 12];
    assert 10 !in ElementsOf([11, 12, 12]);
  }

  lemma DocumentedDepartureIsSilenced(grow: Allocator)
    ensures !SpeakAllowed(UpsertChannelAsDocumented(Trio(grow), 1, 12, [11, 12], grow), 10)
  {
    assert 10 in ElementsOf([10, 11, 12]) - ElementsOf([11, 12]);
  }
}
