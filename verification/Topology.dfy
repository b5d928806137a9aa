/**
 * The table of voice sessions with its three indices, as a value. A pointer to a session
 * is modelled by its session id.
 */
module Topology {
  import opened Types

  datatype Session = Session(
    id: uint32,
    playerId: uint32,
    udpAddr: Option<string>,
    x: real, y: real, z: real,
    instanceId: uint32,
    positionKnown: bool)

  datatype Sessions = Sessions(
    nextId: uint32,
    bySID: map<uint32, Session>,
    byUDP: map<string, uint32>,
    byPlayer: map<uint32, uint32>)

  const NO_SESSIONS := Sessions(0, map[], map[], map[])
  const ID_LIMIT := 0x1_0000_0000

  ghost predicate Sound(t: Sessions) {
    && (forall sid :: sid in t.bySID ==> t.bySID[sid].id == sid)
    && (forall a :: a in t.byUDP ==> t.byUDP[a] in t.bySID && t.bySID[t.byUDP[a]].udpAddr == Some(a))
    && (forall p :: p in t.byPlayer ==> p != 0 && t.byPlayer[p] in t.bySID && t.bySID[t.byPlayer[p]].playerId == p)
  }

  function LookupByPlayer(t: Sessions, player: uint32): Option<Session> {
    if player in t.byPlayer && t.byPlayer[player] in t.bySID then Some(t.bySID[t.byPlayer[player]]) else None
  }

  // The id counter is 32 bits wide and wraps.
  function NextId(t: Sessions): uint32 {
    (t.nextId + 1) % ID_LIMIT
  }

  function AllocSession(t: Sessions, player: uint32): Sessions {
    var id := NextId(t);
    var sess := Session(id, player, None, 0.0, 0.0, 0.0, 0, false);
    t.(nextId := id, bySID := t.bySID[id := sess],
       byPlayer := if player != 0 then t.byPlayer[player := id] else t.byPlayer)
  }

  // The audio path holds on to the session it looked up. If that has been dropped meanwhile,
  // `sess` is what is left of it, and its address enters the index all the same.
  function RememberUDP(t: Sessions, sess: Session, addr: string): Sessions {
    var live := sess.id in t.bySID;
    var known := if live then t.bySID[sess.id] else sess;
    var others := if known.udpAddr.Some? then t.byUDP - {known.udpAddr.value} else t.byUDP;
    t.(bySID := if live then t.bySID[sess.id := known.(udpAddr := Some(addr))] else t.bySID,
       byUDP := others[addr := sess.id])
  }

  function UpdatePosition(t: Sessions, sid: uint32, x: real, y: real, z: real, instanceId: uint32): Sessions {
    if sid !in t.bySID then t
    else
      t.(bySID := t.bySID[sid := t.bySID[sid].(x := x, y := y, z := z, instanceId := instanceId,
                                               positionKnown := true)])
  }

  function Drop(t: Sessions, sid: uint32): Sessions {
    if sid !in t.bySID then t
    else
      var sess := t.bySID[sid];
      t.(bySID := t.bySID - {sid},
         byUDP := if sess.udpAddr.Some? then t.byUDP - {sess.udpAddr.value} else t.byUDP,
         byPlayer := if sess.playerId != 0 then t.byPlayer - {sess.playerId} else t.byPlayer)
  }

  // ---- runs ----

  datatype Op =
    | Alloc(player: uint32)
    | Remember(sess: Session, addr: string)
    | Move(sid: uint32, x: real, y: real, z: real, instanceId: uint32)
    | Close(sid: uint32)

  function Step(t: Sessions, op: Op): Sessions {
    match op
    case Alloc(player) => AllocSession(t, player)
    case Remember(sess, addr) => RememberUDP(t, sess, addr)
    case Move(sid, x, y, z, instanceId) => UpdatePosition(t, sid, x, y, z, instanceId)
    case Close(sid) => Drop(t, sid)
  }

  function Run(t: Sessions, ops: seq<Op>): Sessions
    decreases |ops|
  {
    if ops == [] then t else Run(Step(t, ops[0]), ops[1..])
  }

  function Allocations(ops: seq<Op>): nat {
    if ops == [] then 0 else (if ops[0].Alloc? then 1 else 0) + Allocations(ops[1..])
  }

  // The index of addresses, or that of the other players, still names the id next to be handed out.
  ghost predicate NextIdNamed(t: Sessions, player: uint32) {
    || (exists a :: a in t.byUDP && t.byUDP[a] == NextId(t))
    || (exists p :: p in t.byPlayer && p != player && t.byPlayer[p] == NextId(t))
  }

  // Allocations that come round to an indexed id, and addresses remembered for a session no
  // longer live.
  ghost predicate Harmless(t: Sessions, op: Op) {
    match op
    case Alloc(player) => !NextIdNamed(t, player)
    case Remember(sess, _) => sess.id in t.bySID
    case _ => true
  }

  lemma StepKeepsIndicesSoundIff(t: Sessions, op: Op)
    requires Sound(t)
    ensures Sound(Step(t, op)) <==> Harmless(t, op)
  {
    match op
    case Alloc(player) => AllocKeepsIndicesSoundIff(t, player);
    case Remember(sess, addr) => RememberKeepsIndicesSoundIff(t, sess, addr);
    case Move(sid, x, y, z, instanceId) =>
    case Close(sid) =>
  }

  lemma RememberKeepsIndicesSoundIff(t: Sessions, sess: Session, addr: string)
    requires Sound(t)
    ensures Sound(RememberUDP(t, sess, addr)) <==> sess.id in t.bySID
  {
    assert RememberUDP(t, sess, addr).byUDP[addr] == sess.id;
  }

  lemma AllocKeepsIndicesSoundIff(t: Sessions, player: uint32)
    requires Sound(t)
    ensures Sound(AllocSession(t, player)) <==> !NextIdNamed(t, player)
  {
    var after, id := AllocSession(t, player), NextId(t);
    if a :| a in t.byUDP && t.byUDP[a] == id {
      assert after.bySID[after.byUDP[a]].udpAddr == None;
    } else if p :| p in t.byPlayer && p != player && t.byPlayer[p] == id {
      assert after.bySID[after.byPlayer[p]].playerId != p;
    }
  }

  ghost predicate SoundAt(t: Sessions, ops: seq<Op>, k: nat)
    requires k <= |ops|
  {
    Sound(Run(t, ops[..k]))
  }

  ghost predicate HarmlessAt(t: Sessions, ops: seq<Op>, k: nat)
    requires k < |ops|
  {
    Harmless(Run(t, ops[..k]), ops[k])
  }

  lemma {:induction false} RunOneMore(t: Sessions, ops: seq<Op>, op: Op)
    ensures Run(t, ops + [op]) == Step(Run(t, ops), op)
    decreases |ops|
  {
    if ops == [] {
      assert Run(Step(t, op), []) == Step(t, op);
    } else {
      assert (ops + [op])[1..] == ops[1..] + [op];
      RunOneMore(Step(t, ops[0]), ops[1..], op);
    }
  }

  // Over a whole run the indices only point to live sessions that carry the indexed player
  // or address if and only if every step is harmless.
  lemma {:induction false} RunKeepsIndicesSoundIff(t: Sessions, ops: seq<Op>)
    requires Sound(t)
    ensures (forall k :: 0 <= k <= |ops| ==> SoundAt(t, ops, k)) <==>
            (forall k :: 0 <= k < |ops| ==> HarmlessAt(t, ops, k))
  {
    SoundUpToIff(t, ops, |ops|);
  }

  lemma {:induction false} SoundUpToIff(t: Sessions, ops: seq<Op>, n: nat)
    requires Sound(t) && n <= |ops|
    ensures (forall k :: 0 <= k <= n ==> SoundAt(t, ops, k)) <==> (forall k :: 0 <= k < n ==> HarmlessAt(t, ops, k))
  {
    if n == 0 {
      assert SoundAt(t, ops, 0);
    } else {
      SoundUpToIff(t, ops, n - 1);
      SoundNextIff(t, ops, n - 1);
    }
  }

  lemma SoundNextIff(t: Sessions, ops: seq<Op>, k: nat)
    requires k < |ops|
    ensures SoundAt(t, ops, k) ==> (SoundAt(t, ops, k + 1) <==> HarmlessAt(t, ops, k))
  {
    assert ops[..k + 1] == ops[..k] + [ops[k]];
    RunOneMore(t, ops[..k], ops[k]);
    if SoundAt(t, ops, k) {
      StepKeepsIndicesSoundIff(Run(t, ops[..k]), ops[k]);
    }
  }

  // How many allocations it takes the counter to come to an id.
  function UntilHandedOut(nextId: uint32, sid: uint32): (n: nat)
    ensures 1 <= n <= ID_LIMIT
  {
    if nextId < sid then sid - nextId else sid - nextId + ID_LIMIT
  }

  // A dropped id is live again at some time of a run if and only if the counter comes round to it.
  lemma {:induction false} DroppedRevivesIff(t: Sessions, sid: uint32, ops: seq<Op>)
    requires sid !in t.bySID
    ensures (exists k :: 0 <= k <= |ops| && LiveAt(t, ops, k, sid)) <==>
            Allocations(ops) >= UntilHandedOut(t.nextId, sid)
    decreases |ops|
  {
    if ops == [] {
    } else {
      var next := Step(t, ops[0]);
      StepRevivesIff(t, sid, ops[0]);
      if sid in next.bySID {
        assert ops[..1][1..] == [] && LiveAt(t, ops, 1, sid);
      } else {
        DroppedRevivesIff(next, sid, ops[1..]);
        LiveLater(t, ops, sid);
      }
    }
  }

  ghost predicate LiveAt(t: Sessions, ops: seq<Op>, k: nat, sid: uint32)
    requires k <= |ops|
  {
    sid in Run(t, ops[..k]).bySID
  }

  lemma StepRevivesIff(t: Sessions, sid: uint32, op: Op)
    requires sid !in t.bySID
    ensures sid in Step(t, op).bySID <==> op.Alloc? && UntilHandedOut(t.nextId, sid) == 1
    ensures sid !in Step(t, op).bySID ==>
              UntilHandedOut(Step(t, op).nextId, sid) ==
              UntilHandedOut(t.nextId, sid) - (if op.Alloc? then 1 else 0)
  {
  }

  lemma LiveLater(t: Sessions, ops: seq<Op>, sid: uint32)
    requires ops != [] && sid !in t.bySID
    ensures (exists k :: 0 <= k <= |ops| && LiveAt(t, ops, k, sid)) <==>
            (exists k :: 0 <= k <= |ops| - 1 && LiveAt(Step(t, ops[0]), ops[1..], k, sid))
  {
    forall k | 0 <= k < |ops|
      ensures LiveAt(Step(t, ops[0]), ops[1..], k, sid) <==> LiveAt(t, ops, k + 1, sid)
    {
      assert ops[..k + 1][1..] == ops[1..][..k];
    }
    if k :| 0 <= k <= |ops| && LiveAt(t, ops, k, sid) {
      if k > 0 {
        assert LiveAt(Step(t, ops[0]), ops[1..], k - 1, sid);
      }
    }
    if k :| 0 <= k <= |ops| - 1 && LiveAt(Step(t, ops[0]), ops[1..], k, sid) {
      assert LiveAt(t, ops, k + 1, sid);
    }
  }

  // A player is looked up by its newest session; the sessions of others are unaffected if
  // the id handed out is free.
  lemma AllocatedIsFound(t: Sessions, player: uint32, other: uint32)
    requires Sound(t) && (other == player || NextId(t) !in t.bySID)
    ensures LookupByPlayer(AllocSession(t, player), other) ==
            if other == player && player != 0
            then Some(Session(NextId(t), player, None, 0.0, 0.0, 0.0, 0, false))
            else LookupByPlayer(t, other)
  {
  }

  // Every player with a live session can be looked up.
  ghost predicate PlayersFound(t: Sessions) {
    forall sid :: sid in t.bySID && t.bySID[sid].playerId != 0 ==> t.bySID[sid].playerId in t.byPlayer
  }

  // Dropping a session forgets its player altogether, so lookups stay complete exactly
  // when no other session of the same player is live.
  lemma DropKeepsPlayersFoundIff(t: Sessions, sid: uint32)
    requires Sound(t) && PlayersFound(t) && sid in t.bySID
    ensures PlayersFound(Drop(t, sid)) <==>
            t.bySID[sid].playerId == 0 ||
            forall other :: other in t.bySID && other != sid ==> t.bySID[other].playerId != t.bySID[sid].playerId
  {
    var p := t.bySID[sid].playerId;
    if other :| p != 0 && other in t.bySID && other != sid && t.bySID[other].playerId == p {
      assert other in Drop(t, sid).bySID && Drop(t, sid).bySID[other].playerId == p;
    }
  }

  // A player that connects twice and closes the first session is no longer found by the second.
  lemma SecondSessionIsLost(player: uint32)
    requires player != 0
    ensures var twice := Run(NO_SESSIONS, [Alloc(player), Alloc(player)]);
            && PlayersFound(twice) && 1 in twice.bySID
            && 2 in Drop(twice, 1).bySID && Drop(twice, 1).bySID[2].playerId == player
            && LookupByPlayer(Drop(twice, 1), player) == None
  {
    var once := AllocSession(NO_SESSIONS, player);
    assert Run(NO_SESSIONS, [Alloc(player), Alloc(player)]) == Run(once, [Alloc(player)]);
    assert Run(once, [Alloc(player)]) == Run(AllocSession(once, player), []);
    assert once.nextId == 1 && AllocSession(once, player).nextId == 2;
  }

  // ---- the operations, field by field ----

  // A new record under the next id, at the origin and without address; its player is found by it.
  lemma AllocChanges(t: Sessions, player: uint32)
    ensures var v, id := AllocSession(t, player), (t.nextId + 1) % 0x1_0000_0000;
            && v.nextId == id && v.byUDP == t.byUDP
            && v.bySID.Keys == t.bySID.Keys + {id}
            && v.bySID[id] == Session(id, player, None, 0.0, 0.0, 0.0, 0, false)
            && (forall other :: other in t.bySID && other != id ==> v.bySID[other] == t.bySID[other])
            && (player != 0 ==> player in v.byPlayer && v.byPlayer[player] == id)
            && (forall p :: p != player || p == 0 ==>
                  (p in v.byPlayer <==> p in t.byPlayer) && (p in t.byPlayer ==> v.byPlayer[p] == t.byPlayer[p]))
  {
  }

  // The address finds the session, which carries it, and the address it had no longer does.
  lemma RememberChanges(t: Sessions, sess: Session, addr: string)
    requires sess.id in t.bySID
    ensures var v, had := RememberUDP(t, sess, addr), t.bySID[sess.id].udpAddr;
            && v.nextId == t.nextId && v.byPlayer == t.byPlayer && v.bySID.Keys == t.bySID.Keys
            && v.bySID[sess.id] == t.bySID[sess.id].(udpAddr := Some(addr))
            && (forall other :: other in t.bySID && other != sess.id ==> v.bySID[other] == t.bySID[other])
            && addr in v.byUDP && v.byUDP[addr] == sess.id
            && forall a :: a != addr ==>
                 && (a in v.byUDP <==> a in t.byUDP && had != Some(a))
                 && (a in v.byUDP ==> v.byUDP[a] == t.byUDP[a])
  {
  }

  // The record goes, and with it its address and its player's entry in the indices.
  lemma DropChanges(t: Sessions, sid: uint32)
    ensures var v := Drop(t, sid);
            if sid !in t.bySID then v == t
            else
              && v.nextId == t.nextId && v.bySID == t.bySID - {sid}
              && (forall a :: a in v.byUDP <==> a in t.byUDP && t.bySID[sid].udpAddr != Some(a))
              && (forall a :: a in v.byUDP ==> v.byUDP[a] == t.byUDP[a])
              && (forall p :: p in v.byPlayer <==> p in t.byPlayer && (p != t.bySID[sid].playerId || p == 0))
              && (forall p :: p in v.byPlayer ==> v.byPlayer[p] == t.byPlayer[p])
  {
  }
}
