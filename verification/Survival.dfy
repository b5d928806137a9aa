/**
 * How long the state lasts that only the service holds: a player's own preferences, and its
 * rank, its clan's mode and the remote mutes between it and others.
 */
module Survival {
  import opened Types
  import opened Worlds
  import opened Commands
  import opened Bridge
  import opened LastWriter
  import opened Replication

  // ---- what ends a state, and what only a client changes ----

  type Claim = World -> bool
  type Change = (World, Input) -> bool

  // No input of the run is such a change.
  ghost predicate Unchanged(w: World, inputs: seq<Input>, change: Change, grow: Allocator)
    decreases |inputs|
  {
    inputs == [] || (!change(w, inputs[0]) && Unchanged(Step(w, inputs[0], grow), inputs[1..], change, grow))
  }

  ghost predicate HoldsUnless(claim: Claim, ends: Test, change: Change, grow: Allocator) {
    forall w, input {:trigger Step(w, input, grow)} ::
      claim(w) && !ends(input) && !change(w, input) ==> claim(Step(w, input, grow))
  }

  ghost predicate EndsIn(claim: Claim, ends: Test, over: Claim, grow: Allocator) {
    forall w, input {:trigger Step(w, input, grow)} :: claim(w) && ends(input) ==> over(Step(w, input, grow))
  }

  function Never(): Test {
    (input: Input) => false
  }

  lemma {:induction false} StaysOver(w: World, inputs: seq<Input>, over: Claim, change: Change, grow: Allocator)
    requires over(w) && HoldsUnless(over, Never(), change, grow) && Unchanged(w, inputs, change, grow)
    ensures over(Run(w, inputs, grow))
    decreases |inputs|
  {
    if inputs == [] {
    } else {
      StaysOver(Step(w, inputs[0], grow), inputs[1..], over, change, grow);
    }
  }

  lemma {:induction false} HoldsOrIsOver(w: World, inputs: seq<Input>, claim: Claim, over: Claim, ends: Test,
                                         change: Change, grow: Allocator)
    requires claim(w) && Unchanged(w, inputs, change, grow)
    requires HoldsUnless(claim, ends, change, grow) && EndsIn(claim, ends, over, grow)
    requires HoldsUnless(over, Never(), change, grow)
    ensures if Clean(inputs, ends) then claim(Run(w, inputs, grow)) else over(Run(w, inputs, grow))
    decreases |inputs|
  {
    if inputs == [] {
    } else if ends(inputs[0]) {
      assert !change(w, inputs[0]);
      StaysOver(Step(w, inputs[0], grow), inputs[1..], over, change, grow);
    } else {
      HoldsOrIsOver(Step(w, inputs[0], grow), inputs[1..], claim, over, ends, change, grow);
    }
  }

  // ---- preferences ----

  function PrefsOf(w: World, id: uint32): Option<Prefs> {
    if id in w.players then Some(w.players[id].prefs) else None
  }

  function OwnPrefs(id: int32): Change {
    (w: World, input: Input) => input.Client? && input.actor == id && input.cmd.ChangePrefs?
  }

  // Until the player changes them itself, its preferences last until a logout of it is
  // delivered, and are then the defaults for as long as it is known.
  lemma PrefsLastUntilLogout(w: World, id: int32, inputs: seq<Input>, grow: Allocator)
    requires 0 <= id && id in w.players && Unchanged(w, inputs, OwnPrefs(id), grow)
    ensures var after := PrefsOf(Run(w, inputs, grow), id);
            if Clean(inputs, LogsOut(id)) then after == PrefsOf(w, id)
            else after == None || after == Some(DEFAULT_PREFS)
  {
    var prefs := PrefsOf(w, id);
    var kept := (v: World) => PrefsOf(v, id) == prefs && id in v.players;
    var reset := (v: World) => PrefsOf(v, id) == None || PrefsOf(v, id) == Some(DEFAULT_PREFS);
    forall v, input
      ensures kept(v) && !LogsOut(id)(input) && !OwnPrefs(id)(v, input) ==> kept(Step(v, input, grow))
      ensures kept(v) && LogsOut(id)(input) ==> reset(Step(v, input, grow))
      ensures reset(v) && !OwnPrefs(id)(v, input) ==> reset(Step(v, input, grow))
    {
      StepOnPrefs(v, id, input, grow);
    }
    HoldsOrIsOver(w, inputs, kept, reset, LogsOut(id), OwnPrefs(id), grow);
  }

  lemma StepOnPrefs(w: World, id: int32, input: Input, grow: Allocator)
    requires 0 <= id
    ensures !OwnPrefs(id)(w, input) ==>
              var after := PrefsOf(Step(w, input, grow), id);
              if LogsOut(id)(input) then after == None
              else if id in w.players then after == PrefsOf(w, id)
              else after == None || after == Some(DEFAULT_PREFS)
  {
    match input {
      case Deliver(event) =>
        match Decode(event) {
          case None =>
          case Some(e) => EventOnPrefs(w, id, e, grow);
        }
      case Client(actor, cmd) => ExecOnPrefs(w, id, actor, cmd);
      case Auth(player, sid) =>
    }
  }

  lemma ExecOnPrefs(w: World, id: uint32, actor: uint32, cmd: Command)
    ensures !(actor == id && cmd.ChangePrefs?) ==> PrefsOf(Exec(w, actor, cmd), id) == PrefsOf(w, id)
  {
  }

  lemma EventOnPrefs(w: World, id: uint32, e: Events.Event, grow: Allocator)
    ensures var after := PrefsOf(Events.ApplyToWorld(w, e, grow), id);
            if e == Events.Logout(id) then after == None
            else if id in w.players then after == PrefsOf(w, id)
            else after == None || after == Some(DEFAULT_PREFS)
  {
  }

  // ---- what the player's clan owes it: rank, mode and mutes ----

  predicate IsSubLeader(w: World, c: uint32, id: uint32) {
    c in w.clans && id in w.clans[c].subLeaders
  }

  predicate InClan(w: World, id: uint32, c: uint32) {
    id in w.players && w.players[id].clanId == c
  }

  function Promotion(c: uint32, id: int32): Change {
    (w: World, input: Input) =>
      input.Client? && input.cmd.ClanPromote? && input.cmd.target == id && InClan(w, input.actor, c)
  }

  // A known sub-leader nobody in the clan promotes or demotes stays one until it logs out,
  // and then is one no more.
  lemma RankLastsUntilLogout(w: World, c: uint32, id: int32, inputs: seq<Input>, grow: Allocator)
    requires 0 <= id && id in w.players && IsSubLeader(w, c, id)
    requires Unchanged(w, inputs, Promotion(c, id), grow)
    ensures IsSubLeader(Run(w, inputs, grow), c, id) <==> Clean(inputs, LogsOut(id))
  {
    var ranked := (v: World) => id in v.players && IsSubLeader(v, c, id);
    var plain := (v: World) => !IsSubLeader(v, c, id);
    forall v, input
      ensures ranked(v) && !LogsOut(id)(input) && !Promotion(c, id)(v, input) ==> ranked(Step(v, input, grow))
      ensures ranked(v) && LogsOut(id)(input) ==> plain(Step(v, input, grow))
      ensures plain(v) && !Promotion(c, id)(v, input) ==> plain(Step(v, input, grow))
    {
      StepOnRank(v, c, id, input, grow);
    }
    HoldsOrIsOver(w, inputs, ranked, plain, LogsOut(id), Promotion(c, id), grow);
  }

  lemma StepOnRank(w: World, c: uint32, id: int32, input: Input, grow: Allocator)
    requires 0 <= id
    ensures var after := Step(w, input, grow);
            && (!Promotion(c, id)(w, input) && !IsSubLeader(w, c, id) ==> !IsSubLeader(after, c, id))
            && (id in w.players && LogsOut(id)(input) ==> !IsSubLeader(after, c, id))
            && (id in w.players && IsSubLeader(w, c, id) && !LogsOut(id)(input) && !Promotion(c, id)(w, input) ==>
                  id in after.players && IsSubLeader(after, c, id))
  {
    match input {
      case Deliver(event) =>
        match Decode(event) {
          case None =>
          case Some(e) => EventOnRank(w, c, id, e, grow);
        }
      case Client(actor, cmd) => ExecOnRank(w, c, id, actor, cmd);
      case Auth(player, sid) =>
    }
  }

  lemma ExecOnRank(w: World, c: uint32, id: uint32, actor: uint32, cmd: Command)
    ensures !(cmd.ClanPromote? && cmd.target == id && InClan(w, actor, c)) ==>
              (IsSubLeader(Exec(w, actor, cmd), c, id) <==> IsSubLeader(w, c, id))
    ensures id in w.players ==> id in Exec(w, actor, cmd).players
  {
  }

  lemma EventOnRank(w: World, c: uint32, id: uint32, e: Events.Event, grow: Allocator)
    ensures var after := Events.ApplyToWorld(w, e, grow);
            && (!IsSubLeader(w, c, id) ==> !IsSubLeader(after, c, id))
            && (id in w.players ==>
                  if e == Events.Logout(id) then !IsSubLeader(after, c, id)
                  else id in after.players && (IsSubLeader(w, c, id) ==> IsSubLeader(after, c, id)))
  {
  }

  function ModeOf(w: World, c: uint32): uint8 {
    if c in w.clans then w.clans[c].mode else MODE_NONE
  }

  predicate SetBy(w: World, c: uint32, id: uint32) {
    c in w.clans && w.clans[c].modeSetBy == id
  }

  function ModeChange(c: uint32): Change {
    (w: World, input: Input) => input.Client? && input.cmd.ClanSetMode? && InClan(w, input.actor, c)
  }

  // A mode nobody in the clan changes lasts until a logout of its setter is delivered.
  lemma ModeLastsUntilLogout(w: World, c: uint32, id: int32, inputs: seq<Input>, grow: Allocator)
    requires 0 <= id && id in w.players && SetBy(w, c, id) && Unchanged(w, inputs, ModeChange(c), grow)
    ensures ModeOf(Run(w, inputs, grow), c) == if Clean(inputs, LogsOut(id)) then ModeOf(w, c) else MODE_NONE
  {
    var mode := ModeOf(w, c);
    var on := (v: World) => id in v.players && SetBy(v, c, id) && ModeOf(v, c) == mode;
    var off := (v: World) => ModeOf(v, c) == MODE_NONE;
    forall v, input
      ensures on(v) && !LogsOut(id)(input) && !ModeChange(c)(v, input) ==> on(Step(v, input, grow))
      ensures on(v) && LogsOut(id)(input) ==> off(Step(v, input, grow))
      ensures off(v) && !ModeChange(c)(v, input) ==> off(Step(v, input, grow))
    {
      StepOnMode(v, c, id, input, grow);
    }
    HoldsOrIsOver(w, inputs, on, off, LogsOut(id), ModeChange(c), grow);
  }

  lemma StepOnMode(w: World, c: uint32, id: int32, input: Input, grow: Allocator)
    requires 0 <= id
    ensures var after := Step(w, input, grow);
            && (!ModeChange(c)(w, input) && ModeOf(w, c) == MODE_NONE ==> ModeOf(after, c) == MODE_NONE)
            && (id in w.players && SetBy(w, c, id) && LogsOut(id)(input) ==> ModeOf(after, c) == MODE_NONE)
            && (id in w.players && SetBy(w, c, id) && !LogsOut(id)(input) && !ModeChange(c)(w, input) ==>
                  id in after.players && SetBy(after, c, id) && ModeOf(after, c) == ModeOf(w, c))
  {
    match input {
      case Deliver(event) =>
        match Decode(event) {
          case None =>
          case Some(e) => EventOnMode(w, c, id, e, grow);
        }
      case Client(actor, cmd) => ExecOnMode(w, c, id, actor, cmd);
      case Auth(player, sid) =>
    }
  }

  lemma ExecOnMode(w: World, c: uint32, id: uint32, actor: uint32, cmd: Command)
    ensures var after := Exec(w, actor, cmd);
            && (!(cmd.ClanSetMode? && InClan(w, actor, c)) ==>
                  ModeOf(after, c) == ModeOf(w, c) && (SetBy(after, c, id) <==> SetBy(w, c, id)))
            && (id in w.players ==> id in after.players)
  {
  }

  lemma EventOnMode(w: World, c: uint32, id: uint32, e: Events.Event, grow: Allocator)
    ensures var after := Events.ApplyToWorld(w, e, grow);
            && (ModeOf(w, c) == MODE_NONE ==> ModeOf(after, c) == MODE_NONE)
            && (id in w.players && SetBy(w, c, id) ==>
                  if e == Events.Logout(id) then ModeOf(after, c) == MODE_NONE
                  else id in after.players && SetBy(after, c, id) && ModeOf(after, c) == ModeOf(w, c))
  {
    match e
    case Logout(player) =>
      assert RemovePlayer(w, player).clans.Keys == w.clans.Keys;
    case _ =>
  }

  function MuteChange(muter: int32, target: int32): Change {
    (w: World, input: Input) =>
      input.Client? && input.actor == muter && input.cmd.ClanRemoteMute? && input.cmd.target == target
  }

  function EitherLogsOut(a: int32, b: int32): Test {
    (input: Input) => input == Deliver(WLogout(a)) || input == Deliver(WLogout(b))
  }

  // A remote mute its author does not touch lasts until a logout of author or target.
  lemma MuteLastsUntilLogout(w: World, muter: int32, target: int32, inputs: seq<Input>, grow: Allocator)
    requires 0 <= muter && 0 <= target && muter in w.players && target in w.players && (muter, target) in w.mutes
    requires Unchanged(w, inputs, MuteChange(muter, target), grow)
    ensures Authority.EntryOf(Run(w, inputs, grow), muter, target) ==
            if Clean(inputs, EitherLogsOut(muter, target)) then Authority.EntryOf(w, muter, target) else None
  {
    var entry := Authority.EntryOf(w, muter, target);
    var muted := (v: World) =>
      muter in v.players && target in v.players && Authority.EntryOf(v, muter, target) == entry;
    var unmuted := (v: World) => Authority.EntryOf(v, muter, target) == None;
    var ends, change := EitherLogsOut(muter, target), MuteChange(muter, target);
    forall v, input
      ensures muted(v) && !ends(input) && !change(v, input) ==> muted(Step(v, input, grow))
      ensures muted(v) && ends(input) ==> unmuted(Step(v, input, grow))
      ensures unmuted(v) && !change(v, input) ==> unmuted(Step(v, input, grow))
    {
      StepOnMute(v, muter, target, input, grow);
    }
    HoldsOrIsOver(w, inputs, muted, unmuted, ends, change, grow);
  }

  lemma StepOnMute(w: World, muter: int32, target: int32, input: Input, grow: Allocator)
    requires 0 <= muter && 0 <= target
    ensures var after, entry := Step(w, input, grow), Authority.EntryOf(w, muter, target);
            && (!MuteChange(muter, target)(w, input) && entry == None ==>
                  Authority.EntryOf(after, muter, target) == None)
            && (muter in w.players && target in w.players && EitherLogsOut(muter, target)(input) ==>
                  Authority.EntryOf(after, muter, target) == None)
            && (muter in w.players && target in w.players && !EitherLogsOut(muter, target)(input) &&
                !MuteChange(muter, target)(w, input) ==>
                  muter in after.players && target in after.players &&
                  Authority.EntryOf(after, muter, target) == entry)
  {
    match input {
      case Deliver(event) =>
        match Decode(event) {
          case None =>
          case Some(e) => EventOnMute(w, muter, target, e, grow);
        }
      case Client(actor, cmd) => ExecOnMute(w, muter, target, actor, cmd);
      case Auth(player, sid) =>
    }
  }

  lemma ExecOnMute(w: World, muter: uint32, target: uint32, actor: uint32, cmd: Command)
    ensures var after := Exec(w, actor, cmd);
            && (!(actor == muter && cmd.ClanRemoteMute? && cmd.target == target) ==>
                  Authority.EntryOf(after, muter, target) == Authority.EntryOf(w, muter, target))
            && (muter in w.players ==> muter in after.players) && (target in w.players ==> target in after.players)
  {
  }

  lemma EventOnMute(w: World, muter: uint32, target: uint32, e: Events.Event, grow: Allocator)
    ensures var after, entry := Events.ApplyToWorld(w, e, grow), Authority.EntryOf(w, muter, target);
            && (entry == None ==> Authority.EntryOf(after, muter, target) == None)
            && (muter in w.players && target in w.players ==>
                  if e == Events.Logout(muter) || e == Events.Logout(target) then
                    Authority.EntryOf(after, muter, target) == None
                  else
                    muter in after.players && target in after.players &&
                    Authority.EntryOf(after, muter, target) == entry)
  {
  }
}
