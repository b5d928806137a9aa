/**
 * Client commands: the authorization checks, what each command does to the world when it
 * is accepted, and what no sequence of commands can do.
 */
module Commands {
  import opened Types
  import opened Worlds
  import opened WorldStates

  datatype ScopeArg = OnClan | OnAlly | BadScopeName

  datatype PrefsChange =
    | SetChannelEnabled(channel: uint8, enabled: bool)
    | SetChannelVolume(channel: uint8, volume: real)
    | SetPlayerMute(target: uint32, muted: bool)
    | SetPlayerVolume(target: uint32, volume: real)
    | WhisperSet(mode: uint8, key: int)

  datatype Command =
    | ChangePrefs(change: PrefsChange)
    | ClanPromote(target: uint32, promote: bool)
    | ClanSetMode(mode: uint8)
    | ClanRemoteMute(target: uint32, muted: bool, scope: ScopeArg)
    | ClanOptOut(optOut: bool)
    | CCGrantSpeak(target: uint32, granted: bool)

  datatype Error =
    | UnknownPlayer | UnknownTarget | NoClan | NotSameClan | NotInGroup | RequiresLeader
    | RequiresLeaderOrSub | CannotTargetSelf | TargetIsLeader | SubCannotTouchLeader | BadChannel
    | BadMode | BadWhisperMode | BadScope | NotInCC | RequiresCCLeader | TargetNotInCC | Ignored

  datatype Verdict = Allowed | Refused(error: Error)

  // ---- authorization ----

  function AuthzPromoteSubLeader(w: World, actor: uint32, target: uint32): Verdict {
    if actor !in w.players then Refused(UnknownPlayer)
    else if target !in w.players then Refused(UnknownTarget)
    else
      var a, t := w.players[actor], w.players[target];
      if a.clanId == 0 then Refused(NoClan)
      else if a.clanId != t.clanId then Refused(NotSameClan)
      else if !a.isLeader then Refused(RequiresLeader)
      else if actor == target then Refused(CannotTargetSelf)
      else if t.isLeader then Refused(TargetIsLeader)
      else Allowed
  }

  function AuthzLeaderOrSub(w: World, actor: uint32): Verdict {
    if actor !in w.players then Refused(UnknownPlayer)
    else if w.players[actor].clanId == 0 then Refused(NoClan)
    else if RoleOf(w, actor) == Member then Refused(RequiresLeaderOrSub)
    else Allowed
  }

  function AuthzRemoteMute(w: World, actor: uint32, target: uint32, scope: ScopeArg): Verdict {
    if AuthzLeaderOrSub(w, actor).Refused? then AuthzLeaderOrSub(w, actor)
    else if target !in w.players then Refused(UnknownTarget)
    else if actor == target then Refused(CannotTargetSelf)
    else
      var a, t := w.players[actor], w.players[target];
      if scope == OnClan && t.clanId != a.clanId then Refused(NotSameClan)
      else if scope == OnAlly && (a.allyId == 0 || t.allyId != a.allyId) then Refused(NotInGroup)
      else if scope == BadScopeName then Refused(BadScope)
      else if RoleOf(w, actor) == SubLeader && RoleOf(w, target) != Member then Refused(SubCannotTouchLeader)
      else Allowed
  }

  function AuthzClanMode(w: World, actor: uint32, mode: uint8): Verdict {
    if AuthzLeaderOrSub(w, actor).Refused? then AuthzLeaderOrSub(w, actor)
    else if mode > MODE_FARM then Refused(BadMode)
    else Allowed
  }

  function AuthzWhisper(w: World, actor: uint32, mode: uint8): Verdict {
    if AuthzLeaderOrSub(w, actor).Refused? then AuthzLeaderOrSub(w, actor)
    else if mode > 2 then Refused(BadWhisperMode)
    else Allowed
  }

  function AuthzCCGrantSpeak(chs: Channels, actor: uint32, target: uint32): Verdict {
    if actor == target then Refused(CannotTargetSelf)
    else
      match ChannelOf(chs, actor)
      case None => Refused(NotInCC)
      case Some(cc) =>
        if cc.leaderId != actor then Refused(RequiresCCLeader)
        else
          match ChannelOf(chs, target)
          case None => Refused(TargetNotInCC)
          case Some(tcc) => if tcc.id != cc.id then Refused(TargetNotInCC) else Allowed
  }

  function ValidChannel(channel: uint8): Verdict {
    if channel <= CH_ALLY then Allowed else Refused(BadChannel)
  }

  function ClampVolume(v: real): (r: real)
    ensures 0.0 <= r <= 2.0
    ensures 0.0 <= v <= 2.0 ==> r == v
    ensures (v <= 0.0 ==> r == 0.0) && (v >= 2.0 ==> r == 2.0)
  {
    if v < 0.0 then 0.0 else if v > 2.0 then 2.0 else v
  }

  // ---- effects ----

  function CheckPrefs(w: World, actor: uint32, change: PrefsChange): Verdict {
    match change
    case SetChannelEnabled(channel, _) =>
      if ValidChannel(channel).Refused? then ValidChannel(channel)
      else if actor !in w.players then Refused(UnknownPlayer) else Allowed
    case SetChannelVolume(channel, _) =>
      if ValidChannel(channel).Refused? then ValidChannel(channel)
      else if actor !in w.players then Refused(Ignored) else Allowed
    case SetPlayerMute(target, _) =>
      if target == 0 || target == actor || actor !in w.players then Refused(Ignored) else Allowed
    case SetPlayerVolume(target, _) =>
      if target == 0 || target == actor || actor !in w.players then Refused(Ignored) else Allowed
    case WhisperSet(mode, _) => AuthzWhisper(w, actor, mode)
  }

  // Whether a command takes effect, and otherwise why not; Ignored stands for a handler
  // that returns without an answer.
  function Check(w: World, actor: uint32, cmd: Command): Verdict {
    match cmd
    case ChangePrefs(change) => CheckPrefs(w, actor, change)
    case ClanPromote(target, _) =>
      if AuthzPromoteSubLeader(w, actor, target).Refused? then AuthzPromoteSubLeader(w, actor, target)
      else if w.players[actor].clanId !in w.clans then Refused(UnknownTarget) else Allowed
    case ClanSetMode(mode) => AuthzClanMode(w, actor, mode)
    case ClanRemoteMute(target, _, scope) => AuthzRemoteMute(w, actor, target, scope)
    case ClanOptOut(_) => AuthzLeaderOrSub(w, actor)
    case CCGrantSpeak(target, _) =>
      if AuthzCCGrantSpeak(w.channels, actor, target).Refused? then AuthzCCGrantSpeak(w.channels, actor, target)
      else if !CanGrantSpeak(w.channels, w.channels.playerCC[actor], target) then Refused(TargetNotInCC)
      else Allowed
  }

  function NewPrefs(p: Prefs, change: PrefsChange): Prefs {
    match change
    case SetChannelEnabled(channel, enabled) =>
      if channel <= CH_ALLY then p.(channelEnabled := p.channelEnabled[channel := enabled]) else p
    case SetChannelVolume(channel, volume) =>
      if channel <= CH_ALLY then p.(channelVolume := p.channelVolume[channel := ClampVolume(volume)]) else p
    case SetPlayerMute(target, muted) => p.(muted := if muted then p.muted + {target} else p.muted - {target})
    case SetPlayerVolume(target, volume) => p.(playerVolume := p.playerVolume[target := ClampVolume(volume)])
    case WhisperSet(mode, key) => p.(whisperMode := mode, whisperKey := key)
  }

  function Exec(w: World, actor: uint32, cmd: Command): World {
    if Check(w, actor, cmd).Refused? then w
    else
      match cmd
      case ClanPromote(target, promote) => SetSubLeader(w, w.players[actor].clanId, target, promote)
      case ClanSetMode(mode) => SetClanMode(w, w.players[actor].clanId, mode, actor)
      case ClanRemoteMute(target, muted, scope) =>
        if muted then AddRemoteMute(w, actor, target, scope == OnClan, scope == OnAlly)
        else ClearRemoteMute(w, actor, target)
      case ClanOptOut(optOut) => SetClanOptOut(w, w.players[actor].clanId, optOut)
      case CCGrantSpeak(target, granted) =>
        w.(channels := SetSpeakPermission(w.channels, w.channels.playerCC[actor], target, granted))
      case ChangePrefs(change) => SetPrefs(w, actor, NewPrefs(w.players[actor].prefs, change))
  }

  // The players sent a fresh snapshot after a command.
  ghost function Told(w: World, actor: uint32, cmd: Command): set<uint32> {
    if Check(w, actor, cmd).Refused? then {}
    else
      match cmd
      case ClanPromote(_, _) => ClanMembers(w, w.players[actor].clanId)
      case ClanSetMode(_) => ClanMembers(w, w.players[actor].clanId) + AllyMembers(w, w.players[actor].allyId)
      case ClanRemoteMute(_, _, scope) =>
        ClanMembers(w, w.players[actor].clanId) +
        if scope == OnAlly then AllyMembers(w, w.players[actor].allyId) else {}
      case CCGrantSpeak(_, _) => ElementsOf(w.channels.ccs[w.channels.playerCC[actor]].memberIds)
      case _ => {}
  }

  // ---- handlers ----

  method Dispatch(ws: WorldState, actor: uint32, cmd: Command) returns (verdict: Verdict, told: set<uint32>)
    requires ws.Valid()
    modifies ws
    ensures ws.Valid()
    ensures ws.View() == Exec(old(ws.View()), actor, cmd)
    ensures verdict == Check(old(ws.View()), actor, cmd)
    ensures told == Told(old(ws.View()), actor, cmd)
  {
    told := {};
    match cmd
    case ChangePrefs(change) => verdict := HandlePrefs(ws, actor, change);
    case ClanPromote(target, promote) => verdict, told := HandleClanPromote(ws, actor, target, promote);
    case ClanSetMode(mode) => verdict, told := HandleClanSetMode(ws, actor, mode);
    case ClanRemoteMute(target, muted, scope) =>
      verdict, told := HandleClanRemoteMute(ws, actor, target, muted, scope);
    case ClanOptOut(optOut) =>
      verdict := CheckLeaderOrSub(ws, actor);
      if verdict.Allowed? {
        var _ := ws.SetClanOptOut(ws.players[actor].clanId, optOut);
      }
    case CCGrantSpeak(target, granted) => verdict, told := HandleCCGrantSpeak(ws, actor, target, granted);
  }

  method HandlePrefs(ws: WorldState, actor: uint32, change: PrefsChange) returns (verdict: Verdict)
    requires ws.Valid()
    modifies ws
    ensures ws.Valid() && ws.View() == Exec(old(ws.View()), actor, ChangePrefs(change))
    ensures verdict == CheckPrefs(old(ws.View()), actor, change)
  {
    match change {
      case SetChannelEnabled(channel, _) =>
        verdict := ValidChannel(channel);
        if verdict.Refused? { return; }
        if actor !in ws.players { return Refused(UnknownPlayer); }
      case SetChannelVolume(channel, _) =>
        verdict := ValidChannel(channel);
        if verdict.Refused? { return; }
        if actor !in ws.players { return Refused(Ignored); }
      case SetPlayerMute(target, _) =>
        if target == 0 || target == actor || actor !in ws.players { return Refused(Ignored); }
        verdict := Allowed;
      case SetPlayerVolume(target, _) =>
        if target == 0 || target == actor || actor !in ws.players { return Refused(Ignored); }
        verdict := Allowed;
      case WhisperSet(mode, _) =>
        verdict := CheckLeaderOrSub(ws, actor);
        if verdict.Refused? { return; }
        if mode > 2 { return Refused(BadWhisperMode); }
    }
    NewPrefsInRange(ws.players[actor].prefs, change);
    ws.SetPrefs(actor, NewPrefs(ws.players[actor].prefs, change));
  }

  method CheckLeaderOrSub(ws: WorldState, actor: uint32) returns (verdict: Verdict)
    ensures verdict == AuthzLeaderOrSub(ws.View(), actor)
  {
    if actor !in ws.players { return Refused(UnknownPlayer); }
    if ws.players[actor].clanId == 0 { return Refused(NoClan); }
    var role := ws.RoleOfPlayer(actor);
    verdict := if role == Member then Refused(RequiresLeaderOrSub) else Allowed;
  }

  method HandleClanPromote(ws: WorldState, actor: uint32, target: uint32, promote: bool)
    returns (verdict: Verdict, told: set<uint32>)
    requires ws.Valid()
    modifies ws
    ensures ws.Valid() && ws.View() == Exec(old(ws.View()), actor, ClanPromote(target, promote))
    ensures verdict == Check(old(ws.View()), actor, ClanPromote(target, promote))
    ensures told == Told(old(ws.View()), actor, ClanPromote(target, promote))
  {
    told := {};
    verdict := CheckPromote(ws, actor, target);
    if verdict.Refused? { return; }
    var ok := ws.SetSubLeader(ws.players[actor].clanId, target, promote);
    if !ok { return Refused(UnknownTarget), {}; }
    told := ws.ClanMembersOf(ws.players[actor].clanId);
  }

  method HandleClanSetMode(ws: WorldState, actor: uint32, mode: uint8) returns (verdict: Verdict, told: set<uint32>)
    requires ws.Valid()
    modifies ws
    ensures ws.Valid() && ws.View() == Exec(old(ws.View()), actor, ClanSetMode(mode))
    ensures verdict == AuthzClanMode(old(ws.View()), actor, mode)
    ensures told == Told(old(ws.View()), actor, ClanSetMode(mode))
  {
    told := {};
    verdict := CheckLeaderOrSub(ws, actor);
    if verdict.Refused? { return; }
    if mode > MODE_FARM { return Refused(BadMode), {}; }
    var ok := ws.SetClanMode(ws.players[actor].clanId, mode, actor);
    if !ok { return Refused(NoClan), {}; }
    var clan := ws.ClanMembersOf(ws.players[actor].clanId);
    var ally := ws.AllyMembersOf(ws.players[actor].allyId);
    told := clan + ally;
  }

  method CheckPromote(ws: WorldState, actor: uint32, target: uint32) returns (verdict: Verdict)
    ensures verdict == AuthzPromoteSubLeader(ws.View(), actor, target)
  {
    if actor !in ws.players { return Refused(UnknownPlayer); }
    if target !in ws.players { return Refused(UnknownTarget); }
    var a, t := ws.players[actor], ws.players[target];
    if a.clanId == 0 { return Refused(NoClan); }
    if a.clanId != t.clanId { return Refused(NotSameClan); }
    if !a.isLeader { return Refused(RequiresLeader); }
    if actor == target { return Refused(CannotTargetSelf); }
    verdict := if t.isLeader then Refused(TargetIsLeader) else Allowed;
  }

  method HandleClanRemoteMute(ws: WorldState, actor: uint32, target: uint32, muted: bool, scope: ScopeArg)
    returns (verdict: Verdict, told: set<uint32>)
    requires ws.Valid()
    modifies ws
    ensures ws.Valid() && ws.View() == Exec(old(ws.View()), actor, ClanRemoteMute(target, muted, scope))
    ensures verdict == AuthzRemoteMute(old(ws.View()), actor, target, scope)
    ensures told == Told(old(ws.View()), actor, ClanRemoteMute(target, muted, scope))
  {
    verdict := CheckRemoteMute(ws, actor, target, scope);
    if verdict.Refused? { return verdict, {}; }
    ChangeRemoteMute(ws, actor, target, muted, scope);
    told := MembersToTell(ws, ws.players[actor], scope == OnAlly);
  }

  method ChangeRemoteMute(ws: WorldState, actor: uint32, target: uint32, muted: bool, scope: ScopeArg)
    requires ws.Valid()
    modifies ws
    ensures ws.Valid() && ws.players == old(ws.players)
    ensures ws.View() == if muted then AddRemoteMute(old(ws.View()), actor, target, scope == OnClan, scope == OnAlly)
                         else ClearRemoteMute(old(ws.View()), actor, target)
  {
    if muted {
      ws.AddRemoteMute(actor, target, scope == OnClan, scope == OnAlly);
    } else {
      ws.ClearRemoteMute(actor, target);
    }
  }

  method MembersToTell(ws: WorldState, actor: Player, onAlly: bool) returns (told: set<uint32>)
    ensures told == ClanMembers(ws.View(), actor.clanId) + if onAlly then AllyMembers(ws.View(), actor.allyId) else {}
  {
    told := ws.ClanMembersOf(actor.clanId);
    if onAlly {
      var ally := ws.AllyMembersOf(actor.allyId);
      told := told + ally;
    }
  }

  method CheckRemoteMute(ws: WorldState, actor: uint32, target: uint32, scope: ScopeArg) returns (verdict: Verdict)
    requires ws.Valid()
    ensures verdict == AuthzRemoteMute(ws.View(), actor, target, scope)
  {
    verdict := CheckLeaderOrSub(ws, actor);
    if verdict.Refused? { return; }
    if target !in ws.players { return Refused(UnknownTarget); }
    if actor == target { return Refused(CannotTargetSelf); }
    var a, t := ws.players[actor], ws.players[target];
    match scope {
      case OnClan => if t.clanId != a.clanId { return Refused(NotSameClan); }
      case OnAlly => if a.allyId == 0 || t.allyId != a.allyId { return Refused(NotInGroup); }
      case BadScopeName => return Refused(BadScope);
    }
    var actorRole := ws.RoleOfPlayer(actor);
    var targetRole := ws.RoleOfPlayer(target);
    if actorRole == SubLeader && targetRole != Member { return Refused(SubCannotTouchLeader); }
  }

  method HandleCCGrantSpeak(ws: WorldState, actor: uint32, target: uint32, granted: bool)
    returns (verdict: Verdict, told: set<uint32>)
    requires ws.Valid()
    modifies ws
    ensures ws.Valid() && ws.View() == Exec(old(ws.View()), actor, CCGrantSpeak(target, granted))
    ensures verdict == Check(old(ws.View()), actor, CCGrantSpeak(target, granted))
    ensures told == Told(old(ws.View()), actor, CCGrantSpeak(target, granted))
  {
    told := {};
    verdict := CheckGrantSpeak(ws, actor, target);
    if verdict.Refused? { return; }
    var cc := ws.ccs[ws.playerCC[actor]];
    var ok := ws.SetCCSpeakPermission(cc.id, target, granted);
    if !ok { return Refused(TargetNotInCC), {}; }
    told := ElementsOf(cc.memberIds);
  }

  method CheckGrantSpeak(ws: WorldState, actor: uint32, target: uint32) returns (verdict: Verdict)
    ensures verdict == AuthzCCGrantSpeak(ws.View().channels, actor, target)
  {
    if actor == target { return Refused(CannotTargetSelf); }
    if actor !in ws.playerCC || ws.playerCC[actor] !in ws.ccs { return Refused(NotInCC); }
    var cc := ws.ccs[ws.playerCC[actor]];
    if cc.leaderId != actor { return Refused(RequiresCCLeader); }
    if target !in ws.playerCC || ws.playerCC[target] !in ws.ccs { return Refused(TargetNotInCC); }
    verdict := if ws.ccs[ws.playerCC[target]].id != cc.id then Refused(TargetNotInCC) else Allowed;
  }

  lemma NewPrefsInRange(p: Prefs, change: PrefsChange)
    requires VolumesInRange(p)
    ensures VolumesInRange(NewPrefs(p, change))
  {
  }
}
