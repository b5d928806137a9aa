/**
 * Who may do what, what it changes and who is told, command by command, read off the records:
 * the players' and clans' fields and the channel lists.
 */
module CommandRights {
  import opened Types
  import opened Worlds
  import opened Commands
  import opened DecisionMatrix

  // ---- ranks, field by field ----

  ghost predicate InAClan(w: World, id: uint32) {
    id in w.players && w.players[id].clanId != 0
  }

  // Leader by its own record or the clan's.
  ghost predicate IsLeader(w: World, id: uint32) {
    && InAClan(w, id) && w.players[id].clanId in w.clans
    && (w.players[id].isLeader || w.clans[w.players[id].clanId].leaderId == id)
  }

  ghost predicate IsSubLeader(w: World, id: uint32) {
    && InAClan(w, id) && w.players[id].clanId in w.clans
    && !IsLeader(w, id) && id in w.clans[w.players[id].clanId].subLeaders
  }

  lemma RanksAreRoles(w: World, id: uint32)
    ensures IsLeader(w, id) <==> RoleOf(w, id) == Leader
    ensures IsSubLeader(w, id) <==> RoleOf(w, id) == SubLeader
  {
  }

  // ---- who may ----

  lemma EnablingAllowedIff(w: World, actor: uint32, channel: uint8, enabled: bool)
    ensures Check(w, actor, ChangePrefs(SetChannelEnabled(channel, enabled))).Allowed? <==>
            actor in w.players && channel <= 3
  {
  }

  lemma ChannelVolumeAllowedIff(w: World, actor: uint32, channel: uint8, volume: real)
    ensures Check(w, actor, ChangePrefs(SetChannelVolume(channel, volume))).Allowed? <==>
            actor in w.players && channel <= 3
  {
  }

  lemma PersonalMuteAllowedIff(w: World, actor: uint32, target: uint32, muted: bool)
    ensures Check(w, actor, ChangePrefs(SetPlayerMute(target, muted))).Allowed? <==>
            actor in w.players && target != 0 && target != actor
  {
  }

  lemma PlayerVolumeAllowedIff(w: World, actor: uint32, target: uint32, volume: real)
    ensures Check(w, actor, ChangePrefs(SetPlayerVolume(target, volume))).Allowed? <==>
            actor in w.players && target != 0 && target != actor
  {
  }

  lemma WhisperAllowedIff(w: World, actor: uint32, mode: uint8, key: int)
    ensures Check(w, actor, ChangePrefs(WhisperSet(mode, key))).Allowed? <==>
            LeadsOrSubLeads(w, actor) && mode <= 2
  {
    RanksAreRoles(w, actor);
  }

  // Only the game's own leader flag of the actor counts here, and that of the target.
  lemma PromoteAllowedIff(w: World, actor: uint32, target: uint32, promote: bool)
    ensures Check(w, actor, ClanPromote(target, promote)).Allowed? <==>
            && InAClan(w, actor) && target in w.players && actor != target
            && w.players[actor].clanId in w.clans && w.players[target].clanId == w.players[actor].clanId
            && w.players[actor].isLeader && !w.players[target].isLeader
  {
  }

  lemma ModeAllowedIff(w: World, actor: uint32, mode: uint8)
    ensures Check(w, actor, ClanSetMode(mode)).Allowed? <==>
            LeadsOrSubLeads(w, actor) && mode <= 4
  {
    RanksAreRoles(w, actor);
  }

  lemma OptOutAllowedIff(w: World, actor: uint32, optOut: bool)
    ensures Check(w, actor, ClanOptOut(optOut)).Allowed? <==> LeadsOrSubLeads(w, actor)
  {
    RanksAreRoles(w, actor);
  }

  // A leader may mute anybody else in the group of the scope, a sub-leader plain members only.
  lemma RemoteMuteAllowedIff(w: World, actor: uint32, target: uint32, muted: bool, scope: ScopeArg)
    ensures Check(w, actor, ClanRemoteMute(target, muted, scope)).Allowed? <==>
            && target in w.players && actor != target && scope != BadScopeName
            && (IsLeader(w, actor) || (IsSubLeader(w, actor) && !IsLeader(w, target) && !IsSubLeader(w, target)))
            && var a, t := w.players[actor], w.players[target];
               if scope == OnClan then t.clanId == a.clanId else a.allyId != 0 && t.allyId == a.allyId
  {
    RanksAreRoles(w, actor);
    RanksAreRoles(w, target);
  }

  // The leader of a channel may grant the right to speak to another listed member of it.
  lemma GrantAllowedIff(w: World, actor: uint32, target: uint32, granted: bool)
    ensures Check(w, actor, CCGrantSpeak(target, granted)).Allowed? <==>
            && actor != target && Mapped(w.channels, actor) && Mapped(w.channels, target)
            && var cc := w.channels.ccs[w.channels.playerCC[actor]];
               && w.channels.ccs[w.channels.playerCC[target]].id == cc.id
               && cc.leaderId == actor && target in cc.memberIds
  {
  }

  // ---- the answer to a refused command ----

  // Where the code answers nothing, the verdict is Ignored.
  lemma PrefsAnswerIff(w: World, actor: uint32, change: PrefsChange, e: Error)
    ensures Check(w, actor, ChangePrefs(change)) == Refused(e) <==>
            match change
            case SetChannelEnabled(channel, _) =>
              (e == BadChannel && channel > 3) || (e == UnknownPlayer && channel <= 3 && actor !in w.players)
            case SetChannelVolume(channel, _) =>
              (e == BadChannel && channel > 3) || (e == Ignored && channel <= 3 && actor !in w.players)
            case SetPlayerMute(target, _) => e == Ignored && (target == 0 || target == actor || actor !in w.players)
            case SetPlayerVolume(target, _) => e == Ignored && (target == 0 || target == actor || actor !in w.players)
            case WhisperSet(mode, _) =>
              RankAnswer(w, actor, e) || (e == BadWhisperMode && LeadsOrSubLeads(w, actor) && mode > 2)
  {
    RanksAreRoles(w, actor);
  }

  // What whoever holds no rank is told.
  ghost predicate RankAnswer(w: World, actor: uint32, e: Error) {
    match e
    case UnknownPlayer => actor !in w.players
    case NoClan => actor in w.players && w.players[actor].clanId == 0
    case RequiresLeaderOrSub => InAClan(w, actor) && !LeadsOrSubLeads(w, actor)
    case _ => false
  }

  lemma ModeAnswerIff(w: World, actor: uint32, mode: uint8, e: Error)
    ensures Check(w, actor, ClanSetMode(mode)) == Refused(e) <==>
            RankAnswer(w, actor, e) || (e == BadMode && LeadsOrSubLeads(w, actor) && mode > 4)
  {
    RanksAreRoles(w, actor);
  }

  lemma OptOutAnswerIff(w: World, actor: uint32, optOut: bool, e: Error)
    ensures Check(w, actor, ClanOptOut(optOut)) == Refused(e) <==> RankAnswer(w, actor, e)
  {
    RanksAreRoles(w, actor);
  }

  ghost predicate OneClan(w: World, a: uint32, b: uint32) {
    InAClan(w, a) && b in w.players && w.players[b].clanId == w.players[a].clanId
  }

  lemma PromoteAnswerIff(w: World, actor: uint32, target: uint32, promote: bool, e: Error)
    ensures Check(w, actor, ClanPromote(target, promote)) == Refused(e) <==>
            match e
            case UnknownPlayer => actor !in w.players
            case UnknownTarget =>
              actor in w.players &&
              (target in w.players ==>
                 && OneClan(w, actor, target) && actor != target && w.players[actor].clanId !in w.clans
                 && w.players[actor].isLeader && !w.players[target].isLeader)
            case NoClan => actor in w.players && target in w.players && w.players[actor].clanId == 0
            case NotSameClan => InAClan(w, actor) && target in w.players && !OneClan(w, actor, target)
            case RequiresLeader => OneClan(w, actor, target) && !w.players[actor].isLeader
            case CannotTargetSelf => actor == target && InAClan(w, actor) && w.players[actor].isLeader
            case TargetIsLeader =>
              && OneClan(w, actor, target) && actor != target
              && w.players[actor].isLeader && w.players[target].isLeader
            case _ => false
  {
  }

  // Whether the scope's group holds both.
  ghost predicate InScope(w: World, actor: uint32, target: uint32, scope: ScopeArg)
    requires actor in w.players && target in w.players
  {
    var a, t := w.players[actor], w.players[target];
    match scope
    case OnClan => t.clanId == a.clanId
    case OnAlly => a.allyId != 0 && t.allyId == a.allyId
    case BadScopeName => false
  }

  lemma RemoteMuteAnswerIff(w: World, actor: uint32, target: uint32, muted: bool, scope: ScopeArg, e: Error)
    ensures Check(w, actor, ClanRemoteMute(target, muted, scope)) == Refused(e) <==>
            || RankAnswer(w, actor, e)
            || (LeadsOrSubLeads(w, actor) &&
                match e
                case UnknownTarget => target !in w.players
                case CannotTargetSelf => actor == target
                case NotSameClan =>
                  scope == OnClan && actor != target && target in w.players && !InScope(w, actor, target, scope)
                case NotInGroup =>
                  scope == OnAlly && actor != target && target in w.players && !InScope(w, actor, target, scope)
                case BadScope => scope == BadScopeName && actor != target && target in w.players
                case SubCannotTouchLeader =>
                  && actor != target && target in w.players && InScope(w, actor, target, scope)
                  && IsSubLeader(w, actor) && LeadsOrSubLeads(w, target)
                case _ => false)
  {
    RanksAreRoles(w, actor);
    RanksAreRoles(w, target);
  }

  lemma GrantAnswerIff(w: World, actor: uint32, target: uint32, granted: bool, e: Error)
    ensures Check(w, actor, CCGrantSpeak(target, granted)) == Refused(e) <==>
            match e
            case CannotTargetSelf => actor == target
            case NotInCC => actor != target && !Mapped(w.channels, actor)
            case RequiresCCLeader =>
              actor != target && Mapped(w.channels, actor) &&
              w.channels.ccs[w.channels.playerCC[actor]].leaderId != actor
            case TargetNotInCC =>
              actor != target && Mapped(w.channels, actor) &&
              var cc := w.channels.ccs[w.channels.playerCC[actor]];
              cc.leaderId == actor &&
              !(Mapped(w.channels, target) && w.channels.ccs[w.channels.playerCC[target]].id == cc.id &&
                target in cc.memberIds)
            case _ => false
  {
  }

  // ---- what it changes ----

  lemma RefusedChangesNothing(w: World, actor: uint32, cmd: Command)
    requires Check(w, actor, cmd).Refused?
    ensures Exec(w, actor, cmd) == w && Told(w, actor, cmd) == {}
  {
  }

  // The actor's preferences, in just the field the command is about.
  lemma PrefsOutcome(w: World, actor: uint32, change: PrefsChange)
    requires Check(w, actor, ChangePrefs(change)).Allowed?
    ensures var v := Exec(w, actor, ChangePrefs(change));
            && v == w.(players := v.players) && v.players.Keys == w.players.Keys
            && (forall id :: id in w.players && id != actor ==> v.players[id] == w.players[id])
            && v.players[actor] == w.players[actor].(prefs := v.players[actor].prefs)
            && var p, q := w.players[actor].prefs, v.players[actor].prefs;
               match change
               case SetChannelEnabled(channel, enabled) =>
                 q == p.(channelEnabled := q.channelEnabled) && q.channelEnabled[channel] == enabled &&
                 forall i :: 0 <= i < 4 && i != channel ==> q.channelEnabled[i] == p.channelEnabled[i]
               case SetChannelVolume(channel, volume) =>
                 q == p.(channelVolume := q.channelVolume) && Clamped(volume, q.channelVolume[channel]) &&
                 forall i :: 0 <= i < 4 && i != channel ==> q.channelVolume[i] == p.channelVolume[i]
               case SetPlayerMute(target, muted) =>
                 q == p.(muted := q.muted) &&
                 forall id :: id in q.muted <==> if id == target then muted else id in p.muted
               case SetPlayerVolume(target, volume) =>
                 q == p.(playerVolume := q.playerVolume) && target in q.playerVolume &&
                 Clamped(volume, q.playerVolume[target]) &&
                 forall id :: id != target ==>
                   (id in q.playerVolume <==> id in p.playerVolume) &&
                   (id in p.playerVolume ==> q.playerVolume[id] == p.playerVolume[id])
               case WhisperSet(mode, key) => q == p.(whisperMode := mode, whisperKey := key)
  {
  }

  // The nearest value between 0 and 2.
  ghost predicate Clamped(volume: real, r: real) {
    && 0.0 <= r <= 2.0
    && (0.0 <= volume <= 2.0 ==> r == volume) && (volume < 0.0 ==> r == 0.0) && (volume > 2.0 ==> r == 2.0)
  }

  // Of the actor's clan, the field the command is about.
  lemma ClanOutcome(w: World, actor: uint32, cmd: Command)
    requires Check(w, actor, cmd).Allowed? && (cmd.ClanPromote? || cmd.ClanSetMode? || cmd.ClanOptOut?)
    ensures var v, c := Exec(w, actor, cmd), w.players[actor].clanId;
            && v == w.(clans := v.clans) && v.clans.Keys == w.clans.Keys && c in w.clans
            && (forall k :: k in w.clans && k != c ==> v.clans[k] == w.clans[k])
            && var p, q := w.clans[c], v.clans[c];
               match cmd
               case ClanPromote(target, promote) =>
                 q == p.(subLeaders := q.subLeaders) &&
                 forall id :: id in q.subLeaders <==> if id == target then promote else id in p.subLeaders
               case ClanSetMode(mode) => q == p.(mode := mode, modeSetBy := if mode == 0 then 0 else actor)
               case ClanOptOut(optOut) => q == p.(optedOut := optOut)
               case _ => false
  {
  }

  // The entry of author and target: in just the scope named, or gone.
  lemma RemoteMuteOutcome(w: World, actor: uint32, target: uint32, muted: bool, scope: ScopeArg)
    requires Check(w, actor, ClanRemoteMute(target, muted, scope)).Allowed?
    ensures var v := Exec(w, actor, ClanRemoteMute(target, muted, scope));
            && v == w.(mutes := v.mutes)
            && (forall k :: k != (actor, target) ==>
                  (k in v.mutes <==> k in w.mutes) && (k in w.mutes ==> v.mutes[k] == w.mutes[k]))
            && ((actor, target) in v.mutes <==> muted)
            && (muted ==>
                  && (v.mutes[(actor, target)].onClan <==> scope == OnClan)
                  && (v.mutes[(actor, target)].onAlly <==> scope == OnAlly))
  {
  }

  // The grant of the target on the actor's channel.
  lemma GrantOutcome(w: World, actor: uint32, target: uint32, granted: bool)
    requires Check(w, actor, CCGrantSpeak(target, granted)).Allowed?
    ensures var v, c := Exec(w, actor, CCGrantSpeak(target, granted)), w.channels.playerCC[actor];
            && v == w.(channels := w.channels.(ccs := v.channels.ccs))
            && v.channels.ccs.Keys == w.channels.ccs.Keys && c in w.channels.ccs
            && (forall k :: k in w.channels.ccs && k != c ==> v.channels.ccs[k] == w.channels.ccs[k])
            && var p, q := w.channels.ccs[c], v.channels.ccs[c];
               && q == p.(speak := q.speak)
               && forall id :: id in q.speak <==> if id == target then granted else id in p.speak
  {
  }

  // Listed members other than the leader can be granted or denied the right to speak.
  lemma SpeakChanges(chs: Channels, ccId: uint32, target: uint32, allow: bool)
    ensures CanGrantSpeak(chs, ccId, target) <==>
            ccId in chs.ccs && target in chs.ccs[ccId].memberIds && chs.ccs[ccId].leaderId != target
    ensures !CanGrantSpeak(chs, ccId, target) ==> SetSpeakPermission(chs, ccId, target, allow) == chs
  {
  }

  // ---- who is told ----

  // After a promotion the clan, after a mode change clan and alliance, after a remote mute the
  // clan and for the alliance's scope the alliance, after a grant the listed members.
  lemma ToldIff(w: World, actor: uint32, cmd: Command, id: uint32)
    requires Check(w, actor, cmd).Allowed?
    ensures id in Told(w, actor, cmd) <==>
            match cmd
            case ChangePrefs(_) => false
            case ClanPromote(_, _) => Clanmates(w, actor, id)
            case ClanSetMode(_) => Clanmates(w, actor, id) || Allies(w, actor, id)
            case ClanRemoteMute(_, _, scope) => Clanmates(w, actor, id) || (scope == OnAlly && Allies(w, actor, id))
            case ClanOptOut(_) => false
            case CCGrantSpeak(_, _) =>
              Mapped(w.channels, actor) && id in w.channels.ccs[w.channels.playerCC[actor]].memberIds
  {
  }

  ghost predicate Clanmates(w: World, a: uint32, b: uint32) {
    a in w.players && b in w.players && w.players[a].clanId != 0 && w.players[b].clanId == w.players[a].clanId
  }

  ghost predicate Allies(w: World, a: uint32, b: uint32) {
    a in w.players && b in w.players && w.players[a].allyId != 0 && w.players[b].allyId == w.players[a].allyId
  }
}
