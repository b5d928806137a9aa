/**
 * Who is sent a fresh snapshot after a client's command: whether that is everybody whose
 * snapshot the command changes.
 */
module CommandNotices {
  import opened Types
  import opened Worlds
  import opened Topology
  import opened Frames
  import opened Commands
  import opened ClientState

  // ---- remote mutes as they show ----

  function Other(scope: ScopeArg): Worlds.Scope {
    if scope == OnClan then AllyScope else ClanScope
  }

  ghost predicate MutedBy(w: World, muter: uint32, target: uint32, scope: Worlds.Scope) {
    (muter, target) in w.mutes &&
    if scope == ClanScope then w.mutes[(muter, target)].onClan else w.mutes[(muter, target)].onAlly
  }

  // The author alone mutes the target on the scope that the command is not about, and the
  // command lifts that mute as well.
  ghost predicate LiftsOther(w: World, actor: uint32, target: uint32, scope: ScopeArg) {
    && MutedBy(w, actor, target, Other(scope))
    && forall muter :: muter != actor ==> !MutedBy(w, muter, target, Other(scope))
  }

  lemma OtherScopeLiftedIff(w: World, actor: uint32, target: uint32, muted: bool, scope: ScopeArg)
    requires scope != BadScopeName
    ensures var v := if muted then AddRemoteMute(w, actor, target, scope == OnClan, scope == OnAlly)
                     else ClearRemoteMute(w, actor, target);
            RemotelyMuted(w, target, Other(scope)) != RemotelyMuted(v, target, Other(scope)) <==>
            LiftsOther(w, actor, target, scope)
  {
    var v := if muted then AddRemoteMute(w, actor, target, scope == OnClan, scope == OnAlly)
             else ClearRemoteMute(w, actor, target);
    assert forall muter :: muter != actor ==>
      (MutedBy(v, muter, target, Other(scope)) <==> MutedBy(w, muter, target, Other(scope)));
    assert !MutedBy(v, actor, target, Other(scope));
    MutedIff(w, target, Other(scope));
    MutedIff(v, target, Other(scope));
  }

  lemma MutedIff(w: World, target: uint32, scope: Worlds.Scope)
    ensures RemotelyMuted(w, target, scope) <==> exists muter :: MutedBy(w, muter, target, scope)
  {
    if RemotelyMuted(w, target, scope) {
      var muter :| (muter, target) in w.mutes &&
                   if scope == ClanScope then w.mutes[(muter, target)].onClan else w.mutes[(muter, target)].onAlly;
      assert MutedBy(w, muter, target, scope);
    }
  }

  lemma OthersUnaffected(w: World, actor: uint32, target: uint32, muted: bool, scope: ScopeArg, id: uint32,
                         shown: Worlds.Scope)
    requires id != target
    ensures var v := if muted then AddRemoteMute(w, actor, target, scope == OnClan, scope == OnAlly)
                     else ClearRemoteMute(w, actor, target);
            RemotelyMuted(w, id, shown) == RemotelyMuted(v, id, shown)
  {
    var v := if muted then AddRemoteMute(w, actor, target, scope == OnClan, scope == OnAlly)
             else ClearRemoteMute(w, actor, target);
    MutedIff(w, id, shown);
    MutedIff(v, id, shown);
    assert forall muter :: MutedBy(v, muter, id, shown) <==> MutedBy(w, muter, id, shown);
  }

  // ---- whose snapshot changes without being sent ----

  ghost predicate InSight(w: World, player: uint32, target: uint32, scope: Worlds.Scope) {
    player in w.players &&
    if scope == ClanScope then target in ClanMembers(w, w.players[player].clanId)
    else target in AllyMembers(w, w.players[player].allyId)
  }

  ghost predicate SameChannel(chs: Channels, a: uint32, b: uint32) {
    a in chs.playerCC && b in chs.playerCC && chs.playerCC[a] == chs.playerCC[b]
  }

  // An opt-out is sent to nobody; a mute that lifts the other scope is sent only to the group
  // it is about; a grant is sent to the listed members, not to those only mapped to the channel.
  ghost predicate Missed(w: World, actor: uint32, cmd: Command, player: uint32) {
    && Check(w, actor, cmd).Allowed?
    && player in w.players && player !in Told(w, actor, cmd)
    && match cmd
       case ClanOptOut(optOut) =>
         w.players[player].clanId == w.players[actor].clanId && w.clans[w.players[actor].clanId].optedOut != optOut
       case ClanRemoteMute(target, _, scope) =>
         LiftsOther(w, actor, target, scope) && InSight(w, player, target, Other(scope))
       case CCGrantSpeak(target, granted) =>
         SameChannel(w.channels, player, actor) &&
         (target in w.channels.ccs[w.channels.playerCC[actor]].speak) != granted
       case _ => false
  }

  // ---- case by case ----

  lemma PrefsLookSame(w: World, actor: uint32, change: PrefsChange, player: uint32)
    ensures LooksSame(w, Exec(w, actor, ChangePrefs(change)), player)
  {
    OnlyPrefsDiffer(w, Exec(w, actor, ChangePrefs(change)), actor, player);
  }

  lemma OnlyPrefsDiffer(w: World, v: World, actor: uint32, player: uint32)
    requires v == w || (actor in w.players && exists prefs :: v == SetPrefs(w, actor, prefs))
    ensures LooksSame(w, v, player)
  {
    SameMutes(w, v);
    assert forall id :: RoleOf(w, id) == RoleOf(v, id);
  }

  // Ranks, modes and opt-outs show to members of the clan only.
  lemma OtherClansLookSame(w: World, actor: uint32, cmd: Command, player: uint32)
    requires Check(w, actor, cmd).Allowed? && (cmd.ClanPromote? || cmd.ClanSetMode? || cmd.ClanOptOut?)
    requires player in w.players ==> w.players[player].clanId != w.players[actor].clanId
    ensures LooksSame(w, Exec(w, actor, cmd), player)
  {
    SameMutes(w, Exec(w, actor, cmd));
  }

  lemma OptOutShows(w: World, t: Sessions, actor: uint32, optOut: bool, player: uint32, f: Frame, g: Frame)
    requires Check(w, actor, ClanOptOut(optOut)).Allowed? && player in w.players
    requires w.players[player].clanId == w.players[actor].clanId
    requires IsFrame(f, w, t, player) && IsFrame(g, Exec(w, actor, ClanOptOut(optOut)), t, player)
    ensures SameToClient(f, g) <==> w.clans[w.players[actor].clanId].optedOut == optOut
  {
    var v := Exec(w, actor, ClanOptOut(optOut));
    if w.clans[w.players[actor].clanId].optedOut == optOut {
      SameMutes(w, v);
      LooksSameSameFrame(f, g, w, v, t, player);
    }
  }

  lemma MuteLooksSame(w: World, actor: uint32, target: uint32, muted: bool, scope: ScopeArg, player: uint32)
    requires var cmd := ClanRemoteMute(target, muted, scope);
             Check(w, actor, cmd).Allowed? && player !in Told(w, actor, cmd) && !Missed(w, actor, cmd, player)
    ensures LooksSame(w, Exec(w, actor, ClanRemoteMute(target, muted, scope)), player)
  {
    var v := Exec(w, actor, ClanRemoteMute(target, muted, scope));
    OtherScopeLiftedIff(w, actor, target, muted, scope);
    forall id, shown | InSight(w, player, id, shown)
      ensures RemotelyMuted(w, id, shown) == RemotelyMuted(v, id, shown)
    {
      if id != target {
        OthersUnaffected(w, actor, target, muted, scope, id, shown);
      }
    }
    OnlyMutesDiffer(w, v, player);
  }

  lemma OnlyMutesDiffer(w: World, v: World, player: uint32)
    requires v == w.(mutes := v.mutes)
    requires forall id, scope :: InSight(w, player, id, scope) ==>
               RemotelyMuted(w, id, scope) == RemotelyMuted(v, id, scope)
    ensures LooksSame(w, v, player)
  {
    if player in w.players {
      assert forall id :: id in ClanMembers(w, w.players[player].clanId) ==> InSight(w, player, id, ClanScope);
      assert forall id :: id in AllyMembers(w, w.players[player].allyId) ==> InSight(w, player, id, AllyScope);
      assert forall id :: RoleOf(w, id) == RoleOf(v, id);
    }
  }

  lemma MuteShows(w: World, v: World, t: Sessions, target: uint32, scope: Worlds.Scope, player: uint32, f: Frame,
                  g: Frame)
    requires v == w.(mutes := v.mutes) && InSight(w, player, target, scope)
    requires RemotelyMuted(w, target, scope) != RemotelyMuted(v, target, scope)
    requires IsFrame(f, w, t, player) && IsFrame(g, v, t, player)
    ensures !SameToClient(f, g)
  {
    var p := w.players[player];
    if scope == ClanScope {
      ClanRosterSet(f.clan, w, t, p.clanId);
      ClanRosterSet(g.clan, v, t, p.clanId);
      assert ClanInfo(w, t, target) in RosterSet(f.clan);
      assert forall id :: ClanInfo(v, t, id) != ClanInfo(w, t, target);
    } else {
      AllyRosterSet(f.ally, w, t, p.allyId);
      AllyRosterSet(g.ally, v, t, p.allyId);
      assert AllyInfo(w, t, target) in RosterSet(f.ally);
      assert forall id :: AllyInfo(v, t, id) != AllyInfo(w, t, target);
    }
  }

  lemma GrantLooksSame(w: World, actor: uint32, target: uint32, granted: bool, player: uint32)
    requires var cmd := CCGrantSpeak(target, granted);
             Check(w, actor, cmd).Allowed? && player !in Told(w, actor, cmd) && !Missed(w, actor, cmd, player)
    ensures LooksSame(w, Exec(w, actor, CCGrantSpeak(target, granted)), player)
  {
    var v := Exec(w, actor, CCGrantSpeak(target, granted));
    SameMutes(w, v);
    var cc := w.channels.ccs[w.channels.playerCC[actor]];
    assert target in cc.speak ==> cc.speak + {target} == cc.speak;
    assert target !in cc.speak ==> cc.speak - {target} == cc.speak;
  }

  lemma GrantShows(w: World, t: Sessions, actor: uint32, target: uint32, granted: bool, player: uint32, f: Frame,
                   g: Frame)
    requires Check(w, actor, CCGrantSpeak(target, granted)).Allowed? && player in w.players
    requires SameChannel(w.channels, player, actor)
    requires (target in w.channels.ccs[w.channels.playerCC[actor]].speak) != granted
    requires IsFrame(f, w, t, player) && IsFrame(g, Exec(w, actor, CCGrantSpeak(target, granted)), t, player)
    ensures !SameToClient(f, g)
  {
    var cc := w.channels.ccs[w.channels.playerCC[actor]];
    var i :| 0 <= i < |cc.memberIds| && cc.memberIds[i] == target;
    assert f.cc.value[i] == ChannelInfo(cc, t, target);
    assert g.cc.value[i].canSpeak == granted;
  }

  // After any command, everybody is told who sees a different snapshot, but for those missed.
  lemma CommandNoticesCompleteIff(w: World, t: Sessions, actor: uint32, cmd: Command, player: uint32, f: Frame,
                                  g: Frame)
    requires IsFrame(f, w, t, player) && IsFrame(g, Exec(w, actor, cmd), t, player)
    ensures SameToClient(f, g) || player in Told(w, actor, cmd) <==> !Missed(w, actor, cmd, player)
  {
    var v := Exec(w, actor, cmd);
    if Missed(w, actor, cmd, player) {
      MissedShows(w, t, actor, cmd, player, f, g);
    } else if player !in Told(w, actor, cmd) {
      NotMissedLooksSame(w, actor, cmd, player);
      LooksSameSameFrame(f, g, w, v, t, player);
    }
  }

  lemma MissedShows(w: World, t: Sessions, actor: uint32, cmd: Command, player: uint32, f: Frame, g: Frame)
    requires Missed(w, actor, cmd, player)
    requires IsFrame(f, w, t, player) && IsFrame(g, Exec(w, actor, cmd), t, player)
    ensures !SameToClient(f, g)
  {
    match cmd
    case ClanOptOut(optOut) => OptOutShows(w, t, actor, optOut, player, f, g);
    case ClanRemoteMute(target, muted, scope) =>
      OtherScopeLiftedIff(w, actor, target, muted, scope);
      MuteShows(w, Exec(w, actor, cmd), t, target, Other(scope), player, f, g);
    case CCGrantSpeak(target, granted) => GrantShows(w, t, actor, target, granted, player, f, g);
    case _ =>
  }

  lemma NotMissedLooksSame(w: World, actor: uint32, cmd: Command, player: uint32)
    requires player !in Told(w, actor, cmd) && !Missed(w, actor, cmd, player)
    ensures LooksSame(w, Exec(w, actor, cmd), player)
  {
    if Check(w, actor, cmd).Allowed? {
      match cmd {
        case ChangePrefs(change) => PrefsLookSame(w, actor, change, player);
        case ClanRemoteMute(target, muted, scope) => MuteLooksSame(w, actor, target, muted, scope, player);
        case CCGrantSpeak(target, granted) => GrantLooksSame(w, actor, target, granted, player);
        case ClanOptOut(optOut) =>
          if player in w.players && w.players[player].clanId == w.players[actor].clanId {
            SameMutes(w, Exec(w, actor, cmd));
          } else {
            OtherClansLookSame(w, actor, cmd, player);
          }
        case _ => OtherClansLookSame(w, actor, cmd, player);
      }
    }
  }

  // A player muted on the alliance scope and then un-muted on the clan scope: the ally of
  // another clan is not told that the mute is gone.
  lemma LiftedMuteIsMissed(w: World, actor: uint32, target: uint32, ally: uint32)
    requires AuthzRemoteMute(w, actor, target, OnAlly).Allowed? && AuthzRemoteMute(w, actor, target, OnClan).Allowed?
    requires forall muter :: muter != actor ==> !MutedBy(w, muter, target, AllyScope)
    requires ally in w.players && w.players[ally].allyId == w.players[actor].allyId
    requires w.players[ally].clanId != w.players[actor].clanId
    ensures var mute, unmute := ClanRemoteMute(target, true, OnAlly), ClanRemoteMute(target, false, OnClan);
            Missed(Exec(w, actor, mute), actor, unmute, ally)
  {
    var v := Exec(w, actor, ClanRemoteMute(target, true, OnAlly));
    assert forall muter :: muter != actor ==>
      MutedBy(v, muter, target, AllyScope) == MutedBy(w, muter, target, AllyScope);
  }
}
