/** What an accepted command means for roles, for modes, and for what is heard afterwards. */
module Effects {
  import opened Types
  import opened Worlds
  import opened Commands
  import opened Events
  import opened Router
  import RouterLaws

  // ---- sub-leaders ----

  // A target that the clan record itself names as leader stays leader.
  lemma PromotionTakesEffect(w: World, actor: uint32, target: uint32, promote: bool)
    requires Check(w, actor, ClanPromote(target, promote)).Allowed?
    ensures RoleOf(Exec(w, actor, ClanPromote(target, promote)), target) ==
            if w.clans[w.players[actor].clanId].leaderId == target then Leader
            else if promote then SubLeader else Member
  {
  }

  lemma PromotionSparesOthers(w: World, actor: uint32, target: uint32, promote: bool, other: uint32)
    requires other != target
    ensures RoleOf(Exec(w, actor, ClanPromote(target, promote)), other) == RoleOf(w, other)
  {
  }

  // ---- clan leaders ----

  // The leader the game names leads, if it is in the clan; a former one steps back unless
  // its own record still says otherwise. No other clan is touched.
  lemma LeaderChangeTakesEffect(w: World, player: uint32, clanId: uint32, leader: uint32, grow: Allocator, id: uint32)
    requires id in w.players
    ensures var after := RoleOf(ApplyToWorld(w, ClanLeaderChange(player, clanId, leader), grow), id);
            if clanId == 0 || w.players[id].clanId != clanId then after == RoleOf(w, id)
            else after == Leader <==> w.players[id].isLeader || id == leader
  {
  }

  // ---- remote mutes ----

  ghost predicate MutedByAnother(w: World, actor: uint32, target: uint32, scope: Scope) {
    exists muter :: muter != actor && (muter, target) in w.mutes &&
                    Covers(w.mutes[(muter, target)], scope)
  }

  predicate Covers(m: MuteScopes, scope: Scope) {
    if scope == ClanScope then m.onClan else m.onAlly
  }

  predicate Names(arg: ScopeArg, scope: Scope) {
    if scope == ClanScope then arg == OnClan else arg == OnAlly
  }

  // A mute replaces the author's earlier one of the same target, so muting on one scope
  // lifts the author's mute on the other; an un-mute lifts both, whatever scope it names.
  lemma RemoteMuteTakesEffect(w: World, actor: uint32, target: uint32, muted: bool, arg: ScopeArg, scope: Scope)
    requires Check(w, actor, ClanRemoteMute(target, muted, arg)).Allowed?
    ensures RemotelyMuted(Exec(w, actor, ClanRemoteMute(target, muted, arg)), target, scope) <==>
            (muted && Names(arg, scope)) || MutedByAnother(w, actor, target, scope)
  {
    var v := Exec(w, actor, ClanRemoteMute(target, muted, arg));
    forall muter | muter != actor
      ensures (muter, target) in v.mutes <==> (muter, target) in w.mutes
      ensures (muter, target) in w.mutes ==> v.mutes[(muter, target)] == w.mutes[(muter, target)]
    {
    }
    if muted {
      assert (actor, target) in v.mutes && Covers(v.mutes[(actor, target)], scope) == Names(arg, scope);
    }
  }

  lemma RemoteMuteSparesOthers(w: World, actor: uint32, target: uint32, muted: bool, arg: ScopeArg,
                               other: uint32, scope: Scope)
    requires other != target
    ensures RemotelyMuted(Exec(w, actor, ClanRemoteMute(target, muted, arg)), other, scope) <==>
            RemotelyMuted(w, other, scope)
  {
    var v := Exec(w, actor, ClanRemoteMute(target, muted, arg));
    forall muter: uint32
      ensures (muter, other) in v.mutes <==> (muter, other) in w.mutes
      ensures (muter, other) in w.mutes ==> v.mutes[(muter, other)] == w.mutes[(muter, other)]
    {
    }
  }

  // From then on the target is not heard on the scope, in a mode or not.
  lemma RemoteMuteSilences(w: World, actor: uint32, target: uint32, arg: ScopeArg, scope: Scope, pkt: Packet,
                           cfg: Config, d: Decision)
    requires Check(w, actor, ClanRemoteMute(target, true, arg)).Allowed? && Names(arg, scope)
    requires pkt.senderId == target && pkt.channel == if scope == ClanScope then CH_CLAN else CH_ALLY
    requires !RouterLaws.Whispers(Exec(w, actor, ClanRemoteMute(target, true, arg)), pkt)
    ensures !Delivers(Exec(w, actor, ClanRemoteMute(target, true, arg)), pkt, cfg, d)
  {
    var v := Exec(w, actor, ClanRemoteMute(target, true, arg));
    RemoteMuteTakesEffect(w, actor, target, true, arg, scope);
    RouterLaws.RemotelyMutedIsSilent(v, pkt, cfg, scope, d);
  }

  // ---- modes ----

  // Setting a mode switches it for every member of the actor's clan and of no other clan.
  lemma ModeTakesEffect(w: World, actor: uint32, mode: uint8, id: uint32)
    requires Check(w, actor, ClanSetMode(mode)).Allowed? && id in w.players
    ensures var v := Exec(w, actor, ClanSetMode(mode));
            && id in v.players
            && (ModeActive(v, v.players[id]) <==>
                  if w.players[id].clanId == w.players[actor].clanId
                  then mode != MODE_NONE && !w.clans[w.players[actor].clanId].optedOut
                  else ModeActive(w, w.players[id]))
  {
  }

  lemma OptOutTakesEffect(w: World, actor: uint32, optOut: bool, id: uint32)
    requires Check(w, actor, ClanOptOut(optOut)).Allowed? && id in w.players
    ensures var v := Exec(w, actor, ClanOptOut(optOut));
            && id in v.players
            && (ModeActive(v, v.players[id]) <==>
                  if w.players[id].clanId == w.players[actor].clanId
                  then !optOut && w.clans[w.players[actor].clanId].mode != MODE_NONE
                  else ModeActive(w, w.players[id]))
  {
  }

  // ---- preferences ----

  // Two worlds that differ in preferences only.
  ghost predicate SameButPrefs(w: World, v: World) {
    && v == w.(players := v.players) && w.players.Keys == v.players.Keys
    && forall id :: id in w.players ==> v.players[id] == w.players[id].(prefs := v.players[id].prefs)
  }

  lemma PrefsKeepLane(w: World, v: World, pkt: Packet)
    requires SameButPrefs(w, v)
    ensures LaneOf(v, pkt) == LaneOf(w, pkt)
  {
    var sender := pkt.senderId;
    assert RoleOf(v, sender) == RoleOf(w, sender);
    assert forall scope :: RemotelyMuted(v, sender, scope) == RemotelyMuted(w, sender, scope);
  }

  lemma PrefsKeepGroup(w: World, v: World, pkt: Packet, cfg: Config, lane: Lane, id: uint32)
    requires SameButPrefs(w, v) && id in w.players && pkt.senderId in w.players
    ensures InGroup(v, pkt, cfg, lane, id) == InGroup(w, pkt, cfg, lane, id)
  {
    match lane {
      case Nearby =>
        var p, q := w.players[id], v.players[id];
        assert q == p.(prefs := q.prefs);
        assert Distance(pkt, q, cfg) == Distance(pkt, p, cfg);
      case PartyLane => assert PartyMembers(v, pkt.senderId) == PartyMembers(w, pkt.senderId);
      case ChannelLane => assert ChannelMembers(v, pkt.senderId) == ChannelMembers(w, pkt.senderId);
      case _ => SameMembers(w, v);
    }
  }

  lemma SameMembers(w: World, v: World)
    requires SameButPrefs(w, v)
    ensures forall g :: ClanMembers(v, g) == ClanMembers(w, g) && AllyMembers(v, g) == AllyMembers(w, g)
  {
    forall g
      ensures ClanMembers(v, g) == ClanMembers(w, g) && AllyMembers(v, g) == AllyMembers(w, g)
    {
      assert forall id :: id in w.players ==>
               v.players[id].clanId == w.players[id].clanId && v.players[id].allyId == w.players[id].allyId;
    }
  }

  // A player's preferences only change what that player hears, whoever speaks.
  lemma PrefsOnlyChangeOwnHearing(w: World, actor: uint32, change: PrefsChange, pkt: Packet, cfg: Config, d: Decision)
    requires d.recipientId != actor
    ensures Delivers(Exec(w, actor, ChangePrefs(change)), pkt, cfg, d) <==> Delivers(w, pkt, cfg, d)
  {
    var v := Exec(w, actor, ChangePrefs(change));
    PrefsKeepLane(w, v, pkt);
    if d.recipientId in w.players && pkt.senderId in w.players {
      PrefsKeepGroup(w, v, pkt, cfg, LaneOf(w, pkt), d.recipientId);
    }
  }

  // A personal mute is absolute, for leaders and modes too, and lifting it is exact.
  lemma PersonalMuteTakesEffect(w: World, actor: uint32, target: uint32, muted: bool, pkt: Packet, cfg: Config)
    requires Check(w, actor, ChangePrefs(SetPlayerMute(target, muted))).Allowed? && pkt.senderId == target
    ensures var v := Exec(w, actor, ChangePrefs(SetPlayerMute(target, muted)));
            Hears(v, pkt, cfg, LaneOf(v, pkt), actor) <==>
            && !muted && target in w.players
            && InGroup(w, pkt, cfg, LaneOf(w, pkt), actor) && ToggleAllows(LaneOf(w, pkt), w.players[actor].prefs)
  {
    var v := Exec(w, actor, ChangePrefs(SetPlayerMute(target, muted)));
    PrefsKeepLane(w, v, pkt);
    if target in w.players {
      PrefsKeepGroup(w, v, pkt, cfg, LaneOf(w, pkt), actor);
    }
  }

  // ---- command channels ----

  lemma GrantTakesEffect(w: World, actor: uint32, target: uint32, granted: bool)
    requires WellFormed(w) && Check(w, actor, CCGrantSpeak(target, granted)).Allowed?
    ensures SpeakAllowed(Exec(w, actor, CCGrantSpeak(target, granted)).channels, target) == granted
  {
  }

  lemma GrantSparesOthers(w: World, actor: uint32, target: uint32, granted: bool, other: uint32)
    requires WellFormed(w) && other != target
    ensures SpeakAllowed(Exec(w, actor, CCGrantSpeak(target, granted)).channels, other) ==
            SpeakAllowed(w.channels, other)
  {
  }

  // Without a grant, nothing a player sends on its channel is heard.
  lemma RevokedIsSilent(w: World, actor: uint32, target: uint32, pkt: Packet, cfg: Config, d: Decision)
    requires WellFormed(w) && Check(w, actor, CCGrantSpeak(target, false)).Allowed?
    requires pkt.senderId == target && pkt.channel == CH_CC
    requires !RouterLaws.Whispers(Exec(w, actor, CCGrantSpeak(target, false)), pkt)
    ensures !Delivers(Exec(w, actor, CCGrantSpeak(target, false)), pkt, cfg, d)
  {
    GrantTakesEffect(w, actor, target, false);
  }
}
