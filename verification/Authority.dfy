/** What whole runs of client commands can and cannot change. */
module Authority {
  import opened Types
  import opened Worlds
  import opened Commands

  datatype Request = Request(actor: uint32, cmd: Command)

  function Run(w: World, requests: seq<Request>): World
    decreases |requests|
  {
    if requests == [] then w else Run(Exec(w, requests[0].actor, requests[0].cmd), requests[1..])
  }

  ghost predicate LeadsChannel(w: World, id: uint32) {
    ChannelOf(w.channels, id).Some? && ChannelOf(w.channels, id).value.leaderId == id
  }

  ghost predicate Ordinary(w: World, id: uint32) {
    RoleOf(w, id) == Member && !LeadsChannel(w, id)
  }

  // Same players, and each differs at most in its own preferences; `others` not even there.
  ghost predicate SamePlayersButPrefs(w: World, v: World, actors: set<uint32>) {
    && w.players.Keys == v.players.Keys
    && (forall id :: id in w.players ==> v.players[id] == w.players[id].(prefs := v.players[id].prefs))
    && (forall id :: id in w.players && id !in actors ==> v.players[id] == w.players[id])
  }

  ghost function ActorsOf(requests: seq<Request>): set<uint32> {
    set i | 0 <= i < |requests| :: requests[i].actor
  }

  lemma ExecPlayers(w: World, actor: uint32, cmd: Command)
    ensures SamePlayersButPrefs(w, Exec(w, actor, cmd), {actor})
  {
  }

  // No command of anybody changes what the game decides about a player.
  lemma {:induction false} RunPlayers(w: World, requests: seq<Request>)
    ensures SamePlayersButPrefs(w, Run(w, requests), ActorsOf(requests))
    decreases |requests|
  {
    if requests == [] {
    } else {
      var next := Exec(w, requests[0].actor, requests[0].cmd);
      ExecPlayers(w, requests[0].actor, requests[0].cmd);
      RunPlayers(next, requests[1..]);
      assert requests[0].actor in ActorsOf(requests);
      forall id | id in ActorsOf(requests[1..])
        ensures id in ActorsOf(requests)
      {
        var i :| 0 <= i < |requests[1..]| && id == requests[1..][i].actor;
        assert requests[i + 1].actor == id;
      }
    }
  }

  lemma OrdinaryExec(w: World, actor: uint32, cmd: Command)
    requires Ordinary(w, actor)
    ensures var v := Exec(w, actor, cmd);
            v == w.(players := v.players)
  {
  }

  // Players who lead nothing can only change their own preferences, however long they try.
  lemma {:induction false} OrdinaryPlayersOnlyChangeTheirPrefs(w: World, requests: seq<Request>)
    requires forall i :: 0 <= i < |requests| ==> Ordinary(w, requests[i].actor)
    ensures var v := Run(w, requests);
            v == w.(players := v.players) && SamePlayersButPrefs(w, v, ActorsOf(requests))
    decreases |requests|
  {
    RunPlayers(w, requests);
    if requests == [] {
    } else {
      var next := Exec(w, requests[0].actor, requests[0].cmd);
      OrdinaryExec(w, requests[0].actor, requests[0].cmd);
      ExecPlayers(w, requests[0].actor, requests[0].cmd);
      forall i | 0 <= i < |requests[1..]|
        ensures Ordinary(next, requests[1..][i].actor)
      {
        assert requests[1..][i] == requests[i + 1];
      }
      OrdinaryPlayersOnlyChangeTheirPrefs(next, requests[1..]);
    }
  }

  ghost predicate LeadsClan(w: World, id: uint32, clanId: uint32) {
    id in w.players && w.players[id].clanId == clanId && w.players[id].isLeader
  }

  // The sub-leaders of a clan change only on a promote or demote by a player whom the game
  // names that clan's leader.
  lemma {:induction false} SubLeadersChangeOnlyByLeader(w: World, requests: seq<Request>, clanId: uint32)
    requires clanId in w.clans
    requires forall i :: 0 <= i < |requests| && requests[i].cmd.ClanPromote? ==>
               !LeadsClan(w, requests[i].actor, clanId)
    ensures clanId in Run(w, requests).clans
    ensures Run(w, requests).clans[clanId].subLeaders == w.clans[clanId].subLeaders
    decreases |requests|
  {
    if requests == [] {
    } else {
      var next := Exec(w, requests[0].actor, requests[0].cmd);
      ExecPlayers(w, requests[0].actor, requests[0].cmd);
      assert next.clans[clanId].subLeaders == w.clans[clanId].subLeaders;
      forall i | 0 <= i < |requests[1..]| && requests[1..][i].cmd.ClanPromote?
        ensures !LeadsClan(next, requests[1..][i].actor, clanId)
      {
        assert requests[1..][i] == requests[i + 1];
      }
      SubLeadersChangeOnlyByLeader(next, requests[1..], clanId);
    }
  }

  // The author may mute the target on this scope: a leader or sub-leader, a sub-leader only
  // plain members, and only within the clan or alliance the scope is about.
  ghost predicate MuteRight(w: World, muter: uint32, target: uint32, scope: ScopeArg) {
    && muter != target && muter in w.players && target in w.players
    && RoleOf(w, muter) != Member
    && (RoleOf(w, muter) == SubLeader ==> RoleOf(w, target) == Member)
    && var m, t := w.players[muter], w.players[target];
       match scope
       case OnClan => t.clanId == m.clanId
       case OnAlly => m.allyId != 0 && t.allyId == m.allyId
       case BadScopeName => false
  }

  function ScopesOf(scope: ScopeArg): MuteScopes {
    MuteScopes(scope == OnClan, scope == OnAlly)
  }

  function EntryOf(w: World, muter: uint32, target: uint32): Option<MuteScopes> {
    if (muter, target) in w.mutes then Some(w.mutes[(muter, target)]) else None
  }

  // The i-th request asks for this mute, and its author has the right to it at that moment.
  ghost predicate RightfulMute(w: World, requests: seq<Request>, i: nat, muter: uint32, target: uint32, scope: ScopeArg)
    requires i < |requests|
  {
    requests[i] == Request(muter, ClanRemoteMute(target, true, scope)) &&
    MuteRight(Run(w, requests[..i]), muter, target, scope)
  }

  lemma ExecMutes(w: World, actor: uint32, cmd: Command, muter: uint32, target: uint32)
    ensures var before, after := EntryOf(w, muter, target), EntryOf(Exec(w, actor, cmd), muter, target);
            after == before || after == None ||
            exists scope :: actor == muter && cmd == ClanRemoteMute(target, true, scope) &&
                            MuteRight(w, muter, target, scope) && after == Some(ScopesOf(scope))
  {
    var after := EntryOf(Exec(w, actor, cmd), muter, target);
    if after.Some? && after != EntryOf(w, muter, target) {
      assert cmd.ClanRemoteMute? && actor == muter && cmd.target == target && cmd.muted;
      assert MuteRight(w, muter, target, cmd.scope);
    }
  }

  // Every remote mute that is new or different after a run was asked for by its author in
  // just these scopes, at a moment when it was the author's right.
  lemma {:induction false} NewMutesWereRights(w: World, requests: seq<Request>, muter: uint32, target: uint32)
    requires EntryOf(Run(w, requests), muter, target).Some?
    requires EntryOf(Run(w, requests), muter, target) != EntryOf(w, muter, target)
    ensures exists i, scope :: 0 <= i < |requests| && RightfulMute(w, requests, i, muter, target, scope) &&
                               EntryOf(Run(w, requests), muter, target) == Some(ScopesOf(scope))
    decreases |requests|
  {
    var next := Exec(w, requests[0].actor, requests[0].cmd);
    var entry := EntryOf(Run(w, requests), muter, target);
    if EntryOf(next, muter, target) != entry {
      NewMutesWereRights(next, requests[1..], muter, target);
      var i, scope :| 0 <= i < |requests[1..]| && RightfulMute(next, requests[1..], i, muter, target, scope) &&
                      entry == Some(ScopesOf(scope));
      assert requests[..i + 1][1..] == requests[1..][..i];
      assert RightfulMute(w, requests, i + 1, muter, target, scope);
    } else {
      ExecMutes(w, requests[0].actor, requests[0].cmd, muter, target);
      var scope :| requests[0] == Request(muter, ClanRemoteMute(target, true, scope)) &&
                   MuteRight(w, muter, target, scope) && entry == Some(ScopesOf(scope));
      assert Run(w, requests[..0]) == w;
      assert RightfulMute(w, requests, 0, muter, target, scope);
    }
  }

  // Only the leader of a command channel changes who may speak on it.
  lemma {:induction false} GrantsChangeOnlyByChannelLeader(w: World, requests: seq<Request>, ccId: uint32)
    requires WellFormed(w) && ccId in w.channels.ccs
    requires forall i :: 0 <= i < |requests| ==> requests[i].actor != w.channels.ccs[ccId].leaderId
    ensures ccId in Run(w, requests).channels.ccs
    ensures Run(w, requests).channels.ccs[ccId] == w.channels.ccs[ccId]
    decreases |requests|
  {
    if requests == [] {
    } else {
      var next := Exec(w, requests[0].actor, requests[0].cmd);
      ExecWellFormed(w, requests[0].actor, requests[0].cmd);
      assert next.channels.ccs[ccId] == w.channels.ccs[ccId];
      assert forall i :: 0 <= i < |requests[1..]| ==> requests[1..][i] == requests[i + 1];
      GrantsChangeOnlyByChannelLeader(next, requests[1..], ccId);
    }
  }

  // Every run keeps all stored volumes within 0 to 2, and the rest of the well-formedness.
  lemma ExecWellFormed(w: World, actor: uint32, cmd: Command)
    requires WellFormed(w)
    ensures WellFormed(Exec(w, actor, cmd))
  {
    if cmd.ChangePrefs? && Check(w, actor, cmd).Allowed? {
      NewPrefsInRange(w.players[actor].prefs, cmd.change);
    }
  }
}
