/** What holds of the world in every state the service can reach. */
module Reachability {
  import opened Types
  import opened Worlds
  import opened Events
  import opened Commands
  import opened Bridge
  import Authority
  import Replication
  import Router
  import RouterLaws

  // An active mode belongs to a player the service knows.
  ghost predicate ModesOwned(w: World) {
    forall c :: c in w.clans ==> ModeOwned(w.clans[c], w.players.Keys)
  }

  ghost predicate ModeOwned(c: Clan, players: set<uint32>) {
    && c.mode <= MODE_FARM
    && (c.mode == MODE_NONE ==> c.modeSetBy == 0)
    && (c.mode != MODE_NONE ==> c.modeSetBy in players)
  }

  ghost predicate Good(w: World) {
    WellFormed(w) && ModesOwned(w) && WhispersValid(w)
  }

  ghost predicate WhispersValid(w: World) {
    forall id :: id in w.players ==> w.players[id].prefs.whisperMode <= 2
  }

  lemma ChannelsKept(chs: Channels, id: uint32, grow: Allocator)
    requires ChannelsWellFormed(chs)
    ensures ChannelsWellFormed(LeaveOwnChannel(chs, id, grow))
  {
  }

  lemma RemovalGood(w: World, id: uint32)
    requires Good(w)
    ensures Good(RemovePlayer(w, id))
  {
    RemovePlayerWellFormed(w, id);
    if id in w.players {
      forall c | c in w.clans
        ensures ModeOwned(StripClan(w.clans[c], id), w.players.Keys - {id})
      {
        assert ModeOwned(w.clans[c], w.players.Keys);
      }
    }
  }

  lemma UpsertGood(w: World, id: uint32, clanId: uint32, allyId: uint32, partyId: uint64, instanceId: uint32,
                   isLeader: bool, isPartyLeader: bool)
    requires Good(w)
    ensures Good(UpsertPlayer(w, id, clanId, allyId, partyId, instanceId, isLeader, isPartyLeader))
  {
    UpsertPlayerWellFormed(w, id, clanId, allyId, partyId, instanceId, isLeader, isPartyLeader);
  }

  lemma PositionGood(w: World, id: uint32, x: real, y: real, z: real, instanceId: uint32)
    requires Good(w)
    ensures Good(SetPlayerPosition(w, id, x, y, z, instanceId))
  {
  }

  lemma SessionGood(w: World, id: uint32, sid: uint32)
    requires Good(w)
    ensures Good(SetPlayerSession(w, id, sid))
  {
  }

  lemma ChannelsGood(w: World, chs: Channels)
    requires Good(w) && ChannelsWellFormed(chs)
    ensures Good(w.(channels := chs))
  {
  }

  lemma EventGood(w: World, e: Event, grow: Allocator)
    requires Good(w)
    ensures Good(ApplyToWorld(w, e, grow))
  {
    var p := PlayerOrNew(w, e.player);
    match e {
      case Position(id, x, y, z, i) => PositionGood(w, id, x, y, z, i);
      case InstanceChange(id, i) => PositionGood(w, id, p.x, p.y, p.z, i);
      case ClanChange(id, c, leads) => UpsertGood(w, id, c, p.allyId, p.partyId, p.instanceId, leads, p.isPartyLeader);
      case AllyChange(id, a) => UpsertGood(w, id, p.clanId, a, p.partyId, p.instanceId, p.isLeader, p.isPartyLeader);
      case PartyChange(id, k, leads) => UpsertGood(w, id, p.clanId, p.allyId, k, p.instanceId, p.isLeader, leads);
      case ClanLeaderChange(_, c, leader) => ClanGood(w, c, leader);
      case CCChange(id, ccId, leader, members) =>
        if ccId == 0 {
          ChannelsKept(w.channels, id, grow);
          ChannelsGood(w, LeaveOwnChannel(w.channels, id, grow));
        } else {
          UpsertChannelWellFormed(w.channels, ccId, leader, members, grow);
          ChannelsGood(w, UpsertChannel(w.channels, ccId, leader, members, grow));
        }
      case Logout(id) => RemovalGood(w, id);
    }
  }

  lemma ClanGood(w: World, c: uint32, leader: uint32)
    requires Good(w)
    ensures Good(UpsertClan(w, c, leader, false))
  {
  }

  lemma CommandGood(w: World, actor: uint32, cmd: Command)
    requires Good(w)
    ensures Good(Exec(w, actor, cmd))
  {
    var v := Exec(w, actor, cmd);
    Authority.ExecWellFormed(w, actor, cmd);
    Authority.ExecPlayers(w, actor, cmd);
    OwnedAfterCommand(w, v, actor, cmd);
    WhispersAfterCommand(w, v, actor, cmd);
  }

  lemma WhispersAfterCommand(w: World, v: World, actor: uint32, cmd: Command)
    requires WhispersValid(w) && v == Exec(w, actor, cmd)
    ensures WhispersValid(v)
  {
  }

  lemma OwnedAfterCommand(w: World, v: World, actor: uint32, cmd: Command)
    requires ModesOwned(w) && v == Exec(w, actor, cmd) && v.players.Keys == w.players.Keys
    ensures ModesOwned(v)
  {
  }

  // Whatever the game reports and clients ask for, in whatever order.
  lemma {:induction false} EveryRunGood(w: World, inputs: seq<Replication.Input>, grow: Allocator)
    requires Good(w)
    ensures Good(Replication.Run(w, inputs, grow))
    decreases |inputs|
  {
    if inputs == [] {
    } else {
      match inputs[0] {
        case Deliver(event) =>
          if Decode(event).Some? {
            EventGood(w, Decode(event).value, grow);
          }
        case Client(actor, cmd) => CommandGood(w, actor, cmd);
        case Auth(player, sid) =>
          UpsertGood(w, player, 0, 0, 0, 0, false, false);
          SessionGood(if player in w.players then w else UpsertPlayer(w, player, 0, 0, 0, 0, false, false), player,
              sid);
      }
      EveryRunGood(Replication.Step(w, inputs[0], grow), inputs[1..], grow);
    }
  }

  // So every packet the service ever routes has a volume the wire can carry, and a clan
  // whose mode setter has logged out is back to no mode.
  lemma EveryRoutedVolumeIsBounded(inputs: seq<Replication.Input>, grow: Allocator, pkt: Router.Packet,
                                   cfg: Router.Config, d: Router.Decision)
    requires Router.Delivers(Replication.Run(EMPTY_WORLD, inputs, grow), pkt, cfg, d)
    ensures 0.0 <= d.volume <= 4.0
  {
    EveryRunGood(EMPTY_WORLD, inputs, grow);
    RouterLaws.VolumesAreBounded(Replication.Run(EMPTY_WORLD, inputs, grow), pkt, cfg, d);
  }

  lemma ModeEndsWithItsSetter(inputs: seq<Replication.Input>, grow: Allocator, c: uint32)
    requires c in Replication.Run(EMPTY_WORLD, inputs, grow).clans
    requires Replication.Run(EMPTY_WORLD, inputs, grow).clans[c].modeSetBy !in
             Replication.Run(EMPTY_WORLD, inputs, grow).players
    ensures Replication.Run(EMPTY_WORLD, inputs, grow).clans[c].mode == MODE_NONE
  {
    EveryRunGood(EMPTY_WORLD, inputs, grow);
    var w := Replication.Run(EMPTY_WORLD, inputs, grow);
    assert ModeOwned(w.clans[c], w.players.Keys);
  }
}
