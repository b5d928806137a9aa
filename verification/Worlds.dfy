/**
 * The voice service's view of the game world as a value, and what each locked
 * operation of the world state does to it.
 *
 * The value leaves out the two redundant structures the service keeps (the party
 * index and the ordered list of remote mutes); WorldState ties those to it.
 */
module Worlds {
  import opened Types

  const CH_PROXIMITY: uint8 := 0
  const CH_PARTY: uint8 := 1
  const CH_CLAN: uint8 := 2
  const CH_ALLY: uint8 := 3
  const CH_CC: uint8 := 4
  const CH_MODE_UNIFIED: uint8 := 8

  const MODE_NONE: uint8 := 0
  const MODE_FARM: uint8 := 4

  datatype Role = Member | SubLeader | Leader

  datatype Scope = ClanScope | AllyScope

  // One entry per user-facing channel: proximity, party, clan, ally.
  type Toggles = s: seq<bool> | |s| == 4 witness [true, true, true, true]
  type Volumes = s: seq<real> | |s| == 4 witness [1.0, 1.0, 1.0, 1.0]

  datatype Prefs = Prefs(
    channelEnabled: Toggles,
    channelVolume: Volumes,
    muted: set<uint32>,
    playerVolume: map<uint32, real>,
    whisperMode: uint8,
    whisperKey: int)

  const DEFAULT_PREFS := Prefs([true, true, true, true], [1.0, 1.0, 1.0, 1.0], {}, map[], 0, 0)

  datatype Player = Player(
    id: uint32,
    sessionId: uint32,
    clanId: uint32,
    allyId: uint32,
    partyId: uint64,
    instanceId: uint32,
    x: real, y: real, z: real,
    isLeader: bool,
    isPartyLeader: bool,
    prefs: Prefs)

  datatype Clan = Clan(
    id: uint32,
    leaderId: uint32,
    subLeaders: set<uint32>,
    mode: uint8,
    modeSetBy: uint32,
    isAllyLeader: bool,
    optedOut: bool)

  // `capacity` is the capacity of the slice behind `memberIds`: whether a rebuild
  // reuses the backing array depends on it.
  datatype CommandChannel = CommandChannel(
    id: uint32,
    leaderId: uint32,
    memberIds: seq<uint32>,
    capacity: nat,
    speak: set<uint32>)

  datatype MuteScopes = MuteScopes(onClan: bool, onAlly: bool)

  // The command channels by id, and the reverse index from player to channel id.
  datatype Channels = Channels(ccs: map<uint32, CommandChannel>, playerCC: map<uint32, uint32>)

  datatype World = World(
    players: map<uint32, Player>,
    clans: map<uint32, Clan>,
    channels: Channels,
    mutes: map<(uint32, uint32), MuteScopes>)

  const EMPTY_WORLD := World(map[], map[], Channels(map[], map[]), map[])

  // How much capacity the Go runtime gives a slice of this capacity when it must hold
  // this many elements. Nothing is assumed of it; Capacity makes the result fit.
  type Allocator = (nat, nat) -> nat

  function Capacity(grow: Allocator, current: nat, needed: nat): (capacity: nat)
    ensures needed <= capacity && (needed <= current ==> capacity == current)
  {
    if needed <= current then current
    else if grow(current, needed) < needed then needed
    else grow(current, needed)
  }

  // ---- invariant ----

  ghost predicate VolumesInRange(prefs: Prefs) {
    && (forall i :: 0 <= i < 4 ==> 0.0 <= prefs.channelVolume[i] <= 2.0)
    && (forall id :: id in prefs.playerVolume ==> 0.0 <= prefs.playerVolume[id] <= 2.0)
  }

  ghost predicate WellFormed(w: World) {
    && (forall id :: id in w.players ==> w.players[id].id == id && VolumesInRange(w.players[id].prefs))
    && (forall c :: c in w.clans ==> w.clans[c].id == c)
    && ChannelsWellFormed(w.channels)
  }

  ghost predicate ChannelsWellFormed(chs: Channels) {
    forall c :: c in chs.ccs ==> chs.ccs[c].id == c && |chs.ccs[c].memberIds| <= chs.ccs[c].capacity
  }

  // ---- readers ----

  ghost function PartyMembers(w: World, id: uint32): set<uint32> {
    if id !in w.players || w.players[id].partyId == 0 then {}
    else set m | m in w.players && w.players[m].partyId == w.players[id].partyId
  }

  ghost function ClanMembers(w: World, clanId: uint32): set<uint32> {
    if clanId == 0 then {} else set m | m in w.players && w.players[m].clanId == clanId
  }

  ghost function AllyMembers(w: World, allyId: uint32): set<uint32> {
    if allyId == 0 then {} else set m | m in w.players && w.players[m].allyId == allyId
  }

  function RoleOf(w: World, id: uint32): Role {
    if id !in w.players || w.players[id].clanId == 0 then Member
    else
      var p := w.players[id];
      if p.clanId !in w.clans then Member
      else if p.isLeader || w.clans[p.clanId].leaderId == id then Leader
      else if id in w.clans[p.clanId].subLeaders then SubLeader
      else Member
  }

  ghost predicate RemotelyMuted(w: World, target: uint32, scope: Scope) {
    exists muter ::
      (muter, target) in w.mutes &&
      if scope == ClanScope then w.mutes[(muter, target)].onClan else w.mutes[(muter, target)].onAlly
  }

  function ChannelOf(chs: Channels, id: uint32): Option<CommandChannel> {
    if id in chs.playerCC && chs.playerCC[id] in chs.ccs then Some(chs.ccs[chs.playerCC[id]]) else None
  }

  function SpeakAllowed(chs: Channels, id: uint32): bool {
    match ChannelOf(chs, id)
    case None => false
    case Some(cc) => id == cc.leaderId || id in cc.speak
  }

  // ---- operations ----

  function NewPlayer(id: uint32): Player {
    Player(id, 0, 0, 0, 0, 0, 0.0, 0.0, 0.0, false, false, DEFAULT_PREFS)
  }

  function PlayerOrNew(w: World, id: uint32): Player {
    if id in w.players then w.players[id] else NewPlayer(id)
  }

  function UpsertPlayer(w: World, id: uint32, clanId: uint32, allyId: uint32, partyId: uint64,
                        instanceId: uint32, isLeader: bool, isPartyLeader: bool): World
  {
    var p := PlayerOrNew(w, id).(clanId := clanId, allyId := allyId, partyId := partyId,
                                 instanceId := instanceId, isLeader := isLeader, isPartyLeader := isPartyLeader);
    w.(players := w.players[id := p])
  }

  function SetPlayerSession(w: World, id: uint32, sid: uint32): World {
    if id in w.players then w.(players := w.players[id := w.players[id].(sessionId := sid)]) else w
  }

  function SetPlayerPosition(w: World, id: uint32, x: real, y: real, z: real, instanceId: uint32): World {
    if id in w.players then
      w.(players := w.players[id := w.players[id].(x := x, y := y, z := z, instanceId := instanceId)])
    else w
  }

  function SetPrefs(w: World, id: uint32, prefs: Prefs): World {
    if id in w.players then w.(players := w.players[id := w.players[id].(prefs := prefs)]) else w
  }

  function UpsertClan(w: World, id: uint32, leaderId: uint32, isAllyLeader: bool): World {
    var c := if id in w.clans then w.clans[id] else Clan(id, 0, {}, MODE_NONE, 0, false, false);
    w.(clans := w.clans[id := c.(leaderId := leaderId, isAllyLeader := isAllyLeader)])
  }

  function SetSubLeader(w: World, clanId: uint32, target: uint32, promote: bool): World {
    if clanId !in w.clans then w
    else
      var c := w.clans[clanId];
      w.(clans := w.clans[clanId :=
          c.(subLeaders := if promote then c.subLeaders + {target} else c.subLeaders - {target})])
  }

  function SetClanMode(w: World, clanId: uint32, mode: uint8, setBy: uint32): World {
    if clanId !in w.clans then w
    else
      w.(clans := w.clans[clanId := w.clans[clanId].(mode := mode,
          modeSetBy := if mode == MODE_NONE then 0 else setBy)])
  }

  function SetClanOptOut(w: World, clanId: uint32, optOut: bool): World {
    if clanId !in w.clans then w
    else w.(clans := w.clans[clanId := w.clans[clanId].(optedOut := optOut)])
  }

  function AddRemoteMute(w: World, muter: uint32, target: uint32, onClan: bool, onAlly: bool): World {
    w.(mutes := w.mutes[(muter, target) := MuteScopes(onClan, onAlly)])
  }

  function ClearRemoteMute(w: World, muter: uint32, target: uint32): World {
    w.(mutes := KeepMutes(w.mutes, OtherThan((muter, target))))
  }

  // ---- command channels ----

  function ElementsOf(s: seq<uint32>): (elements: set<uint32>)
    ensures forall x :: x in elements <==> x in s
  {
    set x | x in s
  }

  function Without(s: seq<uint32>, id: uint32): (r: seq<uint32>)
    ensures |r| <= |s|
    ensures forall x :: x in r <==> x in s && x != id
    ensures id !in s ==> r == s
  {
    if s == [] then []
    else
      var front := Without(s[..|s| - 1], id);
      assert s == s[..|s| - 1] + [s[|s| - 1]];
      if s[|s| - 1] == id then front else front + [s[|s| - 1]]
  }

  // The others keep their order and their repetitions.
  lemma {:induction false} WithoutJoin(s: seq<uint32>, t: seq<uint32>, id: uint32)
    ensures Without(s + t, id) == Without(s, id) + Without(t, id)
  {
    if t == [] {
      assert s + t == s;
    } else {
      assert (s + t)[..|s + t| - 1] == s + t[..|t| - 1];
      WithoutJoin(s, t[..|t| - 1], id);
    }
  }

  lemma WithoutOne(x: uint32, id: uint32)
    ensures Without([x], id) == if x == id then [] else [x]
  {
    assert [x][..0] == [];
  }

  function ChannelOrNew(chs: Channels, ccId: uint32): CommandChannel {
    if ccId in chs.ccs then chs.ccs[ccId] else CommandChannel(ccId, 0, [], 0, {})
  }

  /**
   * What the service reads through the old member slice once the new members have
   * been appended to the same slice cut to length zero: the old members when the
   * backing array had to be replaced, the new ones over the old ones otherwise.
   */
  function OldAsSeen(prior: seq<uint32>, capacity: nat, members: seq<uint32>): (seen: seq<uint32>)
    ensures |seen| == |prior|
  {
    if capacity < |members| then prior
    else if |members| <= |prior| then members + prior[|members|..]
    else members[..|prior|]
  }

  // Entry by entry: the new list shows through as far as it reaches into a kept array.
  lemma OldAsSeenAt(prior: seq<uint32>, capacity: nat, members: seq<uint32>, i: nat)
    requires i < |prior|
    ensures OldAsSeen(prior, capacity, members)[i] ==
            if |members| <= capacity && i < |members| then members[i] else prior[i]
  {
  }

  // The reverse index with every entry of `members` set to a channel.
  function PointTo(playerCC: map<uint32, uint32>, members: seq<uint32>, ccId: uint32): map<uint32, uint32> {
    map p | p in playerCC.Keys + ElementsOf(members) :: if p in members then ccId else playerCC[p]
  }

  // The reverse index without the entries of `gone` that point to a channel.
  function Unpoint(playerCC: map<uint32, uint32>, gone: set<uint32>, ccId: uint32): map<uint32, uint32> {
    map p | p in playerCC && !(p in gone && playerCC[p] == ccId) :: playerCC[p]
  }

  function Rebuild(chs: Channels, ccId: uint32, leaderId: uint32, members: seq<uint32>,
                   seen: set<uint32>, grow: Allocator): Channels
  {
    var cc := ChannelOrNew(chs, ccId);
    var gone := seen - ElementsOf(members);
    var rebuilt := cc.(leaderId := leaderId, memberIds := members,
                       capacity := Capacity(grow, cc.capacity, |members|), speak := cc.speak - gone);
    Channels(chs.ccs[ccId := rebuilt], Unpoint(PointTo(chs.playerCC, members, ccId), gone, ccId))
  }

  function UpsertChannel(chs: Channels, ccId: uint32, leaderId: uint32, members: seq<uint32>, grow: Allocator)
    : Channels
  {
    var cc := ChannelOrNew(chs, ccId);
    Rebuild(chs, ccId, leaderId, members, ElementsOf(OldAsSeen(cc.memberIds, cc.capacity, members)), grow)
  }

  /** What the method's own comment promises: departures are read from a copy of the old list. */
  function UpsertChannelAsDocumented(chs: Channels, ccId: uint32, leaderId: uint32, members: seq<uint32>,
                                     grow: Allocator): Channels
  {
    Rebuild(chs, ccId, leaderId, members, ElementsOf(ChannelOrNew(chs, ccId).memberIds), grow)
  }

  function DissolveChannel(chs: Channels, ccId: uint32): Channels {
    if ccId !in chs.ccs then chs
    else Channels(chs.ccs - {ccId}, Unpoint(chs.playerCC, ElementsOf(chs.ccs[ccId].memberIds), ccId))
  }

  function CanGrantSpeak(chs: Channels, ccId: uint32, target: uint32): bool {
    ccId in chs.ccs && target != chs.ccs[ccId].leaderId && target in chs.ccs[ccId].memberIds
  }

  function SetSpeakPermission(chs: Channels, ccId: uint32, target: uint32, allow: bool): Channels {
    if !CanGrantSpeak(chs, ccId, target) then chs
    else
      var cc := chs.ccs[ccId];
      chs.(ccs := chs.ccs[ccId := cc.(speak := if allow then cc.speak + {target} else cc.speak - {target})])
  }

  // The command-channel part of a logout: the player leaves the channel it is mapped to,
  // which is dissolved if it led it.
  function LeaveChannel(chs: Channels, id: uint32): Channels {
    if id !in chs.playerCC then chs
    else
      var ccId := chs.playerCC[id];
      if ccId !in chs.ccs then chs.(playerCC := chs.playerCC - {id})
      else
        var cc := chs.ccs[ccId].(memberIds := Without(chs.ccs[ccId].memberIds, id),
            speak := chs.ccs[ccId].speak - {id});
        var without := chs.(ccs := chs.ccs[ccId := cc]);
        var left := if cc.leaderId == id then DissolveChannel(without, ccId) else without;
        left.(playerCC := left.playerCC - {id})
  }

  // What a player leaving its channel makes of the channels: the last member out dissolves it.
  function LeaveOwnChannel(chs: Channels, id: uint32, grow: Allocator): Channels {
    match ChannelOf(chs, id)
    case None => chs
    case Some(cc) =>
      var rest := Without(cc.memberIds, id);
      if rest == [] then DissolveChannel(chs, cc.id) else UpsertChannel(chs, cc.id, cc.leaderId, rest, grow)
  }

  // ---- logout ----

  function StripClan(c: Clan, id: uint32): Clan {
    var c' := c.(subLeaders := c.subLeaders - {id});
    if c.modeSetBy == id then c'.(mode := MODE_NONE, modeSetBy := 0) else c'
  }

  function StripClans(clans: map<uint32, Clan>, id: uint32): map<uint32, Clan> {
    map c | c in clans :: StripClan(clans[c], id)
  }

  function NotInvolving(id: uint32): ((uint32, uint32)) -> bool {
    (k: (uint32, uint32)) => k.0 != id && k.1 != id
  }

  function OtherThan(pair: (uint32, uint32)): ((uint32, uint32)) -> bool {
    (k: (uint32, uint32)) => k != pair
  }

  function KeepMutes(mutes: map<(uint32, uint32), MuteScopes>, keep: ((uint32, uint32)) -> bool)
    : map<(uint32, uint32), MuteScopes>
  {
    map k | k in mutes && keep(k) :: mutes[k]
  }

  function RemovePlayer(w: World, id: uint32): World {
    if id !in w.players then w
    else
      World(w.players - {id}, StripClans(w.clans, id), LeaveChannel(w.channels, id),
            KeepMutes(w.mutes, NotInvolving(id)))
  }

  // ---- every operation keeps the world well formed ----

  lemma UpsertPlayerWellFormed(w: World, id: uint32, clanId: uint32, allyId: uint32, partyId: uint64,
                               instanceId: uint32, isLeader: bool, isPartyLeader: bool)
    requires WellFormed(w)
    ensures WellFormed(UpsertPlayer(w, id, clanId, allyId, partyId, instanceId, isLeader, isPartyLeader))
  {
  }

  lemma UpsertChannelWellFormed(chs: Channels, ccId: uint32, leaderId: uint32, members: seq<uint32>, grow: Allocator)
    requires ChannelsWellFormed(chs)
    ensures ChannelsWellFormed(UpsertChannel(chs, ccId, leaderId, members, grow))
  {
  }

  lemma RemovePlayerWellFormed(w: World, id: uint32)
    requires WellFormed(w)
    ensures WellFormed(RemovePlayer(w, id))
  {
  }
}
