# L2 voice: a verified model

Dafny models of the proximity and group voice system for a Lineage 2 server, and proofs
about them. The system has three parts: a bridge inside the game server that polls the online players and
publishes events, a voice service that replays those events into its own view of the
world and routes every voice packet by it, and a client that shows what the service tells it.

| file | models |
|---|---|
| Worlds, WorldStates | the service's world state: the abstract value and the class that keeps the redundant party index, the reverse channel index and the ordered mute list |
| ChannelCoherence, Logout, Reachability | what runs of operations keep, and exactly where the code loses it |
| Topology, SessionTable, ConnReg | voice sessions and client connections with their indices |
| WorldChanges, SessionPositions, PollerEvents | what each event does to the world and to the sessions, and which events a reading publishes, over the records |
| Events, Bridge, LastWriter, Replication, Convergence, Positions, Drift, Leaders, SteppingDown | the poller's diffing, the event handlers, and why the copy follows the game: groups, positions and leadership |
| Survival, Redelivery, SessionSurvival | how long the state lasts that only the service holds, and what a second delivery of the events does to it |
| Commands, CommandRights, Authority, Effects | client commands and their authorization, who may do what over the records, what whole runs of them cannot do, and what an accepted one means for what is heard |
| Router, DecisionMatrix, RouterLaws | who hears a packet, how loud, on which channel: the rules, the same over the records, and laws relating two worlds |
| GroupAudio | live group audio: the decisions as datagrams to sessions, from records to bytes |
| Proximity, ProximityReach | live proximity audio: who is sent what, over the sessions' fields and the datagrams' bytes |
| Frames, ClientState, SnapshotContents, CommandNotices | the snapshot built for a client and who is told about an event or a command |
| Resp, RespReader | the Redis protocol reader |
| Json, Scanner, ScannedText, KeySearch, MemberRoundTrip, FrameRoundTrip | the printed snapshot and the client's hand-written scanner: what it makes of any text, and of what the service prints |
| Tokens, AudioRings | one-shot login tokens; the client's audio buffers |
| Types, Decimal, Numerals | shared integers and decimal text |

`dafny verify dfyconfig.toml` checks the whole project.

## Main results

- The copy follows the game (`Convergence.ReplicaFollowsGameOnTwoTransports`): however the
  two deliveries of the event stream and the clients' requests interleave, every online player ends
  with the fields it was last read with, and stands within a bound of where it was read
  (`Drift.DriftIsBounded`).
- Routing is its decision matrix (`Router.Route`), which `DecisionMatrix` reads off the players',
  clans' and channels' fields channel by channel. Laws relating two worlds follow:
  modes are unions, mutes interfere with nothing else, leaders override toggles.
- Group audio reaches exactly the sessions the matrix names, byte by byte (`GroupAudio.PartyAudioIff`),
  and none of a muted speaker's (`GroupAudio.MutedSpeakerSendsNothing`).
- Live proximity audio sends one datagram to each session it reaches and to no other, with the
  loudness and side of the speaker (`ProximityReach.SentToReached`), and a session stands where the
  last position published for its player put it (`SessionPositions.SessionHoldsLastSent`).
- Who may give each command, what it then changes and who is told is decided over the records
  (`CommandRights`), and so is what each reading publishes (`PollerEvents.EmittedIff`) and each
  event changes (`WorldChanges`). Over whole runs of the poller the last channel event of every
  online player agrees with its last reading (`PollerEvents.ChannelsReported`).
- A client's scanner recovers every printed snapshot (`FrameRoundTrip.FrameReadBack`),
  and the protocol reader inverts the protocol's encoding (`Resp.FramesInvert`).
- An event handled twice in a row is handled once (`Events.HandledTwice`). Delivered again later
  it is not: preferences, ranks, modes, mutes and sessions last exactly until the last delivery
  of a logout (`Redelivery.PrefsSurviveTwoTransportsIff`).
- Snapshots that change are pushed, with exact exceptions (`ClientState.NotificationComplete`,
  `CommandNotices.CommandNoticesCompleteIff`), and tokens are one-shot (`Tokens.IssuedTokenIsOneShot`).
- The client's audio rings are queues exactly as long as the wrap of their counters allows
  (`AudioRings.RunIsFifoIff`).

## Where the code differs from its documentation

- Rebuilding a command channel reads the departed members through a slice that has already been
  overwritten, so some departures are missed. The model keeps the slice and its capacity;
  `ChannelCoherence.UpsertCoherentIff` gives the exact condition, `DepartedSpeakerKeepsSpeaking`
  an example, `DocumentedRunCoherent` what a copy would give.
- Each event is sent on both transports because its effect is said to be idempotent. A second
  logout is not, once the player is back (`Redelivery.MuteLostOnTwoTransports`).
- A player that moves to another channel stays on the first one's list (`Logout.LogoutUnlistsIff`).
- Dropping one of two sessions of a player hides the other (`Topology.DropKeepsPlayersFoundIff`).
- The protocol document rules out packets with gain 0, and lists a pan of -127; the first are sent
  (`Proximity.SentSilentIff`), the second is not (`Proximity.PanRises`).
- The audio rings' sizes do not divide 2 to the 32: when a counter wraps, a queue of more than 4096
  samples loses its order (`AudioRings.WrapLosesOrder`), and the echo reference is silent for a while
  (`AudioRings.WrapSilencesReference`).
- A coordinate jump of 2 to the 31 goes unnoticed (`Drift.MoveMissedIff`).
- A leader that steps down goes on leading until a successor is seen, and one that moves straight
  to lead another clan gives it no record (`Leaders.LeadershipAgreesIff`).
- The bridge never sends the party-leader flag, so a decoded party event carries false
  (`Bridge.Decode`).
- A null array nested anywhere inside a frame brings the Redis reader down
  (`Resp.NestedNullArrayPanics`).
- Un-muting one scope clears both, and muting one lifts the author's mute on the other
  (`Effects.RemoteMuteTakesEffect`), without everybody concerned being told (`CommandNotices.LiftedMuteIsMissed`).

## Conventions

- Identifiers have the widths of the code; `float32` is modelled as real, without rounding.
- Each locked method or handler is one atomic step.
- Parameters stand for code outside the repository: the square root, the keyed hash and its
  text encoding, the digits Java reads, the host part of an address, and how much a Go slice grows when it must
  (`Worlds.Allocator`, of which nothing is assumed).
- Structures behind pointers (players, clans, channels, sessions) are values in maps; handlers
  hold them only within one atomic step.
- A packet may whisper, as the router allows, although nothing outside its tests marks one
  as doing so (voice-service/internal/audio/udp.go:358-365 and 506-513 leave the flag false).
- Iteration over maps is in any order, and the results that depend on it are stated as sets.

## Model

| member | source | states |
|---|---|---|
| Worlds.OldAsSeenAt | voice-service/internal/world/state.go:391-395 | Entry by entry, what the rebuild reads through the old member slice once the new list has been appended over it: the new entry if the array was kept and the new list reaches so far, the old one otherwise |
| Worlds.Without | voice-service/internal/world/state.go:244-251 | An id is left exactly if it was listed and is not the one dropped, and nothing changes if that was not listed |
| Worlds.WithoutJoin | voice-service/internal/world/state.go:244-251 | The filter goes entry by entry: order and repetitions of the others survive |
| Worlds.Capacity | voice-service/internal/world/state.go:392-392 | The backing array is kept exactly when the new list fits it, and always holds the new list |
| Worlds.UpsertPlayerWellFormed | voice-service/internal/world/state.go:178-195 | A new player starts with volumes in range; an upsert never loses the record-per-id shape |
| Worlds.UpsertChannelWellFormed | voice-service/internal/world/state.go:378-407 | A rebuild keeps every channel under its own id and within its capacity |
| Worlds.RemovePlayerWellFormed | voice-service/internal/world/state.go:217-270 | A logout keeps the world well formed |
| WorldStates.IndexAfterLeave | voice-service/internal/world/state.go:278-285 | Taking a player out of its bucket, and deleting a bucket left empty, leaves exactly the index of the world in which that player is in no party |
| WorldStates.IndexAfterJoin | voice-service/internal/world/state.go:286-294 | Putting a solo player into a bucket leaves exactly the index of the world in which it is in that party |
| WorldStates.MuteTableEntries | voice-service/internal/world/state.go:501-518 | A mute list without duplicate pairs is a table: looking a pair up finds its entry |
| WorldStates.KeepTable | voice-service/internal/world/state.go:262-269 | Compacting the list by any test on pairs is restricting the table to the pairs that pass |
| WorldStates.KeepDistinct | voice-service/internal/world/state.go:262-269 | Compacting never creates duplicate pairs |
| WorldStates.WorldState.UpsertPlayer | voice-service/internal/world/state.go:178-195 | New abstract world after an upsert, with the party buckets still exactly the non-empty sets of players by party id |
| WorldStates.WorldState.MoveParty | voice-service/internal/world/state.go:274-295 | Only the party id changes, and the buckets follow it |
| WorldStates.WorldState.SetPlayerSession | voice-service/internal/world/state.go:197-203 | An unknown player is ignored; a known one changes only its session |
| WorldStates.WorldState.SetPlayerPosition | voice-service/internal/world/state.go:205-213 | An unknown player is ignored; a known one changes only its position and instance |
| WorldStates.WorldState.SetPrefs | voice-service/internal/world/state.go:664-670 | Whatever the preferences, only those of a known player change; the state stays valid if their volumes are in range |
| WorldStates.WorldState.RemovePlayer | voice-service/internal/world/state.go:217-270 | The in-place clean-up of buckets, clans, channel and mutes together is the abstract logout, and the surviving mutes keep their order |
| WorldStates.WorldState.CompactMembers | voice-service/internal/world/state.go:244-251 | The filter that writes survivors over the start of the slice yields the list without the id |
| WorldStates.WorldState.Compact | voice-service/internal/world/state.go:264-269 | The filter that writes survivors over the start of the mute list keeps exactly the passing entries, in order |
| WorldStates.WorldState.LeaveChannelOf | voice-service/internal/world/state.go:238-261 | The channel part of a logout |
| WorldStates.WorldState.StripClans | voice-service/internal/world/state.go:228-234 | Every clan loses the player as sub-leader, and its mode if the player had set it |
| WorldStates.WorldState.UpsertClan | voice-service/internal/world/state.go:299-310 | Leader and alliance flag are replaced, everything else of the clan stays |
| WorldStates.WorldState.SetSubLeader | voice-service/internal/world/state.go:327-340 | Succeeds exactly when the clan is known, and then only the sub-leader set changes |
| WorldStates.WorldState.SetClanMode | voice-service/internal/world/state.go:342-356 | Succeeds exactly when the clan is known; the setter is recorded, or cleared with the mode |
| WorldStates.WorldState.SetClanOptOut | voice-service/internal/world/state.go:358-367 | Succeeds exactly when the clan is known, and then only the flag changes |
| WorldStates.WorldState.AppendOver | voice-service/internal/world/state.go:391-392 | After appending to the slice cut to length zero, the old slice header shows OldAsSeen |
| WorldStates.WorldState.UpsertCommandChannel | voice-service/internal/world/state.go:378-407 | The loops over new and departed members are the abstract rebuild, departures read through the overwritten slice |
| WorldStates.WorldState.DissolveCommandChannel | voice-service/internal/world/state.go:411-424 | The channel goes, with the reverse entries of its members that point to it |
| WorldStates.WorldState.SetCCSpeakPermission | voice-service/internal/world/state.go:429-456 | Succeeds exactly for a listed member that is not the leader, and then only that grant changes |
| WorldStates.WorldState.AddRemoteMute | voice-service/internal/world/state.go:501-518 | Overwrites the entry of the pair or appends one: the table maps the pair to the new scopes |
| WorldStates.WorldState.ClearRemoteMute | voice-service/internal/world/state.go:520-531 | The pair leaves the table whatever its scopes: clearing one scope clears both |
| WorldStates.WorldState.IsRemotelyMuted | voice-service/internal/world/state.go:535-554 | True exactly when some entry of the table mutes the target in the scope |
| WorldStates.WorldState.PartyMembersOf | voice-service/internal/world/state.go:600-613 | The bucket read is exactly the set of players with the same non-zero party id |
| WorldStates.WorldState.RoleOfPlayer | voice-service/internal/world/state.go:578-596 | The role decided by clan, leader flags and sub-leader set |
| WorldStates.WorldState.ClanMembersOf | voice-service/internal/world/state.go:616-629 | The scan finds exactly the players of the clan, none for clan 0 |
| WorldStates.WorldState.AllyMembersOf | voice-service/internal/world/state.go:647-660 | The scan finds exactly the players of the alliance, none for alliance 0 |
| WorldStates.WorldState.PlayersInInstance | voice-service/internal/world/state.go:633-643 | The scan finds exactly the players of the instance |
| Logout.LogoutForgets | voice-service/internal/world/state.go:217-270 | After a logout the id is in no player record, no sub-leader set, no mode, no mute and no reverse channel entry |
| Logout.LogoutSparesOthers | voice-service/internal/world/state.go:217-270 | Every other player keeps its record and role, and its party minus the one who left |
| Logout.StrippedClan | voice-service/internal/world/state.go:228-234 | A clan keeps its leader and opt-out; it loses the sub-leader, and its mode only if the player had set it |
| Logout.LogoutSparesMutes | voice-service/internal/world/state.go:262-269 | Exactly the mutes not involving the player remain, unchanged |
| Logout.LeavingOneChannel | voice-service/internal/world/state.go:238-261 | Only the channel the player is mapped to changes: it loses the member and grant, or goes if the player led it |
| Logout.LogoutUnlistsIff | voice-service/internal/world/state.go:238-261 | The id is left in no member list and no grant if and only if it was only listed in the channel it was mapped to |
| Logout.MovedPlayerStaysListed | voice-service/internal/world/state.go:238-261 | A player taken into a second channel and then logged out stays on the first one's list |
| Logout.LogoutSparesOtherMappings | voice-service/internal/world/state.go:238-261 | Other players stay mapped unless the player led their channel and they are on its list |
| ChannelCoherence.UpsertCoherentIff | voice-service/internal/world/state.go:376-407 | A rebuild keeps reverse index and grants inside the member lists if and only if every departed member with something to clean up sits in the part of the old list the new one does not overwrite |
| ChannelCoherence.StepCoherentIff | voice-service/internal/world/state.go:378-456 | The same for every operation on channels: dissolving, granting and logout always keep coherence |
| ChannelCoherence.RunCoherentIff | voice-service/internal/world/state.go:378-456 | A whole run is coherent throughout if and only if each of its rebuilds sees its departures |
| ChannelCoherence.DocumentedUpsertCoherent | voice-service/internal/world/state.go:372-377 | With departures taken from a copy of the old list, as the comment promises, coherence is always kept |
| ChannelCoherence.DocumentedRunCoherent | voice-service/internal/world/state.go:372-377 | So with a copy every run is coherent |
| ChannelCoherence.CoherentSpeakersAreMembers | voice-service/internal/world/state.go:481-497 | In a coherent state whoever may speak is a listed member and leader or grant holder of its channel |
| ChannelCoherence.DissolvedChannelIsForgotten | voice-service/internal/world/state.go:411-424 | Dissolving a channel leaves nobody mapped to it |
| ChannelCoherence.LeavingTakesEffectIff | voice-service/internal/social/redis.go:349-369 | A player reporting no channel is really unmapped if and only if one of its entries of the member list lies beyond the number of entries of the others |
| ChannelCoherence.LeavingTakesEffectIffLast | voice-service/internal/social/redis.go:349-369 | So, in a list without repetitions, if and only if it is the last |
| ChannelCoherence.TrioReached | voice-service/internal/world/state.go:378-456 | A rebuild and a grant reach the three-member channel of the example, however slices grow |
| ChannelCoherence.DepartedSpeakerKeepsSpeaking | voice-service/internal/world/state.go:388-405 | After those two operations the first member leaves and, however slices grow, may still speak |
| ChannelCoherence.DocumentedDepartureIsSilenced | voice-service/internal/world/state.go:372-377 | In the same channel, the documented rebuild silences the departed member |
| Topology.StepKeepsIndicesSoundIff | voice-service/internal/topology/state.go:58-158 | An operation keeps both indices pointing to live sessions that carry the indexed player or address if and only if it is not an allocation that comes round to an id still indexed, nor an address remembered for a dropped session |
| Topology.RunKeepsIndicesSoundIff | voice-service/internal/topology/state.go:58-158 | The same over whole runs, the id counter wrapping |
| Topology.DroppedRevivesIff | voice-service/internal/topology/state.go:58-158 | A dropped id is live again at some time of a run if and only if the run has the allocations it takes the 32-bit counter to come round to it |
| Topology.AllocatedIsFound | voice-service/internal/topology/state.go:58-72 | A player is looked up by its newest session; others as before, unless the id handed out is in use |
| Topology.DropKeepsPlayersFoundIff | voice-service/internal/topology/state.go:155-157 | Looking players up stays complete after a drop if and only if no other session of the same player is live |
| Topology.AllocChanges | voice-service/internal/topology/state.go:58-72 | An allocation adds one record under the next id, the counter wrapping, at the origin, position unknown, without address; exactly its player, unless 0, is found by it; nothing else changes |
| Topology.RememberChanges | voice-service/internal/topology/state.go:83-91 | The session carries the address and is found by it, and by no address it had before; nothing else changes |
| Topology.DropChanges | voice-service/internal/topology/state.go:144-158 | Exactly the record and its address's and player's entries go |
| Topology.SecondSessionIsLost | voice-service/internal/topology/state.go:155-157 | A player that connects twice and closes the first session is not found any more |
| SessionTables.SessionTable.AllocSession | voice-service/internal/topology/state.go:58-72 | The new table and the id it returns, the counter wrapping; the indices stay sound if and only if they do not name that id already |
| SessionTables.SessionTable.RememberUDP | voice-service/internal/topology/state.go:83-91 | The old address leaves the index before the new one enters it, also for a session dropped meanwhile; the indices stay sound if and only if it was not |
| SessionTables.SessionTable.UpdatePosition | voice-service/internal/topology/state.go:96-103 | Only the position of the session changes |
| SessionTables.SessionTable.Drop | voice-service/internal/topology/state.go:144-158 | The session leaves the table and, unconditionally, its player leaves the player index |
| ConnRegs.ConnReg.Register | voice-service/internal/control/client.go:49-56 | The connection is registered and becomes the one of its player |
| ConnRegs.ConnReg.Unregister | voice-service/internal/control/client.go:58-69 | The player index is only cleared if it still points to the closed connection |
| ConnRegs.IndexPointsToClients | voice-service/internal/control/client.go:49-69 | The player index only points to open connections of that player |
| ConnRegs.ConnectionsFindNewest | voice-service/internal/control/client.go:49-76 | A player is reached through the last connection it opened while that is open, whatever happens to older ones, and through none once it closes |
| Events.HandleEvent | voice-service/internal/social/redis.go:189-409 | World and sessions after an event, and the set of players to be told: the subject and the members, before and after, of every group touched |
| Events.UpdateWorld | voice-service/internal/social/redis.go:224-408 | The world after each kind of event and the groups it touches |
| Events.UpdateSessions | voice-service/internal/social/redis.go:224-247 | Position, instance and logout reach the session of the player |
| Events.HandleLogout | voice-service/internal/social/redis.go:377-407 | The groups are read before the player is removed |
| Events.LeaveCommandChannel | voice-service/internal/social/redis.go:349-369 | A player that reports no channel is taken off the list of the one it is mapped to, which is dissolved when nobody is left |
| Events.RebuiltTwice | voice-service/internal/world/state.go:378-407 | Rebuilding a channel twice with the same list is rebuilding it once, slice reuse included |
| Events.LeftTwice | voice-service/internal/social/redis.go:349-369 | Leaving a channel twice is leaving it once |
| Events.SessionsUpdatedTwice | voice-service/internal/social/redis.go:224-408 | Session tables: twice is once |
| Events.WorldUpdatedTwice | voice-service/internal/social/redis.go:224-408 | Worlds: twice is once |
| Events.HandledTwice | voice-service/internal/social/redis.go:189-409 | In every well-formed state, handling the same event twice in a row is handling it once |
| Bridge.PositionPoller.SameMembers | l2j-bridge/src/main/java/com/luannbr/l2voice/bridge/PositionPoller.java:130-147 | The nested loops decide equal length and inclusion; two nulls are equal, one null is not |
| Bridge.PositionPoller.Detect | l2j-bridge/src/main/java/com/luannbr/l2voice/bridge/PositionPoller.java:149-206 | What changed between the remembered snapshot and this one |
| Bridge.PositionPoller.CheckPosition | l2j-bridge/src/main/java/com/luannbr/l2voice/bridge/PositionPoller.java:192-198 | Heartbeat and movement tests decide whether the position is due |
| Bridge.PositionPoller.PublishChanges | l2j-bridge/src/main/java/com/luannbr/l2voice/bridge/PositionPoller.java:149-206 | One event for each change, in the fixed order |
| Bridge.PositionPoller.TickPlayer | l2j-bridge/src/main/java/com/luannbr/l2voice/bridge/PositionPoller.java:82-97 | The events of one snapshot and the memory after it |
| Bridge.PositionPoller.LogOut | l2j-bridge/src/main/java/com/luannbr/l2voice/bridge/PositionPoller.java:98-108 | One logout for each player remembered and not seen, and all of them forgotten |
| Bridge.PositionPoller.Poll | l2j-bridge/src/main/java/com/luannbr/l2voice/bridge/PositionPoller.java:79-108 | A poll is one Tick: all changes of all snapshots, then the logouts |
| Replication.RunActsOnRecord | voice-service/internal/social/redis.go:224-408 | What a run does to one player depends only on that player: runs act on its record alone |
| Replication.LogDecidesRecord | voice-service/internal/social/redis.go:224-408 | If the last relevant input of each kind carries the snapshot, the world ends with the snapshot, from any starting world |
| Replication.TickShown | l2j-bridge/src/main/java/com/luannbr/l2voice/bridge/PositionPoller.java:82-108 | After every poll the log of all events ever sent ends with each online player's snapshot and with the logout of the others |
| Replication.OnlineRemembered | l2j-bridge/src/main/java/com/luannbr/l2voice/bridge/PositionPoller.java:82-108 | After any run of polls the poller remembers exactly the players read in the last poll, each with its last reading there |
| Replication.RunShown | l2j-bridge/src/main/java/com/luannbr/l2voice/bridge/PositionPoller.java:65-126 | So the log of all events ends with the snapshot of each player read in the last poll, and with the logout of the others |
| Convergence.ReplicaFollowsGame | l2j-bridge/src/main/java/com/luannbr/l2voice/bridge/PositionPoller.java:82-206 | For every sequence of polls, every client activity interleaved in any way and any starting world: all players read in the last poll have the clan, leadership, alliance, party and instance they were last read with (their positions: Drift) |
| Convergence.ReplicaFollowsGameOnTwoTransports | l2j-bridge/src/main/java/com/luannbr/l2voice/bridge/RedisPublisher.java:146-156 | The same when two transports each deliver all events in order, interleaved in any way |
| Convergence.ReplicaKnowsTheOnline | voice-service/internal/social/redis.go:377-407 | From an empty world, a player that never authenticated is known if and only if it was read in the last poll |
| LastWriter.ShuffleSettled | l2j-bridge/src/main/java/com/luannbr/l2voice/bridge/RedisPublisher.java:146-156 | If the last writer of a field is right in two logs, it is right in every interleaving of them |
| LastWriter.ShuffleMade | l2j-bridge/src/main/java/com/luannbr/l2voice/bridge/RedisPublisher.java:146-156 | The same for a field that only counts while its player is known |
| Redelivery.MuteKeptOnOneTransport | voice-service/internal/social/redis.go:377-407 | One delivery of a logout and a return, then a personal mute: it stands |
| Redelivery.MuteLostOnTwoTransports | l2j-bridge/src/main/java/com/luannbr/l2voice/bridge/RedisPublisher.java:146-156 | The same with a second delivery after the mute: the preferences are the defaults again |
| Survival.PrefsLastUntilLogout | voice-service/internal/world/state.go:217-270 | Over any rest of a run in which it does not change them itself, a player's preferences stay if no logout of it is delivered, and are lost otherwise |
| Survival.RankLastsUntilLogout | voice-service/internal/world/state.go:228-234 | A sub-leader nobody in the clan promotes or demotes stays one if and only if no logout of it is delivered |
| Survival.ModeLastsUntilLogout | voice-service/internal/world/state.go:228-234 | A clan mode nobody in the clan changes stays until a logout of its setter is delivered, and then ends |
| Survival.MuteLastsUntilLogout | voice-service/internal/world/state.go:262-269 | A remote mute its author does not touch stays until a logout of author or target is delivered, and then ends |
| Redelivery.NoLogoutToComeIff | l2j-bridge/src/main/java/com/luannbr/l2voice/bridge/RedisPublisher.java:146-156 | With two deliveries, no logout of a player is still to come if and only if twice as many have come as the stream has |
| Redelivery.PrefsSurviveTwoTransportsIff | l2j-bridge/src/main/java/com/luannbr/l2voice/bridge/RedisPublisher.java:146-156 | So preferences other than the defaults survive two deliveries if and only if all logouts of the player had been delivered twice when they were set |
| SessionSurvival.SessionLastsUntilLogout | voice-service/internal/social/redis.go:377-407 | A player's only session, not closed and not replaced, lasts if and only if no logout of the player is delivered |
| SessionSurvival.SecondLogoutDropsNewSession | l2j-bridge/src/main/java/com/luannbr/l2voice/bridge/RedisPublisher.java:146-156 | The second delivery of a logout ends the session the player opened after the first |
| Positions.SpotEmittedIff | l2j-bridge/src/main/java/com/luannbr/l2voice/bridge/PositionPoller.java:192-203 | A reading publishes the position exactly when it is due, and as the last of its events |
| Positions.LogDecidesSpot | voice-service/internal/social/redis.go:224-233 | If the last write of a position while the player is known carries a spot, the player stands there |
| Positions.ReadingSpotShown | l2j-bridge/src/main/java/com/luannbr/l2voice/bridge/PositionPoller.java:192-205 | After any reading the log of all events shows, for each remembered player, the spot last published |
| Positions.SpotDeliveredTwice | l2j-bridge/src/main/java/com/luannbr/l2voice/bridge/RedisPublisher.java:146-156 | That survives every interleaving of two deliveries and of the clients |
| Drift.JavaDistanceIsExactIff | l2j-bridge/src/main/java/com/luannbr/l2voice/bridge/PositionPoller.java:195-198 | The computed distance is the real one if and only if the difference fits 32 bits |
| Drift.MoveMissedIff | l2j-bridge/src/main/java/com/luannbr/l2voice/bridge/PositionPoller.java:195-198 | A move of at least the threshold goes unnoticed on an axis if and only if it is half the integer range, or within the threshold of the whole range |
| Drift.JumpGoesUnnoticed | l2j-bridge/src/main/java/com/luannbr/l2voice/bridge/PositionPoller.java:195-198 | A jump by half the integer range is not published |
| Drift.PollsBooked | l2j-bridge/src/main/java/com/luannbr/l2voice/bridge/PositionPoller.java:192-205 | Over every run, the last position event of a remembered player is that of the account of its publications |
| Drift.ReplicaHoldsLastSent | voice-service/internal/social/redis.go:224-233 | For every sequence of polls and every interleaving of two deliveries and the clients, from any world: each online player's replicated position is that of the last position published for it |
| Drift.ReplicaHoldsLastSentOnOneTransport | voice-service/internal/social/redis.go:224-233 | The same for one delivery |
| Drift.DriftIsBounded | l2j-bridge/src/main/java/com/luannbr/l2voice/bridge/PositionPoller.java:192-205 | Hence, if no move from one reading to the next is missed, the replicated position is, per axis, within the threshold less one, times the number of readings since that publication, of the player's last reading |
| Drift.HeldBackBriefly | l2j-bridge/src/main/java/com/luannbr/l2voice/bridge/PositionPoller.java:192-205 | And that publication was less than 3000 ms old at each of those readings |
| Leaders.LeaderNamedIff | l2j-bridge/src/main/java/com/luannbr/l2voice/bridge/PositionPoller.java:160-167 | A reading names a clan leader if and only if the snapshot leads a clan and the remembered one, if any, did not lead |
| Leaders.RunActsOnLeader | voice-service/internal/social/redis.go:327-331 | What a run does to a clan's recorded leader |
| Leaders.ReplicatedLeader | voice-service/internal/social/redis.go:327-331 | After every interleaving of two deliveries and the clients, a clan's record names whoever the events named last |
| Leaders.LeadsIff | voice-service/internal/world/state.go:578-596 | From an empty world an online player leads if and only if its clan has had a leader named and its snapshot, or the last naming, says so |
| Leaders.LeadershipAgreesIff | l2j-bridge/src/main/java/com/luannbr/l2voice/bridge/PositionPoller.java:160-167 | The service and the game agree on that if and only if a leader's clan has ever had a leader named, and a plain member was not the last one named |
| SteppingDown.SteppedDownStillLeads | l2j-bridge/src/main/java/com/luannbr/l2voice/bridge/PositionPoller.java:160-167 | Two polls of a leader that steps down: however their events arrive, the service goes on taking it for the leader |
| PollerEvents.AxisMovedIff | l2j-bridge/src/main/java/com/luannbr/l2voice/bridge/PositionPoller.java:196-199 | A move counts as moved enough if and only if it is at least the threshold, at most 2 to the 32 less it, and not 2 to the 31 |
| PollerEvents.SameListIff | l2j-bridge/src/main/java/com/luannbr/l2voice/bridge/PositionPoller.java:131-147 | Two member lists are taken for the same if and only if both are null, or they are equally long and one is within the other |
| PollerEvents.EmittedIff | l2j-bridge/src/main/java/com/luannbr/l2voice/bridge/PositionPoller.java:149-206 | For every kind of event, it is published if and only if it carries the snapshot's fields and the player is new or just those fields differ; the position when new, 3000 ms after the last, or moved |
| PollerEvents.EmittedInOrder | l2j-bridge/src/main/java/com/luannbr/l2voice/bridge/PositionPoller.java:149-206 | At most one event of each kind, login first, then clan, leader, alliance, party, instance, channel and position |
| PollerEvents.ChannelsReported | l2j-bridge/src/main/java/com/luannbr/l2voice/bridge/PositionPoller.java:65-126 | Over every run of polls, the last channel event of each player read in the last poll carries the channel and leader of that reading, and as many members, all of which were read |
| PollerEvents.RememberedAs | l2j-bridge/src/main/java/com/luannbr/l2voice/bridge/PositionPoller.java:201-205 | After a reading its snapshot is remembered, and the time if and only if the position was due |
| PollerEvents.SentTimesOfOnline | l2j-bridge/src/main/java/com/luannbr/l2voice/bridge/PositionPoller.java:96-104 | After every run of polls, times of sending are remembered of exactly the players read in the last one |
| PollerEvents.DecodedAs | voice-service/internal/social/redis.go:184-224 | What each published event becomes in the service, field by field; none with a negative identifier is taken |
| Reachability.EveryRunGood | voice-service/internal/social/redis.go:224-408 | Over every run of events, commands and authentications: volumes in 0 to 2, records under their ids, modes at most 4 and owned by a known player, whisper modes at most 2 |
| Reachability.EveryRoutedVolumeIsBounded | voice-service/internal/router/router.go:75-135 | In every reachable world a routed volume is in 0 to 4 |
| Reachability.ModeEndsWithItsSetter | voice-service/internal/world/state.go:228-234 | In every reachable world a clan whose mode setter is unknown has no mode |
| WorldChanges.PositionChanges | voice-service/internal/social/redis.go:224-235 | Exactly the position and instance of a known player change, to the ones given; an unknown one is ignored |
| WorldChanges.InstanceChanges | voice-service/internal/social/redis.go:236-247 | Exactly the instance of a known player changes |
| WorldChanges.ClanChanges | voice-service/internal/social/redis.go:248-274 | Exactly the clan and the leader flag of the player change; an unknown one starts in no group, at the origin, with every channel on at volume 1 |
| WorldChanges.AllyChanges | voice-service/internal/social/redis.go:276-301 | Exactly the alliance changes, of a known or new player |
| WorldChanges.PartyChanges | voice-service/internal/social/redis.go:303-325 | Exactly the party and the party-leader flag change |
| WorldChanges.LeaderChanges | voice-service/internal/social/redis.go:327-335 | Exactly the clan's leader changes, its alliance flag being cleared; a new clan has no sub-leaders, no mode, and has not opted out |
| WorldChanges.SeenToLeaveIff | voice-service/internal/world/state.go:391-404 | Who is seen to leave a rebuilt channel: those no longer listed that had a place the new list does not overwrite |
| WorldChanges.ChannelChanges | voice-service/internal/social/redis.go:337-375 | A reported channel gets the leader and list given; its members are mapped to it; exactly those seen to leave lose grant and mapping; nothing else changes |
| WorldChanges.LeavingChanges | voice-service/internal/social/redis.go:349-369 | A player that reports no channel is taken off the list of its own, which goes with its members' mappings if nobody else is listed |
| WorldChanges.DissolvingChanges | voice-service/internal/world/state.go:411-424 | Exactly the channel and its members' mappings to it go |
| WorldChanges.LogoutChanges | voice-service/internal/world/state.go:217-270 | What a logout removes, field by field: record, ranks, modes set, mutes from and to, place on the channel or the channel led; and that nothing else changes |
| WorldChanges.AuthChanges | voice-service/internal/control/ws.go:245-248 | An authentication makes the player known and changes exactly its session |
| WorldChanges.ToldIff | voice-service/internal/social/redis.go:203-408 | For every kind of event, a player is told if and only if it is the subject, unless 0, or in a group the subject was in or comes into, written over group ids and channel lists |
| SessionPositions.PositionMovesSession | voice-service/internal/social/redis.go:224-235 | The session a player is found by gets exactly the position and instance of the event, known from then on; its other fields and all other sessions stay |
| SessionPositions.InstanceChangeMovesSession | voice-service/internal/social/redis.go:236-247 | Only the instance of that session changes; its position counts as known from then on |
| SessionPositions.LogoutEndsSession | voice-service/internal/social/redis.go:377-380 | Exactly that session goes, with its player's and its address's entries |
| SessionPositions.OtherEventsSpareSessions | voice-service/internal/social/redis.go:224-408 | No other event touches the table |
| SessionPositions.SessionStandsWhereLastPut | voice-service/internal/topology/state.go:96-103 | Over any run of delivered events and connections' operations, a session its player is found by all along stands where the last position put it |
| SessionPositions.SessionHoldsLastSent | voice-service/internal/social/redis.go:224-235 | For every sequence of polls and every interleaving of two deliveries and the connections, once a position of its player is delivered after it is found, a session ends where the last position published for the player says |
| ClientState.OrderUnique | voice-service/internal/control/state_push.go:75-89 | Party leader first, then by id, admits only one order of a set, so the sort's algorithm does not matter |
| ClientState.SortParty | voice-service/internal/control/state_push.go:73-89 | The party list in that order |
| ClientState.BuildClientState | voice-service/internal/control/state_push.go:50-96 | The snapshot of a player: header, channel and three rosters, each with the right flags, or the empty frame for an unknown player |
| ClientState.CollectChannel | voice-service/internal/control/state_push.go:117-128 | Channel members in list order, each with its right to speak |
| ClientState.CollectClan | voice-service/internal/control/state_push.go:98-115 | Every clan member once, with role and clan mute |
| ClientState.NotificationComplete | voice-service/internal/social/redis.go:203-218 | After a change of clan, alliance, party or clan leader, a player sees the same snapshot or is told, if and only if it is not an unknown player 0 put in no group while mapped to a channel or while a clan 0 has a mode or opted out |
| ClientState.NamelessIsNotTold | voice-service/internal/social/redis.go:203-218 | Such a player, not told |
| SnapshotContents.UnknownSeesNothing | voice-service/internal/control/state_push.go:50-54 | An unknown player's frame is all zeros, without rosters |
| SnapshotContents.HeaderContents | voice-service/internal/control/state_push.go:55-65 | Rank 2 for leaders, 1 for sub-leaders, 0 else; ids from the record; mode and opt-out from the clan's |
| SnapshotContents.ClanContents | voice-service/internal/control/state_push.go:87-115 | Without a clan no roster; else each player of the clan exactly once, connected if and only if it has a session, with its rank and whether anybody muted it on the clan's scope |
| SnapshotContents.AllyContents | voice-service/internal/control/state_push.go:90-115 | The same for the alliance and its scope, without ranks |
| SnapshotContents.PartyContents | voice-service/internal/control/state_push.go:73-86 | The same for the party, its leaders first and by id among equals |
| SnapshotContents.ChannelContents | voice-service/internal/control/state_push.go:66-130 | The mapped channel's list entry by entry, in order, with leader and who may speak |
| Router.Route | voice-service/internal/router/router.go:75-135 | A decision is produced if and only if the decision matrix delivers it, with that channel, volume and override; on a command channel in list order and as often as listed, elsewhere nobody twice |
| Router.WalkNearby | voice-service/internal/router/router.go:166-192 | The loop of proximity: its own tests, slot, attenuation and flags decide exactly as the matrix does |
| Router.WalkParty | voice-service/internal/router/router.go:205-225 | The loop of party |
| Router.WalkGroup | voice-service/internal/router/router.go:245-267 | The loop of clan and alliance, with its override |
| Router.WalkSeen | voice-service/internal/router/router.go:288-306 | The loop of the unified mode |
| Router.WalkList | voice-service/internal/router/router.go:321-342 | The loop of the command channel, in list order |
| Router.RouteProximity | voice-service/internal/router/router.go:156-195 | The players in range and instance that hear |
| Router.RouteParty | voice-service/internal/router/router.go:199-227 | The party members that hear |
| Router.RouteClanOrAlly | voice-service/internal/router/router.go:234-269 | The clan or alliance members that hear, privileged senders regardless of toggles |
| Router.RouteMode | voice-service/internal/router/router.go:273-308 | Clan and alliance together, each member once |
| Router.RouteCC | voice-service/internal/router/router.go:315-344 | The listed channel members that hear, in list order and as often as listed |
| Router.IsModeActive | voice-service/internal/router/router.go:139-148 | A clan is in a mode unless it has none or opted out |
| RouterLaws.ModeIsUnion | docs/DESIGN.pt-BR.md:106-132 | Two worlds differing in a clan's mode: with it on, clan and alliance reach the same people, all that either reached before and, for a leader or sub-leader, nobody else |
| RouterLaws.ModeIsIsolated | voice-service/internal/router/router.go:273-308 | Mode audio stays within clan and alliance, on its own channel, over every toggle |
| RouterLaws.MutesOnlyGovernClanAndAlly | voice-service/internal/router/router.go:83-134 | Two worlds differing in remote mutes route all other channels alike, unless the sender whispers |
| RouterLaws.RemotelyMutedIsSilent | voice-service/internal/router/router.go:94-124 | A remote mute silences its scope, mode or no mode |
| RouterLaws.LeadersOverrideToggles | voice-service/internal/router/router.go:253-266 | Two worlds differing in toggles: who hears a leader or sub-leader on clan and alliance, and how loud, is the same |
| RouterLaws.OverrideReachesTheDisabled | voice-service/internal/router/router.go:245-267 | On clan and alliance, the recipients under the override less those without it are exactly the group members who switched the channel off and did not mute the sender, and exactly they hear it by force |
| RouterLaws.VolumesAreBounded | voice-service/internal/router/router.go:156-351 | Volumes are in 0 to 4 in every well-formed world |
| RouterLaws.GainByteSteps | voice-service/internal/audio/udp.go:386-403 | The group gain byte counts 128 steps to the unit, cut off at 255 |
| RouterLaws.LouderIsNeverQuieterOnTheWire | voice-service/internal/audio/udp.go:388-404 | The group gain byte never falls as the volume rises |
| RouterLaws.LoggedOutIsGone | voice-service/internal/router/router.go:75-135 | A player that logged out neither hears nor is heard |
| DecisionMatrix.LeadsIffPrivileged | voice-service/internal/world/state.go:578-596 | Who is privileged: in a known clan, and leader by its own flag or the clan's record, or listed as sub-leader |
| DecisionMatrix.MutedByAnyIff | voice-service/internal/world/state.go:535-554 | Muted on a scope if and only if some entry against the player names the scope |
| DecisionMatrix.PartyDeliversIff | voice-service/internal/router/router.go:199-227 | A party packet is delivered to d if and only if d is another known player of the same non-zero party with channel 1 on and the sender not muted, on channel 1, at its volume for the channel times that for the sender, unforced |
| DecisionMatrix.ProximityDeliversIff | voice-service/internal/router/router.go:156-195 | The same for proximity: same instance as the packet, within the reach, 1500 by default, the volume falling linearly to 0 at the reach |
| DecisionMatrix.ClanDeliversIff | voice-service/internal/router/router.go:234-269 | The same for the clan out of a mode: not muted by anybody on the scope; a leader or sub-leader passes a channel switched off, by force |
| DecisionMatrix.AllyDeliversIff | voice-service/internal/router/router.go:234-269 | The same for the alliance |
| DecisionMatrix.ModeDeliversIff | voice-service/internal/router/router.go:273-308 | In a mode, clan and alliance packets reach the members of either on channel 8, always by force, at the clan volume |
| DecisionMatrix.ChannelDeliversIff | voice-service/internal/router/router.go:315-344 | On the command channel its leader and those granted it reach everybody else listed, by force, at the clan volume |
| DecisionMatrix.WhisperDeliversIff | voice-service/internal/router/router.go:83-92 | A leader's or sub-leader's whisper reaches the clan on channel 2, whatever channel was pressed |
| DecisionMatrix.UnknownSenderIsSilent | voice-service/internal/router/router.go:76-79 | Nothing an unknown sender sends is delivered |
| DecisionMatrix.OtherChannelsAreSilent | voice-service/internal/router/router.go:110-135 | Nothing on a channel above 4 is delivered, but for a whisper |
| DecisionMatrix.RowsFollowList | voice-service/internal/router/router.go:315-344 | The recipients of channel audio are the listeners on the list, in its order and as often as listed |
| Proximity.ProximityNeighbors | voice-service/internal/topology/state.go:121-141 | Exactly the other sessions of the instance within the radius, each once |
| Proximity.SpatialFor | voice-service/internal/audio/udp.go:300-331 | The tests and the arithmetic for one neighbour decide whether it hears, and its gain and pan |
| Proximity.Prepare | voice-service/internal/audio/udp.go:244-250 | Header and audio of the reused buffer |
| Proximity.Send | voice-service/internal/audio/udp.go:330-332 | Each send overwrites the two spatial bytes only |
| Proximity.RouteProximity | voice-service/internal/audio/udp.go:230-338 | The echo if configured, and one whole datagram for each neighbour that hears |
| Proximity.PacketReadsBack | docs/protocol.md:96-107 | Sequence number, source, gain, signed pan and audio read back from the bytes of a datagram |
| Proximity.FartherIsNeverLouder | voice-service/internal/audio/udp.go:311-331 | The proximity gain byte never rises with distance |
| Proximity.SentSilentIff | docs/protocol.md:103-105 | A packet is sent with gain byte 0 if and only if the distance is in the last 2000/510 units of the range, against what the protocol document says |
| Proximity.SilentPacketSentIff | voice-service/internal/audio/udp.go:300-332 | A session that hears is sent a datagram, whose gain byte is 0 if and only if the distance is in that range |
| Proximity.SilentPacket | docs/protocol.md:103-105 | Two sessions 2498 units apart: a datagram with gain byte 0 is sent |
| Proximity.PanRises | voice-service/internal/audio/udp.go:322-331 | The pan byte rises from left to right within -126 to 127 |
| Proximity.PanMirrors | voice-service/internal/audio/udp.go:322-331 | Mirrored positions give opposite pan bytes up to a rounding unit |
| GroupAudio.RouteViaRouter | voice-service/internal/audio/udp.go:351-409 | Group audio of a known player with content is the routing decisions turned into datagrams, one for each recipient that has a session with an address, in order; otherwise nothing |
| GroupAudio.Prepare | voice-service/internal/audio/udp.go:380-386 | Header and audio of the reused buffer |
| GroupAudio.Send | voice-service/internal/audio/udp.go:393-404 | Each send overwrites channel and gain only |
| GroupAudio.SendAll | voice-service/internal/audio/udp.go:388-408 | The loop over the decisions sends exactly what they call for |
| GroupAudio.CarriesIff | voice-service/internal/audio/udp.go:380-404 | The bytes of a datagram, one by one, and no others: version, channel, sequence number, source, gain, pan 0, audio |
| GroupAudio.SentIff | voice-service/internal/audio/udp.go:351-409 | A datagram is sent if and only if it carries, to the address of its recipient's session, what the decision matrix delivers |
| GroupAudio.PartyAudioIff | voice-service/internal/audio/udp.go:351-409 | Party audio, from the records to the bytes: a datagram is sent if and only if it is for another member with a session and an address that has the channel on and has not muted the speaker, at the volumes it has set |
| GroupAudio.MutedSpeakerSendsNothing | voice-service/internal/audio/udp.go:351-409 | While anybody mutes the speaker on the scope, or on either in a mode, no datagram at all is sent |
| ProximityReach.ReachesIffHeard | voice-service/internal/audio/udp.go:271-321 | Who is sent audio, over session fields: another id, the same instance, known position and address, squared distance at most 2500 squared, root below 2500, and not the speaker's host where multibox is muted |
| ProximityReach.GainByteIsLoudness | voice-service/internal/audio/udp.go:315-330 | The gain byte: 255 up to 500, from there on the linear fall to 2500, rounded |
| ProximityReach.PanByteIsSide | voice-service/internal/audio/udp.go:323-331 | The pan byte has the sign of the speaker's x less the receiver's or is 0, is that over 1500 times 127, rounded, and 127 or -126 from 1500 on |
| ProximityReach.SentToReached | voice-service/internal/audio/udp.go:230-338 | With the speaker's position known, after the echo comes exactly one datagram for each session so reached, to its address, with that gain and pan |
| ProximityReach.AddressReachedIff | voice-service/internal/audio/udp.go:230-338 | An address is sent something after the echo if and only if a session so reached has it |
| ProximityReach.AllWhole | voice-service/internal/audio/udp.go:230-338 | Every datagram carries version, channel, sequence number, source and audio; the echo is at gain 255 and pan 0; with an unknown position there is nothing but the echo |
| Commands.Dispatch | voice-service/internal/control/commands.go:36-93 | Verdict, new world and players sent a snapshot for every command: refused commands change nothing |
| Commands.HandlePrefs | voice-service/internal/control/commands.go:110-218 | The five preference commands |
| Commands.HandleClanPromote | voice-service/internal/control/commands.go:224-245 | Only the sub-leader set of the actor's clan changes, on the leader's word; the clan is told |
| Commands.HandleClanSetMode | voice-service/internal/control/commands.go:251-268 | The mode is set in the actor's name; clan and alliance are told |
| Commands.HandleClanRemoteMute | voice-service/internal/control/commands.go:276-313 | A mute names exactly the requested scope; an un-mute clears the pair; the clan is told, and for the alliance scope the alliance |
| Commands.HandleCCGrantSpeak | voice-service/internal/control/commands.go:338-358 | The grant is on the actor's own channel; its listed members are told |
| Commands.CheckGrantSpeak | voice-service/internal/control/authz.go:150-166 | The checks of a grant, in order |
| Commands.ClampVolume | voice-service/internal/control/authz.go:181-189 | Unchanged between 0 and 2, 0 below and 2 above |
| Commands.NewPrefsInRange | voice-service/internal/control/commands.go:139-198 | Preference commands keep all stored volumes in 0 to 2 |
| CommandNotices.CommandNoticesCompleteIff | voice-service/internal/control/commands.go:224-358 | After any command a player sees the same snapshot or is told, if and only if it is not a clan member at an opt-out that changes something, one in sight of a mute that the command lifts on the other scope, or one mapped to a channel without being listed at a grant that changes something |
| CommandNotices.OtherScopeLiftedIff | voice-service/internal/control/commands.go:293-297 | A mute or un-mute changes what shows on the other scope if and only if its author alone muted the target there |
| CommandNotices.LiftedMuteIsMissed | voice-service/internal/control/commands.go:303-313 | Muted for the alliance and un-muted for the clan: allies of other clans are not told |
| Authority.RunPlayers | voice-service/internal/control/commands.go:110-358 | No sequence of commands changes anything of a player but its preferences, and those only by the player itself |
| Authority.OrdinaryPlayersOnlyChangeTheirPrefs | voice-service/internal/control/authz.go:42-166 | Any sequence of commands of players who lead nothing changes nothing but their preferences |
| Authority.SubLeadersChangeOnlyByLeader | voice-service/internal/control/authz.go:42-67 | Over any sequence, a clan's sub-leaders change only on the word of a player the game names its leader |
| Authority.NewMutesWereRights | voice-service/internal/control/authz.go:90-121 | Every remote mute that is new or different after a sequence was asked for by its author in just those scopes, when it was its right: sub-leaders only plain members, clan scope only the same clan, alliance scope only the same alliance |
| Authority.GrantsChangeOnlyByChannelLeader | voice-service/internal/control/authz.go:150-166 | Over any sequence, a channel changes only by its leader |
| Authority.ExecWellFormed | voice-service/internal/control/commands.go:139-198 | Commands keep the world well formed |
| Effects.PromotionTakesEffect | voice-service/internal/control/commands.go:224-245 | After an accepted promotion or demotion the target is sub-leader or plain member, unless the clan record names it leader |
| Effects.PromotionSparesOthers | voice-service/internal/control/commands.go:224-245 | Nobody else's role changes |
| Effects.LeaderChangeTakesEffect | voice-service/internal/social/redis.go:327-335 | After a change of clan leader, a clan member leads if and only if it is the one named or its own record says so; other clans keep their roles |
| Effects.RemoteMuteTakesEffect | voice-service/internal/control/commands.go:276-313 | After an accepted mute or un-mute the target is muted in a scope if and only if the author's new mute names it or somebody else's covers it |
| Effects.RemoteMuteSparesOthers | voice-service/internal/control/commands.go:276-313 | Nobody else's remote mutes change |
| Effects.RemoteMuteSilences | voice-service/internal/control/commands.go:276-313 | From then on nothing the target sends on the scope is delivered, unless it whispers |
| Effects.ModeTakesEffect | voice-service/internal/control/commands.go:251-268 | After an accepted mode change, exactly the members of the actor's clan are in or out of the mode, unless opted out |
| Effects.OptOutTakesEffect | voice-service/internal/control/commands.go:319-331 | After an accepted opt-out or opt-in, exactly the members of the actor's clan leave or enter its mode |
| Effects.PrefsOnlyChangeOwnHearing | voice-service/internal/control/commands.go:110-218 | A preference command changes no delivery to anybody but its author |
| Effects.PersonalMuteTakesEffect | voice-service/internal/control/commands.go:161-178 | After a personal mute its author hears the target if and only if it was an un-mute and group and toggle allow it |
| Effects.GrantTakesEffect | voice-service/internal/control/commands.go:338-358 | After an accepted grant the target may speak on the channel if and only if it was granted |
| Effects.GrantSparesOthers | voice-service/internal/control/commands.go:338-358 | Nobody else's right to speak changes |
| Effects.RevokedIsSilent | voice-service/internal/router/router.go:125-132 | Without the grant nothing the target sends on the channel is delivered |
| CommandRights.RanksAreRoles | voice-service/internal/world/state.go:578-596 | Leaders and sub-leaders read off flags, clan record and sub-leader set |
| CommandRights.EnablingAllowedIff | voice-service/internal/control/commands.go:110-137 | Allowed if and only if the actor is known and the channel is at most 3 |
| CommandRights.ChannelVolumeAllowedIff | voice-service/internal/control/commands.go:139-159 | The same for a channel's volume |
| CommandRights.PersonalMuteAllowedIff | voice-service/internal/control/commands.go:161-183 | Allowed if and only if the actor is known and the target is neither 0 nor the actor |
| CommandRights.PlayerVolumeAllowedIff | voice-service/internal/control/commands.go:185-203 | The same for a player's volume |
| CommandRights.WhisperAllowedIff | voice-service/internal/control/authz.go:137-145 | Allowed if and only if the actor is leader or sub-leader and the mode is at most 2 |
| CommandRights.PromoteAllowedIff | voice-service/internal/control/authz.go:42-68 | Allowed if and only if actor and target are different known players of one known clan, and by their own flags the actor leads and the target does not |
| CommandRights.ModeAllowedIff | voice-service/internal/control/authz.go:124-134 | Allowed if and only if the actor is leader or sub-leader and the mode is at most 4 |
| CommandRights.OptOutAllowedIff | voice-service/internal/control/commands.go:319-336 | Allowed if and only if the actor is leader or sub-leader |
| CommandRights.RemoteMuteAllowedIff | voice-service/internal/control/authz.go:90-121 | Allowed if and only if the target is another known player in the clan or alliance the scope names, and the actor is leader, or sub-leader and the target neither |
| CommandRights.GrantAllowedIff | voice-service/internal/control/authz.go:150-166 | Allowed if and only if the actor leads the channel it is mapped to, and the target is another player mapped to it and listed in it |
| CommandRights.PrefsAnswerIff | voice-service/internal/control/commands.go:110-222 | Which error a refused preference command is answered with, or none, if and only if what holds of channel, actor, target and mode |
| CommandRights.ModeAnswerIff | voice-service/internal/control/authz.go:124-134 | The same for a mode: unknown, in no clan, without rank, or a mode above 4 |
| CommandRights.OptOutAnswerIff | voice-service/internal/control/commands.go:319-336 | The same for an opt-out |
| CommandRights.PromoteAnswerIff | voice-service/internal/control/authz.go:42-68 | The same for a promotion, each error with its exact condition on the two records and the clan |
| CommandRights.RemoteMuteAnswerIff | voice-service/internal/control/authz.go:90-121 | The same for a remote mute: rank, target, scope and its group, and what a sub-leader may not touch |
| CommandRights.GrantAnswerIff | voice-service/internal/control/authz.go:150-166 | The same for a grant: itself, no channel, not its leader, or a target not mapped to it or not listed |
| CommandRights.SpeakChanges | voice-service/internal/world/state.go:429-456 | Exactly listed members other than the leader can be granted; nothing changes otherwise |
| CommandRights.RefusedChangesNothing | voice-service/internal/control/commands.go:110-358 | A refused command changes nothing and tells nobody |
| CommandRights.PrefsOutcome | voice-service/internal/control/commands.go:110-222 | An accepted preference command changes exactly the actor's field it is about, volumes to the nearest value in 0 to 2 |
| CommandRights.ClanOutcome | voice-service/internal/control/commands.go:224-336 | An accepted promotion, mode or opt-out changes exactly that field of the actor's clan; the mode names its setter, or nobody when ended |
| CommandRights.RemoteMuteOutcome | voice-service/internal/control/commands.go:276-317 | An accepted mute sets the pair's entry to just the scope named, an un-mute removes it; no other entry changes |
| CommandRights.GrantOutcome | voice-service/internal/control/commands.go:338-358 | An accepted grant changes exactly whether the target is granted on the actor's channel |
| CommandRights.ToldIff | voice-service/internal/control/commands.go:224-358 | Who is told, command by command, over clan and alliance ids and the channel's list |
| Resp.ReadInverts | voice-service/internal/social/redis.go:445-491 | Reading the encoding of a nested item, nulls included, followed by any bytes, gives its meaning and leaves exactly those bytes, or brings the reader down exactly if it contains a null array |
| Resp.ReadManyInverts | voice-service/internal/social/redis.go:445-491 | The same for the elements of an array |
| Resp.FrameInverts | voice-service/internal/social/redis.go:417-443 | The same for a whole frame: a null array as the frame itself is read as empty |
| Resp.FramesInvert | voice-service/internal/social/redis.go:150-178 | A stream of frames decodes to the list of frames, up to the first that brings the reader down |
| Resp.NestedNullArrayPanics | voice-service/internal/social/redis.go:475-487 | A frame brings the reader down if and only if one of its elements is or contains, at any depth, a null array |
| Resp.ParseIntInverts | voice-service/internal/social/redis.go:493-499 | Decimal text of every 64-bit integer reads back |
| Resp.IntegerReadIff | voice-service/internal/social/redis.go:493-499 | A line is an integer if and only if after at most one sign it has only digits, at least one, and a value within 64 bits |
| Resp.PlusIsNoSign | voice-service/internal/social/redis.go:493-499 | A plus sign changes nothing |
| Resp.NoLineFails | voice-service/internal/social/redis.go:501-510 | A stream without a line feed ends in an error, and a line of the line feed alone in another |
| Resp.BadIntegerFails | voice-service/internal/social/redis.go:493-499 | Any other line where an integer is expected fails |
| Resp.BulkReads | voice-service/internal/social/redis.go:461-478 | A negative length is empty; otherwise that many bytes are taken and two passed over, or the stream has ended, or the length leaves no room for the two and the reader comes down |
| Resp.ErrorLineFails | voice-service/internal/social/redis.go:445-460 | An error reply fails with its text |
| Resp.UnknownTagFails | voice-service/internal/social/redis.go:445-491 | Any other first byte than the five known fails |
| RespReader.BufReader.ReadLine | voice-service/internal/social/redis.go:501-510 | The line without its last two bytes, or the error |
| RespReader.BufReader.ReadInt | voice-service/internal/social/redis.go:493-499 | The integer of a line, or the error |
| RespReader.BufReader.ReadFull | voice-service/internal/social/redis.go:512-522 | Exactly n bytes however the connection cuts them, or the end of the stream |
| RespReader.BufReader.ReadValue | voice-service/internal/social/redis.go:445-491 | The value of the specification and the unread rest |
| RespReader.BufReader.ReadRESPArray | voice-service/internal/social/redis.go:417-443 | The frame of the specification and the unread rest |
| Scanner.FindFirst | client/voice/voice_network.cpp:66-66 | The first occurrence of a needle |
| Scanner.ExtractNumber | client/voice/voice_network.cpp:64-79 | The digits after the first occurrence of the key, as a wrapping 64-bit number |
| Scanner.ExtractBool | client/voice/voice_network.cpp:81-90 | The literal after the first occurrence of the key |
| Scanner.ExtractArrayBody | client/voice/voice_network.cpp:95-115 | The text up to the first closing bracket outside any braces |
| Scanner.ParseMemberObject | client/voice/voice_network.cpp:783-809 | The first object from a position on, and the position after it |
| Scanner.ParseMemberArray | client/voice/voice_network.cpp:811-825 | The members with a non-zero id, in order |
| Scanner.HandleClientState | client/voice/voice_network.cpp:828-876 | Everything the client stores of a frame |
| KeySearch.AfterIsRestAt | client/voice/voice_network.cpp:64-90 | In text made of distinct quoted words, a search for a quoted key stops at that key and at no other place |
| KeySearch.NumberReadBack | client/voice/voice_network.cpp:70-78 | A printed number below 2 to the 64 reads back when something other than a digit follows, as it always does in the text |
| MemberRoundTrip.MemberReadBack | client/voice/voice_network.cpp:799-807 | Every member object reads back, omitted fields as their zero values |
| MemberRoundTrip.MemberSkipped | client/voice/voice_network.cpp:104-113 | An object is skipped as a whole by the bracket search and delimited exactly by the brace search |
| MemberRoundTrip.MembersReadBack | client/voice/voice_network.cpp:811-825 | A printed list reads back as its members with an id |
| MemberRoundTrip.NamedKeepsAllIff | client/voice/voice_network.cpp:822-822 | Nothing is dropped if and only if all ids are non-zero |
| FrameRoundTrip.FrameFlat | voice-service/internal/control/state_push.go:31-46 | The text of a frame is the sequence of its quoted words |
| FrameRoundTrip.FrameReadBack | client/voice/voice_network.cpp:828-876 | For every frame, the client stores every field and all four rosters, less members without an id |
| ScannedText.FindIsFirst | client/voice/voice_network.cpp:64-68 | A search ends at the first place the words occur, or finds none if there is none |
| ScannedText.ReceivedFields | client/voice/voice_network.cpp:831-842 | For any text at all: each number is that of the digits after the first occurrence of its quoted name, to 64 bits and cut to its field, or 0; each flag is set if and only if true follows its name |
| ScannedText.NumberFoundIff | client/voice/voice_network.cpp:64-77 | A number is found if and only if a digit follows the first occurrence of its name |
| ScannedText.FlagIsAfterIff | client/voice/voice_network.cpp:81-89 | A flag is found set, or cleared, if and only if true, or false, follows the first occurrence of its name |
| ScannedText.MembersHaveIds | client/voice/voice_network.cpp:811-825 | Only objects with an identifier make it into a roster |
| ScannedText.MemberFieldsRead | client/voice/voice_network.cpp:800-807 | The same for the fields of a member object |
| ScannedText.ArrayEndIsFirst | client/voice/voice_network.cpp:95-115 | A list ends at the first closing bracket before which braces are balanced |
| ScannedText.BraceEndIsFirst | client/voice/voice_network.cpp:783-797 | An object ends with the first closing brace that balances the braces |
| ScannedText.ReceivedRosters | client/voice/voice_network.cpp:811-849 | Each roster is read from the text between the first occurrence of its name and the bracket that closes it, and is empty without those |
| ScannedText.FirstObjectIs | client/voice/voice_network.cpp:783-809 | The next object is the text from the next opening brace to the brace that closes it; there is none if and only if no such text exists |
| ScannedText.AccumulateWraps | client/voice/voice_network.cpp:64-76 | Reading digits one by one gives their value modulo 2 to the 64 |
| ScannedText.FrameBegins | voice-service/internal/control/state_push.go:31-44 | A printed frame begins with its type and the rank |
| ScannedText.PlainMemberPrinted | voice-service/internal/control/state_push.go:22-29 | A member with nothing set is printed as its id and that it is not connected |
| Numerals.DecimalText | voice-service/internal/control/state_push.go:22-44 | Numbers are printed in decimal, the highest digit first, without leading zeros |
| ScannedText.OmittedIff | voice-service/internal/control/state_push.go:22-29 | Rank, right to speak and mute are printed if and only if they are not zero |
| Tokens.TokenIssuer.Issue | l2j-bridge/src/main/java/com/luannbr/l2voice/bridge/TokenIssuer.java:37-45 | The token text of a player, time and nonce |
| Tokens.TokenIssuer.Validate | l2j-bridge/src/main/java/com/luannbr/l2voice/bridge/TokenIssuer.java:48-75 | Acceptance and the memory after it |
| Tokens.TokenIssuer.PruneExpired | l2j-bridge/src/main/java/com/luannbr/l2voice/bridge/TokenIssuer.java:87-90 | Entries older than the time to live go |
| Tokens.AgeIsExact | l2j-bridge/src/main/java/com/luannbr/l2voice/bridge/TokenIssuer.java:59-60 | The 64-bit age is in the window if and only if the real age is, whatever time the token claims |
| Tokens.Genuine | l2j-bridge/src/main/java/com/luannbr/l2voice/bridge/TokenIssuer.java:49-67 | A token that passes the checks spells its claim in three parts and their hash in the fourth, names the presenting player, and was issued within the time to live |
| Tokens.SpentForever | l2j-bridge/src/main/java/com/luannbr/l2voice/bridge/TokenIssuer.java:69-75 | From acceptance on, a claim is remembered or too old, after every later validation and pruning |
| Tokens.AcceptedAtMostOnce | l2j-bridge/src/main/java/com/luannbr/l2voice/bridge/TokenIssuer.java:20-22 | Over any run with a clock that does not go back, no claim is accepted twice |
| Tokens.AcceptedIffFirst | l2j-bridge/src/main/java/com/luannbr/l2voice/bridge/TokenIssuer.java:69-74 | A genuine claim with a fresh nonce is accepted if and only if it was not presented before |
| Tokens.IssuedIsGenuineIff | l2j-bridge/src/main/java/com/luannbr/l2voice/bridge/TokenIssuer.java:37-67 | An issued token passes the checks if and only if its own player presents it within its time to live |
| Tokens.KeyNamesPlayerAndNonce | l2j-bridge/src/main/java/com/luannbr/l2voice/bridge/TokenIssuer.java:69-69 | The memory's key determines player and nonce |
| Tokens.IssuedTokenIsOneShot | l2j-bridge/src/main/java/com/luannbr/l2voice/bridge/TokenIssuer.java:14-75 | An issued token is accepted if and only if its player presents it, in time, for the first time |
| Tokens.TokenText | l2j-bridge/src/main/java/com/luannbr/l2voice/bridge/TokenIssuer.java:37-50 | Player, time, nonce and encoded hash of these three, with dots between |
| Tokens.HexReadsBack | l2j-bridge/src/main/java/com/luannbr/l2voice/bridge/TokenIssuer.java:80-90 | Two lower-case digits to each byte of the nonce, the higher first, spell it |
| Tokens.PiecesAreDotted | l2j-bridge/src/main/java/com/luannbr/l2voice/bridge/TokenIssuer.java:55-58 | The pieces of a split hold no dot and, with dots between them, are the text |
| Tokens.SplitDropsEmptyEnd | l2j-bridge/src/main/java/com/luannbr/l2voice/bridge/TokenIssuer.java:55-58 | The split gives up exactly the empty pieces at the end |
| Tokens.GenuineIff | l2j-bridge/src/main/java/com/luannbr/l2voice/bridge/TokenIssuer.java:52-74 | A token passes the checks if and only if it has four pieces, the first reads as the player, the second as a time at most 60000 ms ago and not ahead, and the fourth decodes to the hash of the first three |
| Tokens.NoTokenIsNotGenuine | l2j-bridge/src/main/java/com/luannbr/l2voice/bridge/TokenIssuer.java:52-54 | A missing token is refused |
| Tokens.RememberedIff | l2j-bridge/src/main/java/com/luannbr/l2voice/bridge/TokenIssuer.java:70-90 | What is remembered after a validation, key by key: what was, and the token if accepted, unless older than 60000 ms |
| AudioRings.WriteRing | client/voice/audio_io.cpp:46-51 | After writing, every slot holds the last sample written to it, slots being counted by the wrapping counter |
| AudioRings.KeptForARing | client/voice/audio_io.cpp:39-62 | Away from the wrap a sample is kept for exactly 7680 writes in the jitter ring, and for exactly 9600 in the reference ring |
| AudioRings.ReadRing | client/voice/audio_io.cpp:52-61 | Reading gives what the slots hold |
| AudioRings.NextIntoSlot | client/voice/audio_io.cpp:39-62 | The next sample to overwrite a sample is a ring later, or 4096 samples if the counter wraps within them, or both if it wraps only after: no sample in between shares its slot |
| AudioRings.SlotKeepsIff | client/voice/audio_io.cpp:39-62 | A slot still holds a sample if and only if that next sample has not been written yet |
| AudioRings.SlotKeepsWithinRingIff | client/voice/audio_io.cpp:39-62 | Within a ring of it, a sample is kept if and only if it is not among the last 4096 before a wrap with more than 4096 written from it on |
| AudioRings.MonoRing.Available | client/voice/audio_io.cpp:43-45 | The number of pending samples, as a 32-bit counter |
| AudioRings.MonoRing.Push | client/voice/audio_io.cpp:46-51 | The pending samples are extended, the counter wrapping |
| AudioRings.MonoRing.Pop | client/voice/audio_io.cpp:52-61 | As many as asked for or pending come out, numbered as Popped says; if none of them was written over, they are the head of the queue |
| AudioRings.PoppedNextIff | client/voice/audio_io.cpp:52-61 | The samples that come out are the next ones in order if and only if none of them was written over |
| AudioRings.PoppedIsLastWritten | client/voice/audio_io.cpp:52-61 | What comes out in the place of an overrun sample is the last one written to its slot, a later one |
| AudioRings.InOrderIff | client/voice/audio_io.cpp:39-62 | A pop from a queue within the ring is in order if and only if it stays short of the last 4096 before a wrap, or at most 4096 are pending from there on |
| AudioRings.RunIsFifoIff | client/voice/audio_io.cpp:39-62 | Over any run of pushes and pops, across any number of wraps, the samples come out as number 0, 1, 2 and so on if and only if no pop finds one of its samples written over |
| AudioRings.RunReturnsPushed | client/voice/audio_io.cpp:39-62 | In such a run what comes out is what went in |
| AudioRings.ShortQueuesAreFifo | client/voice/audio_io.cpp:39-62 | A run whose pops find at most 4096 samples pending is in order, however long |
| AudioRings.FirstLapIsFifo | client/voice/audio_io.cpp:39-62 | So is one within the ring that ends before the counter wraps |
| AudioRings.WrapLosesOrder | client/voice/audio_io.cpp:39-62 | A run of whole frames, never more than five pending in a ring of eight, in which the wrap makes a later sample come out first |
| AudioRings.Capture.Deliver | client/voice/audio_io.cpp:85-95 | The frames completed by an input, and the partial frame after it |
| AudioRings.FramesConserve | client/voice/audio_io.cpp:89-94 | Frames and partial frame together are the input, and every frame has 960 samples |
| AudioRings.FramesIgnoreChunking | client/voice/audio_io.cpp:85-95 | The frames do not depend on how the device cuts its input |
| AudioRings.PlaybackReference.PushMix | client/voice/audio_io.cpp:264-275 | The mono mix extends the history |
| AudioRings.PlaybackReference.PopPlaybackReference | client/voice/audio_io.cpp:429-451 | The samples played since the counter was last at zero, after silence where those do not suffice; of a request longer than the ring, the oldest part is what overwrote it |
| AudioRings.KeptWithinLap | client/voice/audio_io.cpp:446-450 | What was played since the counter was last at zero, and within the ring, is still there |
| AudioRings.OverlappedReadIff | client/voice/audio_io.cpp:264-275 | While the playback thread goes on writing, a reader sees the samples most recent when it took the counter, if and only if the writer has not come round to any of them when it is read |
| AudioRings.GotIsLeast | client/voice/audio_io.cpp:52-56 | A pop takes the lesser of what is asked for and what is pending |
| AudioRings.MixIsAverage | client/voice/audio_io.cpp:266-272 | The mix is half the sum of left and right, rounded toward zero |
| AudioRings.LapTailAt | client/voice/audio_io.cpp:437-450 | Sample by sample: those played since the counter was last at zero, and silence in the place of all before |
| AudioRings.ReferenceIsLastWritten | client/voice/audio_io.cpp:446-450 | Of a request longer than the ring, what stands in the place of a sample is the last one written over it |
| AudioRings.LapTailIsTailIff | client/voice/audio_io.cpp:437-445 | That is the most recent samples, as promised, if and only if the counter has not wrapped yet, or not within the request, or what was played before the wrap was silent |
| AudioRings.WrapSilencesReference | client/voice/audio_io.cpp:437-445 | Right after the wrap a request is answered with silence although a sound was just played |

## Left out

- Convergence.ReplicaFollowsGame: requires snapshots without negative identifiers, which the service does not decode; command channels are not claimed to converge, since the code does not keep them in step.
- Drift.DriftIsBounded: says nothing once a move between two readings is missed, which MoveMissedIff characterizes.
- Convergence.ReplicaFollowsGameOnTwoTransports: each transport delivers everything in order; the publisher's bounded queue, which drops its oldest events when full, is not modelled.
- Convergence.ReplicaKnowsTheOnline: is about players that never authenticate, since authenticating makes a player known whether online or not.
- ClientState.NotificationComplete: does not cover channel changes and logouts, for which the code does not tell everybody concerned.
- Topology.AllocatedIsFound: requires a free id; two sessions of one id, which takes 2 to the 32 allocations during one connection, are not told apart.
- AudioRings.PlaybackReference.PopPlaybackReference: models the reader as atomic; the source lets the writer go on meanwhile, which OverlappedReadIff is about.
- Tokens.AcceptedAtMostOnce: assumes a clock that does not go back, read up to three times in one validation without another in between.
- Resp.ReadInverts: memory is unbounded, so the allocation of a huge announced length does not fail.
- Proximity.RouteProximity: models the UDP sender; the WebSocket one differs in the address it compares. Counters for the log are left out.
- GroupAudio.RouteViaRouter: models the UDP sender, reading world and sessions at once; its WebSocket twin is left out.
- The UDP receive loop: parsing the header, learning addresses, and ping replies.
- Bridge.PositionPoller.Poll: the order in which forgotten players are logged out is left open, as in the source's hash map.
- WorldStates.WorldState.UpsertPlayer: players, clans and channels are values in maps; a pointer kept by a reader across operations, and seeing their later changes, is not modelled.
- JSON decoding of events and commands, and printing other than the snapshot's: library code.
- Alliances as records (UpsertAlliance): nothing reads them.
- Timestamps of players and sessions: nothing decides by them.
- Sockets, HTTP, reconnects, logging, and the pushing of frames to connections: input and output.
- Races between goroutines on preferences shared by pointer.
- Opus, noise suppression, pan trigonometry and the playback mix: floating-point signal processing.
- The overlay, the hooks into the game client and the stored settings: user interface.
- End-to-end leader override: the override flag is not on the wire, and the client drops channels it has disabled.
