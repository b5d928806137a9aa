/**
 * The service's copy follows the game: once everything is delivered, each online player's
 * clan, leadership, alliance, party and instance are those of its last snapshot.
 */
module Convergence {
  import opened Types
  import opened Worlds
  import opened Bridge
  import opened LastWriter
  import opened Replication

  lemma MatchingLogReplicates(w: World, log: seq<Input>, inputs: seq<Input>, clients: seq<Input>,
                              online: map<int32, Snapshot>, grow: Allocator)
    requires LogMatches(log, online) && Shuffle(inputs, log, clients) && FromClients(clients)
    ensures Replicates(Run(w, inputs, grow), online)
  {
    forall id | id in online
      ensures Mirrors(Run(w, inputs, grow), online[id])
    {
      assert LogMatchesAt(log, online, id);
      ClientsShuffledIn(inputs, log, clients, online[id]);
      LogDecidesRecord(w, inputs, online[id], grow);
    }
  }

  // A player that is not online becomes known only by authenticating.
  lemma MatchingLogForgets(w: World, log: seq<Input>, inputs: seq<Input>, clients: seq<Input>,
                           online: map<int32, Snapshot>, id: int32, grow: Allocator)
    requires LogMatches(log, online) && Shuffle(inputs, log, clients)
    requires 0 <= id && id !in online && id !in w.players && Clean(clients, BringsOrAuths(id))
    ensures id !in Run(w, inputs, grow).players
  {
    assert LogMatchesAt(log, online, id);
    AbsenceShuffledIn(inputs, log, clients, id);
    RunActsOnRecord(w, inputs, id, grow);
    LogDecidesAbsence(RecordOf(w, id), inputs, id);
  }

  lemma ReplicaFollowsGame(w: World, minDelta: int, polls: seq<Poll>, inputs: seq<Input>, clients: seq<Input>,
                           grow: Allocator)
    requires PollerRun(NOTHING_SEEN, minDelta, polls) && DeliveredOnce(inputs, EventsOf(polls), clients)
    ensures Replicates(Run(w, inputs, grow), Online(polls))
  {
    RunShown(minDelta, polls);
    MatchingLogReplicates(w, Delivered(EventsOf(polls)), inputs, clients, Online(polls), grow);
  }

  lemma ReplicaFollowsGameOnTwoTransports(w: World, minDelta: int, polls: seq<Poll>, inputs: seq<Input>,
                                          both: seq<Input>, clients: seq<Input>, grow: Allocator)
    requires PollerRun(NOTHING_SEEN, minDelta, polls) && DeliveredTwice(inputs, EventsOf(polls), both, clients)
    ensures Replicates(Run(w, inputs, grow), Online(polls))
  {
    BothShown(minDelta, polls, both);
    MatchingLogReplicates(w, both, inputs, clients, Online(polls), grow);
  }

  lemma BothShown(minDelta: int, polls: seq<Poll>, both: seq<Input>)
    requires PollerRun(NOTHING_SEEN, minDelta, polls)
    requires Shuffle(both, Delivered(EventsOf(polls)), Delivered(EventsOf(polls)))
    ensures LogMatches(both, Online(polls))
  {
    RunShown(minDelta, polls);
    var log, online := Delivered(EventsOf(polls)), Online(polls);
    forall id: int32
      ensures LogMatchesAt(both, online, id)
    {
      ShuffleShowsAt(both, log, log, online, id);
    }
  }

  // Started empty, the service knows exactly the online players and those who authenticated
  // without being online.
  lemma ReplicaKnowsTheOnline(minDelta: int, polls: seq<Poll>, inputs: seq<Input>, both: seq<Input>,
                              clients: seq<Input>, id: int32, grow: Allocator)
    requires PollerRun(NOTHING_SEEN, minDelta, polls) && DeliveredTwice(inputs, EventsOf(polls), both, clients)
    requires 0 <= id && forall i :: 0 <= i < |clients| && clients[i].Auth? ==> clients[i].player != id
    ensures id in Run(EMPTY_WORLD, inputs, grow).players <==> id in Online(polls)
  {
    var online := Online(polls);
    BothShown(minDelta, polls, both);
    if id in online {
      assert LogMatchesAt(both, online, id);
      ClientsShuffledIn(inputs, both, clients, online[id]);
      LogDecidesRecord(EMPTY_WORLD, inputs, online[id], grow);
    } else {
      MatchingLogForgets(EMPTY_WORLD, both, inputs, clients, online, id, grow);
    }
  }
}
