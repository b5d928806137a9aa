/** The registry of live control connections, keyed by session id and by player. */
module ConnRegs {
  import opened Types

  datatype Registry = Registry(clients: map<uint32, uint32>, byPID: map<uint32, uint32>)

  const NO_CLIENTS := Registry(map[], map[])

  function Registered(r: Registry, sid: uint32, player: uint32): Registry {
    Registry(r.clients[sid := player], if player != 0 then r.byPID[player := sid] else r.byPID)
  }

  function Unregistered(r: Registry, sid: uint32): Registry {
    if sid !in r.clients then r
    else
      var player := r.clients[sid];
      Registry(r.clients - {sid},
               if player != 0 && player in r.byPID && r.byPID[player] == sid then r.byPID - {player} else r.byPID)
  }

  class ConnReg {
    var clients: map<uint32, uint32>
    var byPID: map<uint32, uint32>

    ghost function View(): Registry
      reads this
    {
      Registry(clients, byPID)
    }

    constructor ()
      ensures View() == NO_CLIENTS
    {
      clients, byPID := map[], map[];
    }

    method Register(sid: uint32, player: uint32)
      modifies this
      ensures View() == Registered(old(View()), sid, player)
    {
      clients := clients[sid := player];
      if player != 0 {
        byPID := byPID[player := sid];
      }
    }

    method Unregister(sid: uint32)
      modifies this
      ensures View() == Unregistered(old(View()), sid)
    {
      if sid !in clients {
        return;
      }
      var player := clients[sid];
      clients := clients - {sid};
      if player != 0 && player in byPID && byPID[player] == sid {
        byPID := byPID - {player};
      }
    }
  }

  datatype Connection = Opened(sid: uint32, player: uint32) | Closed(sid: uint32)

  function Connections(log: seq<Connection>): Registry {
    if log == [] then NO_CLIENTS
    else
      var before := Connections(log[..|log| - 1]);
      match log[|log| - 1]
      case Opened(sid, player) => Registered(before, sid, player)
      case Closed(sid) => Unregistered(before, sid)
  }

  // Session ids come from the session table, which never reuses them.
  ghost predicate FreshIds(log: seq<Connection>) {
    log == [] ||
    (FreshIds(log[..|log| - 1]) &&
     (log[|log| - 1].Opened? ==> log[|log| - 1].sid !in OpenedIds(log[..|log| - 1])))
  }

  ghost function OpenedIds(log: seq<Connection>): set<uint32> {
    set i | 0 <= i < |log| && log[i].Opened? :: log[i].sid
  }

  // Read backwards from the end of the log: the last connection the player opened, unless
  // it was closed after that.
  ghost function NewestOpen(log: seq<Connection>, player: uint32, closedLater: set<uint32>): Option<uint32> {
    if log == [] then None
    else
      var front := log[..|log| - 1];
      match log[|log| - 1]
      case Closed(sid) => NewestOpen(front, player, closedLater + {sid})
      case Opened(sid, p) =>
        if p != player then NewestOpen(front, player, closedLater)
        else if sid in closedLater then None
        else Some(sid)
  }

  lemma {:induction false} IndexPointsToClients(log: seq<Connection>)
    requires FreshIds(log)
    ensures var r := Connections(log);
            && r.clients.Keys <= OpenedIds(log)
            && forall p :: p in r.byPID ==> p != 0 && r.byPID[p] in r.clients && r.clients[r.byPID[p]] == p
  {
    if log == [] {
    } else {
      var front, last := log[..|log| - 1], log[|log| - 1];
      IndexPointsToClients(front);
      assert log == front + [last];
      assert OpenedIds(front) <= OpenedIds(log);
      if last.Opened? {
        assert log[|log| - 1].sid in OpenedIds(log);
      }
    }
  }

  // A player is reached through its newest connection as long as that one is open, whatever
  // happens to older ones; and through none once it closes.
  lemma {:induction false} ConnectionsFindNewest(log: seq<Connection>, player: uint32, closedLater: set<uint32>)
    requires FreshIds(log) && player != 0
    ensures var r := Connections(log);
            NewestOpen(log, player, closedLater) ==
            if player in r.byPID && r.byPID[player] !in closedLater then Some(r.byPID[player]) else None
  {
    if log == [] {
    } else {
      var front, last := log[..|log| - 1], log[|log| - 1];
      IndexPointsToClients(front);
      ConnectionsFindNewest(front, player, if last.Closed? then closedLater + {last.sid} else closedLater);
    }
  }
}
