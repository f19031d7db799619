/**
 Which Auth0 connections a client may use. Auth0 keeps, per connection, the list of clients for which
 it is enabled; the control panel reads these lists and edits them one connection at a time.
 */
module Auth0Connections {
  import opened Strings

  datatype Connection = Connection(id: string, name: string, enabledClients: seq<string>)

  // ---------------------------------------------------------------- one connection

  function Disabled(c: Connection, client: string): Connection {
    if client in c.enabledClients then c.(enabledClients := RemoveFirst(c.enabledClients, client)) else c
  }

  function Enabled(c: Connection, client: string): Connection {
    if client !in c.enabledClients then c.(enabledClients := c.enabledClients + [client]) else c
  }

  /** One round of the loop of `update_client_auth_connections`. */
  function Adjusted(c: Connection, client: string, removed: set<string>, added: set<string>): Connection {
    var d := if c.name in removed then Disabled(c, client) else c;
    if c.name in added then Enabled(d, client) else d
  }

  predicate UniqueIds(cs: seq<Connection>) {
    forall i, j :: 0 <= i < j < |cs| ==> cs[i].id != cs[j].id
  }

  predicate UniqueNames(cs: seq<Connection>) {
    forall i, j :: 0 <= i < j < |cs| ==> cs[i].name != cs[j].name
  }

  // ---------------------------------------------------------------- the tenant

  class Tenant {
    var connections: seq<Connection>

    constructor (cs: seq<Connection>)
      ensures connections == cs
    {
      connections := cs;
    }

    /** `update`: a PATCH of one connection's list. */
    method Update(id: string, enabledClients: seq<string>)
      requires exists k :: 0 <= k < |connections| && connections[k].id == id
      requires UniqueIds(connections)
      modifies this
      ensures |connections| == |old(connections)|
      ensures forall k :: 0 <= k < |connections| ==>
                connections[k] == if old(connections)[k].id == id then old(connections)[k].(enabledClients := enabledClients)
                                  else old(connections)[k]
    {
      var k :| 0 <= k < |connections| && connections[k].id == id;
      connections := connections[k := connections[k].(enabledClients := enabledClients)];
    }

    method DisableClient(connection: Connection, client: string) returns (c: Connection)
      requires exists k :: 0 <= k < |connections| && connections[k] == connection
      requires UniqueIds(connections)
      modifies this
      ensures c == Disabled(connection, client)
      ensures Replaced(old(connections), connections, connection.id, c)
    {
      c := connection;
      if client in c.enabledClients {
        c := c.(enabledClients := RemoveFirst(c.enabledClients, client));
        Update(c.id, c.enabledClients);
      }
    }

    method EnableClient(connection: Connection, client: string) returns (c: Connection)
      requires exists k :: 0 <= k < |connections| && connections[k] == connection
      requires UniqueIds(connections)
      modifies this
      ensures c == Enabled(connection, client)
      ensures Replaced(old(connections), connections, connection.id, c)
    {
      c := connection;
      if client !in c.enabledClients {
        c := c.(enabledClients := c.enabledClients + [client]);
        Update(c.id, c.enabledClients);
      }
    }

    /** The loop of `update_client_auth_connections`, over a copy that was fetched before. */
    method UpdateClientAuthConnections(client: string, newConnections: seq<string>, existingConns: seq<string>)
      requires UniqueIds(connections)
      modifies this
      ensures |connections| == |old(connections)|
      ensures forall k :: 0 <= k < |connections| ==>
                connections[k] == Adjusted(old(connections)[k], client,
                                           AsSet(existingConns) - AsSet(newConnections), AsSet(newConnections) - AsSet(existingConns))
    {
      var removed := AsSet(existingConns) - AsSet(newConnections);
      var added := AsSet(newConnections) - AsSet(existingConns);
      var all := connections;
      var i := 0;
      while i < |all|
        invariant 0 <= i <= |all| == |connections|
        invariant forall k :: 0 <= k < i ==> connections[k] == Adjusted(all[k], client, removed, added)
        invariant forall k :: i <= k < |all| ==> connections[k] == all[k]
        invariant UniqueIds(connections)
      {
        var connection := all[i];
        assert connections[i] == connection;
        if connection.name in removed {
          connection := DisableClient(connection, client);
          assert connections[i] == connection;
        }
        if connection.name in added {
          connection := EnableClient(connection, client);
        }
        i := i + 1;
      }
    }

    /** `get_client_enabled_connections` */
    method GetClientEnabledConnections(clientIds: seq<string>) returns (enabled: map<string, seq<string>>)
      ensures enabled == AllNames(clientIds, connections)
    {
      enabled := map[];
      if |clientIds| == 0 {
        NoClients(connections);
        return;
      }
      var i := 0;
      while i < |connections|
        invariant 0 <= i <= |connections|
        invariant enabled == AllNames(clientIds, connections[..i])
      {
        assert connections[..i + 1][..i] == connections[..i];
        var connection := connections[i];
        var before := enabled;
        var j := 0;
        while j < |clientIds|
          invariant 0 <= j <= |clientIds|
          invariant enabled == WithNames(before, clientIds[..j], connection)
        {
          assert clientIds[..j + 1][..j] == clientIds[..j];
          var client := clientIds[j];
          if client in connection.enabledClients {
            if client !in enabled {
              enabled := enabled[client := []];
            }
            enabled := enabled[client := enabled[client] + [connection.name]];
          }
          j := j + 1;
        }
        assert clientIds[..|clientIds|] == clientIds;
        i := i + 1;
      }
      assert connections[..|connections|] == connections;
    }
  }

  function AsSet(names: seq<string>): set<string> {
    set n | n in names
  }

  /** The connection with this id is now c, all others are as before. */
  ghost predicate Replaced(before: seq<Connection>, after: seq<Connection>, id: string, c: Connection) {
    && |after| == |before|
    && forall k :: 0 <= k < |after| ==> after[k] == if before[k].id == id then c else before[k]
  }

  // ---------------------------------------------------------------- listing

  function NamesOf(enabled: map<string, seq<string>>, client: string): seq<string> {
    if client in enabled then enabled[client] else []
  }

  function WithName(enabled: map<string, seq<string>>, client: string, c: Connection): map<string, seq<string>> {
    if client in c.enabledClients then enabled[client := NamesOf(enabled, client) + [c.name]] else enabled
  }

  /** The inner loop: one connection, for each client in turn. */
  function WithNames(enabled: map<string, seq<string>>, clientIds: seq<string>, c: Connection): map<string,
                     seq<string>> {
    if clientIds == [] then enabled
    else WithName(WithNames(enabled, clientIds[..|clientIds| - 1], c), clientIds[|clientIds| - 1], c)
  }

  function AllNames(clientIds: seq<string>, cs: seq<Connection>): map<string, seq<string>> {
    if cs == [] then map[] else WithNames(AllNames(clientIds, cs[..|cs| - 1]), clientIds, cs[|cs| - 1])
  }

  lemma {:induction false} NoClients(cs: seq<Connection>)
    ensures AllNames([], cs) == map[]
  {
    if cs != [] {
      NoClients(cs[..|cs| - 1]);
    }
  }

  lemma {:induction false} WithNamesAt(enabled: map<string, seq<string>>, clientIds: seq<string>, c: Connection,
                                       client: string, name: string)
    ensures var r := WithNames(enabled, clientIds, c);
            && (client in r <==> client in enabled || (client in clientIds && client in c.enabledClients))
            && (name in NamesOf(r, client) <==>
                  name in NamesOf(enabled, client) || (client in clientIds && client in c.enabledClients && name == c.name))
  {
    if clientIds != [] {
      WithNamesAt(enabled, clientIds[..|clientIds| - 1], c, client, name);
    }
  }

  /** For each client asked about, the names of exactly the connections enabled for it; no entry when there is none. */
  lemma {:induction false} NamesEnabled(clientIds: seq<string>, cs: seq<Connection>, client: string, name: string)
    ensures var r := AllNames(clientIds, cs);
            && (client in r <==> client in clientIds && exists c :: c in cs && client in c.enabledClients)
            && (name in NamesOf(r, client) <==>
                  client in clientIds && exists c :: c in cs && c.name == name && client in c.enabledClients)
  {
    if cs != [] {
      var front, last := cs[..|cs| - 1], cs[|cs| - 1];
      NamesEnabled(clientIds, front, client, name);
      WithNamesAt(AllNames(clientIds, front), clientIds, last, client, name);
      assert forall c :: c in cs <==> c in front || c == last;
    }
  }

  // ---------------------------------------------------------------- reconciliation

  /** One connection: its other clients stay, and it is enabled for the client iff it was to be. */
  lemma {:induction false} AdjustedMembers(c: Connection, client: string, removed: set<string>, added: set<string>)
    requires NoDuplicates(c.enabledClients) && removed !! added
    ensures var d := Adjusted(c, client, removed, added);
            && d.id == c.id && d.name == c.name && NoDuplicates(d.enabledClients)
            && (forall other :: other != client ==> (other in d.enabledClients <==> other in c.enabledClients))
            && (client in d.enabledClients <==> if c.name in removed then false else c.name in added || client in c.enabledClients)
  {
    if c.name in removed && client in c.enabledClients {
      RemoveFirstMembers(c.enabledClients, client);
    }
  }

  /** `existing_conns` as the caller gets it: `get_client_enabled_connections([client]).get(client) or []`. */
  ghost predicate Reported(cs: seq<Connection>, client: string, existing: seq<string>) {
    existing == NamesOf(AllNames([client], cs), client)
  }

  /** What `update_client_auth_connections` leaves, connection by connection. */
  ghost predicate Reconciled(before: seq<Connection>, after: seq<Connection>, client: string, wanted: seq<string>,
                             existing: seq<string>) {
    && |after| == |before|
    && forall k :: 0 <= k < |after| ==>
         after[k] == Adjusted(before[k], client, AsSet(existing) - AsSet(wanted), AsSet(wanted) - AsSet(existing))
  }

  /** Some connection of that name is enabled for the client. */
  ghost predicate NamesakeEnabled(cs: seq<Connection>, client: string, name: string) {
    exists c :: c in cs && c.name == name && client in c.enabledClients
  }

  /**
   * Reconciliation, whatever the names: afterwards the client is enabled on a connection exactly if
   * its name is wanted, and it was so before or no connection of that name was. With one connection
   * to a name these are the wanted ones that exist. Every other client's membership is as before;
   * ids, names and order stay, and lists that had no duplicates have none.
   */
  lemma {:induction false} ExactlyTheWanted(before: seq<Connection>, after: seq<Connection>, client: string,
                                            wanted: seq<string>, existing: seq<string>, k: nat)
    requires Reported(before, client, existing)
    requires Reconciled(before, after, client, wanted, existing) && k < |before|
    requires NoDuplicates(before[k].enabledClients)
    ensures client in after[k].enabledClients <==>
              && before[k].name in wanted
              && (client in before[k].enabledClients || !NamesakeEnabled(before, client, before[k].name))
    ensures UniqueNames(before) ==> (client in after[k].enabledClients <==> before[k].name in wanted)
    ensures forall other :: other != client ==> (other in after[k].enabledClients <==> other in before[k].enabledClients)
    ensures after[k].id == before[k].id && after[k].name == before[k].name && NoDuplicates(after[k].enabledClients)
  {
    var removed, added := AsSet(existing) - AsSet(wanted), AsSet(wanted) - AsSet(existing);
    AdjustedMembers(before[k], client, removed, added);
    NamesEnabled([client], before, client, before[k].name);
    assert before[k] in before;
    assert before[k].name in existing <==> NamesakeEnabled(before, client, before[k].name);
    assert UniqueNames(before) ==> forall c :: c in before && c.name == before[k].name ==> c == before[k];
  }

  /**
   * Whatever list the caller passes as existing: a connection ends up as wanted exactly when the list
   * differs from the request there, so that something is done, or it was as wanted already.
   */
  lemma {:induction false} WhenTheListIsWrong(c: Connection, client: string, wanted: seq<string>,
                                              existing: seq<string>)
    requires NoDuplicates(c.enabledClients)
    ensures var d := Adjusted(c, client, AsSet(existing) - AsSet(wanted), AsSet(wanted) - AsSet(existing));
            (client in d.enabledClients <==> c.name in wanted) <==>
              || (c.name in existing <==> c.name !in wanted)
              || (client in c.enabledClients <==> c.name in wanted)
  {
    AdjustedMembers(c, client, AsSet(existing) - AsSet(wanted), AsSet(wanted) - AsSet(existing));
  }
}
