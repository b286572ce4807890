/**
 * The backend's WebSocket registry (backend/core/websocket.py,
 * `ConnectionManager`): user id -> list of that user's open sockets.  Only
 * the bookkeeping of `connect` and `disconnect` is modelled; sockets are
 * opaque identifiers.
 */
module Connections {

  datatype Socket = Socket(id: nat)
  type UserId = string
  type Registry = map<UserId, seq<Socket>>

  /** The object invariant: no user is kept with an empty list. */
  ghost predicate NoEmptyLists(m: Registry)
  {
    forall u :: u in m ==> m[u] != []
  }

  /** Position of the first occurrence of `x`. */
  function IndexOf(s: seq<Socket>, x: Socket): (i: nat)
    requires x in s
    ensures i < |s| && s[i] == x && x !in s[..i]
  {
    if s[0] == x then 0 else 1 + IndexOf(s[1..], x)
  }

  /** `list.remove(x)` when `x` is present: drops its first occurrence only. */
  function RemoveFirst(s: seq<Socket>, x: Socket): (r: seq<Socket>)
    requires x in s
    ensures r == s[..IndexOf(s, x)] + s[IndexOf(s, x) + 1..]
    ensures |r| == |s| - 1
  {
    if s[0] == x then s[1..] else [s[0]] + RemoveFirst(s[1..], x)
  }

  /** The registry after `connect(ws, user)`. */
  function AfterConnect(m: Registry, ws: Socket, user: UserId): (r: Registry)
    ensures user in r && r[user] == (if user in m then m[user] else []) + [ws]
    ensures r.Keys == m.Keys + {user}
  {
    var existing := if user in m then m[user] else [];
    m[user := existing + [ws]]
  }

  /** The registry after `disconnect(ws, user)`. */
  function AfterDisconnect(m: Registry, ws: Socket, user: UserId): (r: Registry)
    ensures user !in m ==> r == m
    ensures user in m ==> (user in r <==> (if ws in m[user] then RemoveFirst(m[user], ws) else m[user]) != [])
    ensures user in r ==> r[user] == (if ws in m[user] then RemoveFirst(m[user], ws) else m[user])
    ensures r.Keys <= m.Keys
  {
    if user !in m then m
    else
      var remaining := if ws in m[user] then RemoveFirst(m[user], ws) else m[user];
      if remaining == [] then m - {user} else m[user := remaining]
  }

  /** `connect` touches no other user's list and never leaves a list empty. */
  lemma ConnectFrame(m: Registry, ws: Socket, user: UserId)
    ensures forall u :: u in m && u != user ==> AfterConnect(m, ws, user)[u] == m[u]
    ensures NoEmptyLists(m) ==> NoEmptyLists(AfterConnect(m, ws, user))
  {
  }

  /** `disconnect` touches no other user's list and never leaves a list empty. */
  lemma DisconnectFrame(m: Registry, ws: Socket, user: UserId)
    ensures forall u :: u in m && u != user ==> u in AfterDisconnect(m, ws, user) && AfterDisconnect(m, ws, user)[u] == m[u]
    ensures NoEmptyLists(m) ==> NoEmptyLists(AfterDisconnect(m, ws, user))
  {
  }

  class ConnectionManager {
    var activeConnections: Registry

    ghost predicate Valid()
      reads this
    {
      NoEmptyLists(activeConnections)
    }

    constructor ()
      ensures Valid() && activeConnections == map[]
    {
      activeConnections := map[];
    }

    method Connect(ws: Socket, user: UserId)
      requires Valid()
      modifies this
      ensures Valid()
      ensures activeConnections == AfterConnect(old(activeConnections), ws, user)
    {
      ConnectFrame(activeConnections, ws, user);
      if user !in activeConnections {
        activeConnections := activeConnections[user := []];
      }
      activeConnections := activeConnections[user := activeConnections[user] + [ws]];
    }

    method Disconnect(ws: Socket, user: UserId)
      requires Valid()
      modifies this
      ensures Valid()
      ensures activeConnections == AfterDisconnect(old(activeConnections), ws, user)
    {
      DisconnectFrame(activeConnections, ws, user);
      if user in activeConnections {
        if ws in activeConnections[user] {
          activeConnections := activeConnections[user := RemoveFirst(activeConnections[user], ws)];
        }
        if activeConnections[user] == [] {
          activeConnections := activeConnections - {user};
        }
      }
    }
  }

  /** Removing the first occurrence of a socket appended to a list that lacks it gives the list back. */
  lemma {:induction false} RemoveAppended(s: seq<Socket>, ws: Socket)
    requires ws !in s
    ensures RemoveFirst(s + [ws], ws) == s
  {
    if s != [] {
      assert (s + [ws])[1..] == s[1..] + [ws];
      RemoveAppended(s[1..], ws);
    }
  }

  /**
   * Connecting a socket the user did not already have and disconnecting it
   * again restores the registry exactly, including dropping a user that had
   * no connections before.
   */
  lemma ConnectThenDisconnect(m: Registry, ws: Socket, user: UserId)
    requires NoEmptyLists(m)
    requires user in m ==> ws !in m[user]
    ensures AfterDisconnect(AfterConnect(m, ws, user), ws, user) == m
  {
    if user in m {
      var c := m[user := m[user] + [ws]];
      assert AfterConnect(m, ws, user) == c;
      RemoveAppended(m[user], ws);
      assert ws in c[user] && RemoveFirst(c[user], ws) == m[user] != [];
      assert AfterDisconnect(c, ws, user) == c[user := m[user]];
      RestoreUpdated(m, user, m[user] + [ws]);
    } else {
      var c := m[user := [ws]];
      assert [] + [ws] == [ws];
      assert AfterConnect(m, ws, user) == c;
      assert RemoveFirst([ws], ws) == [];
      assert AfterDisconnect(c, ws, user) == c - {user};
      DropAdded(m, user, [ws]);
    }
  }

  lemma RestoreUpdated<K, V>(m: map<K, V>, k: K, v: V)
    requires k in m
    ensures m[k := v][k := m[k]] == m
  {
    assert m[k := v][k := m[k]].Keys == m.Keys;
  }

  lemma DropAdded<K, V>(m: map<K, V>, k: K, v: V)
    requires k !in m
    ensures m[k := v] - {k} == m
  {
    assert (m[k := v] - {k}).Keys == m.Keys;
  }

}
