/**
 * The presence tables of the signaling server: the `users` object
 * (user id -> socket id) and the `userStatus` object (user id -> availability).
 *
 * A JavaScript object used as a dictionary is modelled as a `map` together with
 * the sequence of its keys in enumeration order (`Object.keys`, `for ... in`).
 * Assigning to an existing key keeps its position, assigning to a new key
 * appends it, and `delete` removes it from the order.
 */
module Presence {

  type UserId = string

  /** Socket ids are generated by the transport and never empty, so a looked-up
    * socket id is truthy exactly when the key is present. */
  type SocketId = s: string | s != "" witness "socket"

  /** The two values stored in `userStatus`: "online" and "busy". */
  datatype Status = Online | Busy

  datatype Option<T> = None | Some(value: T)

  ghost predicate NoDup<T>(s: seq<T>)
  {
    forall i, j :: 0 <= i < j < |s| ==> s[i] != s[j]
  }

  /** `order` lists every key of `users` exactly once: it is `Object.keys(users)`. */
  ghost predicate Enumerates<V>(order: seq<UserId>, users: map<UserId, V>)
  {
    NoDup(order) && forall u :: u in users <==> u in order
  }

  /** Key order after `users[id] = ...`: a new key goes last, an existing one keeps its place. */
  function OrderAfterSet<V>(order: seq<UserId>, users: map<UserId, V>, id: UserId): seq<UserId>
  {
    if id in users then order else order + [id]
  }

  /** Removes position `i` from a sequence: the effect of `delete` on the key order. */
  function RemoveAt<T>(s: seq<T>, i: nat): (r: seq<T>)
    requires i < |s|
    ensures |r| == |s| - 1
    ensures forall j :: 0 <= j < i ==> r[j] == s[j]
    ensures forall j :: i <= j < |r| ==> r[j] == s[j + 1]
  {
    s[..i] + s[i + 1..]
  }

  /**
   * The position, in key order, of the first user whose socket is `sock`:
   * the key at which the `for (let id in users)` scan of the disconnect
   * handler stops.
   */
  function FirstOwner(order: seq<UserId>, users: map<UserId, SocketId>, sock: SocketId): (r: Option<nat>)
    ensures r.Some? ==> r.value < |order| && order[r.value] in users && users[order[r.value]] == sock
    ensures forall j :: 0 <= j < |order| && (r.None? || j < r.value) ==>
              !(order[j] in users && users[order[j]] == sock)
    decreases |order|
  {
    if order == [] then None
    else if order[0] in users && users[order[0]] == sock then Some(0)
    else
      match FirstOwner(order[1..], users, sock)
      case None => None
      case Some(i) => Some(i + 1)
  }

  /** Setting a key keeps `order` an enumeration of the keys. */
  lemma SetKeepsEnumeration<V>(order: seq<UserId>, users: map<UserId, V>, id: UserId, v: V)
    requires Enumerates(order, users)
    ensures Enumerates(OrderAfterSet(order, users, id), users[id := v])
  {
    var o := OrderAfterSet(order, users, id);
    if id !in users {
      assert id !in order;
      forall i, j | 0 <= i < j < |o| ensures o[i] != o[j] {
        if j == |order| {
          assert o[i] == order[i];
        }
      }
    }
  }

  /** Deleting the key found at position `i` keeps `order` an enumeration of the keys. */
  lemma {:induction false} RemoveKeepsEnumeration<V>(order: seq<UserId>, users: map<UserId, V>, i: nat)
    requires Enumerates(order, users) && i < |order|
    ensures Enumerates(RemoveAt(order, i), users - {order[i]})
  {
    var r := RemoveAt(order, i);
    var id := order[i];
    forall u
      ensures u in users - {id} <==> u in r
    {
      if u in r {
        var k :| 0 <= k < |r| && r[k] == u;
        if k < i {
          assert r[k] == order[k];
        } else {
          assert r[k] == order[k + 1];
        }
      }
      if u in users - {id} {
        assert u in order;
        var k :| 0 <= k < |order| && order[k] == u;
        assert k != i;
        if k < i {
          assert r[k] == u;
        } else {
          assert r[k - 1] == u;
        }
      }
    }
  }
}
