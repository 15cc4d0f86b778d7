/**
 * The socket handlers of the signaling server (join, call-request, answer-call,
 * reject-call, ice-candidate, end-call, disconnect) over the presence tables.
 *
 * Each handler is first given as a pure step function from the server state
 * before the event to the state after it and the messages sent; the lemmas
 * state what the handlers promise; the class `Server` holds the tables as
 * mutable fields and runs the handlers in place, each method proved to follow
 * its step function.
 */
module Signaling {
  import opened Presence

  /** The payload of call-request and answer-call: the two parties and the
    * rest of the object (offer or answer description, caller name), which
    * the server forwards without looking at it. */
  datatype CallData = CallData(from: UserId, to: UserId, rest: string)

  /** The payload of ice-candidate: the target, the candidate, and any other fields. */
  datatype IceData = IceData(to: UserId, candidate: string, rest: string)

  /** A document written through `CallLog.create`; `outcome` is the schema's
    * `status` field, always "completed" here. */
  datatype CallRecord = CallRecord(callerId: UserId, receiverId: UserId, duration: int, outcome: string)

  /** Events received from a socket. */
  datatype Inbound =
    | Join(userId: UserId)
    | CallRequest(call: CallData)
    | AnswerCall(call: CallData)
    | RejectCall(to: UserId)
    | IceCandidate(ice: IceData)
    | EndCall(from: UserId, to: UserId, duration: int)
    | Disconnect

  /** Events sent to sockets. `Candidate` is the outgoing "ice-candidate". */
  datatype Event =
    | UpdateUserList(users: seq<UserId>, status: map<UserId, Status>)
    | IncomingCall(call: CallData)
    | CallResponse(response: string)
    | CallAccepted(call: CallData)
    | CallRejected
    | Candidate(candidate: string)
    | CallEnded
    | RefreshLogs

  /** Where an event goes: one socket (`io.to(s).emit`), the calling socket
    * (`socket.emit`) or every connected socket (`io.emit`). */
  datatype Outbound =
    | Unicast(socket: SocketId, event: Event)
    | Reply(event: Event)
    | Broadcast(event: Event)

  /** The module-level state: `users`, the key order of `users`, `userStatus`,
    * and the records written to the call log. */
  datatype State = State(
    users: map<UserId, SocketId>,
    order: seq<UserId>,
    status: map<UserId, Status>,
    log: seq<CallRecord>)

  /** The state after a handler and the messages it sent, in order. */
  datatype Step = Step(next: State, out: seq<Outbound>)

  /** What every handler keeps: `order` enumerates the registered users, and
    * every registered user has a status. */
  ghost predicate Inv(s: State)
  {
    Enumerates(s.order, s.users) && forall u :: u in s.users ==> u in s.status
  }

  const Empty := State(map[], [], map[], [])

  /** The "update-user-list" payload: `Object.keys(users)` and `userStatus`. */
  function Snapshot(s: State): Event
  {
    UpdateUserList(s.order, s.status)
  }

  // ---------------------------------------------------------------------------
  // The handlers as step functions
  // ---------------------------------------------------------------------------

  function JoinStep(s: State, sock: SocketId, userId: UserId): Step
  {
    var n := s.(users := s.users[userId := sock],
                order := OrderAfterSet(s.order, s.users, userId),
                status := s.status[userId := Online]);
    Step(n, [Broadcast(Snapshot(n))])
  }

  function CallRequestStep(s: State, call: CallData): Step
  {
    if call.to !in s.users then Step(s, [])
    else if call.to in s.status && s.status[call.to] == Busy then Step(s, [Reply(CallResponse("busy"))])
    else Step(s, [Unicast(s.users[call.to], IncomingCall(call))])
  }

  function AnswerCallStep(s: State, call: CallData): Step
  {
    if call.to !in s.users then Step(s, [])
    else
      var n := s.(status := s.status[call.from := Busy][call.to := Busy]);
      Step(n, [Unicast(s.users[call.to], CallAccepted(call)), Broadcast(Snapshot(n))])
  }

  function RejectCallStep(s: State, to: UserId): Step
  {
    if to in s.users then Step(s, [Unicast(s.users[to], CallRejected)]) else Step(s, [])
  }

  function IceCandidateStep(s: State, ice: IceData): Step
  {
    if ice.to in s.users then Step(s, [Unicast(s.users[ice.to], Candidate(ice.candidate))]) else Step(s, [])
  }

  /** `saved` says whether `CallLog.create` resolved; when it rejects, the
    * awaiting handler stops after releasing both parties. */
  function EndCallStep(s: State, from: UserId, to: UserId, duration: int, saved: bool): Step
  {
    var released := s.(status := s.status[from := Online][to := Online]);
    if !saved then Step(released, [])
    else
      var n := released.(log := s.log + [CallRecord(from, to, duration, "completed")]);
      var ended := if to in s.users then [Unicast(s.users[to], CallEnded)] else [];
      Step(n, ended + [Broadcast(Snapshot(n)), Broadcast(RefreshLogs)])
  }

  function DisconnectStep(s: State, sock: SocketId): Step
  {
    match FirstOwner(s.order, s.users, sock)
    case None => Step(s, [Broadcast(Snapshot(s))])
    case Some(i) =>
      var id := s.order[i];
      var n := s.(users := s.users - {id}, order := RemoveAt(s.order, i), status := s.status - {id});
      Step(n, [Broadcast(Snapshot(n))])
  }

  /** One event from socket `sock`; `saved` is only consulted by end-call. */
  function Handle(s: State, sock: SocketId, e: Inbound, saved: bool): Step
  {
    match e
    case Join(userId) => JoinStep(s, sock, userId)
    case CallRequest(call) => CallRequestStep(s, call)
    case AnswerCall(call) => AnswerCallStep(s, call)
    case RejectCall(to) => RejectCallStep(s, to)
    case IceCandidate(ice) => IceCandidateStep(s, ice)
    case EndCall(from, to, duration) => EndCallStep(s, from, to, duration, saved)
    case Disconnect => DisconnectStep(s, sock)
  }

  // ---------------------------------------------------------------------------
  // What the handlers promise
  // ---------------------------------------------------------------------------

  /** join: last join wins, the user is online, every other entry is unchanged,
    * and a re-joining user keeps its place in the broadcast order. */
  lemma JoinRegisters(s: State, sock: SocketId, userId: UserId)
    requires Inv(s)
    ensures var r := JoinStep(s, sock, userId);
      && r.next.users.Keys == s.users.Keys + {userId}
      && r.next.users[userId] == sock && r.next.status[userId] == Online
      && (forall u :: u in s.users && u != userId ==> r.next.users[u] == s.users[u])
      && (forall u :: u in s.status && u != userId ==> u in r.next.status && r.next.status[u] == s.status[u])
      && r.next.status.Keys == s.status.Keys + {userId}
      && (userId in s.users ==> r.next.order == s.order)
      && (userId !in s.users ==> r.next.order == s.order + [userId])
      && r.next.log == s.log
      && r.out == [Broadcast(Snapshot(r.next))]
      && Inv(r.next)
  {
    SetKeepsEnumeration(s.order, s.users, userId, sock);
  }

  /** call-request changes nothing, and tells only the target, or only the
    * caller when the target is busy, or nobody when the target is unknown. */
  lemma CallRequestRoutes(s: State, call: CallData)
    ensures var r := CallRequestStep(s, call);
      && r.next == s
      && (call.to !in s.users ==> r.out == [])
      && (call.to in s.users && call.to in s.status && s.status[call.to] == Busy ==>
            r.out == [Reply(CallResponse("busy"))])
      && (call.to in s.users && !(call.to in s.status && s.status[call.to] == Busy) ==>
            r.out == [Unicast(s.users[call.to], IncomingCall(call))])
  {
  }

  /** answer-call: with a registered target, both parties become busy even
    * when `from` is not registered; otherwise nothing happens. */
  lemma AnswerCallMarksBusy(s: State, call: CallData)
    ensures var r := AnswerCallStep(s, call);
      && r.next.users == s.users && r.next.order == s.order && r.next.log == s.log
      && (call.to !in s.users ==> r.next == s && r.out == [])
      && (call.to in s.users ==>
            && r.next.status[call.from] == Busy && r.next.status[call.to] == Busy
            && (forall u :: u in s.status && u != call.from && u != call.to ==>
                  u in r.next.status && r.next.status[u] == s.status[u])
            && r.next.status.Keys == s.status.Keys + {call.from, call.to}
            && r.out == [Unicast(s.users[call.to], CallAccepted(call)), Broadcast(Snapshot(r.next))])
  {
  }

  /** reject-call and ice-candidate change nothing and send at most one
    * message, to the target's socket; ice-candidate keeps only the candidate. */
  lemma ForwardsOnlyToTarget(s: State, to: UserId, ice: IceData)
    ensures var r := RejectCallStep(s, to);
      r.next == s && (if to in s.users then r.out == [Unicast(s.users[to], CallRejected)] else r.out == [])
    ensures var r := IceCandidateStep(s, ice);
      r.next == s &&
      (if ice.to in s.users then r.out == [Unicast(s.users[ice.to], Candidate(ice.candidate))] else r.out == [])
  {
  }

  /** end-call: both ids are set online whether registered or not, exactly one
    * "completed" record is appended, call-ended goes to a registered `to`, and
    * the list update precedes refresh-logs. */
  lemma EndCallReleases(s: State, from: UserId, to: UserId, duration: int)
    ensures var r := EndCallStep(s, from, to, duration, true);
      && r.next.users == s.users && r.next.order == s.order
      && r.next.status[from] == Online && r.next.status[to] == Online
      && r.next.status.Keys == s.status.Keys + {from, to}
      && (forall u :: u in s.status && u != from && u != to ==> r.next.status[u] == s.status[u])
      && r.next.log == s.log + [CallRecord(from, to, duration, "completed")]
      && |r.out| == (if to in s.users then 3 else 2)
      && r.out[|r.out| - 2] == Broadcast(Snapshot(r.next))
      && r.out[|r.out| - 1] == Broadcast(RefreshLogs)
      && (to in s.users ==> r.out[0] == Unicast(s.users[to], CallEnded))
  {
  }

  /** end-call whose log write rejects: the parties are still released, but no
    * record is kept and no message at all is sent. */
  lemma EndCallSinkFailure(s: State, from: UserId, to: UserId, duration: int)
    ensures var r := EndCallStep(s, from, to, duration, false);
      && r.out == []
      && r.next.log == s.log
      && r.next.users == s.users && r.next.order == s.order
      && r.next.status[from] == Online && r.next.status[to] == Online
      && r.next.status.Keys == s.status.Keys + {from, to}
      && (forall u :: u in s.status && u != from && u != to ==> r.next.status[u] == s.status[u])
  {
  }

  /** disconnect removes at most one user: the first in key order bound to the
    * closing socket, from both tables; other users of that socket stay. */
  lemma DisconnectRemovesFirstOwner(s: State, sock: SocketId)
    requires Inv(s)
    ensures var r := DisconnectStep(s, sock);
      && r.out == [Broadcast(Snapshot(r.next))]
      && r.next.log == s.log
      && ((forall u :: u in s.users ==> s.users[u] != sock) ==> r.next == s)
      && ((exists u :: u in s.users && s.users[u] == sock) ==>
            exists i :: 0 <= i < |s.order| && s.users[s.order[i]] == sock
              && (forall j :: 0 <= j < i ==> s.users[s.order[j]] != sock)
              && r.next.users == s.users - {s.order[i]}
              && r.next.status == s.status - {s.order[i]}
              && r.next.order == RemoveAt(s.order, i))
      && Inv(r.next)
  {
    var r := DisconnectStep(s, sock);
    match FirstOwner(s.order, s.users, sock)
    case None =>
      forall u | u in s.users ensures s.users[u] != sock {
        var k :| 0 <= k < |s.order| && s.order[k] == u;
      }
    case Some(i) =>
      RemoveKeepsEnumeration(s.order, s.users, i);
  }

  /** Every handler keeps the state invariant (`users` keys ⊆ `userStatus` keys). */
  lemma HandlePreservesInv(s: State, sock: SocketId, e: Inbound, saved: bool)
    requires Inv(s)
    ensures Inv(Handle(s, sock, e, saved).next)
  {
    match e
    case Join(userId) => JoinRegisters(s, sock, userId);
    case Disconnect => DisconnectRemovesFirstOwner(s, sock);
    case _ =>
  }

  /** The reverse inclusion does not hold: answer-call gives a status to an
    * id that never joined. */
  lemma StatusOutlivesRegistration()
    ensures var s := JoinStep(Empty, "s1", "bob").next;
      var r := AnswerCallStep(s, CallData("stranger", "bob", ""));
      Inv(s) && "stranger" in r.next.status && "stranger" !in r.next.users
  {
    var s := JoinStep(Empty, "s1", "bob").next;
    JoinRegisters(Empty, "s1", "bob");
  }

  /** Broadcast freshness: every "update-user-list" any handler sends carries
    * the key order and the status table as they are after the handler. */
  lemma BroadcastIsFresh(s: State, sock: SocketId, e: Inbound, saved: bool)
    ensures var r := Handle(s, sock, e, saved);
      forall k :: 0 <= k < |r.out| && r.out[k].event.UpdateUserList? ==>
        r.out[k] == Broadcast(Snapshot(r.next))
  {
  }

  /** Targeted delivery: a unicast only ever goes to the current socket of a
    * registered user, and a reply to the caller only says "busy". */
  lemma UnicastsReachRegistered(s: State, sock: SocketId, e: Inbound, saved: bool)
    ensures var r := Handle(s, sock, e, saved);
      forall k :: 0 <= k < |r.out| ==>
        && (r.out[k].Unicast? ==> exists u :: u in s.users && s.users[u] == r.out[k].socket)
        && (r.out[k].Reply? ==> e.CallRequest? && r.out[k].event == CallResponse("busy"))
  {
  }

  /** A status becomes busy only through answer-call, and only for its two ids. */
  lemma BusyOnlyByAnswer(s: State, sock: SocketId, e: Inbound, saved: bool, u: UserId)
    requires u in Handle(s, sock, e, saved).next.status
    requires Handle(s, sock, e, saved).next.status[u] == Busy
    requires u !in s.status || s.status[u] != Busy
    ensures e.AnswerCall? && (u == e.call.from || u == e.call.to)
  {
    match e
    case Disconnect => {
      match FirstOwner(s.order, s.users, sock) {
        case None =>
        case Some(i) =>
      }
    }
    case _ =>
  }

  /** The call log grows only through end-call, by one record, and only when
    * the write succeeds. */
  lemma LogOnlyGrowsOnEndCall(s: State, sock: SocketId, e: Inbound, saved: bool)
    ensures var r := Handle(s, sock, e, saved);
      if e.EndCall? && saved then r.next.log == s.log + [CallRecord(e.from, e.to, e.duration, "completed")]
      else r.next.log == s.log
  {
    match e
    case Disconnect => {
      match FirstOwner(s.order, s.users, sock) {
        case None =>
        case Some(i) =>
      }
    }
    case _ =>
  }

  /** A first join from a socket no one else uses is undone by that socket's
    * disconnect: the user table and its order are back as they were. */
  lemma {:induction false} JoinThenDisconnect(s: State, sock: SocketId, userId: UserId)
    requires Inv(s) && userId !in s.users
    requires forall u :: u in s.users ==> s.users[u] != sock
    ensures var r := DisconnectStep(JoinStep(s, sock, userId).next, sock);
      && r.next.users == s.users
      && r.next.order == s.order
      && r.next.status == s.status - {userId}
      && r.next.log == s.log
  {
    var j := JoinStep(s, sock, userId).next;
    assert j.order == s.order + [userId];
    forall k | 0 <= k < |s.order|
      ensures !(j.order[k] in j.users && j.users[j.order[k]] == sock)
    {
      assert j.order[k] == s.order[k] && s.order[k] in s.users;
    }
    var k := |s.order|;
    assert j.order[k] == userId && j.users[userId] == sock;
    assert FirstOwner(j.order, j.users, sock) == Some(k);
    assert RemoveAt(j.order, k) == s.order;
  }

  /** The call scenario: A and B join, A calls B, B answers, A hangs up after
    * 42 seconds; B is told each time and both end online with one record. */
  lemma CallScenario()
    ensures
      var s1 := JoinStep(Empty, "sa", "A").next;
      var s2 := JoinStep(s1, "sb", "B").next;
      var req := CallRequestStep(s2, CallData("A", "B", "offer"));
      var ans := AnswerCallStep(req.next, CallData("B", "A", "answer"));
      var end := EndCallStep(ans.next, "A", "B", 42, true);
      && s2.order == ["A", "B"]
      && req.out == [Unicast("sb", IncomingCall(CallData("A", "B", "offer")))]
      && ans.out[0] == Unicast("sa", CallAccepted(CallData("B", "A", "answer")))
      && ans.next.status == map["A" := Busy, "B" := Busy]
      && end.next.log == [CallRecord("A", "B", 42, "completed")]
      && end.out == [Unicast("sb", CallEnded),
                     Broadcast(UpdateUserList(["A", "B"], map["A" := Online, "B" := Online])),
                     Broadcast(RefreshLogs)]
  {
    var s1 := JoinStep(Empty, "sa", "A").next;
    var s2 := JoinStep(s1, "sb", "B").next;
    assert s1.order == ["A"];
    assert s2.order == ["A", "B"];
    var req := CallRequestStep(s2, CallData("A", "B", "offer"));
    assert req.out == [Unicast("sb", IncomingCall(CallData("A", "B", "offer")))];
    var ans := AnswerCallStep(req.next, CallData("B", "A", "answer"));
    assert ans.out[0] == Unicast("sa", CallAccepted(CallData("B", "A", "answer")));
    assert ans.next.status == map["A" := Busy, "B" := Busy];
    var end := EndCallStep(ans.next, "A", "B", 42, true);
    assert end.next.log == [CallRecord("A", "B", 42, "completed")];
    assert end.next.status == map["A" := Online, "B" := Online];
    assert end.next.order == ["A", "B"];
  }

  // ---------------------------------------------------------------------------
  // The server object: the tables updated in place
  // ---------------------------------------------------------------------------

  class Server {
    var users: map<UserId, SocketId>
    var order: seq<UserId>
    var status: map<UserId, Status>
    var log: seq<CallRecord>

    function Abs(): State
      reads this
    {
      State(users, order, status, log)
    }

    ghost predicate Valid()
      reads this
    {
      Inv(Abs())
    }

    constructor ()
      ensures Valid() && Abs() == Empty
    {
      users, order, status, log := map[], [], map[], [];
    }

    method OnJoin(sock: SocketId, userId: UserId) returns (out: seq<Outbound>)
      requires Valid()
      modifies this
      ensures Valid()
      ensures var r := JoinStep(old(Abs()), sock, userId); Abs() == r.next && out == r.out
    {
      JoinRegisters(Abs(), sock, userId);
      if userId !in users {
        order := order + [userId];
      }
      users := users[userId := sock];
      status := status[userId := Online];
      out := [Broadcast(UpdateUserList(order, status))];
    }

    method OnCallRequest(call: CallData) returns (out: seq<Outbound>)
      ensures out == CallRequestStep(Abs(), call).out
    {
      if call.to in users {
        if call.to in status && status[call.to] == Busy {
          out := [Reply(CallResponse("busy"))];
        } else {
          out := [Unicast(users[call.to], IncomingCall(call))];
        }
      } else {
        out := [];
      }
    }

    method OnAnswerCall(call: CallData) returns (out: seq<Outbound>)
      requires Valid()
      modifies this
      ensures Valid()
      ensures var r := AnswerCallStep(old(Abs()), call); Abs() == r.next && out == r.out
    {
      if call.to in users {
        var target := users[call.to];
        status := status[call.from := Busy];
        status := status[call.to := Busy];
        out := [Unicast(target, CallAccepted(call)), Broadcast(UpdateUserList(order, status))];
      } else {
        out := [];
      }
    }

    method OnRejectCall(to: UserId) returns (out: seq<Outbound>)
      ensures out == RejectCallStep(Abs(), to).out
    {
      out := [];
      if to in users {
        out := [Unicast(users[to], CallRejected)];
      }
    }

    method OnIceCandidate(ice: IceData) returns (out: seq<Outbound>)
      ensures out == IceCandidateStep(Abs(), ice).out
    {
      out := [];
      if ice.to in users {
        out := [Unicast(users[ice.to], Candidate(ice.candidate))];
      }
    }

    /** `saved` is the outcome of the awaited `CallLog.create`. */
    method OnEndCall(from: UserId, to: UserId, duration: int, saved: bool) returns (out: seq<Outbound>)
      requires Valid()
      modifies this
      ensures Valid()
      ensures var r := EndCallStep(old(Abs()), from, to, duration, saved); Abs() == r.next && out == r.out
    {
      status := status[from := Online];
      status := status[to := Online];
      if !saved {
        return [];
      }
      log := log + [CallRecord(from, to, duration, "completed")];
      out := [];
      if to in users {
        out := [Unicast(users[to], CallEnded)];
      }
      out := out + [Broadcast(UpdateUserList(order, status)), Broadcast(RefreshLogs)];
    }

    /** The `for (let id in users)` scan, stopping at the first id bound to `sock`. */
    method OnDisconnect(sock: SocketId) returns (out: seq<Outbound>)
      requires Valid()
      modifies this
      ensures Valid()
      ensures var r := DisconnectStep(old(Abs()), sock); Abs() == r.next && out == r.out
    {
      DisconnectRemovesFirstOwner(Abs(), sock);
      var i := 0;
      while i < |order|
        invariant 0 <= i <= |order|
        invariant Abs() == old(Abs())
        invariant forall j :: 0 <= j < i ==> !(order[j] in users && users[order[j]] == sock)
      {
        var id := order[i];
        if users[id] == sock {
          users := users - {id};
          order := RemoveAt(order, i);
          status := status - {id};
          break;
        }
        i := i + 1;
      }
      out := [Broadcast(UpdateUserList(order, status))];
    }
  }
}
