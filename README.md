# Call-signaling relay: presence tables and socket handlers

This project models the core of a small WebRTC signaling server. The server keeps
two module-level dictionaries: `users` maps a user id to the id of the socket it
joined from, and `userStatus` maps a user id to "online" or "busy". Seven socket
handlers read and change these tables and decide which messages go out:

- join
- call-request
- answer-call
- reject-call
- ice-candidate
- end-call, which also writes one call record to the call log
- disconnect

The model has two modules:

- `Presence` (`presence.dfy`) holds the table helpers. A JavaScript object used as a
  dictionary is a `map` plus the sequence of its keys in enumeration order. That
  sequence is what `Object.keys(users)` returns and what `for ... in` walks.
  `FirstOwner` is the disconnect scan as a function: the first key, in key order,
  whose socket is the closing one.
- `Signaling` (`signaling.dfy`) holds the messages and the server state.
  - Each handler is a pure step function (`JoinStep` … `DisconnectStep`) from
    the state before the event to the state after it, plus the list of messages
    sent. `Handle` dispatches on the event.
  - Lemmas state what the handlers promise.
  - The class `Server` holds the tables as mutable fields. Its methods
    `OnJoin` … `OnDisconnect` update them in place, and each method is proved
    to produce the state and messages of its step function.
  - `OnDisconnect` is the `for ... in` scan with its early `break`, written
    as a loop with invariants.

Messages are `Outbound` values, and the model does not deliver them:

- `Unicast(socket, event)` is `io.to(socket).emit`.
- `Reply(event)` is `socket.emit`.
- `Broadcast(event)` is `io.emit`.

The code keeps no call sessions and has no ringing or active states. So the model has none either:

- answer-call is accepted whenever its `to` is registered.
- end-call always releases both ids.
- A re-join overwrites the socket without touching any call.

Two consequences of the code as written:

- No handler checks the order of events. answer-call marks both ids busy even
  when no call-request came first, and reject-call, ice-candidate and end-call
  act whatever the current statuses are.
- When the log write fails, the `await` in end-call throws. The rest of the
  handler never runs: no call-ended, no list update, no refresh-logs, although
  both ids are already online. `EndCallStep` takes the outcome of the write as
  its `saved` parameter.

## Model

| member | source | states |
|---|---|---|
| `Presence.RemoveAt` | server.js:103 | deleting a key drops exactly that position from the key order and keeps the other keys in their order |
| `Presence.FirstOwner` | server.js:100-107 | the scan stops at the first key, in key order, bound to the closing socket; no earlier key is bound to it; None means no key is bound to it |
| `Presence.OrderAfterSet` | server.js:36 | the key order after `users[userId] = ...`; its properties are stated by `Presence.SetKeepsEnumeration` |
| `Signaling.Snapshot` | server.js:39-42 | the `update-user-list` payload (`Object.keys(users)` and `userStatus`), also sent at lines 64, 94 and 108; `Signaling.BroadcastIsFresh` states that every broadcast carries it for the state after the handler |
| `Signaling.JoinStep` | server.js:35-43 | the join handler as a step; its properties are stated by `Signaling.JoinRegisters` |
| `Signaling.CallRequestStep` | server.js:46-55 | the call-request handler as a step; its properties are stated by `Signaling.CallRequestRoutes` |
| `Signaling.AnswerCallStep` | server.js:58-66 | the answer-call handler as a step; its properties are stated by `Signaling.AnswerCallMarksBusy` |
| `Signaling.RejectCallStep` | server.js:69-74 | the reject-call handler as a step; its properties are stated by `Signaling.ForwardsOnlyToTarget` |
| `Signaling.IceCandidateStep` | server.js:77-82 | the ice-candidate handler as a step; its properties are stated by `Signaling.ForwardsOnlyToTarget` |
| `Signaling.EndCallStep` | server.js:85-96 | the end-call handler as a step, given the outcome of the log write; its properties are stated by `Signaling.EndCallReleases` and `Signaling.EndCallSinkFailure` |
| `Signaling.DisconnectStep` | server.js:98-109 | the disconnect handler as a step; its properties are stated by `Signaling.DisconnectRemovesFirstOwner` |
| `Signaling.Handle` | server.js:33-110 | the handler chosen by the event name; the properties over all events are stated by `Signaling.HandlePreservesInv`, `Signaling.BroadcastIsFresh`, `Signaling.UnicastsReachRegistered`, `Signaling.BusyOnlyByAnswer` and `Signaling.LogOnlyGrowsOnEndCall` |
| `Presence.SetKeepsEnumeration` | server.js:36 | assigning `users[userId]` keeps the key order a duplicate-free list of exactly the keys: a new key is appended, an existing key keeps its place |
| `Presence.RemoveKeepsEnumeration` | server.js:103 | deleting the key found by the scan keeps the key order a duplicate-free list of exactly the remaining keys |
| `Signaling.JoinRegisters` | server.js:35-43 | join binds the id to the joining socket (last join wins) and marks it online; every other user and status entry is unchanged; a re-joining id keeps its place in the order, and a new one goes last; the only output is one `update-user-list` broadcast of the new state; the invariant holds afterwards |
| `Signaling.CallRequestRoutes` | server.js:46-55 | call-request changes no state; an unregistered target gets nothing; a busy target makes the only output `call-response{status:"busy"}` to the caller; otherwise the only output is `incoming-call` with the payload unchanged, sent to the target's socket |
| `Signaling.AnswerCallMarksBusy` | server.js:58-66 | if `to` is registered, `from` and `to` both become busy (`from` even when it is unregistered), all other statuses stay, and the outputs are `call-accepted` to `to` followed by a fresh broadcast; otherwise nothing changes and nothing is sent |
| `Signaling.ForwardsOnlyToTarget` | server.js:69-82 | reject-call and ice-candidate change no state; each sends exactly one message, to the target's socket, only when the target is registered; ice-candidate forwards the candidate alone |
| `Signaling.EndCallReleases` | server.js:85-96 | end-call sets both ids online whether or not they are registered and appends exactly one "completed" record (caller `from`, receiver `to`, the duration); call-ended goes to `to` only if it is registered; the outputs end with the list update followed by refresh-logs |
| `Signaling.EndCallSinkFailure` | server.js:85-89 | when the awaited log write rejects, both ids are already online, every other status entry, the users, the key order and the log are unchanged, and no message is sent |
| `Signaling.DisconnectRemovesFirstOwner` | server.js:98-109 | disconnect removes at most one id, the first in key order bound to the closing socket, from both tables; if no id matches, the state is unchanged; it always broadcasts; the invariant holds afterwards |
| `Signaling.HandlePreservesInv` | server.js:35-109 | every handler keeps the key order an enumeration of `users`, and keeps every registered id in `userStatus` |
| `Signaling.StatusOutlivesRegistration` | server.js:58-62 | the reverse inclusion fails: after one join, an answer-call gives a status to an id that never joined |
| `Signaling.BroadcastIsFresh` | server.js:35-109 | in every handler, each `update-user-list` carries the key order and the status table as they are after that handler's changes |
| `Signaling.UnicastsReachRegistered` | server.js:46-92 | every unicast, whatever the event, goes to the current socket of a registered id; a reply to the sender only happens for call-request, and it only says "busy" |
| `Signaling.BusyOnlyByAnswer` | server.js:35-109 | a status becomes busy only through answer-call, and only for that call's `from` or `to` |
| `Signaling.LogOnlyGrowsOnEndCall` | server.js:85-96 | the call log grows only through an end-call whose write succeeds, and then by exactly its one record |
| `Signaling.JoinThenDisconnect` | server.js:35-107 | a first join from a socket no one else uses is undone by that socket's disconnect: `users` and its order are restored, and the id's status is removed |
| `Signaling.CallScenario` | server.js:35-96 | A and B join, A calls B, B answers, A hangs up after 42: B gets incoming-call, A gets call-accepted, both are busy, then one record is written, B gets call-ended, and both are shown online before refresh-logs |
| `Signaling.Server.constructor` | server.js:30-31 | the server starts with empty tables and an empty log, and the invariant holds |
| `Signaling.Server.OnJoin` | server.js:35-43 | the fields after the handler and the messages sent are exactly those of `JoinStep`; the invariant is kept |
| `Signaling.Server.OnCallRequest` | server.js:46-55 | changes nothing and sends exactly the messages of `CallRequestStep` |
| `Signaling.Server.OnAnswerCall` | server.js:58-66 | new fields and messages are those of `AnswerCallStep`; the invariant is kept |
| `Signaling.Server.OnRejectCall` | server.js:69-74 | changes nothing and sends exactly the messages of `RejectCallStep` |
| `Signaling.Server.OnIceCandidate` | server.js:77-82 | changes nothing and sends exactly the messages of `IceCandidateStep` |
| `Signaling.Server.OnEndCall` | server.js:85-96 | new fields (statuses, then the log) and messages are those of `EndCallStep`, given the outcome of the log write; the invariant is kept |
| `Signaling.Server.OnDisconnect` | server.js:98-109 | the in-place scan with early exit produces the fields and messages of `DisconnectStep`; the invariant is kept |

## Left out

- Express, the HTTP server, CORS, socket.io's server object and `server.listen` are transport plumbing and are not modelled. Message delivery is only the returned list of `Outbound` values.
- The mongoose connection, schema and model machinery are left out. `CallLog.create` becomes an append to the `log` sequence. Whether the write succeeds is the `saved` parameter. The `startTime` default (`Date.now`) is a clock read and is not modelled.
- EndCallStep: a rejected log write is an unhandled promise rejection (there is no try/catch, no `.catch` and no `unhandledRejection` handler, and socket.io ignores the promise an async listener returns). Under Node's default since version 15 that ends the process, and both tables are lost. The model only stops the handler and keeps the process, and later handlers, running from the released state.
- Interleaving is not modelled. The `await` in end-call could let other handlers run between the status change and the rest of that handler. The model applies one handler at a time, in this order: the status changes, the log append, then the messages.
- `console.log` and `console.error` are not modelled.
- Key order is modelled as insertion order. JavaScript lists integer-like keys (such as "42") first, in ascending numeric order. Objects also have inherited keys such as `__proto__`. Neither is modelled.
- Socket ids are non-empty strings, so the truthiness tests `if (targetSocket)` become "the key is present". socket.io never issues an empty id.
- Payloads are taken to be well-formed objects with string ids. A missing field, which JavaScript would turn into the key "undefined", is not modelled. A null payload, which makes destructuring throw, is not modelled either.
- `duration` is a JavaScript number that is only stored. It is modelled as an `int`.
- The opaque parts of call-request, answer-call and ice-candidate payloads are a single string, `rest`. It is passed through unchanged or dropped.
- Call sessions, ringing and active states, transition guards, abandoning a session on disconnect, and eviction on re-join are not modelled. The code has none of them.
