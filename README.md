# expodb node coordination layer, modelled in Dafny

This project models the coordination core of an expodb node. An expodb node is a member of a
key/value store kept consistent by Raft. It finds its peers with Serf gossip.

- `server.dfy` (module `Server`) models `pkg/server/server.go`:
  - the Serf event handler `HandleEvent`. On a member-join event it records every member in the
    metadata store. For each member it asks the Raft agent whether this node is leader, and only
    on a yes does it call `AddVoter(id, raftAddr)`.
  - `SetKeyVal`, which submits one entry whose key is `table:key:col`.
  - `GetByRowKey`, which passes a read through to the Raft agent.

  The server is a class. Its fields are the metadata map, a log of `metadata.Add` calls, a count of
  leadership questions and a log of `AddVoter` calls. The metadata store and the Raft agent are
  oracles that answer call by call: the k-th `metadata.Add` fails when `addFails(k)`, and the k-th
  `IsLeader()` answers `raft.isLeader(k)`. Leadership can therefore change in the middle of a batch.
  `HandleEvent` is proved against `HandleEventSpec`. That function is a left fold of one loop turn,
  `JoinMember`, over the batch. The lemmas relate it to an independent head-recursive definition of
  the voter additions a batch should cause, `Gated`.
- `http.dfy` (module `Http`) models `pkg/server/http.go`. The handlers are written against an
  abstract `Node` because that file refers to a `node` type that is not defined next to
  `server.go`. The response writer is a class that records every `WriteHeader` and `Write` call in
  order. `Status` gives what net/http actually sends: the first header wins, and a later
  `WriteHeader` is ignored. Each handler method is proved against a pure `*Effect` function. That
  function gives the writer calls, the Raft `Apply` calls and the `AddVoter` calls of one request.
  JSON decoding of the request body is an `Option<int>` in the request. Marshalling failures,
  `Apply` errors and `AddVoter` errors are oracles in `Env`.
- `common.dfy` (module `Common`) holds `Option`, the error result `Outcome`, the `VoterCall`
  record and Go's `strings.HasPrefix`.

Some consequences of the code as written, proved here:
- A GET for a missing key writes 200 before it writes 404, so the client receives status 200 with
  the not-found body (`GetMissingKeyAnswers200`).
- A join request without `Peer-Address` writes 400 and carries on. It still adds `""` as a voter
  (`JoinWithoutPeerStillAddsVoter`).
- No request is ever answered with an effective 404 (`ServeEffect`).

The code departs from the system's design description in some places. The model follows the code:
- On a failed `metadata.Add`, the design says to skip the member. The code does not `continue`,
  so it still asks for leadership for that member (`JoinRecordsEveryMember`, whatever `Add`
  returns). If a failed add still returns the member's record, as this model assumes, it also
  calls `AddVoter` for it (`JoinIgnoresAddFailures`, `GatedLeaderMember`).
- The design says a missing key yields 404. The code sends an effective 200, as listed above.
- The comment on `SetKeyVal` promises that a non-leader forwards the write to the leader. The
  code forwards nothing: it submits the entry to its own Raft agent and returns that agent's
  `Apply` error, whatever the node's role (`Server.Server.SetKeyVal`).
- The design uses a structured log entry. The code joins table, row and column with `":"`. That
  key is injective only when no component holds `":"` (`CompositeKeyInjective`,
  `CompositeKeyCollision`).

## Model

| member | source | states |
|---|---|---|
| `Server.HandleEventSpec` | pkg/server/server.go:96-136 | A join event adds exactly its members, in order, asks for leadership once per member, and issues the AddVoter calls of `Gated`. Reap, leave, failed and every other kind of event leave the metadata, the call logs and the leadership count unchanged. |
| `Server.JoinRecordsEveryMember` | pkg/server/server.go:102-109 | The loop calls `metadata.Add` once per member in batch order and asks `IsLeader` once per member, whatever any call returned. |
| `Server.JoinVoterCalls` | pkg/server/server.go:109-116 | The AddVoter calls of a batch are exactly the reference sequence `Gated`: one `AddVoter(id, raftAddr)` for each member whose leadership question was answered yes, in batch order. |
| `Server.GatedCount` | pkg/server/server.go:109-116 | The number of AddVoter calls equals the number of yes answers to the per-member leadership questions. |
| `Server.GatedNotLeader` | pkg/server/server.go:109-113 | When every answer is "not leader", the batch issues no AddVoter call. |
| `Server.GatedAllLeader` | pkg/server/server.go:109-116 | When every answer is "leader", the batch issues exactly one AddVoter call per member, the i-th for the i-th member. |
| `Server.GatedLeaderMember` | pkg/server/server.go:103-116 | A member whose leadership question was answered yes gets its AddVoter call. The code does not `continue` after an add error, so if a failed add still returns the member's record (the model's assumption), this holds for that member too. |
| `Server.GatedOnlyLeaderMembers` | pkg/server/server.go:109-116 | Every AddVoter call is for a batch member whose leadership question was answered yes. |
| `Server.JoinIgnoresAddFailures` | pkg/server/server.go:103-109 | If a failed add still returns the member's record (the model's assumption), add failures do not change which AddVoter calls the batch makes. |
| `Server.JoinMetadataLastWins` | pkg/server/server.go:102-108 | After a batch, a member whose add succeeded and was not overwritten by a later successful add of the same name is in the store with its own record. |
| `Server.JoinMetadataUntouched` | pkg/server/server.go:102-108 | An id for which no add in the batch succeeded keeps its earlier entry, or stays absent. |
| `Server.SplitCompositeKey` | pkg/server/server.go:56 | When no component contains ":", splitting the flat key on ":" gives back table, row key and column. |
| `Server.CompositeKeyInjective` | pkg/server/server.go:56 | When no component contains ":", different (table, key, col) triples give different flat keys. |
| `Server.CompositeKeyCollision` | pkg/server/server.go:56 | With ":" inside a component, `("a:b","c","d")` and `("a","b:c","d")` give the same flat key. |
| `Server.Server.constructor` | pkg/server/server.go:77-86 | A new server has an empty metadata store and has made no calls yet. |
| `Server.Server.GetByRowKey` | pkg/server/server.go:41-44 | Returns exactly the row and the error produced by the Raft agent. |
| `Server.Server.SetKeyVal` | pkg/server/server.go:54-58 | Submits exactly one entry, with key `table:key:col` and value `val`. Returns the Raft agent's Apply error unchanged. When no component holds ":", the key splits back into the three components. |
| `Server.Server.MetadataAdd` | pkg/server/server.go:103 | Logs the add. On success the store gets the member's record under its name. On an error the store is unchanged. |
| `Server.Server.IsLeader` | pkg/server/server.go:109 | Returns the agent's next leadership answer and counts the question. |
| `Server.Server.AddVoter` | pkg/server/server.go:116 | Appends the call to the AddVoter log and returns the agent's answer. |
| `Server.Server.HandleEvent` | pkg/server/server.go:96-136 | The server's new metadata, call logs and leadership count are those of `HandleEventSpec` applied to its old state. |
| `Http.RouteOf` | pkg/server/http.go:33-41 | A path goes to the key handler exactly when it starts with `/key`. It goes to the join handler exactly when it starts with `/join` and not `/key`. Every other path is a bad request. |
| `Http.KeyHandlerOf` | pkg/server/http.go:43-53 | Under `/key`, exactly POST reaches the post handler and exactly GET reaches the get handler. Every other method is refused. |
| `Http.RoutePrefixesExclusive` | pkg/server/http.go:34-37 | No path starts with both `/key` and `/join`, so the order of the two tests does not matter. |
| `Http.RemoveKeyPath` | pkg/server/http.go:55-57 | For a path starting with `/key`, the result is the rest after those 4 characters. The result is the path itself when `/key` does not occur in it. When `/key` occurs, the result is exactly 4 characters shorter. |
| `Http.RemoveKeyPathFirst` | pkg/server/http.go:55-57 | Only the first occurrence of `/key` is removed: the result is the text before it followed by the text after it. |
| `Http.KeyPostEffect` | pkg/server/http.go:59-93 | A body that fails to decode gives 400 and no Apply. Otherwise the Apply is of a "set" event with the stripped path and the decoded value, skipped if the event cannot be marshalled. The status is 500 with the internal-error body on a marshal or Apply error, and 200 with no body otherwise. |
| `Http.KeyGetEffect` | pkg/server/http.go:95-121 | 200 is written first, so the status is always 200. A missing key then writes 404 and the body `{"status": "404 not found"}`. A present key sends its value and the leader address, or the internal-error body if that cannot be marshalled. |
| `Http.JoinEffect` | pkg/server/http.go:123-140 | AddVoter is called once with the peer address as both id and address, even when the address is empty. An empty address writes 400 first and so fixes the status at 400. Otherwise the status is 500 on an AddVoter error and 200 on success. The internal-error body is sent exactly when AddVoter fails. |
| `Http.KeyRequestEffect` | pkg/server/http.go:43-53 | POST has the post handler's effect and GET the get handler's. Any other method gets only a 405 header and reaches no engine call. |
| `Http.ServeEffect` | pkg/server/http.go:33-41 | A `/key` path has `handleRequest`'s effect; otherwise a `/join` path has `handleJoin`'s; any other path gets a lone 400. The client only ever receives 200, 400, 405 or 500. At most one Raft call is made. An Apply happens only for a decodable POST under `/key`, an AddVoter only under `/join`. |
| `Http.GetMissingKeyAnswers200` | pkg/server/http.go:95-103 | A GET for a key the state machine lacks is answered with status 200 and the not-found body. |
| `Http.JoinWithoutPeerStillAddsVoter` | pkg/server/http.go:123-131 | A join without `Peer-Address` still calls `AddVoter("", "")`, and the client receives 400. |
| `Http.StatusNotFoundReply` | pkg/server/http.go:144-148 | Writes the 404 header, then the body `{"status": "404 not found"}`. |
| `Http.StatusInternalErrorReply` | pkg/server/http.go:150-154 | Writes the 500 header, then the body `{"status": "internal server error"}`. |
| `Http.Node.Apply` | pkg/server/http.go:86-87 | Logs the event submitted to Raft and returns the engine's answer for it. |
| `Http.Node.AddVoter` | pkg/server/http.go:130-132 | Logs the `AddVoter(id, addr)` call and returns the engine's answer for it. |
| `Http.HttpServer.ServeHTTP` | pkg/server/http.go:33-41 | The writer calls, Apply calls and AddVoter calls made are exactly those of `ServeEffect`. |
| `Http.HttpServer.HandleRequest` | pkg/server/http.go:43-53 | The calls made are exactly those of `KeyRequestEffect`. |
| `Http.HttpServer.HandleKeyPost` | pkg/server/http.go:59-93 | The calls made are exactly those of `KeyPostEffect`. No AddVoter call is made. |
| `Http.HttpServer.HandleKeyGet` | pkg/server/http.go:95-121 | The writer calls are exactly those of `KeyGetEffect`. The node is not touched. |
| `Http.HttpServer.HandleJoin` | pkg/server/http.go:123-140 | The calls made are exactly those of `JoinEffect`. No Apply call is made. |

## Left out

- `Serve` (pkg/server/server.go:141-221) is left out. It is goroutines, context cancellation and OS signal handling. Its two cleanup goroutines both wait on the same cancellation, so it imposes no Serf-before-Raft shutdown order, and none is modelled.
- `New` (pkg/server/server.go:60-92) is left out: directory creation and agent construction are I/O and wiring. The constructor only models the initial empty state.
- `httpServer.Start` (pkg/server/http.go:22-31) is left out: it is a network listener and middleware.
- `GetByRowByQuery` (pkg/server/server.go:46-50) is left out: it only panics.
- Logging is left out: it has no observable effect on results.
- The internals of the metadata store, the Serf agent, the Raft agent and the state machine are oracles. This includes how a member's tags are parsed: the model takes the record to be the member's name and advertised Raft address.
- `Server.JoinIgnoresAddFailures`: holds only under the assumption that a failed `metadata.Add` still returns the member's record. If the store returns a nil record with its error, server.go:116 would call `Id()` on nil for a leader, and the batch would stop there. The store's code is not part of this model, so neither outcome can be settled here. `JoinRecordsEveryMember` holds whatever `Add` returns, as long as the loop runs.
- `Server.Server.MetadataAdd`: on an error, the model still returns the member's record and leaves the store unchanged. The store's code is not part of this model. If it returned a nil record, the following `AddVoter(nodedata.Id(), ...)` could fail in ways the model does not capture.
- JSON decoding and encoding are abstract. A decode is an `Option<int>` and a marshal failure is an oracle answer. Byte formats, and decoding a missing `value` as 0, are not modelled. Go's `Value int` is 64 bits wide, so a JSON number outside the int64 range fails to decode and gets 400. The model's decoded value is an unbounded `int` and does not capture that bound.
- The `Nodes` field of the GET response is never set by the code; the model sends it as "".
- `Http.Node.Apply`: the 5-second timeout, and the `prevIndex` and timeout arguments (both 0) of `AddVoter`, are not modelled; only the error each call returns is.
- The HTTP oracles answer per argument rather than per call. Each request makes at most one engine call, so within one request nothing is lost. `Env` is a constant of the node, though. The same event gets the same `Apply` answer on every request, and `stateValue` never reflects an `Apply`. Across requests, the model therefore does not capture a POST becoming visible to a later GET.
- Concurrency between the Serf handler, leadership changes and HTTP requests is not modelled. The per-member leadership oracle stands in for leadership changing during a batch.
