# Nexus websocket hub — a Dafny model

This project models the real-time core of the Nexus chat server (Go): the websocket **hub**
that keeps a map from channel id to the set of connected clients, the per-client bounded
outgoing queue (capacity 256), the register / unregister / broadcast commands of the hub's
`Run` loop and `SwitchChannel`, the best-effort history replay, the inbound frame rules of a
client's `readPump`, the message-type predicates, and the two database read paths that scan
rows newest first and reverse them in place into chronological order.

Layout (one module per Go file or package):

- `wrappers.dfy` — `Option` and `Result` for Go's `(value, error)` returns.
- `models.dfy` — `GeneralChannelID = 1`, the stored `Message` record, `DbError`.
- `messages.dfy` — `WSMessage`, the four type tags, `IsChannelSwitch` and `IsChatMessage`.
- `persistence.dfy` — the value-level parts of persistence.go: channel defaulting, the save call and the replay frames.
- `hub.dfy` — classes `Client` (fields `channelID`, `send`, `closed`) and `Hub` (field `channels`). Each `select` case of `Run` and `SwitchChannel` is one atomic method. The hub invariant `Valid()` says that a client in `channels[k]` has `channelID == k`, so it sits in at most one set. It also says that the client's queue is open and holds at most 256 frames.
- `session.dfy` — `readPump` as a loop that returns the trace of actions it performs, and the client-side `sendRecentMessages`.
- `database.dfy`, `postgres.dfy` — the scan loop, the two-index in-place reversal, and the no-rows mapping of `GetLatestMessageID`.

Collaborators are parameters:

- the store: `fetch(channel, limit)` returns the stored rows or an error;
- JSON: `encode`/`decode` stand for `json.Marshal`/`json.Unmarshal`;
- time: `formatTime` stands for the time formatting, and `clock(i)` is the time at which frame i is stamped;
- save outcomes: `saved(i)` says whether the save made for frame i succeeded.

The SQL query outcome is the `query` argument of the database methods.

The model follows the code as written where it differs from the design description of the system:

- A broadcast goes to every client of every channel, not only to the sender's channel. The code's own comment says that clients filter by channel themselves.
- A chat message is saved twice: once by `readPump` before it broadcasts, and once more by the hub when the broadcast is processed (`Session.HubSavesBroadcastAgain`).
- A `switch_channel` frame only replays history for the channel it names. It does not move the client: `Hub.SwitchChannel` exists but `readPump` never calls it.
- Eviction by a broadcast leaves an emptied channel entry in the map. It is deleted later in two ways. An Unregister that removes a client and leaves the set empty deletes it. A `SwitchChannel` by any client whose `channelID` names it also deletes it, because `SwitchChannel` drops the entry when it is empty after the removal, whether or not the client was in the set.
- A `switch_channel` frame with channel 0 replays channel 0's history. Unlike a chat frame, its channel id is not defaulted.

## Model

| member | source | states |
|---|---|---|
| `Hub.CheckOrigin` | internal/websocket/hub.go:31-35 | Accepts exactly the two local development origins (http and https, port 8080). Every accepted origin ends in `localhost:8080`. A missing Origin header is refused. |
| `Hub.Client.constructor` | internal/websocket/handler.go:35-41 | A new client carries its bound user id and username. It starts in channel 0 (unset) with an empty, open queue. |
| `Hub.Client.Enqueue` | internal/websocket/persistence.go:33-37 | Non-blocking sends stop at the first full queue. Exactly min(frame count, free room) frames are appended, in order. When it stops early, the queue is full. |
| `Hub.Hub.constructor` | internal/websocket/hub.go:40-48 | A new hub has no channels, and the hub invariant holds from the start. |
| `Hub.Hub.MemberOfOneChannel` | internal/websocket/hub.go:13 | Under the hub invariant, two channel sets never share a client. |
| `Hub.Hub.Register` | internal/websocket/hub.go:53-62 | Channel 0 becomes the general channel (1) and any other id is kept. The client joins that channel's set, which is created if absent. No other channel changes and the invariant is preserved. |
| `Hub.Hub.Insert` | internal/websocket/hub.go:59-62 | Adds a non-member to the set of its own channel, creating the set if absent, and keeps the invariant. |
| `Hub.Hub.Unregister` | internal/websocket/hub.go:68-80 | A client found in its channel's set is removed, and its queue goes from open to closed. The entry is deleted exactly when the set becomes empty. Any other client changes nothing and its queue is not closed. Afterwards the client is in no set, so a second call is a no-op. |
| `Hub.Hub.Broadcast` | internal/websocket/hub.go:82-99 | An undecodable payload changes nothing and dispatches no save. Otherwise the save of the decoded message is dispatched. Every client of every channel with room gets the payload appended and stays. Every client whose queue is full is closed and removed. All channel keys stay, including emptied ones. The invariant is preserved. |
| `Hub.Hub.FanOut` | internal/websocket/hub.go:89-97 | Over one channel's set, each client gets the payload appended or is closed and deleted. The set keeps exactly the clients that had room. |
| `Hub.Hub.SwitchChannel` | internal/websocket/hub.go:104-124 | The client ends with `channelID == n` and is in `channels[n]` and in no other set. Its old entry loses it and is dropped exactly when it became empty. `channels[n]` is its old set plus the client. Every other channel is unchanged. |
| `Hub.Hub.Leave` | internal/websocket/hub.go:105-111 | Removes the client from the set of its current channel and drops that entry if it is now empty. Afterwards the client is in no set. |
| `Hub.Hub.SendRecentMessages` | internal/websocket/persistence.go:11-39 | Requests 50 rows for the client's current channel. A failed fetch enqueues nothing. Otherwise it enqueues, in order, the frames of the first min(rows, free room) rows. Only this client's queue changes. |
| `Persistence.DefaultChannel` | internal/websocket/persistence.go:45-49 | The result is never 0. Channel 0 maps to the general channel and every other id is unchanged. |
| `Persistence.SaveCall` | internal/websocket/persistence.go:41-55 | The store receives the message's channel, or the general channel (1) when the message's channel is 0, and the message's user, content and username. |
| `Persistence.ReplayFrame` | internal/websocket/persistence.go:23-30 | A replayed frame is a chat message and not a channel switch. Its content, username, user id and channel id come from the stored row. Its timestamp is the row's formatted creation time. |
| `Persistence.ReplayPayloads` | internal/websocket/persistence.go:22-32 | There is one encoded frame per stored row, in the same order. |
| `Persistence.ReplayPrefix` | internal/websocket/persistence.go:22-37 | The first n replay frames are exactly the frames of the first n stored rows. |
| `Persistence.ReplayKeepsOldest` | internal/websocket/persistence.go:16-37 | Take the history the store returns for rows read newest first and reversed. The first n rows, whose frames `Hub.Hub.SendRecentMessages` enqueues, are in chronological order, and none is newer than a dropped row. The dropped rows are exactly the first ones the query returned, which are the newest. |
| `Persistence.Free` | internal/websocket/handler.go:38 | The free room plus the queued frames equals the capacity 256. A queue at or over capacity has no room. |
| `Session.FrameEffects` | internal/websocket/client.go:41-68 | Empty and unknown frames have no effect. A chat frame with content is saved to the defaulted channel as the bound user. The save is followed by a broadcast if and only if it succeeds. The broadcast frame is the read frame with the bound user id and username, the defaulted channel and the clock's time. A switch frame yields exactly one history request, for the channel it names. |
| `Session.EveryFrameIsActedOn` | internal/websocket/client.go:41-68 | Over a whole read loop: every chat frame with content is saved, every one whose save succeeds is broadcast with the bound identity and its time, and every switch frame requests the history of the channel it names. |
| `Session.ReadPump` | internal/websocket/client.go:19-70 | The trace is the frames' effects in order, then unregister, then connection close. Neither of those two appears earlier. |
| `Session.NoTeardownWhileReading` | internal/websocket/client.go:31-39 | The read loop itself never unregisters or closes. |
| `Session.BroadcastsCarryBoundIdentity` | internal/websocket/client.go:58-61 | Every broadcast is a chat message with content. It carries the client's bound identity and a non-zero channel. |
| `Session.BroadcastFollowsItsSave` | internal/websocket/client.go:48-64 | Every broadcast comes immediately after the save of the same channel, user and content. |
| `Session.FailedSavesBroadcastNothing` | internal/websocket/client.go:53-56 | When every save fails, nothing is broadcast. |
| `Session.HubSavesBroadcastAgain` | internal/websocket/hub.go:82-86 | When the hub decodes a frame that `readPump` broadcast, its save call repeats the save that `readPump` already made, with the same channel, user and content. |
| `Session.SendRecentMessages` | internal/websocket/client.go:72-99 | Requests the latest 50 rows of the channel named in the frame. A failed fetch enqueues nothing. Otherwise it enqueues, in order, the frames of the first min(rows, free room) rows. The client's channel is unchanged. |
| `Messages.ChatAndSwitchExclusive` | internal/websocket/message.go:21-29 | No message is both a chat message and a channel switch. Each predicate holds exactly when the type is its own tag ("message" or "switch_channel"). |
| `Messages.JoinAndLeaveAreNeither` | internal/websocket/message.go:4-29 | Messages typed "join" or "leave" satisfy neither predicate. |
| `Database.Reversed` | pkg/database/database.go:95-98 | Reference reversal: keeps the length. |
| `Database.ReversedAt` | pkg/database/database.go:96-97 | Element k of the reversal is element n-1-k of the input. |
| `Database.ReversedKeepsElements` | pkg/database/database.go:96-97 | Reversal keeps the multiset of elements. |
| `Database.ReversedShort` | pkg/database/database.go:96 | Lists of length 0 or 1 are unchanged. |
| `Database.ReversedTwice` | pkg/database/database.go:95-98 | Reversing twice gives back the input. |
| `Database.NewestFirstReversedIsChronological` | pkg/database/database.go:71-98 | Rows ordered newest first come out oldest first. |
| `Database.ScanAll` | pkg/database/database.go:85-93 | Success keeps every row, in scan order. Failure carries the error of the first row that failed to scan: every row before it scanned. |
| `Database.ScanAllWithoutErrors` | pkg/database/database.go:85-93 | When no row fails to scan, the scan succeeds. |
| `Database.ScanFailurePropagates` | pkg/database/database.go:88-91 | Once a prefix of the rows fails to scan, the whole scan fails with that same error. |
| `Database.ScanRows` | pkg/database/database.go:85-93 | The append loop computes the scan result. |
| `Database.ReverseInPlace` | pkg/database/database.go:95-98 | The two-index swap loop leaves the array equal to the reversal of its old contents. |
| `Database.ScanAndReverse` | pkg/database/database.go:85-100 | A scan error is returned alone. Otherwise the result is the reversal of all scanned rows. |
| `Database.GetRecentMessages` | pkg/database/database.go:70-101 | A query or scan error is returned with no partial list. Otherwise the result is the exact reverse of the rows in scan order, with the same length. |
| `Postgres.GetMessages` | internal/database/postgres.go:230-259 | A query or scan error is returned with no partial list. Otherwise the result is the exact reverse of the rows in scan order. When the rows arrive newest first, as the SQL orders them, the returned list is chronological. |
| `Postgres.GetMessagesKeepsEveryRow` | internal/database/postgres.go:245-251 | When every row scans, the scan keeps all of them, in scan order. |
| `Postgres.GetLatestMessageID` | internal/database/postgres.go:299-311 | "No rows" becomes (0, no error). Any other error passes through with id 0. A row's id passes through. |

## Left out

- Goroutines, the `select` over the hub's unbuffered channels, and the infinite `Run` loop are not modelled. Each command is an atomic method, and the environment may call them in any order. The races this hides are not modelled either: a replay or `SwitchChannel` running beside `Run`.
- The write side of a connection (`writePump`) is left out: its ticker, pings, pongs, write deadlines and frame writes are timer and socket I/O. As a result, no model operation drains a client's queue.
- JSON encoding and decoding, RFC 3339 formatting and `time.Now` are library calls. They are the parameters `encode`, `decode`, `formatTime` and `clock`.
- The SQL text, connection handling, contexts with timeouts and logging are left out. The store is an abstract collaborator: a query outcome, a fetch function, or a per-frame save outcome.
- `Hub.Hub.Register`: requires a client that is open and not yet in any set, which is what the admission handler passes. `Hub.Hub.SwitchChannel` and the replay methods require an open queue, because a send on a closed Go channel panics. This state is reachable in the code: a broadcast that finds c's queue full evicts c and closes `c.send`, but c's read loop keeps running until the write side has drained the buffered frames and closed the connection. A `switch_channel` frame read in that window makes `c.sendRecentMessages` send on the closed queue (internal/websocket/client.go:93-94), and the process panics. The model does not capture that crash.
- `Hub.Hub.Register` and `Hub.Hub.SwitchChannel` each start a history replay in a new goroutine (internal/websocket/hub.go:66 and hub.go:123). In the model that replay is the separate step `Hub.Hub.SendRecentMessages`, and neither method performs it.
- Admission (token check, upgrade), HTTP handlers, services, configuration and migrations are not part of this model. Only the queue capacity 256 and `GeneralChannelID = 1` are taken from them.
- The two Go record types `models.Message` and `core.Message` have identical fields. Both are modelled by one `Message` datatype. Likewise, `handlers.WSMessage` and `websocket.WSMessage` have the same fields and JSON tags, and the `Message` envelope that internal/websocket/persistence.go builds sets the same six fields (its declaration is not part of this model). All three are modelled by one `WSMessage` datatype.
- `Database.GetRecentMessages` and `Postgres.GetMessages` never check `rows.Err()` after the `for rows.Next()` loop (pkg/database/database.go:86-93, internal/database/postgres.go:245-251). If iteration stops early on an error, the code returns the rows read so far, reversed, with no error. In the model, the query's row sequence is the rows delivered before `rows.Next()` stopped. So "no partial list" holds only for query errors and scan errors, not for iteration errors.
