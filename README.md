# binary-ws: framed endpoint and connection registry, modelled in Dafny

binary-ws sends named binary messages over a websocket. Each message travels as one
frame: a 4-byte big-endian title length, the title bytes, then the payload. A
`BaseSocket` endpoint does three things:

- It numbers the messages it sends.
- It puts them through a FIFO send queue. An entry is handed to the transport only
  when it is the head, and each entry's `send` closure takes effect once.
- It supports cancellation, backpressure (`bufferedAmount`) and a close handler that
  cancels what is still queued.

A `Server` builds its listening configuration from its constructor arguments. It
keeps a registry of connected sockets keyed by socket id.

The project has four modules:

- `Wrappers`: `Option` and `Result`.
- `Framing`: the wire codec, as pure functions and lemmas. Titles are the bytes of
  their UTF-8 form.
- `Endpoint`: the class `BaseSocket` and the process-wide id counter (`IdCounter`).
  It also holds the send queue as a value (`seq<Entry>`), with the functions and
  lemmas that specify it.
- `Registry`: config building (`BuildConfig`) and the class `Server`.

Asynchrony is modelled as separate steps:

- Handing a frame to the transport appends a `Write` to the socket's `writes` log.
- The end of a transport write is `CompleteWrite(ok)`. It deletes the head and
  settles its handle.
- Dispatching the next head is a separate `Advance()` step. It runs after the
  completion, as the source's promise chain does. `pendingAdvances` counts the
  advance steps still to run. In the gap between the two steps, a new `send` can
  dispatch by itself. The once-only flag then turns the later advance into a no-op.
- Promises are replaced by the `settled` log. It records, in order, each handle
  that resolved or rejected.

`BaseSocket.Valid()` is the invariant every operation keeps:

- The queue is in id order.
- At most one entry is dispatched, and it is the head.
- No frame over the limit is ever queued.
- Every id handed out is either still queued or settled, never both. No handle
  settles twice.
- Frames reach the transport in id order, each at most once.
- A queue whose head is not dispatched always has an advance step pending, so the
  queue never stalls.
- An id whose handle was rejected before its frame reached the transport (a
  cancelled entry, or a send refused before queueing) is recorded in the ghost set
  `dropped`. No write ever carries such an id.

Behaviour of the code worth noting:

- The message id is taken before the frame is built. A send rejected for size or for
  title length still uses up an id.
- The limit is the configured `maxPayload` plus 4. A configured limit of 10 admits a
  frame of up to 14 bytes, because only the title and the payload are counted against
  the configured value.
- Decoding fails only when the buffer is shorter than 4 bytes. A declared title
  length longer than the rest of the buffer is cut to the bytes that are there. The
  payload is then empty.
- The close handler calls `cancel` on every remaining key. This has no effect on a
  dispatched head, which is left to finish normally.

## Model

| member | source | states |
|---|---|---|
| `Framing.U32BE` | bin/BaseSocket/classes/BaseSocket.js:52-53 | the title length is written as exactly 4 bytes |
| `Framing.ReadU32BE` | bin/BaseSocket/classes/BaseSocket.js:105 | the length read from the first 4 bytes is an unsigned 32-bit value |
| `Framing.ReadWrittenLength` | bin/BaseSocket/classes/BaseSocket.js:52-53 | reading back a written length gives that length |
| `Framing.WriteReadLength` | bin/BaseSocket/classes/BaseSocket.js:105 | writing a length that was read gives back the 4 bytes it came from |
| `Framing.Encode` | bin/BaseSocket/classes/BaseSocket.js:51-54 | encoding fails exactly when the title length does not fit in 32 bits; otherwise the frame is 4 + title + payload bytes long |
| `Framing.Decode` | bin/BaseSocket/classes/BaseSocket.js:102-113 | decoding fails exactly when the buffer is shorter than 4 bytes; otherwise title ++ payload is everything after the prefix, and the title is as long as declared, cut to what is available |
| `Framing.DecodeEncode` | bin/BaseSocket/classes/BaseSocket.js:104-108 | framing round trip: decoding an encoded message gives back its title and payload |
| `Framing.EncodeDecode` | bin/BaseSocket/classes/BaseSocket.js:104-108 | a buffer whose declared title length fits is exactly the encoding of what it decodes to |
| `Framing.DecodeClampsTitle` | bin/BaseSocket/classes/BaseSocket.js:107-108 | a declared title length beyond the buffer is not an error: the title is the rest of the buffer and the payload is empty |
| `Endpoint.LimitChargesTitleAndData` | bin/BaseSocket/classes/BaseSocket.js:21 | the limit is off exactly when maxPayload is unset or not positive; otherwise a message passes exactly when title + payload fit in the configured value |
| `Endpoint.ReceiveEvent` | bin/BaseSocket/classes/BaseSocket.js:102-113 | a received buffer yields `error` exactly when it is shorter than 4 bytes, and otherwise `message` with the decoded title and payload |
| `Endpoint.Find` | bin/BaseSocket/classes/BaseSocket.js:93 | the lookup by message id returns a position holding that id, or none when no entry has it |
| `Endpoint.FindIndex` | bin/BaseSocket/classes/BaseSocket.js:93 | with ids in insertion order, looking up an entry's id finds that entry |
| `Endpoint.NormalizeMaxPayload` | bin/BaseSocket/classes/BaseSocket.js:21 | the frame limit is 0 (no limit) exactly when maxPayload is unset or not positive; otherwise it exceeds the 4-byte length prefix |
| `Endpoint.Admits` | bin/BaseSocket/classes/BaseSocket.js:55 | a frame passes the limit exactly when the limit is 0 or the frame is no longer than the limit |
| `Endpoint.QueuedBytes` | bin/BaseSocket/classes/BaseSocket.js:36-42 | the queued byte count is the sum of the entries' frame lengths; no single frame is longer than it |
| `Endpoint.RemoveAtIndex` | bin/BaseSocket/classes/BaseSocket.js:65 | deleting a key keeps the other entries in insertion order |
| `Endpoint.Kept` | bin/BaseSocket/classes/BaseSocket.js:22-25 | the close handler keeps only dispatched entries of the queue, never more entries than there were |
| `Endpoint.Interrupted` | bin/BaseSocket/classes/BaseSocket.js:22-25 | the close handler's rejections all carry ConnectionInterrupted, at most one per entry |
| `Endpoint.UndispatchedIds` | bin/BaseSocket/classes/BaseSocket.js:22-25 | the ids the close handler drops include the id of every undispatched entry, at most one per entry |
| `Endpoint.CancelEffect` | bin/BaseSocket/classes/BaseSocket.js:57-66 | the effect of `cancel` (lines 92-96) through the entry's `send`: each entry is either still queued or newly settled, and the settled handles are only extended |
| `Endpoint.QueuedBytesConcat` | bin/BaseSocket/classes/BaseSocket.js:36-42 | the queued byte count of two queue segments is the sum of their counts |
| `Endpoint.QueuedBytesAppend` | bin/BaseSocket/classes/BaseSocket.js:80 | inserting an entry adds its frame length to the queued bytes |
| `Endpoint.QueuedBytesRemoveAt` | bin/BaseSocket/classes/BaseSocket.js:65-72 | deleting an entry subtracts exactly its frame length |
| `Endpoint.QueuedBytesOfSend` | bin/BaseSocket/classes/BaseSocket.js:51-54 | a queued message counts 4 + title + payload bytes |
| `Endpoint.CancelQueued` | bin/BaseSocket/classes/BaseSocket.js:92-96 | cancelling a queued, undispatched entry rejects its handle and deletes exactly that entry; the queued bytes drop by its size |
| `Endpoint.CancelDispatchedOrUnknown` | bin/BaseSocket/classes/BaseSocket.js:92-96 | cancelling the dispatched entry, or an id that is not queued, changes nothing |
| `Endpoint.KeptNone` | bin/BaseSocket/classes/BaseSocket.js:22-25 | when nothing is dispatched, the close handler leaves the queue empty |
| `Endpoint.CloseKeepsOnlyDispatchedHead` | bin/BaseSocket/classes/BaseSocket.js:22-25 | after the close handler at most the dispatched head remains |
| `Endpoint.InterruptedAbove` | bin/BaseSocket/classes/BaseSocket.js:23-24 | the close handler rejects only ids of queued entries: a bound below every queued id is below every rejected id |
| `Endpoint.InterruptedInReverse` | bin/BaseSocket/classes/BaseSocket.js:23-24 | the close handler rejects with ConnectionInterrupted, last inserted first |
| `Endpoint.InterruptedCoversUndispatched` | bin/BaseSocket/classes/BaseSocket.js:22-25 | every undispatched entry is rejected by the close handler; together with those kept, that accounts for the whole queue |
| `Endpoint.InterruptedSplit` | bin/BaseSocket/classes/BaseSocket.js:23-24 | the close handler's rejections split at any key: the key's own rejection, if it is undispatched, comes after those of the keys behind it |
| `Endpoint.InterruptSettles` | bin/BaseSocket/classes/BaseSocket.js:23-24 | once the handler has also visited a key, the settled handles gain its rejection and the dropped ids gain its id, exactly when it is undispatched |
| `Endpoint.InterruptedIds` | bin/BaseSocket/classes/BaseSocket.js:22-25 | the ids the close handler rejects are exactly the ids of the undispatched entries |
| `Endpoint.CancelStep` | bin/BaseSocket/classes/BaseSocket.js:23-24 | when the handler reaches a key, the keys behind it are gone; cancelling it rejects and deletes it unless it is the dispatched head, which stays |
| `Endpoint.InterruptStep` | bin/BaseSocket/classes/BaseSocket.js:23-24 | one visit of the close handler's loop extends the rejections and the dropped ids by the visited key's own, in reverse insertion order |
| `Endpoint.RemovePreserves` | bin/BaseSocket/classes/BaseSocket.js:65-72 | deleting an entry and settling its handle keeps the endpoint invariant |
| `Endpoint.RemoveKeepsShape` | bin/BaseSocket/classes/BaseSocket.js:65-72 | deletion keeps id order, the single dispatched head and the write order |
| `Endpoint.RemoveKeepsAccounting` | bin/BaseSocket/classes/BaseSocket.js:65-72 | deletion with settlement keeps every id either queued or settled once |
| `Endpoint.DispatchPreserves` | bin/BaseSocket/classes/BaseSocket.js:68 | handing the undispatched head to the transport keeps the invariant; the write log stays in id order |
| `Endpoint.AppendPreserves` | bin/BaseSocket/classes/BaseSocket.js:80-81 | an undispatched entry with the next id behind a non-empty queue keeps the invariant |
| `Endpoint.FirstPreserves` | bin/BaseSocket/classes/BaseSocket.js:80-82 | an entry inserted into an empty queue and dispatched at once keeps the invariant |
| `Endpoint.RejectPreserves` | bin/BaseSocket/classes/BaseSocket.js:49-56 | a send rejected before queueing uses up its id and settles its handle at once, keeping the invariant |
| `Endpoint.CompletePreserves` | bin/BaseSocket/classes/BaseSocket.js:68-73 | deleting the written head at the end of its write and settling its handle keeps the invariant and the never-written ids |
| `Endpoint.DropKeepsUnwritten` | bin/BaseSocket/classes/BaseSocket.js:63-66 | a `send` run with an error on an undispatched entry adds its id to the ids never written |
| `Endpoint.DispatchKeepsUnwritten` | bin/BaseSocket/classes/BaseSocket.js:68 | the head handed to the transport was never dropped |
| `Endpoint.AppendKeepsUnwritten` | bin/BaseSocket/classes/BaseSocket.js:80-81 | a new entry behind the queue keeps the never-written ids |
| `Endpoint.FirstKeepsUnwritten` | bin/BaseSocket/classes/BaseSocket.js:80-82 | a new entry dispatched at once keeps the never-written ids |
| `Endpoint.RejectKeepsUnwritten` | bin/BaseSocket/classes/BaseSocket.js:49-56 | a send refused before queueing adds its id to the ids never written |
| `Endpoint.WrittenSettledOrInFlight` | bin/BaseSocket/classes/BaseSocket.js:57-77 | every id written to the transport has already settled or is the dispatched head still in flight |
| `Endpoint.DroppedSettledNeverWritten` | bin/BaseSocket/classes/BaseSocket.js:57-66 | a handle rejected before dispatch has settled, and its id appears in no write |
| `Endpoint.IdCounter.constructor` | bin/BaseSocket/classes/BaseSocket.js:127 | the process-wide socket id counter starts at 0 |
| `Endpoint.IdCounter.Take` | bin/BaseSocket/classes/BaseSocket.js:18 | each socket takes the counter's value and increments it by 1 |
| `Endpoint.BaseSocket.constructor` | bin/BaseSocket/classes/BaseSocket.js:8-26 | a new socket takes the next socket id, normalises maxPayload, starts message ids at 0 with an empty queue, and satisfies the invariant |
| `Endpoint.BaseSocket.BufferedAmount` | bin/BaseSocket/classes/BaseSocket.js:36-42 | bufferedAmount is the sum of the frame lengths of the entries in the queue |
| `Endpoint.BaseSocket.Fire` | bin/BaseSocket/classes/BaseSocket.js:57-68 | an entry's send takes effect once: with an error it rejects and deletes the entry and records its id as never written; without one it hands the frame to the transport; once it has run it is a no-op |
| `Endpoint.BaseSocket.Send` | bin/BaseSocket/classes/BaseSocket.js:48-86 | send returns the next message id and increments the counter by 1; a title too long or a frame over the limit is rejected, never queued and recorded as never written; otherwise the frame joins the tail and is dispatched at once only into an empty queue |
| `Endpoint.BaseSocket.Reject` | bin/BaseSocket/classes/BaseSocket.js:55-56 | a rejected send consumes its id, rejects its handle and records the id as never written, leaving queue and transport untouched |
| `Endpoint.BaseSocket.Enqueue` | bin/BaseSocket/classes/BaseSocket.js:80-82 | the new entry joins the tail; it is dispatched only when the queue was empty |
| `Endpoint.BaseSocket.Cancel` | bin/BaseSocket/classes/BaseSocket.js:92-96 | cancel has the effect `CancelEffect` gives: only a queued, undispatched entry is rejected, deleted and recorded as never written; the queue is not advanced |
| `Endpoint.BaseSocket.CompleteWrite` | bin/BaseSocket/classes/BaseSocket.js:68-74 | at the end of a transport write the head is deleted and its handle resolves, or rejects when the write failed; an advance step becomes pending |
| `Endpoint.BaseSocket.Advance` | bin/BaseSocket/classes/BaseSocket.js:74-77 | the advance step dispatches the head only if it has not been dispatched already |
| `Endpoint.BaseSocket.Close` | bin/BaseSocket/classes/BaseSocket.js:22-25 | the close handler runs once; it rejects every undispatched entry with ConnectionInterrupted in reverse insertion order, records their ids as never written and leaves only the dispatched head |
| `Endpoint.BaseSocket.InterruptAll` | bin/BaseSocket/classes/BaseSocket.js:23-24 | the handler's loop over the snapshot of the keys, last to first, has the effect `Kept` and `Interrupted` describe and keeps the invariant |
| `Endpoint.BaseSocket.InterruptEntry` | bin/BaseSocket/classes/BaseSocket.js:24 | one `cancel` of the loop, on the last key not yet visited, extends the rejections and dropped ids by that key's own |
| `Endpoint.BaseSocket.ReceiveData` | bin/BaseSocket/classes/BaseSocket.js:102-113 | a received buffer appends exactly one `message` or `error` notification and changes nothing else |
| `Registry.IsConfigFor` | bin/server/Server.js:15-35 | the listening configuration, field by field, for each kind of first argument: the specification `BuildConfig` meets |
| `Registry.BuildConfig` | bin/server/Server.js:15-35 | the defaults, then the branch for the first argument's kind: an http(s) server sets `server`; a string sets host, and the port only if the second argument is a number; an options object overrides the defaults and raises maxPayload to at least 1024; anything else keeps the defaults |
| `Registry.DefaultsStand` | bin/server/Server.js:15-18 | with no argument, a number or another kind, the config is host 0.0.0.0, port 8080, maxPayload 10·1024·1024 |
| `Registry.ObjectFormClamps` | bin/server/Server.js:32-34 | the options-object form never yields a maxPayload below 1024, and keeps a value of 1024 or more |
| `Registry.OtherFormsKeepMaxPayload` | bin/server/Server.js:24-31 | the other forms never change maxPayload; a string without a numeric second argument keeps port 8080 |
| `Registry.Server.constructor` | bin/server/Server.js:9-36 | the server starts with the config for its arguments, an empty client registry, listening |
| `Registry.Server.VerifyClient` | bin/server/Server.js:57-59 | the default admission hook accepts every connection |
| `Registry.Server.Accept` | bin/server/Server.js:39-42 | an accepted connection adds exactly one entry, under the new socket's id, which was not present before, and emits `connection` |
| `Registry.Server.OnClientClose` | bin/server/Server.js:43-45 | a socket's close removes exactly its own id and leaves every other entry unchanged |
| `Registry.Server.Close` | bin/server/Server.js:66-70 | close stops the listener and emits `close`; the registry is unchanged and stays consistent |

## Left out

- Event emitters (`component-emitter`, `events.EventEmitter`, the `on`/`once`/`addListener` overrides): notifications are appended to `events` logs; the once-only registration of the close handler is the `closeHandled` flag.
- `readyState`: it reads the transport's state through and keeps none of its own.
- UTF-8 conversion of titles (`Buffer.from`, `toString`): titles are the bytes of their UTF-8 form.
- The abstract `_sendData` and promise scheduling: a write is the `Write` log entry plus a later `CompleteWrite(ok)`; the transport's error object is reduced to `WriteFailed`; promises are the `settled` log.
- `Endpoint.BaseSocket.Cancel`: JavaScript's default argument (`new Error('发送取消')`) has no counterpart; callers pass `SendCanceled` for it explicitly.
- The socket subclass the server instantiates is not part of this model: `Registry.Server.Accept` takes the socket's configuration as a parameter.
- The `ws` library (`new WS.Server(config)`, forwarding of its `error` and `listening` events, the handshake and its request metadata), and http/https server objects, which are reduced to an identity number.
- `Registry.Server.VerifyClient`: the wrapper installed as `config.verifyClient` passes the hook's result to the handshake callback; the request, origin and secure flag are not inspected by the default hook and are reduced to two parameters.
- `Registry.BuildConfig`: only the options `host`, `port`, `maxPayload` and `server` are modelled; other options that `Object.assign` copies (TLS material, headers, an overriding `verifyClient` or `clientTracking`) and fields present with the value `undefined` are not. A `null` or array first argument takes the options branch in JavaScript and is represented as `Obj` with no options set, which gives the defaults.
- `Registry.Server.Close`: the listener's close callback and its error argument are one step.
- JavaScript numbers: maxPayload, ports and sizes are unbounded integers (no NaN, fractions or 2^53 limit).
- The browser endpoint (`bin/browser/BinaryWS.js`: payload coercion, polling with backoff), type declarations, the TLS options interface and the build configuration.
