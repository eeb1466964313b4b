# Remote store replication bookkeeping

A Dafny model of `RemoteStore`, the class that keeps one alt flux store in
step between the Electron main process (the "browser" role) and any number of
renderer processes. Per store and per process it models:

- the constructor: the role-dependent connection set (an empty `Set` in the
  main process, `undefined` elsewhere) and the channels it listens on,
  `ALT:CONNECT:<dispatch>` and `ALT:DISPATCH_REMOTE_ACTION:<dispatch>`;
- the connect handler: the first connect from a web contents adds its id and
  arms a one-shot `destroyed` listener that deletes the id again; repeated
  connects change nothing; the synchronous reply `{}`;
- the dispatch handler: the action named `fnName` is called on the store's
  actions object with `args` in order, and the two lookups the source does not
  check become explicit errors;
- `dispatchToRemote`: in the main process, one message per id of the
  connection set whose web contents still resolves, in insertion order; in a
  renderer, one message to the main process; elsewhere, nothing.

The state is an immutable record (`RemoteStore.State`): role, names, the
connection set, the armed `destroyed` listeners, the channels listened on, an
outbox of sent messages and a log of action calls. The JavaScript `Set` is a
duplicate-free sequence in insertion order (module `JsSet`), because
`Array.from` on it fixes the order of the fan-out. Every handler is a pure
function on this record. `Step` routes one event (an IPC message, a
`destroyed` signal, or a local call of `dispatchToRemote`) to the handler that
the constructor wired to it, and `Run` handles a sequence of events.
`RemoteStore.Valid` is the invariant the constructor establishes:

- the connection set exists exactly in the main process;
- it holds each id at most once;
- exactly its ids have one armed listener each.

Every handler that touches the connection set requires this invariant, and
`Step` and `Run` keep it.

Files:

- `wrappers.dfy`: `Option` and `Result`.
- `js_set.dfy`: the insertion-ordered `Set` with `add` and `delete`.
- `channels.dfy`: the channel names and their parsing.
- `remote_store.dfy`: the state, the constructor, the handlers, `Step` and `Run`.
- `remote_store_properties.dfy`: lemmas that relate several calls.

## Model

| member | source | states |
|---|---|---|
| RemoteStore.Init | src/shared/AltStores/RemoteStore.js:13-33 | The new store keeps the role and the three names it was given. It satisfies the invariant and has no connections. The connection set is empty in the main process and undefined elsewhere. The connect channel is listened on exactly in the main process. The dispatch channel is listened on in the main process and in a renderer. Every channel listened on carries the store's dispatch name. |
| Channels.ParseChannel | src/shared/AltStores/RemoteStore.js:28-31 | A channel name is its fixed prefix followed by the dispatch name. Parsing it gives back the kind and the dispatch name. |
| Channels.ChannelOfParse | src/shared/AltStores/RemoteStore.js:28-31 | Every name that parses is exactly the channel rebuilt from its parts. |
| Channels.ChannelInjective | src/shared/AltStores/RemoteStore.js:28-31 | Two channel names are equal if and only if they have the same kind and dispatch name. So the connect and dispatch channels of a store never collide. |
| JsSet.Add | src/shared/AltStores/RemoteStore.js:43-44 | `add` leaves the members as the old ones plus the new id. The old order is a prefix of the new one. No duplicates are introduced. Each id is counted once. |
| JsSet.Delete | src/shared/AltStores/RemoteStore.js:46 | `delete` leaves the members as the old ones minus the id. Deleting an absent id changes nothing. |
| JsSet.DeleteCounts | src/shared/AltStores/RemoteStore.js:46 | `delete` drops every occurrence of the id and nothing else, as multisets. |
| JsSet.DeleteNoDup | src/shared/AltStores/RemoteStore.js:46 | Deleting keeps a duplicate-free sequence duplicate-free. |
| JsSet.DeleteOnce | src/shared/AltStores/RemoteStore.js:46 | Deleting an id that occurs once removes exactly that entry. All other ids keep their order. |
| JsSet.DeleteAt | src/shared/AltStores/RemoteStore.js:46 | In a duplicate-free sequence, deleting the element at position k gives the sequence without position k. |
| RemoteStore.HandleConnect | src/shared/AltStores/RemoteStore.js:39-51 | In the main process the sender is added and no other id changes. Exactly one listener is armed for the sender. A sender already present leaves the store unchanged. Earlier ids keep their order. The reply `{}` is set exactly in the main process. In any other role nothing changes and no reply is set. |
| RemoteStore.HandleDestroyed | src/shared/AltStores/RemoteStore.js:45-47 | The id is removed and no other id is touched. Its listener is used up. An id that is not connected leaves the store unchanged. The invariant is kept. |
| RemoteStore.HandleDispatch | src/shared/AltStores/RemoteStore.js:59-62 | The call succeeds if and only if the actions object exists and has a function named `fnName`. Otherwise the result is the matching error. On success exactly one call is appended, with the actions name, `fnName` and `args` unchanged. Nothing else in the store changes. |
| RemoteStore.FanOut | src/shared/AltStores/RemoteStore.js:75-80 | The result has at most one message per snapshot entry. Every message goes to a web contents that is in the snapshot and resolves. Every message carries the given channel, `fnName` and `args`. |
| RemoteStore.DispatchToRemote | src/shared/AltStores/RemoteStore.js:73-84 | Only the outbox changes, and only by appending. A renderer appends exactly one message to the main process on the dispatch channel. Any other role sends nothing. In the main process every appended message goes to a connected id that resolves. All appended messages carry the dispatch channel and the given `fnName` and `args`. |
| RemoteStore.SendToEach | src/shared/AltStores/RemoteStore.js:75-80 | The `forEach` loop over the snapshot sends exactly the fan-out sequence, in snapshot order. |
| RemoteStore.DispatchToRemoteLoop | src/shared/AltStores/RemoteStore.js:73-84 | The loop version of `dispatchToRemote` produces exactly the state of the functional definition. |
| RemoteStore.Step | src/shared/AltStores/RemoteStore.js:27-32 | Routing one event to the handler the constructor wired keeps the invariant. It never changes the role or the names. It only appends to the outbox and the call log. |
| RemoteStore.Run | src/shared/AltStores/RemoteStore.js:13-84 | Any sequence of events keeps the invariant. The role and names stay fixed. The outbox and the call log only grow. |
| RemoteStoreProperties.FanOutOncePerId | src/shared/AltStores/RemoteStore.js:75-80 | Over a duplicate-free snapshot, each id that is present and resolves receives exactly one message. Every other id receives none. |
| RemoteStoreProperties.FanOutCount | src/shared/AltStores/RemoteStore.js:75-80 | The number of messages equals the number of distinct snapshot ids that resolve. |
| RemoteStoreProperties.BrowserFanOut | src/shared/AltStores/RemoteStore.js:74-80 | In the main process the number of messages is the number of connected ids that resolve. Each such id gets exactly one message on the dispatch channel with the given `fnName` and `args`. No other id gets one. There are never more messages than entries in the connection set. |
| RemoteStoreProperties.ConnectIdempotent | src/shared/AltStores/RemoteStore.js:43-50 | A second connect from the same sender changes nothing, including the armed listeners, and gives the same reply. |
| RemoteStoreProperties.ConnectAppends | src/shared/AltStores/RemoteStore.js:43-44 | The first connect appends the sender after every id connected before it. |
| RemoteStoreProperties.DestroyedIdempotent | src/shared/AltStores/RemoteStore.js:45-47 | A second `destroyed` signal for the same id changes nothing. |
| RemoteStoreProperties.DestroyedKeepsOrder | src/shared/AltStores/RemoteStore.js:46 | The `destroyed` signal removes exactly the id's entry. All other connected ids keep their insertion order. |
| RemoteStoreProperties.ConnectThenDestroyed | src/shared/AltStores/RemoteStore.js:43-47 | A first connect followed by the `destroyed` signal for the same id restores the store exactly. |
| RemoteStoreProperties.DispatchIgnoresConnections | src/shared/AltStores/RemoteStore.js:59-62 | Whether a dispatch succeeds depends only on the names and the action table. It does not depend on the sender, the role or the connection set. |
| RemoteStoreProperties.StepMembership | src/shared/AltStores/RemoteStore.js:39-48 | In the main process, one event changes whether an id is connected exactly as the connect/destroyed life cycle says. |
| RemoteStoreProperties.RunMembership | src/shared/AltStores/RemoteStore.js:39-48 | In the main process, after any run of events, an id is connected if and only if its last connect was not followed by a `destroyed` signal for it. |
| RemoteStoreProperties.RunAppend | src/shared/AltStores/RemoteStore.js:13-84 | Handling two runs of events one after the other is the same as handling their concatenation. |
| RemoteStoreProperties.FailedDispatchIsolated | src/shared/AltStores/RemoteStore.js:59-62 | A dispatch message that throws, inserted anywhere in a run, leaves the run's final state exactly as if it had never arrived. So every later command is applied as usual. |
| RemoteStoreProperties.StaysDisconnected | src/shared/AltStores/RemoteStore.js:43-47 | An id that is not connected stays disconnected through any events that contain no connect message from it. |
| RemoteStoreProperties.NoSendAfterDestroyed | src/shared/AltStores/RemoteStore.js:45-80 | After the `destroyed` signal for an id, and any later events without a connect from it, the id is absent from the connection set. No broadcast message is addressed to it. |
| RemoteStoreProperties.FanOutReplayedInRenderer | src/shared/AltStores/RemoteStore.js:29-31 | A message fanned out by the main process reaches a renderer store with the same names on a channel it listens on. There it has the effect of the dispatch handler for the same `fnName` and `args`. |
| RemoteStoreProperties.RendererSendHandledByMain | src/shared/AltStores/RemoteStore.js:81-82 | A renderer's message is addressed to the main process. There it reaches the dispatch handler, never the connect handler, and leaves the connection set unchanged. |
| RemoteStoreProperties.DestroyedThenBroadcast | src/shared/AltStores/RemoteStore.js:45-80 | With renderers a and b connected, a's `destroyed` signal leaves exactly one connected id, b. The next broadcast appends exactly one message to the outbox, addressed to b. |

## Left out

- Electron IPC: `ipcMain`, `ipcRenderer`, `webContents.send` and the `evt`
  object are not modelled. Sent messages go to an outbox. Incoming messages are
  `Step` events. `webContents.fromId` is a set of ids that still resolve,
  passed to each `dispatchToRemote` call.
- Listener registration: the constructor's `on` and `once` calls are recorded
  only as the set of channels listened on and the multiset of armed
  `destroyed` listeners. Where a listener is attached (`ipcMain` or
  `ipcRenderer`) is not distinguished, because a process has only one of them.
- The alt library: `this.alt.getActions` is a map from an actions name to the
  names of the functions on its actions object. Calling an action is recorded
  in a call log. What the action then does to the store is not modelled.
- Action arguments are a small structured-clone value type. JavaScript numbers
  are `int`s. Arguments that are not an array, and payloads that structured
  clone cannot copy, are not modelled.
- Serialization of `fnName` and `args` is done by Electron and is not
  modelled.
- The store name from the constructor is kept but plays no part in any
  handler.
- Concurrency: each handler is one atomic step. Interleavings across processes
  are not modelled beyond single deliveries (`Deliver`).
- The renderer UI code (`Provider.js`, `MailboxSearch.js`,
  `MailboxToolbarServices.js`) and the webpack configuration are view glue
  and build settings. They contain no replication logic and are not part of
  this model.

Behaviours of the code that the model keeps as written:

- The connect reply `{}` is set only in the main process. Outside it, the
  handler returns before it sets the reply (line 40).
- An unknown action name makes the call throw (lines 60-61). The model gives
  a `DispatchError`. `Step` then keeps the state unchanged, which is what an
  exception escaping an IPC listener leaves behind.
- A renderer's store also listens on the dispatch channel (line 31). It
  therefore replays every fanned-out action by calling it by name.
