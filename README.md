# Scoped-channel IPC for Electron windows, modelled in Dafny

This project models the core of a typed IPC layer between Electron's main
process and its renderer windows:

- **The window controller** (`WindowIPC`, module `WindowIpc`). It keeps a
  per-window table `channels` from scoped channel name
  (`windowId + ":" + name`) to handler record. `handle` refuses a duplicate
  scoped name. Otherwise it adds the record and installs a wrapper on the
  transport; the wrapper turns a handler's result or exception into a
  `{success, data, error}` envelope. A "response handler" gets one response
  promise at registration, on a derived `…Response` channel. It completes
  with the payload that arrives there, not with its own result.
  `removeHandler` and `removeAllHandlers` tear the entries down.
- **The decorator registry** (module `Decorators`). `mainHandler` either
  buffers a handler in the class's pending list or writes it straight into
  the process-wide `windowRegistry` and the class handler map, depending on
  whether the class already has a window name. `windowName` resets the
  registry entry and flushes the pending list. `responseHandler` marks
  method names. The decorators become explicit method calls on a
  `HandlerClass` object (the metadata stored on the class constructor) and a
  `Registry` object, called in TypeScript's decorator order.
- **The renderer client** (`IPCClient`, module `RendererIpc`). It sends on
  the same scoped name the host computes and unwraps the envelope.

The Electron transport `ipcMain` is the class `WindowIpc.IpcMain`. It records
the wrapper installed under each channel name and a log of every `handle`,
`handleOnce` and `removeHandler` call. Asynchronous events are sequential
method calls:

- a request arriving is `Dispatch`;
- the renderer's response payload arriving is `DeliverResponse`;
- a suspended request continuing is `Resume`.

The handler code itself is not visible to the model, so its outcome (a value
returned or something thrown) is an input. The renderer's transport
(`ipcRenderer.invoke`) is a function parameter of `Invoke`. Module `Shared`
holds the payload values, the envelope and the handler identities. Module
`Scenarios` replays the repository's own test cases as concrete runs and
proves the expectations about channel names, registrations, removals and
envelopes; the two expectations it does not cover are listed under
"Left out".

Four behaviours of the code are easy to miss, and the model keeps them:

- The response promise is created once, when `handle` registers the
  channel, and the wrapper captures it: every later request on that channel
  awaits the same promise (src/main/WindowIPC.ts:82-86, 95). It is not
  created per request. Each call of `handleResponse` makes a new promise
  (src/main/WindowIPC.ts:58), so promises have an identity of their own
  (`promises`, indexed by creation), and a wrapper names the one it
  captured. Removing a handler does not touch that promise, so a request
  already waiting on it still completes.
- The transport holds at most one handler per channel. While a one-shot
  registration on a response channel has not fired, a second `handleOnce`
  there throws inside the promise executor, which rejects the new promise;
  a request on the new wrapper then fails with the transport's message.
- The close handler is registered through `handle`, which scopes the name
  `window:<id>:close` once, to `<id>:window:<id>:close`; the id appears twice
  because the close name already contains it. The handler is wrapped in an
  envelope like any other handler (src/main/WindowIPC.ts:21-23).
- A second `mainHandler` under the same name silently overwrites the first
  (src/main/decorators.ts:92-103); nothing reports a duplicate.
- `removeAllHandlers` removes every channel in the table and then the
  unscoped `window:<id>:close`, which is not the name the close handler was
  registered under (src/main/WindowIPC.ts:123-131).

## Model

| member | source | states |
|---|---|---|
| Decorators.HandlerClass.HasWindowName | src/main/decorators.ts:89 | JavaScript truthiness of the window name: false when it is absent, and for a present name true exactly when it is non-empty |
| Decorators.Registry.constructor | src/main/decorators.ts:25 | The process-wide `windowRegistry` starts empty |
| Decorators.WaitFlag | src/main/decorators.ts:87 | `waitForResponse` is undefined exactly when the response set is absent, and true exactly when the property key is in it |
| Decorators.MainHandler | src/main/decorators.ts:84-117 | With a truthy window name, the registry entry and the class handler map get the handler under `name`, overwriting any earlier one, with the flag fixed at decoration time. Otherwise the handler is appended to the pending list and the registry and handler map are unchanged. The descriptor is returned unchanged. |
| Decorators.ResponseHandler | src/main/decorators.ts:66-81 | The property key is added to the response set, which is created if absent; the descriptor is returned unchanged |
| Decorators.WindowName | src/main/decorators.ts:34-64 | Sets the window name and replaces `windowRegistry[name]` with the flush of the pending list into an empty entry. The handler map and response set become their flushed forms; the pending list is left as it was. |
| Decorators.FlushEntriesKeys | src/main/decorators.ts:37-47 | After the flush, the registry entry holds exactly the names of the pending handlers |
| Decorators.FlushEntriesLastWins | src/main/decorators.ts:41-47 | A pending handler with no later namesake is what the registry entry holds under its name, because the list is written in order |
| Decorators.FlushHandlersAgree | src/main/decorators.ts:49-56 | A non-empty flush leaves the handler map defined and equal to its old contents plus exactly the handlers written into the registry entry |
| Decorators.FlushResponsesSpec | src/main/decorators.ts:52-59 | A non-empty flush leaves the response set defined and equal to its old contents plus exactly the pending names whose flag is true. A flag that is false or undefined adds nothing. |
| Decorators.IsResponseHandler | src/main/decorators.ts:119-121 | True exactly when the response set exists and holds the name |
| Decorators.GetClassHandlers | src/main/decorators.ts:123-125 | The class handler map, or an empty map when none was recorded |
| WindowIpc.Scoped | src/main/WindowIPC.ts:47-49 | The scoped name is one character longer than the id and the channel name together (the colon); its layout is `ScopedLayout` |
| WindowIpc.CloseChannel | src/main/WindowIPC.ts:21 | `window:`, then the id, then `:close`, thirteen characters more than the id |
| WindowIpc.ResponseChannel | src/main/WindowIPC.ts:60 | A name scoped by the window whose unscoped part is the handler's own scoped name followed by `Response`, so the id appears twice |
| WindowIpc.DuplicateMessage | src/main/WindowIPC.ts:72 | The fixed forty-character text "Handler already registered for channel: " followed by the unscoped channel name |
| WindowIpc.ErrorMessage | src/main/WindowIPC.ts:109 | An `Error`'s own message; "Unknown error" for anything else thrown |
| WindowIpc.RegistrationOf | src/main/WindowIPC.ts:84-88 | The calls `handle` makes for an accepted name: one `handleOnce` on the response channel when the name is marked, then one `handle` of the scoped name, which is always last |
| WindowIpc.RegistrationsHandle | src/main/WindowIPC.ts:16-19 | Every name accepted along the way leaves a `handle` call of its scoped name in the log |
| WindowIpc.ScopedLayout | src/main/WindowIPC.ts:47-49 | A scoped name is the window id, one colon, then the channel name; its length is their sum plus one |
| WindowIpc.ScopedInjective | src/main/WindowIPC.ts:47-49 | For one window, two channel names scope to the same name exactly when they are equal |
| WindowIpc.ScopedPairInjective | src/main/WindowIPC.ts:47-49 | For colon-free ids, two scoped names are equal exactly when both the ids and the names are equal, so different windows never collide |
| WindowIpc.ColonInIdMakesScopingAmbiguous | src/main/WindowIPC.ts:47-49 | Without the colon-free restriction, two different (id, name) pairs give the same scoped name |
| WindowIpc.Settle | src/main/WindowIPC.ts:88-112 | The wrapper never lets an exception escape. A throw gives a failure envelope carrying the error's message, or "Unknown error" for a non-`Error`. A plain handler's result becomes the data. A response handler is suspended, naming its promise, exactly while that promise is pending; it is answered with the payload once the promise is fulfilled, and fails with the rejection's message once it is rejected. The envelope succeeds exactly when the handler returned and its promise, if any, was not rejected. Every envelope is well formed. |
| WindowIpc.RefusedMessage | src/main/WindowIPC.ts:59 | The transport's refusal of a second `handleOnce`: "Attempted to register a second handler for '", the channel, then "'" |
| WindowIpc.ResponseHandlerResultDiscarded | src/main/WindowIPC.ts:90-100 | A response handler's completion does not depend on its own result |
| WindowIpc.CloseChannelNotScoped | src/main/WindowIPC.ts:130 | For a colon-free id other than `window`, the close name removed at the end of `removeAllHandlers` is never a name scoped by that id |
| WindowIpc.ResponseChannelInjective | src/main/WindowIPC.ts:60 | For one window, two channel names get the same response channel exactly when they are equal |
| WindowIpc.ScopedCloseDiffers | src/main/WindowIPC.ts:21 | The name the close handler is registered under differs from the close name itself |
| WindowIpc.CloseStep | src/main/WindowIPC.ts:21-23 | The close registration is refused, with the duplicate message, exactly when a class handler already holds the close name. Otherwise it adds one record and one wrapper. The constructor's invariants then cover the class handlers plus the close name. |
| WindowIpc.RemovalCalls | src/main/WindowIPC.ts:124-130 | Removing each channel in some enumeration order, then the close name, gives a log of exactly one removal per channel that covers every channel, ending with the close name |
| WindowIpc.RemoveAllSteps | src/main/WindowIPC.ts:123-131 | The transport calls of `removeAllHandlers` extend the old log by exactly one removal per channel plus one final removal |
| WindowIpc.IpcMain.RemoveEach | src/main/WindowIPC.ts:124-126 | The `for…of` loop: every channel of the table is removed from the transport, one call each, in some order, and nothing else is removed |
| WindowIpc.WindowIPC.Init | src/main/WindowIPC.ts:7-13 | The id is the given one, with an empty table, no promises and no one-shot registrations |
| WindowIpc.WindowIPC.InstallClassHandlers | src/main/WindowIPC.ts:16-19 | The install loop puts each class handler, bound, under its scoped name and nothing else. A pending promise and a one-shot registration are made for exactly the marked names, one each. Marked names get wrappers awaiting their own promise; the transport keeps every other registration. The log grows by the registration calls of every class handler, each exactly once, one name after another in some order of the map. |
| WindowIpc.WindowIPC.InstallOne | src/main/WindowIPC.ts:18 | One pass of the loop: the handler's `handle` call extends every fact the loop keeps to that name, and its calls follow those of the earlier names |
| WindowIpc.WindowIPC.Create | src/main/WindowIPC.ts:11-23 | After construction the table holds exactly one scoped record per class handler plus the scoped close record. Construction fails with the duplicate message exactly when a class handler already took the close name. One-shot registrations exist for exactly the response channels of the marked names, each with its own pending promise, which is the one that name's wrapper awaits. Only the table's names are added to the transport. The log holds the class handlers' registration calls, one name at a time, followed by the close handler's when it is accepted. |
| WindowIpc.WindowIPC.PreloadCloseUnhandled | src/main/WindowIPC.ts:21 | For a colon-free id other than `window`, the unscoped close name that the renderer invokes is not in the table |
| WindowIpc.WindowIPC.CreateWithUnscopedClose | src/main/WindowIPC.ts:11-23 | The corrected constructor: the same class records, with the close handler installed on the transport under the unscoped close name, outside the table. The log holds the class handlers' registration calls and then one `handle` of the unscoped close name. |
| WindowIpc.WindowIPC.HandleUnscopedClose | src/main/WindowIPC.ts:21 | The corrected close registration: one `handle` call on the transport under the unscoped close name; the table, the promises and the one-shot registrations stay as they were |
| WindowIpc.WindowIPC.GetWindowId | src/main/WindowIPC.ts:133-135 | The id fixed at construction |
| WindowIpc.WindowIPC.HandleResponse | src/main/WindowIPC.ts:55-66 | Every call makes a new promise, the next in creation order, and exactly one `handleOnce` call on `windowId:windowId:nameResponse`. If no one-shot registration on that channel is live, the promise is pending and the registration now resolves it. Otherwise the transport refuses: the new promise is rejected with the refusal message and the live registration stays. Earlier promises are untouched. |
| WindowIpc.WindowIPC.Handle | src/main/WindowIPC.ts:68-113 | A scoped name already in the table gives "Handler already registered for channel: <name>" and changes nothing. Otherwise it adds exactly one record, keyed by and named with the scoped name, and makes exactly one transport `handle` call under it, whose wrapper awaits the promise just made for a marked name and nothing otherwise. A marked name first gets its new promise and a `handleOnce` call, as `handleResponse` states. The log grows by exactly these calls. |
| WindowIpc.WindowIPC.Dispatch | src/main/WindowIPC.ts:88-112 | A request on a channel of the table is settled by that channel's wrapper and the state of the promise it captured. A name outside the table gives `NoHandler`. A suspended request names a pending promise. |
| WindowIpc.WindowIPC.DeliverResponse | src/main/WindowIPC.ts:58-64 | A payload is taken exactly when a one-shot registration is live on that channel. It fulfils the pending promise that registration was made for, with the payload, and removes the registration. Every other promise and registration is unchanged; a channel without a registration changes nothing. |
| WindowIpc.WindowIPC.Resume | src/main/WindowIPC.ts:93-100 | A request suspended on a promise that exists stays suspended while it is pending, is answered with the payload once it is fulfilled, and fails with the rejection's message once it is rejected; whatever the handler returned, this is what the wrapper's `Settle` gives. The channel need not still be in the table. |
| WindowIpc.WindowIPC.RemoveHandler | src/main/WindowIPC.ts:115-121 | For a present name: one transport removal, and only that key is deleted. For an absent name: nothing changes. Promises and one-shot registrations are untouched in both cases. |
| WindowIpc.WindowIPC.RemoveAllHandlers | src/main/WindowIPC.ts:123-131 | One transport removal per channel, then one of the unscoped close name; the table ends empty and the promises and one-shot registrations are untouched |
| RendererIpc.ErrorOrDefault | src/renderer/ipc.ts:24 | `error \|\| 'Unknown error'`: the error when it is present and non-empty, "Unknown error" otherwise |
| RendererIpc.Unwrap | src/renderer/ipc.ts:23-27 | A success envelope resolves with its data unchanged. A failure envelope throws with the error or "Unknown error". A transport rejection propagates. |
| RendererIpc.IPCClient.ScopedChannelName | src/renderer/ipc.ts:30-32 | The same string the host computes for this window id and name |
| RendererIpc.IPCClient.GetWindowName | src/renderer/ipc.ts:34-36 | The name given to the constructor |
| RendererIpc.IPCClient.Invoke | src/renderer/ipc.ts:14-28 | Exactly one transport call, on the host's scoped name for the method, carrying the data unchanged, with the reply unwrapped |
| RendererIpc.WrapThenUnwrap | src/renderer/ipc.ts:23-27 | For every outcome and promise state, the host wrapper followed by the client's unwrapping yields the handler's value (or the response payload) or its error message, and "Unknown error" for an empty message or a non-`Error` |
| RendererIpc.ValueRoundTrip | src/renderer/ipc.ts:27 | A plain handler's result `v` comes back to the client as `v` |
| RendererIpc.ErrorRoundTrip | src/renderer/ipc.ts:23-25 | An `Error` with a non-empty message `m` surfaces at the client with message `m`; an empty message or a non-`Error` surfaces as "Unknown error" |
| RendererIpc.ResponseRoundTrip | src/main/WindowIPC.ts:93-99 | For a response handler, the client receives the payload the renderer sent, whatever the handler returned |
| RendererIpc.RefusedRoundTrip | src/main/WindowIPC.ts:58-110 | For a response handler whose promise the transport's refusal rejected, the client's call fails with the refusal message, whatever the handler returned |
| RendererIpc.ClientReachesItsWindow | src/renderer/ipc.ts:18-21 | For colon-free ids, a client's channel for a method equals a host window's channel for a name exactly when the ids and the names agree |
| Scenarios.DeclareTestWindow | src/main/__tests__/WindowIPC.test.ts:7-13 | `@mainHandler('test')` and then `@windowName('exampleWindow')` leave `windowRegistry` and the class map holding exactly `test` |
| Scenarios.ConstructTestWindow | src/main/__tests__/WindowIPC.test.ts:133-141 | Constructing the test window registers `<id>:test`, as a plain wrapper around the bound handler, and the scoped close name, and nothing else. The transport saw exactly two `handle` calls, `<id>:test` first, and nothing under the unscoped close name. |
| Scenarios.DuplicateRejected | src/main/__tests__/WindowIPC.test.ts:87-96 | A second `handle('test-channel')` fails with "Handler already registered for channel: test-channel" and leaves the table and transport as they were |
| Scenarios.RemoveOne | src/main/__tests__/WindowIPC.test.ts:99-110 | `removeHandler('test-channel')` makes exactly one transport removal, of `<id>:test-channel` |
| Scenarios.RemoveAllTwice | src/main/__tests__/WindowIPC.test.ts:112-123 | With four channels, `removeAllHandlers` makes five removals; a second call makes only the removal of `window:<id>:close` |
| Scenarios.ConfirmRegistered | src/main/WindowIPC.ts:82-88 | A window whose class marks `confirm` as a response handler holds one pending promise, the one the `confirm` wrapper awaits, resolved by the one live registration on its response channel |
| Scenarios.ResponseHandlerRun | src/main/WindowIPC.ts:82-100 | A response handler's request is suspended, then answered with the renderer's payload. A second payload is not taken, and a later request gets the first payload again. |
| Scenarios.LaterPromiseSeparate | src/main/WindowIPC.ts:58-95 | After the first payload arrives, a direct `handleResponse('confirm')` makes a new pending promise with a live registration, while a request on the installed wrapper is answered with the first payload at once |
| Scenarios.SuspendedOutlivesRemoval | src/main/WindowIPC.ts:93-131 | A request suspended before `removeHandler('confirm')` or `removeAllHandlers()` still completes with the renderer's payload, after the channel has left the table |
| Scenarios.ReregisteredResponseRefused | src/main/WindowIPC.ts:58-121 | `handle('confirm')` again after `removeHandler('confirm')`, before any payload: the new wrapper's request fails with the transport's refusal message, and the payload fulfils the first promise |
| Scenarios.DecoratorOrder | src/main/decorators.ts:87 | When the method name differs from the channel name, the flush marks the channel name as a response handler but a direct registration does not, although both registry entries are the handler with the flag true |
| Scenarios.ClientRequests | src/main/__tests__/WindowIPC.test.ts:37-86 | The envelopes these tests expect, unwrapped end to end by the client's `invoke`: "test result" is returned and "test error" is thrown. Its close request on the unscoped name finds no channel of the table and no registration on the transport. |
| Scenarios.CorrectedCloseLifecycle | src/preload/preload.ts:50 | With the corrected constructor, the renderer's close name holds the close wrapper and `removeAllHandlers` removes it |

## Left out

- The initial-data handshake (src/main/WindowIPC.ts:30-44): timers, `webContents.send`, `did-finish-load` and the `handleOnce` ack. It is timer- and event-loop-driven and touches no channel of the table.
- Window id generation (`Math.random().toString(36)`): the id is a constructor parameter. Lemmas that need it to be colon-free and not `window` ask for that.
- `closeWindow`, `getWindow` and the `closed` event hook: window lifecycle of the Electron API. The close handler is the identity `CloseWindow`.
- `handler.bind(this)`: modelled as the identity `Bound(h)`; the bound function's behaviour is the handler outcome given to `Dispatch`.
- Electron's `ipcMain` is not part of this model. The model records its calls and takes one rule from it: a `handleOnce` on a channel whose one-shot registration has not fired is refused with the message of `RefusedMessage`. `IpcMain.Handle` does not refuse a second `handle` on a channel; it overwrites.
- One-shot registrations are kept apart from ordinary ones (`responders` beside the transport's `handlers`), so a scoped name that equals some response channel does not collide with it as it would in Electron.
- The runtime's report of a rejected promise that nothing awaits yet (an unhandled rejection) is not modelled; the rejection is kept and reaches the requests that await the promise.
- WindowIpc.WindowIPC.Handle: the record is added to the table after the response promise is made, not before as at src/main/WindowIPC.ts:80-86; nothing observes the table in between, and the final state is the same.
- The promise and async machinery itself. Request and response arrival are sequential method calls, and a request that never gets its response simply stays `Suspended`.
- `reflect-metadata` and inheritance of the static metadata through the prototype chain: each decorated class has its own `HandlerClass` object.
- The pending list is never cleared by `windowName`; the model keeps it, as the source does.
- The pending list holds the handler value taken when `mainHandler` runs, not the property descriptor object the source pushes (src/main/decorators.ts:110) and reads only at flush time (src/main/decorators.ts:45, 56). A later decorator that replaces `descriptor.value` in place would change what the flush registers, but not what a direct registration (src/main/decorators.ts:95, 103) stored; the model does not capture this aliasing.
- Payload values are a small JSON-like datatype; numbers are integers rather than IEEE doubles.
- WindowIpc.WindowIPC.Create: the class handlers' registration calls come in some order of the handler map, not in the `Map`'s insertion order, because the model's map has no insertion order. The calls for one name, and the close handler's calls coming last, are stated.
- WindowIpc.WindowIPC.InstallClassHandlers: the same holds for the install loop's order.
- WindowIpc.WindowIPC.Dispatch: it serves the channels of the window's table. A registration made directly on the transport, such as the corrected close registration, is not in the table; its request is settled by `Settle` on its wrapper.
- The test that a window id has five characters (src/main/__tests__/WindowIPC.test.ts:125-131): ids are constructor parameters (see above), and the scenarios use the five-character id `k3j9x`.
- The test that the handler receives the request data (src/main/__tests__/WindowIPC.test.ts:49): handler code is not modelled, its outcome is a parameter. `Invoke` carries the data to the transport unchanged.
- WindowIpc.IpcMain.RemoveEach: the removal order is some enumeration of the table, not the `Map`'s insertion order, for the same reason.
- RendererIpc.Deliver and RendererIpc.Promised are specification helpers used by the round-trip lemmas; they have no contract of their own.
- `src/preload/preload.ts` and `scripts/generate-ipc-types.ts` are not part of this model (preload plumbing over `contextBridge`, and an offline generator over the TypeScript compiler API); only the close channel name used at src/preload/preload.ts:50 enters the finding below.
- `src/shared/types.ts` and `src/main/types.ts` hold only type declarations; `IPCResponse` is the `Envelope` datatype.

## Findings

| source | as written | input that shows it | evidently intended | confidence | as-written member | corrected member |
|---|---|---|---|---|---|---|
| src/main/WindowIPC.ts:21 | The close handler is registered through `handle`, which scopes it to `<id>:window:<id>:close`. The renderer's `closeWindow` (src/preload/preload.ts:50) invokes, and `removeAllHandlers` (src/main/WindowIPC.ts:130) removes, the unscoped `window:<id>:close`. | window id `k3j9x`: the only close registration is `k3j9x:window:k3j9x:close`, so the renderer's close request finds no handler, and the final removal of `removeAllHandlers` names a channel that was never registered | the close handler is registered on the transport under the unscoped `window:<id>:close` | high for the name mismatch; not executed | WindowIpc.WindowIPC.PreloadCloseUnhandled | WindowIpc.WindowIPC.CreateWithUnscopedClose |
