# brl: the interface that keeps a prompt intact under other output

This project is a Dafny model of `BRLInterface` from `src/index.ts` in the `brl` library. The class runs an interactive readline prompt while the rest of the process keeps writing to `process.stdout`, `process.stderr` and `console`. The model covers three parts of it:

- **Lifecycle.** The three `InterfaceState` values are `STARTED`, `PAUSED` and `STOPPED`, and a new interface is `STOPPED`. `start`, `pause`, `resume` and `stop` each check the current state with an `assert` before changing anything. `promptLoop` starts the interface if it is not already started.
- **Binding swap.** `start` saves the property descriptors of the three global slots, then defines a getter on each slot. The getter returns the original object while the interface is `PAUSED` and the wrapped object otherwise. `stop` defines the saved descriptors again.
- **Stream wrapping.** A wrapped stream's `write` does three things in order. It writes the ERASE IN LINE control with parameter 2 (ECMA-48, section 8.3.41), followed by a carriage return. It forwards the call to the real stream. (As written, a callback passed as the third argument is dropped; see Findings.) It then has the line editor redraw the prompt, and returns the real write's result.

Files:

- `objects.dfy` (module `Objects`): `Option`, object identities and callback identities.
- `slots.dfy` (module `Slots`): the three global slots and their descriptors. It holds the three steps `start` and `stop` perform on them: capture, install and restore.
- `lifecycle.dfy` (module `Lifecycle`): a pure specification of the lifecycle. The `Machine` datatype is a snapshot of the state, the slots and the saved descriptors. `Apply` gives the effect of one call and `Run` the effect of a call sequence. The lemmas cover the transition table, the round trip and the toggles.
- `interceptor.dfy` (module `Interceptor`): the events the terminal receives and what one or many wrapped writes produce.
- `interface.dfy` (module `Brl`): the `Interface` class and `CreateInterface`. Three classes stand for the outside world. `Globals` holds the slots, `Terminal` holds the event trace and `ReadLine` holds the listeners. Six scenario methods at the end act as clients.

The class keeps the source's mutable state as fields: `state`, plus `stdoutPD`, `stderrPD` and `consolePD`. The latter three are `Option`s, because they are undefined until the first `start`. Every lifecycle method is proved against `Lifecycle.Apply`: its `ensures` says that the new snapshot is exactly what `Apply` gives for the old one. When the call fails, the method instead returns the assertion's message and changes nothing. The properties of whole call sequences are proved about `Apply` and `Run`.

Two behaviours of the code are kept as they are:

- `start` does not check that the slots exist. It only applies TypeScript's non-null assertion `!` to `getOwnPropertyDescriptor`, and that assertion is not checked at run time. Here the constructor requires the slots to exist (`HasSlots`), and their existence is part of `Valid()`, which every method keeps. It is a precondition, not a modelled failure.
- The objects that a `PAUSED` getter returns are the ones the interface was built with: the constructor's `stdout` and `stderr`, and the `console` current at construction. They are not necessarily the descriptors that `start` saved.

## Model

| member | source | states |
|---|---|---|
| Slots.Capture | src/index.ts:85-87 | `start` saves each slot's current descriptor, one for each of the three fields, and all three end up defined |
| Slots.CasesCoverSlots | src/index.ts:91-95 | `Cases`, the `cases` table of `start`, lists each of the three slots exactly once, each with its own base and wrapped object |
| Slots.Install | src/index.ts:97-110 | defining the getters changes exactly the slots named by the cases; every other slot keeps its descriptor and no slot disappears |
| Slots.InstallCases | src/index.ts:91-110 | the `cases` loop defines a getter over `stdout`, `stderr` and `console`, each with its own base and wrapped object |
| Slots.InstallManages | src/index.ts:91-110 | after the loop, every one of the three slots holds the interface's getter |
| Slots.Restore | src/index.ts:146-148 | `stop` defines the three saved descriptors back on their slots: afterwards all three slots exist and each holds its saved descriptor |
| Slots.RestoreAfterInstall | src/index.ts:146-148 | defining the saved descriptors over the installed getters gives back the slots exactly as they were before the install |
| Lifecycle.Apply | src/index.ts:81-151 | transition table: `start` succeeds only from STOPPED, `pause` only from STARTED, `resume` only from PAUSED, `stop` from STARTED or PAUSED. Each success reaches its target state and keeps the invariant. Each other call fails with its assertion's message. `pause` and `resume` leave the slots and the saved descriptors as they were |
| Lifecycle.Run | src/index.ts:81-151 | a call sequence that completes keeps the invariant: while not stopped, the descriptors are saved and all three getters are installed. A sequence that fails fails with the message of one of its calls |
| Lifecycle.TogglesChangeOnlyState | src/index.ts:115-135 | any completed run of `pause` and `resume` changes nothing but the state: the installed slots and the saved descriptors stay as they were |
| Lifecycle.TogglesLegalIff | src/index.ts:120-135 | from STARTED or PAUSED, a run of `pause` and `resume` completes if and only if the calls alternate, beginning with the one the current state allows; it then never reaches STOPPED |
| Lifecycle.ApplyTracks | src/index.ts:81-151 | a single call keeps this relation to the slots before the first `start`: stopped means the original slots, otherwise the originals are saved and the getters installed over them |
| Lifecycle.RunTracks | src/index.ts:81-151 | every completed call sequence keeps that same relation to the slots before the first `start` |
| Lifecycle.LifecycleRoundTrip | src/index.ts:85-148 | any completed call sequence from STOPPED that ends STOPPED leaves the three slots exactly as they were, including across restarts; while not stopped, the saved descriptors are the originals |
| Lifecycle.StartTogglesStop | src/index.ts:81-151 | `start; (pause or resume)*; stop` completes if and only if the toggles alternate, beginning with `pause`. It then ends STOPPED with the slots restored, and `start` is legal again |
| Interceptor.WriteAll | src/index.ts:43-48 | n writes through a wrapped stream produce exactly 3n events |
| Interceptor.WriteAllFrames | src/index.ts:43-48 | for any sequence of writes, write k produces the k-th group of three events: one line clear, the call's arguments unchanged in their places on the real stream, then one redraw; payloads keep their order |
| Interceptor.ForwardAsWrittenLosesCallback | src/index.ts:43-45 | the source's two-parameter `write` passes the chunk and the second argument on in their places and drops the third; it forwards the call unchanged if and only if the caller passes no third argument |
| Interceptor.CallbackLostAsThirdArgument | src/index.ts:43-45 | `write("x", "utf8", cb)` through the wrapper as written reaches the real stream as `write("x", "utf8")`, and `write("x", undefined, cb)` as `write("x")`: `cb` is lost either way |
| Brl.Interface.constructor | src/index.ts:17-41 | the interface's `console` is one that reading `global.console` can give at construction (`CanRead`). A new interface is STOPPED and satisfies the invariant. Each wrapped stream is `WrapWritable` of its real stream, an object delegating to it, and the wrapped console writes to the two wrapped streams. The interface owns a fresh line editor with no listeners |
| Brl.Interface.WrappedWrite | src/index.ts:40-51 | a wrapped write appends the clear sequence `ESC [ 2 K CR`, then the caller's arguments unchanged in their places, then one redraw. It returns what the real write returned |
| Brl.Interface.WriteTo | src/index.ts:41-48 | writing to a wrapped stream takes the wrapped path on its real stream; writing to any other stream appends just that one write. A console built over two streams (`ConsoleOver`), such as the wrapped console, has no `write` and is not a target |
| Brl.Interface.OnLine | src/index.ts:57-59 | a line callback is appended after the existing listeners, never replacing them |
| Brl.Interface.Prompt | src/index.ts:61-63 | the line editor shows the prompt once |
| Brl.Interface.Get | src/index.ts:98-108 | while installed, reading a slot through the getter (`Lifecycle.Resolve`) gives its base object when PAUSED and its wrapped object when STARTED, decided by the state at the time of the read |
| Brl.Interface.Activate | src/index.ts:85-110 | the saved descriptors are the slots' old descriptors, and the slots are the old ones with the three getters installed |
| Brl.Interface.Start | src/index.ts:81-113 | succeeds exactly from STOPPED and ends STARTED with the snapshot `Apply` gives. Otherwise it fails with "interface already started" and changes nothing |
| Brl.Interface.Pause | src/index.ts:120-125 | succeeds exactly from STARTED and ends PAUSED; it changes only `state` |
| Brl.Interface.Resume | src/index.ts:130-135 | succeeds exactly from PAUSED and ends STARTED; it changes only `state` |
| Brl.Interface.Stop | src/index.ts:141-151 | succeeds exactly from STARTED or PAUSED, redefines the saved descriptors and ends STOPPED. From STOPPED it fails with "interface already stopped" and changes no slot |
| Brl.Interface.PromptLoop | src/index.ts:65-71 | appends the callback, if given, and then a re-prompt listener. From STOPPED it starts the interface; from STARTED it does not call `start`; either way it then prompts and ends STARTED. From PAUSED `start`'s assertion fails after the listeners are added, and nothing else changes |
| Brl.CreateInterface | src/index.ts:155-164 | builds an interface over the given output and `process.stderr`, with `stderr` and `console` ones that reading the slots can give at the call, whose wrapped streams are `WrapWritable` of those two and whose wrapped console writes to those wrapped streams, and starts it: the slots' old descriptors are saved and the getters installed. It registers exactly one close listener, which stops the interface |

## Findings

| source | as written | input that shows it | evidently intended | confidence | as-written member | corrected member |
|---|---|---|---|---|---|---|
| src/index.ts:43-45 | the replacement `write` takes two parameters `(buffer, cb)` and calls `writable.write(buffer, cb)`, so a callback passed as the third argument is dropped | `write("x", "utf8", cb)`: `cb` receives `"utf8"`, the real stream gets `write("x", "utf8")`, and the caller's callback is never passed on; `write("x", undefined, cb)` loses `cb` the same way | forward every argument of Node's `write(chunk, encoding, callback)` | high, not executed | Interceptor.ForwardAsWrittenLosesCallback | Brl.Interface.WrappedWrite |

## Left out

- Node's `readline`: `createInterface`, the completer and input handling are not modelled. `_refreshLine` appears only as a `Refreshed` event, `prompt` only as a `Prompted` event, and `on('line')` / `on('close')` only as appended listener lists. Dispatch of the 'line' and 'close' events is not modelled.
- `setPrompt` (src/index.ts:53-55): it only forwards the prompt text to `readline`, whose prompt text is not part of this model.
- Real streams: backpressure, asynchronous flushing and when the callback runs are not visible in the source. The result of the real `write` is the opaque parameter `accepted`. The result of the clear write is discarded, as in the source. A real `write` that throws at once (for example on a chunk that is not a string or buffer) is not modelled: in the source the clear has then already been written and the redraw never runs, while `WrappedWrite` always appends `Refreshed`.
- `console.Console` construction (src/index.ts:36-37): the wrapped console is only an identity (`ConsoleOver`). How `console.log` formats its arguments and writes them is not modelled.
- JavaScript property mechanics: `Object.defineProperty` is a map update and `Object.create` a delegating identity (`Delegate`). Property attributes (configurable, enumerable) and the `TypeError` thrown for a non-configurable slot are not modelled. Neither is code outside the interface redefining a slot while the getter is installed.
- Identity of wrapper objects: two interfaces wrapping the same stream get equal `Delegate` identities in the model, where JavaScript would create distinct objects. The model describes one interface at a time, and each installed getter reads that interface's state.
- Structure of `start`: the source has no separate function for what the model calls `Activate`. It is the body of `start` after the assertion, split out so that each proof stays small.
- WrappedWrite, WriteTo, WriteAllFrames: each forwards all three arguments of a write unchanged, which is the corrected behaviour (see Findings). So a three-argument write to a wrapped stream keeps its callback here, and each frame of `WriteAllFrames` holds the unchanged call, while the source drops the callback passed as the third argument. The source's forwarding is modelled only by `Interceptor.ForwardAsWritten` and `Interceptor.AsWrittenEvents`.
- constructor, CreateInterface (`Brl.Interface.constructor`, `Brl.CreateInterface`): the values the source reads from the globals, `console` at construction (src/index.ts:23) and `process.stderr` in `createInterface` (src/index.ts:160), are caller-supplied parameters. They are tied to the slots only by `CanRead`: a data property gives its value, another interface's getter its base or wrapped object, and a getter of other code (`Accessor`) any object, since that code is not part of this model.
- Default arguments: the constructor's `stdout` and `stderr` default to `process.stdout` and `process.stderr` (src/index.ts:26-27), and `createInterface`'s `output` is optional, defaulting to `process.stdout` (src/index.ts:157, 160). The model has no implicit process objects, so callers always pass these values.
- CreateInterface: the source returns `iface.readline` (src/index.ts:163), while the model returns the `Interface` itself, so that its contract can state the interface's state. The line editor is its `readline` field.
- `Lifecycle.Resolve` and `Brl.WrapWritable` have no contract of their own. They are the getter's body (src/index.ts:99-108) and the wrapper's construction (src/index.ts:40-41), and `Brl.Interface.Get` and the constructor state their effect.
- Argument roles of `write`: a call is recorded by the position of its arguments (`Interceptor.WriteCall`). How Node decides whether the second argument is an encoding or the callback is not modelled.
