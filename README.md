# whalesong manager — a Dafny model

This project models the command manager of whalesong's JavaScript side (`js/src/manager.js`). Each entry point reaches it through `poll(newExecutions)`.

A batch of executions `{exId, command, params}` comes in, and `poll` screens it item by item:
- an item without a truthy `exId` or `command` becomes a validation error;
- every valid item is dispatched to `executeCommand`;
- finally the result buffer is drained and handed back.

A command is a dotted path through a tree of command managers ("submanagers"). Each segment before a dot names a child manager, and the last segment names a command of that manager. Every manager has three built-in commands: `getSubmanagers`, `removeSubmanager` and `getCommands`. The main manager adds a fourth, `stopMonitor`.

An execution settles in one of four ways, and each leaves its own result envelopes `{exId, type, params}` in the buffer:
- a plain value leaves one FINAL;
- an `Iterator` leaves one PARTIAL per item, then an ERROR (`StopIterator`);
- a thrown error leaves one ERROR;
- a `Monitor` is stored in the monitor table under its exId and subscribed to its event. Each firing of the event leaves a PARTIAL. `stopMonitor` releases it and ends its execution with an ERROR (`StopMonitor`).

## Modules

- **`values.dfy`**
  - **Values:** the JavaScript values the manager handles.
  - **Truthiness:** `x || {}`, `if (!x)`.
  - **Property reads,** including on `undefined`/`null`, which throw.
  - **Property-key coercion:** `String(v)`, which is what `key in obj` and `obj[key]` use.
  - **Splitting a path at its first dot.**
- **`results.dfy`:** the `ResultManager` class. Its buffer is a `seq<Envelope>` field that the setters extend and `GetResults` drains.
- **`streams.dfy`**
  - **Failures** an execution can throw, and the ERROR payload made of each.
  - **Payload mappings** of monitors and iterators.
  - **`Monitor` class:** it subscribes, is released and unsubscribes.
  - **`MonitorManager` class:** a `map<string, Monitor>` field keyed by the property key of the exId.
- **`registry.dfy`**
  - **The `CommandManager` tree:** classes with a ghost `Repr` footprint.
  - **Dispatch:** `Resolve`, the recursive part of `executeCommand`.
  - **The built-ins:** `getSubmanagers`, `removeSubmanager` and `getCommands`. The last is written as the source's nested loops and proved to list exactly the paths `Resolve` finds.
- **`screening.dfy`:** what `poll` makes of each item and of a whole batch (`Screen`, `ScreenBatch`), and how screening composes.
- **`main.dfy`:** the `MainManager` class.
  - **Synchronous part:** `Start` runs the part of `executeCommand` before it settles.
  - **Settlement:** `Finish` runs the part after the command has settled.
  - **`stopMonitor`.**
  - **The loop of `poll`:** `Admit`.
  - **`poll` itself:** `Poll`.

What the handler of a user-defined command does is a parameter, `handlers: (Target, Value) -> Outcome`. Event firings are explicit calls of `Fire`.

## Model

| member | source | states |
|---|---|---|
| Values.OrEmpty | js/src/manager.js:25 | `params \|\| {}` is always truthy. It keeps truthy params and replaces falsy ones by `{}` |
| Values.Property | js/src/manager.js:215-233 | Reading a field fails exactly on `undefined`/`null`. It gives an object's own field, and `undefined` when the field is absent |
| Values.Truthy | js/src/manager.js:215-233 | `!x` and `x \|\| …` test this: `undefined` and `null` are never truthy, arrays and objects always are |
| Values.NatToDecimal | js/src/manager.js:90 | The decimal key of a non-negative numeric exId is a non-empty digit string that reads back as the number |
| Values.IntToDecimal | js/src/manager.js:90 | `String(n)` of an integer, sign included, reads back as `n`, so distinct integers have distinct keys |
| Values.ToPropertyKey | js/src/manager.js:89-99 | The key `obj[exId]` and `exId in obj` use: a string is itself, a number its decimal form, an array its joined elements, an object `[object Object]` |
| Values.JoinItems | js/src/manager.js:179 | An array's key is its elements' keys joined by commas: a one-element array has its element's key, and a longer one's key has a comma |
| Values.NumericKeys | js/src/manager.js:89-99 | Two numeric exIds name the same monitor entry exactly when they are equal, and a number names the same entry as its decimal string |
| Values.SingletonArrayKey | js/src/manager.js:179-183 | A one-element array of a string has that string as its key |
| Values.FirstDot | js/src/manager.js:168 | `indexOf('.')` finds a dot exactly when there is one, and it is the first |
| Values.SplitAtFirstDot | js/src/manager.js:168-171 | `split`/`shift`/`join` yields a manager segment without a dot, exactly when the path has a dot |
| Values.SplitAtFirstDotJoins | js/src/manager.js:169-171 | The segment and the remainder, joined by a dot, give back the path |
| Values.SplitOfJoin | js/src/manager.js:169-171 | Splitting `sm + "." + rest` gives back `sm` and `rest` when `sm` has no dot |
| Values.FirstDotOfJoin | js/src/manager.js:168-171 | The first dot of `sm + "." + rest` is right after `sm` |
| Values.LastSegment | js/src/manager.js:168-171 | Splitting off manager segments until no dot is left gives a dot-free name |
| Values.LastSegmentOfJoin | js/src/manager.js:169-171 | A path `sm + "." + rest` ends in the same segment as `rest` |
| Results.MakeEnvelope | js/src/manager.js:21-27 | The envelope keeps exId and type. Its params are the given ones when truthy, else `{}` |
| Results.ResultManager.constructor | js/src/manager.js:17-19 | A new buffer is empty |
| Results.ResultManager.SetResult | js/src/manager.js:21-27 | Exactly one envelope is appended at the end. Earlier envelopes are unchanged |
| Results.ResultManager.SetFinalResult | js/src/manager.js:29-31 | Appends one FINAL envelope |
| Results.ResultManager.SetPartialResult | js/src/manager.js:33-35 | Appends one PARTIAL envelope |
| Results.ResultManager.SetErrorResult | js/src/manager.js:37-39 | Appends one ERROR envelope |
| Results.ResultManager.GetResults | js/src/manager.js:41-46 | Returns every buffered envelope in append order and leaves the buffer empty |
| Results.DrainTwice | js/src/manager.js:21-46 | After any sequence of `setResult` calls, the first drain returns one envelope per call, in call order. The second returns `[]` |
| Streams.ErrorName | js/src/manager.js:263 | A handler's error keeps its own name. The manager's own failures are named `ManagerNotFound`, `CommandNotFound`, `StopMonitor` and `StopIterator` after their classes, and an engine error is `TypeError` |
| Streams.ErrorMessage | js/src/manager.js:264 | A routing failure's message is the name it did not find. A stream end's message is empty |
| Streams.ErrorParams | js/src/manager.js:265 | Only a handler's own error carries `params`. The manager's failures have none |
| Streams.ErrorPayload | js/src/manager.js:260-272 | An error object gives exactly `{name, message, params}`, with params `err.params` when truthy and `{}` otherwise. Any other thrown value gives exactly `{err}` |
| Streams.StreamEndIndistinguishable | js/src/manager.js:75 | A stream end is an ERROR payload named `StopMonitor`/`StopIterator`. A handler error with such a name gives the same payload |
| Streams.MapEventResult | js/src/manager.js:56-60 | The default mapping is the truthy object `{args}` |
| Streams.EventPayloads | js/src/manager.js:65-71 | A monitor passes on at most one payload per fired event, every one truthy. It passes one for every event exactly when every mapped result is truthy |
| Streams.EventPayloadsSnoc | js/src/manager.js:65-71 | One more event adds its mapped result at the end when that is truthy, and nothing otherwise: every truthy result is passed on, in firing order |
| Streams.EventPayloadsAreMapped | js/src/manager.js:65-71 | Each payload passed on is the mapping of some fired event (the converse and the order are `EventPayloadsSnoc`) |
| Streams.DefaultMappingKeepsEveryEvent | js/src/manager.js:56-71 | With the default mapping, exactly one `{args}` per event, in firing order |
| Streams.IteratorPayloads | js/src/manager.js:111-114 | One truthy `{item}` per pushed item, in order |
| Streams.Monitor.constructor | js/src/manager.js:50-54 | Bound to its source and event, not yet subscribed or released |
| Streams.Monitor.Monit | js/src/manager.js:62-72 | Subscribes the handler, feeding the execution's exId |
| Streams.Monitor.Handle | js/src/manager.js:65-71 | A firing yields a partial result exactly when the mapped result is truthy, and then it is that result |
| Streams.Monitor.StopMonitor | js/src/manager.js:78-80 | Releases the monitor and changes nothing else |
| Streams.Monitor.Unsubscribe | js/src/manager.js:73-75 | Once released, the handler is unsubscribed |
| Streams.MonitorManager.constructor | js/src/manager.js:85-87 | A new table is empty |
| Streams.MonitorManager.AddMonitor | js/src/manager.js:89-91 | Stores the monitor under the exId's key, overwriting any entry there |
| Streams.MonitorManager.RemoveMonitor | js/src/manager.js:93-101 | Returns true exactly when the key was present. It then releases that monitor and deletes only that entry. Otherwise nothing changes |
| Streams.RemoveTwice | js/src/manager.js:89-101 | Removing an exId twice returns true, then false, and the monitor is released. A number and its decimal string are one key |
| Registry.DescriptorValue | js/src/manager.js:122-132 | A descriptor is the one-field object `{type}`, whose value is `'command'` for `@command` and `'monitor'` for `@monitor` |
| Registry.CommandManager.constructor | js/src/manager.js:139-142 | A new manager has no children and exactly the three built-in commands |
| Registry.CommandManager.Register | js/src/manager.js:120-134 | The decorators record one descriptor and leave everything else as it was |
| Registry.CommandManager.AddSubmanager | js/src/manager.js:144-146 | Mounts the child under its name, replacing any child there. The tree stays well formed |
| Registry.CommandManager.RemoveSubmanager | js/src/manager.js:161-164 | Deletes exactly that child. The whole tree stays well formed |
| Registry.CommandManager.GetSubmanagers | js/src/manager.js:148-159 | Keys are exactly the immediate children, each with its class name |
| Registry.CommandManager.Resolve | js/src/manager.js:166-184 | A found command is a command of some manager of the tree. A failure is `ManagerNotFound`/`CommandNotFound` of a dot-free name |
| Registry.CommandManager.ResolveConsumesFirstSegment | js/src/manager.js:168-177 | A dotted path is handed to child `sm` with the rest. An unknown `sm` fails with `ManagerNotFound(sm)` |
| Registry.CommandManager.ResolveDotlessIsLocal | js/src/manager.js:179-183 | A dot-free path never recurses. It gives the local command, or `CommandNotFound(name)` |
| Registry.CommandManager.ResolveLandsOnLastSegment | js/src/manager.js:166-183 | A found command is named by the path's last segment, and a dotted path's command is found below the manager, never on it |
| Registry.CommandManager.LocalListing | js/src/manager.js:188 | The local table holds exactly the paths that resolve without passing through a child |
| Registry.CommandManager.EveryPathThroughChildren | js/src/manager.js:190-195 | Every resolvable path is local or starts with a child's name |
| Registry.CommandManager.GetCommands | js/src/manager.js:186-198 | A key is listed if and only if dispatch resolves it, with the descriptor of the command it resolves to |
| Registry.CommandManager.MergeChild | js/src/manager.js:190-195 | One round of the outer loop extends the listing to the paths through one more child |
| Registry.CommandManager.ListingStep | js/src/manager.js:190-195 | Adding `sm.cm` for each key `cm` of child `sm`'s listing covers exactly the paths through `sm` |
| Registry.CopyPrefixed | js/src/manager.js:192-194 | The inner loop adds `sm + "." + cm` for every `cm`, with its descriptor, and keeps every other entry |
| Screening.Screen | js/src/manager.js:213-233 | A readable item is dispatched exactly when its exId and command are truthy, with its params when truthy and `{}` otherwise. A falsy exId gives `RequiredExecutionId`. A truthy exId with a falsy command gives `RequiredCommandName`. A nullish item cannot be read. The two validation errors carry their fixed messages |
| Screening.ScreenBatch | js/src/manager.js:211-234 | Every item read is a dispatch or an error. Screening stops inside the batch |
| Screening.ScreenBatchChecks | js/src/manager.js:211-234 | Screening stops only at a nullish item. Dispatches have a truthy exId, command and params, and errors are of the two kinds |
| Screening.ScreenBatchSnoc | js/src/manager.js:212-234 | The loop screens items in batch order, each extending the screening so far |
| Screening.ScreenBatchStops | js/src/manager.js:212-215 | Nothing after an unreadable item is screened |
| Screening.ScreenBatchAppend | js/src/manager.js:209-234 | Two batches polled in turn dispatch and reject the same as their concatenation |
| Screening.WellFormedBatchIsDispatched | js/src/manager.js:209-234 | Items that all carry a truthy exId and command are all dispatched, in order, with no error |
| Main.Partials | js/src/manager.js:252 | One PARTIAL envelope per payload, in order |
| Main.MonitorEnd | js/src/manager.js:73-75 | A released monitor's execution ends with one ERROR for its exId whose payload is `{name: 'StopMonitor', message: '', params: {}}` |
| Main.Settle | js/src/manager.js:243-273 | All envelopes carry the exId. Stream items are PARTIAL, and exactly one final non-PARTIAL ends them: FINAL exactly for a plain value, with `result \|\| {}`. An iterator's items are `{item}`s, and its last envelope is the payload of `StopIterator`, or of its producer's failure. A thrown error is one ERROR with its payload. A monitor sets nothing yet |
| Main.ClassesValue | js/src/manager.js:149-158 | The `getSubmanagers` object is `{sm: {class}}` for exactly the children given |
| Main.ListingValue | js/src/manager.js:186-198 | The `getCommands` object holds exactly the listed paths, each with its descriptor object |
| Main.WithoutChildNarrows | js/src/manager.js:161-164 | The tree's tables after `removeSubmanager` deletes one child: only that manager's children change, by losing that name, and no command changes |
| Main.WithoutKeyShrinks | js/src/manager.js:275-280 | The monitor table after `stopMonitor` looks up a key: exactly that key is gone, and every other entry is kept |
| Main.DispatchFrame | js/src/manager.js:161-184 | A dispatch unmounts a child only under the name its own `removeSubmanager` params give, and deletes a monitor entry only under the key its own `stopMonitor` params give |
| Main.FrameStep | js/src/manager.js:212-234 | What the batch so far may have unmounted and deleted grows, item by item, by exactly what the next dispatched item may |
| Main.MainManager.constructor | js/src/manager.js:203-207 | A new main manager has an empty buffer and table, and the built-ins plus `stopMonitor` |
| Main.MainManager.Register | js/src/manager.js:120-134 | A subclass command is added to the main manager's table |
| Main.MainManager.AddSubmanager | js/src/manager.js:144-146 | A child is mounted under the main manager |
| Main.MainManager.Route | js/src/manager.js:166-183 | A string is dispatched through the tree. An array without a `"."` element is looked up locally under its key, and one with such an element has no `split`. Anything else has no `indexOf`. A success lands in the tree |
| Main.MainManager.SingletonArrayRoute | js/src/manager.js:168-183 | `[s]` is dispatched like `s` when `s` has no dot. With a dot, it is `CommandNotFound(s)`, except `["."]`, which has no `split` |
| Main.MainManager.StopKeyOfRoute | js/src/manager.js:275-280 | Whether a dispatch reaches `stopMonitor`, and which key it deletes, depends on its command and params alone, not on the tree: only `"stopMonitor"` or an array keyed so reaches it |
| Main.MainManager.StopKeyOfPath | js/src/manager.js:166-183 | A string path reaches the main manager's `stopMonitor` exactly when it is `"stopMonitor"` itself |
| Main.MainManager.RemovalOfRoute | js/src/manager.js:161-183 | A dispatch reaches a `removeSubmanager` only when its command ends in that name |
| Main.MainManager.ManagerInvokes | js/src/manager.js:148-198 | The result of invoking command `t` of the tree: the built-ins' own results, and the handler's result for anything else |
| Main.MainManager.Settles | js/src/manager.js:166-184 | What a command settles to in a given state: a routing failure is thrown, `stopMonitor` reports whether `monitorId`'s key is in the table, and any other command is as `ManagerInvokes` says |
| Main.MainManager.StopMonitorCommand | js/src/manager.js:275-280 | Returns whether `monitorId`'s key was in the table and removes that entry, releasing its monitor. Undestructurable params throw |
| Main.MainManager.ManagerCommand | js/src/manager.js:148-198 | A built-in gives its own result (`getSubmanagers`, `getCommands`, `removeSubmanager`). Any other command gives its handler's result. Only `removeSubmanager` changes the tree |
| Main.MainManager.Invoke | js/src/manager.js:243-248 | A routing failure is thrown. `stopMonitor` and other commands settle as above. The manager's invariants are kept |
| Main.MainManager.Start | js/src/manager.js:243-248 | The command settles as `Settles` describes in the state before the call. Only the effects of `removeSubmanager`/`stopMonitor` occur. The dispatch is logged |
| Main.MainManager.EndMonitor | js/src/manager.js:73-75 | The released monitor unsubscribes, and its execution's ERROR `StopMonitor` is appended |
| Main.MainManager.StartMonitor | js/src/manager.js:249-253 | A returned monitor is stored under the exId, overwriting, and subscribed with that exId |
| Main.MainManager.SettleOutcome | js/src/manager.js:254-272 | Appends exactly `Settle` of the outcome |
| Main.MainManager.Finish | js/src/manager.js:243-273 | Appends the released monitor's end, then the execution's own settlement. A monitor is stored and subscribed instead |
| Main.MainManager.Fire | js/src/manager.js:65-71 | A firing appends one PARTIAL for the monitor's exId exactly when the mapped result is truthy |
| Main.MainManager.FireAll | js/src/manager.js:65-71 | A run of firings appends exactly the PARTIALs of `EventPayloads` for the run, in firing order |
| Main.MainManager.FinishAll | js/src/manager.js:233 | Started executions settle one after the other, in batch order. The monitor table changes only under the keys of executions that returned a monitor, each now holding a monitor new to the manager; every other entry is unchanged |
| Main.MainManager.AdmitItem | js/src/manager.js:213-233 | One item is screened, and started exactly when it is valid. The started execution's outcome is what its command settles to in the state the item met. An item that is not started changes neither the tree nor the monitor table. A started one changes the tree only by the child its `removeSubmanager` deletes, and the monitor table only by the key its `stopMonitor` looks up; no command is added or lost |
| Main.MainManager.Admit | js/src/manager.js:209-235 | Dispatches exactly `ScreenBatch`'s executions, in order, and returns its errors and where it stopped. No manager gains or loses a command or gains a child. Children are unmounted only under the names the batch's `removeSubmanager` dispatches give (`RemovedNames`), and monitor entries are deleted only under the keys its `stopMonitor` dispatches give (`StopKeys`). Every other entry is kept |
| Main.MainManager.Poll | js/src/manager.js:209-241 | Returns the buffer as it was before the batch, with the validation errors. The batch's executions settle into the emptied buffer afterwards. An unreadable item throws, without draining. No manager gains or loses a command or gains a child. Children go only under names the batch's `removeSubmanager` dispatches give, and a batch with none leaves the tree as it was. A monitor entry goes only under a key the batch's `stopMonitor` dispatches give. A batch with neither stops nor monitors leaves the table as it was. Every monitor in the table afterwards is either one the batch's executions returned, new to the manager and stored under that execution's exId, or an entry that was there before under the same key |

## Left out

- **Asynchronous scheduling.** Promises and microtask order are not modelled. Two choices of the model stand in for them, and both can differ from the source:
  - Each execution's command runs to completion when its item is screened, before the next item. In the source, `getCommands` awaits each child's listing in turn (js/src/manager.js:190-191). A `removeSubmanager` later in the same batch can therefore delete a child before the loop reaches it, and the source's listing then omits that child's paths; the model's listing includes them.
  - Envelopes are set after the buffer has been drained, in batch order. In the source they are set in the order the executions settle, which follows the number of awaits each one passes: a routing failure settles a tick earlier than a command that runs, and each dotted level adds a tick. For `poll([{exId: 1, command: 'getSubmanagers'}, {exId: 2, command: 'nope'}])` the source sets the ERROR of 2 before the FINAL of 1, while the model sets the FINAL of 1 first.
- **`stopMonitor` ordering.** The released monitor's `StopMonitor` ERROR is placed before the `stopMonitor` execution's own FINAL. In the source, `removeMonitor` resolves the monitor's promise (js/src/manager.js:79, 98) before `stopMonitor` returns. The released monitor's `monit` continuation after `await this.promise` (line 73) is therefore queued ahead of the `await this[command](params)` continuation in `CommandManager.executeCommand` (line 183). Each takes one more step to reach `MainManager.executeCommand`: the monitor's execution reaches its `catch` (line 260), and the stopping execution reaches the code after `await super.executeCommand` (line 245). They keep the same order, so the ERROR is set first.
- **Event emitters.** `obj.on`/`obj.off` become the `listening` flag, and each firing is an explicit `Fire` call.
- **The decorators.** `command`/`monitor` copy the prototype's command table. This is modelled as one insertion into `commands`.
- **`constructor.name`** is a `className` field.
- **Handlers of user commands** are the parameter `handlers`. An `Iterator` is given by the items its producer pushes before its own result settles, and its optional failure. A producer can keep the push callback and call it after that (js/src/manager.js:111-115). Those late pushes append PARTIALs after the `StopIterator` ERROR, and they are not modelled. `Main.Settle`'s "exactly one final non-PARTIAL ends them" holds only without them.
- **Names with dots.** Registered command and submanager names are dot-free. A string command never reaches a dotted name, but a one-element array such as `['a.b']` is looked up in the main manager's table under its key `"a.b"` (js/src/manager.js:179, 183). With no dotted names, this gives `CommandNotFound("a.b")`, as `Main.MainManager.SingletonArrayRoute` states. Registering a dotted name, and the `getCommands` flattening that would then depend on JavaScript property order, are not modelled.
- **Non-tree managers.** The manager graph is acyclic. On a cycle, dispatch still ends, because it consumes the path. `getCommands` awaits each child's listing in turn (js/src/manager.js:190-191), and its behaviour on a cycle depends on where the cycle runs:
  - A cycle through first-listed children only recurses synchronously until the engine's stack overflows. That `RangeError` settles as an ERROR.
  - A cycle through a later child passes an `await` before each level. For example, the main manager has children `[a, b]`, and `b` mounts the main manager. The stack never overflows, the listing never settles, no ERROR is set, and the microtask queue never empties.
  - The model covers neither case.
- **Registry.CommandManager.AddSubmanager:** managers are mounted bottom-up. Mounting a child under a manager that already sits below the main manager is not modelled, because only that manager's own footprint would grow. The source allows it at any time.
- **Numbers** are integers. Fractions, `NaN`, infinities and the exponent form `String(n)` takes for `\|n\| >= 1e21` are not modelled, and they would change truthiness and monitor-table keys.
- **User handlers** are pure functions of the target and the params. A handler that changes the manager's state (mounts a manager, stops a monitor, sets results) is not modelled. The claim that only `removeSubmanager` and `stopMonitor` change state during `Start` rests on this.
- **Built-in names** cannot be overridden with `Register`.
- **Prototype keys.** The tables `commands`, `submanagers` and `monitors` are treated as holding only their own keys. In JavaScript, `in` also sees `Object.prototype` names such as `toString` or `constructor`; those cases are not modelled.
- **The shape of `newExecutions`.** It is a falsy value (`None`) or an array; `for..in` over a non-array object or a string is not modelled.
- **`errors.js`** is not part of this model. The payload's `name` is read from `err.name` (js/src/manager.js:263), and the model assumes that each error class's `name` is its class name: `ManagerNotFound`, `CommandNotFound`, `StopMonitor`, `StopIterator`. It also assumes that `ManagerNotFound`/`CommandNotFound` carry the name they could not find as their message, that the stream ends have an empty message, and that none of these error classes has `params`.
- **Engine `TypeError` messages** are approximations of the engine's text.
- **`MainManager.executeCommand`** has no single member. It is `Start` (up to settlement) followed by `Finish` (after settlement).
- **Main.MainManager.Poll:** does not tie the `started` outcomes to `Settles`. That relation is stated per execution by `Main.MainManager.Start` and `Main.MainManager.AdmitItem`, in the state each item met. Over the whole batch it also bounds, rather than states, which children and monitor entries go: the named ones may go, and everything else is kept. Which of them do go depends on the state each item met, and `Main.MainManager.AdmitItem` states it per item.
- **Main.MainManager.Admit:** does not tie the `pending` outcomes to `Settles`, for the same reason: each outcome depends on the state its own item met, which earlier items of the batch may have changed. For the same reason it bounds the removed children and monitor entries by the batch's `RemovedNames`/`StopKeys` rather than stating them.
- **Main.MainManager.Route:** its own contract states only that a success lands in the tree. What it does with strings and one-element arrays is stated by `Registry.CommandManager.ResolveConsumesFirstSegment`, `Registry.CommandManager.ResolveDotlessIsLocal` and `Main.MainManager.SingletonArrayRoute`.
- **Registry.CommandManager.Resolve:** its contract states where a success lands and what a failure is. The full dispatch is stated by `ResolveConsumesFirstSegment` and `ResolveDotlessIsLocal`.
