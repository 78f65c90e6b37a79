# Amaranth playground: execution orchestration in Dafny

This project models the layer of the Amaranth playground that runs a user's
Python program off the page. A host-side `ToolRunner` hands the program to a
sandboxed web worker. The worker runs the program in Pyodide, bridges it to
a WebAssembly build of Yosys, and streams the output and artifacts (RTLIL,
Verilog, waveforms) back as protocol messages. It also covers the allocator
and result encoding of the small Zstandard wrapper compiled to WebAssembly.

Modules, one per file:

- `Wrappers` (`wrappers.dfy`): `Option` and `Result`.
- `Protocol` (`protocol.dfy`): the two message unions and the waveform tree that `showWaveforms` carries. `Wire<M>` is what a receiver finds on the wire: a known message, or an unknown `type` tag; `WorkerWire` says that an unknown tag from the worker is none of the six.
- `Json` (`json.dfy`): `JSON.stringify` of `null` or of a list of strings. The runner compares package lists through it. The model proves that this comparison is equality of lists.
- `Runner` (`runner.dfy`): the runner's state and the pure functions for `initializeWorker`, `preloadPackages` and `runPython`. It has the classes `ToolRunner` and `PythonRun`. `PythonRun` holds the listeners and the promise of one run, and folds the events the worker dispatches.
- `Vcd` (`vcd.dfy`): `vcd_to_d3wave`, the Python function embedded in the worker. It turns a token stream from a VCD dump into the waveform tree. The dictionaries that Python shares between `scope`, `by_id` and the tree are modelled as paths into the one tree. A pure fold specifies the loop, and a method with the loop is proved equal to it.
- `Utf8` (`utf8.dfy`): `TextEncoder.encode`, the UTF-8 encoding of section 3 of RFC 3629, with a decoder that inverts it.
- `Worker` (`worker.dfy`):
  - the `runAmaranthYosys` bridge, with its `stdin`, `stdout` and `stderr` closures;
  - `runInNewContext`;
  - the translation of the program's output into messages;
  - the `onmessage` dispatch, as the class `WorkerScope`.
- `EndToEnd` (`endtoend.dfy`): what a host-side run observes when the worker answers it.
- `ZstdWrapper` (`zstd.dfy`):
  - the bump allocator `malloc`/`calloc`/`free`/`allocate`;
  - the 12-byte `struct result`, stored little-endian;
  - its getters;
  - the error path of `decompress`.

  `size_t` is 32 bits on wasm32, so the model writes out the wrap-around modulo 2^32. The class `Instance` keeps the behaviour as written. The corrected allocator of "## Findings" is a set of pure functions beside it.

Each stateful operation is a class method whose postcondition ties the new state to a pure function of the old state. The properties are proved about those functions.

The engines are not modelled:

- Yosys is the sequence of callbacks it makes (`ReadStdin`, `WriteStdout`, `WriteStderr`) and how it ends (`Finished`, `Exited(code)`, `Crashed(error)`).
- The Pyodide interpreter is a function parameter. It maps a program and its global namespace to what the program printed and showed, in order, and whether it raised.
- `TextDecoder.decode` is a function parameter.

## Model

| member | source | states |
|---|---|---|
| Protocol.HostTag | src/proto.ts:1-13 | each host-to-worker message kind has its own `type` tag (`loadPackages`, `runPython`), in both directions |
| Protocol.WorkerTag | src/proto.ts:15-51 | each of the six worker-to-host kinds has its own tag, and the tag is one of the six |
| Protocol.WorkerTagDeterminesKind | src/proto.ts:45-51 | two messages carry the same tag exactly when they are of the same kind |
| Json.Stringify | src/runner.ts:10 | the text is `null` exactly for `null`, and a list's text is bracketed by `[` and `]` |
| Json.StringifyInjective | src/runner.ts:10 | two package lists (or `null`) have the same JSON text exactly when they are equal |
| Json.EscapedPrefixFree | src/runner.ts:10 | the escaped body of a JSON string literal is read back unambiguously, so the closing quote is found |
| Json.EscapePrefixFree | src/runner.ts:10 | no character escape is a proper prefix of another |
| Runner.PackagesChanged | src/runner.ts:10 | the JSON comparison reports a change exactly when the remembered list is not the requested one (a remembered `null` always differs) |
| Runner.Initialize | src/runner.ts:9-20 | an unchanged list changes nothing. A changed list posts `loadPackages` to the worker and remembers the list. The worker is terminated and replaced by a newer one exactly when a different list was already remembered |
| Runner.StartRun | src/runner.ts:26-67 | a run first initializes the worker for its packages, exactly as `Initialize` does, then posts `runPython` with the code to the worker that initialization returned, as the last message; the terminated workers are those of `Initialize` |
| Runner.InitializeIdempotent | src/runner.ts:9-20 | initializing twice with the same list is the same as initializing once |
| Runner.FirstConfigurationKeepsWorker | src/runner.ts:6-20 | the first configuration keeps the initial worker, terminates nothing and posts exactly one `loadPackages` |
| Runner.SwitchingConfigurationRestarts | src/runner.ts:11-16 | switching to a different list terminates the old worker and posts the new list to a new one |
| Runner.RepeatedConfigurationLoadsOnce | src/runner.ts:22-24 | preloading the same list any number of times posts exactly one `loadPackages` and keeps worker 0 |
| Runner.StableOnceConfigured | src/runner.ts:9-20 | once a list is remembered, initializing with it again any number of times changes nothing |
| Runner.SettleFirstWins | src/runner.ts:52-63 | a promise settles once: after the first resolve or reject, a later one has no effect, and a pending promise takes the first settlement |
| Runner.CallbackFor | src/runner.ts:39-49 | every message except `pythonDone` invokes a callback, and that callback stands for the message itself (`MessageOf`), so it is the matching option callback with the message's payload |
| Runner.CallbackForMessageOf | src/runner.ts:39-48 | each option callback is invoked by exactly the message kind it stands for, with that payload |
| Runner.CallbacksMirrorMessages | src/runner.ts:37-48 | streamed messages invoke one callback each, in order, and the i-th callback is the one the i-th message stands for |
| Runner.OnMessage | src/runner.ts:37-59 | `pythonDone` detaches both listeners; any other message leaves them as they are. Exactly the known non-final messages add one callback, the one `CallbackFor` names. A pending promise stays pending exactly for those, and a settled promise is not changed |
| Runner.OnError | src/runner.ts:60-64 | a worker error detaches both listeners and makes no callback. It rejects a pending promise with that error and leaves a settled one as it is |
| Runner.Receive | src/runner.ts:37-64 | one event only appends to the callbacks made, never unsettles the promise and never re-attaches a listener, and is ignored once both listeners are detached |
| Runner.StreamingInvokesCallbacksInOrder | src/runner.ts:37-48 | a stream of non-final messages invokes the callbacks in message order and leaves the promise pending |
| Runner.SettledStaysSettled | src/runner.ts:52-63 | after the promise settles, no later event changes it |
| Runner.DetachedIgnoresEvents | src/runner.ts:50-62 | with both listeners removed, events change nothing |
| Runner.RunSettlesOnDone | src/runner.ts:49-55 | after streamed output, `pythonDone` detaches both listeners and resolves, or rejects with a `PythonError` carrying the error text. The callbacks made are those of the streamed messages, and anything later is ignored |
| Runner.UnknownMessageRejectsAndKeepsListening | src/runner.ts:56-58 | a tag outside the six rejects with a plain `Error` naming the tag and leaves both listeners attached |
| Runner.WorkerErrorRejectsAndDetaches | src/runner.ts:60-66 | a worker error rejects with that error and detaches both listeners (the error listener is registered `once`) |
| Runner.ToolRunner.constructor | src/runner.ts:5-7 | a new runner has worker 0 and no remembered list |
| Runner.ToolRunner.InitializeWorker | src/runner.ts:9-20 | the state changes as `Initialize` says and the current worker is returned |
| Runner.ToolRunner.PreloadPackages | src/runner.ts:22-24 | the state changes as `Initialize` says |
| Runner.ToolRunner.RunPython | src/runner.ts:26-67 | the state changes as `StartRun` says, and the new run is attached to the returned worker with both listeners and a pending promise |
| Runner.PythonRun.constructor | src/runner.ts:36-66 | a run starts with both listeners attached, a pending promise and no callbacks |
| Runner.PythonRun.Deliver | src/runner.ts:37-64 | delivering an event changes the run as `Receive` says |
| Runner.PythonRun.HandleMessage | src/runner.ts:37-59 | the message listener changes the run as `OnMessage` says |
| Runner.PythonRun.Resolve | src/runner.ts:53 | resolving settles only a pending promise |
| Runner.PythonRun.Reject | src/runner.ts:55-63 | rejecting settles only a pending promise |
| Vcd.FormatInt | src/worker.ts:109-110 | an integer value becomes decimal digits that denote it, zero-padded to at least the signal's width, with no padding beyond it |
| Vcd.DecimalDenotes | src/worker.ts:110 | the decimal text of a number denotes it and has no leading zero |
| Vcd.LeadingZerosDenoteNothing | src/worker.ts:110 | zero padding does not change the value a digit string denotes |
| Vcd.AddChild | src/worker.ts:92-102 | appending a child keeps the root a scope with its name and never removes children |
| Vcd.AddChildAt | src/worker.ts:92-102 | the child is appended to the children of the addressed scope |
| Vcd.NewChildAt | src/worker.ts:92-93 | the new child is found at the path the worker pushes onto its scope stack |
| Vcd.AddChildKeepsAll | src/worker.ts:92-103 | appending a child keeps every scope a scope and every signal unchanged, so the stack and `by_id` stay valid |
| Vcd.AddSample | src/worker.ts:111 | appending a sample keeps the root's kind, name and number of children |
| Vcd.AddSampleAt | src/worker.ts:111 | the `[time, value]` pair is appended to the addressed signal's data |
| Vcd.AddSampleKeepsAll | src/worker.ts:111 | appending a sample changes no other signal and keeps every scope and signal in place |
| Vcd.Initial | src/worker.ts:81-84 | the initial state (root `design`, stack `[root]`, empty `by_id`, time 0) satisfies the invariant |
| Vcd.Open | src/worker.ts:86-93 | opening a scope keeps the invariant: the stack holds scopes, `by_id` holds signals, the root is `design` |
| Vcd.Declare | src/worker.ts:96-103 | declaring a variable keeps the invariant |
| Vcd.Record | src/worker.ts:106-111 | recording a change keeps the invariant |
| Vcd.Step | src/worker.ts:86-111 | each token keeps the invariant when it does not raise |
| Vcd.Run | src/worker.ts:81-111 | the loop keeps the invariant over any token stream |
| Vcd.Convert | src/worker.ts:78-113 | the conversion succeeds exactly when the loop succeeds with at least one child under the root. A loop failure is passed through, an empty root fails with `NoChildren`, and a root with several children is returned as `design` |
| Vcd.Finish | src/worker.ts:113 | the result is the root when it has more than one child, its only child when it has one, and an `IndexError` when it has none |
| Vcd.VcdToD3Wave | src/worker.ts:78-113 | the loop over the tokens computes exactly the conversion that the fold specifies |
| Vcd.FailureSticks | src/worker.ts:85-111 | once a token raises, the conversion fails with that error whatever follows |
| Vcd.ScopeOpensChild | src/worker.ts:86-93 | `$scope` raises `IndexError` on an empty stack. Otherwise it appends a new empty scope to the innermost scope and pushes it |
| Vcd.UpscopeCloses | src/worker.ts:94-95 | `$upscope` raises on an empty stack, and otherwise pops it and changes nothing else |
| Vcd.VarDeclaresSignal | src/worker.ts:96-103 | `$var` raises on an empty stack. Otherwise it appends a signal with the variable's type, width and name and no data, and maps its identifier code to it |
| Vcd.ChangeRecordsSample | src/worker.ts:106-111 | a value change for an undeclared identifier raises `KeyError`. Otherwise it appends `[time, value]` to that signal, with integers zero-padded to its width, and changes nothing else |
| Vcd.ConvertResult | src/worker.ts:113 | the conversion fails exactly when the loop fails or the root has no child. A success is the root (named `design`) or its only child |
| Vcd.RunSetsTime | src/worker.ts:104-105 | a time change sets the current time and changes nothing else |
| Vcd.TwoDigitValues | src/worker.ts:110 | a worked example: values 0 and 1 of a 2-bit signal print as `00` and `01` |
| Vcd.CounterDumpConverts | src/worker.ts:78-113 | a worked example: a dump of one 2-bit `count` signal in scope `top` converts to that scope, holding the signal with samples `[0, "00"]` and `[1, "01"]` |
| Utf8.Encode | src/worker.ts:46 | the encoding has between one and four bytes per character, and is empty exactly when the text is |
| Utf8.EncodeChar | src/worker.ts:46 | a character encodes to one to four bytes, and to one byte exactly when it is ASCII |
| Utf8.EncodeLength | src/worker.ts:46 | the encoding has between one and four bytes per character, and one per character exactly when the text is ASCII |
| Utf8.DecodeEncode | src/worker.ts:46 | decoding the encoding gives the text back |
| Utf8.EncodeInjective | src/worker.ts:46 | different texts have different encodings |
| Utf8.EncodeAppend | src/worker.ts:46 | the encoding of a concatenation is the concatenation of the encodings |
| Worker.ReadChunk | src/worker.ts:51-57 | `stdin` answers `null` exactly when nothing remains. Otherwise it answers the first `length` bytes (or all that remain), and the answer followed by the new remainder is the old buffer |
| Worker.Apply | src/worker.ts:51-59 | one callback keeps the bytes handed out followed by the bytes remaining. Only `stdin` hands out a chunk, and it changes no output buffer. The writes only extend their own buffer and leave the input alone |
| Worker.ReplayReadsInOrder | src/worker.ts:51-57 | over any sequence of calls, the bytes handed out followed by the bytes remaining are the encoded input |
| Worker.ReplayNullWhenExhausted | src/worker.ts:51-57 | a `stdin` call answers `null` exactly when everything before it has handed out the whole input |
| Worker.ExhaustedStaysExhausted | src/worker.ts:51-57 | once `stdin` has answered `null`, every later call answers `null` |
| Worker.ReplayCollectsOutput | src/worker.ts:58-59 | each stream's buffer is the decoded non-null writes to it, in order |
| Worker.YosysResult | src/worker.ts:45-71 | the result is rethrown exactly when Yosys crashed, with that error. A normal return gives code 0 and an exit gives its code |
| Worker.YosysResultMeaning | src/worker.ts:49-67 | a normal return gives `[0, stdout, stderr]`. An exit gives `[code, stdout, stderr]`, with each stream the concatenation of its decoded writes. Any other error is rethrown |
| Worker.YosysBridge.constructor | src/worker.ts:46-48 | the bridge starts with the UTF-8 input and empty output buffers |
| Worker.YosysBridge.ReadStdin | src/worker.ts:51-57 | the closure answers and consumes as `ReadChunk` says |
| Worker.YosysBridge.WriteStdout | src/worker.ts:58 | a non-null write appends its decoded text to the stdout buffer. `null` is ignored |
| Worker.YosysBridge.WriteStderr | src/worker.ts:59 | the same for stderr |
| Worker.PyProxy.Destroy | src/worker.ts:21-23 | destroying a proxy marks it released |
| Worker.RunAmaranthYosys | src/worker.ts:45-71 | the bridge answers as `YosysResult` says, and `args` is destroyed however Yosys ends |
| Worker.RunInNewContext | src/worker.ts:16-25 | the program is evaluated with a fresh, empty namespace as globals and locals, and both the namespace and `dict` are destroyed afterwards |
| Worker.Announce | src/worker.ts:129-135 | each output event posts at most one message |
| Worker.Bridge | src/worker.ts:129-135 | a program's output posts at most one message per event and never a `pythonDone` |
| Worker.DoneInjective | src/worker.ts:151-156 | two outcomes post the same `pythonDone` exactly when they are the same, so the host can tell a completed run from a raise and one error message from another |
| Worker.Replies | src/worker.ts:151-156 | a run's replies end with exactly one `pythonDone`, and no earlier reply is one |
| Worker.AnnouncedStdout | src/worker.ts:38 | a printed line posts one `stdoutWrite` with a newline appended, and other events post none |
| Worker.StdoutStreamedByLine | src/worker.ts:38 | the `stdoutWrite` texts of a run are its printed lines, in order, each followed by a newline |
| Worker.Dispatch | src/worker.ts:142-160 | handling a message only extends the outbox and the loaded list. The number of `pythonDone` messages grows by one exactly for a `runPython`. An unknown tag throws `[Worker] Unexpected message <tag>` |
| Worker.OneDonePerRun | src/worker.ts:147-156 | over any sequence of host messages, exactly one `pythonDone` is posted per `runPython` |
| Worker.WorkerScope.constructor | src/worker.ts:142 | the worker starts with nothing posted or loaded |
| Worker.WorkerScope.Post | src/worker.ts:11-14 | posting appends the message to the outbox |
| Worker.WorkerScope.Forward | src/worker.ts:129-135 | forwarding one event posts what `Announce` says, converting a waveform dump with `VcdToD3Wave` |
| Worker.WorkerScope.RunProgram | src/worker.ts:150-156 | running a program posts exactly its `Replies` |
| Worker.WorkerScope.OnMessage | src/worker.ts:142-160 | the handler changes the state and throws as `Dispatch` says |
| EndToEnd.StdoutCallsMatchMessages | src/runner.ts:39-40 | the `onStdout` callback receives exactly the texts of the `stdoutWrite` messages, in order |
| EndToEnd.RunOutcome | src/runner.ts:37-55 | a run answered by the worker is fulfilled exactly when the program completed, and rejected with a `PythonError` carrying the exception message when it raised. Every forwarded output reached its callback first. Both listeners end detached |
| EndToEnd.PrintedLinesReachStdout | src/worker.ts:38 | each printed line reaches `onStdout` once, in order, with a newline appended |
| ZstdWrapper.MallocStep | src/zstd/zstd-wrapper.c:24-41 | size 0 gives null and changes nothing. Otherwise the block starts at the heap end (`__heap_base` at first), and the heap end advances by the size modulo 2^32. Memory grows with zero pages to the 32-bit page count of the block's end. Old bytes are kept, and a block that does not wrap lies in memory |
| ZstdWrapper.MallocStepAdvances | src/zstd/zstd-wrapper.c:29-40 | without wrap-around, the next block starts where this one ends |
| ZstdWrapper.MallocsGrow | src/zstd/zstd-wrapper.c:24-41 | over any sequence of requests that does not wrap, memory only grows and keeps its old bytes, and the heap end advances by the total requested |
| ZstdWrapper.MallocsContiguous | src/zstd/zstd-wrapper.c:24-41 | without wrap-around, successive blocks are contiguous from the first start, so they are disjoint and all lie in memory |
| ZstdWrapper.CallocStep | src/zstd/zstd-wrapper.c:43-48 | `calloc` allocates the 32-bit product and zeroes that many bytes at the block. The zeroing traps exactly when they leave memory |
| ZstdWrapper.StoreThenLoad | src/zstd/zstd-wrapper.c:59-63 | a 32-bit field stored little-endian is read back, and fields that do not overlap it are unchanged |
| ZstdWrapper.SentinelCodes | src/zstd/zstd-wrapper.c:125-127 | the content-size sentinels become error codes 1001 (unknown) and 1002 (error) |
| ZstdWrapper.DecompressPrologue | src/zstd/zstd-wrapper.c:116-129 | the result block is allocated by `malloc`. It traps exactly when its 12 bytes leave memory, otherwise it is zeroed at the returned pointer and nothing else in memory changes. The prologue reports exactly for a content-size sentinel |
| ZstdWrapper.DecompressPrologueReports | src/zstd/zstd-wrapper.c:120-129 | the result is allocated at the heap end and zeroed. For a sentinel the getters read error 1001 or 1002, size 0 and data null. Otherwise decompression proceeds with that capacity and a zeroed result. A trap happens only if the 12 bytes wrap the address space |
| ZstdWrapper.MallocWrapCounterexample | src/zstd/zstd-wrapper.c:34-39 | a request that wraps the heap end leaves its block outside memory and moves the heap end back, so the next block lands inside an earlier one |
| ZstdWrapper.CheckedMallocStep | src/zstd/zstd-wrapper.c:24-41 | the corrected `malloc` returns null for a block whose end would wrap. Any block it returns lies in memory and is followed by the new heap end |
| ZstdWrapper.CheckedMallocsDisjoint | src/zstd/zstd-wrapper.c:24-41 | with the corrected `malloc`, the blocks of any sequence of requests lie in memory and never overlap |
| ZstdWrapper.CallocOverflowCounterexample | src/zstd/zstd-wrapper.c:45 | `calloc(65536, 65537)` asks `malloc` for only 65536 bytes |
| ZstdWrapper.CheckedCallocStep | src/zstd/zstd-wrapper.c:43-48 | the corrected `calloc` returns null unless the whole product fits. A block it returns holds `count * size` zero bytes in memory |
| ZstdWrapper.ResultError | src/zstd/zstd-wrapper.c:153-157 | the error getter reads the first little-endian 32-bit field of the result |
| ZstdWrapper.ResultSize | src/zstd/zstd-wrapper.c:159-163 | the size getter reads the second 32-bit field |
| ZstdWrapper.ResultData | src/zstd/zstd-wrapper.c:165-169 | the data getter reads the third 32-bit field |
| ZstdWrapper.Instance.constructor | src/zstd/zstd-wrapper.c:19-22 | a new instance has `malloc_initialized` false, a null heap end and zeroed memory |
| ZstdWrapper.Instance.Malloc | src/zstd/zstd-wrapper.c:24-41 | the globals and memory change as `MallocStep` says |
| ZstdWrapper.Instance.Calloc | src/zstd/zstd-wrapper.c:43-48 | the globals and memory change as `CallocStep` says |
| ZstdWrapper.Instance.Free | src/zstd/zstd-wrapper.c:50-53 | `free` changes nothing |
| ZstdWrapper.Instance.Allocate | src/zstd/zstd-wrapper.c:65-69 | `allocate` is `malloc` |
| ZstdWrapper.Instance.GetResultError | src/zstd/zstd-wrapper.c:153-157 | the export returns the little-endian word at the result's first field |
| ZstdWrapper.Instance.GetResultSize | src/zstd/zstd-wrapper.c:159-163 | the export returns the word at the second field |
| ZstdWrapper.Instance.GetResultData | src/zstd/zstd-wrapper.c:165-169 | the export returns the word at the third field |
| ZstdWrapper.Instance.Decompress | src/zstd/zstd-wrapper.c:116-129 | the prologue of `decompress` changes the instance as `DecompressPrologue` says |

## Left out

- The two engines are not modelled: the Pyodide interpreter and Yosys are parameters. A Yosys run is a fixed sequence of callbacks, so the model does not let what `stdin` returns steer what Yosys does next.
- `TextDecoder.decode` is a parameter, since how it replaces malformed input is not part of this code. `TextEncoder` is modelled, but Dafny strings cannot hold the lone UTF-16 surrogates that JavaScript strings can. The same holds for the JSON escapes of `JSON.stringify`.
- Concurrency is left out. `onmessage` is an `async` handler, and the code neither queues nor chains messages, so a `runPython` that arrives while `loadPackages` is still awaiting can start first. The model dispatches one message at a time.
- Two behaviours of the code are modelled as they are: the runner does not forget its package list or replace the worker after a worker error, and a run does not wait for its own `loadPackages` to finish.
- Awaiting `yosysPromise` and `pyodidePromise`, preloading, the package wheels, `loadPackage` itself, and the `console.log` calls are left out. `Dispatch` records the loaded list instead.
- The `show_waveforms` context manager is left out, with its VCD file on disk and its `toJs` conversion. A waveform event carries the token stream of the dump. A dump whose conversion raises posts nothing, because the raise belongs to the interpreter's own outcome, which is a parameter.
- VCD tokenizing (the `vcd` package's `tokenize`) is left out. The model starts from tokens, and kinds the loop ignores are one `OtherToken`.
- Worker.Replies and Worker.RunInNewContext: a program can post messages after its `pythonDone`. A callback scheduled with `setTimeout` (src/worker.ts:43), or a call into the `amaranth_playground` module, which stays registered (src/worker.ts:129), posts later; the host then drops the message, or hands it to the next run. An `Evaluation` puts all events before the outcome, so "ends with `pythonDone`" holds by construction. The interpreter is also a function of the code and the namespace alone, while `sys.modules`, the file system and the loaded packages persist from one run to the next.
- Worker.OneDonePerRun and Worker.Dispatch: the model assumes that `yosysPromise`, `pyodidePromise` and `pyodide.loadPackage` all succeed. In the code the two awaits of a `runPython` (src/worker.ts:149-150) sit outside the `try`, so if either preload rejects, the handler posts no `pythonDone` and the host's `runPython` promise never settles. A rejected `loadPackage` (src/worker.ts:146) loads nothing, while `Dispatch` records the list as loaded. "Exactly one `pythonDone` per `runPython`" holds only under this assumption.
- Worker.Announce: the model states its length bound and its `stdoutWrite` behaviour (`AnnouncedStdout`); the other message kinds are stated only through its body.
- `compress` and the body of `decompress` after its prologue are left out: zstd itself is not part of this model. So is the conversion of the 64-bit capacity to `size_t` at line 131.
- The wrapper's JavaScript loader is left out.
- ZstdWrapper.MallocStep: `memory.grow` is assumed to succeed. A failed grow (`-1`) is not modelled, and neither is a request past 65536 pages.
- ZstdWrapper.Instance: memory is a value, so aliasing between a pointer held by JavaScript and the instance's memory is not modelled.

## Findings

| source | as written | input that shows it | evidently intended | confidence | as-written member | corrected member |
|---|---|---|---|---|---|---|
| src/zstd/zstd-wrapper.c:34-39 | `heap_end + size` is computed in 32-bit `size_t` and wraps | `__heap_base` 0x10000 with 2 pages: `malloc(16)` returns 0x10000. `malloc(0xFFFFFFFF)` then returns 0x10010, adds no page and moves the heap end back to 0x1000F. The next `malloc(16)` returns 0x1000F, inside the first block | return null when the block would pass the top of the address space | not executed | ZstdWrapper.MallocWrapCounterexample | ZstdWrapper.CheckedMallocStep |
| src/zstd/zstd-wrapper.c:45-46 | `count * size` is multiplied in 32 bits without an overflow check | `calloc(65536, 65537)` allocates and zeroes 65536 bytes | return null when the product overflows, as the C library's `calloc` must | not executed | ZstdWrapper.CallocOverflowCounterexample | ZstdWrapper.CheckedCallocStep |
