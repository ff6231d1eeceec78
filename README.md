# loader-runner in Dafny

This project models two pieces of a small webpack-style loader runner.

- **The loader runner** (`loader-runner/loader-runner.js`). It builds one descriptor per loader path. It walks the loaders front to back, running each optional `pitch` function. It then reads the resource and walks back to front, running each `normal` function. Each loader's output feeds the loader before it. The two walks share one cursor, `loaderContext.loaderIndex`. Every phase function runs through the sync/async adapter `runSyncOrAsync`.
- **Loader-list assembly** (`runner.js:27-59`). It strips the `-!`/`!`/`!!` prefix of a request and splits the rest on "!" into inline loaders and the resource. It sorts the matching rules' `use` lists into pre, post and normal buckets, combines the lists as the prefix dictates, and maps the names through `path.resolve`.

## Layout

| file | module | contents |
|---|---|---|
| `js_strings.dfy` | `JsStrings` | `join`, `split` on one character, `slice` with negative indices, `startsWith`, `endsWith` |
| `loader_values.dfy` | `LoaderValues` | JavaScript values, truthiness, `Buffer.from`, `convertArgs` as a function and as an in-place method on an array |
| `loader_objects.dfy` | `LoaderObjects` | loader descriptors, `createLoaderObject`, the `request`/`remainingRequest`/`currentRequest`/`previousRequest`/`data` getters |
| `loader_engine.dfy` | `LoaderEngine` | the runner as functions over an explicit `Engine` state, with the run invariant |
| `loader_runner.dfy` | `LoaderRunner` | class `Run`: the same state as mutable fields, with methods that step it in place |
| `run_properties.dfy` | `RunProperties` | reference definitions of synchronous pitch and normal chains; what the walks, a whole run and the defects do |
| `run_scenarios.dfy` | `RunScenarios` | concrete runs: two plain loaders, a truthy pitch, no loaders, an asynchronous pitch called twice |
| `request_assembly.dfy` | `RequestAssembly` | runner.js:27-59: prefix strip, split, rule bucketing loop, prefix-driven combination, resolution |

### How the runner is modelled

- **Loader code is opaque.** A phase function maps its argument list to a `Behaviour`:
  - return a value;
  - throw;
  - call `this.callback(err, ...values)` and then return;
  - call `this.async()` and return.
- **Callback closures are tokens.** Each `runSyncOrAsync` call creates one closure, recorded as a token holding its phase and its `isSync` and `isDone` flags. Loader code calling a closure later is the entry point `InvokeCallback(k, err, values)`.
- **The resource read.** `readResource` calling back is the entry point `ResourceRead`. The read's outcome is fixed per run in `Config.read`.
- **Final-callback calls and events.** Every call of the final callback is appended to `finals`. Every pitch call, normal call, read issued and read delivered is appended to `trace`.
- **Two layers.** The functions of `LoaderEngine` follow the JavaScript functions branch for branch. Their contracts keep the run invariant `Inv`:
  - the cursor never exceeds the loader count;
  - every loader below the pitching cursor is marked as pitched;
  - the trace agrees with the flags;
  - each pitch runs at most once, and all pitches run before anything else;
  - each normal function runs at most once, and only after a read was delivered;
  - a read is issued only once every loader is pitched;
  - a finished callback is a synchronous one.

  Each method of `LoaderRunner.Run` performs the same step on the object's fields. It is proved to leave exactly the state, and throw exactly the exception, that the matching function computes.

### Where the code and its comments disagree

The model follows the code. Each place where the code does something other than its own comments, or the usual Node.js error-first callback convention, say is proved as a lemma about the code as written.

| what the comment or convention says | code as written | lemma |
|---|---|---|
| loader-runner/loader-runner.js:162: a pitch that returns a value skips the later loaders and runs the previous loader's normal function | the callback passes the undeclared `args` (loader-runner/loader-runner.js:168). The cursor steps back, a ReferenceError is thrown, nothing is read and no final callback fires | `RunProperties.TruthyPitchThrows`, `RunScenarios.TruthyPitchIsNotAResult` |
| error-first convention: once a callback has been given an error, the operation is over | a normal-phase error is reported without `return` (loader-runner/loader-runner.js:91-94). The walk goes on and the final callback fires twice | `RunProperties.NormalErrorDoesNotStopWalk` |
| error-first convention: a callback's error argument is checked before its result is used | the read's error argument is never looked at (loader-runner/loader-runner.js:105) | `RunProperties.SynchronousRun` (the result does not depend on `cfg.read.err`) |
| loader-runner/loader-runner.js:258: the result is what the leftmost loader's normal function returned | the whole argument list of the last callback is passed as `result` | `RunProperties.SynchronousRun`, `RunScenarios.EmptyLoaderList` |
| loader-runner/loader-runner.js:206: a request is the loader paths joined with the resource | `remainingRequest` and `currentRequest` end with `loaderContext.source`, which the runner never sets | `LoaderObjects.RemainingRequestOmitsResource` |
| loader-runner/loader-runner.js:41-44: calling the callback runs the next loader, and a callback already used throws | only a synchronous callback is ever marked done. An asynchronous one can be called again, which repeats the walk and can read the resource twice | `RunProperties.AsyncCallbackNeverFinishes`, `RunScenarios.AsyncCallbackCalledTwiceReadsTwice` |

A further observation: the cursor can go below -1. A read that arrives after the normal walk has ended steps it back once more and fires the final callback again (`RunProperties.LateReadFiresAgain`); `RunScenarios.AsyncCallbackCalledTwiceReportsTwice` reaches such a state from `runLoaders`.

## Model

| member | source | states |
|---|---|---|
| JsStrings.Split | runner.js:27 | the pieces are non-empty in number and free of the separator, and joining them with it gives back the input |
| JsStrings.SplitJoin | runner.js:27-29 | splitting a join of separator-free pieces gives back exactly those pieces |
| JsStrings.SliceSplits | loader-runner/loader-runner.js:217-238 | for every integer `i`, including negative and out-of-range ones, `slice(0, i)` followed by `slice(i)` is the whole list, and the first part has the length `slice`'s bound rule gives |
| LoaderValues.BufferFrom | loader-runner/loader-runner.js:30 | `Buffer.from` succeeds exactly on strings and Buffers, giving a Buffer with the same text, and throws a TypeError otherwise |
| LoaderValues.ConvertedArgs | loader-runner/loader-runner.js:28-34 | only the first argument changes. Raw and not a Buffer becomes a Buffer, and it throws a TypeError exactly when the value is neither string nor Buffer. Not raw and a Buffer becomes a string. Anything else is untouched |
| LoaderValues.ConvertArgs | loader-runner/loader-runner.js:28-34 | the in-place conversion leaves the array as `ConvertedArgs` says, or throws without writing |
| LoaderValues.ConvertedArgsIdempotent | loader-runner/loader-runner.js:28-34 | a second conversion with the same flag changes nothing |
| LoaderValues.ConvertedArgsRoundTrip | loader-runner/loader-runner.js:29-32 | a string converted for a raw loader and back for a non-raw one is the original string |
| LoaderObjects.CreateLoaderObjects | loader-runner/loader-runner.js:5-21 | one descriptor per path in list order. Each has its path and its module's normal, pitch and raw, starts with both flags false, and has its own scratch object |
| LoaderObjects.Data | loader-runner/loader-runner.js:243-247 | `data` is the scratch object of the loader under the cursor, and a TypeError off the list |
| LoaderObjects.RequestSplitsBack | loader-runner/loader-runner.js:204-212 | with "!"-free names, `request` splits back into every loader path followed by the resource |
| LoaderObjects.CurrentIsPathThenRemaining | loader-runner/loader-runner.js:214-232 | `currentRequest` is the current loader's path, "!", then `remainingRequest` |
| LoaderObjects.RequestSplitsAtCursor | loader-runner/loader-runner.js:204-241 | were `source` the resource, `request` would be `previousRequest` + "!" + `currentRequest` inside the list, and `currentRequest` at 0 |
| LoaderObjects.RemainingRequestOmitsResource | loader-runner/loader-runner.js:214-222 | with no `source`, `remainingRequest` splits into the later loaders' paths and an empty last piece: the resource is missing |
| LoaderObjects.PreviousRequestAtMinusOne | loader-runner/loader-runner.js:234-241 | at cursor -1, `previousRequest` joins every path but the last, because `slice` counts from the end |
| LoaderEngine.ProcessResource | loader-runner/loader-runner.js:104-116 | reaching the end issues one read, records it, and keeps the run invariant |
| LoaderEngine.IteratePitchingLoaders | loader-runner/loader-runner.js:118-180 | the pitching walk keeps the run invariant: pitches run first, each at most once. It only sets flags, extends the logs and adds or finishes closures |
| LoaderEngine.IterateNormalLoaders | loader-runner/loader-runner.js:63-101 | the normal walk keeps the run invariant: each normal runs at most once and only after a read was delivered. It only extends the state |
| LoaderEngine.RunSyncOrAsync | loader-runner/loader-runner.js:36-61 | installs a new closure and runs the phase behaviour, keeping the invariant and extending the state |
| LoaderEngine.MarkDone | loader-runner/loader-runner.js:59 | marking a synchronous closure done keeps the invariant |
| LoaderEngine.Installed | loader-runner/loader-runner.js:42-52 | installing a new closure as `loaderContext.callback` keeps the invariant and only extends the state |
| LoaderEngine.Returned | loader-runner/loader-runner.js:56-60 | advancing with `(null, v)` and then marking the closure done keeps the invariant and only extends the state |
| LoaderEngine.PitchEntered | loader-runner/loader-runner.js:140-157 | marking and applying an unrun pitch keeps the invariant and lowers the count of unset flags |
| LoaderEngine.NormalEntered | loader-runner/loader-runner.js:86-90 | marking and applying an unrun normal function, after a read was delivered, keeps the invariant and lowers the count of unset flags |
| LoaderEngine.ReadArrived | loader-runner/loader-runner.js:105-108 | the read callback's bookkeeping (buffer kept, cursor stepped back, delivery logged) keeps the invariant |
| LoaderEngine.ReadIssuedKeepsInv | loader-runner/loader-runner.js:124-125 | issuing a read once every loader is pitched keeps the invariant |
| LoaderEngine.PhaseCallback | loader-runner/loader-runner.js:158-178 | the pitch and normal continuations keep the invariant and extend the state |
| LoaderEngine.InitialEngine | loader-runner/loader-runner.js:189-202 | the initial state satisfies the invariant: cursor 0, one descriptor per path, nothing run, read or reported |
| LoaderEngine.RunLoaders | loader-runner/loader-runner.js:182-263 | a run keeps the invariant from its initial state |
| LoaderEngine.InvokeCallback | loader-runner/loader-runner.js:42-47 | a finished closure throws and changes nothing; any other keeps the invariant |
| LoaderEngine.ResourceRead | loader-runner/loader-runner.js:105-115 | the read's arrival keeps the invariant and extends the state |
| LoaderEngine.RecordPitchKeepsInv | loader-runner/loader-runner.js:140-141 | marking and running the pitch of a loader whose pitch had not run keeps the invariant |
| LoaderEngine.RecordNormalKeepsInv | loader-runner/loader-runner.js:86-88 | marking and running the normal of a loader whose normal had not run keeps the invariant |
| LoaderEngine.MarkPitchedProgress | loader-runner/loader-runner.js:141 | setting `pitchExecuted` lowers the count of unset flags, which bounds every walk |
| LoaderEngine.MarkNormalProgress | loader-runner/loader-runner.js:87 | setting `normalExecuted` lowers the count of unset flags |
| LoaderRunner.Run.constructor | loader-runner/loader-runner.js:189-202 | the new run object holds the initial state |
| LoaderRunner.Run.ProcessResource | loader-runner/loader-runner.js:104-116 | the in-place step equals `LoaderEngine.ProcessResource` |
| LoaderRunner.Run.IteratePitchingLoaders | loader-runner/loader-runner.js:118-180 | the in-place walk leaves the state and throws what `LoaderEngine.IteratePitchingLoaders` computes |
| LoaderRunner.Run.IterateNormalLoaders | loader-runner/loader-runner.js:63-101 | the in-place walk, converting a fresh argument array in place, equals `LoaderEngine.IterateNormalLoaders` |
| LoaderRunner.Run.RunSyncOrAsync | loader-runner/loader-runner.js:36-61 | the in-place adapter equals `LoaderEngine.RunSyncOrAsync` |
| LoaderRunner.Run.Returned | loader-runner/loader-runner.js:56-60 | the in-place `runCallback(null, result)` followed by `isDone = true` equals `LoaderEngine.Returned` |
| LoaderRunner.Run.PhaseCallback | loader-runner/loader-runner.js:158-178 | the in-place continuations equal `LoaderEngine.PhaseCallback` |
| LoaderRunner.Run.InvokeCallback | loader-runner/loader-runner.js:42-47 | the in-place closure call equals `LoaderEngine.InvokeCallback` |
| LoaderRunner.Run.ResourceRead | loader-runner/loader-runner.js:105-115 | the in-place read callback equals `LoaderEngine.ResourceRead` |
| LoaderRunner.RunLoaders | loader-runner/loader-runner.js:182-263 | a fresh run object whose state and exception are those of `LoaderEngine.RunLoaders` |
| RunProperties.ReturnAdvancesOnce | loader-runner/loader-runner.js:54-60 | a phase function returning synchronously advances the run exactly once, with `(null, value)`; only its own closure differs afterwards |
| RunProperties.CallbackThenReturnAdvancesTwice | loader-runner/loader-runner.js:42-60 | a function that calls `this.callback` and then returns advances twice: with the callback's arguments, then with `(null, value)` |
| RunProperties.SkipNormal | loader-runner/loader-runner.js:76-84 | the normal walk steps over a loader whose normal already ran |
| RunProperties.EnterNormal | loader-runner/loader-runner.js:86-90 | an unrun normal is marked, its arguments converted, and it is applied through the adapter |
| RunProperties.NormalReturnStep | loader-runner/loader-runner.js:86-100 | a normal function returning `v` synchronously leaves the walk as if it restarted one loader lower with `[v]`, differing at most in callback closures |
| RunProperties.NormalCallbackResumes | loader-runner/loader-runner.js:90-100 | a normal callback without error resumes the walk with the returned values |
| RunProperties.SkipPitch | loader-runner/loader-runner.js:131-138 | the pitching walk steps over a loader whose pitch already ran |
| RunProperties.EnterPitch | loader-runner/loader-runner.js:140-157 | an unrun pitch is marked. Without a pitch function the walk moves on without a call; otherwise the pitch is applied to `[remainingRequest, previousRequest, data]`, the third being what the `data` getter returns |
| RunProperties.PitchTruthyStep | loader-runner/loader-runner.js:163-170 | a pitch returning a truthy value ends the walk as the reference chain says: cursor one step back and a ReferenceError |
| RunProperties.PitchFalsyStep | loader-runner/loader-runner.js:171-177 | a pitch returning a falsy value leaves the walk as if it restarted at the next loader, with only that pitch logged |
| RunProperties.PitchChainPassesOn | loader-runner/loader-runner.js:143-177 | a loader whose pitch is absent or returns a falsy value passes the outcome of the later loaders through, its events in front |
| RunProperties.PitchCallbackResumes | loader-runner/loader-runner.js:162-177 | a truthy pitch result steps the cursor back and throws a ReferenceError; otherwise the pitching walk resumes |
| RunProperties.NormalWalkMatchesChain | loader-runner/loader-runner.js:63-101 | with synchronous loaders, the normal walk runs indices strictly downwards, each once, passes each loader's whole return list to the one before, and reports the last list once. It ends at -1; a throw stops it without a report |
| RunProperties.PitchWalkMatchesChain | loader-runner/loader-runner.js:118-180 | with synchronous pitches, the pitching walk runs pitches upwards, each once. It issues one read exactly when no pitch returned a truthy value, leaving normal flags untouched. Otherwise it throws a ReferenceError with the cursor one step back and no read |
| RunProperties.PitchlessStep | loader-runner/loader-runner.js:143-149 | a loader without a pitch is marked and skipped without a call |
| RunProperties.ReadStartsNormalWalk | loader-runner/loader-runner.js:105-115 | after a full pitching walk the read's arrival starts the normal walk at the last loader with `[resourceBuffer]`; with synchronous normals it runs them all downwards and reports their result once, with the buffer, leaving the cursor at -1 |
| RunProperties.SynchronousRun | loader-runner/loader-runner.js:256-261 | a synchronous run issues exactly one read, then runs the normals from last to first. It reports once, without error, the first loader's whole return list and the buffer, whatever the read error |
| RunProperties.SynchronousPitching | loader-runner/loader-runner.js:118-180 | a run with synchronous falsy pitches issues exactly one read, reports nothing, leaves the cursor past the last loader and no normal function run |
| RunProperties.TruthyPitchThrows | loader-runner/loader-runner.js:163-170 | a truthy pitch result makes `runLoaders` throw a ReferenceError with no read and no report, instead of short-circuiting |
| RunProperties.NormalErrorDoesNotStopWalk | loader-runner/loader-runner.js:91-94 | a normal-phase error is reported and the walk continues, so the final callback fires a second time with a result |
| RunProperties.PitchErrorStopsWalk | loader-runner/loader-runner.js:159-161 | a pitch error is reported once and the walk stops: no event, no cursor move, no read |
| RunProperties.SyncCallbackFinishes | loader-runner/loader-runner.js:56-60 | after a synchronous return the closure is done, and calling it again throws |
| RunProperties.AsyncCallbackNeverFinishes | loader-runner/loader-runner.js:49-52 | a closure that went asynchronous is never done: every later call runs its continuation again |
| RunProperties.LateReadFiresAgain | loader-runner/loader-runner.js:105-115 | a read arriving after the normal walk ended moves the cursor below -1 and fires the final callback again |
| RunScenarios.NormalFunctionsRunRightToLeft | loader-runner/loader-runner.js:63-101 | for loaders [a, b] on "src": b runs first on the string "src", a runs on b's output, and the result is `[a's output]` |
| RunScenarios.TwoPlainChains | loader-runner/loader-runner.js:28-101 | for loaders [a, b] no pitch runs, and the normal chain turns the Buffer "src" into the string "src" and then into "a:b:src" |
| RunScenarios.PitchlessRun | loader-runner/loader-runner.js:256-261 | a run whose loaders have no pitch reads once and reports the normal chain's result once, with no pitch in the log |
| RunScenarios.TruthyPitchIsNotAResult | loader-runner/loader-runner.js:163-170 | when a's pitch returns "X", the run throws a ReferenceError at cursor -1, never reads and never reports "X" |
| RunScenarios.EmptyLoaderList | loader-runner/loader-runner.js:70-72 | with no loaders the result is the one-element list holding the read buffer, unconverted |
| RunScenarios.AsyncCallbackCalledTwiceReadsTwice | loader-runner/loader-runner.js:42-52 | an asynchronous pitch callback called twice issues two reads |
| RunScenarios.AsyncCallbackCalledTwiceReportsTwice | loader-runner/loader-runner.js:63-115 | both reads then arrive: the first runs a's normal function and reports `["a:src"]` at cursor -1, the second drives the cursor to -2 and reports the bare buffer, so the final callback fires twice |
| RequestAssembly.StripPrefix | runner.js:27 | `replace(/^-?!+/, "")` only ever removes characters from the front: the result is a suffix of the request |
| RequestAssembly.StripPrefixRemoves | runner.js:27 | nothing is removed exactly when the request starts with neither "!" nor "-!"; otherwise what is removed is a whole `-?!+` run, and no "!" is left in front |
| RequestAssembly.DashedRequest | runner.js:27 | a "-!..." request loses its whole marker and is seen as starting with "-!" only |
| RequestAssembly.BangedRequest | runner.js:27 | a "!..." request loses all its marks and starts with "!!" exactly when it has two or more |
| RequestAssembly.AssembleOfPieces | runner.js:27-29 | after the strip, the last "!"-piece is the resource and the others, in order, the inline loaders |
| RequestAssembly.CollectedStep | runner.js:35-43 | a rule adds its whole `use` list to exactly its own bucket, and only if it matches |
| RequestAssembly.BucketRules | runner.js:30-44 | the bucketing loop leaves each bucket holding the `use` lists of its matching rules in declaration order |
| RequestAssembly.BucketsPartitionMatched | runner.js:33-44 | the buckets split the matching rules' names between them: lengths add up and the multisets sum to the whole |
| RequestAssembly.UnenforcedRulesAreNormal | runner.js:36-42 | rules without `enforce` all go to the normal bucket; pre and post stay empty |
| RequestAssembly.Assemble | runner.js:27-55 | the resource never contains "!" |
| RequestAssembly.PlainRequest | runner.js:53-55 | an unprefixed request yields post, inline, normal and pre loaders in that order |
| RequestAssembly.PrefixedRequest | runner.js:47-52 | "!!" (or more marks) yields the inline loaders only and wins over "!". "-!" yields post then pre. A single "!" yields post, normal and pre. The resource is recovered in every case |
| RequestAssembly.DashedAssembly | runner.js:49-50 | a "-!" request yields the post then the pre loaders and recovers the resource |
| RequestAssembly.BangedAssembly | runner.js:47-52 | "!!" or more marks yield the inline loaders only; one "!" yields post, normal and pre; the resource is recovered |
| RequestAssembly.AssembleLoaders | runner.js:27-59 | the script's steps give the assembled resource and the assembled names mapped through `path.resolve`, with the same length and order |
| RequestAssembly.DemoBuckets | runner.js:10-25 | against a ".js" resource the three demo rules fill the normal, pre and post buckets with their own lists |
| RequestAssembly.DemoAssembly | runner.js:9-55 | the demo request yields post-loader1, post-loader2, inline-loader1, inline-loader2, normal-loader1, normal-loader2, pre-loader1, pre-loader2 |

## Left out

- `require(path)` module loading (loader-runner/loader-runner.js:6) is a foreign call. A loader path is resolved by a given function to its normal function, optional pitch and `raw` flag; load failures are not modelled.
- `fs.readFile` is I/O. `readResource` is called, and its callback arrives later as the explicit step `ResourceRead`, with an outcome fixed per run. A `readResource` that calls back synchronously is not modelled.
- Byte encoding is not modelled. A Buffer carries the text it decodes to, so `Buffer.from` and `toString` only change the tag.
- `Object.defineProperty` getter mechanics and the `this` binding of `fn.apply` (loader-runner/loader-runner.js:54, 204-247) are left out. The getters are pure functions of the descriptors, the cursor and `resource`/`source`.
- Event-loop timing: a later callback call is an explicit step. A phase function that calls `this.async()` and then calls its callback before returning behaves like `GoAsync` followed at once by `InvokeCallback`.
- The loader context's other fields are not modelled: `callback` as a function value, `async`, `resource` and `readResource`. Neither is the content of the scratch `data` objects, which have identity only. Neither is the caller's context object beyond its `source` field.
- Any caller-side exception from the final callback itself is not modelled.
- runner.js:5, 7 and 61-72 are not part of this model: the `console.log` calls, `__dirname`, and the demo `runLoaders` call. `path.resolve(__dirname, "loader-chain", name)` is a given function `resolve`.
- Regular expressions are not modelled in general. A rule's `test` (runner.js:14) is an end-anchored suffix, and the prefix expression (runner.js:27) is written out character by character.
- RequestAssembly.PlainRequest, RequestAssembly.PrefixedRequest, RequestAssembly.DashedAssembly and RequestAssembly.BangedAssembly cover requests whose first "!"-piece after the prefix is non-empty (and not "-" when unprefixed). A request starting with an empty piece is still handled by `Assemble` and `AssembleLoaders`, but no lemma characterises it.
- RunProperties.NormalWalkMatchesChain, RunProperties.PitchWalkMatchesChain and RunProperties.SynchronousRun characterise runs whose phase functions return or throw synchronously. Asynchronous runs are covered step by step: `AsyncCallbackNeverFinishes`, `NormalErrorDoesNotStopWalk`, `PitchErrorStopsWalk`, `LateReadFiresAgain` and the scenarios.
