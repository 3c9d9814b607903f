# whack-runtime-wasmer host layer, modelled in Dafny

This project models the host layer that whack-runtime-wasmer puts around the
Wasmer WebAssembly engine, and proves properties of that model. The layer has
five parts:

- **WASI environment builder** (`runtime.dfy`, module `WasiEnv`). `wasiEnv`
  drives the engine's WASI state builder. It names the program and passes the
  arguments in order. It applies every environment variable and directory
  mapping. It captures stdout and stderr when asked, and pre-opens the working
  directory. The builder is a class that records each call it receives, so the
  environment is described by its command trace.
- **Host-function marshalling** (`function.dfy`, module `HostFunctions`).
  `NewFunction` gives an sdk function one i32 parameter per declared input and
  one i32 result per declared output. The `hostFunc` and `guestFunc` closures
  are datatypes whose `Call` functions are the closure bodies. Arguments are
  converted position by position. The host's error, nil result or single
  result becomes no values plus the error, no values, or one i32 value.
- **Import table** (`imports.dfy`, module `Imports`). `importFunctions` keys
  the bound functions by name, and a later function replaces an earlier one
  with the same name. `importGlobals` is always empty. `hostImports` binds
  every entry. `importObject` registers the result under `"env"` in the import
  object the engine generated, or returns the wrapped generation error and
  registers nothing.
- **Instance start-up** (`instance.dfy`, module `Instances`). This follows the
  command/reactor protocol of the WebAssembly WASI Application ABI
  (`design/application-abi.md`).
  - `wasiStartFunc` looks for the engine's start function, then for the
    export `"_start"`.
  - `wasiInitFunc` looks for `"_initialize"` and discards any lookup error.
  - `NewInstance` builds the import object, instantiates the module, invokes
    the start function and then the initialiser, and aborts with no instance
    on the first failure. A ghost trace records every entrypoint invoked.
- **Guest memory** (`instance.dfy`). `Read` copies a region of the exported
  memory into a fresh buffer. `Write` copies bytes into the memory in place.
  Both use Go's `copy`, which is modelled as a loop over an `array<byte>`.

The engine is a collaborator whose behaviour is not modelled. The import object
it generates, the outcome of instantiating a module and the outcome of
finalizing the WASI state are all parameters. So are its export table
(`Exports`: one outcome per lookup), the guest functions it exposes
(`NativeFunction.invoke`) and the random instance id.

The following Go semantics are written out explicitly:

- int32 arithmetic (`Base.Wrap32`, `Base.Add32`);
- `errors.Wrap(nil, …) == nil` from github.com/pkg/errors (`Base.Wrap`);
- the slice bounds Go checks at run time.

A slice expression the code would panic on is a precondition, not an error
result.

## Model

| member | source | states |
|---|---|---|
| HostFunctions.NewFunction | internal/function.go:34-53 | The binding keeps the sdk function's name. It has `NumIn` parameter kinds and `NumOut` result kinds, all I32, and wraps `guestFunc(hostFunc(fn))`. It equals the specification `Binding(fn)`. |
| HostFunctions.HostFuncArgs | internal/function.go:66-72 | The converted list has the same length as the engine values, and position i holds value i read as an int32. |
| HostFunctions.HostFuncArgsRoundTrip | internal/function.go:66-72 | Converting int32s to i32 values and back gives the original int32s. |
| HostFunctions.HostFunc.Call | internal/function.go:58-63 | The sdk callable is applied to the guest's arguments read as int32 values, in the same order. The i-th host argument is the i-th guest value. |
| HostFunctions.GuestFunc.Call | internal/function.go:76-90 | The guest gets at most one value, and only i32 values. The error is the host's error, and an error comes with no values. There is exactly one value iff the host succeeded with a non-nil result. |
| HostFunctions.Bind | internal/function.go:25-31 | The bound engine function (never nil) has parameter kinds `args` and result kinds `retval`, and wraps the record's guest-callable closure `fn`. |
| HostFunctions.BoundCallMatchesHost | internal/function.go:55-90 | Calling a bound function with i32 arguments returns the raw host callable's error. A nil result gives no values; a result v gives exactly `[I32Value(v)]`. |
| HostFunctions.BoundSignatureHolds | internal/function.go:25-31 | Bind's function type is (NumIn × I32) → (NumOut × I32). When the sdk function honours its declared arity, successful results match the declared result types. |
| Imports.FunctionTableKeys | internal/imports.go:52-58 | The names in importFunctions' table are exactly the names of the host functions. |
| Imports.FunctionTableLastWins | internal/imports.go:54-56 | The entry under a name is the binding of the last host function with that name. |
| Imports.CollidingNamesKeepLast | internal/imports.go:54-56 | Two functions with one name leave one entry, the second function's binding. |
| Imports.ImportFunctions | internal/imports.go:52-58 | The insertion loop builds exactly the table `FunctionTable` specifies. |
| Imports.ImportGlobals | internal/imports.go:61-64 | The globals map is empty. |
| Imports.ExternTableEntries | internal/imports.go:38-48 | The host namespace has one entry per host function name: Bind of the binding of the last function with that name. Globals add nothing. |
| Imports.HostExterns | internal/imports.go:33-49 | Both insertion loops together build exactly `ExternTable`. |
| Imports.Registered | internal/imports.go:26 | Registering adds the namespace, which holds at least the new entries, with the new entries' values. Every other namespace is unchanged, and an existing namespace keeps its other entries. |
| Imports.ImportObject.Register | internal/imports.go:26 | Register replaces the object's namespaces with `Registered(old, namespace, ext)`. |
| Imports.MakeImportObject | internal/imports.go:13-29 | If generation fails, there is no object, nothing is registered, and the error is wrapped. Otherwise the generated object is returned with the host namespace registered under "env". |
| WasiEnv.WasiStateBuilder.constructor | internal/runtime.go:75 | A new builder has issued exactly the program-name command. |
| WasiEnv.WasiStateBuilder.Argument | internal/runtime.go:79 | Appends one argument command. |
| WasiEnv.WasiStateBuilder.Environment | internal/runtime.go:84 | Appends one environment-variable command. |
| WasiEnv.WasiStateBuilder.MapDirectory | internal/runtime.go:89 | Appends one directory-mapping command. |
| WasiEnv.WasiStateBuilder.CaptureStdout | internal/runtime.go:94 | Appends the stdout-capture command. |
| WasiEnv.WasiStateBuilder.CaptureStderr | internal/runtime.go:97 | Appends the stderr-capture command. |
| WasiEnv.WasiStateBuilder.PreopenDirectory | internal/runtime.go:101 | Appends the pre-open command. |
| WasiEnv.WasiStateBuilder.Finalize | internal/runtime.go:103 | The environment carries the issued commands if the engine accepts them. Otherwise there is no environment and the engine's error is returned. |
| WasiEnv.ApplyArguments | internal/runtime.go:77-80 | Issues one argument command per argument, in the given order. |
| WasiEnv.ApplyPairs | internal/runtime.go:82-90 | Issues a segment whose multiset is one command per map pair: each pair once, in unspecified order. |
| WasiEnv.NewWasiEnv | internal/runtime.go:74-104 | Returns the engine's error exactly when it rejects the configuration. Otherwise the environment's trace is a WASI trace: name, arguments in order, an enumeration of the env pairs, an enumeration of the directory pairs, the capture commands whose flags are set, then the workdir pre-open. |
| WasiEnv.NamedCount | internal/runtime.go:75 | A WASI trace names the given program exactly once and no other program. |
| WasiEnv.ProgramNameFirst | internal/runtime.go:75 | A WASI trace starts with the program name, and no later command names a program. |
| WasiEnv.ArgumentsInOrder | internal/runtime.go:77-80 | The arguments come right after the name, in order. The arguments carried by the whole trace are exactly the configured ones. |
| WasiEnv.EnvCount | internal/runtime.go:82-85 | An environment command occurs once if it is a configured pair, otherwise never. |
| WasiEnv.EnvVarsAppliedOnce | internal/runtime.go:82-85 | Every configured environment variable is applied exactly once, and every environment command applies a configured pair. |
| WasiEnv.MapDirCount | internal/runtime.go:87-90 | A mapping command occurs once if it is a configured directory pair, otherwise never. |
| WasiEnv.DirectoriesMappedOnce | internal/runtime.go:87-90 | Every configured directory is mapped exactly once, and every mapping command maps a configured pair. |
| WasiEnv.CaptureIffFlag | internal/runtime.go:92-98 | Stdout and stderr capture each occur once if their flag is set, and never otherwise. |
| WasiEnv.PreopenCount | internal/runtime.go:100-101 | Exactly one pre-open, of the working directory. |
| WasiEnv.WorkdirPreopenedLast | internal/runtime.go:100-103 | The last command pre-opens the working directory, and no earlier command pre-opens anything. |
| Instances.WasiStartFunc | internal/instance.go:146-162 | The engine's start function comes first, and "_start" is tried only when it is absent. A lookup error at either step is wrapped and returned. Neither present gives nil and no error. |
| Instances.WasiInitFunc | internal/instance.go:169-175 | Never fails. Finds a function iff "_initialize" is found, and returns that function. |
| Instances.Startup | internal/instance.go:110-132 | At most two invocations, the start function before the initialiser, so each runs at most once. Without an error every invoked entrypoint succeeded. With an error, the last invoked entrypoint failed. |
| Instances.StartInvokedIffFound | internal/instance.go:112-120 | The start function is invoked iff the start probe finds one, and the invoked function is the one found. |
| Instances.InitInvokedIffFound | internal/instance.go:122-132 | The initialiser is invoked iff the start probe succeeds, the start function (if any) succeeds, and "_initialize" is found. |
| Instances.StartFailureSkipsInit | internal/instance.go:116-120 | A failing start function means the initialiser is not invoked, and the error is "failed to invoke wasi start ffi" around the start error. |
| Instances.StartLookupErrorAborts | internal/instance.go:112-115 | When `wasiStartFunc` fails, either in the engine's start-function lookup or in the lookup of the `_start` export, start-up ends with exactly that error and invokes nothing. The initializer is not looked up. |
| Instances.NoEntryPointIsNotAnError | internal/instance.go:151-161 | With neither entrypoint present, start-up invokes nothing and succeeds. |
| Instances.InitLookupErrorIsAbsence | internal/instance.go:170 | A failed "_initialize" lookup starts up exactly like an absent one. |
| Instances.NewInstance | internal/instance.go:93-139 | No instance iff an error, for each failure exit: import object (error wrapped twice), instantiation, start probe, start call, init call. Otherwise the trace and error are those of `Startup` on the module's exports, and the fresh instance carries the id, the runtime's environment and those exports. |
| Instances.Instance.constructor | internal/instance.go:134-138 | The instance holds the given id, environment and exports. |
| Instances.Instance.Call | internal/instance.go:35-44 | A lookup error is wrapped with the function name. A missing export returns no result and no error. A found export's result is returned as is. |
| Instances.MissingExportIsSilent | internal/instance.go:40-41 | With a missing export, the as-written Call returns neither a result nor an error, while the corrected Call returns ExportNotFound. |
| Instances.Instance.CallReportingMissing | internal/instance.go:40-42 | The corrected Call: success implies the export was found, and a missing export is an error. |
| Instances.Instance.Read | internal/instance.go:53-74 | A memory lookup error gives no data and the wrapped error. A `length` above the memory size gives no data and a bounds error. Otherwise a fresh buffer holds exactly memory[address, address+length), and the memory is unchanged. |
| Instances.Instance.Write | internal/instance.go:77-91 | A memory lookup error gives -1 and the wrapped error, with nothing modified. Otherwise it returns `int32(len(bytes))` (exactly `len(bytes)` when that fits in an int32). The memory becomes the old memory overwritten at `addr` by that many bytes. |
| Instances.Overwrite | internal/instance.go:86 | Overwriting keeps the length, puts the bytes at the address, and leaves every other byte unchanged. |
| Instances.CopyBytes | internal/instance.go:69-86 | Go's `copy` copies min(len(dst), len(src)) bytes to the start of the destination range and changes nothing else. |
| Instances.WriteThenRead | internal/instance.go:77-91 | Reading back an in-bounds region just written returns the written bytes. |

## Left out

- Engine operations are parameters, not models: compiling, generating the import object, instantiating, export lookups, running guest code and finalizing the WASI state. They are foreign calls into Wasmer.
- `NewRuntime`, `Runtime.New`/`Get` and the instance pool (internal/runtime.go:26-71) are not modelled. The pool is an sdk type not shown, and it exists for concurrent access.
- `Stdout`, `Stderr`, `Close` and the `WRN` getter (internal/instance.go:22-50) are pass-through calls into the engine and are not modelled.
- `sdk.RandomWRN` is random. The id is a parameter of `NewInstance`.
- internal/globals.go is not part of this model. No globals are ever created, and a global's `Bind` is represented only by `NilExtern`.
- pkg/api.go is a one-line wrapper and is not part of this model.
- Go map iteration order is unspecified. The loops over environment variables, directories and the function table pick any remaining key, and the properties state set semantics.
- Imports.Registered: wasmer-go's `ImportObject.Register` is not part of this model. It is modelled as installing a new namespace, or merging into an existing one with the new entries winning.
- `importFunctions` calls `NewFunction` with three arguments (internal/imports.go:55), but the `NewFunction` shown takes one (internal/function.go:34). The one-argument form is modelled.
- HostFunctions.HostReturn: a host result is an int32 or nil. Other Go values would make `wasmer.NewValue` fail, so they are not modelled.
- Instances.Instance.Read, Instances.Instance.Write: `bytes` is a value, so a `bytes` slice that aliases guest memory is not modelled. Neither is memory growing between calls.
- Instances.Exports: the lookup of the memory named `"memory"` is one fixed outcome per instance, not a lookup by name.
- Error messages built with `errors.Errorf` are structured values (`MemoryTooSmall`), not formatted text.
- The short-copy checks (internal/instance.go:69, 86) are proved unreachable where they stand, so the model has no error value for them.
- `Write` compares nothing with the memory size. Only `Read` checks `length` against it (internal/instance.go:63). An out-of-range slice panics in Go, and the model states that as a precondition.

## Findings

| source | as written | input that shows it | evidently intended | confidence | as-written member | corrected member |
|---|---|---|---|---|---|---|
| internal/instance.go:40-41 | When the export is missing, `Call` returns `errors.Wrapf(err, …)` with `err` nil, and `Wrapf` of nil is nil. | An export table where `GetFunction(name)` returns a nil function and a nil error: `Call` returns `(nil, nil)`, the same as a successful call with no result. | Return an "exported function … not found" error. | high for the code path as written; how often the engine returns a nil function with no error is not modelled; not executed | Instances.MissingExportIsSilent | Instances.Instance.CallReportingMissing |
