/** The guest instance (internal/instance.go): the start-up protocol that
    turns an instantiated module into a running command or reactor, the
    exported-function call, and the bounds-checked accessors for the
    guest's exported linear memory. The engine's export table is an
    abstract value: each lookup is one of its possible outcomes. */
module Instances {
  import opened Base
  import opened Consts
  import opened HostFunctions
  import opened Imports
  import opened WasiEnv

  /** What a native (guest-exported) function returns: `(interface{}, error)`. */
  datatype NativeReturn = NativeReturn(result: Option<Value>, err: Option<Error>)

  /** A guest-exported function, as the engine exposes it. */
  datatype NativeFunction = NativeFunction(invoke: seq<Value> -> NativeReturn)

  /** The outcome of looking up an exported function: found, absent (a nil
      function and no error), or an engine error. */
  datatype FunctionLookup =
    | Found(fn: NativeFunction)
    | Absent
    | LookupFailed(err: Error)

  /** The outcome of looking up an exported memory: its data buffer, or an
      engine error. */
  datatype MemoryLookup =
    | MemoryFound(data: array<byte>)
    | MemoryLookupFailed(err: Error)

  /** The export table of an instantiated module. */
  datatype Exports = Exports(
    wasiStart: FunctionLookup,            // GetWasiStartFunction()
    functions: string -> FunctionLookup,  // GetFunction(name)
    memory: MemoryLookup)                 // GetMemory("memory")

  /** An (address, length) region of guest memory (sdk.Memory). */
  datatype MemoryRegion = MemoryRegion(address: int32, length: int32)

  /** The result of an entrypoint probe: a function to invoke, or none; and
      an error. */
  datatype Probe = Probe(fn: Option<NativeFunction>, err: Option<Error>)

  /** The two WASI Application ABI entrypoints: a command's start function
      and a reactor's initialiser. */
  datatype EntryPoint = Start | Initialize

  /** One entrypoint invocation, recorded in the start-up trace. */
  datatype Invocation = Invoked(entry: EntryPoint, fn: NativeFunction)

  /** The invocations of a start-up, and its error. */
  datatype StartupResult = StartupResult(trace: seq<Invocation>, err: Option<Error>)

  /** wasiStartFunc: the engine's WASI start function if it has one,
      otherwise the export "_start"; nil without error if neither exists;
      a lookup error is wrapped and returned. */
  function WasiStartFunc(ex: Exports): (r: Probe)
    ensures r.fn.Some? ==> r.err.None?
    ensures ex.wasiStart.Found? ==> r.fn == Some(ex.wasiStart.fn)
    ensures ex.wasiStart.LookupFailed? ==>
      r.fn.None? && r.err == Some(Wrapped("failed to get wasi start function", ex.wasiStart.err))
    ensures ex.wasiStart.Absent? ==> match ex.functions(StartFunctionName)
      case Found(f) => r.fn == Some(f) && r.err.None?
      case Absent => r.fn.None? && r.err.None?
      case LookupFailed(e) =>
        r.fn.None? && r.err == Some(Wrapped("failed to get wasi " + StartFunctionName + " exported function", e))
  {
    match ex.wasiStart
    case LookupFailed(e) => Probe(None, Wrap(Some(e), "failed to get wasi start function"))
    case Found(f) => Probe(Some(f), None)
    case Absent =>
      match ex.functions(StartFunctionName)
      case LookupFailed(e) =>
        Probe(None, Wrap(Some(e), "failed to get wasi " + StartFunctionName + " exported function"))
      case Found(f) => Probe(Some(f), None)
      case Absent => Probe(None, None)
  }

  /** wasiInitFunc: the export "_initialize" if it exists; a lookup error
      is discarded, so it never fails. */
  function WasiInitFunc(ex: Exports): (r: Probe)
    ensures r.err.None?
    ensures r.fn.Some? <==> ex.functions(InitFunctionName).Found?
    ensures r.fn.Some? ==> r.fn.value == ex.functions(InitFunctionName).fn
  {
    match ex.functions(InitFunctionName)
    case Found(f) => Probe(Some(f), None)
    case _ => Probe(None, None)
  }

  /** The entrypoints a trace invoked, in order. */
  function Entries(trace: seq<Invocation>): (es: seq<EntryPoint>)
    ensures |es| == |trace|
    ensures forall i :: 0 <= i < |trace| ==> es[i] == trace[i].entry
  {
    seq(|trace|, i requires 0 <= i < |trace| => trace[i].entry)
  }

  /** The start-up protocol of NewInstance on an instantiated module: probe
      for and invoke the start function, then probe for and invoke the
      initialiser. It starts before it initialises, invokes each entrypoint
      at most once, and stops at the first failure. */
  function Startup(ex: Exports): (r: StartupResult)
    ensures |r.trace| <= 2
    ensures forall i, j :: 0 <= i < j < |r.trace| ==>
      r.trace[i].entry == Start && r.trace[j].entry == Initialize
    ensures r.err.None? ==> forall k :: 0 <= k < |r.trace| ==> r.trace[k].fn.invoke([]).err.None?
    ensures r.err.Some? && |r.trace| > 0 ==> r.trace[|r.trace| - 1].fn.invoke([]).err.Some?
  {
    var start := WasiStartFunc(ex);
    if start.err.Some? then StartupResult([], start.err)
    else
      var startTrace := if start.fn.Some? then [Invoked(Start, start.fn.value)] else [];
      var startErr := if start.fn.Some? then start.fn.value.invoke([]).err else None;
      if startErr.Some? then
        StartupResult(startTrace, Wrap(startErr, "failed to invoke wasi start ffi"))
      else
        var init := WasiInitFunc(ex);
        var initTrace := if init.fn.Some? then [Invoked(Initialize, init.fn.value)] else [];
        var initErr := if init.fn.Some? then init.fn.value.invoke([]).err else None;
        StartupResult(startTrace + initTrace, Wrap(initErr, "failed to invoke wasi init ffi"))
  }

  /** The start function is invoked exactly when the start probe finds one,
      and it is the function found. */
  lemma StartInvokedIffFound(ex: Exports)
    ensures Start in Entries(Startup(ex).trace) <==> WasiStartFunc(ex).fn.Some?
    ensures forall k :: 0 <= k < |Startup(ex).trace| && Startup(ex).trace[k].entry == Start ==>
      WasiStartFunc(ex).fn == Some(Startup(ex).trace[k].fn)
  {
    var t := Startup(ex).trace;
    if WasiStartFunc(ex).fn.Some? {
      assert t[0].entry == Start;
      assert Entries(t)[0] == Start;
    }
  }

  /** The initialiser is invoked exactly when the start probe succeeds, the
      start function (if any) succeeds, and "_initialize" is found; it is
      the function found. */
  lemma InitInvokedIffFound(ex: Exports)
    ensures Initialize in Entries(Startup(ex).trace) <==>
      && WasiStartFunc(ex).err.None?
      && (WasiStartFunc(ex).fn.Some? ==> WasiStartFunc(ex).fn.value.invoke([]).err.None?)
      && ex.functions(InitFunctionName).Found?
    ensures forall k :: 0 <= k < |Startup(ex).trace| && Startup(ex).trace[k].entry == Initialize ==>
      ex.functions(InitFunctionName) == Found(Startup(ex).trace[k].fn)
  {
    var t := Startup(ex).trace;
    if Initialize in Entries(t) {
      var k :| 0 <= k < |t| && Entries(t)[k] == Initialize;
      assert t[k].entry == Initialize;
    }
    if && WasiStartFunc(ex).err.None?
       && (WasiStartFunc(ex).fn.Some? ==> WasiStartFunc(ex).fn.value.invoke([]).err.None?)
       && ex.functions(InitFunctionName).Found?
    {
      assert Entries(t)[|t| - 1] == Initialize;
    }
  }

  /** A failing start function aborts start-up: the initialiser is not
      invoked, and the start function's error is returned with context. */
  lemma StartFailureSkipsInit(ex: Exports)
    requires WasiStartFunc(ex).fn.Some?
    requires WasiStartFunc(ex).fn.value.invoke([]).err.Some?
    ensures Initialize !in Entries(Startup(ex).trace)
    ensures Startup(ex).err
         == Some(Wrapped("failed to invoke wasi start ffi", WasiStartFunc(ex).fn.value.invoke([]).err.value))
  {
  }

  /** An error looking up the engine's start function aborts start-up
      before anything is invoked. */
  lemma StartLookupErrorAborts(ex: Exports)
    requires WasiStartFunc(ex).err.Some?
    ensures Startup(ex) == StartupResult([], WasiStartFunc(ex).err)
  {
  }

  /** A module that exports neither entrypoint starts without invoking
      anything and without error. */
  lemma NoEntryPointIsNotAnError(ex: Exports)
    requires ex.wasiStart.Absent?
    requires ex.functions(StartFunctionName).Absent?
    requires !ex.functions(InitFunctionName).Found?
    ensures Startup(ex) == StartupResult([], None)
  {
  }

  /** The export table `ex` with "_initialize" reported absent. */
  function WithoutInit(ex: Exports): (r: Exports)
    ensures r.functions(InitFunctionName).Absent?
  {
    ex.(functions := name => if name == InitFunctionName then Absent else ex.functions(name))
  }

  /** wasiInitFunc discards lookup errors: a failed "_initialize" lookup
      starts up exactly as an absent "_initialize" does. */
  lemma InitLookupErrorIsAbsence(ex: Exports)
    requires ex.functions(InitFunctionName).LookupFailed?
    ensures Startup(ex) == Startup(WithoutInit(ex))
  {
    var ex' := WithoutInit(ex);
    assert StartFunctionName != InitFunctionName;
    assert ex'.functions(StartFunctionName) == ex.functions(StartFunctionName);
    assert WasiStartFunc(ex') == WasiStartFunc(ex);
    assert WasiInitFunc(ex') == WasiInitFunc(ex);
  }

  /** The outcome of the engine's NewInstance on the module and an import
      object. */
  datatype Instantiation =
    | Instantiated(exports: Exports)
    | InstantiateFailed(err: Error)

  /** The runtime as NewInstance uses it: its finished WASI environment, the
      import object the engine generates for that environment, and the
      engine's instantiation of the compiled module. */
  datatype Runtime = Runtime(
    env: WasiEnvironment,
    generated: GenerateOutcome,
    instantiate: map<string, map<string, Extern>> -> Instantiation)

  /** A running guest instance. */
  class Instance {
    const wrn: Wrn
    const env: WasiEnvironment
    const exports: Exports

    constructor (wrn: Wrn, env: WasiEnvironment, exports: Exports)
      ensures this.wrn == wrn && this.env == env && this.exports == exports
    {
      this.wrn := wrn;
      this.env := env;
      this.exports := exports;
    }

    /** The lookup of the exported memory named "memory". */
    function Memory(): MemoryLookup {
      exports.memory
    }

    /** Call: the named export applied to the arguments. A lookup error is
        wrapped; a missing export gives no result and, because the nil
        lookup error is what gets wrapped, no error either. */
    function Call(name: string, args: seq<Value>): (r: NativeReturn)
      ensures exports.functions(name).LookupFailed? ==>
        r.result.None? && r.err == Some(Wrapped("failed to get exported function " + name, exports.functions(name).err))
      ensures exports.functions(name).Absent? ==> r == NativeReturn(None, None)
      ensures exports.functions(name).Found? ==> r == exports.functions(name).fn.invoke(args)
    {
      match exports.functions(name)
      case LookupFailed(e) =>
        NativeReturn(None, Wrap(Some(e), "failed to get exported function " + name))
      case Absent =>
        NativeReturn(None, Wrap(None, "exported function " + name + " not found"))
      case Found(f) => f.invoke(args)
    }

    /** Call as evidently intended: a missing export is reported as an
        error. */
    function CallReportingMissing(name: string, args: seq<Value>): (r: NativeReturn)
      ensures r.err.None? ==> exports.functions(name).Found?
      ensures exports.functions(name).Absent? ==> r == NativeReturn(None, Some(ExportNotFound(name)))
      ensures exports.functions(name).Found? ==> r == Call(name, args)
      ensures exports.functions(name).LookupFailed? ==> r == Call(name, args)
    {
      match exports.functions(name)
      case Absent => NativeReturn(None, Some(ExportNotFound(name)))
      case _ => Call(name, args)
    }

    /** Read: on a memory lookup error, no data and the wrapped error; when
        `length` exceeds the memory size, no data and a bounds error;
        otherwise a fresh buffer holding exactly the `length` bytes at
        `address`. Only `length` is checked: an `address` (or
        `address + length`, in int32 arithmetic) outside the memory makes
        the source's slice expression panic, so it is a precondition here,
        as is a negative `length`. Memory is never modified. */
    method Read(mem: MemoryRegion) returns (buf: array?<byte>, err: Option<Error>)
      requires Memory().MemoryFound? && mem.length as int <= Memory().data.Length ==>
        && 0 <= mem.length
        && 0 <= mem.address <= Add32(mem.address, mem.length)
        && Add32(mem.address, mem.length) as int <= Memory().data.Length
      ensures Memory().MemoryLookupFailed? ==>
        buf == null && err == Some(Wrapped("failed to get exported memory", Memory().err))
      ensures Memory().MemoryFound? && mem.length as int > Memory().data.Length ==>
        buf == null && err == Some(MemoryTooSmall(mem.length, Memory().data.Length))
      ensures Memory().MemoryFound? && mem.length as int <= Memory().data.Length ==>
        && err.None? && buf != null && fresh(buf)
        && buf[..] == Memory().data[mem.address..mem.address as int + mem.length as int]
    {
      var memory := Memory();
      if memory.MemoryLookupFailed? {
        return null, Wrap(Some(memory.err), "failed to get exported memory");
      }
      var addr := mem.address;
      var length := mem.length;
      var data := memory.data;
      if length as int > data.Length {
        return null, Some(MemoryTooSmall(length, data.Length));
      }
      Add32NoWrap(addr, length);
      var buffer := new byte[length];
      ghost var region := data[addr..Add32(addr, length)];
      var read := CopyBytes(buffer, 0, length as int, data[addr..Add32(addr, length)]);
      assert read == length as int && region[..read] == region;
      assert buffer[..] == buffer[..][0..length];
      // The short-read check of the source can never fire: the slice has
      // exactly `length` bytes.
      if Wrap32(read) != length {
        assert false;
      }
      return buffer, None;
    }

    /** Write: on a memory lookup error, -1 and the wrapped error, with
        memory untouched; otherwise `bytes` is copied to `address` and
        their count, truncated to int32, is returned. A destination range
        outside the memory makes the source's slice expression panic, so it
        is a precondition here. */
    method Write(addr: int32, bytes: seq<byte>) returns (n: int32, err: Option<Error>)
      requires Memory().MemoryFound? ==>
        && 0 <= addr <= Add32(addr, Wrap32(|bytes|))
        && Add32(addr, Wrap32(|bytes|)) as int <= Memory().data.Length
      modifies if Memory().MemoryFound? then {Memory().data} else {}
      ensures Memory().MemoryLookupFailed? ==>
        n == -1 && err == Some(Wrapped("failed to get exported memory", Memory().err))
      ensures Memory().MemoryFound? ==>
        && err.None? && n == Wrap32(|bytes|) && 0 <= n as int <= |bytes|
        && Memory().data[..] == Overwrite(old(Memory().data[..]), addr as int, bytes[..n])
      ensures Memory().MemoryFound? && |bytes| <= MaxInt32 ==> n as int == |bytes|
    {
      var memory := Memory();
      if memory.MemoryLookupFailed? {
        return -1, Wrap(Some(memory.err), "failed to get exported memory");
      }
      var length := Wrap32(|bytes|);
      var data := memory.data;
      Wrap32Truncates(|bytes|);
      Add32NoWrap(addr, length);
      var written := CopyBytes(data, addr as int, Add32(addr, length) as int, bytes);
      // The short-write check of the source can never fire: the destination
      // has `length` bytes and there are at least that many to copy.
      if Wrap32(written) != length {
        assert false;
      }
      return length, None;
    }
  }

  /** A sum of non-negative int32s that does not fall below its first
      operand did not wrap around. */
  lemma Add32NoWrap(a: int32, b: int32)
    requires 0 <= a && 0 <= b && a <= Add32(a, b)
    ensures Add32(a, b) as int == a as int + b as int
  {
  }

  /** As written, calling a missing export looks like a successful call
      with no result; the corrected Call reports it. */
  lemma MissingExportIsSilent(inst: Instance, name: string, args: seq<Value>)
    requires inst.exports.functions(name).Absent?
    ensures inst.Call(name, args).result.None? && inst.Call(name, args).err.None?
    ensures inst.CallReportingMissing(name, args).err == Some(ExportNotFound(name))
  {
  }

  /** A non-negative int32 truncation of a natural number does not exceed
      it, and equals it when it fits. */
  lemma Wrap32Truncates(x: nat)
    ensures Wrap32(x) >= 0 ==> Wrap32(x) as int <= x
    ensures x <= MaxInt32 ==> Wrap32(x) as int == x
  {
  }

  /** `data` with `bytes` written at `addr`. */
  function Overwrite(data: seq<byte>, addr: nat, bytes: seq<byte>): (r: seq<byte>)
    requires addr + |bytes| <= |data|
    ensures |r| == |data|
    ensures r[addr..addr + |bytes|] == bytes
    ensures forall i :: 0 <= i < |data| && !(addr <= i < addr + |bytes|) ==> r[i] == data[i]
  {
    data[..addr] + bytes + data[addr + |bytes|..]
  }

  /** Go's `copy(dst[from:to], src)`: copies as many bytes as both sides
      hold and returns that count. */
  method CopyBytes(dst: array<byte>, from: nat, to: nat, src: seq<byte>) returns (n: nat)
    requires from <= to <= dst.Length
    modifies dst
    ensures n == Min(to - from, |src|)
    ensures dst[..] == Overwrite(old(dst[..]), from, src[..n])
  {
    n := Min(to - from, |src|);
    for k := 0 to n
      invariant forall i :: 0 <= i < dst.Length ==>
        dst[i] == if from <= i < from + k then src[i - from] else old(dst[i])
    {
      dst[from + k] := src[k];
    }
    ghost var expected := Overwrite(old(dst[..]), from, src[..n]);
    forall i | 0 <= i < dst.Length ensures dst[i] == expected[i] {
      if from <= i < from + n {
        assert expected[from..from + n][i - from] == expected[i];
      }
    }
  }

  /** Writing bytes to guest memory and reading the same region back
      returns the bytes written. */
  method WriteThenRead(inst: Instance, addr: int32, bytes: seq<byte>) returns (out: array?<byte>)
    requires inst.Memory().MemoryFound?
    requires 0 <= addr as int && addr as int + |bytes| <= MaxInt32
    requires addr as int + |bytes| <= inst.Memory().data.Length
    modifies inst.Memory().data
    ensures out != null && out[..] == bytes
  {
    Wrap32Truncates(|bytes|);
    var n, err := inst.Write(addr, bytes);
    assert bytes[..n] == bytes;
    Add32NoWrap(addr, n);
    ghost var written := inst.Memory().data[..];
    assert written[addr..addr as int + n as int] == bytes;
    out, err := inst.Read(MemoryRegion(addr, n));
  }

  /** NewInstance: build the import object, instantiate the module, and run
      the start-up protocol. Any failure returns its error and no instance;
      otherwise the instance carries the generated id, the runtime's WASI
      environment and the module's exports. `trace` records the
      entrypoints invoked. */
  method NewInstance(rt: Runtime, imports: HostImports, id: Wrn)
    returns (inst: Instance?, err: Option<Error>, ghost trace: seq<Invocation>)
    ensures inst == null <==> err.Some?
    ensures rt.generated.GenerateFailed? ==>
      && trace == []
      && err == Some(Wrapped("failed to create import object",
                       Wrapped("failed to create import object", rt.generated.err)))
    ensures rt.generated.Generated? ==>
      var instantiation := rt.instantiate(Registered(rt.generated.externs, Namespace, ExternTable(imports)));
      && (instantiation.InstantiateFailed? ==>
            trace == [] && err == Some(Wrapped("failed to create Instance", instantiation.err)))
      && (instantiation.Instantiated? ==>
            && trace == Startup(instantiation.exports).trace
            && err == Startup(instantiation.exports).err)
      && (inst != null ==>
            && fresh(inst) && inst.wrn == id && inst.env == rt.env
            && instantiation.Instantiated? && inst.exports == instantiation.exports)
  {
    trace := [];
    var obj, importErr := MakeImportObject(rt.generated, imports);
    if importErr.Some? {
      return null, Wrap(importErr, "failed to create import object"), trace;
    }

    var instantiation := rt.instantiate(obj.externs);
    if instantiation.InstantiateFailed? {
      return null, Wrap(Some(instantiation.err), "failed to create Instance"), trace;
    }
    var ex := instantiation.exports;

    // Commands: the start function, if one exists.
    var start := WasiStartFunc(ex);
    if start.err.Some? {
      return null, start.err, trace;
    }
    if start.fn.Some? {
      trace := trace + [Invoked(Start, start.fn.value)];
      var ret := start.fn.value.invoke([]);
      if ret.err.Some? {
        return null, Wrap(ret.err, "failed to invoke wasi start ffi"), trace;
      }
    }

    // Reactors: the initialiser, if one exists.
    var init := WasiInitFunc(ex);
    assert init.err.None?;  // wasiInitFunc never fails
    if init.fn.Some? {
      trace := trace + [Invoked(Initialize, init.fn.value)];
      var ret := init.fn.value.invoke([]);
      if ret.err.Some? {
        return null, Wrap(ret.err, "failed to invoke wasi init ffi"), trace;
      }
    }

    inst := new Instance(id, rt.env, ex);
    err := None;
  }
}
