/** Host-function marshalling (internal/function.go): how an sdk host
    function becomes a guest-callable symbol whose inputs and output are all
    32-bit integers. The Go closures `hostFunc(fn)` and `guestFunc(h)` are
    represented by the datatypes HostFunc and GuestFunc, whose `Call`
    functions are the closures' bodies. */
module HostFunctions {
  import opened Base

  /** The engine's value types. */
  datatype ValueKind = I32 | I64 | F32 | F64 | AnyRef | FuncRef

  /** A numeric value as the engine hands it over. */
  datatype Value =
    | I32Value(i32: int32)
    | I64Value(i64: int)
    | F32Value(f32: bv32)
    | F64Value(f64: bv64)
  {
    function Kind(): ValueKind {
      match this
      case I32Value(_) => I32
      case I64Value(_) => I64
      case F32Value(_) => F32
      case F64Value(_) => F64
    }
  }

  /** `Value.I32()` panics on any other kind, so the conversion is only
      defined on i32 values. */
  predicate AllI32(args: seq<Value>) {
    forall i :: 0 <= i < |args| ==> args[i].I32Value?
  }

  /** The kinds of a list of values. */
  function Kinds(vs: seq<Value>): (ks: seq<ValueKind>)
    ensures |ks| == |vs|
  {
    seq(|vs|, i requires 0 <= i < |vs| => vs[i].Kind())
  }

  /** i32 values as the guest passes them. */
  function I32Values(xs: seq<int32>): (vs: seq<Value>)
    ensures |vs| == |xs| && AllI32(vs)
    ensures forall i :: 0 <= i < |xs| ==> vs[i] == I32Value(xs[i])
  {
    seq(|xs|, i requires 0 <= i < |xs| => I32Value(xs[i]))
  }

  /** What the Go host callable returns: `(interface{}, error)`. A non-nil
      result is an int32 (the only kind `wasmer.NewValue(_, I32)` accepts). */
  datatype HostReturn = HostReturn(result: Option<int32>, err: Option<Error>)

  /** An sdk.Function: its name, declared input and output arities, and the
      Go callable `Func()`, applied to the converted arguments. */
  datatype SdkFunction = SdkFunction(
    name: string,
    numIn: nat,
    numOut: nat,
    func: seq<int32> -> HostReturn)

  /** What a guest-callable function returns: `([]wasmer.Value, error)`. */
  datatype GuestReturn = GuestReturn(values: seq<Value>, err: Option<Error>)

  /** hostFuncArgs: every engine value, read as an int32, in position. */
  function HostFuncArgs(args: seq<Value>): (out: seq<int32>)
    requires AllI32(args)
    ensures |out| == |args|
    ensures forall i :: 0 <= i < |args| ==> out[i] == args[i].i32
  {
    if args == [] then [] else [args[0].i32] + HostFuncArgs(args[1..])
  }

  /** The closure `hostFunc(sdk)`: convert the arguments, call the sdk
      function. */
  datatype HostFunc = HostFunc(sdk: SdkFunction) {
    function Call(args: seq<Value>): (r: HostReturn)
      requires AllI32(args)
      ensures r == sdk.func(seq(|args|, i requires 0 <= i < |args| => args[i].i32))
    {
      assert HostFuncArgs(args) == seq(|args|, i requires 0 <= i < |args| => args[i].i32);
      sdk.func(HostFuncArgs(args))
    }
  }

  /** The closure `guestFunc(host)`: call the host function and carry its
      error, or its (at most one) result, back to the guest. */
  datatype GuestFunc = GuestFunc(host: HostFunc) {
    function Call(args: seq<Value>): (r: GuestReturn)
      requires AllI32(args)
      ensures |r.values| <= 1 && AllI32(r.values)
      ensures r.err == host.Call(args).err
      ensures r.err.Some? ==> r.values == []
      ensures |r.values| == 1 <==> r.err.None? && host.Call(args).result.Some?
    {
      var ret := host.Call(args);
      if ret.err.Some? then
        GuestReturn([], ret.err)
      else if ret.result.None? then
        GuestReturn([], None)
      else
        GuestReturn([I32Value(ret.result.value)], None)
    }
  }

  /** The `function` record: name, parameter kinds, result kinds and the
      guest-callable closure. */
  datatype Function = Function(
    name: string,
    args: seq<ValueKind>,
    retval: seq<ValueKind>,
    fn: GuestFunc)

  /** n copies of I32. */
  function I32s(n: nat): (ks: seq<ValueKind>)
    ensures |ks| == n
    ensures forall i :: 0 <= i < n ==> ks[i] == I32
  {
    seq(n, _ => I32)
  }

  /** The record NewFunction builds for an sdk function (its specification). */
  function Binding(sdk: SdkFunction): Function {
    Function(sdk.name, I32s(sdk.numIn), I32s(sdk.numOut), GuestFunc(HostFunc(sdk)))
  }

  /** NewFunction: one I32 parameter per declared input, one I32 result per
      declared output, the sdk function's name, and the wrapped closure. */
  method NewFunction(sdk: SdkFunction) returns (f: Function)
    ensures f.name == sdk.name
    ensures |f.args| == sdk.numIn && forall i :: 0 <= i < |f.args| ==> f.args[i] == I32
    ensures |f.retval| == sdk.numOut && forall i :: 0 <= i < |f.retval| ==> f.retval[i] == I32
    ensures f.fn == GuestFunc(HostFunc(sdk))
    ensures f == Binding(sdk)
  {
    var args := new ValueKind[sdk.numIn];
    for i := 0 to sdk.numIn
      invariant forall j :: 0 <= j < i ==> args[j] == I32
    {
      args[i] := I32;
    }
    var argKinds := args[..];

    var retval := new ValueKind[sdk.numOut];
    for i := 0 to sdk.numOut
      invariant forall j :: 0 <= j < i ==> retval[j] == I32
    {
      retval[i] := I32;
    }
    var retKinds := retval[..];

    f := Function(sdk.name, argKinds, retKinds, GuestFunc(HostFunc(sdk)));
  }

  /** The engine's function type: parameter and result kinds. */
  datatype FunctionType = FunctionType(params: seq<ValueKind>, results: seq<ValueKind>)

  /** What is installed in an import namespace: a bound function, or the nil
      a global's Bind returns. */
  datatype Extern = FunctionExtern(ty: FunctionType, fn: GuestFunc) | NilExtern

  /** Bind: the engine function whose type is (args) -> (retval), wrapping
      the record's guest-callable closure; never the nil extern. */
  function Bind(f: Function): (r: Extern)
    ensures r.FunctionExtern? && r != NilExtern
    ensures r.ty.params == f.args && r.ty.results == f.retval
    ensures r.fn == f.fn
  {
    FunctionExtern(FunctionType(f.args, f.retval), f.fn)
  }

  /** An sdk function honours its declaration when it accepts 0 or 1 outputs
      and, on success, returns a result exactly when it declares one. */
  ghost predicate HonoursArity(sdk: SdkFunction) {
    && sdk.numOut <= 1
    && forall xs: seq<int32> :: |xs| == sdk.numIn && sdk.func(xs).err.None? ==>
         (sdk.func(xs).result.Some? <==> sdk.numOut == 1)
  }

  lemma {:induction false} HostFuncArgsRoundTrip(xs: seq<int32>)
    ensures HostFuncArgs(I32Values(xs)) == xs
  {
    var out := HostFuncArgs(I32Values(xs));
    assert |out| == |xs|;
    forall i | 0 <= i < |xs| ensures out[i] == xs[i] {
      assert I32Values(xs)[i] == I32Value(xs[i]);
    }
  }

  /** Calling the bound function with int32 arguments gives the guest what
      the raw host callable gives: the same error, or no value for a nil
      result, or exactly one i32 value holding the result. */
  lemma BoundCallMatchesHost(sdk: SdkFunction, xs: seq<int32>)
    ensures Bind(Binding(sdk)).FunctionExtern?
    ensures
      var r := Bind(Binding(sdk)).fn.Call(I32Values(xs));
      var h := sdk.func(xs);
      && r.err == h.err
      && (h.err.Some? ==> r.values == [])
      && (h.err.None? && h.result.None? ==> r.values == [])
      && (h.err.None? && h.result.Some? ==> r.values == [I32Value(h.result.value)])
  {
    HostFuncArgsRoundTrip(xs);
  }

  /** The values a bound function hands back agree with the result types of
      its function type, and its arguments' kinds with the parameter types,
      whenever the sdk function honours its declared arity. */
  lemma BoundSignatureHolds(sdk: SdkFunction, args: seq<Value>)
    requires HonoursArity(sdk)
    requires Kinds(args) == I32s(sdk.numIn)
    ensures Bind(Binding(sdk)).ty == FunctionType(I32s(sdk.numIn), I32s(sdk.numOut))
    ensures AllI32(args)
    ensures
      var r := Bind(Binding(sdk)).fn.Call(args);
      r.err.None? ==> Kinds(r.values) == Bind(Binding(sdk)).ty.results
  {
    forall i | 0 <= i < |args| ensures args[i].I32Value? {
      assert Kinds(args)[i] == I32;
    }
    var xs := HostFuncArgs(args);
    assert |xs| == sdk.numIn;
  }
}
