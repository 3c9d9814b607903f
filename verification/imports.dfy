/** Import-table construction (internal/imports.go): the host functions are
    bound, collected by name into one namespace, and registered under "env"
    in the import object the engine generated for the WASI environment. */
module Imports {
  import opened Base
  import opened Consts
  import opened HostFunctions

  /** The sdk's host-import set: its functions, in the order it lists them. */
  datatype HostImports = HostImports(functions: seq<SdkFunction>)

  /** A host global (internal/globals.go). */
  datatype Global = Global(value: int)

  /** The names of a list of host functions. */
  ghost function Names(fns: seq<SdkFunction>): set<string> {
    set i | 0 <= i < |fns| :: fns[i].name
  }

  /** The position of the last function called `name`. */
  ghost function LastIndex(fns: seq<SdkFunction>, name: string): (k: nat)
    requires name in Names(fns)
    ensures k < |fns| && fns[k].name == name
    ensures forall j :: k < j < |fns| ==> fns[j].name != name
  {
    var n := |fns| - 1;
    if fns[n].name == name then n
    else
      var i :| 0 <= i < |fns| && fns[i].name == name;
      assert fns[..n][i] == fns[i];
      LastIndex(fns[..n], name)
  }

  /** The table importFunctions builds: each function bound and stored under
      its name, a later function replacing an earlier one of the same name. */
  ghost function FunctionTable(fns: seq<SdkFunction>): map<string, Function> {
    if fns == [] then map[]
    else
      var last := fns[|fns| - 1];
      FunctionTable(fns[..|fns| - 1])[last.name := Binding(last)]
  }

  /** The namespace hostImports builds: every table entry bound. */
  ghost function ExternTable(imports: HostImports): map<string, Extern> {
    var table := FunctionTable(imports.functions);
    map name | name in table :: Bind(table[name])
  }

  lemma {:induction false} FunctionTableKeys(fns: seq<SdkFunction>)
    ensures FunctionTable(fns).Keys == Names(fns)
  {
    if fns != [] {
      var n := |fns| - 1;
      var prefix := fns[..n];
      FunctionTableKeys(prefix);
      forall name ensures name in Names(fns) <==> name in Names(prefix) || name == fns[n].name {
        if name in Names(fns) && name != fns[n].name {
          var i :| 0 <= i < |fns| && fns[i].name == name;
          assert prefix[i] == fns[i];
        }
        if name in Names(prefix) {
          var i :| 0 <= i < |prefix| && prefix[i].name == name;
          assert fns[i] == prefix[i];
        }
      }
    }
  }

  /** The entry under a name is the binding of the last function with that
      name. */
  lemma {:induction false} FunctionTableLastWins(fns: seq<SdkFunction>, name: string)
    requires name in Names(fns)
    ensures name in FunctionTable(fns)
    ensures FunctionTable(fns)[name] == Binding(fns[LastIndex(fns, name)])
  {
    var n := |fns| - 1;
    if fns[n].name != name {
      var i :| 0 <= i < |fns| && fns[i].name == name;
      assert fns[..n][i] == fns[i];
      FunctionTableLastWins(fns[..n], name);
    }
  }

  /** Two host functions with one name leave exactly one binding: the second. */
  lemma CollidingNamesKeepLast(first: SdkFunction, second: SdkFunction)
    requires first.name == second.name
    ensures FunctionTable([first, second]) == map[second.name := Binding(second)]
  {
    assert [first, second][..1] == [first];
    assert [first][..0] == [];
    assert FunctionTable([first][..0]) == map[];
    var m := FunctionTable([first]);
    assert m == map[first.name := Binding(first)];
    assert m[second.name := Binding(second)] == map[second.name := Binding(second)];
  }

  /** importFunctions: the table FunctionTable describes (its names and
      entries are given by FunctionTableKeys and FunctionTableLastWins). */
  method ImportFunctions(imports: HostImports) returns (functions: map<string, Function>)
    ensures functions == FunctionTable(imports.functions)
  {
    var fns := imports.functions;
    functions := map[];
    for i := 0 to |fns|
      invariant functions == FunctionTable(fns[..i])
    {
      var f := NewFunction(fns[i]);
      assert fns[..i + 1][..i] == fns[..i];
      functions := functions[fns[i].name := f];
    }
    assert fns[..|fns|] == fns;
  }

  /** importGlobals: no host globals are ever exposed. */
  function ImportGlobals(imports: HostImports): (globals: map<string, Global>)
    ensures globals.Keys == {}
  {
    map[]
  }

  /** The host namespace holds one bound function per host function name:
      the binding of the last function of that name. */
  lemma ExternTableEntries(imports: HostImports)
    ensures ExternTable(imports).Keys == Names(imports.functions)
    ensures forall name :: name in ExternTable(imports) ==>
      ExternTable(imports)[name] == Bind(Binding(imports.functions[LastIndex(imports.functions, name)]))
  {
    var fns := imports.functions;
    FunctionTableKeys(fns);
    forall name | name in ExternTable(imports)
      ensures ExternTable(imports)[name] == Bind(Binding(fns[LastIndex(fns, name)]))
    {
      FunctionTableLastWins(fns, name);
    }
  }

  /** hostImports: every entry of importFunctions' table, bound; the globals
      add no entry. */
  method HostExterns(imports: HostImports) returns (ext: map<string, Extern>)
    ensures ext == ExternTable(imports)
  {
    var functions := ImportFunctions(imports);
    ext := map[];
    var remaining := functions.Keys;
    while remaining != {}
      invariant remaining <= functions.Keys
      invariant ext.Keys == functions.Keys - remaining
      invariant forall name :: name in ext ==> ext[name] == Bind(functions[name])
      decreases remaining
    {
      var name :| name in remaining;
      ext := ext[name := Bind(functions[name])];
      remaining := remaining - {name};
    }
    assert ext.Keys == ExternTable(imports).Keys;
    // The globals loop of hostImports, over a map that is always empty.
    var globals := ImportGlobals(imports);
    // Every global binds to nil (internal/globals.go).
    var globalExterns := map name | name in globals :: NilExtern;
    assert globalExterns == map[];
    ext := ext + globalExterns;
  }

  /** The namespaces after registering `ext` under `namespace`: a new
      namespace holds exactly `ext`; an existing one keeps its entries and
      gains (or has replaced) those of `ext`; other namespaces are untouched. */
  function Registered(
    externs: map<string, map<string, Extern>>,
    namespace: string,
    ext: map<string, Extern>): (r: map<string, map<string, Extern>>)
    ensures r.Keys == externs.Keys + {namespace}
    ensures forall ns :: ns in externs && ns != namespace ==> r[ns] == externs[ns]
    ensures namespace !in externs ==> r[namespace] == ext
    ensures namespace in externs ==> r[namespace].Keys == externs[namespace].Keys + ext.Keys
    ensures r[namespace].Keys >= ext.Keys
    ensures forall name :: name in ext ==> r[namespace][name] == ext[name]
    ensures namespace in externs ==>
      forall name :: name in externs[namespace] && name !in ext ==>
        r[namespace][name] == externs[namespace][name]
  {
    if namespace in externs then externs[namespace := externs[namespace] + ext]
    else externs[namespace := ext]
  }

  /** The engine's import object, namespace by namespace. */
  class ImportObject {
    var externs: map<string, map<string, Extern>>

    constructor (externs: map<string, map<string, Extern>>)
      ensures this.externs == externs
    {
      this.externs := externs;
    }

    /** ImportObject.Register of the engine binding. */
    method Register(namespace: string, ext: map<string, Extern>)
      modifies this
      ensures externs == Registered(old(externs), namespace, ext)
    {
      externs := Registered(externs, namespace, ext);
    }
  }

  /** What the engine's GenerateImportObject produced for the runtime's WASI
      environment. */
  datatype GenerateOutcome =
    | Generated(externs: map<string, map<string, Extern>>)
    | GenerateFailed(err: Error)

  /** importObject: on a generation failure, a wrapped error and no object
      (nothing is registered); otherwise the generated object with the host
      namespace registered under "env". */
  method MakeImportObject(generated: GenerateOutcome, imports: HostImports)
    returns (obj: ImportObject?, err: Option<Error>)
    ensures generated.GenerateFailed? ==>
      obj == null && err == Some(Wrapped("failed to create import object", generated.err))
    ensures generated.Generated? ==>
      && err.None? && obj != null && fresh(obj)
      && obj.externs == Registered(generated.externs, Namespace, ExternTable(imports))
  {
    if generated.GenerateFailed? {
      return null, Wrap(Some(generated.err), "failed to create import object");
    }
    obj := new ImportObject(generated.externs);
    var ext := HostExterns(imports);
    obj.Register(Namespace, ext);
    err := None;
  }
}
