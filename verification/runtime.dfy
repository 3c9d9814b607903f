/** The WASI environment builder sequence (`wasiEnv`, internal/runtime.go).
    The engine's WasiStateBuilder is represented by the list of commands
    issued to it; the finished environment carries that list. */
module WasiEnv {
  import opened Base

  /** The runtime's WASI configuration. */
  datatype WasiConfig = WasiConfig(
    arguments: seq<string>,
    envVars: map<string, string>,
    directories: map<string, string>,
    captureStdout: bool,
    captureStderr: bool,
    workdir: string)

  /** One call on the engine's WASI state builder. */
  datatype BuilderCommand =
    | Named(programName: string)
    | Arg(arg: string)
    | Env(key: string, value: string)
    | MapDir(alias: string, path: string)
    | StdoutCaptured
    | StderrCaptured
    | Preopen(dir: string)

  /** The finalized environment, described by the commands that built it. */
  datatype WasiEnvironment = WasiEnvironment(commands: seq<BuilderCommand>)

  /** The engine's WASI state builder, recording each call made on it. */
  class WasiStateBuilder {
    var commands: seq<BuilderCommand>

    constructor (programName: string)
      ensures commands == [Named(programName)]
    {
      commands := [Named(programName)];
    }

    method Argument(arg: string)
      modifies this
      ensures commands == old(commands) + [Arg(arg)]
    {
      commands := commands + [Arg(arg)];
    }

    method Environment(key: string, value: string)
      modifies this
      ensures commands == old(commands) + [Env(key, value)]
    {
      commands := commands + [Env(key, value)];
    }

    method MapDirectory(alias: string, path: string)
      modifies this
      ensures commands == old(commands) + [MapDir(alias, path)]
    {
      commands := commands + [MapDir(alias, path)];
    }

    method CaptureStdout()
      modifies this
      ensures commands == old(commands) + [StdoutCaptured]
    {
      commands := commands + [StdoutCaptured];
    }

    method CaptureStderr()
      modifies this
      ensures commands == old(commands) + [StderrCaptured]
    {
      commands := commands + [StderrCaptured];
    }

    method PreopenDirectory(dir: string)
      modifies this
      ensures commands == old(commands) + [Preopen(dir)]
    {
      commands := commands + [Preopen(dir)];
    }

    /** Finalize: the engine either accepts the configuration (`verdict` is
        None) and yields the environment, or rejects it and yields no
        environment. */
    method Finalize(verdict: Option<Error>) returns (env: Option<WasiEnvironment>, err: Option<Error>)
      ensures err == verdict
      ensures env.Some? <==> verdict.None?
      ensures env.Some? ==> env.value.commands == commands
    {
      if verdict.Some? {
        return None, verdict;
      }
      return Some(WasiEnvironment(commands)), None;
    }
  }

  function ArgCommands(args: seq<string>): (cs: seq<BuilderCommand>)
    ensures |cs| == |args|
    ensures forall i :: 0 <= i < |args| ==> cs[i] == Arg(args[i])
  {
    seq(|args|, i requires 0 <= i < |args| => Arg(args[i]))
  }

  /** The command that applies one key/value pair of the environment
      variables (`isDir` false) or of the directory mappings (`isDir` true). */
  function PairCommand(isDir: bool, key: string, value: string): BuilderCommand {
    if isDir then MapDir(key, value) else Env(key, value)
  }

  /** The commands applying the pairs of `m` whose keys are in `keys`. */
  ghost function PairCommands(isDir: bool, m: map<string, string>, keys: set<string>): set<BuilderCommand> {
    set k | k in keys && k in m :: PairCommand(isDir, k, m[k])
  }

  function CaptureCommands(cfg: WasiConfig): seq<BuilderCommand> {
    (if cfg.captureStdout then [StdoutCaptured] else [])
      + (if cfg.captureStderr then [StderrCaptured] else [])
  }

  /** A builder trace with the given environment and directory segments. */
  ghost function Trace(
    name: string, cfg: WasiConfig,
    envSeg: seq<BuilderCommand>, dirSeg: seq<BuilderCommand>): seq<BuilderCommand>
  {
    [Named(name)] + ArgCommands(cfg.arguments) + TraceTail(cfg, envSeg, dirSeg)
  }

  /** The part of a trace after the arguments. */
  ghost function TraceTail(
    cfg: WasiConfig, envSeg: seq<BuilderCommand>, dirSeg: seq<BuilderCommand>): seq<BuilderCommand>
  {
    envSeg + dirSeg + CaptureCommands(cfg) + [Preopen(cfg.workdir)]
  }

  /** The traces wasiEnv may issue: the program name, the arguments in order,
      every environment variable once (in any order), every directory
      mapping once (in any order), the capture flags that are set, and the
      working directory pre-open. */
  ghost predicate IsWasiTrace(t: seq<BuilderCommand>, name: string, cfg: WasiConfig) {
    exists envSeg, dirSeg ::
      && multiset(envSeg) == multiset(PairCommands(false, cfg.envVars, cfg.envVars.Keys))
      && multiset(dirSeg) == multiset(PairCommands(true, cfg.directories, cfg.directories.Keys))
      && t == Trace(name, cfg, envSeg, dirSeg)
  }

  /** Applying one more pair adds exactly its command. */
  lemma PairCommandsAdd(isDir: bool, m: map<string, string>, done: set<string>, key: string)
    requires key in m && key !in done
    ensures multiset(PairCommands(isDir, m, done + {key}))
         == multiset(PairCommands(isDir, m, done)) + multiset{PairCommand(isDir, key, m[key])}
  {
    var c := PairCommand(isDir, key, m[key]);
    assert c !in PairCommands(isDir, m, done);
    assert PairCommands(isDir, m, done + {key}) == PairCommands(isDir, m, done) + {c};
  }

  /** Passes the arguments to the builder, in order. */
  method ApplyArguments(builder: WasiStateBuilder, args: seq<string>)
    modifies builder
    ensures builder.commands == old(builder.commands) + ArgCommands(args)
  {
    ghost var before := builder.commands;
    for i := 0 to |args|
      invariant builder.commands == before + ArgCommands(args[..i])
    {
      builder.Argument(args[i]);
      assert ArgCommands(args[..i + 1]) == ArgCommands(args[..i]) + [Arg(args[i])];
    }
    assert args[..|args|] == args;
  }

  /** Applies every pair of `m` to the builder, as environment variables or
      as directory mappings, in the map's (unspecified) order; `seg` is the
      list of commands issued. */
  method ApplyPairs(builder: WasiStateBuilder, isDir: bool, m: map<string, string>)
    returns (ghost seg: seq<BuilderCommand>)
    modifies builder
    ensures builder.commands == old(builder.commands) + seg
    ensures multiset(seg) == multiset(PairCommands(isDir, m, m.Keys))
  {
    ghost var before := builder.commands;
    seg := [];
    var keys := m.Keys;
    while keys != {}
      invariant keys <= m.Keys
      invariant builder.commands == before + seg
      invariant multiset(seg) == multiset(PairCommands(isDir, m, m.Keys - keys))
      decreases keys
    {
      var key :| key in keys;
      PairCommandsAdd(isDir, m, m.Keys - keys, key);
      assert (m.Keys - keys) + {key} == m.Keys - (keys - {key});
      if isDir {
        builder.MapDirectory(key, m[key]);
      } else {
        builder.Environment(key, m[key]);
      }
      seg := seg + [PairCommand(isDir, key, m[key])];
      keys := keys - {key};
    }
    assert m.Keys - keys == m.Keys;
  }

  /** wasiEnv: if the engine accepts the configuration, the environment was
      built by a trace of the shape IsWasiTrace describes; otherwise the
      engine's error is returned and no environment. */
  method NewWasiEnv(wrn: Wrn, config: WasiConfig, verdict: Option<Error>)
    returns (env: Option<WasiEnvironment>, err: Option<Error>)
    ensures err == verdict
    ensures env.Some? <==> verdict.None?
    ensures env.Some? ==> IsWasiTrace(env.value.commands, wrn.name, config)
  {
    var builder := new WasiStateBuilder(wrn.name);
    ApplyArguments(builder, config.arguments);
    ghost var envSeg := ApplyPairs(builder, false, config.envVars);
    ghost var dirSeg := ApplyPairs(builder, true, config.directories);

    // Stdio
    if config.captureStdout {
      builder.CaptureStdout();
    }
    if config.captureStderr {
      builder.CaptureStderr();
    }

    // Workdir
    builder.PreopenDirectory(config.workdir);

    assert builder.commands == Trace(wrn.name, config, envSeg, dirSeg);
    env, err := builder.Finalize(verdict);
  }

  /** The segments of a WASI trace. */
  lemma Segments(t: seq<BuilderCommand>, name: string, cfg: WasiConfig)
    returns (envSeg: seq<BuilderCommand>, dirSeg: seq<BuilderCommand>)
    requires IsWasiTrace(t, name, cfg)
    ensures t == Trace(name, cfg, envSeg, dirSeg)
    ensures multiset(envSeg) == multiset(PairCommands(false, cfg.envVars, cfg.envVars.Keys))
    ensures multiset(dirSeg) == multiset(PairCommands(true, cfg.directories, cfg.directories.Keys))
  {
    envSeg, dirSeg :|
      && multiset(envSeg) == multiset(PairCommands(false, cfg.envVars, cfg.envVars.Keys))
      && multiset(dirSeg) == multiset(PairCommands(true, cfg.directories, cfg.directories.Keys))
      && t == Trace(name, cfg, envSeg, dirSeg);
  }

  /** How often a command occurs in a trace, piece by piece. */
  lemma TraceCount(
    name: string, cfg: WasiConfig, envSeg: seq<BuilderCommand>, dirSeg: seq<BuilderCommand>,
    c: BuilderCommand)
    ensures multiset(Trace(name, cfg, envSeg, dirSeg))[c]
         == multiset([Named(name)])[c] + multiset(ArgCommands(cfg.arguments))[c]
          + multiset(envSeg)[c] + multiset(dirSeg)[c]
          + multiset(CaptureCommands(cfg))[c] + multiset([Preopen(cfg.workdir)])[c]
  {
    assert multiset(TraceTail(cfg, envSeg, dirSeg))[c]
        == multiset(envSeg)[c] + multiset(dirSeg)[c]
         + multiset(CaptureCommands(cfg))[c] + multiset([Preopen(cfg.workdir)])[c];
  }

  lemma ArgCommandsCount(args: seq<string>, c: BuilderCommand)
    requires !c.Arg?
    ensures multiset(ArgCommands(args))[c] == 0
  {
    assert c !in ArgCommands(args);
  }

  lemma CaptureCommandsCount(cfg: WasiConfig, c: BuilderCommand)
    ensures multiset(CaptureCommands(cfg))[c]
         == (if c == StdoutCaptured && cfg.captureStdout then 1 else 0)
          + (if c == StderrCaptured && cfg.captureStderr then 1 else 0)
  {
  }

  /** A segment enumerating the pairs of `m` holds each of their commands
      once and nothing else. */
  lemma SegmentCount(isDir: bool, seg: seq<BuilderCommand>, m: map<string, string>, c: BuilderCommand)
    requires multiset(seg) == multiset(PairCommands(isDir, m, m.Keys))
    ensures multiset(seg)[c] == if c in PairCommands(isDir, m, m.Keys) then 1 else 0
    ensures multiset(seg)[c] > 0 ==> (if isDir then c.MapDir? else c.Env?)
  {
  }

  /** How often a command that passes no argument occurs in a trace whose
      segments enumerate the configuration's pairs. */
  lemma TracePieceCount(
    name: string, cfg: WasiConfig, envSeg: seq<BuilderCommand>, dirSeg: seq<BuilderCommand>,
    c: BuilderCommand)
    requires multiset(envSeg) == multiset(PairCommands(false, cfg.envVars, cfg.envVars.Keys))
    requires multiset(dirSeg) == multiset(PairCommands(true, cfg.directories, cfg.directories.Keys))
    requires !c.Arg?
    ensures multiset(Trace(name, cfg, envSeg, dirSeg))[c]
         == (if c == Named(name) then 1 else 0)
          + (if c in PairCommands(false, cfg.envVars, cfg.envVars.Keys) then 1 else 0)
          + (if c in PairCommands(true, cfg.directories, cfg.directories.Keys) then 1 else 0)
          + multiset(CaptureCommands(cfg))[c]
          + (if c == Preopen(cfg.workdir) then 1 else 0)
  {
    TraceCount(name, cfg, envSeg, dirSeg, c);
    ArgCommandsCount(cfg.arguments, c);
    SegmentCount(false, envSeg, cfg.envVars, c);
    SegmentCount(true, dirSeg, cfg.directories, c);
  }

  lemma NamedCount(t: seq<BuilderCommand>, name: string, cfg: WasiConfig, n: string)
    requires IsWasiTrace(t, name, cfg)
    ensures multiset(t)[Named(n)] == if n == name then 1 else 0
  {
    var envSeg, dirSeg := Segments(t, name, cfg);
    TracePieceCount(name, cfg, envSeg, dirSeg, Named(n));
    CaptureCommandsCount(cfg, Named(n));
  }

  lemma PreopenCount(t: seq<BuilderCommand>, name: string, cfg: WasiConfig, d: string)
    requires IsWasiTrace(t, name, cfg)
    ensures multiset(t)[Preopen(d)] == if d == cfg.workdir then 1 else 0
  {
    var envSeg, dirSeg := Segments(t, name, cfg);
    TracePieceCount(name, cfg, envSeg, dirSeg, Preopen(d));
    CaptureCommandsCount(cfg, Preopen(d));
  }

  lemma EnvCount(t: seq<BuilderCommand>, name: string, cfg: WasiConfig, k: string, v: string)
    requires IsWasiTrace(t, name, cfg)
    ensures multiset(t)[Env(k, v)] == if k in cfg.envVars && cfg.envVars[k] == v then 1 else 0
  {
    var envSeg, dirSeg := Segments(t, name, cfg);
    TracePieceCount(name, cfg, envSeg, dirSeg, Env(k, v));
    CaptureCommandsCount(cfg, Env(k, v));
    assert Env(k, v) in PairCommands(false, cfg.envVars, cfg.envVars.Keys)
      <==> k in cfg.envVars && cfg.envVars[k] == v;
  }

  lemma MapDirCount(t: seq<BuilderCommand>, name: string, cfg: WasiConfig, a: string, p: string)
    requires IsWasiTrace(t, name, cfg)
    ensures multiset(t)[MapDir(a, p)] == if a in cfg.directories && cfg.directories[a] == p then 1 else 0
  {
    var envSeg, dirSeg := Segments(t, name, cfg);
    TracePieceCount(name, cfg, envSeg, dirSeg, MapDir(a, p));
    CaptureCommandsCount(cfg, MapDir(a, p));
    assert MapDir(a, p) in PairCommands(true, cfg.directories, cfg.directories.Keys)
      <==> a in cfg.directories && cfg.directories[a] == p;
  }

  /** A command found at two distinct positions occurs at least twice. */
  lemma OnlyAt(t: seq<BuilderCommand>, i: nat, j: nat)
    requires i < |t| && j < |t| && i != j
    requires t[i] == t[j]
    ensures multiset(t)[t[i]] >= 2
  {
    var lo := if i < j then i else j;
    var hi := if i < j then j else i;
    assert t == t[..hi] + t[hi..];
    assert t[lo] in t[..hi];
    assert t[hi] in t[hi..];
  }

  /** The builder is created with the program name, and no later command
      names the program, or any other program. */
  lemma ProgramNameFirst(t: seq<BuilderCommand>, name: string, cfg: WasiConfig)
    requires IsWasiTrace(t, name, cfg)
    ensures |t| >= 2 && t[0] == Named(name)
    ensures forall i :: 0 < i < |t| ==> !t[i].Named?
  {
    var envSeg, dirSeg := Segments(t, name, cfg);
    forall i | 0 < i < |t| ensures !t[i].Named? {
      if t[i].Named? {
        NamedCount(t, name, cfg, t[i].programName);
        OnlyAt(t, 0, i);
      }
    }
  }

  /** The working directory is pre-opened by the last command, and by no
      other. */
  lemma WorkdirPreopenedLast(t: seq<BuilderCommand>, name: string, cfg: WasiConfig)
    requires IsWasiTrace(t, name, cfg)
    ensures |t| >= 2 && t[|t| - 1] == Preopen(cfg.workdir)
    ensures forall i :: 0 <= i < |t| - 1 ==> !t[i].Preopen?
  {
    var envSeg, dirSeg := Segments(t, name, cfg);
    forall i | 0 <= i < |t| - 1 ensures !t[i].Preopen? {
      if t[i].Preopen? {
        PreopenCount(t, name, cfg, t[i].dir);
        OnlyAt(t, |t| - 1, i);
      }
    }
  }

  /** The arguments carried by a command list, in order. */
  function ArgsOf(t: seq<BuilderCommand>): seq<string> {
    if t == [] then []
    else (if t[0].Arg? then [t[0].arg] else []) + ArgsOf(t[1..])
  }

  lemma {:induction false} ArgsOfConcat(a: seq<BuilderCommand>, b: seq<BuilderCommand>)
    ensures ArgsOf(a + b) == ArgsOf(a) + ArgsOf(b)
  {
    if a == [] {
      assert a + b == b;
    } else {
      var head := if a[0].Arg? then [a[0].arg] else [];
      assert (a + b)[0] == a[0];
      assert (a + b)[1..] == a[1..] + b;
      ArgsOfConcat(a[1..], b);
      calc {
        ArgsOf(a + b);
        head + ArgsOf(a[1..] + b);
        head + (ArgsOf(a[1..]) + ArgsOf(b));
        ArgsOf(a) + ArgsOf(b);
      }
    }
  }

  lemma {:induction false} ArgsOfNone(t: seq<BuilderCommand>)
    requires forall c :: c in t ==> !c.Arg?
    ensures ArgsOf(t) == []
  {
    if t != [] {
      assert t[0] in t;
      ArgsOfNone(t[1..]);
    }
  }

  lemma {:induction false} ArgsOfArgCommands(args: seq<string>)
    ensures ArgsOf(ArgCommands(args)) == args
  {
    if args != [] {
      assert ArgCommands(args)[1..] == ArgCommands(args[1..]);
      ArgsOfArgCommands(args[1..]);
    }
  }

  /** The commands after the arguments pass no argument. */
  lemma TailHasNoArg(cfg: WasiConfig, envSeg: seq<BuilderCommand>, dirSeg: seq<BuilderCommand>)
    requires multiset(envSeg) == multiset(PairCommands(false, cfg.envVars, cfg.envVars.Keys))
    requires multiset(dirSeg) == multiset(PairCommands(true, cfg.directories, cfg.directories.Keys))
    ensures ArgsOf(TraceTail(cfg, envSeg, dirSeg)) == []
  {
    var tail := TraceTail(cfg, envSeg, dirSeg);
    forall c | c in tail ensures !c.Arg? {
      if c.Arg? {
        assert multiset(tail)[c] > 0;
        assert multiset(tail) == multiset(envSeg) + multiset(dirSeg)
          + multiset(CaptureCommands(cfg)) + multiset([Preopen(cfg.workdir)]);
        SegmentCount(false, envSeg, cfg.envVars, c);
        SegmentCount(true, dirSeg, cfg.directories, c);
        CaptureCommandsCount(cfg, c);
      }
    }
    ArgsOfNone(tail);
  }

  /** The arguments are passed in their given order, right after the
      program name, and no other command passes an argument. */
  lemma ArgumentsInOrder(t: seq<BuilderCommand>, name: string, cfg: WasiConfig)
    requires IsWasiTrace(t, name, cfg)
    ensures ArgsOf(t) == cfg.arguments
    ensures forall i :: 0 <= i < |cfg.arguments| ==> 1 + i < |t| && t[1 + i] == Arg(cfg.arguments[i])
  {
    var envSeg, dirSeg := Segments(t, name, cfg);
    var args := ArgCommands(cfg.arguments);
    var tail := TraceTail(cfg, envSeg, dirSeg);
    TailHasNoArg(cfg, envSeg, dirSeg);
    ArgsOfNone([Named(name)]);
    ArgsOfConcat([Named(name)] + args, tail);
    ArgsOfConcat([Named(name)], args);
    ArgsOfArgCommands(cfg.arguments);
    forall i | 0 <= i < |cfg.arguments| ensures 1 + i < |t| && t[1 + i] == Arg(cfg.arguments[i]) {
      assert t[1 + i] == args[i];
    }
  }

  /** Each environment variable is applied exactly once, and every
      environment command applies a pair of the configuration. */
  lemma EnvVarsAppliedOnce(t: seq<BuilderCommand>, name: string, cfg: WasiConfig)
    requires IsWasiTrace(t, name, cfg)
    ensures forall k :: k in cfg.envVars ==> multiset(t)[Env(k, cfg.envVars[k])] == 1
    ensures forall i :: 0 <= i < |t| && t[i].Env? ==>
      t[i].key in cfg.envVars && cfg.envVars[t[i].key] == t[i].value
  {
    forall k | k in cfg.envVars ensures multiset(t)[Env(k, cfg.envVars[k])] == 1 {
      EnvCount(t, name, cfg, k, cfg.envVars[k]);
    }
    forall i | 0 <= i < |t| && t[i].Env?
      ensures t[i].key in cfg.envVars && cfg.envVars[t[i].key] == t[i].value
    {
      assert t[i] in multiset(t);
      EnvCount(t, name, cfg, t[i].key, t[i].value);
    }
  }

  /** Each directory mapping is applied exactly once, and every mapping
      command applies a pair of the configuration. */
  lemma DirectoriesMappedOnce(t: seq<BuilderCommand>, name: string, cfg: WasiConfig)
    requires IsWasiTrace(t, name, cfg)
    ensures forall a :: a in cfg.directories ==> multiset(t)[MapDir(a, cfg.directories[a])] == 1
    ensures forall i :: 0 <= i < |t| && t[i].MapDir? ==>
      t[i].alias in cfg.directories && cfg.directories[t[i].alias] == t[i].path
  {
    forall a | a in cfg.directories ensures multiset(t)[MapDir(a, cfg.directories[a])] == 1 {
      MapDirCount(t, name, cfg, a, cfg.directories[a]);
    }
    forall i | 0 <= i < |t| && t[i].MapDir?
      ensures t[i].alias in cfg.directories && cfg.directories[t[i].alias] == t[i].path
    {
      assert t[i] in multiset(t);
      MapDirCount(t, name, cfg, t[i].alias, t[i].path);
    }
  }

  /** Standard output and standard error are captured (once) exactly when
      the configuration asks for it. */
  lemma CaptureIffFlag(t: seq<BuilderCommand>, name: string, cfg: WasiConfig)
    requires IsWasiTrace(t, name, cfg)
    ensures multiset(t)[StdoutCaptured] == if cfg.captureStdout then 1 else 0
    ensures multiset(t)[StderrCaptured] == if cfg.captureStderr then 1 else 0
  {
    var envSeg, dirSeg := Segments(t, name, cfg);
    TracePieceCount(name, cfg, envSeg, dirSeg, StdoutCaptured);
    TracePieceCount(name, cfg, envSeg, dirSeg, StderrCaptured);
    CaptureCommandsCount(cfg, StdoutCaptured);
    CaptureCommandsCount(cfg, StderrCaptured);
  }
}
