/** The `Logger` facade: per-environment default configuration, the sinks a
    logger is configured with, and the process-wide registry of queue
    listeners (one background worker per logger name). */
module Logging {
  import opened Common
  import Partition
  import opened ParquetHandler

  const DefaultFormat: string := "%(asctime)s [%(levelname)s] %(name)s: %(message)s"
  const DefaultDetailedFormat: string :=
    "%(asctime)s [%(levelname)s] %(name)s (%(pathname)s:%(lineno)d - %(funcName)s): %(message)s"
  /** Where the columnar handler of every logger keeps its partitions. */
  const ParquetBasePath: string := "~/.ineeji/logs"

  /** The constructor's keyword arguments. */
  datatype Config = Config(
    level: int,
    logFile: Option<string>,
    consoleOutput: bool,
    formatString: Option<string>,
    detailedFormatString: Option<string>,
    parquetLogging: bool,
    projectName: Option<string>,
    env: string,
    coloredConsole: bool,
    asyncLogging: bool,
    parquetFlushThreshold: int)

  predicate KnownEnv(env: string)
  {
    env == "development" || env == "test" || env == "production"
  }

  /** `get_default_config`: the configuration of a named environment, the
      development one for any other name. */
  function DefaultConfig(env: string, today: Partition.Date): (c: Config)
    requires Partition.ValidDate(today)
    ensures c.env == (if KnownEnv(env) then env else "development")
    ensures c.logFile == Some("logs/" + c.env + "/" + Partition.DateStamp(today) + "/app.log")
    ensures c.parquetLogging && c.asyncLogging && c.parquetFlushThreshold >= 1
    ensures c.projectName.None?
    ensures c.consoleOutput <==> c.env != "production"
    ensures c.level >= WARNING <==> c.env == "production"
  {
    var e := if KnownEnv(env) then env else "development";
    var file := Some("logs/" + e + "/" + Partition.DateStamp(today) + "/app.log");
    if e == "test" then
      Config(INFO, file, true, Some(DefaultFormat), Some(DefaultDetailedFormat), true, None, "test", true, true, 10)
    else if e == "production" then
      Config(WARNING, file, false, Some(DefaultFormat), Some(DefaultDetailedFormat), true, None, "production", false, true, 30)
    else
      Config(DEBUG, file, true, Some(DefaultFormat), Some(DefaultDetailedFormat), true, None, "development", true, true, 20)
  }

  /** An unknown environment name gets exactly the development configuration. */
  lemma DefaultConfigFallback(env: string, today: Partition.Date)
    requires Partition.ValidDate(today) && !KnownEnv(env)
    ensures DefaultConfig(env, today) == DefaultConfig("development", today)
  {
  }

  /** `project_name if project_name else Path.cwd().name`. */
  function ProjectNameOf(projectName: Option<string>, cwdName: string): (p: string)
    ensures Truthy(projectName) ==> p == projectName.value
    ensures !Truthy(projectName) ==> p == cwdName
  {
    if Truthy(projectName) then projectName.value else cwdName
  }

  /** The project part of a columnar partition path is empty exactly when no
      project name is given and the working directory has no name (it is
      the root); a given name is always used as it is. */
  lemma ProjectNameEmpty(projectName: Option<string>, cwdName: string)
    ensures ProjectNameOf(projectName, cwdName) == "" <==> !Truthy(projectName) && cwdName == ""
  {
  }

  /** What a sink is, without the identity of its handler object. */
  datatype SinkKind =
    | ConsoleKind(colored: bool)
    | TextFileKind(path: string)
    | ColumnarKind(basePath: string, env: string, projectName: string, flushThreshold: int)

  /** A sink the constructor attaches: the console, a text file, or a
      columnar handler object. */
  datatype Sink =
    | Console(colored: bool)
    | TextFile(path: string)
    | Columnar(handler: ParquetLogHandler)

  function KindOf(s: Sink): SinkKind
  {
    match s
    case Console(c) => ConsoleKind(c)
    case TextFile(p) => TextFileKind(p)
    case Columnar(h) => ColumnarKind(h.basePath, h.env, h.projectName, h.flushThreshold)
  }

  function Kinds(ss: seq<Sink>): (ks: seq<SinkKind>)
    ensures |ks| == |ss|
    ensures forall i :: 0 <= i < |ss| ==> ks[i] == KindOf(ss[i])
  {
    if ss == [] then [] else [KindOf(ss[0])] + Kinds(ss[1..])
  }

  /** The sinks a configuration asks for, in the order they are attached:
      console, then text file, then columnar storage. */
  function PlannedSinks(c: Config, project: string): seq<SinkKind>
  {
    (if c.consoleOutput then [ConsoleKind(c.coloredConsole)] else [])
    + (if Truthy(c.logFile) then [TextFileKind(c.logFile.value)] else [])
    + (if c.parquetLogging then [ColumnarKind(ParquetBasePath, c.env, project, c.parquetFlushThreshold)] else [])
  }

  /** The position of a kind of sink in the attachment order. */
  function Rank(k: SinkKind): nat
  {
    match k
    case ConsoleKind(_) => 0
    case TextFileKind(_) => 1
    case ColumnarKind(_, _, _, _) => 2
  }

  /** Each option switches on exactly its own sink, and the sinks come in the
      fixed order console, text file, columnar storage, each at most once. */
  lemma PlannedSinksSelection(c: Config, project: string)
    ensures var ks := PlannedSinks(c, project);
      && (ConsoleKind(c.coloredConsole) in ks <==> c.consoleOutput)
      && (forall k :: k in ks && k.ConsoleKind? ==> k == ConsoleKind(c.coloredConsole))
      && (Truthy(c.logFile) ==> TextFileKind(c.logFile.value) in ks)
      && (forall k :: k in ks && k.TextFileKind? ==> Truthy(c.logFile) && k == TextFileKind(c.logFile.value))
      && (ColumnarKind(ParquetBasePath, c.env, project, c.parquetFlushThreshold) in ks <==> c.parquetLogging)
      && (forall k :: k in ks && k.ColumnarKind? ==> k == ColumnarKind(ParquetBasePath, c.env, project, c.parquetFlushThreshold))
      && (forall i, j :: 0 <= i < j < |ks| ==> Rank(ks[i]) < Rank(ks[j]))
  {
  }

  /** A `QueueListener`: the worker that drains one logger's queue into its
      sinks. `name` is the logger it was started for. */
  class Listener {
    ghost const name: string
    const sinks: seq<Sink>
    var alive: bool

    constructor Start(name: string, sinks: seq<Sink>)
      ensures this.name == name && this.sinks == sinks && alive
    {
      this.name := name;
      this.sinks := sinks;
      alive := true;
    }

    method Stop()
      modifies this
      ensures !alive
    {
      alive := false;
    }
  }

  /** A handler attached to the standard library's logger: a sink directly,
      or the queue feeding a listener. */
  datatype Attached = Direct(sink: Sink) | Queued(listener: Listener)

  /** The standard library's logger of one name (`logging.getLogger(name)`). */
  class StdLogger {
    const name: string
    var level: int
    var propagate: bool
    var handlers: seq<Attached>

    constructor (name: string)
      ensures this.name == name && level == 0 && propagate && handlers == []
    {
      this.name := name;
      level := 0;
      propagate := true;
      handlers := [];
    }

    /** Removes every handler, one at a time, iterating over a copy. */
    method RemoveAllHandlers()
      modifies this
      ensures handlers == [] && level == old(level) && propagate == old(propagate)
    {
      var copy := handlers;
      var i := 0;
      while i < |copy|
        invariant 0 <= i <= |copy| && handlers == copy[i..]
        invariant level == old(level) && propagate == old(propagate)
      {
        handlers := handlers[1..];
        i := i + 1;
      }
    }

    /** Attaches each sink directly, in order. */
    method AddDirect(sinks: seq<Sink>)
      modifies this
      ensures handlers == old(handlers) + Directs(sinks)
      ensures level == old(level) && propagate == old(propagate)
    {
      var i := 0;
      while i < |sinks|
        invariant 0 <= i <= |sinks| && handlers == old(handlers) + Directs(sinks[..i])
        invariant level == old(level) && propagate == old(propagate)
      {
        assert Directs(sinks[..i + 1]) == Directs(sinks[..i]) + [Direct(sinks[i])];
        handlers := handlers + [Direct(sinks[i])];
        i := i + 1;
      }
      assert sinks[..i] == sinks;
    }
  }

  /** `Logger._listeners`: the listener of each logger name. `started` is
      every listener ever registered. */
  class ListenerRegistry {
    var listeners: map<string, Listener>
    ghost var started: set<Listener>

    /** Every registered listener is running and registered under its own
        name, and every running listener is the registered one of its name:
        no worker runs unregistered. */
    ghost predicate Valid()
      reads this, started
    {
      && (forall n :: n in listeners ==> listeners[n] in started && listeners[n].alive && listeners[n].name == n)
      && (forall l :: l in started && l.alive ==> l.name in listeners && listeners[l.name] == l)
    }

    constructor ()
      ensures listeners == map[] && started == {} && Valid()
    {
      listeners := map[];
      started := {};
    }

    /** Lines 292-295, corrected: the listener registered under `name`, if
        any, is removed from the registry and stopped. */
    method Detach(name: string)
      requires Valid()
      modifies this, started
      ensures Valid() && started == old(started)
      ensures listeners == old(listeners) - {name}
      ensures name in old(listeners) ==> !old(listeners[name]).alive
      ensures forall l :: l in started && (name !in old(listeners) || l != old(listeners[name])) ==>
        l.alive == old(l.alive)
    {
      if name in listeners {
        var listener := listeners[name];
        listeners := listeners - {name};
        if listener.alive {
          listener.Stop();
        }
      }
    }

    /** Registers a freshly started listener for `name`. */
    method Register(name: string, listener: Listener)
      requires Valid() && name !in listeners && listener !in started
      requires listener.alive && listener.name == name
      modifies this
      ensures Valid()
      ensures listeners == old(listeners)[name := listener] && started == old(started) + {listener}
    {
      listeners := listeners[name := listener];
      started := started + {listener};
    }

    /** `_stop_all_listeners`, corrected: every registered listener is
        stopped, then the registry is cleared. No worker is left running. */
    method StopAll()
      requires Valid()
      modifies this, started
      ensures Valid() && listeners == map[] && started == old(started)
      ensures forall l :: l in started ==> !l.alive
    {
      var names := listeners.Keys;
      while names != {}
        invariant names <= listeners.Keys && started == old(started)
        invariant forall n :: n in listeners ==> listeners[n] in started && listeners[n].name == n
        invariant forall n :: n in listeners && n in names ==> listeners[n].alive
        invariant forall l :: l in started && l.alive ==> l.name in names && listeners[l.name] == l
        invariant listeners == old(listeners)
        decreases names
      {
        var n :| n in names;
        var listener := listeners[n];
        if listener.alive {
          listener.Stop();
        }
        names := names - {n};
      }
      listeners := map[];
    }
  }

  /** How a call ends: normally, or with the `AttributeError` that a call of
      the missing `QueueListener.is_alive` raises. */
  datatype Outcome = Completed | AttributeError

  /** Lines 292-295 as written. `QueueListener` has `stop` but no
      `is_alive`, so once a listener is popped the liveness test raises: the
      listener leaves the registry still running and the constructor fails. */
  method DetachAsWritten(registry: ListenerRegistry, name: string) returns (o: Outcome)
    modifies registry
    ensures registry.listeners == old(registry.listeners) - {name} && registry.started == old(registry.started)
    ensures o == AttributeError <==> name in old(registry.listeners)
    ensures forall l :: l in registry.started ==> l.alive == old(l.alive)
  {
    o := Completed;
    if name in registry.listeners {
      registry.listeners := registry.listeners - {name};
      o := AttributeError;
    }
  }

  /** `_stop_all_listeners` as written: for every listener the liveness test
      raises and the bare `except` swallows it, so nothing is stopped before
      the registry is cleared. */
  method StopAllAsWritten(registry: ListenerRegistry)
    modifies registry
    ensures registry.listeners == map[] && registry.started == old(registry.started)
    ensures forall l :: l in registry.started ==> l.alive == old(l.alive)
  {
    registry.listeners := map[];
  }

  /** Re-creating logger "app" with the code as written: the construction
      fails, and the first listener keeps running outside the registry. */
  method ReconfigureLeakWitness() returns (registry: ListenerRegistry, first: Listener, o: Outcome)
    ensures o == AttributeError
    ensures first.alive && first in registry.started && first.name !in registry.listeners
    ensures !registry.Valid()
  {
    registry := new ListenerRegistry();
    first := new Listener.Start("app", [Console(true)]);
    registry.Register("app", first);
    o := DetachAsWritten(registry, "app");
  }

  /** The exit hook as written leaves a registered worker running. */
  method ExitLeakWitness() returns (registry: ListenerRegistry, worker: Listener)
    ensures worker.alive && worker in registry.started && registry.listeners == map[]
    ensures !registry.Valid()
  {
    registry := new ListenerRegistry();
    worker := new Listener.Start("app", [Console(true)]);
    registry.Register("app", worker);
    StopAllAsWritten(registry);
  }

  /** The corrected exit hook stops every worker; running it twice is the
      same as running it once. */
  method StopAllTwice(registry: ListenerRegistry)
    requires registry.Valid()
    modifies registry, registry.started
    ensures registry.Valid() && registry.listeners == map[]
    ensures forall l :: l in registry.started ==> !l.alive
  {
    registry.StopAll();
    registry.StopAll();
  }

  /** At most one worker runs per logger name. */
  lemma OneWorkerPerName(registry: ListenerRegistry, l1: Listener, l2: Listener)
    requires registry.Valid()
    requires l1 in registry.started && l2 in registry.started && l1.alive && l2.alive
    requires l1.name == l2.name
    ensures l1 == l2
  {
  }

  /** The handlers that attach each sink directly. */
  function Directs(ss: seq<Sink>): (hs: seq<Attached>)
    ensures |hs| == |ss| && forall i :: 0 <= i < |ss| ==> hs[i] == Direct(ss[i])
  {
    seq(|ss|, i requires 0 <= i < |ss| => Direct(ss[i]))
  }

  /** Lines 305-344: the console sink, the text file sink when a path is
      given, and a new columnar handler when asked for, in that order. */
  method BuildSinks(config: Config, project: string, handlers: HandlerRegistry) returns (sinks: seq<Sink>)
    requires handlers.Valid()
    modifies handlers
    ensures handlers.Valid()
    ensures Kinds(sinks) == PlannedSinks(config, project)
    ensures !config.parquetLogging ==> handlers.instances == old(handlers.instances)
    ensures config.parquetLogging ==>
      && |handlers.instances| == |old(handlers.instances)| + 1
      && handlers.instances[..|old(handlers.instances)|] == old(handlers.instances)
      && var h := handlers.instances[|old(handlers.instances)|];
         fresh(h) && h.buffer == [] && sinks[|sinks| - 1] == Columnar(h)
  {
    var columnar: seq<Sink> := [];
    if config.parquetLogging {
      var h := new ParquetLogHandler(handlers, ParquetBasePath, config.env, project, config.parquetFlushThreshold);
      columnar := [Columnar(h)];
      PrefixOfAppend(old(handlers.instances), h);
    }
    sinks := FixedSinks(config) + columnar;
    BuiltKinds(config, project, columnar);
  }

  /** The sinks that need no handler object: console, then text file. */
  function FixedSinks(c: Config): seq<Sink>
  {
    (if c.consoleOutput then [Console(c.coloredConsole)] else [])
    + (if Truthy(c.logFile) then [TextFile(c.logFile.value)] else [])
  }

  lemma BuiltKinds(c: Config, project: string, columnar: seq<Sink>)
    requires Kinds(columnar) ==
      (if c.parquetLogging then [ColumnarKind(ParquetBasePath, c.env, project, c.parquetFlushThreshold)] else [])
    ensures Kinds(FixedSinks(c) + columnar) == PlannedSinks(c, project)
  {
    var console: seq<Sink> := if c.consoleOutput then [Console(c.coloredConsole)] else [];
    var file: seq<Sink> := if Truthy(c.logFile) then [TextFile(c.logFile.value)] else [];
    assert Kinds(console) == (if c.consoleOutput then [ConsoleKind(c.coloredConsole)] else []);
    assert Kinds(file) == (if Truthy(c.logFile) then [TextFileKind(c.logFile.value)] else []);
    KindsAppend(console, file);
    KindsAppend(console + file, columnar);
  }

  lemma PrefixOfAppend<T>(s: seq<T>, x: T)
    ensures (s + [x])[..|s|] == s
  {
  }

  lemma KindsAppend(a: seq<Sink>, b: seq<Sink>)
    ensures Kinds(a + b) == Kinds(a) + Kinds(b)
  {
    var l, r := Kinds(a + b), Kinds(a) + Kinds(b);
    forall i | 0 <= i < |a + b| ensures l[i] == r[i] {
      if i < |a| {
        assert (a + b)[i] == a[i] && r[i] == Kinds(a)[i];
      } else {
        assert (a + b)[i] == b[i - |a|] && r[i] == Kinds(b)[i - |a|];
      }
    }
  }

  lemma RemoveAfterUpdate<K, V>(m: map<K, V>, k: K, v: V)
    requires k !in m
    ensures m[k := v] - {k} == m
  {
  }

  /** Lines 280-295 and 346-373 for the sinks already built: the logger's
      level is set and propagation turned off, its old handlers are removed,
      the old listener of the name is stopped and unregistered, and the sinks
      are attached behind a fresh listener when asynchronous, directly
      otherwise. */
  method Install(name: string, level: int, async: bool, sinks: seq<Sink>, std: StdLogger, registry: ListenerRegistry)
    requires std.name == name && registry.Valid()
    modifies std, registry, registry.started
    ensures registry.Valid()
    ensures std.level == level && !std.propagate
    // the old worker of this name is stopped; no other worker is touched
    ensures name in old(registry.listeners) ==> !old(registry.listeners[name]).alive
    ensures forall l :: l in old(registry.started) && (name !in old(registry.listeners) || l != old(registry.listeners[name])) ==>
      l.alive == old(l.alive)
    ensures registry.listeners - {name} == old(registry.listeners) - {name}
    // the new sinks, attached once
    ensures if async && sinks != [] then
        && name in registry.listeners && fresh(registry.listeners[name])
        && registry.listeners[name].sinks == sinks
        && std.handlers == [Queued(registry.listeners[name])]
      else
        name !in registry.listeners && std.handlers == Directs(sinks)
  {
    std.level := level;
    std.propagate := false;
    std.RemoveAllHandlers();
    registry.Detach(name);
    Attach(name, async, sinks, std, registry);
  }

  /** Lines 346-373 on a logger with no handlers and no listener: the sinks
      go behind a fresh, registered listener, or are attached directly. */
  method Attach(name: string, async: bool, sinks: seq<Sink>, std: StdLogger, registry: ListenerRegistry)
    requires registry.Valid() && name !in registry.listeners && std.handlers == []
    modifies std, registry
    ensures registry.Valid()
    ensures std.level == old(std.level) && std.propagate == old(std.propagate)
    ensures registry.listeners - {name} == old(registry.listeners)
    ensures if async && sinks != [] then
        && name in registry.listeners && fresh(registry.listeners[name])
        && registry.listeners[name].sinks == sinks
        && std.handlers == [Queued(registry.listeners[name])]
      else
        name !in registry.listeners && std.handlers == Directs(sinks)
  {
    if async && sinks != [] {
      var listener := new Listener.Start(name, sinks);
      std.handlers := std.handlers + [Queued(listener)];
      registry.Register(name, listener);
      RemoveAfterUpdate(old(registry.listeners), name, listener);
    } else {
      std.AddDirect(sinks);
    }
  }

  /** The `Logger` facade. `sinks` is the list of handlers its constructor
      built. */
  class Logger {
    const name: string
    const asyncLogging: bool
    const projectName: string
    const formatString: string
    const detailedFormatString: string
    const sinks: seq<Sink>
    const std: StdLogger

    /** Configures the logger `name`: level and propagation are set, every
        old handler is removed, the old listener of the name is stopped and
        unregistered, and the planned sinks are attached, behind a fresh
        listener when asynchronous, directly otherwise. */
    constructor (name: string, config: Config, std: StdLogger, registry: ListenerRegistry,
                 handlers: HandlerRegistry, cwdName: string)
      requires std.name == name && registry.Valid() && handlers.Valid()
      modifies std, registry, registry.started, handlers
      ensures registry.Valid() && handlers.Valid()
      ensures this.name == name && this.std == std && asyncLogging == config.asyncLogging
      ensures std.level == config.level && !std.propagate
      ensures projectName == ProjectNameOf(config.projectName, cwdName)
      ensures formatString == (if config.formatString.Some? then config.formatString.value else DefaultFormat)
      ensures detailedFormatString ==
        (if config.detailedFormatString.Some? then config.detailedFormatString.value else DefaultDetailedFormat)
      ensures Kinds(sinks) == PlannedSinks(config, projectName)
      // the old worker of this name is stopped; no other worker is touched
      ensures name in old(registry.listeners) ==> !old(registry.listeners[name]).alive
      ensures forall l :: l in old(registry.started) && (name !in old(registry.listeners) || l != old(registry.listeners[name])) ==>
        l.alive == old(l.alive)
      ensures registry.listeners - {name} == old(registry.listeners) - {name}
      // the new sinks, attached once
      ensures if config.asyncLogging && sinks != [] then
          && name in registry.listeners && fresh(registry.listeners[name])
          && registry.listeners[name].sinks == sinks
          && std.handlers == [Queued(registry.listeners[name])]
        else
          name !in registry.listeners && std.handlers == Directs(sinks)
      ensures !config.parquetLogging ==> handlers.instances == old(handlers.instances)
      ensures config.parquetLogging ==>
        && |handlers.instances| == |old(handlers.instances)| + 1
        && handlers.instances[..|old(handlers.instances)|] == old(handlers.instances)
        && var h := handlers.instances[|old(handlers.instances)|];
           fresh(h) && h.buffer == [] && sinks != [] && sinks[|sinks| - 1] == Columnar(h)
    {
      this.name := name;
      this.asyncLogging := config.asyncLogging;
      this.std := std;
      var project := ProjectNameOf(config.projectName, cwdName);
      this.projectName := project;
      this.formatString := if config.formatString.Some? then config.formatString.value else DefaultFormat;
      this.detailedFormatString :=
        if config.detailedFormatString.Some? then config.detailedFormatString.value else DefaultDetailedFormat;
      var built := BuildSinks(config, project, handlers);
      this.sinks := built;
      new;
      Install(name, config.level, config.asyncLogging, built, std, registry);
    }
  }
}
