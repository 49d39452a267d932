/** The application object and its router (core/CliApp.kt): global flags,
    `--quiet` stripping, group help, first-match lookup of group and
    command, dispatch, and the plugin lifecycle guards. Printed help and
    error messages become outcome values. */
module App {
  import opened Strings
  import opened Schema
  import opened Plugins
  import opened Dispatch

  // ---------------------------------------------------------------------
  // Lookup

  /** `k` is the first position holding `name`. */
  predicate FirstNamed(names: seq<string>, name: string, k: nat)
  {
    k < |names| && names[k] == name && forall j :: 0 <= j < k ==> names[j] != name
  }

  predicate Unnamed(names: seq<string>, name: string)
  {
    forall j :: 0 <= j < |names| ==> names[j] != name
  }

  /** `groups.find { it.name == name }`. */
  function FindGroup(groups: seq<CommandGroup>, name: string): (r: Maybe<nat>)
    ensures r.None? <==> Unnamed(GroupNames(groups), name)
    ensures r.Some? ==> FirstNamed(GroupNames(groups), name, r.value)
  {
    IndexOf(GroupNames(groups), name)
  }

  /** `group.commands.find { it.name == name }`. */
  function FindCommand(group: CommandGroup, name: string): (r: Maybe<nat>)
    ensures r.None? <==> Unnamed(CommandNames(group.commands), name)
    ensures r.Some? ==> FirstNamed(CommandNames(group.commands), name, r.value)
  {
    IndexOf(CommandNames(group.commands), name)
  }

  // ---------------------------------------------------------------------
  // Routing

  predicate IsHelpFlag(t: string)
  {
    t == "-h" || t == "--help"
  }

  /** Where `executeCommand` sends a token list. */
  datatype Route =
    | NoDispatch                                   // nothing to run; returns silently
    | GroupHelp(group: nat)                        // the group's help
    | GroupNotFound(name: string)                  // "Group not found", application help
    | CommandNotFound(group: nat, name: string)    // "Command not found", the group's help
    | Dispatched(group: nat, command: nat, rest: seq<string>)

  /** Lookup failures are reported; only `Dispatched` reaches a command. */
  function AppRoute(groups: seq<CommandGroup>, args: seq<string>): (r: Route)
    ensures r.NoDispatch? <==> |args| < 2
    ensures r.GroupHelp? <==>
      |args| == 2 && IsHelpFlag(args[1]) && !Unnamed(GroupNames(groups), args[0])
    ensures r.GroupHelp? ==> FirstNamed(GroupNames(groups), args[0], r.group)
    ensures r.GroupNotFound? <==> |args| >= 2 && Unnamed(GroupNames(groups), args[0])
    ensures r.GroupNotFound? ==> r.name == args[0]
    ensures r.CommandNotFound? ==>
      |args| >= 2 && r.name == args[1]
      && FirstNamed(GroupNames(groups), args[0], r.group)
      && Unnamed(CommandNames(groups[r.group].commands), args[1])
    ensures r.Dispatched? ==>
      |args| >= 2 && !(|args| == 2 && IsHelpFlag(args[1]))
      && FirstNamed(GroupNames(groups), args[0], r.group)
      && FirstNamed(CommandNames(groups[r.group].commands), args[1], r.command)
      && r.rest == args[2..]
  {
    if |args| == 0 then NoDispatch
    else if |args| == 2 && IsHelpFlag(args[1]) && FindGroup(groups, args[0]).Some? then
      GroupHelp(FindGroup(groups, args[0]).value)
    else if |args| == 1 then NoDispatch
    else match FindGroup(groups, args[0])
      case None => GroupNotFound(args[0])
      case Some(g) =>
        match FindCommand(groups[g], args[1])
        case None => CommandNotFound(g, args[1])
        case Some(c) => Dispatched(g, c, args[2..])
  }

  /** Only one position can be the first holding a name. */
  lemma FirstNamedUnique(names: seq<string>, name: string, j: nat, k: nat)
    requires FirstNamed(names, name, j) && FirstNamed(names, name, k)
    ensures j == k
  {
  }

  /** Two or more routed tokens (other than `<group> -h`) whose group and
      command both exist are dispatched to the first such group and its
      first such command, with the remaining tokens. */
  lemma MatchIsDispatched(groups: seq<CommandGroup>, args: seq<string>, g: nat, c: nat)
    requires |args| >= 2 && !(|args| == 2 && IsHelpFlag(args[1]))
    requires FirstNamed(GroupNames(groups), args[0], g)
    requires FirstNamed(CommandNames(groups[g].commands), args[1], c)
    ensures AppRoute(groups, args) == Dispatched(g, c, args[2..])
  {
    var found := FindGroup(groups, args[0]);
    assert !Unnamed(GroupNames(groups), args[0]);
    FirstNamedUnique(GroupNames(groups), args[0], found.value, g);
    var cmd := FindCommand(groups[g], args[1]);
    assert !Unnamed(CommandNames(groups[g].commands), args[1]);
    FirstNamedUnique(CommandNames(groups[g].commands), args[1], cmd.value, c);
  }

  /** A known group with no command of that name is reported as
      `CommandNotFound` for the first group so named. */
  lemma MissingCommandReported(groups: seq<CommandGroup>, args: seq<string>, g: nat)
    requires |args| >= 2 && !(|args| == 2 && IsHelpFlag(args[1]))
    requires FirstNamed(GroupNames(groups), args[0], g)
    requires Unnamed(CommandNames(groups[g].commands), args[1])
    ensures AppRoute(groups, args) == CommandNotFound(g, args[1])
  {
    var found := FindGroup(groups, args[0]);
    assert !Unnamed(GroupNames(groups), args[0]);
    FirstNamedUnique(GroupNames(groups), args[0], found.value, g);
  }

  /** The dispatch outcome that a route leads to, for these plugins. */
  function RouteExec(groups: seq<CommandGroup>, ps: seq<Plugin>, args: seq<string>): Maybe<ExecOutcome>
  {
    match AppRoute(groups, args)
    case Dispatched(g, c, rest) => Some(Outcome(groups[g].commands[c], rest, ps, ps != []))
    case _ => None
  }

  function RouteTrace(groups: seq<CommandGroup>, ps: seq<Plugin>, args: seq<string>): seq<Event>
  {
    match AppRoute(groups, args)
    case Dispatched(g, c, rest) => ExecTrace(groups[g].commands[c], rest, ps, ps != [])
    case _ => []
  }

  // ---------------------------------------------------------------------
  // `run`

  /** `args.filter { it != "--quiet" }`. */
  function Filtered(args: seq<string>): (r: seq<string>)
    ensures |r| <= |args|
    ensures forall t :: t in r <==> t in args && t != "--quiet"
  {
    if args == [] then []
    else (if args[0] == "--quiet" then [] else [args[0]]) + Filtered(args[1..])
  }

  predicate IsCompletionCommand(args: seq<string>)
  {
    |args| > 0 && args[0] == "completion"
  }

  predicate Quiet(args: seq<string>)
  {
    "--quiet" in args || IsCompletionCommand(args)
  }

  /** The first raw token asks for application help or the version. */
  predicate GlobalFlag(args: seq<string>)
  {
    |args| == 0 || args[0] in ["--help", "-h", "--version", "-v"]
  }

  datatype RunResult =
    | AppHelp
    | VersionShown(text: string)
    | Routed(route: Route, exec: Maybe<ExecOutcome>)

  /** What `run` shows or dispatches. The global flags are looked for in
      the raw tokens; the router sees the tokens without `--quiet`. */
  function RunOutcome(name: string, version: string, groups: seq<CommandGroup>,
                      ps: seq<Plugin>, args: seq<string>): RunResult
  {
    if |args| == 0 || IsHelpFlag(args[0]) then AppHelp
    else if args[0] == "--version" || args[0] == "-v" then VersionShown(name + " version " + version)
    else Routed(AppRoute(groups, Filtered(args)), RouteExec(groups, ps, Filtered(args)))
  }

  /** What `run` invokes: the dispatch (if any) and then, from `finally`,
      the shutdown hooks unless there are no plugins or quiet mode is on. */
  function RunTrace(groups: seq<CommandGroup>, ps: seq<Plugin>, args: seq<string>): seq<Event>
  {
    (if GlobalFlag(args) then [] else RouteTrace(groups, ps, Filtered(args)))
    + (if ps != [] && !Quiet(args) then Calls(OnShutdown, ps, |ps|) else [])
  }

  /** The position of the first plugin with this name. */
  function FindPluginIndex(ps: seq<Plugin>, name: string): (r: Maybe<nat>)
    ensures r.None? <==> Unnamed(Names(ps), name)
    ensures r.Some? ==> FirstNamed(Names(ps), name, r.value)
  {
    IndexOf(Names(ps), name)
  }

  class CliApp {
    const name: string
    const version: string
    const description: string
    const groups: seq<CommandGroup>
    const pluginManager: PluginManager
    var quietMode: bool

    /** `CliApp(name, version = "1.0.0", description = "", groups = emptyList())`,
        with an empty plugin manager of its own and quiet mode off. */
    constructor (name: string, version: string := "1.0.0", description: string := "",
                 groups: seq<CommandGroup> := [])
      ensures this.name == name && this.version == version
      ensures this.description == description && this.groups == groups
      ensures fresh(pluginManager) && pluginManager.plugins == []
      ensures !quietMode
    {
      this.name := name;
      this.version := version;
      this.description := description;
      this.groups := groups;
      pluginManager := new PluginManager();
      quietMode := false;
    }

    method Run(args: seq<string>) returns (outcome: RunResult, trace: seq<Event>)
      modifies this
      ensures quietMode == Quiet(args)
      ensures outcome == RunOutcome(name, version, groups, pluginManager.plugins, args)
      ensures trace == RunTrace(groups, pluginManager.plugins, args)
    {
      quietMode := "--quiet" in args || IsCompletionCommand(args);
      trace := [];
      if |args| == 0 || args[0] == "--help" || args[0] == "-h" {
        outcome := AppHelp;
      } else if args[0] == "--version" || args[0] == "-v" {
        outcome := VersionShown(name + " version " + version);
      } else {
        var route, exec, t := ExecuteCommand(Filtered(args));
        outcome := Routed(route, exec);
        trace := t;
      }
      var down := ShutdownPlugins();
      trace := trace + down;
    }

    method ExecuteCommand(args: seq<string>) returns (route: Route, exec: Maybe<ExecOutcome>, trace: seq<Event>)
      ensures route == AppRoute(groups, args)
      ensures exec == RouteExec(groups, pluginManager.plugins, args)
      ensures trace == RouteTrace(groups, pluginManager.plugins, args)
    {
      exec, trace := None, [];
      if |args| == 0 {
        route := NoDispatch;
        return;
      }
      var groupName := args[0];
      if |args| == 2 && (args[1] == "-h" || args[1] == "--help") {
        var found := FindGroup(groups, groupName);
        if found.Some? {
          route := GroupHelp(found.value);
          return;
        }
      }
      if |args| < 2 {
        route := NoDispatch;
        return;
      }
      var commandName := args[1];
      var cmdArgs := args[2..];
      var g := FindGroup(groups, groupName);
      if g.None? {
        route := GroupNotFound(groupName);
        return;
      }
      var c := FindCommand(groups[g.value], commandName);
      if c.None? {
        route := CommandNotFound(g.value, commandName);
        return;
      }
      var ctx, o, t := Execute(groups[g.value].commands[c.value], cmdArgs, pluginManager);
      route, exec, trace := Dispatched(g.value, c.value, cmdArgs), Some(o), t;
    }

    predicate IsQuietMode()
      reads this
    {
      quietMode
    }

    /** Appends to the manager and answers the app itself. */
    method RegisterPlugin(plugin: Plugin) returns (self: CliApp)
      modifies pluginManager
      ensures pluginManager.plugins == old(pluginManager.plugins) + [plugin]
      ensures self == this
    {
      var _ := pluginManager.Register(plugin);
      self := this;
    }

    /** Appends each of `plugins`, in order, and answers the app itself. */
    method RegisterPlugins(plugins: seq<Plugin>) returns (self: CliApp)
      modifies pluginManager
      ensures pluginManager.plugins == old(pluginManager.plugins) + plugins
      ensures self == this
    {
      for k := 0 to |plugins|
        invariant pluginManager.plugins == old(pluginManager.plugins) + plugins[..k]
      {
        var _ := pluginManager.Register(plugins[k]);
        assert plugins[..k + 1] == plugins[..k] + [plugins[k]];
      }
      self := this;
    }

    /** Initializes the plugins unless there are none or quiet mode is on. */
    method InitializePlugins() returns (trace: seq<Event>)
      ensures trace == if pluginManager.plugins != [] && !quietMode
                       then Calls(OnInitialize, pluginManager.plugins, |pluginManager.plugins|) else []
    {
      trace := [];
      if pluginManager.plugins != [] && !quietMode {
        trace := pluginManager.Initialize();
      }
    }

    /** Shuts the plugins down unless there are none or quiet mode is on. */
    method ShutdownPlugins() returns (trace: seq<Event>)
      ensures trace == if pluginManager.plugins != [] && !quietMode
                       then Calls(OnShutdown, pluginManager.plugins, |pluginManager.plugins|) else []
    {
      trace := [];
      if pluginManager.plugins != [] && !quietMode {
        trace := pluginManager.Shutdown();
      }
    }

    predicate HasPlugins()
      reads pluginManager
    {
      pluginManager.plugins != []
    }

    /** The first registered plugin with this name, if any. */
    function FindPlugin(name: string): (r: Maybe<Plugin>)
      reads pluginManager
      ensures r.None? <==> forall k :: 0 <= k < |pluginManager.plugins| ==> pluginManager.plugins[k].name != name
      ensures r.Some? ==> exists k :: (0 <= k < |pluginManager.plugins|
        && pluginManager.plugins[k] == r.value && r.value.name == name
        && forall j :: 0 <= j < k ==> pluginManager.plugins[j].name != name)
    {
      match FindPluginIndex(pluginManager.plugins, name)
      case Some(k) => Some(pluginManager.plugins[k])
      case None => None
    }
  }

  // ---------------------------------------------------------------------
  // Properties of `run`

  /** No tokens, or `--help`/`-h` first, shows the application help and
      dispatches nothing; the only invocations are the shutdown hooks. */
  lemma HelpDispatchesNothing(name: string, version: string, groups: seq<CommandGroup>,
                              ps: seq<Plugin>, args: seq<string>)
    requires |args| == 0 || IsHelpFlag(args[0])
    ensures RunOutcome(name, version, groups, ps, args) == AppHelp
    ensures forall e :: e in RunTrace(groups, ps, args) ==> e.PluginCall? && e.hook == OnShutdown
  {
  }

  /** `--version`/`-v` first prints exactly `<name> version <version>` and
      dispatches nothing. */
  lemma VersionDispatchesNothing(name: string, version: string, groups: seq<CommandGroup>,
                                 ps: seq<Plugin>, args: seq<string>)
    requires |args| > 0 && (args[0] == "--version" || args[0] == "-v")
    ensures RunOutcome(name, version, groups, ps, args) == VersionShown(name + " version " + version)
    ensures forall e :: e in RunTrace(groups, ps, args) ==> e.PluginCall? && e.hook == OnShutdown
  {
  }

  /** Tokens without `--quiet` reach the router unchanged. */
  lemma {:induction false} FilteredWithoutQuiet(args: seq<string>)
    requires "--quiet" !in args
    ensures Filtered(args) == args
  {
    if args != [] {
      assert "--quiet" !in args[1..];
      FilteredWithoutQuiet(args[1..]);
    }
  }

  /** Filtering keeps the other tokens in their order: a token list with
      `--quiet` put in front routes like the list itself. */
  lemma {:induction false} FilteredDropsLeadingQuiet(args: seq<string>)
    ensures Filtered(["--quiet"] + args) == Filtered(args)
  {
    assert (["--quiet"] + args)[1..] == args;
  }

  /** Filtering distributes over concatenation: each token is kept or
      dropped on its own, and the kept ones stay in their order. */
  lemma {:induction false} FilteredAppend(a: seq<string>, b: seq<string>)
    ensures Filtered(a + b) == Filtered(a) + Filtered(b)
  {
    if a == [] {
      assert a + b == b;
    } else {
      var head := if a[0] == "--quiet" then [] else [a[0]];
      assert (a + b)[0] == a[0];
      assert (a + b)[1..] == a[1..] + b;
      FilteredAppend(a[1..], b);
      assert Filtered(a + b) == head + (Filtered(a[1..]) + Filtered(b));
      assert Filtered(a) == head + Filtered(a[1..]);
    }
  }

  /** A `--quiet` anywhere among other tokens is dropped and the rest is
      routed unchanged: `file create x --quiet` and `file --quiet create x`
      both route as `file create x`. */
  lemma QuietAnywhereIsDropped(a: seq<string>, b: seq<string>)
    requires "--quiet" !in a && "--quiet" !in b
    ensures Filtered(a + ["--quiet"] + b) == a + b
  {
    var q := ["--quiet"];
    assert Filtered(q) == [] by { assert q[1..] == []; }
    FilteredAppend(a, q);
    FilteredWithoutQuiet(a);
    assert Filtered(a + q) == a;
    FilteredAppend(a + q, b);
    FilteredWithoutQuiet(b);
  }

  /** The global flags are looked for before filtering: `--quiet --version`
      is routed (as the lone token `--version`, which dispatches nothing),
      not answered with the version; and it turns quiet mode on. */
  lemma QuietBeforeVersionIsRouted(name: string, version: string, groups: seq<CommandGroup>, ps: seq<Plugin>)
    ensures RunOutcome(name, version, groups, ps, ["--quiet", "--version"]) == Routed(NoDispatch, None)
    ensures Quiet(["--quiet", "--version"])
  {
    var args := ["--quiet", "--version"];
    assert Filtered(args) == ["--version"] by {
      assert Filtered(args[1..]) == ["--version"] by {
        assert args[1..][1..] == [];
      }
    }
  }

  /** A routed dispatch calls only the before- and after-hooks. */
  lemma RouteTraceHooks(groups: seq<CommandGroup>, ps: seq<Plugin>, args: seq<string>)
    ensures forall e :: e in RouteTrace(groups, ps, args) && e.PluginCall? ==>
      e.hook == OnBeforeExecute || e.hook == OnAfterExecute
  {
    match AppRoute(groups, args)
    case Dispatched(g, c, rest) =>
      ExecTraceHooks(groups[g].commands[c], rest, ps, ps != []);
    case _ =>
  }

  /** `run` never initializes plugins, and it shuts them down exactly when
      there are some and quiet mode is off. */
  lemma RunNeverInitializes(groups: seq<CommandGroup>, ps: seq<Plugin>, args: seq<string>)
    ensures forall e :: e in RunTrace(groups, ps, args) && e.PluginCall? ==> e.hook != OnInitialize
    ensures (exists e :: e in RunTrace(groups, ps, args) && e.PluginCall? && e.hook == OnShutdown)
        <==> ps != [] && !Quiet(args)
  {
    var t := RunTrace(groups, ps, args);
    var routed := if GlobalFlag(args) then [] else RouteTrace(groups, ps, Filtered(args));
    assert t == routed + (if ps != [] && !Quiet(args) then Calls(OnShutdown, ps, |ps|) else []);
    if !GlobalFlag(args) {
      RouteTraceHooks(groups, ps, Filtered(args));
    }
    if ps != [] && !Quiet(args) {
      assert t[|routed|] == PluginCall(OnShutdown, 0, Fails(ps[0], OnShutdown));
    }
  }

  // ---------------------------------------------------------------------
  // Properties of the router

  /** A lone group token returns silently. */
  lemma LoneGroupTokenDispatchesNothing(groups: seq<CommandGroup>, g: string)
    ensures AppRoute(groups, [g]) == NoDispatch
  {
  }

  /** Only a dispatched route runs anything: group help, unknown groups and
      unknown commands invoke no action and no hook. */
  lemma LookupFailureRunsNothing(groups: seq<CommandGroup>, ps: seq<Plugin>, args: seq<string>)
    requires !AppRoute(groups, args).Dispatched?
    ensures RouteExec(groups, ps, args) == None
    ensures RouteTrace(groups, ps, args) == []
  {
  }

  /** Group help for a known group wins over looking for a command named
      `-h`; for an unknown group the same tokens report the group missing. */
  lemma HelpFlagAfterGroup(groups: seq<CommandGroup>, g: string, flag: string)
    requires IsHelpFlag(flag)
    ensures Unnamed(GroupNames(groups), g) ==> AppRoute(groups, [g, flag]) == GroupNotFound(g)
    ensures !Unnamed(GroupNames(groups), g) ==> AppRoute(groups, [g, flag]).GroupHelp?
  {
  }

  /** A group shadowed by an earlier group of the same name is never
      reached: neither its help nor its commands. */
  lemma ShadowedGroupUnreachable(groups: seq<CommandGroup>, args: seq<string>, i: nat, j: nat)
    requires i < j < |groups| && groups[i].name == groups[j].name
    ensures var r := AppRoute(groups, args);
      !(r.GroupHelp? && r.group == j) && !(r.CommandNotFound? && r.group == j)
      && !(r.Dispatched? && r.group == j)
  {
    assert GroupNames(groups)[i] == GroupNames(groups)[j];
  }

  /** A matching command receives the tokens after the group and command
      names, and the dispatch is exactly `execute` on them. */
  lemma DispatchPassesRest(groups: seq<CommandGroup>, ps: seq<Plugin>, args: seq<string>)
    requires AppRoute(groups, args).Dispatched?
    ensures var r := AppRoute(groups, args);
      r.rest == args[2..]
      && RouteExec(groups, ps, args) == Some(Outcome(groups[r.group].commands[r.command], args[2..], ps, ps != []))
  {
  }
}
