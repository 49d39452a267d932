/** The alternate router (core/CommandRunner.kt): the same decisions as
    `CliApp.executeCommand`, reporting failures through the help
    formatter instead. */
module Runner {
  import opened Strings
  import opened Schema
  import opened Plugins
  import Dispatch
  import opened App

  /** Where `CommandRunner.execute` sends a token list. */
  datatype RunnerRoute =
    | Returned                                  // nothing to run
    | GroupHelpShown(group: nat)                // `showGroupHelp`
    | ApplicationHelpShown(groupName: string)   // "Group not found" warning, `showApplicationHelp`
    | CommandNotFoundShown(commandName: string, group: nat)  // `showCommandNotFound`
    | Executed(group: nat, command: nat, rest: seq<string>)

  function RunnerRouteOf(groups: seq<CommandGroup>, args: seq<string>): RunnerRoute
  {
    if |args| == 0 then Returned
    else
      var groupName := args[0];
      var help := if |args| == 2 && IsHelpFlag(args[1]) then FindGroup(groups, groupName) else None;
      if help.Some? then GroupHelpShown(help.value)
      else if |args| < 2 then Returned
      else
        var commandName := args[1];
        match FindGroup(groups, groupName)
        case None => ApplicationHelpShown(groupName)
        case Some(g) =>
          match FindCommand(groups[g], commandName)
          case None => CommandNotFoundShown(commandName, g)
          case Some(c) => Executed(g, c, args[2..])
  }

  /** For the same tokens both routers reach the same command with the same
      remaining tokens, and fail in the same cases; only the help printed on
      failure differs. */
  lemma RunnerAgreesWithApp(groups: seq<CommandGroup>, args: seq<string>)
    ensures var r := RunnerRouteOf(groups, args);
      var a := AppRoute(groups, args);
      && (r == Returned <==> a == NoDispatch)
      && (forall g :: r == GroupHelpShown(g) <==> a == GroupHelp(g))
      && (forall n :: r == ApplicationHelpShown(n) <==> a == GroupNotFound(n))
      && (forall n, g :: r == CommandNotFoundShown(n, g) <==> a == CommandNotFound(g, n))
      && (forall g, c, rest :: r == Executed(g, c, rest) <==> a == Dispatched(g, c, rest))
  {
  }

  /** An empty token list, or a lone group token, returns without dispatch. */
  lemma FewTokensReturn(groups: seq<CommandGroup>, args: seq<string>)
    requires |args| < 2
    ensures RunnerRouteOf(groups, args) == Returned
  {
  }

  /** An unknown group shows the application help; an unknown command in a
      known group reports it with that group; neither runs a command. */
  lemma RunnerLookupFailures(groups: seq<CommandGroup>, args: seq<string>)
    requires |args| >= 2
    ensures Unnamed(GroupNames(groups), args[0]) ==>
      RunnerRouteOf(groups, args) == ApplicationHelpShown(args[0])
    ensures forall g: nat :: (FirstNamed(GroupNames(groups), args[0], g)
      && Unnamed(CommandNames(groups[g].commands), args[1])
      && !(|args| == 2 && IsHelpFlag(args[1]))
      ==> RunnerRouteOf(groups, args) == CommandNotFoundShown(args[1], g))
  {
    forall g: nat | FirstNamed(GroupNames(groups), args[0], g)
      && Unnamed(CommandNames(groups[g].commands), args[1])
      && !(|args| == 2 && IsHelpFlag(args[1]))
      ensures RunnerRouteOf(groups, args) == CommandNotFoundShown(args[1], g)
    {
      FirstNamedUnique(GroupNames(groups), args[0], g, FindGroup(groups, args[0]).value);
    }
  }

  /** `CommandRunner.execute(app, args)`. */
  method Execute(app: CliApp, args: seq<string>)
    returns (route: RunnerRoute, exec: Maybe<Dispatch.ExecOutcome>, trace: seq<Event>)
    ensures route == RunnerRouteOf(app.groups, args)
    ensures exec == RouteExec(app.groups, app.pluginManager.plugins, args)
    ensures trace == RouteTrace(app.groups, app.pluginManager.plugins, args)
  {
    RunnerAgreesWithApp(app.groups, args);
    exec, trace := None, [];
    if |args| == 0 {
      route := Returned;
      return;
    }
    var groupName := args[0];
    if |args| == 2 && (args[1] == "-h" || args[1] == "--help") {
      var found := FindGroup(app.groups, groupName);
      if found.Some? {
        route := GroupHelpShown(found.value);
        return;
      }
    }
    if |args| < 2 {
      route := Returned;
      return;
    }
    var commandName := args[1];
    var cmdArgs := args[2..];
    var g := FindGroup(app.groups, groupName);
    if g.None? {
      route := ApplicationHelpShown(groupName);
      return;
    }
    var c := FindCommand(app.groups[g.value], commandName);
    if c.None? {
      route := CommandNotFoundShown(commandName, g.value);
      return;
    }
    var ctx, o, t := Dispatch.Execute(app.groups[g.value].commands[c.value], cmdArgs, app.pluginManager);
    route, exec, trace := Executed(g.value, c.value, cmdArgs), Some(o), t;
  }
}
