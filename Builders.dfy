/** The DSL builders (dsl/CommandBuilder.kt, dsl/GroupBuilder.kt,
    dsl/CliBuilder.kt). Each builder holds mutable lists that its calls
    append to. A configuration block, a Kotlin lambda with the builder as
    receiver, is modelled as the sequence of builder calls it makes. */
module Builders {
  import S = Schema
  import opened App

  // ---------------------------------------------------------------------
  // Blocks as call sequences

  /** One call made inside a `command { ... }` block. */
  datatype CommandStep =
    | CallArgument(argument: S.Argument)
    | CallOption(option: S.Option)
    | CallAction(action: S.Action)

  /** One `command(name, description) { ... }` call inside a group block. */
  datatype GroupStep = CallCommand(name: string, description: string, steps: seq<CommandStep>)

  /** One `group(name, description) { ... }` call inside a `cli` block. */
  datatype CliStep = CallGroup(name: string, description: string, steps: seq<GroupStep>)

  function ArgumentAdded(s: CommandStep): seq<S.Argument>
  {
    if s.CallArgument? then [s.argument] else []
  }

  function OptionAdded(s: CommandStep): seq<S.Option>
  {
    if s.CallOption? then [s.option] else []
  }

  /** The arguments a block defines, in call order. */
  function ArgumentsOf(steps: seq<CommandStep>): seq<S.Argument>
  {
    if steps == [] then []
    else ArgumentsOf(steps[..|steps| - 1]) + ArgumentAdded(steps[|steps| - 1])
  }

  /** The options a block defines, in call order. */
  function OptionsOf(steps: seq<CommandStep>): seq<S.Option>
  {
    if steps == [] then []
    else OptionsOf(steps[..|steps| - 1]) + OptionAdded(steps[|steps| - 1])
  }

  /** The action held after running a block on a builder holding `a`. */
  function ActionAfter(a: S.Action, steps: seq<CommandStep>): S.Action
  {
    if steps == [] then a
    else if steps[|steps| - 1].CallAction? then steps[|steps| - 1].action
    else ActionAfter(a, steps[..|steps| - 1])
  }

  predicate SetsNoAction(steps: seq<CommandStep>)
  {
    forall k :: 0 <= k < |steps| ==> !steps[k].CallAction?
  }

  /** The command that `command(name, description) { steps }` adds. */
  function CommandOf(name: string, description: string, steps: seq<CommandStep>): S.Command
  {
    S.Command(name, description, ArgumentsOf(steps), OptionsOf(steps), ActionAfter(S.NoOp, steps))
  }

  /** The commands a group block adds: one per `command` call, in call order. */
  function CommandsOf(steps: seq<GroupStep>): (r: seq<S.Command>)
    ensures |r| == |steps|
    ensures forall k :: 0 <= k < |steps| ==>
      r[k] == CommandOf(steps[k].name, steps[k].description, steps[k].steps)
  {
    seq(|steps|, k requires 0 <= k < |steps| => CommandOf(steps[k].name, steps[k].description, steps[k].steps))
  }

  function GroupOf(name: string, description: string, steps: seq<GroupStep>): S.CommandGroup
  {
    S.CommandGroup(name, description, CommandsOf(steps))
  }

  /** The groups a `cli` block adds: one per `group` call, in call order. */
  function GroupsOf(steps: seq<CliStep>): (r: seq<S.CommandGroup>)
    ensures |r| == |steps|
    ensures forall k :: 0 <= k < |steps| ==>
      r[k] == GroupOf(steps[k].name, steps[k].description, steps[k].steps)
  {
    seq(|steps|, k requires 0 <= k < |steps| => GroupOf(steps[k].name, steps[k].description, steps[k].steps))
  }

  // ---------------------------------------------------------------------
  // Properties of blocks

  /** Defining in two blocks defines the first block's arguments, then the
      second's. */
  lemma {:induction false} ArgumentsOfAppend(a: seq<CommandStep>, b: seq<CommandStep>)
    ensures ArgumentsOf(a + b) == ArgumentsOf(a) + ArgumentsOf(b)
    decreases |b|
  {
    if b != [] {
      var init := b[..|b| - 1];
      assert (a + b)[..|a + b| - 1] == a + init;
      assert (a + b)[|a + b| - 1] == b[|b| - 1];
      ArgumentsOfAppend(a, init);
    } else {
      assert a + b == a;
    }
  }

  lemma {:induction false} OptionsOfAppend(a: seq<CommandStep>, b: seq<CommandStep>)
    ensures OptionsOf(a + b) == OptionsOf(a) + OptionsOf(b)
    decreases |b|
  {
    if b != [] {
      var init := b[..|b| - 1];
      assert (a + b)[..|a + b| - 1] == a + init;
      assert (a + b)[|a + b| - 1] == b[|b| - 1];
      OptionsOfAppend(a, init);
    } else {
      assert a + b == a;
    }
  }

  /** A block that calls `action` nowhere leaves the action as it was; in a
      fresh builder that is the no-op default. */
  lemma {:induction false} NoActionCallKeepsAction(a: S.Action, steps: seq<CommandStep>)
    requires SetsNoAction(steps)
    ensures ActionAfter(a, steps) == a
  {
    if steps != [] {
      assert SetsNoAction(steps[..|steps| - 1]);
      NoActionCallKeepsAction(a, steps[..|steps| - 1]);
    }
  }

  /** The last `action` call wins, whatever came before it. */
  lemma {:induction false} LastActionWins(a: S.Action, pre: seq<CommandStep>, b: S.Action, post: seq<CommandStep>)
    requires SetsNoAction(post)
    ensures ActionAfter(a, pre + [CallAction(b)] + post) == b
    decreases |post|
  {
    var all := pre + [CallAction(b)] + post;
    if post == [] {
      assert all[|all| - 1] == CallAction(b);
    } else {
      var init := post[..|post| - 1];
      assert all[..|all| - 1] == pre + [CallAction(b)] + init;
      assert !all[|all| - 1].CallAction?;
      assert SetsNoAction(init);
      LastActionWins(a, pre, b, init);
    }
  }

  // ---------------------------------------------------------------------
  // The builders

  class CommandBuilder {
    const name: string
    const description: string
    var arguments: seq<S.Argument>
    var options: seq<S.Option>
    var actionBlock: S.Action

    /** `CommandBuilder(name, description = "")`: no arguments, no options,
        the no-op action. */
    constructor (name: string, description: string := "")
      ensures this.name == name && this.description == description
      ensures arguments == [] && options == [] && actionBlock == S.NoOp
    {
      this.name := name;
      this.description := description;
      arguments := [];
      options := [];
      actionBlock := S.NoOp;
    }

    /** `argument(name, description = "", required = true, optional = false, default = "")`:
        appends, with no check that the name is new. */
    method Argument(name: string, description: string := "", required: bool := true,
                    optional: bool := false, default: string := "")
      modifies this
      ensures arguments == old(arguments) + [S.Argument(name, description, required, optional, default)]
      ensures options == old(options) && actionBlock == old(actionBlock)
    {
      arguments := arguments + [S.Argument(name, description, required, optional, default)];
    }

    /** `option(short, long, description = "", default = "", takesValue = true)`:
        appends, with no check that either name is new. */
    method Option(short: string, long: string, description: string := "",
                  default: string := "", takesValue: bool := true)
      modifies this
      ensures options == old(options) + [S.Option(short, long, description, default, takesValue)]
      ensures arguments == old(arguments) && actionBlock == old(actionBlock)
    {
      options := options + [S.Option(short, long, description, default, takesValue)];
    }

    /** `action { ... }`: replaces the stored block. */
    method Action(block: S.Action)
      modifies this
      ensures actionBlock == block
      ensures arguments == old(arguments) && options == old(options)
    {
      actionBlock := block;
    }

    /** Makes the calls of a configuration block, in order. */
    method RunBlock(steps: seq<CommandStep>)
      modifies this
      ensures arguments == old(arguments) + ArgumentsOf(steps)
      ensures options == old(options) + OptionsOf(steps)
      ensures actionBlock == ActionAfter(old(actionBlock), steps)
    {
      for k := 0 to |steps|
        invariant arguments == old(arguments) + ArgumentsOf(steps[..k])
        invariant options == old(options) + OptionsOf(steps[..k])
        invariant actionBlock == ActionAfter(old(actionBlock), steps[..k])
      {
        assert steps[..k + 1][..k] == steps[..k];
        match steps[k]
        case CallArgument(a) => Argument(a.name, a.description, a.required, a.optional, a.default);
        case CallOption(o) => Option(o.short, o.long, o.description, o.default, o.takesValue);
        case CallAction(b) => Action(b);
      }
      assert steps[..|steps|] == steps;
    }

    method Build() returns (c: S.Command)
      ensures c == S.Command(name, description, arguments, options, actionBlock)
    {
      c := S.Command(name, description, arguments, options, actionBlock);
    }
  }

  class GroupBuilder {
    const name: string
    const description: string
    var commands: seq<S.Command>

    constructor (name: string, description: string := "")
      ensures this.name == name && this.description == description
      ensures commands == []
    {
      this.name := name;
      this.description := description;
      commands := [];
    }

    /** `command(name, description = "") { steps }`: builds the command on a
        fresh builder and appends exactly it, duplicates included. */
    method Command(name: string, description: string := "", steps: seq<CommandStep>)
      modifies this
      ensures commands == old(commands) + [CommandOf(name, description, steps)]
    {
      var builder := new CommandBuilder(name, description);
      builder.RunBlock(steps);
      var c := builder.Build();
      assert c.arguments == ArgumentsOf(steps);
      assert c.action == ActionAfter(S.NoOp, steps);
      assert c == CommandOf(name, description, steps);
      commands := commands + [c];
    }

    method RunBlock(steps: seq<GroupStep>)
      modifies this
      ensures commands == old(commands) + CommandsOf(steps)
    {
      for k := 0 to |steps|
        invariant commands == old(commands) + CommandsOf(steps[..k])
      {
        Command(steps[k].name, steps[k].description, steps[k].steps);
        assert CommandsOf(steps[..k + 1]) == CommandsOf(steps[..k]) + [CommandsOf(steps)[k]];
      }
      assert steps[..|steps|] == steps;
    }

    method Build() returns (g: S.CommandGroup)
      ensures g == S.CommandGroup(name, description, commands)
    {
      g := S.CommandGroup(name, description, commands);
    }
  }

  class CliBuilder {
    const name: string
    const version: string
    const description: string
    var groups: seq<S.CommandGroup>

    constructor (name: string, version: string, description: string)
      ensures this.name == name && this.version == version && this.description == description
      ensures groups == []
    {
      this.name := name;
      this.version := version;
      this.description := description;
      groups := [];
    }

    /** `group(name, description = "") { steps }`: appends exactly one
        group, duplicates of an earlier name included. */
    method Group(name: string, description: string := "", steps: seq<GroupStep>)
      modifies this
      ensures groups == old(groups) + [GroupOf(name, description, steps)]
    {
      var builder := new GroupBuilder(name, description);
      builder.RunBlock(steps);
      var g := builder.Build();
      assert g.commands == CommandsOf(steps);
      groups := groups + [g];
    }

    method RunBlock(steps: seq<CliStep>)
      modifies this
      ensures groups == old(groups) + GroupsOf(steps)
    {
      for k := 0 to |steps|
        invariant groups == old(groups) + GroupsOf(steps[..k])
      {
        Group(steps[k].name, steps[k].description, steps[k].steps);
        assert GroupsOf(steps[..k + 1]) == GroupsOf(steps[..k]) + [GroupsOf(steps)[k]];
      }
      assert steps[..|steps|] == steps;
    }

    /** `CliApp(name, version, description, groups)`. */
    method Build() returns (app: CliApp)
      ensures fresh(app) && fresh(app.pluginManager)
      ensures app.name == name && app.version == version && app.description == description
      ensures app.groups == groups
      ensures app.pluginManager.plugins == [] && !app.quietMode
    {
      app := new CliApp(name, version, description, groups);
    }
  }

  /** A fresh command builder run on a block builds `CommandOf` the block:
      the arguments and options in definition order, the last action. */
  method BuildCommand(name: string, description: string, steps: seq<CommandStep>) returns (c: S.Command)
    ensures c == CommandOf(name, description, steps)
  {
    var builder := new CommandBuilder(name, description);
    builder.RunBlock(steps);
    c := builder.Build();
  }

  /** `cli(name, version = "1.0.0", description = "") { steps }`: a new
      application holding one group per `group` call of the block, in call
      order, with no plugins and quiet mode off. */
  method Cli(name: string, version: string := "1.0.0", description: string := "", steps: seq<CliStep>)
    returns (app: CliApp)
    ensures fresh(app) && fresh(app.pluginManager)
    ensures app.name == name && app.version == version && app.description == description
    ensures app.groups == GroupsOf(steps)
    ensures app.pluginManager.plugins == [] && !app.quietMode
  {
    var builder := new CliBuilder(name, version, description);
    builder.RunBlock(steps);
    app := builder.Build();
  }

  /** The names of the groups a `cli` block defines are those of its
      `group` calls, in call order, duplicates kept; the router's lookup
      then reaches only the first group of each name. */
  lemma GroupNamesInCallOrder(steps: seq<CliStep>, i: nat, j: nat)
    requires i < j < |steps| && steps[i].name == steps[j].name
    ensures S.GroupNames(GroupsOf(steps))[i] == S.GroupNames(GroupsOf(steps))[j]
    ensures forall args :: var r := AppRoute(GroupsOf(steps), args);
      !(r.Dispatched? && r.group == j) && !(r.GroupHelp? && r.group == j)
  {
    forall args ensures var r := AppRoute(GroupsOf(steps), args);
      !(r.Dispatched? && r.group == j) && !(r.GroupHelp? && r.group == j)
    {
      ShadowedGroupUnreachable(GroupsOf(steps), args, i, j);
    }
  }
}
