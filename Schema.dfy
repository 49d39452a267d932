/** The declarative description of a command-line surface: positional
    arguments, options, commands and command groups (model/Argument.kt,
    model/Option.kt, model/Command.kt, model/CommandGroup.kt). */
module Schema {
  import opened Strings

  /** A positional argument. The dispatcher insists on a value only when it
      is `required` and not `optional`; `default` is not applied by it. */
  datatype Argument = Argument(
    name: string,
    description: string,
    required: bool,
    optional: bool,
    default: string)

  /** An option, addressed as `-<short>` or `--<long>` and bound under
      `long`. `takesValue = false` makes it a switch. */
  datatype Option = Option(
    short: string,
    long: string,
    description: string,
    default: string,
    takesValue: bool)

  /** A command's action is an opaque callback. The model keeps what the
      dispatcher can observe of it: which block it is, and whether running
      it ends in an exception. `NoOp` is the default `{}` block. */
  datatype Action = NoOp | Script(id: nat, throws: bool)

  predicate ActionThrows(a: Action)
  {
    a.Script? && a.throws
  }

  datatype Command = Command(
    name: string,
    description: string,
    arguments: seq<Argument>,
    options: seq<Option>,
    action: Action)

  datatype CommandGroup = CommandGroup(
    name: string,
    description: string,
    commands: seq<Command>)

  // ---------------------------------------------------------------------
  // The keys by which lists are searched (the `it.name`, `it.long`,
  // `it.short` of the source's `find` calls)

  function LongNames(options: seq<Option>): (r: seq<string>)
    ensures |r| == |options|
    ensures forall k :: 0 <= k < |r| ==> r[k] == options[k].long
  {
    Map(options, (o: Option) => o.long)
  }

  function ShortNames(options: seq<Option>): (r: seq<string>)
    ensures |r| == |options|
    ensures forall k :: 0 <= k < |r| ==> r[k] == options[k].short
  {
    Map(options, (o: Option) => o.short)
  }

  function CommandNames(commands: seq<Command>): (r: seq<string>)
    ensures |r| == |commands|
    ensures forall k :: 0 <= k < |r| ==> r[k] == commands[k].name
  {
    Map(commands, (c: Command) => c.name)
  }

  function GroupNames(groups: seq<CommandGroup>): (r: seq<string>)
    ensures |r| == |groups|
    ensures forall k :: 0 <= k < |r| ==> r[k] == groups[k].name
  {
    Map(groups, (g: CommandGroup) => g.name)
  }

  /** The options of a list of commands, command by command
      (`commands.flatMap { it.options }`). */
  function CommandOptions(commands: seq<Command>): (r: seq<Option>)
    ensures forall o :: o in r <==> exists c :: 0 <= c < |commands| && o in commands[c].options
  {
    if commands == [] then []
    else
      var rest := CommandOptions(commands[1..]);
      assert forall o :: o in rest <==> exists c :: 1 <= c < |commands| && o in commands[c].options by {
        forall o | o in rest ensures exists c :: 1 <= c < |commands| && o in commands[c].options {
          var c :| 0 <= c < |commands[1..]| && o in commands[1..][c].options;
          assert o in commands[c + 1].options;
        }
        forall o | (exists c :: 1 <= c < |commands| && o in commands[c].options) ensures o in rest {
          var c :| 1 <= c < |commands| && o in commands[c].options;
          assert o in commands[1..][c - 1].options;
        }
      }
      commands[0].options + rest
  }

  /** Every option of every command of every group, in declaration order
      (`groups.flatMap { it.commands }.flatMap { it.options }`). */
  function AllOptions(groups: seq<CommandGroup>): (r: seq<Option>)
    ensures forall o :: o in r <==> exists g :: 0 <= g < |groups| && o in CommandOptions(groups[g].commands)
  {
    if groups == [] then []
    else
      var rest := AllOptions(groups[1..]);
      assert forall o :: o in rest <==> exists g :: 1 <= g < |groups| && o in CommandOptions(groups[g].commands) by {
        forall o | o in rest ensures exists g :: 1 <= g < |groups| && o in CommandOptions(groups[g].commands) {
          var g :| 0 <= g < |groups[1..]| && o in CommandOptions(groups[1..][g].commands);
          assert o in CommandOptions(groups[g + 1].commands);
        }
        forall o | (exists g :: 1 <= g < |groups| && o in CommandOptions(groups[g].commands)) ensures o in rest {
          var g :| 1 <= g < |groups| && o in CommandOptions(groups[g].commands);
          assert o in CommandOptions(groups[1..][g - 1].commands);
        }
      }
      CommandOptions(groups[0].commands) + rest
  }

  /** An option of any command of any group is in the flattened list. */
  lemma InAllOptions(groups: seq<CommandGroup>, g: nat, c: nat, o: Option)
    requires g < |groups| && c < |groups[g].commands| && o in groups[g].commands[c].options
    ensures o in AllOptions(groups)
  {
    assert o in CommandOptions(groups[g].commands);
  }
}
