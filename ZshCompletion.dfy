/** The zsh completion script (completion/ZshCompletionGenerator.kt),
    line by line with the indentation that `trimIndent` leaves dropped; the
    computed fragments are exact. */
module ZshCompletion {
  import opened Strings
  import opened Schema
  import opened App

  /** `'name:description'` for a group. */
  function GroupEntry(group: CommandGroup): string
  {
    "'" + group.name + ":" + group.description + "'"
  }

  /** `'name:description'` for a command. */
  function CommandEntry(command: Command): string
  {
    "'" + command.name + ":" + command.description + "'"
  }

  /** The `name)` block offering a group's commands to `_describe`. */
  function CommandBlock(group: CommandGroup): string
  {
    Join("\n", [group.name + ")", "_describe 'commands' '(", Join("\n", Map(group.commands, CommandEntry)), ")'", ";;"])
  }

  /** `'--long[description]'`. */
  function OptionSpec(option: Option): string
  {
    "'--" + option.long + "[" + option.description + "]'"
  }

  const HelpSpec: string := "'(--help -h)'{--help,-h}'[Show help message]'"
  const VersionSpec: string := "'(--version -v)'{--version,-v}'[Show version]'"

  function CommandSpecs(groups: seq<CommandGroup>): seq<string>
  {
    Distinct(Map(AllOptions(groups), OptionSpec))
  }

  /** `(commandOptions + globalOptions).distinct()`. */
  function OptionSpecs(groups: seq<CommandGroup>): seq<string>
  {
    Distinct(CommandSpecs(groups) + [HelpSpec, VersionSpec])
  }

  function DefineFunction(appName: string): string
  {
    "_" + appName + "() {"
  }

  function CallFunction(appName: string): string
  {
    "_" + appName + " \"$@\""
  }

  // The fixed runs of template lines, each held as one multi-line string.

  const States: string :=
    "local state line\n_arguments \\\n'1: :->group' \\\n'2: :->command' \\\n'*: :->options'\n\ncase $state in\ngroup)\n_describe 'groups' '("
  const CommandOpen: string := ")'\n;;\ncommand)\ncase $line[1] in"
  const OptionsOpen: string := "esac\n;;\noptions)\n_arguments \\"
  const Close: string := ";;\nesac\n}\n"

  /** The parts of the script, to be joined by newlines: the fixed runs of
      lines and the computed lines between them. */
  function Parts(appName: string, groups: seq<CommandGroup>): seq<string>
  {
    [ "#compdef " + appName,
      "",
      DefineFunction(appName),
      States,
      Join("\n", Map(groups, GroupEntry)),
      CommandOpen,
      Join("\n", Map(groups, CommandBlock)),
      OptionsOpen,
      Join(" \\\n", OptionSpecs(groups)),
      Close,
      CallFunction(appName) ]
  }

  /** `ZshCompletionGenerator.generate(app)`. */
  function Generate(app: CliApp): string
  {
    Join("\n", Parts(app.name, app.groups))
  }

  // ---------------------------------------------------------------------
  // Properties

  /** The script starts with `#compdef <app>`, defines `_<app>()` and ends
      by calling it with the command line's words. */
  lemma Framing(app: CliApp)
    ensures StartsWith(Generate(app), "#compdef " + app.name)
    ensures Occurs(DefineFunction(app.name), Generate(app))
    ensures EndsWith(Generate(app), CallFunction(app.name))
  {
    var parts := Parts(app.name, app.groups);
    JoinEnds("\n", parts);
    assert parts[|parts| - 1] == CallFunction(app.name);
    OccursInItself(DefineFunction(app.name));
    OccursInPart(DefineFunction(app.name), "\n", parts, 2);
  }

  /** Every group has its `'name:description'` entry in the script. */
  lemma GroupEntryAppears(app: CliApp, g: nat)
    requires g < |app.groups|
    ensures Occurs(GroupEntry(app.groups[g]), Generate(app))
  {
    var parts := Parts(app.name, app.groups);
    var entries := Map(app.groups, GroupEntry);
    OccursInPart(entries[g], "\n", entries, g) by { OccursInItself(entries[g]); }
    OccursInPart(entries[g], "\n", parts, 4);
  }

  /** Every group has its command block in the script, and that block
      offers each of the group's commands as `'name:description'`. */
  lemma CommandEntryAppears(app: CliApp, g: nat, c: nat)
    requires g < |app.groups| && c < |app.groups[g].commands|
    ensures Occurs(CommandEntry(app.groups[g].commands[c]), CommandBlock(app.groups[g]))
    ensures Occurs(CommandEntry(app.groups[g].commands[c]), Generate(app))
  {
    var group := app.groups[g];
    var entries := Map(group.commands, CommandEntry);
    var block := [group.name + ")", "_describe 'commands' '(", Join("\n", entries), ")'", ";;"];
    var e := entries[c];
    OccursInPart(e, "\n", entries, c) by { OccursInItself(e); }
    OccursInPart(e, "\n", block, 2);
    var parts := Parts(app.name, app.groups);
    var blocks := Map(app.groups, CommandBlock);
    OccursInPart(e, "\n", blocks, g);
    OccursInPart(e, "\n", parts, 6);
  }

  /** No command spec is one of the two global specs: they differ in their
      second character. */
  lemma CommandSpecNotGlobal(groups: seq<CommandGroup>, x: string)
    requires x in CommandSpecs(groups)
    ensures x != HelpSpec && x != VersionSpec
  {
    var specs := Map(AllOptions(groups), OptionSpec);
    var k :| 0 <= k < |specs| && specs[k] == x;
    OptionSpecShape(AllOptions(groups)[k]);
    GlobalSpecShape();
  }

  /** An option's spec has `-` as its second character, ... */
  lemma OptionSpecShape(option: Option)
    ensures |OptionSpec(option)| > 1 && OptionSpec(option)[1] == '-'
  {
    assert OptionSpec(option) == "'--" + (option.long + "[" + option.description + "]'");
  }

  /** ... and a global spec has `(`. */
  lemma GlobalSpecShape()
    ensures HelpSpec[1] == '(' && VersionSpec[1] == '('
  {
  }

  lemma GlobalSpecsDiffer()
    ensures HelpSpec != VersionSpec
  {
    assert HelpSpec[4] == 'h' && VersionSpec[4] == 'v';
  }

  /** The second `distinct` changes nothing: the options are the command
      options' specs, without duplicates and in first-occurrence order,
      followed by the help and version specs. */
  lemma GlobalsFollowCommandSpecs(groups: seq<CommandGroup>)
    ensures OptionSpecs(groups) == CommandSpecs(groups) + [HelpSpec, VersionSpec]
  {
    var cs := CommandSpecs(groups);
    var all := cs + [HelpSpec, VersionSpec];
    forall i, j | 0 <= i < j < |all| ensures all[i] != all[j] {
      if j < |cs| {
        assert all[i] == cs[i] && all[j] == cs[j];
      } else if i < |cs| {
        CommandSpecNotGlobal(groups, cs[i]);
      } else {
        GlobalSpecsDiffer();
      }
    }
    DistinctOfDistinct(all);
  }

  /** The option specs are duplicate-free; they hold the spec of every
      option of every command and the two global specs, and nothing else. */
  lemma OptionSpecsContents(groups: seq<CommandGroup>)
    ensures NoDuplicates(OptionSpecs(groups))
    ensures HelpSpec in OptionSpecs(groups) && VersionSpec in OptionSpecs(groups)
    ensures forall x :: x in OptionSpecs(groups) <==>
      (x == HelpSpec || x == VersionSpec || exists o :: o in AllOptions(groups) && x == OptionSpec(o))
  {
    var opts := AllOptions(groups);
    var specs := Map(opts, OptionSpec);
    forall x ensures x in specs <==> exists o :: o in opts && x == OptionSpec(o) {
      if x in specs {
        var k :| 0 <= k < |specs| && specs[k] == x;
        assert opts[k] in opts;
      }
      if exists o :: o in opts && x == OptionSpec(o) {
        var o :| o in opts && x == OptionSpec(o);
        var k :| 0 <= k < |opts| && opts[k] == o;
        assert specs[k] == x;
      }
    }
  }

  /** The spec of every option of every command is in the joined option
      specs. */
  lemma OptionSpecInList(groups: seq<CommandGroup>, o: Option)
    requires o in AllOptions(groups)
    ensures Occurs(OptionSpec(o), Join(" \\\n", OptionSpecs(groups)))
  {
    var specs := OptionSpecs(groups);
    OptionSpecsContents(groups);
    assert OptionSpec(o) in specs;
    var k :| 0 <= k < |specs| && specs[k] == OptionSpec(o);
    OccursInPart(specs[k], " \\\n", specs, k) by { OccursInItself(specs[k]); }
  }

  /** The spec of every option of every command appears in the script. */
  lemma OptionSpecAppears(app: CliApp, o: Option)
    requires o in AllOptions(app.groups)
    ensures Occurs(OptionSpec(o), Generate(app))
  {
    OptionSpecInList(app.groups, o);
    OccursInPart(OptionSpec(o), "\n", Parts(app.name, app.groups), 8);
  }
}
