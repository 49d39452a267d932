/** The bash completion script (completion/BashCompletionGenerator.kt).
    The script is modelled line by line with the indentation that
    `trimIndent` leaves dropped; the computed fragments are exact. */
module BashCompletion {
  import opened Strings
  import opened Schema
  import opened App

  /** One `case` arm: the group's name and its command names. */
  function GroupCase(group: CommandGroup): string
  {
    group.name + ") commands=\"" + Join(" ", CommandNames(group.commands)) + "\" ;;"
  }

  /** The option words: `--long` of every option, first occurrence kept. */
  function OptionWords(groups: seq<CommandGroup>): seq<string>
  {
    Distinct(Map(AllOptions(groups), (o: Option) => "--" + o.long))
  }

  function GroupsLine(groups: seq<CommandGroup>): string
  {
    "local groups=\"" + Join(" ", GroupNames(groups)) + "\""
  }

  function OptionsLine(groups: seq<CommandGroup>): string
  {
    "COMPREPLY=( $(compgen -W \"" + Join(" ", OptionWords(groups)) + " --help -h --version -v\" -- $cur) )"
  }

  function CompleteFunction(appName: string): string
  {
    "_" + appName + "_complete()"
  }

  function Registration(appName: string): string
  {
    "complete -o bashdefault -o default -o nospace -F _" + appName + "_complete " + appName
  }

  // The fixed runs of template lines, each held as one multi-line string.

  const Locals: string :=
    "local cur prev words cword\nCOMPREPLY=()\ncur=\"${COMP_WORDS[COMP_CWORD]}\"\nprev=\"${COMP_WORDS[COMP_CWORD-1]}\"\nwords=(\"${COMP_WORDS[@]}\")\ncword=$COMP_CWORD\n"
  const CaseOpen: string := "local commands=\"\"\n\ncase \"${words[1]}\" in"
  const ByPosition: string :=
    "esac\n\ncase $cword in\n1)\nCOMPREPLY=( $(compgen -W \"$groups\" -- $cur) )\n;;\n2)\nCOMPREPLY=( $(compgen -W \"$commands\" -- $cur) )\n;;\n*)"
  const Close: string := ";;\nesac\n\nreturn 0\n}\n"

  /** The parts of the script, to be joined by newlines: the fixed runs of
      lines and the computed lines between them. */
  function Parts(appName: string, groups: seq<CommandGroup>): seq<string>
  {
    [ "#!/bin/bash",
      "# Bash completion for " + appName,
      "",
      CompleteFunction(appName) + " {",
      Locals,
      GroupsLine(groups),
      CaseOpen,
      Join("\n", Map(groups, GroupCase)),
      ByPosition,
      OptionsLine(groups),
      Close,
      Registration(appName) ]
  }

  /** `BashCompletionGenerator.generate(app)`. */
  function Generate(app: CliApp): string
  {
    Join("\n", Parts(app.name, app.groups))
  }

  // ---------------------------------------------------------------------
  // Properties

  /** The script starts with the bash shebang, names the application in its
      header comment, defines `_<app>_complete()` and ends by registering
      it for the application's command. */
  lemma Framing(app: CliApp)
    ensures StartsWith(Generate(app), "#!/bin/bash")
    ensures Occurs("# Bash completion for " + app.name, Generate(app))
    ensures Occurs(CompleteFunction(app.name), Generate(app))
    ensures EndsWith(Generate(app), Registration(app.name))
  {
    var parts := Parts(app.name, app.groups);
    JoinEnds("\n", parts);
    assert parts[|parts| - 1] == Registration(app.name);
    var header := "# Bash completion for " + app.name;
    assert parts[1] == header;
    OccursInItself(header);
    OccursInPart(header, "\n", parts, 1);
    OccursAtStart(CompleteFunction(app.name), " {");
    OccursInPart(CompleteFunction(app.name), "\n", parts, 3);
  }

  /** The option words are duplicate-free and are exactly the `--long`
      spellings of the options of the application's commands. */
  lemma OptionWordsDistinct(groups: seq<CommandGroup>)
    ensures NoDuplicates(OptionWords(groups))
    ensures forall w :: w in OptionWords(groups) <==> exists o :: o in AllOptions(groups) && w == "--" + o.long
  {
    var opts := AllOptions(groups);
    var words := Map(opts, (o: Option) => "--" + o.long);
    forall w ensures w in words <==> exists o :: o in opts && w == "--" + o.long {
      if w in words {
        var k :| 0 <= k < |words| && words[k] == w;
        assert opts[k] in opts;
      }
      if exists o :: o in opts && w == "--" + o.long {
        var o :| o in opts && w == "--" + o.long;
        var k :| 0 <= k < |opts| && opts[k] == o;
        assert words[k] == w;
      }
    }
  }

  /** With repeated long names too, the option words keep each word's first
      occurrence among the options' `--long` spellings, in that order. */
  lemma OptionWordsKeepFirstOccurrences(groups: seq<CommandGroup>)
    ensures var words := Map(AllOptions(groups), (o: Option) => "--" + o.long);
      && NoDuplicates(OptionWords(groups))
      && (forall w :: w in OptionWords(groups) <==> w in words)
      && (forall i :: 0 <= i < |OptionWords(groups)| ==> IndexOf(words, OptionWords(groups)[i]).Some?)
      && (forall i, j :: 0 <= i < j < |OptionWords(groups)| ==>
            IndexOf(words, OptionWords(groups)[i]).value < IndexOf(words, OptionWords(groups)[j]).value)
  {
  }

  /** When no two options share a long name, the option words are the
      options' `--long` spellings in declaration order. */
  lemma OptionWordsInOrder(groups: seq<CommandGroup>)
    requires NoDuplicates(LongNames(AllOptions(groups)))
    ensures OptionWords(groups) == Map(AllOptions(groups), (o: Option) => "--" + o.long)
  {
    var opts := AllOptions(groups);
    var words := Map(opts, (o: Option) => "--" + o.long);
    forall i, j | 0 <= i < j < |words| ensures words[i] != words[j] {
      assert LongNames(opts)[i] != LongNames(opts)[j];
      assert words[i][2..] == opts[i].long;
      assert words[j][2..] == opts[j].long;
    }
    DistinctOfDistinct(words);
  }

  /** Every group name appears in the script. */
  lemma GroupNameAppears(app: CliApp, g: nat)
    requires g < |app.groups|
    ensures Occurs(app.groups[g].name, Generate(app))
  {
    GroupNameInGroupsLine(app.groups, g);
    OccursInPart(app.groups[g].name, "\n", Parts(app.name, app.groups), 5);
  }

  /** Every group name is in the `groups` word list. */
  lemma GroupNameInGroupsLine(groups: seq<CommandGroup>, g: nat)
    requires g < |groups|
    ensures Occurs(groups[g].name, GroupsLine(groups))
  {
    var names := GroupNames(groups);
    OccursInJoin(" ", names, g);
    OccursRight(names[g], "local groups=\"", Join(" ", names));
    OccursLeft(names[g], "local groups=\"" + Join(" ", names), "\"");
  }

  /** Every group has its `case` arm in the script. */
  lemma GroupCaseAppears(app: CliApp, g: nat)
    requires g < |app.groups|
    ensures Occurs(GroupCase(app.groups[g]), Generate(app))
  {
    GroupCaseInCases(app.groups, g);
    OccursInPart(GroupCase(app.groups[g]), "\n", Parts(app.name, app.groups), 7);
  }

  /** Every group's case arm is among the joined arms. */
  lemma GroupCaseInCases(groups: seq<CommandGroup>, g: nat)
    requires g < |groups|
    ensures Occurs(GroupCase(groups[g]), Join("\n", Map(groups, GroupCase)))
  {
    var cases := Map(groups, GroupCase);
    OccursInPart(cases[g], "\n", cases, g) by { OccursInItself(cases[g]); }
  }

  /** Every command name of every group appears in its group's arm, and so
      in the script. */
  lemma CommandNameAppears(app: CliApp, g: nat, c: nat)
    requires g < |app.groups| && c < |app.groups[g].commands|
    ensures Occurs(app.groups[g].commands[c].name, GroupCase(app.groups[g]))
    ensures Occurs(app.groups[g].commands[c].name, Generate(app))
  {
    var group := app.groups[g];
    var names := CommandNames(group.commands);
    var head := group.name + ") commands=\"";
    OccursInJoin(" ", names, c);
    OccursRight(names[c], head, Join(" ", names));
    OccursLeft(names[c], head + Join(" ", names), "\" ;;");
    assert GroupCase(group) == head + Join(" ", names) + "\" ;;";
    GroupCaseAppears(app, g);
    OccursTrans(names[c], GroupCase(group), Generate(app));
  }

  /** The `--long` spelling of every option of every command is in the
      third-word completion list. */
  lemma OptionInOptionsLine(groups: seq<CommandGroup>, o: Option)
    requires o in AllOptions(groups)
    ensures Occurs("--" + o.long, OptionsLine(groups))
  {
    var words := OptionWords(groups);
    OptionWordsDistinct(groups);
    assert "--" + o.long in words;
    var k :| 0 <= k < |words| && words[k] == "--" + o.long;
    var head := "COMPREPLY=( $(compgen -W \"";
    OccursInJoin(" ", words, k);
    OccursRight(words[k], head, Join(" ", words));
    OccursLeft(words[k], head + Join(" ", words), " --help -h --version -v\" -- $cur) )");
    assert OptionsLine(groups) == head + Join(" ", words) + " --help -h --version -v\" -- $cur) )";
  }

  /** The `--long` spelling of every option of every command appears in the
      script. */
  lemma OptionAppears(app: CliApp, o: Option)
    requires o in AllOptions(app.groups)
    ensures Occurs("--" + o.long, Generate(app))
  {
    OptionInOptionsLine(app.groups, o);
    OccursInPart("--" + o.long, "\n", Parts(app.name, app.groups), 9);
  }
}
