/** The PowerShell completion script
    (completion/PowerShellCompletionGenerator.kt), line by line with the
    margins and indentation that `trimMargin` leaves dropped; the computed
    fragments are exact. */
module PowerShellCompletion {
  import opened Strings
  import opened Schema
  import opened App

  function Quoted(word: string): string
  {
    "'" + word + "'"
  }

  /** Quoted words, one per line, separated by commas. */
  function QuotedList(words: seq<string>): string
  {
    Join(",\n", Map(words, Quoted))
  }

  function GroupList(groups: seq<CommandGroup>): string
  {
    QuotedList(GroupNames(groups))
  }

  /** The `switch` case listing a group's commands. */
  function SwitchCase(group: CommandGroup): string
  {
    Join("\n", ["'" + group.name + "' {", "@(", QuotedList(CommandNames(group.commands)), ")", "}"])
  }

  /** `,'--long'` then `,'-short'` for each option, in order, keeping
      repeats. */
  function OptionItems(options: seq<Option>): (r: seq<string>)
    ensures |r| == 2 * |options|
  {
    if options == [] then []
    else [",\n" + Quoted("--" + options[0].long), ",\n" + Quoted("-" + options[0].short)] + OptionItems(options[1..])
  }

  /** The option items, concatenated (`joinToString("")`). */
  function OptionList(groups: seq<CommandGroup>): string
  {
    Join("", OptionItems(AllOptions(groups)))
  }

  function Registration(command: string): string
  {
    "Register-ArgumentCompleter -CommandName " + command + " -ScriptBlock $scriptblock"
  }

  // The fixed runs of template lines, each held as one multi-line string.

  const Preamble: string :=
    "\n$scriptblock = {\nparam($wordToComplete, $commandAst, $cursorPosition)\n\n$command = $commandAst.ToString()\n\n# Разбейте команду на токены\n$tokens = $command -split '\\s+' | Where-Object { $_ }\n"
  const FindLoopOpen: string := "$startIdx = 0\nfor ($i = 0; $i -lt $tokens.Count; $i++) {"
  const FindLoopClose: string := "$startIdx = $i + 1\nbreak\n}\n}\n"
  const ArgsBody: string :=
    "$args = $tokens[$startIdx..($tokens.Count-1)] | Where-Object { $_ }\n\n$completions = @()\n\n# Определите что completировать"
  const NoWordOpen: string := "if ($args.Count -eq 0) {\n# Нет аргументов - показать группы\n$groups = @("
  const NoWordClose: string := ")\n$completions = $groups | Where-Object { $_ -like \"$wordToComplete*\" }\n}"
  const OneWordOpen: string := "elseif ($args.Count -eq 1) {\n# Один аргумент - это группа или неполная группа\n$validGroups = @("
  const OneWordMiddle: string :=
    ")\n$currentGroup = $args[0]\n\nif ($validGroups -contains $currentGroup) {\n# Это валидная группа - показать команды\n$commands = switch ($currentGroup) {"
  const DefaultCase: string := "default { @() }"
  const OneWordClose: string := "}\n$completions = $commands | Where-Object { $_ -like \"$wordToComplete*\" }\n}"
  const PartialOpen: string := "else {\n# Неполная группа - показать подходящие группы\n$groups = @("
  const PartialClose: string := ")\n$completions = $groups | Where-Object { $_ -like \"$currentGroup*\" }\n}\n}"
  const FlagsOpen: string := "else {\n# Два и более аргументов - показать флаги\n$options = @(\n'--help',\n'-h',\n'--version',\n'-v'"
  const FlagsClose: string := ")\n$completions = $options | Where-Object { $_ -like \"$wordToComplete*\" }\n}"
  const Epilogue: string :=
    "\n# Вернуть результаты\n$completions | ForEach-Object {\n[System.Management.Automation.CompletionResult]::new($_, $_, 'ParameterValue', $_)\n}\n}\n"

  /** The parts of the script, to be joined by newlines: the fixed runs of
      lines and the computed lines between them. The three group lists
      serve, in order, no word yet (offer the groups), one word that is a
      group (offer its commands) and one word that is not (offer the groups
      it starts); the option list serves two words or more. */
  function Parts(appName: string, groups: seq<CommandGroup>): seq<string>
  {
    [ "# PowerShell completion for " + appName,
      Preamble,
      "# Найдите индекс \"" + appName + "\" или \"" + appName + ".exe\"",
      FindLoopOpen,
      "if ($tokens[$i] -eq '" + appName + "' -or $tokens[$i] -eq '" + appName + ".exe') {",
      FindLoopClose,
      "# Получите аргументы после \"" + appName + "\"",
      ArgsBody,
      NoWordOpen,
      GroupList(groups),
      NoWordClose,
      OneWordOpen,
      GroupList(groups),
      OneWordMiddle,
      Join("\n", Map(groups, SwitchCase)),
      DefaultCase,
      OneWordClose,
      PartialOpen,
      GroupList(groups),
      PartialClose,
      FlagsOpen,
      OptionList(groups),
      FlagsClose,
      Epilogue,
      Registration(appName),
      Registration(appName + ".exe") ]
  }

  /** `PowerShellCompletionGenerator.generate(app)`. */
  function Generate(app: CliApp): string
  {
    Join("\n", Parts(app.name, app.groups))
  }

  // ---------------------------------------------------------------------
  // Properties

  /** Item `2k` spells option `k` long and item `2k + 1` spells it short. */
  lemma {:induction false} OptionItemsAt(options: seq<Option>, k: nat)
    requires k < |options|
    ensures OptionItems(options)[2 * k] == ",\n" + Quoted("--" + options[k].long)
    ensures OptionItems(options)[2 * k + 1] == ",\n" + Quoted("-" + options[k].short)
  {
    if k > 0 {
      OptionItemsAt(options[1..], k - 1);
      var rest := OptionItems(options[1..]);
      assert OptionItems(options) == [",\n" + Quoted("--" + options[0].long), ",\n" + Quoted("-" + options[0].short)] + rest;
      assert OptionItems(options)[2 * k] == rest[2 * (k - 1)];
      assert OptionItems(options)[2 * k + 1] == rest[2 * (k - 1) + 1];
    }
  }

  /** The script starts with its header comment and ends by registering the
      completer for both `<app>` and `<app>.exe`. */
  lemma Framing(app: CliApp)
    ensures StartsWith(Generate(app), "# PowerShell completion for " + app.name)
    ensures Occurs(Registration(app.name), Generate(app))
    ensures EndsWith(Generate(app), Registration(app.name + ".exe"))
  {
    var parts := Parts(app.name, app.groups);
    JoinEnds("\n", parts);
    assert parts[|parts| - 1] == Registration(app.name + ".exe");
    OccursInPart(parts[24], "\n", parts, 24) by { OccursInItself(parts[24]); }
  }

  /** The group list is emitted in each of the three branches that offer or
      check groups, between that branch's opening and closing lines. With
      no word yet, the groups are offered. */
  lemma NoWordOffersGroups(app: CliApp)
    ensures Occurs(NoWordOpen + "\n" + GroupList(app.groups) + "\n" + NoWordClose, Generate(app))
  {
    var parts := Parts(app.name, app.groups);
    assert parts[8] == NoWordOpen && parts[9] == GroupList(app.groups) && parts[10] == NoWordClose;
    OccursThree("\n", parts, 8);
  }

  /** With one word, the word is checked against the groups. */
  lemma OneWordChecksGroups(app: CliApp)
    ensures Occurs(OneWordOpen + "\n" + GroupList(app.groups) + "\n" + OneWordMiddle, Generate(app))
  {
    var parts := Parts(app.name, app.groups);
    assert parts[11] == OneWordOpen && parts[12] == GroupList(app.groups) && parts[13] == OneWordMiddle;
    OccursThree("\n", parts, 11);
  }

  /** With one word that is not a group, the groups it starts are offered. */
  lemma PartialOffersGroups(app: CliApp)
    ensures Occurs(PartialOpen + "\n" + GroupList(app.groups) + "\n" + PartialClose, Generate(app))
  {
    var parts := Parts(app.name, app.groups);
    assert parts[17] == PartialOpen && parts[18] == GroupList(app.groups) && parts[19] == PartialClose;
    OccursThree("\n", parts, 17);
  }

  /** The group cases come right before the `default { @() }` case, which
      closes the `switch`. */
  lemma SwitchCasesThenDefault(app: CliApp)
    ensures Occurs(Join("\n", Map(app.groups, SwitchCase)) + "\n" + DefaultCase + "\n" + OneWordClose, Generate(app))
  {
    var parts := Parts(app.name, app.groups);
    assert parts[14] == Join("\n", Map(app.groups, SwitchCase)) && parts[15] == DefaultCase && parts[16] == OneWordClose;
    OccursThree("\n", parts, 14);
  }

  /** The quoted name of each element is in a quoted list. */
  lemma InQuotedList(words: seq<string>, k: nat)
    requires k < |words|
    ensures Occurs(Quoted(words[k]), QuotedList(words))
  {
    var quoted := Map(words, Quoted);
    OccursInItself(quoted[k]);
    OccursInPart(quoted[k], ",\n", quoted, k);
  }

  /** Every group name appears quoted in the script. */
  lemma GroupNameAppears(app: CliApp, g: nat)
    requires g < |app.groups|
    ensures Occurs(Quoted(app.groups[g].name), Generate(app))
  {
    var x := Quoted(app.groups[g].name);
    InQuotedList(GroupNames(app.groups), g);
    assert Occurs(x, GroupList(app.groups));
    OccursInPart(x, "\n", Parts(app.name, app.groups), 9);
  }

  /** Every command of every group appears quoted in its group's case. */
  lemma CommandInSwitchCase(group: CommandGroup, c: nat)
    requires c < |group.commands|
    ensures Occurs(Quoted(group.commands[c].name), SwitchCase(group))
  {
    var names := CommandNames(group.commands);
    InQuotedList(names, c);
    OccursInPart(Quoted(names[c]), "\n", ["'" + group.name + "' {", "@(", QuotedList(names), ")", "}"], 2);
  }

  /** Every group's case is in the script. */
  lemma SwitchCaseAppears(app: CliApp, g: nat)
    requires g < |app.groups|
    ensures Occurs(SwitchCase(app.groups[g]), Generate(app))
  {
    var x := SwitchCase(app.groups[g]);
    OccursInJoin("\n", Map(app.groups, SwitchCase), g);
    OccursInPart(x, "\n", Parts(app.name, app.groups), 14);
  }

  /** Every command of every group appears quoted in its group's case, and
      so in the script. */
  lemma CommandNameAppears(app: CliApp, g: nat, c: nat)
    requires g < |app.groups| && c < |app.groups[g].commands|
    ensures Occurs(Quoted(app.groups[g].commands[c].name), SwitchCase(app.groups[g]))
    ensures Occurs(Quoted(app.groups[g].commands[c].name), Generate(app))
  {
    CommandInSwitchCase(app.groups[g], c);
    SwitchCaseAppears(app, g);
    OccursTrans(Quoted(app.groups[g].commands[c].name), SwitchCase(app.groups[g]), Generate(app));
  }

  /** A word whose item is in the option items is in the option list. */
  lemma InOptionItems(options: seq<Option>, i: nat, x: string)
    requires i < |OptionItems(options)| && OptionItems(options)[i] == ",\n" + x
    ensures Occurs(x, Join("", OptionItems(options)))
  {
    OccursRight(x, ",\n", x) by { OccursInItself(x); }
    OccursInPart(x, "", OptionItems(options), i);
  }

  /** Both spellings of option `k` appear quoted in the option list. */
  lemma InOptionList(groups: seq<CommandGroup>, k: nat)
    requires k < |AllOptions(groups)|
    ensures Occurs(Quoted("--" + AllOptions(groups)[k].long), OptionList(groups))
    ensures Occurs(Quoted("-" + AllOptions(groups)[k].short), OptionList(groups))
  {
    var options := AllOptions(groups);
    OptionItemsAt(options, k);
    InOptionItems(options, 2 * k, Quoted("--" + options[k].long));
    InOptionItems(options, 2 * k + 1, Quoted("-" + options[k].short));
  }

  /** Both spellings of every option of every command appear quoted in the
      script, repeats kept. */
  lemma OptionAppears(app: CliApp, k: nat)
    requires k < |AllOptions(app.groups)|
    ensures Occurs(Quoted("--" + AllOptions(app.groups)[k].long), Generate(app))
    ensures Occurs(Quoted("-" + AllOptions(app.groups)[k].short), Generate(app))
  {
    var parts := Parts(app.name, app.groups);
    InOptionList(app.groups, k);
    OccursInPart(Quoted("--" + AllOptions(app.groups)[k].long), "\n", parts, 21);
    OccursInPart(Quoted("-" + AllOptions(app.groups)[k].short), "\n", parts, 21);
  }
}
