# laret in Dafny

A model of the core of **laret**, a Kotlin framework for building command-line tools. The model covers:

- **The application tree.** An application has groups, a group has commands, and a command declares positional arguments, options and an action.
- **The builders** that assemble that tree: `cli { group { command { ... } } }`.
- **The router.** `CliApp.run` and `executeCommand` handle the global flags `--help`, `--version` and `--quiet`. They then look up a group and a command and dispatch to it. `CommandRunner.execute` is an alternate router with the same decisions.
- **The dispatcher**, `Command.execute`:
  - a plugin gate runs before anything else;
  - a token-scanning loop binds options and positionals into a `CommandContext`;
  - a required-argument check runs before the action;
  - an exception thrown by the action is caught;
  - the after-hooks run from `finally`.
- **The plugin manager**, which calls hooks on its registered plugins in order and contains their exceptions.
- **Configuration support.** The configuration validator has four built-in rules and merges their results. Configuration formats are detected from a file name.
- **Help text.** The help formatter builds padded command and option lists.
- **Shell completion.** There are generators for bash, zsh and PowerShell, plus case-insensitive selection of the shell.

### Modules

| file | module | models |
|---|---|---|
| `Strings.dfy` | `Strings` | The Kotlin string operations the source relies on: `startsWith`, `endsWith`, `find`, `lowercase`, `uppercase`, `isBlank`, `joinToString`, `padEnd` and `distinct`. |
| `Schema.dfy` | `Schema` | The model records and the flattening of every option of an application. |
| `Plugins.dfy` | `Plugins` | Plugins as scripted behaviours, the event trace of hook calls, and the `PluginManager` class. |
| `Context.dfy` | `Context` | The `CommandContext` class and `toIntOrNull`. |
| `Dispatch.dfy` | `Dispatch` | `Command.execute`: a specification of the scan loop, the `BindTokens`, `CheckRequired` and `Execute` methods, and lemmas. |
| `App.dfy` | `App` | The `CliApp` class and the specification of its routes. |
| `Runner.dfy` | `Runner` | `CommandRunner.execute`. |
| `Builders.dfy` | `Builders` | The three builder classes, and `cli` from `dsl/LaretDsl.kt`. |
| `Validation.dfy` | `Validation` | The configuration records, `ValidationResult`, the rules and `ConfigValidator`. |
| `ConfigFormat.dfy` | `ConfigFormat` | `fromFile` and `fromFileName`. |
| `HelpFormat.dfy` | `HelpFormat` | `formatCommandList` and `formatOptionsList`. |
| `BashCompletion.dfy`, `ZshCompletion.dfy`, `PowerShellCompletion.dfy` | one module each | The three generators. |
| `Completion.dfy` | `Completion` | `generateCompletion`. |

### Modelling choices

**Callbacks.** Actions and plugin hooks are opaque Kotlin callbacks. They are modelled as scripted behaviours:
- an action is `NoOp` or `Script(id, throws)`;
- each plugin hook completes or throws;
- `beforeExecute` answers `Allow`, `Reject` or `Throw`.

**Traces and outcomes.** Each dispatch returns a trace of the hooks and actions it invoked, in order. Printed messages become outcome values: `Rejected`, `ArgumentMissing(name)`, `Completed`, `ActionFailed`, `GroupNotFound`, `CommandNotFound`, `GroupHelp`, `AppHelp` and `VersionShown(text)`.

**The specification function behind each imperative method.** Every imperative method is proved against a specification function:
- the scan loop against `Scan` and `Parse`;
- the validator loop against `ValidateAll`;
- the plugin loops against `Calls` and `BeforeReach`;
- the builder blocks against `ArgumentsOf`, `OptionsOf`, `ActionAfter`, `CommandsOf` and `GroupsOf`.

### The dispatcher's plugin argument

`Command.execute(args, app)` is modelled with the application reduced to its `PluginManager?`. The dispatcher uses the application only through `hasPlugins()` and `getPluginManager()`.

### Where the model follows the code

The model follows the code where a description of the framework could suggest otherwise:
- **A plugin rejection skips the after-hooks.** `execute` returns before its `try`, so `afterExecute` does not run (`Dispatch.RejectionRunsNothingElse`).
- **A boolean option never consumes the next token.** This includes a `--x` that names no option.
- **A lone dash token binds nothing.** `-` or `-la` falls through the `when` and is ignored.

The generators' properties below (names appearing, header and registration lines, case arms, option lists) hold in every case. Each generator is a function of the application's name and groups, so two calls on the same application give equal scripts.

## Model

All source paths are under `src/main/kotlin/com/rkhamatyarov/laret/`; it is spelled out in each row.

| member | source | states |
|---|---|---|
| Strings.Lower | src/main/kotlin/com/rkhamatyarov/laret/completion/CompletionExtensions.kt:12 | Same length, each character lower-cased as `LowerChar` does. |
| Strings.Upper | src/main/kotlin/com/rkhamatyarov/laret/config/validator/ConfigValidator.kt:72 | Same length, each character upper-cased as `UpperChar` does. |
| Strings.PadEnd | src/main/kotlin/com/rkhamatyarov/laret/ui/HelpFormatter.kt:9-15 | `padEnd`: the string itself then spaces up to the width; never truncated. |
| Strings.Distinct | src/main/kotlin/com/rkhamatyarov/laret/completion/BashCompletionGenerator.kt:14 | `distinct()`: no duplicates, exactly the elements of the input, and in the order of each element's first occurrence in the input. |
| Schema.CommandOptions | src/main/kotlin/com/rkhamatyarov/laret/completion/BashCompletionGenerator.kt:14 | An option is in a command list's flattened options exactly when some command of the list declares it. |
| Schema.AllOptions | src/main/kotlin/com/rkhamatyarov/laret/completion/BashCompletionGenerator.kt:14 | An option is in the application's flattened options exactly when some command of some group declares it. |
| Schema.InAllOptions | src/main/kotlin/com/rkhamatyarov/laret/completion/ZshCompletionGenerator.kt:29-32 | Every option of every command of every group is in the flattened list. |
| Plugins.Calls | src/main/kotlin/com/rkhamatyarov/laret/plugin/PluginManager.kt:17-25 | A hook's trace over the first `n` plugins has one event per plugin, in list order. Each event records whether that plugin's hook threw. |
| Plugins.BeforeStopsAtFirstRejection | src/main/kotlin/com/rkhamatyarov/laret/plugin/PluginManager.kt:27-36 | When plugin `k` is the first to answer `false`, `beforeExecute` answers `false` having called plugins `0..k` and no later plugin. |
| Plugins.BeforeWithoutRejection | src/main/kotlin/com/rkhamatyarov/laret/plugin/PluginManager.kt:27-36 | With no rejecting plugin, `beforeExecute` answers `true` having called every plugin. |
| Plugins.ThrowingBeforeCountsAsAllowing | src/main/kotlin/com/rkhamatyarov/laret/plugin/PluginManager.kt:29-33 | A throwing `beforeExecute` changes neither the answer nor which plugins are reached, compared with one that answers `true`. |
| Plugins.PluginManager.constructor | src/main/kotlin/com/rkhamatyarov/laret/plugin/PluginManager.kt:9-10 | A new manager has no plugins. |
| Plugins.PluginManager.Register | src/main/kotlin/com/rkhamatyarov/laret/plugin/PluginManager.kt:12-15 | Appends the plugin after the earlier ones, duplicates allowed, and returns the manager itself. |
| Plugins.PluginManager.Initialize | src/main/kotlin/com/rkhamatyarov/laret/plugin/PluginManager.kt:17-25 | Calls every plugin's `initialize` in registration order. A throwing plugin does not stop the ones after it. |
| Plugins.PluginManager.BeforeExecute | src/main/kotlin/com/rkhamatyarov/laret/plugin/PluginManager.kt:27-36 | The answer is `BeforeAllows(plugins)`. The calls stop right after the first rejecting plugin. |
| Plugins.PluginManager.AfterExecute | src/main/kotlin/com/rkhamatyarov/laret/plugin/PluginManager.kt:38-46 | Calls every plugin's `afterExecute` in order. Exceptions are contained. |
| Plugins.PluginManager.Shutdown | src/main/kotlin/com/rkhamatyarov/laret/plugin/PluginManager.kt:48-56 | Calls every plugin's `shutdown` in order. Exceptions are contained. |
| Plugins.PluginManager.GetPlugins | src/main/kotlin/com/rkhamatyarov/laret/plugin/PluginManager.kt:58 | Returns the registered list and leaves the manager unchanged. |
| Context.ParseInt | src/main/kotlin/com/rkhamatyarov/laret/core/CommandContext.kt:25 | Succeeds exactly on an optional `-` or `+` followed by at least one digit, whose value fits in 32 bits (the minimum only after `-`). The result is the digits' value, negated after `-`. |
| Context.DigitsValueOfNatDigits | src/main/kotlin/com/rkhamatyarov/laret/core/CommandContext.kt:25 | Reading back the decimal digits of a natural number gives the number. |
| Context.ParseIntRoundTrip | src/main/kotlin/com/rkhamatyarov/laret/core/CommandContext.kt:25 | Every 32-bit integer written in decimal parses back to itself. |
| Context.NegativeRoundTrip | src/main/kotlin/com/rkhamatyarov/laret/core/CommandContext.kt:25 | The same round trip for negative values, including the minimum. |
| Context.NonCanonicalSpellings | src/main/kotlin/com/rkhamatyarov/laret/core/CommandContext.kt:25 | `+7` and `007` parse as 7, and `-0` as 0. A lone sign and the empty string do not parse. |
| Context.CommandContext.constructor | src/main/kotlin/com/rkhamatyarov/laret/core/CommandContext.kt:10-17 | A new context holds its command, with both maps empty. |
| Context.CommandContext.Argument | src/main/kotlin/com/rkhamatyarov/laret/core/CommandContext.kt:19 | The bound value of the argument, or `""` when it is unbound. |
| Context.CommandContext.Option | src/main/kotlin/com/rkhamatyarov/laret/core/CommandContext.kt:21 | The bound value of the option, or `""` when it is unbound. |
| Context.CommandContext.OptionBool | src/main/kotlin/com/rkhamatyarov/laret/core/CommandContext.kt:23 | True exactly when the option is bound to `true` in any letter case. |
| Context.CommandContext.OptionInt | src/main/kotlin/com/rkhamatyarov/laret/core/CommandContext.kt:25 | The parsed 32-bit value, or 0 when the option is unbound or does not parse. |
| Dispatch.NextValue | src/main/kotlin/com/rkhamatyarov/laret/model/Command.kt:46 | A value exists exactly when a next token exists and does not start with `-`. The value is that token. |
| Dispatch.Step | src/main/kotlin/com/rkhamatyarov/laret/model/Command.kt:38-78 | Each turn of the loop advances the cursor by one, or by two when an option consumed the following token as its value. |
| Dispatch.Scan | src/main/kotlin/com/rkhamatyarov/laret/model/Command.kt:38-78 | The loop terminates with the cursor exactly at the end of the tokens. |
| Dispatch.Parse | src/main/kotlin/com/rkhamatyarov/laret/model/Command.kt:35-78 | No contract of its own: the scan from the start state. `Dispatch.BindTokens` equals it, and `LongFlagBinds`, `ShortFlagBinds` and `BareWordsBindInOrder` say what it binds. |
| Dispatch.FirstMissing | src/main/kotlin/com/rkhamatyarov/laret/model/Command.kt:80-86 | None exactly when every `required && !optional` argument is bound. Otherwise it is the first unbound one in declaration order. |
| Dispatch.BindTokens | src/main/kotlin/com/rkhamatyarov/laret/model/Command.kt:35-78 | The `while` loop fills the context's maps with exactly what `Parse` binds. |
| Dispatch.CheckRequired | src/main/kotlin/com/rkhamatyarov/laret/model/Command.kt:80-86 | The early-returning loop finds exactly `FirstMissing`. |
| Dispatch.Execute | src/main/kotlin/com/rkhamatyarov/laret/model/Command.kt:20-97 | The outcome and trace are `Outcome` and `ExecTrace` for the manager's plugins and gate. A rejected dispatch leaves the context empty; any other holds what `Parse` binds. |
| Dispatch.LongFlagBinds | src/main/kotlin/com/rkhamatyarov/laret/model/Command.kt:41-53 | `--long` binds the first option so named. A value-taking option takes the next bare token and skips it; otherwise the literal `true` is bound. |
| Dispatch.ShortFlagBinds | src/main/kotlin/com/rkhamatyarov/laret/model/Command.kt:55-67 | `-s` looks the option up by its short name and binds it under its long name, with the same value rule. |
| Dispatch.ShortTokenShape | src/main/kotlin/com/rkhamatyarov/laret/model/Command.kt:55 | `-c`, for a one-character `c` other than `-`, takes the short-flag branch and not the long one. |
| Dispatch.UnrecognisedTokenIgnored | src/main/kotlin/com/rkhamatyarov/laret/model/Command.kt:40-75 | An unknown flag, or any other dash token, only advances the cursor. |
| Dispatch.BareWordFillsNextPositional | src/main/kotlin/com/rkhamatyarov/laret/model/Command.kt:69-74 | A bare word binds the next declared argument while one is left. Extra bare words are dropped. |
| Dispatch.ScanAgreesOnSpelling | src/main/kotlin/com/rkhamatyarov/laret/model/Command.kt:41-67 | Two token lists that differ only in spelling one option `-s` or `--long` scan to the same state. |
| Dispatch.ShortAndLongSpellingsAgree | src/main/kotlin/com/rkhamatyarov/laret/model/Command.kt:41-67 | The spelling of a flag does not change what the dispatch binds. |
| Dispatch.StepKeepsPositionals | src/main/kotlin/com/rkhamatyarov/laret/model/Command.kt:69-74 | One turn keeps the positional cursor within the declarations, and the bound arguments are those before it. |
| Dispatch.ScanKeepsPositionals | src/main/kotlin/com/rkhamatyarov/laret/model/Command.kt:38-78 | The same invariant over the whole loop. |
| Dispatch.BoundArgumentsArePrefix | src/main/kotlin/com/rkhamatyarov/laret/model/Command.kt:69-74 | `argIndex` never exceeds the number of declared arguments. Exactly the first `argIndex` declarations are bound. |
| Dispatch.ScanBareWords | src/main/kotlin/com/rkhamatyarov/laret/model/Command.kt:69-74 | Over bare words, the `j`-th word binds the `j`-th declared argument. |
| Dispatch.BareWordsBindInOrder | src/main/kotlin/com/rkhamatyarov/laret/model/Command.kt:69-74 | With only bare words and distinct argument names, declaration `j` gets word `j`, for `j` below both counts. |
| Dispatch.RejectionRunsNothingElse | src/main/kotlin/com/rkhamatyarov/laret/model/Command.kt:27-32 | A rejecting plugin ends the dispatch as `Rejected`. Only before-hooks were called: no action and no after-hook. |
| Dispatch.MissingArgumentSkipsAction | src/main/kotlin/com/rkhamatyarov/laret/model/Command.kt:80-95 | An unbound demanded argument skips the action. With plugins, every after-hook still runs. |
| Dispatch.ActionFailureIsContained | src/main/kotlin/com/rkhamatyarov/laret/model/Command.kt:88-95 | A throwing action ends as `ActionFailed`, and the after-hooks follow the action call. |
| Dispatch.UngatedRunsActionAlone | src/main/kotlin/com/rkhamatyarov/laret/model/Command.kt:27-95 | Without an app that has plugins, no hook runs. The trace holds only the action call. |
| Dispatch.FileCreateExample | src/main/kotlin/com/rkhamatyarov/laret/model/Command.kt:38-88 | `/tmp/a.txt -c hi` binds `path` and `content` and completes. |
| App.FindGroup | src/main/kotlin/com/rkhamatyarov/laret/core/CliApp.kt:76-77 | None exactly when no group has the name. Otherwise the first group so named. |
| App.FindCommand | src/main/kotlin/com/rkhamatyarov/laret/core/CliApp.kt:85-86 | None exactly when no command of the group has the name. Otherwise the first command so named. |
| App.AppRoute | src/main/kotlin/com/rkhamatyarov/laret/core/CliApp.kt:62-95 | `NoDispatch` exactly when fewer than two tokens are routed. Group help happens exactly for two tokens ending in a help flag with a known group. Group-not-found happens exactly for an unknown group. A command-not-found names the first group so named. A dispatch goes to the first matching group and command, with the tokens after the first two. |
| App.MatchIsDispatched | src/main/kotlin/com/rkhamatyarov/laret/core/CliApp.kt:73-94 | Two or more tokens, other than `<group> -h`, whose group and command both exist are dispatched to the first such group and its first such command, with the tokens after the first two. |
| App.MissingCommandReported | src/main/kotlin/com/rkhamatyarov/laret/core/CliApp.kt:85-92 | Two or more tokens, other than `<group> -h`, naming a known group but no command of it give `CommandNotFound` for the first group so named. |
| App.Filtered | src/main/kotlin/com/rkhamatyarov/laret/core/CliApp.kt:50 | Keeps exactly the tokens other than `--quiet`, and never more tokens than it was given. |
| App.FindPluginIndex | src/main/kotlin/com/rkhamatyarov/laret/core/CliApp.kt:172 | None exactly when no plugin has the name. Otherwise the first one so named. |
| App.CliApp.constructor | src/main/kotlin/com/rkhamatyarov/laret/core/CliApp.kt:17-24 | Defaults `1.0.0`, `""` and no groups. The app gets a fresh, empty plugin manager and quiet mode off. |
| App.CliApp.Run | src/main/kotlin/com/rkhamatyarov/laret/core/CliApp.kt:26-58 | Quiet mode is set exactly when `--quiet` occurs anywhere or the first token is `completion`. The outcome and trace are `RunOutcome` and `RunTrace`. |
| App.CliApp.ExecuteCommand | src/main/kotlin/com/rkhamatyarov/laret/core/CliApp.kt:62-95 | The route is `AppRoute`. The dispatch and its trace are those of the routed command, or nothing. |
| App.CliApp.RegisterPlugin | src/main/kotlin/com/rkhamatyarov/laret/core/CliApp.kt:142-145 | Appends one plugin and returns the app. |
| App.CliApp.RegisterPlugins | src/main/kotlin/com/rkhamatyarov/laret/core/CliApp.kt:147-150 | Appends the plugins in argument order and returns the app. |
| App.CliApp.InitializePlugins | src/main/kotlin/com/rkhamatyarov/laret/core/CliApp.kt:152-157 | Initializes every plugin exactly when there are plugins and quiet mode is off. Otherwise nothing is called. |
| App.CliApp.ShutdownPlugins | src/main/kotlin/com/rkhamatyarov/laret/core/CliApp.kt:159-164 | Shuts every plugin down under the same guard. |
| App.CliApp.FindPlugin | src/main/kotlin/com/rkhamatyarov/laret/core/CliApp.kt:172 | None exactly when no plugin has the name. Otherwise the first registered plugin with it. |
| App.HelpDispatchesNothing | src/main/kotlin/com/rkhamatyarov/laret/core/CliApp.kt:36-43 | No tokens, or a help flag first, show the application help. Only shutdown hooks run. |
| App.VersionDispatchesNothing | src/main/kotlin/com/rkhamatyarov/laret/core/CliApp.kt:45-47 | A version flag first shows `<name> version <version>`. Only shutdown hooks run. |
| App.FilteredWithoutQuiet | src/main/kotlin/com/rkhamatyarov/laret/core/CliApp.kt:50 | Tokens without `--quiet` reach the router unchanged. |
| App.FilteredDropsLeadingQuiet | src/main/kotlin/com/rkhamatyarov/laret/core/CliApp.kt:50 | A leading `--quiet` is dropped and the other tokens keep their order. |
| App.FilteredAppend | src/main/kotlin/com/rkhamatyarov/laret/core/CliApp.kt:50 | Filtering distributes over concatenation: each token is kept or dropped on its own, and the kept tokens stay in order with their repeats. |
| App.QuietAnywhereIsDropped | src/main/kotlin/com/rkhamatyarov/laret/core/CliApp.kt:50 | A `--quiet` anywhere among other tokens is dropped, and the others are routed unchanged. |
| App.QuietBeforeVersionIsRouted | src/main/kotlin/com/rkhamatyarov/laret/core/CliApp.kt:30-51 | The global flags are checked on the unfiltered first token. So `--quiet --version` is routed, as a lone token that dispatches nothing. |
| App.RunNeverInitializes | src/main/kotlin/com/rkhamatyarov/laret/core/CliApp.kt:26-58 | `run` never calls `initialize`. It shuts plugins down exactly when there are plugins and quiet mode is off. |
| App.LoneGroupTokenDispatchesNothing | src/main/kotlin/com/rkhamatyarov/laret/core/CliApp.kt:73 | A single routed token returns without output or dispatch. |
| App.LookupFailureRunsNothing | src/main/kotlin/com/rkhamatyarov/laret/core/CliApp.kt:76-92 | Group help, an unknown group and an unknown command run no action and no hook. |
| App.HelpFlagAfterGroup | src/main/kotlin/com/rkhamatyarov/laret/core/CliApp.kt:65-71 | `<group> -h` shows group help for a known group. For an unknown group it falls through to group-not-found. |
| App.ShadowedGroupUnreachable | src/main/kotlin/com/rkhamatyarov/laret/core/CliApp.kt:76-77 | A group preceded by one of the same name is never dispatched to and never shown. |
| App.DispatchPassesRest | src/main/kotlin/com/rkhamatyarov/laret/core/CliApp.kt:74-94 | The command receives the routed tokens without the first two. |
| Runner.RunnerAgreesWithApp | src/main/kotlin/com/rkhamatyarov/laret/core/CommandRunner.kt:12-46 | Each of the five routes corresponds exactly to the matching `CliApp.executeCommand` route. Only the help printed on failure differs. |
| Runner.RunnerRouteOf | src/main/kotlin/com/rkhamatyarov/laret/core/CommandRunner.kt:16-45 | No contract of its own: the runner's route. `RunnerAgreesWithApp` ties each of its five routes to `AppRoute`. |
| Runner.FewTokensReturn | src/main/kotlin/com/rkhamatyarov/laret/core/CommandRunner.kt:16-26 | Fewer than two tokens return without dispatch. |
| Runner.RunnerLookupFailures | src/main/kotlin/com/rkhamatyarov/laret/core/CommandRunner.kt:29-43 | An unknown group shows the application help. An unknown command shows command-not-found with its first-matching group. |
| Runner.Execute | src/main/kotlin/com/rkhamatyarov/laret/core/CommandRunner.kt:12-46 | The route is `RunnerRouteOf`. The dispatch and its trace are those of the routed command. |
| Builders.CommandsOf | src/main/kotlin/com/rkhamatyarov/laret/dsl/GroupBuilder.kt:18-26 | One command per `command` call, in call order, each built from its own block. |
| Builders.GroupsOf | src/main/kotlin/com/rkhamatyarov/laret/dsl/CliBuilder.kt:19-27 | One group per `group` call, in call order, each built from its own block. |
| Builders.ArgumentsOfAppend | src/main/kotlin/com/rkhamatyarov/laret/dsl/CommandBuilder.kt:22-38 | Arguments accumulate in definition order across the calls of a block. |
| Builders.OptionsOfAppend | src/main/kotlin/com/rkhamatyarov/laret/dsl/CommandBuilder.kt:43-59 | Options accumulate in definition order. |
| Builders.NoActionCallKeepsAction | src/main/kotlin/com/rkhamatyarov/laret/dsl/CommandBuilder.kt:64-66 | A block with no `action` call keeps the stored action, `{}` on a new builder. |
| Builders.LastActionWins | src/main/kotlin/com/rkhamatyarov/laret/dsl/CommandBuilder.kt:64-66 | The last `action` call determines the action, whatever came before it. |
| Builders.CommandBuilder.constructor | src/main/kotlin/com/rkhamatyarov/laret/dsl/CommandBuilder.kt:11-17 | No arguments, no options, the empty action, and description `""` by default. |
| Builders.CommandBuilder.Argument | src/main/kotlin/com/rkhamatyarov/laret/dsl/CommandBuilder.kt:22-38 | Appends one argument with the source's defaults. Nothing else changes. |
| Builders.CommandBuilder.Option | src/main/kotlin/com/rkhamatyarov/laret/dsl/CommandBuilder.kt:43-59 | Appends one option with the source's defaults. Nothing else changes. |
| Builders.CommandBuilder.Action | src/main/kotlin/com/rkhamatyarov/laret/dsl/CommandBuilder.kt:64-66 | Replaces the stored action. Nothing else changes. |
| Builders.CommandBuilder.RunBlock | src/main/kotlin/com/rkhamatyarov/laret/dsl/GroupBuilder.kt:23-24 | Running a block appends `ArgumentsOf` and `OptionsOf` it and leaves `ActionAfter` it. |
| Builders.CommandBuilder.Build | src/main/kotlin/com/rkhamatyarov/laret/dsl/CommandBuilder.kt:68-69 | The command from the builder's name, description, lists and action. |
| Builders.GroupBuilder.constructor | src/main/kotlin/com/rkhamatyarov/laret/dsl/GroupBuilder.kt:9-13 | No commands. |
| Builders.GroupBuilder.Command | src/main/kotlin/com/rkhamatyarov/laret/dsl/GroupBuilder.kt:18-26 | Appends exactly the command that a fresh builder makes from the block. |
| Builders.GroupBuilder.RunBlock | src/main/kotlin/com/rkhamatyarov/laret/dsl/CliBuilder.kt:24-25 | Running a group block appends `CommandsOf` it. |
| Builders.GroupBuilder.Build | src/main/kotlin/com/rkhamatyarov/laret/dsl/GroupBuilder.kt:28-29 | The group from the builder's name, description and commands. |
| Builders.CliBuilder.constructor | src/main/kotlin/com/rkhamatyarov/laret/dsl/CliBuilder.kt:9-14 | No groups. |
| Builders.CliBuilder.Group | src/main/kotlin/com/rkhamatyarov/laret/dsl/CliBuilder.kt:19-27 | Appends exactly one group, built from the block, duplicated names included. |
| Builders.CliBuilder.RunBlock | src/main/kotlin/com/rkhamatyarov/laret/dsl/LaretDsl.kt:14-15 | Running a `cli` block appends `GroupsOf` it. |
| Builders.CliBuilder.Build | src/main/kotlin/com/rkhamatyarov/laret/dsl/CliBuilder.kt:29 | A fresh app with the builder's name, version, description and groups, and no plugins. |
| Builders.BuildCommand | src/main/kotlin/com/rkhamatyarov/laret/dsl/GroupBuilder.kt:23-25 | A fresh builder run on a block builds `CommandOf` the block. |
| Builders.Cli | src/main/kotlin/com/rkhamatyarov/laret/dsl/LaretDsl.kt:8-17 | `cli` makes a fresh app whose groups are `GroupsOf` the block, with version `1.0.0` by default. |
| Builders.GroupNamesInCallOrder | src/main/kotlin/com/rkhamatyarov/laret/dsl/CliBuilder.kt:19-27 | Two `group` calls with one name both define a group, and the router reaches only the first. |
| Validation.Merge | src/main/kotlin/com/rkhamatyarov/laret/config/validator/ValidationRule.kt:14-19 | No contract of its own: the field-wise merge. `MergeIdentity`, `MergeAssociative`, `MergeKeepsEverything` and `InvalidAbsorbs` state its laws. |
| Validation.MergeIdentity | src/main/kotlin/com/rkhamatyarov/laret/config/validator/ValidationRule.kt:14-19 | An empty valid result is a left and right identity of `merge`. |
| Validation.MergeAssociative | src/main/kotlin/com/rkhamatyarov/laret/config/validator/ValidationRule.kt:14-19 | `merge` is associative. |
| Validation.MergeKeepsEverything | src/main/kotlin/com/rkhamatyarov/laret/config/validator/ValidationRule.kt:14-19 | Validity is the conjunction. Errors and warnings are the left ones followed by the right ones. |
| Validation.InvalidAbsorbs | src/main/kotlin/com/rkhamatyarov/laret/config/validator/ValidationRule.kt:14-19 | Once invalid, a merge on either side stays invalid. |
| Validation.AppNameResult | src/main/kotlin/com/rkhamatyarov/laret/config/validator/ConfigValidator.kt:40-52 | Valid exactly when the name is not blank and has at most 100 characters. Otherwise it carries the one fixed error. |
| Validation.OutputFormatResult | src/main/kotlin/com/rkhamatyarov/laret/config/validator/ConfigValidator.kt:54-67 | Valid exactly when the format is one of the four lower-case names. Otherwise the error names the format and the list. |
| Validation.LoggingLevelResult | src/main/kotlin/com/rkhamatyarov/laret/config/validator/ConfigValidator.kt:69-82 | Valid exactly when the upper-cased level is one of the five. Otherwise the error names the level as given. |
| Validation.BlankPaths | src/main/kotlin/com/rkhamatyarov/laret/config/validator/ConfigValidator.kt:86-88 | Keeps exactly the blank paths. |
| Validation.PluginPathsResult | src/main/kotlin/com/rkhamatyarov/laret/config/validator/ConfigValidator.kt:84-99 | Valid exactly when no path is blank. Otherwise there is one error, however many paths are blank. |
| Validation.AllErrorsSnoc | src/main/kotlin/com/rkhamatyarov/laret/config/validator/ConfigValidator.kt:23-34 | The errors of a rule list are those of all but the last rule, then the last rule's. |
| Validation.AllWarningsSnoc | src/main/kotlin/com/rkhamatyarov/laret/config/validator/ConfigValidator.kt:23-34 | The same for warnings. |
| Validation.ValidateAll | src/main/kotlin/com/rkhamatyarov/laret/config/validator/ConfigValidator.kt:20-37 | No contract of its own: the rule results merged in rule order. `ValidateMeaning` characterises it, and `ConfigValidator.Validate` equals it. |
| Validation.ValidateMeaning | src/main/kotlin/com/rkhamatyarov/laret/config/validator/ConfigValidator.kt:20-37 | Valid exactly when every rule passes, a throwing rule counting as failing. Errors and warnings are every rule's, in rule order; a throwing rule contributes `Validation rule failed: <message>`. |
| Validation.DefaultConfigIsValid | src/main/kotlin/com/rkhamatyarov/laret/config/validator/ConfigValidator.kt:8-13 | The default configuration passes the four built-in rules with no message. |
| Validation.LevelCaseInsensitive | src/main/kotlin/com/rkhamatyarov/laret/config/validator/ConfigValidator.kt:72 | Levels that differ only in letter case are judged alike. |
| Validation.FormatCaseSensitive | src/main/kotlin/com/rkhamatyarov/laret/config/validator/ConfigValidator.kt:57 | `json` passes and `JSON` fails. |
| Validation.ConfigValidator.constructor | src/main/kotlin/com/rkhamatyarov/laret/config/validator/ConfigValidator.kt:5-13 | A new validator holds the four built-in rules, in order. |
| Validation.ConfigValidator.AddRule | src/main/kotlin/com/rkhamatyarov/laret/config/validator/ConfigValidator.kt:15-18 | Appends the rule and returns the validator. |
| Validation.ConfigValidator.Validate | src/main/kotlin/com/rkhamatyarov/laret/config/validator/ConfigValidator.kt:20-37 | The loop's result is `ValidateAll` of the held rules. |
| ConfigFormat.FromFile | src/main/kotlin/com/rkhamatyarov/laret/config/ConfigFormat.kt:12-18 | No contract of its own: selection by the lower-cased extension. `FromFileByExtension` states which extension selects which format, in both directions. |
| ConfigFormat.FromFileName | src/main/kotlin/com/rkhamatyarov/laret/config/ConfigFormat.kt:20-26 | No contract of its own: selection by case-sensitive suffix. `DetectionAgreesOnLowerCase` and `DetectionDisagreesOnUpperCase` compare it with `FromFile`. |
| ConfigFormat.FromFileOnLowerCase | src/main/kotlin/com/rkhamatyarov/laret/config/ConfigFormat.kt:12-18 | On a lower-case extension, `fromFile` selects by the extension itself. |
| ConfigFormat.ExtensionIffSuffix | src/main/kotlin/com/rkhamatyarov/laret/config/ConfigFormat.kt:12-26 | For a word `w` with no dot or slash, a file's extension is `w` exactly when its path ends in `.w`. |
| ConfigFormat.DetectionAgreesOnLowerCase | src/main/kotlin/com/rkhamatyarov/laret/config/ConfigFormat.kt:12-26 | For a lower-case extension, detection by extension and by suffix agree. |
| ConfigFormat.DetectionDisagreesOnUpperCase | src/main/kotlin/com/rkhamatyarov/laret/config/ConfigFormat.kt:12-26 | `X.YML` is YAML by extension and unrecognised by suffix. |
| ConfigFormat.FromFileByExtension | src/main/kotlin/com/rkhamatyarov/laret/config/ConfigFormat.kt:12-18 | Each recognised extension, in any case, selects its format, in both directions. No extension selects none. |
| HelpFormat.CommandLineLayout | src/main/kotlin/com/rkhamatyarov/laret/ui/HelpFormatter.kt:9 | A command line is two spaces, then the name intact, padded with spaces to at least 20 columns, then one space and the description. |
| HelpFormat.OptionLineLayout | src/main/kotlin/com/rkhamatyarov/laret/ui/HelpFormatter.kt:15-16 | An option line is two spaces, then `-s, --long` padded to at least 25 columns, then one space and the description. |
| HelpFormat.FormatCommandList | src/main/kotlin/com/rkhamatyarov/laret/ui/HelpFormatter.kt:7-10 | No contract of its own: the command lines joined by newlines. The `FormatCommandList…` lemmas, `CommandLineLayout` and `NamesAppearIntact` state its shape. |
| HelpFormat.FormatCommandListSmall | src/main/kotlin/com/rkhamatyarov/laret/ui/HelpFormatter.kt:7-10 | No commands give `""`. One command gives its line. |
| HelpFormat.FormatCommandListAppend | src/main/kotlin/com/rkhamatyarov/laret/ui/HelpFormatter.kt:7-10 | Two lists format as their concatenation, with one newline between. |
| HelpFormat.NamesAppearIntact | src/main/kotlin/com/rkhamatyarov/laret/ui/HelpFormatter.kt:7-10 | Every command name, however long, appears in the list. |
| HelpFormat.FormatOptionsList | src/main/kotlin/com/rkhamatyarov/laret/ui/HelpFormatter.kt:13-17 | No contract of its own: the option lines joined by newlines. The `FormatOptionsList…` lemmas, `OptionLineLayout` and `FlagsAppearIntact` state its shape. |
| HelpFormat.FormatOptionsListSmall | src/main/kotlin/com/rkhamatyarov/laret/ui/HelpFormatter.kt:13-17 | No options give `""`. One option gives its line. |
| HelpFormat.FormatOptionsListAppend | src/main/kotlin/com/rkhamatyarov/laret/ui/HelpFormatter.kt:13-17 | Two lists format as their concatenation, with one newline between. |
| HelpFormat.FlagsAppearIntact | src/main/kotlin/com/rkhamatyarov/laret/ui/HelpFormatter.kt:13-17 | Every option's `-s, --long` appears in the list. |
| BashCompletion.Generate | src/main/kotlin/com/rkhamatyarov/laret/completion/BashCompletionGenerator.kt:6-52 | No contract of its own: the script. The lemmas below state what is in it. |
| BashCompletion.Framing | src/main/kotlin/com/rkhamatyarov/laret/completion/BashCompletionGenerator.kt:17-52 | In the model's text, with indentation dropped, the script starts with the bash shebang and names the app in its header. It defines `_<app>_complete()` and ends with the `complete ... -F _<app>_complete <app>` line. |
| BashCompletion.OptionWordsDistinct | src/main/kotlin/com/rkhamatyarov/laret/completion/BashCompletionGenerator.kt:14-15 | The option words are duplicate-free, and are exactly the `--long` of every option of every command. |
| BashCompletion.OptionWordsKeepFirstOccurrences | src/main/kotlin/com/rkhamatyarov/laret/completion/BashCompletionGenerator.kt:14 | With repeated long names too, the option words are duplicate-free, are exactly the options' `--long` spellings, and keep the order of their first occurrences. |
| BashCompletion.OptionWordsInOrder | src/main/kotlin/com/rkhamatyarov/laret/completion/BashCompletionGenerator.kt:14 | With distinct long names, the option words are the options' `--long` in declaration order. |
| BashCompletion.GroupNameAppears | src/main/kotlin/com/rkhamatyarov/laret/completion/BashCompletionGenerator.kt:8-29 | Every group name appears, in the `groups` word list. |
| BashCompletion.GroupCaseInCases | src/main/kotlin/com/rkhamatyarov/laret/completion/BashCompletionGenerator.kt:10-12 | Every group's case arm is among the joined case arms. |
| BashCompletion.GroupCaseAppears | src/main/kotlin/com/rkhamatyarov/laret/completion/BashCompletionGenerator.kt:10-12 | Every group has its `name) commands="…" ;;` case arm. |
| BashCompletion.CommandNameAppears | src/main/kotlin/com/rkhamatyarov/laret/completion/BashCompletionGenerator.kt:10-12 | Every command name appears in its group's arm and in the script. |
| BashCompletion.OptionInOptionsLine | src/main/kotlin/com/rkhamatyarov/laret/completion/BashCompletionGenerator.kt:14-44 | Every option's `--long` is in the third-word completion line. |
| BashCompletion.OptionAppears | src/main/kotlin/com/rkhamatyarov/laret/completion/BashCompletionGenerator.kt:14-44 | Every option's `--long` appears, in the third-word completion list. |
| ZshCompletion.Generate | src/main/kotlin/com/rkhamatyarov/laret/completion/ZshCompletionGenerator.kt:6-76 | No contract of its own: the script. The lemmas below state what is in it. |
| ZshCompletion.Framing | src/main/kotlin/com/rkhamatyarov/laret/completion/ZshCompletionGenerator.kt:47-76 | In the model's text, with indentation dropped, the script starts with `#compdef <app>`. It defines `_<app>()` and ends with `_<app> "$@"`. |
| ZshCompletion.GroupEntryAppears | src/main/kotlin/com/rkhamatyarov/laret/completion/ZshCompletionGenerator.kt:9-12 | Every group has its `'name:description'` entry. |
| ZshCompletion.CommandEntryAppears | src/main/kotlin/com/rkhamatyarov/laret/completion/ZshCompletionGenerator.kt:14-27 | Every command has its `'name:description'` entry, in its group's block and in the script. |
| ZshCompletion.CommandSpecNotGlobal | src/main/kotlin/com/rkhamatyarov/laret/completion/ZshCompletionGenerator.kt:29-40 | No command option spec equals a global spec. |
| ZshCompletion.GlobalSpecsDiffer | src/main/kotlin/com/rkhamatyarov/laret/completion/ZshCompletionGenerator.kt:36-40 | The help and version specs differ. |
| ZshCompletion.GlobalsFollowCommandSpecs | src/main/kotlin/com/rkhamatyarov/laret/completion/ZshCompletionGenerator.kt:29-45 | The second `distinct` changes nothing. The specs are the de-duplicated command specs, then the help spec, then the version spec. |
| ZshCompletion.OptionSpecsContents | src/main/kotlin/com/rkhamatyarov/laret/completion/ZshCompletionGenerator.kt:29-45 | The specs are duplicate-free, contain both global specs, and otherwise exactly the `'--long[description]'` of every option. |
| ZshCompletion.OptionSpecInList | src/main/kotlin/com/rkhamatyarov/laret/completion/ZshCompletionGenerator.kt:29-45 | Every option's spec is in the joined option specs. |
| ZshCompletion.OptionSpecAppears | src/main/kotlin/com/rkhamatyarov/laret/completion/ZshCompletionGenerator.kt:29-45 | Every option's spec appears in the script. |
| PowerShellCompletion.Generate | src/main/kotlin/com/rkhamatyarov/laret/completion/PowerShellCompletionGenerator.kt:6-106 | No contract of its own: the script. The lemmas below state what is in it. |
| PowerShellCompletion.OptionItems | src/main/kotlin/com/rkhamatyarov/laret/completion/PowerShellCompletionGenerator.kt:77-92 | Each option contributes exactly two items. |
| PowerShellCompletion.OptionItemsAt | src/main/kotlin/com/rkhamatyarov/laret/completion/PowerShellCompletionGenerator.kt:77-92 | In order and with repeats kept, item 2k is `,` and `'--long'` of option k, and item 2k+1 is `,` and `'-short'`. |
| PowerShellCompletion.Framing | src/main/kotlin/com/rkhamatyarov/laret/completion/PowerShellCompletionGenerator.kt:9-106 | The script starts with `# PowerShell completion for <app>`. It registers the completer for `<app>` and ends by registering it for `<app>.exe`. |
| PowerShellCompletion.NoWordOffersGroups | src/main/kotlin/com/rkhamatyarov/laret/completion/PowerShellCompletionGenerator.kt:35-41 | The script holds the no-word branch's opening lines, then the quoted group list, then its closing lines. |
| PowerShellCompletion.OneWordChecksGroups | src/main/kotlin/com/rkhamatyarov/laret/completion/PowerShellCompletionGenerator.kt:42-51 | The script holds the one-word branch's opening lines, then the group list the word is checked against, then the lines opening the `switch`. |
| PowerShellCompletion.PartialOffersGroups | src/main/kotlin/com/rkhamatyarov/laret/completion/PowerShellCompletionGenerator.kt:67-73 | The script holds the partial-group branch's opening lines, then the group list, then its closing lines. |
| PowerShellCompletion.SwitchCasesThenDefault | src/main/kotlin/com/rkhamatyarov/laret/completion/PowerShellCompletionGenerator.kt:52-66 | The script holds the group cases, then `default { @() }`, then the lines closing the `switch`. |
| PowerShellCompletion.GroupNameAppears | src/main/kotlin/com/rkhamatyarov/laret/completion/PowerShellCompletionGenerator.kt:37-38 | Every group name appears quoted. |
| PowerShellCompletion.CommandInSwitchCase | src/main/kotlin/com/rkhamatyarov/laret/completion/PowerShellCompletionGenerator.kt:53-61 | Every command name appears quoted in its group's case. |
| PowerShellCompletion.SwitchCaseAppears | src/main/kotlin/com/rkhamatyarov/laret/completion/PowerShellCompletionGenerator.kt:52-63 | Every group's case is in the script. |
| PowerShellCompletion.CommandNameAppears | src/main/kotlin/com/rkhamatyarov/laret/completion/PowerShellCompletionGenerator.kt:52-63 | Every command name appears quoted in its case and in the script. |
| PowerShellCompletion.OptionAppears | src/main/kotlin/com/rkhamatyarov/laret/completion/PowerShellCompletionGenerator.kt:77-93 | Both `'--long'` and `'-short'` of every option appear. |
| Completion.GenerateCompletion | src/main/kotlin/com/rkhamatyarov/laret/completion/CompletionExtensions.kt:8-20 | Refused exactly when the lower-cased shell is none of `bash`, `zsh` and `powershell`. The refusal message is `Unsupported shell: <shell>`. |
| Completion.SelectionIgnoresCase | src/main/kotlin/com/rkhamatyarov/laret/completion/CompletionExtensions.kt:12-15 | Shell names that differ only in case give the same script, or are both refused. |
| Completion.BashSelected | src/main/kotlin/com/rkhamatyarov/laret/completion/CompletionExtensions.kt:13 | `bash` in any case gives the bash generator's script. |
| Completion.ZshSelected | src/main/kotlin/com/rkhamatyarov/laret/completion/CompletionExtensions.kt:14 | `zsh` in any case gives the zsh generator's script. |
| Completion.PowerShellSelected | src/main/kotlin/com/rkhamatyarov/laret/completion/CompletionExtensions.kt:15 | `powershell` in any case gives the PowerShell generator's script. |
| Completion.DefaultIsBash | src/main/kotlin/com/rkhamatyarov/laret/completion/CompletionExtensions.kt:8 | Without a shell, the bash script is generated. |
| Completion.UpperCaseBash | src/main/kotlin/com/rkhamatyarov/laret/completion/CompletionExtensions.kt:12-13 | `BASH` gives the bash script. |
| Completion.CapitalisedZsh | src/main/kotlin/com/rkhamatyarov/laret/completion/CompletionExtensions.kt:12-14 | `Zsh` gives the zsh script. |
| Completion.CamelCasePowerShell | src/main/kotlin/com/rkhamatyarov/laret/completion/CompletionExtensions.kt:12-15 | `PowerShell` gives the PowerShell script. |
| Completion.UnsupportedShellNamed | src/main/kotlin/com/rkhamatyarov/laret/completion/CompletionExtensions.kt:16 | Any other shell is refused with a message containing `Unsupported shell` and ending with the shell as given. |
| Completion.FishUnsupported | src/main/kotlin/com/rkhamatyarov/laret/completion/CompletionExtensions.kt:16 | `fish` is refused with `Unsupported shell: fish`. |

`CliApp.isQuietMode`, `hasPlugins` and `isCompletionCommand` are modelled as the predicates `App.CliApp.IsQuietMode`, `App.CliApp.HasPlugins` and `App.IsCompletionCommand`. They are used in the contracts of `Run`, `InitializePlugins`, `ShutdownPlugins` and `Dispatch.Execute`.

## Left out

**Not modelled:**
- **Terminal output, ANSI and logging.** Jansi installation, colours, `showHelp` banners, group and command help, and logger calls are not modelled. Each printed message is an outcome value. `disableLogging` is reduced to setting quiet mode.
- **Exact text of the stderr messages.** The messages the plugin manager and validator print on stderr are not modelled. Their effect, the contained exception, is; the validator's recorded error text is kept.
- **Configuration loading.** This is file-system probing, Jackson parsing and environment overrides, which is I/O. The configuration records appear only as validator input.
- **Output strategies and `CommandContext.render`.** They are serialisation wrappers, not framework logic. The context's `app` and `outputStrategy` back-references are dropped.
- **Completion installation** (`installCompletion`, `installPowerShellCompletion`). It writes files and reads environment variables.
- **The example application and its plugin.** They use the file system and the clock.
- **Exact generator whitespace.** The scripts are modelled line by line with the indentation left by `trimIndent` and `trimMargin` dropped. Each run of fixed lines is held as one multi-line constant. The computed names and lists are exact. The leading spaces that computed fragments carry are dropped too: the spaces before each bash case arm, before each zsh group and command entry, after each ` \` in the zsh option separator, and before each quoted name in the PowerShell lists. Apart from where a script begins, properties are stated on contents and order, not on columns.

**Behaviour reduced to scripts:**
- **Action bodies and exception payloads.** An action is reduced to "invoked" and "threw". The model does not capture an action changing the application, for example registering plugins, which would change what `hasPlugins()` answers in `finally`.
- **Plugins.** A plugin's hooks are fixed scripts, independent of the command passed to `beforeExecute` and `afterExecute` and of the app passed to `initialize`. The plugin's `version` is carried as data; no modelled operation reads it.

**Simplified representation:**
- **Builder list aliasing.** `build()` hands its mutable lists to `Command`, `CommandGroup` and `CliApp`, so a later builder call would show through. The model copies them as values.
- **Paths.** `java.io.File` is reduced to its path string. `File.name` is the part after the last `/`, and no normalisation is done.
- **Dispatch.Execute:** takes the application's `PluginManager?` instead of the application itself.

**Weaker contracts:**
- **BashCompletion.Framing:** the prefix clause holds of the model's text only. `trimIndent` runs after interpolation and removes the smallest indent of any non-blank line. With two or more groups, the second and later case arms carry only four spaces. The source's script then begins with leading spaces before `#!/bin/bash`. The shebang still occurs in it, and it still ends with the `complete` line.
- **ZshCompletion.Framing:** the same holds for `#compdef <app>`. Each command block is trimmed on its own and spliced in at a smaller indent. So for any application with a group, the source's first line keeps leading spaces.
- **Strings.Lower:** maps only ASCII letters. Kotlin's `lowercase()` also maps other Unicode letters. The results differ only for non-ASCII text, and they never create the ASCII words the source compares against.
- **Strings.Upper:** maps ASCII letters plus dotless i and long s, the two non-ASCII letters whose upper case is ASCII. Other letters are kept.
- **Context.ParseInt:** accepts ASCII digits only. Kotlin's `toIntOrNull` also accepts other Unicode decimal digits.
- **Dispatch.ShortTokenShape:** counts a token's characters as code points. Kotlin's `length` counts UTF-16 units, so `-` followed by a character outside the Basic Multilingual Plane is a short flag in the model but not in the source.
- **Validation.AppNameResult:** counts `length` as code points, with the same UTF-16 caveat. The same holds for the `padEnd` widths in `HelpFormat.CommandLineLayout` and `HelpFormat.OptionLineLayout`.
