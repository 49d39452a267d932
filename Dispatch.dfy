/** The command dispatcher (`Command.execute` in model/Command.kt): a plugin
    gate, one left-to-right scan over the tokens that binds options and
    positional arguments, the required-argument check, the action call, and
    the after-hook that the `finally` block runs.

    `ScanState`, `Step` and `Scan` state what the scan computes; `Execute` is
    the loop itself, proved to compute it. */
module Dispatch {
  import opened Strings
  import opened Schema
  import opened Plugins
  import opened Context

  // ---------------------------------------------------------------------
  // The token scan

  /** The loop's variables: the token cursor `i`, the positional cursor
      `argIndex`, and the two maps of the context. */
  datatype ScanState = ScanState(
    i: nat,
    argIndex: nat,
    arguments: map<string, string>,
    options: map<string, string>)

  const Start: ScanState := ScanState(0, 0, map[], map[])

  /** The token after position `i`, when there is one that does not start
      with `-` (the only kind an option may take as its value). */
  function NextValue(args: seq<string>, i: nat): (r: Maybe<string>)
    ensures r.Some? <==> i + 1 < |args| && !StartsWith(args[i + 1], "-")
    ensures r.Some? ==> r.value == args[i + 1]
  {
    if i + 1 < |args| && !StartsWith(args[i + 1], "-") then Some(args[i + 1]) else None
  }

  /** The first option declared with this long name (`options.find { it.long == name }`). */
  function FindLong(options: seq<Option>, name: string): Maybe<nat>
  {
    IndexOf(LongNames(options), name)
  }

  /** The first option declared with this short name. */
  function FindShort(options: seq<Option>, name: string): Maybe<nat>
  {
    IndexOf(ShortNames(options), name)
  }

  /** Binds a recognised option under its long name: to the next token when
      the option takes a value and such a token follows (skipping it), or to
      the literal `"true"`. */
  function BindOption(o: Option, next: Maybe<string>, st: ScanState): (r: ScanState)
  {
    if o.takesValue && next.Some? then
      st.(i := st.i + 2, options := st.options[o.long := next.value])
    else
      st.(i := st.i + 1, options := st.options[o.long := "true"])
  }

  /** One turn of the loop on token `arg`, followed by `next`. The
      source's `when` has no `else` branch: a dash token that is neither a
      long flag nor a two-character short flag is passed over. */
  function TokenStep(cmd: Command, arg: string, next: Maybe<string>, st: ScanState): ScanState
  {
    if StartsWith(arg, "--") then
      match FindLong(cmd.options, arg[2..])
      case Some(k) => BindOption(cmd.options[k], next, st)
      case None => st.(i := st.i + 1)
    else if StartsWith(arg, "-") && |arg| == 2 then
      match FindShort(cmd.options, arg[1..])
      case Some(k) => BindOption(cmd.options[k], next, st)
      case None => st.(i := st.i + 1)
    else if !StartsWith(arg, "-") then
      if st.argIndex < |cmd.arguments| then
        st.(i := st.i + 1,
            argIndex := st.argIndex + 1,
            arguments := st.arguments[cmd.arguments[st.argIndex].name := arg])
      else
        st.(i := st.i + 1)
    else
      st.(i := st.i + 1)
  }

  /** One turn of the loop at the current cursor. Every token is looked at
      once; the cursor moves past one token, or past two when an option
      takes the following token as its value. */
  function Step(cmd: Command, args: seq<string>, st: ScanState): (r: ScanState)
    requires st.i < |args|
    ensures r.i == st.i + 1 || (r.i == st.i + 2 && NextValue(args, st.i).Some?)
    ensures r.i <= |args|
  {
    TokenStep(cmd, args[st.i], NextValue(args, st.i), st)
  }

  /** The rest of the loop from state `st`; it ends with the cursor at the
      end of the tokens. */
  function Scan(cmd: Command, args: seq<string>, st: ScanState): (r: ScanState)
    requires st.i <= |args|
    ensures r.i == |args|
    decreases |args| - st.i
  {
    if st.i == |args| then st else Scan(cmd, args, Step(cmd, args, st))
  }

  /** What the whole loop binds, starting from an empty context. */
  function Parse(cmd: Command, args: seq<string>): ScanState
  {
    Scan(cmd, args, Start)
  }

  // ---------------------------------------------------------------------
  // The required-argument check

  /** An argument whose absence stops the command. */
  predicate Demanded(a: Argument)
  {
    a.required && !a.optional
  }

  function MissingMarks(decls: seq<Argument>, bound: map<string, string>): (r: seq<bool>)
    ensures |r| == |decls|
    ensures forall k :: 0 <= k < |r| ==> r[k] == (Demanded(decls[k]) && decls[k].name !in bound)
  {
    seq(|decls|, k requires 0 <= k < |decls| => Demanded(decls[k]) && decls[k].name !in bound)
  }

  /** The first demanded argument, in declaration order, that nothing was
      bound to; the one the error message names. */
  function FirstMissing(decls: seq<Argument>, bound: map<string, string>): (r: Maybe<nat>)
    ensures r.None? <==> forall k :: 0 <= k < |decls| && Demanded(decls[k]) ==> decls[k].name in bound
    ensures r.Some? ==> r.value < |decls| && Demanded(decls[r.value]) && decls[r.value].name !in bound
    ensures r.Some? ==> forall k :: 0 <= k < r.value && Demanded(decls[k]) ==> decls[k].name in bound
  {
    var marks := MissingMarks(decls, bound);
    assert forall k :: 0 <= k < |decls| ==> (marks[k] <==> Demanded(decls[k]) && decls[k].name !in bound);
    IndexOf(marks, true)
  }

  // ---------------------------------------------------------------------
  // The whole of `execute`

  /** How a dispatch ends, each printed message reduced to what it reports. */
  datatype ExecOutcome =
    | Rejected                      // "Plugin rejected execution of command"
    | ArgumentMissing(name: string) // "Required argument ... not provided", command help
    | Completed                     // the action returned
    | ActionFailed                  // the action threw; "Error: ..." and the stack trace

  /** `app?.hasPlugins() == true`: the hooks run only for an app that has plugins. */
  predicate Gated(manager: PluginManager?)
    reads manager
  {
    manager != null && manager.plugins != []
  }

  function PluginsOf(manager: PluginManager?): seq<Plugin>
    reads manager
  {
    if manager == null then [] else manager.plugins
  }

  /** How `execute` ends for these tokens, plugins and gate. */
  function Outcome(cmd: Command, args: seq<string>, ps: seq<Plugin>, gated: bool): ExecOutcome
  {
    if gated && !BeforeAllows(ps) then Rejected
    else match FirstMissing(cmd.arguments, Parse(cmd, args).arguments)
      case Some(k) => ArgumentMissing(cmd.arguments[k].name)
      case None => if ActionThrows(cmd.action) then ActionFailed else Completed
  }

  predicate ActionRan(o: ExecOutcome)
  {
    o == Completed || o == ActionFailed
  }

  /** What `execute` invokes, in order: the before-hooks (behind the gate),
      the action (when the arguments are complete), and the after-hooks of
      the `finally` block (skipped when the gate rejected, since `execute`
      returns before its `try`). */
  function ExecTrace(cmd: Command, args: seq<string>, ps: seq<Plugin>, gated: bool): seq<Event>
  {
    var o := Outcome(cmd, args, ps, gated);
    (if gated then Calls(OnBeforeExecute, ps, BeforeReach(ps)) else [])
    + (if ActionRan(o) then [ActionCall(o == ActionFailed)] else [])
    + (if gated && o != Rejected then Calls(OnAfterExecute, ps, |ps|) else [])
  }

  /** A dispatch calls only the before- and after-hooks. */
  lemma ExecTraceHooks(cmd: Command, args: seq<string>, ps: seq<Plugin>, gated: bool)
    ensures forall e :: e in ExecTrace(cmd, args, ps, gated) && e.PluginCall? ==>
      e.hook == OnBeforeExecute || e.hook == OnAfterExecute
  {
  }

  /** The `while` loop of `execute`: binds the tokens into a fresh context. */
  method BindTokens(cmd: Command, args: seq<string>, ctx: CommandContext)
    requires ctx.arguments == map[] && ctx.options == map[]
    modifies ctx
    ensures ctx.arguments == Parse(cmd, args).arguments && ctx.options == Parse(cmd, args).options
  {
    var argIndex, i := 0, 0;
    while i < |args|
      invariant i <= |args|
      invariant Scan(cmd, args, ScanState(i, argIndex, ctx.arguments, ctx.options)) == Parse(cmd, args)
    {
      ghost var st := ScanState(i, argIndex, ctx.arguments, ctx.options);
      ghost var next := NextValue(args, i);
      var arg := args[i];
      if StartsWith(arg, "--") {
        var found := FindLong(cmd.options, arg[2..]);
        if found.Some? {
          var opt := cmd.options[found.value];
          if opt.takesValue && i + 1 < |args| && !StartsWith(args[i + 1], "-") {
            ctx.options := ctx.options[opt.long := args[i + 1]];
            i := i + 1;
          } else {
            ctx.options := ctx.options[opt.long := "true"];
          }
          assert ScanState(i + 1, argIndex, ctx.arguments, ctx.options) == BindOption(opt, next, st);
        }
      } else if StartsWith(arg, "-") && |arg| == 2 {
        var found := FindShort(cmd.options, arg[1..]);
        if found.Some? {
          var opt := cmd.options[found.value];
          if opt.takesValue && i + 1 < |args| && !StartsWith(args[i + 1], "-") {
            ctx.options := ctx.options[opt.long := args[i + 1]];
            i := i + 1;
          } else {
            ctx.options := ctx.options[opt.long := "true"];
          }
          assert ScanState(i + 1, argIndex, ctx.arguments, ctx.options) == BindOption(opt, next, st);
        }
      } else if !StartsWith(arg, "-") {
        if argIndex < |cmd.arguments| {
          ctx.arguments := ctx.arguments[cmd.arguments[argIndex].name := arg];
          argIndex := argIndex + 1;
        }
      }
      i := i + 1;
      assert ScanState(i, argIndex, ctx.arguments, ctx.options) == Step(cmd, args, st);
    }
  }

  /** The `forEach` over the declared arguments: the first demanded one
      that is unbound, if any. */
  method CheckRequired(decls: seq<Argument>, bound: map<string, string>) returns (missing: Maybe<nat>)
    ensures missing == FirstMissing(decls, bound)
  {
    for k := 0 to |decls|
      invariant forall j :: 0 <= j < k && Demanded(decls[j]) ==> decls[j].name in bound
    {
      var a := decls[k];
      if a.required && !a.optional && a.name !in bound {
        assert forall j :: 0 <= j < k ==> MissingMarks(decls, bound)[j] != true;
        return Some(k);
      }
    }
    missing := None;
  }

  /** `Command.execute(args, app)`, with the app reduced to its plugin
      manager (`null` for a call without an app). */
  method Execute(cmd: Command, args: seq<string>, manager: PluginManager? := null)
    returns (ctx: CommandContext, outcome: ExecOutcome, trace: seq<Event>)
    ensures fresh(ctx) && ctx.command == cmd
    ensures outcome == Outcome(cmd, args, PluginsOf(manager), Gated(manager))
    ensures trace == ExecTrace(cmd, args, PluginsOf(manager), Gated(manager))
    ensures outcome == Rejected ==> ctx.arguments == map[] && ctx.options == map[]
    ensures outcome != Rejected ==>
      ctx.arguments == Parse(cmd, args).arguments && ctx.options == Parse(cmd, args).options
  {
    ctx := new CommandContext(cmd);
    trace := [];
    var gated := manager != null && manager.plugins != [];
    if gated {
      var allowed, before := manager.BeforeExecute();
      trace := before;
      if !allowed {
        outcome := Rejected;
        return;
      }
    }

    BindTokens(cmd, args, ctx);
    var missing := CheckRequired(cmd.arguments, ctx.arguments);
    if missing.Some? {
      outcome := ArgumentMissing(cmd.arguments[missing.value].name);
    } else {
      var failed := ActionThrows(cmd.action);
      trace := trace + [ActionCall(failed)];
      outcome := if failed then ActionFailed else Completed;
    }
    if gated {
      var after := manager.AfterExecute();
      trace := trace + after;
    }
  }

  // ---------------------------------------------------------------------
  // Properties of the scan

  /** A recognised long flag `--<long>` binds the first option so named,
      under its long name: to the following token when the option takes a
      value and that token does not start with `-` (which is then skipped),
      otherwise to `"true"`. Nothing else changes. */
  lemma LongFlagBinds(cmd: Command, args: seq<string>, st: ScanState, k: nat)
    requires st.i < |args| && k < |cmd.options|
    requires args[st.i] == "--" + cmd.options[k].long
    requires FindLong(cmd.options, cmd.options[k].long) == Some(k)
    ensures var o := cmd.options[k];
      var r := Step(cmd, args, st);
      r.arguments == st.arguments && r.argIndex == st.argIndex
      && (if o.takesValue && st.i + 1 < |args| && !StartsWith(args[st.i + 1], "-")
          then r.i == st.i + 2 && r.options == st.options[o.long := args[st.i + 1]]
          else r.i == st.i + 1 && r.options == st.options[o.long := "true"])
  {
    var arg := args[st.i];
    assert StartsWith(arg, "--");
    assert arg[2..] == cmd.options[k].long;
  }

  /** A recognised short flag `-<c>` behaves exactly like the long flag of
      the first option whose short name is `c`: it binds under the long name. */
  lemma ShortFlagBinds(cmd: Command, args: seq<string>, st: ScanState, k: nat)
    requires st.i < |args| && k < |cmd.options|
    requires |cmd.options[k].short| == 1 && cmd.options[k].short != "-"
    requires args[st.i] == "-" + cmd.options[k].short
    requires FindShort(cmd.options, cmd.options[k].short) == Some(k)
    ensures var o := cmd.options[k];
      var r := Step(cmd, args, st);
      r.arguments == st.arguments && r.argIndex == st.argIndex
      && (if o.takesValue && st.i + 1 < |args| && !StartsWith(args[st.i + 1], "-")
          then r.i == st.i + 2 && r.options == st.options[o.long := args[st.i + 1]]
          else r.i == st.i + 1 && r.options == st.options[o.long := "true"])
  {
    ShortTokenShape(cmd.options[k].short);
  }

  /** `-c` for a one-character name `c` other than `-` is a short flag: it
      starts with `-`, has two characters, is not a long flag, and names `c`. */
  lemma ShortTokenShape(c: string)
    requires |c| == 1 && c != "-"
    ensures var t := "-" + c;
      StartsWith(t, "-") && |t| == 2 && !StartsWith(t, "--") && t[1..] == c
  {
    var t := "-" + c;
    assert t[1] == c[0];
    assert t[..2] != "--" by {
      assert t[..2][1] == c[0] != '-';
    }
  }

  /** The tokens the scan passes over without binding anything: an unknown
      long flag, an unknown two-character short flag, and any other token
      other than a bare word (`-`, `-abc`). */
  lemma UnrecognisedTokenIgnored(cmd: Command, args: seq<string>, st: ScanState)
    requires st.i < |args|
    requires var t := args[st.i];
      || (StartsWith(t, "--") && FindLong(cmd.options, t[2..]).None?)
      || (StartsWith(t, "-") && !StartsWith(t, "--") && |t| == 2 && FindShort(cmd.options, t[1..]).None?)
      || (StartsWith(t, "-") && !StartsWith(t, "--") && |t| != 2)
    ensures Step(cmd, args, st) == st.(i := st.i + 1)
  {
  }

  /** A bare word fills the next positional argument while there is one left;
      once all are filled, further words are dropped. */
  lemma BareWordFillsNextPositional(cmd: Command, args: seq<string>, st: ScanState)
    requires st.i < |args| && !StartsWith(args[st.i], "-")
    ensures var r := Step(cmd, args, st);
      r.i == st.i + 1 && r.options == st.options
      && (if st.argIndex < |cmd.arguments|
          then r.argIndex == st.argIndex + 1
            && r.arguments == st.arguments[cmd.arguments[st.argIndex].name := args[st.i]]
          else r.argIndex == st.argIndex && r.arguments == st.arguments)
  {
  }

  /** Two token lists that differ only at `p`, where one spells option `k`
      long and the other short, scan alike from any state. */
  lemma {:induction false} ScanAgreesOnSpelling(
    cmd: Command, a: seq<string>, b: seq<string>, p: nat, k: nat, st: ScanState)
    requires |a| == |b| && p < |a| && k < |cmd.options|
    requires forall j :: 0 <= j < |a| && j != p ==> a[j] == b[j]
    requires a[p] == "--" + cmd.options[k].long
    requires FindLong(cmd.options, cmd.options[k].long) == Some(k)
    requires b[p] == "-" + cmd.options[k].short
    requires |cmd.options[k].short| == 1 && cmd.options[k].short != "-"
    requires FindShort(cmd.options, cmd.options[k].short) == Some(k)
    requires st.i <= |a|
    ensures Scan(cmd, a, st) == Scan(cmd, b, st)
    decreases |a| - st.i
  {
    if st.i < |a| {
      assert NextValue(a, st.i) == NextValue(b, st.i) by {
        if st.i + 1 == p {
          assert StartsWith(a[p], "-") by { assert a[p][..1] == "-"; }
          assert StartsWith(b[p], "-") by { assert b[p][..1] == "-"; }
        }
      }
      if st.i == p {
        assert StartsWith(a[p], "--") && a[p][2..] == cmd.options[k].long;
        ShortTokenShape(cmd.options[k].short);
      }
      assert Step(cmd, a, st) == Step(cmd, b, st);
      ScanAgreesOnSpelling(cmd, a, b, p, k, Step(cmd, a, st));
    }
  }

  /** Writing an option as `-s` or as `--long` makes no difference to what
      the command receives, wherever it stands among the other tokens. */
  lemma ShortAndLongSpellingsAgree(cmd: Command, pre: seq<string>, post: seq<string>, k: nat)
    requires k < |cmd.options|
    requires FindLong(cmd.options, cmd.options[k].long) == Some(k)
    requires |cmd.options[k].short| == 1 && cmd.options[k].short != "-"
    requires FindShort(cmd.options, cmd.options[k].short) == Some(k)
    ensures Parse(cmd, pre + ["--" + cmd.options[k].long] + post)
         == Parse(cmd, pre + ["-" + cmd.options[k].short] + post)
  {
    var a := pre + ["--" + cmd.options[k].long] + post;
    var b := pre + ["-" + cmd.options[k].short] + post;
    assert forall j :: 0 <= j < |a| && j != |pre| ==> a[j] == b[j];
    ScanAgreesOnSpelling(cmd, a, b, |pre|, k, Start);
  }

  /** The positional cursor never passes the declared arguments, and the
      bound argument names are exactly those of the first `argIndex`
      declared arguments. */
  ghost predicate PositionalsConsistent(cmd: Command, st: ScanState)
  {
    st.argIndex <= |cmd.arguments|
    && st.arguments.Keys == set j | 0 <= j < st.argIndex :: cmd.arguments[j].name
  }

  lemma StepKeepsPositionals(cmd: Command, args: seq<string>, st: ScanState)
    requires st.i < |args| && PositionalsConsistent(cmd, st)
    ensures PositionalsConsistent(cmd, Step(cmd, args, st))
  {
    var r := Step(cmd, args, st);
    if r.argIndex != st.argIndex {
      var n := st.argIndex;
      assert (set j | 0 <= j < n + 1 :: cmd.arguments[j].name)
          == (set j | 0 <= j < n :: cmd.arguments[j].name) + {cmd.arguments[n].name};
    }
  }

  lemma {:induction false} ScanKeepsPositionals(cmd: Command, args: seq<string>, st: ScanState)
    requires st.i <= |args| && PositionalsConsistent(cmd, st)
    ensures PositionalsConsistent(cmd, Scan(cmd, args, st))
    decreases |args| - st.i
  {
    if st.i < |args| {
      StepKeepsPositionals(cmd, args, st);
      ScanKeepsPositionals(cmd, args, Step(cmd, args, st));
    }
  }

  /** Positional arguments are filled in declaration order: after the scan,
      the names bound are those of a prefix of the declared arguments. */
  lemma BoundArgumentsArePrefix(cmd: Command, args: seq<string>)
    ensures Parse(cmd, args).argIndex <= |cmd.arguments|
    ensures Parse(cmd, args).arguments.Keys
         == set j | 0 <= j < Parse(cmd, args).argIndex :: cmd.arguments[j].name
  {
    ScanKeepsPositionals(cmd, args, Start);
  }

  function Min(a: nat, b: nat): nat
  {
    if a < b then a else b
  }

  predicate DistinctNames(decls: seq<Argument>)
  {
    forall x, y :: 0 <= x < y < |decls| ==> decls[x].name != decls[y].name
  }

  predicate AllBareWords(args: seq<string>)
  {
    forall t :: 0 <= t < |args| ==> !StartsWith(args[t], "-")
  }

  lemma {:induction false} ScanBareWords(cmd: Command, args: seq<string>, st: ScanState)
    requires st.i <= |args| && AllBareWords(args) && DistinctNames(cmd.arguments)
    requires st.argIndex == Min(st.i, |cmd.arguments|)
    requires forall j :: 0 <= j < st.argIndex ==>
      cmd.arguments[j].name in st.arguments && st.arguments[cmd.arguments[j].name] == args[j]
    ensures var r := Scan(cmd, args, st);
      r.options == st.options && r.argIndex == Min(|args|, |cmd.arguments|)
      && forall j :: 0 <= j < r.argIndex ==>
        cmd.arguments[j].name in r.arguments && r.arguments[cmd.arguments[j].name] == args[j]
    decreases |args| - st.i
  {
    if st.i < |args| {
      var r := Step(cmd, args, st);
      assert r.options == st.options;
      if st.argIndex < |cmd.arguments| {
        assert st.argIndex == st.i;
        forall j | 0 <= j < r.argIndex
          ensures cmd.arguments[j].name in r.arguments && r.arguments[cmd.arguments[j].name] == args[j]
        {
          if j < st.argIndex {
            assert cmd.arguments[j].name != cmd.arguments[st.argIndex].name;
          }
        }
      }
      ScanBareWords(cmd, args, r);
    }
  }

  /** With only bare words and distinct argument names, the `j`-th word is
      bound to the `j`-th declared argument, as far as both go, and no
      option is bound. */
  lemma BareWordsBindInOrder(cmd: Command, args: seq<string>)
    requires AllBareWords(args) && DistinctNames(cmd.arguments)
    ensures var r := Parse(cmd, args);
      r.options == map[] && r.argIndex == Min(|args|, |cmd.arguments|)
      && forall j :: 0 <= j < r.argIndex ==>
        cmd.arguments[j].name in r.arguments && r.arguments[cmd.arguments[j].name] == args[j]
  {
    ScanBareWords(cmd, args, Start);
  }

  // ---------------------------------------------------------------------
  // Properties of the whole dispatch

  /** A rejecting plugin stops the dispatch before the action and before the
      after-hooks: the trace holds before-hook calls only. */
  lemma RejectionRunsNothingElse(cmd: Command, args: seq<string>, ps: seq<Plugin>)
    requires !BeforeAllows(ps)
    ensures Outcome(cmd, args, ps, true) == Rejected
    ensures forall e :: e in ExecTrace(cmd, args, ps, true) ==> e.PluginCall? && e.hook == OnBeforeExecute
  {
  }

  /** A missing demanded argument stops the dispatch before the action, but
      the after-hooks still run (the `return` passes through `finally`). */
  lemma MissingArgumentSkipsAction(cmd: Command, args: seq<string>, ps: seq<Plugin>, gated: bool, k: nat)
    requires k < |cmd.arguments| && Demanded(cmd.arguments[k])
    requires cmd.arguments[k].name !in Parse(cmd, args).arguments
    requires !gated || BeforeAllows(ps)
    ensures Outcome(cmd, args, ps, gated).ArgumentMissing?
    ensures forall e :: e in ExecTrace(cmd, args, ps, gated) ==> e.PluginCall?
    ensures gated ==> forall j :: 0 <= j < |ps| ==>
      PluginCall(OnAfterExecute, j, Fails(ps[j], OnAfterExecute)) in ExecTrace(cmd, args, ps, gated)
  {
    var t := ExecTrace(cmd, args, ps, gated);
    if gated {
      forall j | 0 <= j < |ps|
        ensures PluginCall(OnAfterExecute, j, Fails(ps[j], OnAfterExecute)) in t
      {
        assert t == Calls(OnBeforeExecute, ps, BeforeReach(ps)) + Calls(OnAfterExecute, ps, |ps|);
        assert t[BeforeReach(ps) + j] == Calls(OnAfterExecute, ps, |ps|)[j];
      }
    }
  }

  /** An action that throws does not escape: the dispatch ends as
      `ActionFailed` after one action call, and the after-hooks still follow. */
  lemma ActionFailureIsContained(cmd: Command, args: seq<string>, ps: seq<Plugin>, gated: bool)
    requires ActionThrows(cmd.action)
    requires !gated || BeforeAllows(ps)
    requires FirstMissing(cmd.arguments, Parse(cmd, args).arguments).None?
    ensures Outcome(cmd, args, ps, gated) == ActionFailed
    ensures var t := ExecTrace(cmd, args, ps, gated);
      var before := if gated then |ps| else 0;
      |t| == before + 1 + before && t[before] == ActionCall(true)
      && t[before + 1..] == (if gated then Calls(OnAfterExecute, ps, |ps|) else [])
  {
    if gated {
      BeforeWithoutRejection(ps);
    }
  }

  /** Without plugins (no app, or an app with none registered) no hook is
      invoked at all, and the action runs exactly when every demanded
      argument is bound. */
  lemma UngatedRunsActionAlone(cmd: Command, args: seq<string>, ps: seq<Plugin>)
    ensures forall e :: e in ExecTrace(cmd, args, ps, false) ==> e.ActionCall?
    ensures ActionRan(Outcome(cmd, args, ps, false))
        <==> FirstMissing(cmd.arguments, Parse(cmd, args).arguments).None?
  {
  }

  /** `create /tmp/a.txt -c hi` against a command with a demanded `path`
      argument and a value-taking `-c/--content` option. */
  lemma FileCreateExample()
    ensures var cmd := Command("create", "", [Argument("path", "", true, false, "")],
                               [Option("c", "content", "", "", true)], NoOp);
      var r := Parse(cmd, ["/tmp/a.txt", "-c", "hi"]);
      r.arguments == map["path" := "/tmp/a.txt"] && r.options == map["content" := "hi"]
      && Outcome(cmd, ["/tmp/a.txt", "-c", "hi"], [], false) == Completed
  {
    var cmd := Command("create", "", [Argument("path", "", true, false, "")],
                       [Option("c", "content", "", "", true)], NoOp);
    var args := ["/tmp/a.txt", "-c", "hi"];
    assert args[0][..1] == "/";
    BareWordFillsNextPositional(cmd, args, Start);
    var s1 := Step(cmd, args, Start);
    assert s1 == ScanState(1, 1, map["path" := "/tmp/a.txt"], map[]);
    assert ShortNames(cmd.options) == ["c"];
    ShortTokenShape("c");
    assert args[2][..1] == "h";
    ShortFlagBinds(cmd, args, s1, 0);
    var s2 := Step(cmd, args, s1);
    assert s2 == ScanState(3, 1, map["path" := "/tmp/a.txt"], map["content" := "hi"]);
    assert Parse(cmd, args) == s2;
  }
}
