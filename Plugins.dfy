/** Plugins and the plugin manager (plugin/LaretPlugin.kt,
    plugin/PluginManager.kt).

    A plugin is an opaque object with four hooks. The model gives each hook
    a fixed script: `initialize`, `afterExecute` and `shutdown` either
    complete or throw, `beforeExecute` allows, rejects or throws. What the
    manager does with them is recorded as a trace of hook invocations. */
module Plugins {
  import opened Strings

  datatype HookResult = Completes | Throws

  /** The scripted result of `beforeExecute`: `true`, `false` or an exception. */
  datatype Verdict = Allow | Reject | Throw

  datatype Plugin = Plugin(
    name: string,
    version: string,
    onInitialize: HookResult,
    onBeforeExecute: Verdict,
    onAfterExecute: HookResult,
    onShutdown: HookResult)

  datatype Hook = OnInitialize | OnBeforeExecute | OnAfterExecute | OnShutdown

  /** What one dispatch does that a caller can observe: a plugin hook was
      invoked (and `failed` says whether it threw, the exception being caught
      and reported on the error stream), or the command's action was invoked
      (`failed` says whether it threw, the exception being caught). */
  datatype Event =
    | PluginCall(hook: Hook, plugin: nat, failed: bool)
    | ActionCall(failed: bool)

  predicate Fails(p: Plugin, hook: Hook)
  {
    match hook
    case OnInitialize => p.onInitialize == Throws
    case OnBeforeExecute => p.onBeforeExecute == Throw
    case OnAfterExecute => p.onAfterExecute == Throws
    case OnShutdown => p.onShutdown == Throws
  }

  /** The invocations of `hook` on the first `n` plugins, in list order. */
  function Calls(hook: Hook, ps: seq<Plugin>, n: nat): (r: seq<Event>)
    requires n <= |ps|
    ensures |r| == n
    ensures forall k :: 0 <= k < n ==> r[k] == PluginCall(hook, k, Fails(ps[k], hook))
  {
    seq(n, k requires 0 <= k < n => PluginCall(hook, k, Fails(ps[k], hook)))
  }

  function Verdicts(ps: seq<Plugin>): (r: seq<Verdict>)
    ensures |r| == |ps|
    ensures forall k :: 0 <= k < |r| ==> r[k] == ps[k].onBeforeExecute
  {
    seq(|ps|, k requires 0 <= k < |ps| => ps[k].onBeforeExecute)
  }

  function Names(ps: seq<Plugin>): (r: seq<string>)
    ensures |r| == |ps|
    ensures forall k :: 0 <= k < |r| ==> r[k] == ps[k].name
  {
    Map(ps, (p: Plugin) => p.name)
  }

  /** `beforeExecute` answers `true` unless some plugin answers `false`;
      a plugin that throws does not count against it. */
  predicate BeforeAllows(ps: seq<Plugin>)
  {
    forall k :: 0 <= k < |ps| ==> ps[k].onBeforeExecute != Reject
  }

  /** The plugins `beforeExecute` reaches: up to and including the first
      rejecting one, or all of them. */
  function BeforeReach(ps: seq<Plugin>): (n: nat)
    ensures n <= |ps|
  {
    match IndexOf(Verdicts(ps), Reject)
    case Some(k) => k + 1
    case None => |ps|
  }

  /** When plugin `k` is the first to reject, `beforeExecute` answers
      `false` and reaches exactly plugins 0..k: no later plugin is invoked. */
  lemma BeforeStopsAtFirstRejection(ps: seq<Plugin>, k: nat)
    requires k < |ps| && ps[k].onBeforeExecute == Reject
    requires forall j :: 0 <= j < k ==> ps[j].onBeforeExecute != Reject
    ensures !BeforeAllows(ps)
    ensures BeforeReach(ps) == k + 1
    ensures forall e :: e in Calls(OnBeforeExecute, ps, BeforeReach(ps)) ==> e.plugin <= k
  {
    assert Verdicts(ps)[k] == Reject;
  }

  /** With no rejecting plugin, `beforeExecute` answers `true` having
      reached every plugin; in particular it answers `true` on an empty list. */
  lemma BeforeWithoutRejection(ps: seq<Plugin>)
    requires forall k :: 0 <= k < |ps| ==> ps[k].onBeforeExecute != Reject
    ensures BeforeAllows(ps)
    ensures BeforeReach(ps) == |ps|
  {
    assert forall k :: 0 <= k < |ps| ==> Verdicts(ps)[k] != Reject;
  }

  /** A plugin whose `beforeExecute` throws is treated exactly like one that
      allows: the verdict and the plugins reached are the same. */
  lemma ThrowingBeforeCountsAsAllowing(ps: seq<Plugin>, k: nat)
    requires k < |ps| && ps[k].onBeforeExecute == Throw
    ensures var qs := ps[k := ps[k].(onBeforeExecute := Allow)];
      BeforeAllows(qs) == BeforeAllows(ps) && BeforeReach(qs) == BeforeReach(ps)
  {
    var qs := ps[k := ps[k].(onBeforeExecute := Allow)];
    assert forall j :: 0 <= j < |ps| ==> (ps[j].onBeforeExecute == Reject <==> qs[j].onBeforeExecute == Reject);
    assert forall j :: 0 <= j < |ps| ==> (Verdicts(ps)[j] == Reject <==> Verdicts(qs)[j] == Reject);
  }

  /** The manager: an ordered, mutable list of registered plugins. */
  class PluginManager {
    var plugins: seq<Plugin>

    constructor ()
      ensures plugins == []
    {
      plugins := [];
    }

    /** Appends, keeping the earlier registrations and allowing the same
        plugin twice; answers the manager itself for chaining. */
    method Register(plugin: Plugin) returns (self: PluginManager)
      modifies this
      ensures plugins == old(plugins) + [plugin]
      ensures self == this
    {
      plugins := plugins + [plugin];
      self := this;
    }

    /** Invokes every plugin's `initialize`, in order; a plugin that throws
        is reported and does not stop the rest. There is no once-only guard:
        a second call invokes them all again. */
    method Initialize() returns (trace: seq<Event>)
      ensures trace == Calls(OnInitialize, plugins, |plugins|)
    {
      trace := [];
      for k := 0 to |plugins|
        invariant trace == Calls(OnInitialize, plugins, k)
      {
        var failed := plugins[k].onInitialize == Throws;  // caught and reported
        trace := trace + [PluginCall(OnInitialize, k, failed)];
      }
    }

    /** Stops at the first plugin that answers `false` and answers `false`;
        a plugin that throws is reported and counts as allowing. */
    method BeforeExecute() returns (allowed: bool, trace: seq<Event>)
      ensures allowed == BeforeAllows(plugins)
      ensures trace == Calls(OnBeforeExecute, plugins, BeforeReach(plugins))
    {
      trace := [];
      var k := 0;
      while k < |plugins|
        invariant k <= |plugins|
        invariant forall j :: 0 <= j < k ==> plugins[j].onBeforeExecute != Reject
        invariant trace == Calls(OnBeforeExecute, plugins, k)
      {
        var verdict := plugins[k].onBeforeExecute;
        trace := trace + [PluginCall(OnBeforeExecute, k, verdict == Throw)];
        if verdict == Reject {
          BeforeStopsAtFirstRejection(plugins, k);
          return false, trace;
        }
        k := k + 1;
      }
      BeforeWithoutRejection(plugins);
      allowed := true;
    }

    /** Invokes every plugin's `afterExecute`, in order, each exception
        caught on its own. */
    method AfterExecute() returns (trace: seq<Event>)
      ensures trace == Calls(OnAfterExecute, plugins, |plugins|)
    {
      trace := [];
      for k := 0 to |plugins|
        invariant trace == Calls(OnAfterExecute, plugins, k)
      {
        var failed := plugins[k].onAfterExecute == Throws;  // caught and reported
        trace := trace + [PluginCall(OnAfterExecute, k, failed)];
      }
    }

    /** Invokes every plugin's `shutdown`, in order, each exception caught
        on its own. */
    method Shutdown() returns (trace: seq<Event>)
      ensures trace == Calls(OnShutdown, plugins, |plugins|)
    {
      trace := [];
      for k := 0 to |plugins|
        invariant trace == Calls(OnShutdown, plugins, k)
      {
        var failed := plugins[k].onShutdown == Throws;  // caught and reported
        trace := trace + [PluginCall(OnShutdown, k, failed)];
      }
    }

    /** A copy of the registered list; the list itself is left as it was. */
    method GetPlugins() returns (ps: seq<Plugin>)
      ensures ps == plugins
    {
      ps := plugins;
    }
  }
}
