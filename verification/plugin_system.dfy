/**
 * The development plugin manager (src/lib/dev-tools/plugin-system.ts).
 *
 * The manager keeps its plugins in a name-keyed map that remembers insertion
 * order; here that map is a sequence of plugins whose names are distinct.
 * Registering runs the plugin's `install` hook and, when present, its
 * `onInit` hook before inserting it; unregistering runs `onDestroy`, when
 * present, before deleting it. A hook that fails emits a `pluginError` event
 * and the failure is rethrown to the caller, with the map left as it was.
 *
 * Hooks are asynchronous calls into plugin code; their outcomes are
 * parameters. The event emitter is kept as the log of emitted events.
 */
module PluginSystem {
  import opened Common

  /** A plugin: its metadata and which optional hooks it defines. */
  datatype Plugin = Plugin(name: string, version: string, description: string, author: string,
                           hasOnInit: bool, hasOnDestroy: bool)

  /** What awaiting a hook gives. */
  datatype HookOutcome = Ok | Fails(error: string)

  /** The events the manager emits. */
  datatype Event = PluginRegistered(name: string) | PluginUnregistered(name: string)
                 | PluginError(plugin: string, error: string)

  /** How a call ends for its caller: the promise resolves, or rejects with an error. */
  datatype Outcome = Resolved | Rejected(error: string)

  /** The registry after a call, the events it emitted, and how it ended. */
  datatype Step = Step(plugins: seq<Plugin>, emitted: seq<Event>, outcome: Outcome)

  function Names(ps: seq<Plugin>): (ns: seq<string>)
    ensures |ns| == |ps|
    ensures forall i :: 0 <= i < |ps| ==> ns[i] == ps[i].name
  {
    if ps == [] then [] else [ps[0].name] + Names(ps[1..])
  }

  /** `plugins.get(name)`. */
  function Find(ps: seq<Plugin>, name: string): (r: Option<Plugin>)
    ensures r.Some? <==> name in Names(ps)
    ensures r.Some? ==> r.value in ps && r.value.name == name
  {
    if ps == [] then None
    else if ps[0].name == name then Some(ps[0])
    else Find(ps[1..], name)
  }

  /** `plugins.delete(name)`: the entries under other names, in their order. */
  function Remove(ps: seq<Plugin>, name: string): (r: seq<Plugin>)
    ensures forall p :: p in r <==> p in ps && p.name != name
    ensures forall p :: multiset(r)[p] == if p.name != name then multiset(ps)[p] else 0
    ensures IsSubsequence(r, ps)
  {
    Filter(ps, (p: Plugin) => p.name != name)
  }

  function AlreadyRegistered(name: string): string {
    "Plugin " + name + " is already registered"
  }

  function NotRegistered(name: string): string {
    "Plugin " + name + " is not registered"
  }

  /** `registerPlugin` on the registry `ps`. */
  function Register(ps: seq<Plugin>, p: Plugin, install: HookOutcome, onInit: HookOutcome): Step {
    if p.name in Names(ps) then Step(ps, [], Rejected(AlreadyRegistered(p.name)))
    else if install.Fails? then Step(ps, [PluginError(p.name, install.error)], Rejected(install.error))
    else if p.hasOnInit && onInit.Fails? then Step(ps, [PluginError(p.name, onInit.error)], Rejected(onInit.error))
    else Step(ps + [p], [PluginRegistered(p.name)], Resolved)
  }

  /** `unregisterPlugin` on the registry `ps`. */
  function Unregister(ps: seq<Plugin>, name: string, onDestroy: HookOutcome): Step {
    match Find(ps, name)
    case None => Step(ps, [], Rejected(NotRegistered(name)))
    case Some(p) =>
      if p.hasOnDestroy && onDestroy.Fails? then Step(ps, [PluginError(name, onDestroy.error)], Rejected(onDestroy.error))
      else Step(Remove(ps, name), [PluginUnregistered(name)], Resolved)
  }

  /** The single manager instance. */
  class PluginManager {
    var plugins: seq<Plugin>
    /** Every event emitted so far, oldest first. */
    var events: seq<Event>

    /** No name is registered twice. */
    ghost predicate Valid()
      reads this
    {
      Distinct(Names(plugins))
    }

    constructor ()
      ensures Valid() && plugins == [] && events == []
    {
      plugins := [];
      events := [];
    }

    method RegisterPlugin(p: Plugin, install: HookOutcome, onInit: HookOutcome) returns (outcome: Outcome)
      requires Valid()
      modifies this
      ensures Valid()
      ensures var s := Register(old(plugins), p, install, onInit);
              plugins == s.plugins && events == old(events) + s.emitted && outcome == s.outcome
    {
      if Find(plugins, p.name).Some? {
        return Rejected(AlreadyRegistered(p.name));
      }
      if install.Fails? {
        events := events + [PluginError(p.name, install.error)];
        return Rejected(install.error);
      }
      if p.hasOnInit && onInit.Fails? {
        events := events + [PluginError(p.name, onInit.error)];
        return Rejected(onInit.error);
      }
      RegisterKeepsNamesDistinct(plugins, p, install, onInit);
      plugins := plugins + [p];
      events := events + [PluginRegistered(p.name)];
      outcome := Resolved;
    }

    method UnregisterPlugin(name: string, onDestroy: HookOutcome) returns (outcome: Outcome)
      requires Valid()
      modifies this
      ensures Valid()
      ensures var s := Unregister(old(plugins), name, onDestroy);
              plugins == s.plugins && events == old(events) + s.emitted && outcome == s.outcome
    {
      var plugin := Find(plugins, name);
      if plugin.None? {
        return Rejected(NotRegistered(name));
      }
      if plugin.value.hasOnDestroy && onDestroy.Fails? {
        events := events + [PluginError(name, onDestroy.error)];
        return Rejected(onDestroy.error);
      }
      UnregisterKeepsNamesDistinct(plugins, name, onDestroy);
      plugins := Remove(plugins, name);
      events := events + [PluginUnregistered(name)];
      outcome := Resolved;
    }

    /** `getPlugin`: the plugin registered under `name`, if any. */
    method GetPlugin(name: string) returns (r: Option<Plugin>)
      requires Valid()
      ensures r.Some? <==> name in Names(plugins)
      ensures r.Some? ==> r.value in plugins && r.value.name == name
    {
      r := Find(plugins, name);
    }

    /** `getAllPlugins`: every registered plugin once, in registration order. */
    method GetAllPlugins() returns (r: seq<Plugin>)
      requires Valid()
      ensures r == plugins
      ensures Distinct(Names(r))
      ensures forall name :: name in Names(r) <==> Find(plugins, name).Some?
      ensures forall p :: p in r <==> p in plugins
    {
      r := plugins;
    }
  }

  // ---------------------------------------------------------------------------
  // Properties

  lemma {:induction false} NamesAppend(a: seq<Plugin>, b: seq<Plugin>)
    ensures Names(a + b) == Names(a) + Names(b)
  {
    if a == [] {
      assert a + b == b;
    } else {
      assert (a + b)[1..] == a[1..] + b;
      NamesAppend(a[1..], b);
    }
  }

  /** A plugin that is found is the one with that name: under distinct names, lookups see the listed plugin. */
  lemma {:induction false} FindUnique(ps: seq<Plugin>, p: Plugin)
    requires Distinct(Names(ps)) && p in ps
    ensures Find(ps, p.name) == Some(p)
  {
    if ps[0] != p {
      assert Names(ps[1..]) == Names(ps)[1..];
      var i :| 0 <= i < |ps| && ps[i] == p;
      assert Names(ps)[i] == p.name;
      FindUnique(ps[1..], p);
    }
  }

  /** Removing a name drops exactly that name and keeps the others distinct. */
  lemma {:induction false} RemoveKeepsNamesDistinct(ps: seq<Plugin>, name: string)
    requires Distinct(Names(ps))
    ensures Distinct(Names(Remove(ps, name)))
    ensures name !in Names(Remove(ps, name))
    ensures forall n :: n != name ==> (n in Names(Remove(ps, name)) <==> n in Names(ps))
  {
    if ps != [] {
      RemoveKeepsNamesDistinct(ps[1..], name);
      RemoveStep(ps, name);
      var rest := Names(Remove(ps[1..], name));
      assert Names(ps) == [ps[0].name] + Names(ps[1..]);
      if ps[0].name != name {
        assert ps[0].name !in rest by {
          assert ps[0].name !in Names(ps[1..]);
        }
        DistinctCons(ps[0].name, rest);
      }
    }
  }

  /** One step of `Remove`, on the names. */
  lemma RemoveStep(ps: seq<Plugin>, name: string)
    requires ps != []
    ensures Names(Remove(ps, name)) ==
            if ps[0].name != name then [ps[0].name] + Names(Remove(ps[1..], name)) else Names(Remove(ps[1..], name))
  {
    var keep := (p: Plugin) => p.name != name;
    assert ps == [ps[0]] + ps[1..];
    FilterAppend([ps[0]], ps[1..], keep);
    if keep(ps[0]) {
      assert Remove(ps, name) == [ps[0]] + Remove(ps[1..], name);
    } else {
      assert Remove(ps, name) == Remove(ps[1..], name);
    }
  }

  /** Registering keeps the names distinct. */
  lemma RegisterKeepsNamesDistinct(ps: seq<Plugin>, p: Plugin, install: HookOutcome, onInit: HookOutcome)
    requires Distinct(Names(ps))
    ensures Distinct(Names(Register(ps, p, install, onInit).plugins))
  {
    if p.name !in Names(ps) {
      NamesAppend(ps, [p]);
      DistinctSnoc(Names(ps), p.name);
    }
  }

  /** Unregistering keeps the names distinct. */
  lemma UnregisterKeepsNamesDistinct(ps: seq<Plugin>, name: string, onDestroy: HookOutcome)
    requires Distinct(Names(ps))
    ensures Distinct(Names(Unregister(ps, name, onDestroy).plugins))
  {
    RemoveKeepsNamesDistinct(ps, name);
  }

  /** A name already present is rejected before any hook runs; nothing changes and nothing is emitted. */
  lemma RegisterDuplicateRejected(ps: seq<Plugin>, p: Plugin, install: HookOutcome, onInit: HookOutcome)
    requires Find(ps, p.name).Some?
    ensures Register(ps, p, install, onInit) == Step(ps, [], Rejected("Plugin " + p.name + " is already registered"))
  {
  }

  /**
   * A fresh name whose install or init hook fails is not added; one
   * `pluginError` event carries the hook's error, which is also rethrown.
   */
  lemma RegisterFailureRollsBack(ps: seq<Plugin>, p: Plugin, install: HookOutcome, onInit: HookOutcome, e: string)
    requires Find(ps, p.name).None?
    requires install == Fails(e) || (install.Ok? && p.hasOnInit && onInit == Fails(e))
    ensures Register(ps, p, install, onInit) == Step(ps, [PluginError(p.name, e)], Rejected(e))
  {
  }

  /**
   * Registration succeeds exactly for a fresh name whose hooks succeed; the
   * plugin is then found under its name, appended after the earlier ones,
   * and `pluginRegistered` is emitted.
   */
  lemma RegisterThenGet(ps: seq<Plugin>, p: Plugin, install: HookOutcome, onInit: HookOutcome)
    requires Distinct(Names(ps))
    ensures var s := Register(ps, p, install, onInit);
            s.outcome.Resolved? <==> Find(ps, p.name).None? && install.Ok? && (p.hasOnInit ==> onInit.Ok?)
    ensures var s := Register(ps, p, install, onInit);
            s.outcome.Resolved? ==>
              s.plugins == ps + [p] && Find(s.plugins, p.name) == Some(p) && s.emitted == [PluginRegistered(p.name)]
  {
    var s := Register(ps, p, install, onInit);
    if s.outcome.Resolved? {
      RegisterKeepsNamesDistinct(ps, p, install, onInit);
      FindUnique(s.plugins, p);
    }
  }

  /** Unregistering a name that is not present is rejected, changes nothing and emits nothing. */
  lemma UnregisterAbsentRejected(ps: seq<Plugin>, name: string, onDestroy: HookOutcome)
    requires Find(ps, name).None?
    ensures Unregister(ps, name, onDestroy) == Step(ps, [], Rejected("Plugin " + name + " is not registered"))
  {
  }

  /** A failing destroy hook keeps the plugin registered and rethrows its error. */
  lemma UnregisterFailureKeepsPlugin(ps: seq<Plugin>, name: string, e: string)
    requires Find(ps, name).Some? && Find(ps, name).value.hasOnDestroy
    ensures Unregister(ps, name, Fails(e)) == Step(ps, [PluginError(name, e)], Rejected(e))
  {
  }

  /**
   * After a successful unregister the name is no longer found, every other
   * name is found exactly as before, and `pluginUnregistered` is emitted.
   */
  lemma UnregisterThenGet(ps: seq<Plugin>, name: string, onDestroy: HookOutcome)
    requires Distinct(Names(ps))
    ensures var s := Unregister(ps, name, onDestroy);
            s.outcome.Resolved? <==> Find(ps, name).Some? && (Find(ps, name).value.hasOnDestroy ==> onDestroy.Ok?)
    ensures var s := Unregister(ps, name, onDestroy);
            s.outcome.Resolved? ==>
              && Find(s.plugins, name).None?
              && (forall n :: n != name ==> Find(s.plugins, n) == Find(ps, n))
              && s.emitted == [PluginUnregistered(name)]
  {
    var s := Unregister(ps, name, onDestroy);
    if s.outcome.Resolved? {
      RemoveKeepsNamesDistinct(ps, name);
      forall n | n != name ensures Find(s.plugins, n) == Find(ps, n) {
        if Find(ps, n).Some? {
          var q := Find(ps, n).value;
          assert q in s.plugins;
          FindUnique(s.plugins, q);
        }
      }
    }
  }

  /** Registering a fresh name and then unregistering it, with every hook succeeding, restores the registry. */
  lemma RegisterUnregisterRoundTrip(ps: seq<Plugin>, p: Plugin)
    requires Distinct(Names(ps)) && Find(ps, p.name).None?
    ensures var r := Register(ps, p, Ok, Ok);
            r.outcome == Resolved && Unregister(r.plugins, p.name, Ok) == Step(ps, [PluginUnregistered(p.name)], Resolved)
  {
    RegisterKeepsNamesDistinct(ps, p, Ok, Ok);
    FindUnique(ps + [p], p);
    RemoveFreshAppended(ps, p);
  }

  /** Deleting the name of a plugin appended under a fresh name gives back the registry before. */
  lemma RemoveFreshAppended(ps: seq<Plugin>, p: Plugin)
    requires Find(ps, p.name).None?
    ensures Remove(ps + [p], p.name) == ps
  {
    var keep := (q: Plugin) => q.name != p.name;
    FilterAppend(ps, [p], keep);
    FilterAll(ps, keep);
    FilterNone([p], keep);
    assert Remove(ps + [p], p.name) == Filter(ps, keep) + Filter([p], keep);
  }
}
