/**
 * The notify registry (01/plugins/PluginManager.js): plugins keyed by
 * name, a hook table, and a dispatch in which every subscriber receives the
 * same arguments and an exception in one subscriber is contained.
 */
module NotifyRegistry {
  import opened Js
  import opened HookBus
  import opened PluginInterface

  class PluginManager {
    /** The `plugins` Map, as its contents and its key insertion order. */
    var plugins: map<string, Plugin>
    var order: seq<string>
    var hooks: HookTable
    var editorInstance: Value

    ghost predicate Valid()
      reads this
    {
      && (forall n :: n in plugins ==> plugins[n].name == n && plugins[n].Valid())
      && Distinct(order)
      && (forall n :: n in order <==> n in plugins)
    }

    constructor ()
      ensures Valid()
      ensures plugins == map[] && order == [] && hooks == map[] && editorInstance == Null
    {
      plugins, order, hooks, editorInstance := map[], [], map[], Null;
    }

    /** `setEditorInstance(editor)`; plugins registered earlier keep the instance they were given. */
    method SetEditorInstance(editor: Value)
      modifies this
      ensures editorInstance == editor
      ensures plugins == old(plugins) && order == old(order) && hooks == old(hooks)
    {
      editorInstance := editor;
    }

    /** `registerHook(name, callback)` */
    method RegisterHook(name: string, callback: CallbackId)
      modifies this
      ensures hooks == Subscribe(old(hooks), name, callback)
      ensures plugins == old(plugins) && order == old(order) && editorInstance == old(editorInstance)
    {
      var subs := if name in hooks then hooks[name] else [];
      hooks := hooks[name := subs + [callback]];
    }

    /** The loop in `register` that subscribes each hook declaration of a plugin, in order. */
    method RegisterHooks(decls: seq<HookDecl>)
      modifies this
      ensures hooks == SubscribeAll(old(hooks), decls)
      ensures plugins == old(plugins) && order == old(order) && editorInstance == old(editorInstance)
    {
      var i := 0;
      while i < |decls|
        invariant 0 <= i <= |decls|
        invariant hooks == SubscribeAll(old(hooks), decls[..i])
        invariant plugins == old(plugins) && order == old(order) && editorInstance == old(editorInstance)
      {
        RegisterHook(decls[i].hook, decls[i].callback);
        assert decls[..i + 1][..i] == decls[..i];
        i := i + 1;
      }
      assert decls[..i] == decls;
    }

    /** `unregisterHook(name, callback)` */
    method UnregisterHook(name: string, callback: CallbackId)
      modifies this
      ensures hooks == Unsubscribe(old(hooks), name, callback)
      ensures plugins == old(plugins) && order == old(order) && editorInstance == old(editorInstance)
    {
      if name !in hooks {
        return;
      }
      var callbacks := hooks[name];
      var index := IndexOf(callbacks, callback);
      if index != -1 {
        hooks := hooks[name := callbacks[..index] + callbacks[index + 1..]];
      }
    }

    /**
     * `triggerHook(name, ...args)`: every subscriber, in subscription
     * order, is called with the same arguments; one that throws does not
     * stop the ones after it, and nothing is returned to the caller.
     */
    method TriggerHook(name: string, args: seq<Value>, behave: Behaviour) returns (calls: seq<Call>)
      ensures |calls| == |Subscribers(hooks, name)|
      ensures forall k :: 0 <= k < |calls| ==>
        var cb := Subscribers(hooks, name)[k];
        calls[k] == Call(cb, args, behave(cb, args))
      ensures calls == NotifyLog(Subscribers(hooks, name), args, behave)
    {
      calls := [];
      if name !in hooks {
        return;
      }
      var subs := hooks[name];
      var i := 0;
      while i < |subs|
        invariant 0 <= i <= |subs|
        invariant |calls| == i
        invariant forall k :: 0 <= k < i ==> calls[k] == Call(subs[k], args, behave(subs[k], args))
      {
        var outcome := behave(subs[i], args);
        calls := calls + [Call(subs[i], args, outcome)];
        i := i + 1;
      }
    }

    /** Dispatches the triggers a plugin requested, in order. */
    method TriggerAll(triggers: seq<Trigger>, behave: Behaviour) returns (calls: seq<Call>)
      ensures calls == NotifyAll(hooks, triggers, behave)
    {
      calls := [];
      var j := 0;
      while j < |triggers|
        invariant 0 <= j <= |triggers|
        invariant calls == NotifyAll(hooks, triggers[..j], behave)
      {
        var more := TriggerHook(triggers[j].hook, triggers[j].args, behave);
        assert triggers[..j + 1][..j] == triggers[..j];
        calls := calls + more;
        j := j + 1;
      }
      assert triggers[..j] == triggers;
    }

    /**
     * `register(plugin)`: refused when the name is taken; otherwise the
     * plugin is initialised with this registry and the current editor
     * instance, its hook declarations are subscribed in declaration order,
     * and it is recorded under its name. An exception from `initialize`
     * makes it return false with nothing recorded.
     */
    method Register(plugin: Plugin, behave: Behaviour) returns (ok: bool, calls: seq<Call>)
      requires Valid() && plugin.Valid()
      modifies this, plugin
      ensures Valid()
      ensures ok <==> plugin.name !in old(plugins) && !plugin.failsOnInitialize
      ensures !ok ==> calls == [] && unchanged(this) && unchanged(plugin)
      ensures ok ==>
        && plugins == old(plugins)[plugin.name := plugin]
        && order == old(order) + [plugin.name]
        && hooks == SubscribeAll(old(hooks), plugin.hooks)
        && plugin.pluginManager == this && plugin.editorInstance == old(editorInstance)
        && calls == NotifyAll(old(hooks), plugin.AddRequests(), behave)
      ensures editorInstance == old(editorInstance)
    {
      calls := [];
      if plugin.name in plugins {
        return false, [];
      }
      var init := plugin.Initialize(this, editorInstance);
      if init.Thrown? {
        return false, [];
      }
      calls := TriggerAll(init.value, behave);
      RegisterHooks(plugin.hooks);
      plugins := plugins[plugin.name := plugin];
      order := order + [plugin.name];
      ok := true;
    }

    /** The loop in `unregister` that unsubscribes each hook declaration of a plugin, in order. */
    method UnregisterHooks(decls: seq<HookDecl>)
      modifies this
      ensures hooks == UnsubscribeAll(old(hooks), decls)
      ensures plugins == old(plugins) && order == old(order) && editorInstance == old(editorInstance)
    {
      var i := 0;
      while i < |decls|
        invariant 0 <= i <= |decls|
        invariant hooks == UnsubscribeAll(old(hooks), decls[..i])
        invariant plugins == old(plugins) && order == old(order) && editorInstance == old(editorInstance)
      {
        UnregisterHook(decls[i].hook, decls[i].callback);
        assert decls[..i + 1][..i] == decls[..i];
        i := i + 1;
      }
      assert decls[..i] == decls;
    }

    /**
     * `unregister(name)`: refused when no plugin has that name; otherwise
     * the plugin's teardown runs, its hook declarations are unsubscribed and
     * it is forgotten. An exception from `teardown` makes it return false
     * and leaves the plugin and its subscriptions in place.
     * The plugin's teardown unsubscribes through the manager it stored at
     * registration; the manager is a single shared instance, so that is
     * this registry, whose hook table is the one updated here.
     */
    method Unregister(name: string, behave: Behaviour) returns (ok: bool, calls: seq<Call>)
      requires Valid()
      modifies this
      ensures Valid()
      ensures ok <==> name in old(plugins) && !old(plugins[name].TeardownThrows())
      ensures !ok ==> calls == [] && unchanged(this)
      ensures ok ==>
        var p := old(plugins[name]);
        && plugins == old(plugins) - {name}
        && order == Without(old(order), name)
        && hooks == UnsubscribeAll(old(hooks), p.hooks)
        && calls == NotifyAll(old(hooks), p.RemoveRequests(), behave)
      ensures editorInstance == old(editorInstance)
    {
      calls := [];
      if name !in plugins {
        return false, [];
      }
      var plugin := plugins[name];
      var down := plugin.Teardown();
      if down.Thrown? {
        return false, [];
      }
      calls := TriggerAll(down.value, behave);
      UnregisterHooks(plugin.hooks);
      plugins := plugins - {name};
      order := Without(order, name);
      ok := true;
    }

    /** `getPlugins()`: the registered plugins, in registration order. */
    function GetPlugins(): (r: seq<Plugin>)
      requires Valid()
      reads this
      ensures |r| == |order|
      ensures forall n :: n in plugins ==> plugins[n] in r
      ensures forall k :: 0 <= k < |r| ==> r[k] in plugins.Values && r[k].name == order[k]
    {
      var r := seq(|order|, k requires 0 <= k < |order| && order[k] in plugins reads this => plugins[order[k]]);
      assert forall n :: n in plugins ==> plugins[n] in r by {
        forall n | n in plugins
          ensures plugins[n] in r
        {
          var k :| 0 <= k < |order| && order[k] == n;
          assert r[k] == plugins[n];
        }
      }
      r
    }

    /** `getPlugin(name)`: the plugin registered under `name`, or `undefined`. */
    function GetPlugin(name: string): (r: Option<Plugin>)
      requires Valid()
      reads this
      ensures r.Some? <==> name in plugins
      ensures r.Some? ==> r.value.name == name && r.value in plugins.Values
    {
      if name in plugins then Some(plugins[name]) else None
    }
  }

  /**
   * Registering a plugin and then unregistering it leaves the registry as
   * it was: the same plugins, in the same order, and every hook with exactly
   * its former subscribers. A toolbar button's teardown cannot throw here,
   * because registration gave it the registry it reports to.
   */
  method RegisterThenUnregister(m: PluginManager, plugin: Plugin, behave: Behaviour)
    requires m.Valid() && plugin.Valid()
    requires plugin.name !in m.plugins && !plugin.failsOnInitialize && !plugin.failsOnTeardown
    requires forall j :: 0 <= j < |plugin.hooks| ==>
      plugin.hooks[j].callback !in Subscribers(m.hooks, plugin.hooks[j].hook)
    modifies m, plugin
    ensures m.Valid()
    ensures m.plugins == old(m.plugins) && m.order == old(m.order)
    ensures forall n :: Subscribers(m.hooks, n) == Subscribers(old(m.hooks), n)
  {
    ghost var hooks0, order0 := m.hooks, m.order;
    var registered, _ := m.Register(plugin, behave);
    assert registered;
    ghost var hooks1 := m.hooks;
    assert hooks1 == SubscribeAll(hooks0, plugin.hooks);
    assert m.plugins[plugin.name] == plugin && m.order == order0 + [plugin.name];
    assert !plugin.TeardownThrows();
    var removed, _ := m.Unregister(plugin.name, behave);
    assert removed;
    assert m.hooks == UnsubscribeAll(hooks1, plugin.hooks);
    forall n
      ensures Subscribers(m.hooks, n) == Subscribers(hooks0, n)
    {
      UnsubscribeAfterSubscribe(hooks0, plugin.hooks, n);
    }
    WithoutAppended(order0, plugin.name);
  }

  /** Deleting a key that was just inserted restores the key order. */
  lemma {:induction false} WithoutAppended(s: seq<string>, x: string)
    requires x !in s
    ensures Without(s + [x], x) == s
    decreases |s|
  {
    if s == [] {
      assert [x][1..] == [];
    } else {
      assert (s + [x])[1..] == s[1..] + [x];
      WithoutAppended(s[1..], x);
    }
  }
}
