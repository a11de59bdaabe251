/**
 * The pipeline registry (src/plugins/PluginManager.js): plugins keyed by
 * name that receive the editor through `setEditor`, and a hook bus whose
 * dispatch threads return values through the subscribers and lets
 * exceptions escape.
 */
module PipelineRegistry {
  import opened Js
  import opened HookBus
  import opened SrcPlugins

  class PluginManager {
    /** The `plugins` Map, as its contents and its key insertion order. */
    var plugins: map<string, BasePlugin>
    var order: seq<string>
    var hooks: HookTable
    var editorInstance: Value

    ghost predicate Valid()
      reads this
    {
      && (forall n :: n in plugins ==> plugins[n].name == n)
      && Distinct(order)
      && (forall n :: n in order <==> n in plugins)
    }

    /** The registered plugin objects, the frame of the methods that update them. */
    ghost function Objects(): set<BasePlugin>
      reads this
    {
      set n | n in plugins :: plugins[n]
    }

    constructor ()
      ensures Valid()
      ensures plugins == map[] && order == [] && hooks == map[] && editorInstance == Null
    {
      plugins, order, hooks, editorInstance := map[], [], map[], Null;
    }

    /**
     * `setEditorForPlugin(plugin)`: hands over the editor only when one is
     * set (a truthy instance).
     */
    method SetEditorForPlugin(plugin: BasePlugin)
      modifies plugin
      ensures Truthy(editorInstance) ==> plugin.editor == editorInstance
      ensures !Truthy(editorInstance) ==> plugin.editor == old(plugin.editor)
      ensures plugin.enabled == old(plugin.enabled)
    {
      if Truthy(editorInstance) {
        plugin.SetEditor(editorInstance);
      }
    }

    /**
     * `setEditorInstance(editor)`: records the editor and, when it is
     * truthy, pushes it to every registered plugin.
     */
    method SetEditorInstance(editor: Value)
      requires Valid()
      modifies this, Objects()
      ensures Valid()
      ensures editorInstance == editor
      ensures plugins == old(plugins) && order == old(order) && hooks == old(hooks)
      ensures forall n :: n in plugins ==>
        plugins[n].editor == (if Truthy(editor) then editor else old(plugins[n].editor))
      ensures forall n :: n in plugins ==> plugins[n].enabled == old(plugins[n].enabled)
    {
      editorInstance := editor;
      var i := 0;
      while i < |order|
        invariant 0 <= i <= |order|
        invariant editorInstance == editor
        invariant plugins == old(plugins) && order == old(order) && hooks == old(hooks)
        invariant forall n :: n in plugins ==>
          plugins[n].editor == (if n in order[..i] && Truthy(editor) then editor else old(plugins[n].editor))
        invariant forall n :: n in plugins ==> plugins[n].enabled == old(plugins[n].enabled)
      {
        var plugin := plugins[order[i]];
        assert order[..i + 1] == order[..i] + [order[i]];
        SetEditorForPlugin(plugin);
        i := i + 1;
      }
      assert order[..i] == order;
    }

    /**
     * `register(plugin)`: refused when the name is taken; otherwise the
     * plugin first receives the current editor (when one is set), is then
     * initialised, and is recorded under its name. An exception from
     * `initialize` makes it return false with nothing recorded, but the
     * editor handed over before stays with the plugin.
     */
    method Register(plugin: BasePlugin) returns (ok: bool)
      requires Valid()
      modifies this, plugin
      ensures Valid()
      ensures ok <==> plugin.name !in old(plugins) && !plugin.failsOnInitialize
      ensures plugin.name in old(plugins) ==> unchanged(this) && unchanged(plugin)
      ensures !ok ==> plugins == old(plugins) && order == old(order)
      ensures plugin.name !in old(plugins) ==>
        plugin.editor == (if Truthy(editorInstance) then editorInstance else old(plugin.editor))
      ensures ok ==>
        && plugins == old(plugins)[plugin.name := plugin]
        && order == old(order) + [plugin.name]
        && plugin.enabled
      ensures !ok ==> plugin.enabled == old(plugin.enabled)
      ensures hooks == old(hooks) && editorInstance == old(editorInstance)
    {
      if plugin.name in plugins {
        return false;
      }
      SetEditorForPlugin(plugin);
      var init := plugin.Initialize();
      if init == Fail {
        return false;
      }
      plugins := plugins[plugin.name := plugin];
      order := order + [plugin.name];
      ok := true;
    }

    /**
     * `unregister(name)`: for a registered name, `destroy` runs and the
     * plugin is forgotten; an unknown name changes nothing.
     */
    method Unregister(name: string)
      requires Valid()
      modifies this
      ensures Valid()
      ensures name !in old(plugins) ==> unchanged(this)
      ensures name in old(plugins) ==>
        plugins == old(plugins) - {name} && order == Without(old(order), name)
      ensures hooks == old(hooks) && editorInstance == old(editorInstance)
    {
      if name in plugins {
        var plugin := plugins[name];
        plugin.Destroy();
        plugins := plugins - {name};
        order := Without(order, name);
      }
    }

    /** `getPlugin(name)`: the plugin registered under `name`, or `undefined`. */
    function GetPlugin(name: string): (r: Option<BasePlugin>)
      requires Valid()
      reads this
      ensures r.Some? <==> name in plugins
      ensures r.Some? ==> r.value.name == name && r.value in Objects()
    {
      if name in plugins then Some(plugins[name]) else None
    }

    /** `getPlugins()`: the registered plugins, in registration order. */
    function GetPlugins(): (r: seq<BasePlugin>)
      requires Valid()
      reads this
      ensures |r| == |order|
      ensures forall n :: n in plugins ==> plugins[n] in r
      ensures forall k :: 0 <= k < |r| ==> r[k] in Objects() && r[k].name == order[k]
    {
      var r := seq(|order|, k requires 0 <= k < |order| && order[k] in plugins reads this => plugins[order[k]]);
      assert forall n :: n in plugins ==> plugins[n] in r by {
        forall n | n in plugins
          ensures plugins[n] in r
        {
          var k :| 0 <= k < |order| && order[k] == n;
          assert r[k] == plugins[n];
        }
      }
      r
    }

    /** `registerHook(name, callback)` */
    method RegisterHook(name: string, callback: CallbackId)
      modifies this
      ensures hooks == Subscribe(old(hooks), name, callback)
      ensures plugins == old(plugins) && order == old(order) && editorInstance == old(editorInstance)
    {
      var subs := if name in hooks then hooks[name] else [];
      hooks := hooks[name := subs + [callback]];
    }

    /**
     * `triggerHook(name, ...args)`: without a list for `name` the first
     * argument comes back; otherwise each subscriber in turn receives the
     * most recent defined return value (at first the arguments), the last
     * subscriber's return value is the result, and an exception stops the
     * dispatch and escapes.
     */
    method TriggerHook(name: string, args: seq<Value>, behave: Behaviour) returns (r: Result<Value>, calls: seq<Call>)
      ensures r == TriggerPipeline(hooks, name, args, behave)
      ensures calls == (if name in hooks then PipelineCalls(hooks[name], args, behave) else [])
    {
      if name !in hooks {
        return Ok(if |args| > 0 then args[0] else Undefined), [];
      }
      var subs := hooks[name];
      var current, result := args, Undefined;
      calls := [];
      var i := 0;
      while i < |subs|
        invariant 0 <= i <= |subs|
        invariant Pipeline(subs[i..], current, result, behave) == Pipeline(subs, args, Undefined, behave)
        invariant calls + PipelineCalls(subs[i..], current, behave) == PipelineCalls(subs, args, behave)
      {
        var outcome := behave(subs[i], current);
        assert subs[i..][1..] == subs[i + 1..];
        calls := calls + [Call(subs[i], current, outcome)];
        match outcome
        case Threw =>
          assert PipelineCalls(subs[i..], current, behave) == [Call(subs[i], current, Threw)];
          return Thrown, calls;
        case Returned(v) =>
          result := v;
          if v != Undefined {
            current := [v];
          }
        i := i + 1;
      }
      r := Ok(result);
    }

    /** `enablePlugin(name)`: delegates to the plugin's `enable`; unknown names are ignored. */
    method EnablePlugin(name: string)
      requires Valid()
      modifies Objects()
      ensures name in plugins ==> plugins[name].enabled && plugins[name].editor == old(plugins[name].editor)
      ensures forall n :: n in plugins && n != name ==> unchanged(plugins[n])
      ensures name !in plugins ==> forall n :: n in plugins ==> unchanged(plugins[n])
    {
      if name in plugins {
        plugins[name].Enable();
      }
    }

    /** `disablePlugin(name)`: delegates to the plugin's `disable`; unknown names are ignored. */
    method DisablePlugin(name: string)
      requires Valid()
      modifies Objects()
      ensures name in plugins ==> !plugins[name].enabled && plugins[name].editor == old(plugins[name].editor)
      ensures forall n :: n in plugins && n != name ==> unchanged(plugins[n])
      ensures name !in plugins ==> forall n :: n in plugins ==> unchanged(plugins[n])
    {
      if name in plugins {
        plugins[name].Disable();
      }
    }
  }

  /**
   * `getPlugins().forEach(p => unregister(p.name))`, the way both
   * composables clear the registry: afterwards no plugin is registered.
   */
  method UnregisterAll(m: PluginManager)
    requires m.Valid()
    modifies m
    ensures m.Valid()
    ensures m.plugins == map[] && m.order == []
    ensures m.hooks == old(m.hooks) && m.editorInstance == old(m.editorInstance)
  {
    var registered := m.GetPlugins();
    ghost var names := m.order;
    var i := 0;
    while i < |registered|
      invariant 0 <= i <= |registered|
      invariant m.Valid() && m.order == names[i..]
      invariant m.hooks == old(m.hooks) && m.editorInstance == old(m.editorInstance)
    {
      var name := registered[i].name;
      assert name == names[i] == m.order[0];
      assert m.order[1..] == names[i + 1..];
      m.Unregister(name);
      i := i + 1;
    }
    assert m.plugins == map[] by {
      assert m.plugins.Keys == {};
    }
  }

  /**
   * The dispatch order in the repository's example: an upper-casing
   * subscriber followed by one that appends "!" turn "hi" into "HI!".
   */
  lemma UpperThenExclaim(upper: CallbackId, exclaim: CallbackId, behave: Behaviour)
    requires upper != exclaim
    requires behave(upper, [Str("hi")]) == Returned(Str("HI"))
    requires behave(exclaim, [Str("HI")]) == Returned(Str("HI!"))
    ensures TriggerPipeline(map["preview:beforeRender" := [upper, exclaim]], "preview:beforeRender", [Str("hi")], behave)
      == Ok(Str("HI!"))
  {
    var subs := [upper, exclaim];
    assert subs[1..] == [exclaim];
    assert Pipeline([exclaim], [Str("HI")], Str("HI"), behave) == Pipeline([], [Str("HI!")], Str("HI!"), behave);
    assert Pipeline(subs, [Str("hi")], Undefined, behave) == Pipeline([exclaim], [Str("HI")], Str("HI"), behave);
  }

  /**
   * A subscriber that returns nothing after one that transformed the value
   * makes the whole dispatch return `undefined`: the transformed value is
   * passed on as arguments but is not the result.
   */
  lemma LastUndefinedWins(transform: CallbackId, observe: CallbackId, content: Value, out: Value, behave: Behaviour)
    requires out != Undefined
    requires behave(transform, [content]) == Returned(out)
    requires behave(observe, [out]) == Returned(Undefined)
    ensures TriggerPipeline(map["preview:beforeRender" := [transform, observe]], "preview:beforeRender", [content], behave)
      == Ok(Undefined)
  {
    var subs := [transform, observe];
    assert subs[1..] == [observe];
    assert Pipeline([observe], [out], out, behave) == Pipeline([], [out], Undefined, behave);
    assert Pipeline(subs, [content], Undefined, behave) == Pipeline([observe], [out], out, behave);
  }
}
