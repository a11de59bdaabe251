/**
 * The registration step both composables share
 * (02/composables/useEditor.js, src/composables/usePlugins.js): build each
 * known plugin whose switch is on and register it with the pipeline
 * registry, in a fixed order.
 */
module PluginSetup {
  import opened Js
  import opened Storage
  import opened SrcPlugins
  import opened PipelineRegistry
  import opened PluginConfig

  /** `new PluginClass()` for one of the known plugin names. */
  method NewPlugin(name: string) returns (p: BasePlugin)
    requires name in KnownPlugins
    ensures fresh(p) && p.name == name && !p.enabled && p.editor == Null && !p.failsOnInitialize
  {
    if name == WordCountName {
      p := new BasePlugin.WordCount();
    } else if name == DiagramName {
      p := new BasePlugin.Diagram();
    } else {
      p := new BasePlugin.DiagramToolbar();
    }
  }

  /**
   * `reg(name, PluginClass)` / `registerPlugin(name, PluginClass)`: only a
   * plugin whose switch is on is built and registered; the result is what
   * `register` returned, or false when the switch is off.
   */
  method RegisterIfOn(m: PluginManager, name: string, on: bool) returns (ok: bool, p: BasePlugin?)
    requires m.Valid() && name in KnownPlugins
    modifies m
    ensures m.Valid()
    ensures ok <==> on && name !in old(m.plugins)
    ensures !ok ==> m.plugins == old(m.plugins) && m.order == old(m.order)
    ensures ok ==> p != null && fresh(p) && p.enabled
    ensures ok ==> p.editor == (if Truthy(m.editorInstance) then m.editorInstance else Null)
    ensures ok ==> m.plugins == old(m.plugins)[name := p] && m.order == old(m.order) + [name]
    ensures m.hooks == old(m.hooks) && m.editorInstance == old(m.editorInstance)
  {
    if !on {
      return false, null;
    }
    p := NewPlugin(name);
    ok := m.Register(p);
  }

  /** The editor a plugin registered now receives: the registry's, when it is truthy. */
  function EditorOf(m: PluginManager): Value
    reads m
  {
    if Truthy(m.editorInstance) then m.editorInstance else Null
  }

  /**
   * After the first `i` registration calls into a cleared registry: the
   * enabled ones among `names[..i]` are registered in order, each enabled
   * and holding `editor`.
   */
  ghost predicate Registered(m: PluginManager, names: seq<string>, i: nat, switches: map<string, Json>, editor: Value)
    requires i <= |names|
    reads m, m.Objects()
  {
    && m.Valid()
    && m.order == Enabled(names[..i], switches)
    && (forall n :: n in m.plugins ==> m.plugins[n].enabled && m.plugins[n].editor == editor)
  }

  /** In a list without repeats, an entry does not occur before its own position. */
  lemma NotBefore(names: seq<string>, i: nat)
    requires i < |names| && Distinct(names)
    ensures names[i] !in names[..i]
  {
    assert forall k :: 0 <= k < i ==> names[..i][k] == names[k];
  }

  /** The `i`-th of the registration calls. */
  method RegisterNext(m: PluginManager, names: seq<string>, i: nat, switches: map<string, Json>)
    requires i < |names| && Distinct(names) && names[i] in KnownPlugins
    requires Registered(m, names, i, switches, EditorOf(m))
    modifies m
    ensures Registered(m, names, i + 1, switches, EditorOf(m))
    ensures m.hooks == old(m.hooks) && m.editorInstance == old(m.editorInstance)
  {
    var name := names[i];
    var on := name in switches && JsonTruthy(switches[name]);
    EnabledSnoc(names, i, switches);
    NotBefore(names, i);
    EnabledMembers(names[..i], switches);
    var ok, p := RegisterIfOn(m, name, on);
  }

  /**
   * The three registrations, word count first, into a registry that was
   * just cleared: exactly the enabled plugins end up registered, in the
   * known order, each enabled and holding the registry's editor.
   */
  method RegisterEnabled(m: PluginManager, switches: map<string, Json>)
    requires m.Valid() && m.plugins == map[] && m.order == []
    modifies m
    ensures m.Valid()
    ensures m.order == Enabled(KnownPlugins, switches)
    ensures forall n :: n in m.plugins <==> n in Enabled(KnownPlugins, switches)
    ensures forall n :: n in m.plugins ==>
      m.plugins[n].enabled && m.plugins[n].editor == EditorOf(m)
    ensures m.hooks == old(m.hooks) && m.editorInstance == old(m.editorInstance)
  {
    assert KnownPlugins[..0] == [];
    RegisterNext(m, KnownPlugins, 0, switches);
    RegisterNext(m, KnownPlugins, 1, switches);
    RegisterNext(m, KnownPlugins, 2, switches);
    assert KnownPlugins[..3] == KnownPlugins;
  }
}
