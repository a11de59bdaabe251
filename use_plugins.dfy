/**
 * The plugin composable (src/composables/usePlugins.js): the three plugin
 * switches, the configuration loader with its all-enabled default,
 * (re)initialisation against the pipeline registry, the toggle handler and
 * the editor API's text insertion.
 */
module UsePlugins {
  import opened Js
  import opened Text
  import opened Storage
  import opened SrcPlugins
  import opened PipelineRegistry
  import opened PluginConfig
  import opened PluginSetup

  /**
   * `loadPluginConfig()`: the stored configuration when its text is
   * non-empty and parses; every plugin enabled when nothing (or an empty
   * text) is stored or the text does not parse. Where a configuration is
   * stored it agrees with the editor's loader; where none is, that loader
   * gives an empty configuration instead.
   */
  function LoadSrcPluginConfig(items: map<string, Stored>): (r: Json)
    ensures ConfigKey !in items ==> r == AllEnabled && LoadPluginConfig(items) == JObj(map[])
    ensures ConfigKey in items && items[ConfigKey].Unparsable? ==> r == AllEnabled
    ensures ConfigKey in items && items[ConfigKey].Serialized? ==> r == items[ConfigKey].value == LoadPluginConfig(items)
  {
    match GetItem(items, ConfigKey)
    case None => AllEnabled
    case Some(text) =>
      if !TextTruthy(text) then AllEnabled
      else
        match Parse(text)
        case Ok(v) => v
        case Thrown => AllEnabled
  }

  class PluginsSession {
    /** The registry the composable imports. */
    const manager: PluginManager
    const storage: LocalStorage
    /** `pluginStates`: one switch per known plugin. */
    const pluginStates: PluginStates
    /** `currentDocument.content` */
    var content: string

    /** Setting up the composable: every switch starts off. */
    constructor (manager: PluginManager, storage: LocalStorage, content: string)
      ensures this.manager == manager && this.storage == storage && this.content == content
      ensures fresh(pluginStates)
      ensures pluginStates.values
        == map[WordCountName := JBool(false), DiagramName := JBool(false), DiagramToolbarName := JBool(false)]
    {
      this.manager, this.storage, this.content := manager, storage, content;
      pluginStates := new PluginStates(
        map[WordCountName := JBool(false), DiagramName := JBool(false), DiagramToolbarName := JBool(false)]);
    }

    /**
     * `initializePlugins()`, with `editorId` the identity of the fresh
     * `editorAPI` object it builds: every registered plugin is
     * unregistered, that object becomes the registry's editor, each switch
     * is reset from the configuration, and
     * the plugins the configuration turns on are registered, in the known
     * order. A stored `null` throws: in the reset when there are switches,
     * otherwise at the first registration's `pluginConfig[pluginName]`.
     */
    method InitializePlugins(editorId: nat) returns (r: Outcome)
      requires manager.Valid()
      modifies manager, manager.Objects(), pluginStates
      ensures manager.Valid() && manager.editorInstance == Host(editorId, {"insertText"})
      ensures manager.hooks == old(manager.hooks)
      ensures r == Fail <==> LoadSrcPluginConfig(storage.items).JNull?
      ensures r == Fail ==> manager.plugins == map[] && pluginStates.values == old(pluginStates.values)
      ensures r == Pass ==>
        pluginStates.values.Keys == old(pluginStates.values).Keys
        && forall k :: k in pluginStates.values ==>
          var cfg := LoadSrcPluginConfig(storage.items); !cfg.JNull? && pluginStates.values[k] == StateFor(cfg, k)
      ensures r == Pass ==> manager.order == Enabled(KnownPlugins, Switches(LoadSrcPluginConfig(storage.items)))
      ensures r == Pass ==> forall n :: n in manager.plugins <==>
        var cfg := LoadSrcPluginConfig(storage.items);
        n in KnownPlugins && cfg.JObj? && n in cfg.fields && JsonTruthy(cfg.fields[n])
      ensures r == Pass ==> forall n :: n in manager.plugins ==>
        manager.plugins[n].enabled
        && manager.plugins[n].editor == Host(editorId, {"insertText"})
    {
      UnregisterAll(manager);
      var editorApi := Host(editorId, {"insertText"});
      manager.SetEditorInstance(editorApi);
      var cfg := LoadSrcPluginConfig(storage.items);
      r := pluginStates.Reset(cfg);
      if r == Fail {
        return;
      }
      if cfg.JNull? {
        // with no switches to reset, the first `pluginConfig[pluginName]` reads a property of null
        return Fail;
      }
      assert EditorOf(manager) == editorApi;
      RegisterEnabled(manager, Switches(cfg));
      EnabledMembers(KnownPlugins, Switches(cfg));
    }

    /**
     * `handlePluginToggle({name, enabled})`: the switch is written and the
     * plugins are initialised again, which resets every switch, the new
     * one included, from the stored configuration: the value written does
     * not survive unless initialisation throws.
     */
    method HandlePluginToggle(name: string, enabled: Json, editorId: nat) returns (r: Outcome)
      requires manager.Valid()
      modifies manager, manager.Objects(), pluginStates
      ensures manager.Valid() && manager.editorInstance == Host(editorId, {"insertText"})
      ensures r == Fail <==> LoadSrcPluginConfig(storage.items).JNull?
      ensures r == Fail ==> manager.plugins == map[] && pluginStates.values == old(pluginStates.values)[name := enabled]
      ensures r == Pass ==>
        pluginStates.values.Keys == old(pluginStates.values).Keys + {name}
        && pluginStates.values[name] == StateFor(LoadSrcPluginConfig(storage.items), name)
      ensures r == Pass ==> manager.order == Enabled(KnownPlugins, Switches(LoadSrcPluginConfig(storage.items)))
    {
      pluginStates.Set(name, enabled);
      r := InitializePlugins(editorId);
    }

    /** Unmounting: every registered plugin is unregistered. */
    method Unmount()
      requires manager.Valid()
      modifies manager
      ensures manager.Valid() && manager.plugins == map[] && manager.order == []
      ensures manager.hooks == old(manager.hooks) && manager.editorInstance == old(manager.editorInstance)
    {
      UnregisterAll(manager);
    }

    /**
     * `editorAPI.insertText(text)`, with the textarea as a parameter:
     * without one nothing happens; otherwise the selection is replaced by
     * `text` (no caret is placed).
     */
    method InsertText(text: string, textarea: Option<Selection>)
      modifies this
      ensures textarea.None? ==> content == old(content)
      ensures textarea.Some? ==> content == Splice(old(content), textarea.value.start, textarea.value.end, text)
      ensures textarea.Some? && textarea.value.start <= textarea.value.end <= |old(content)| ==>
        var sel := textarea.value;
        && content[..sel.start] == old(content)[..sel.start]
        && content[sel.start..sel.start + |text|] == text
        && content[sel.start + |text|..] == old(content)[sel.end..]
    {
      if textarea.None? {
        return;
      }
      var sel := textarea.value;
      if sel.start <= sel.end <= |content| {
        SpliceShape(content, sel.start, sel.end, text);
      }
      content := Splice(content, sel.start, sel.end, text);
    }
  }
}
