/**
 * The editor composable (02/composables/useEditor.js) as far as it drives
 * the plugin system: the document being edited, the editor API handed to
 * plugins, plugin (re)initialisation against the pipeline registry, the
 * content watcher, the computed counters and the guards of the two saves.
 */
module UseEditor {
  import opened Js
  import opened Text
  import opened Storage
  import opened HookBus
  import opened PipelineRegistry
  import opened PluginConfig
  import opened PluginSetup
  import opened LocalApi
  import opened WordCountStats
  import PluginInterface

  /** How `manualSave` ended. */
  datatype SaveOutcome = Warned | SavedRemotely | SavedLocally | Failed

  /** `toRaw(currentDocument)`: the document fields as a plain object. */
  function DocumentOf(id: Json, title: string, content: string, updatedAt: Json, isDirtyTitle: bool): (d: Doc)
    ensures d.Keys == {"id", "title", "content", "updatedAt", "isDirtyTitle"}
    ensures IdOf(d) == Some(id) && d["content"] == JStr(content)
  {
    map["id" := id, "title" := JStr(title), "content" := JStr(content),
        "updatedAt" := updatedAt, "isDirtyTitle" := JBool(isDirtyTitle)]
  }

  class EditorSession {
    /** The registry the composable imports. */
    const manager: PluginManager
    const storage: LocalStorage
    /** `pluginStates`: plugin name to its switch. */
    const pluginStates: PluginStates
    /** The identity of the `editorAPI` object. */
    const apiId: nat
    /** The callbacks `editorAPI.showDialog` and `editorAPI.hideDialog`. */
    const showDialog: CallbackId
    const hideDialog: CallbackId

    /** `currentDocument` */
    var docId: Json
    var title: string
    var content: string
    var updatedAt: Json
    var isDirtyTitle: bool

    var saving: bool
    /** `lastSaveTime`, as the clock reading of the last successful automatic save. */
    var lastSaveTime: Option<int>
    /** `editorAPI.content`, kept in step with the document by the watcher. */
    var apiContent: string
    /** The caret the textarea is asked to show after an insertion. */
    var caret: Option<nat>

    /**
     * Setting up the composable: an empty document and the switches of the
     * stored configuration, which has none when nothing is stored.
     */
    constructor (manager: PluginManager, storage: LocalStorage, apiId: nat, showDialog: CallbackId, hideDialog: CallbackId)
      ensures this.manager == manager && this.storage == storage
      ensures this.showDialog == showDialog && this.hideDialog == hideDialog
      ensures this.apiId == apiId
      ensures fresh(pluginStates) && pluginStates.values == Switches(LoadPluginConfig(storage.items))
      ensures ConfigKey !in storage.items ==> pluginStates.values == map[]
      ensures docId == JNull && title == "" && content == "" && updatedAt == JNull && !isDirtyTitle
      ensures !saving && lastSaveTime == None && apiContent == "" && caret == None
    {
      this.manager, this.storage := manager, storage;
      this.showDialog, this.hideDialog := showDialog, hideDialog;
      this.apiId := apiId;
      pluginStates := new PluginStates(Switches(LoadPluginConfig(storage.items)));
      docId, title, content, updatedAt, isDirtyTitle := JNull, "", "", JNull, false;
      saving, lastSaveTime, apiContent, caret := false, None, "", None;
    }

    /** `editorAPI`, with its three methods. */
    function EditorApi(): (api: Value)
      ensures Truthy(api) && HasMethod(api, "insertText")
    {
      Host(apiId, {"insertText", "showDialog", "hideDialog"})
    }

    /**
     * `initPlugins()`: every registered plugin is unregistered, the editor
     * API becomes the registry's editor, each existing switch is reset from
     * the stored configuration (throwing for a stored `null`), the two
     * dialog callbacks are subscribed once more, and the plugins whose
     * switch is on are registered. A plugin is registered exactly when it
     * already had a switch and the stored configuration turns it on.
     */
    method InitPlugins() returns (r: Outcome)
      requires manager.Valid()
      modifies manager, manager.Objects(), pluginStates
      ensures manager.Valid() && manager.editorInstance == EditorApi()
      ensures r == Fail <==> LoadPluginConfig(storage.items).JNull? && old(pluginStates.values) != map[]
      ensures r == Fail ==>
        manager.plugins == map[] && manager.hooks == old(manager.hooks)
        && pluginStates.values == old(pluginStates.values)
      ensures r == Pass ==>
        pluginStates.values.Keys == old(pluginStates.values).Keys
        && forall k :: k in pluginStates.values ==>
          var cfg := LoadPluginConfig(storage.items); !cfg.JNull? && pluginStates.values[k] == StateFor(cfg, k)
      ensures r == Pass ==>
        manager.hooks == Subscribe(Subscribe(old(manager.hooks), PluginInterface.ShowDialog, showDialog),
                                   PluginInterface.HideDialog, hideDialog)
      ensures r == Pass ==> manager.order == Enabled(KnownPlugins, pluginStates.values)
      ensures r == Pass ==> forall n :: n in manager.plugins <==>
        var cfg := LoadPluginConfig(storage.items);
        n in KnownPlugins && n in old(pluginStates.values) && cfg.JObj? && n in cfg.fields && JsonTruthy(cfg.fields[n])
      ensures r == Pass ==> forall n :: n in manager.plugins ==>
        manager.plugins[n].enabled && manager.plugins[n].editor == EditorApi()
    {
      UnregisterAll(manager);
      manager.SetEditorInstance(EditorApi());
      var cfg := LoadPluginConfig(storage.items);
      ghost var before := pluginStates.values;
      r := pluginStates.Reset(cfg);
      if r == Fail {
        return;
      }
      EnabledAfterReset(before, pluginStates.values, cfg);
      manager.RegisterHook(PluginInterface.ShowDialog, showDialog);
      manager.RegisterHook(PluginInterface.HideDialog, hideDialog);
      assert manager.editorInstance == EditorApi() && EditorOf(manager) == EditorApi();
      RegisterEnabled(manager, pluginStates.values);
    }

    /** Unmounting: every registered plugin is unregistered (the autosave timer is not modelled). */
    method Unmount()
      requires manager.Valid()
      modifies manager
      ensures manager.Valid() && manager.plugins == map[] && manager.order == []
      ensures manager.hooks == old(manager.hooks) && manager.editorInstance == old(manager.editorInstance)
    {
      UnregisterAll(manager);
    }

    /**
     * `editorAPI.insertText(text)`, with the textarea as a parameter:
     * without one nothing happens; otherwise the selection is replaced by
     * `text` and the caret is put right after the inserted text.
     */
    method InsertText(text: string, textarea: Option<Selection>)
      modifies this
      ensures textarea.None? ==> content == old(content) && caret == old(caret)
      ensures textarea.Some? ==>
        content == Splice(old(content), textarea.value.start, textarea.value.end, text)
        && caret == Some(textarea.value.start + |text|)
      ensures textarea.Some? && textarea.value.start <= textarea.value.end <= |old(content)| ==>
        var sel := textarea.value;
        && content[..sel.start] == old(content)[..sel.start]
        && content[sel.start..caret.value] == text
        && content[caret.value..] == old(content)[sel.end..]
      ensures docId == old(docId) && title == old(title) && updatedAt == old(updatedAt)
      ensures isDirtyTitle == old(isDirtyTitle) && saving == old(saving)
      ensures lastSaveTime == old(lastSaveTime) && apiContent == old(apiContent)
    {
      if textarea.None? {
        return;
      }
      var sel := textarea.value;
      if sel.start <= sel.end <= |content| {
        SpliceShape(content, sel.start, sel.end, text);
      }
      content := Splice(content, sel.start, sel.end, text);
      caret := Some(sel.start + |text|);
    }

    /**
     * The watcher on the document content: the editor API's copy is
     * updated and `editor:contentChanged` goes through the registry's
     * pipeline with the new content.
     */
    method ContentWatcher(behave: Behaviour) returns (r: Result<Value>, calls: seq<Call>)
      modifies this
      ensures apiContent == content && content == old(content) && caret == old(caret)
      ensures docId == old(docId) && title == old(title) && isDirtyTitle == old(isDirtyTitle)
      ensures saving == old(saving) && lastSaveTime == old(lastSaveTime) && updatedAt == old(updatedAt)
      ensures r == TriggerPipeline(manager.hooks, PluginInterface.ContentChanged, [Str(content)], behave)
      ensures calls == PipelineCalls(Subscribers(manager.hooks, PluginInterface.ContentChanged), [Str(content)], behave)
    {
      apiContent := content;
      r, calls := manager.TriggerHook(PluginInterface.ContentChanged, [Str(content)], behave);
    }

    /**
     * The `wordCount`, `characterCount` and `lineCount` computeds. They
     * agree with the word-count plugin's statistics except on empty
     * content, where the line count is 1 rather than 0.
     */
    function Counters(): (r: Stats)
      reads this
      ensures r.words == WordRuns(content) && (r.words == 0 <==> AllSpace(content))
      ensures r.characters == Utf16Length(content)
      ensures r.lines == Occurrences(content, '\n') + 1 && r.lines >= 1
      ensures content != "" ==> r == StatsOf(content)
      ensures content == "" ==> r == Stats(0, 0, 1)
    {
      Stats(CountWords(content), Utf16Length(content), CountLines(content))
    }

    /** `toRaw(currentDocument)` as it is now. */
    function Document(): Doc
      reads this
    {
      DocumentOf(docId, title, content, updatedAt, isDirtyTitle)
    }

    /** `updateLocal(toRaw(currentDocument))`: whether it returned rather than threw. */
    method WriteLocal(now: int) returns (ok: bool)
      modifies storage
      ensures var upserted := Upsert(GetAll(old(storage.items)), Document(), now);
        && (ok <==> upserted.Ok?)
        && (upserted.Ok? ==> storage.items == old(storage.items)[ListKey := Stringify(JArr(upserted.value))])
        && (upserted.Thrown? ==> storage.items == old(storage.items))
    {
      var saved := UpdateLocal(storage, Document(), now);
      ok := saved.Ok?;
    }

    /**
     * `autoSave()`, with the clock reading as `now` and the outcome of the
     * title update sent to the server as `titlePushed`: nothing happens for
     * blank content or while a save runs; otherwise a dirty title of a
     * document with an id is pushed first, and unless that push fails the
     * document is written to the local list and the save time recorded.
     * Failures are swallowed; `saving` ends false.
     */
    method AutoSave(now: int, titlePushed: bool) returns (ran: bool)
      modifies this, storage
      ensures !ran <==> AllSpace(old(content)) || old(saving)
      ensures !ran ==> unchanged(this) && unchanged(storage)
      ensures ran ==> !saving && content == old(content) && docId == old(docId) && title == old(title)
      ensures ran ==> caret == old(caret) && apiContent == old(apiContent) && updatedAt == old(updatedAt)
      ensures ran && old(isDirtyTitle) && JsonTruthy(old(docId)) && !titlePushed ==>
        isDirtyTitle && lastSaveTime == old(lastSaveTime) && storage.items == old(storage.items)
      ensures ran && !(old(isDirtyTitle) && JsonTruthy(old(docId)) && !titlePushed) ==>
        var upserted := Upsert(GetAll(old(storage.items)), Document(), now);
        && isDirtyTitle == (old(isDirtyTitle) && !JsonTruthy(old(docId)))
        && (upserted.Ok? ==>
              storage.items == old(storage.items)[ListKey := Stringify(JArr(upserted.value))]
              && lastSaveTime == Some(now))
        && (upserted.Thrown? ==> storage.items == old(storage.items) && lastSaveTime == old(lastSaveTime))
    {
      // `!content.trim()`, which is AllSpace(content) by the contract of Trim
      if AllSpace(content) || saving {
        return false;
      }
      ran := true;
      saving := true;
      if isDirtyTitle && JsonTruthy(docId) {
        if !titlePushed {
          saving := false;
          return;
        }
        isDirtyTitle := false;
      }
      var ok := WriteLocal(now);
      if ok {
        lastSaveTime := Some(now);
      }
      saving := false;
    }

    /**
     * `manualSave()`: blank content only warns. A dirty title or a
     * document without an id goes to the server (`serverId` is the id the
     * server returns, None when the request fails), which clears the dirty
     * title and gives a new document its id; otherwise the document is
     * written to the local list. `saving` ends false either way.
     */
    method ManualSave(now: int, serverId: Option<Json>) returns (outcome: SaveOutcome)
      modifies this, storage
      ensures outcome == Warned <==> AllSpace(old(content))
      ensures outcome == Warned ==> unchanged(this) && unchanged(storage)
      ensures outcome != Warned ==>
        !saving && content == old(content) && title == old(title) && lastSaveTime == old(lastSaveTime)
      ensures updatedAt == old(updatedAt) && caret == old(caret) && apiContent == old(apiContent)
      ensures outcome != Warned && (old(isDirtyTitle) || !JsonTruthy(old(docId))) ==>
        storage.items == old(storage.items)
        && (serverId.None? ==> outcome == Failed && docId == old(docId) && isDirtyTitle == old(isDirtyTitle))
        && (serverId.Some? ==>
              outcome == SavedRemotely && !isDirtyTitle
              && docId == (if JsonTruthy(old(docId)) then old(docId) else serverId.value))
      ensures outcome != Warned && !(old(isDirtyTitle) || !JsonTruthy(old(docId))) ==>
        var upserted := Upsert(GetAll(old(storage.items)), old(Document()), now);
        && docId == old(docId) && isDirtyTitle == old(isDirtyTitle)
        && (upserted.Ok? ==>
              outcome == SavedLocally && storage.items == old(storage.items)[ListKey := Stringify(JArr(upserted.value))])
        && (upserted.Thrown? ==> outcome == Failed && storage.items == old(storage.items))
    {
      // `!content.trim()`, which is AllSpace(content) by the contract of Trim
      if AllSpace(content) {
        return Warned;
      }
      saving := true;
      if isDirtyTitle || !JsonTruthy(docId) {
        if serverId.None? {
          saving := false;
          return Failed;
        }
        if !JsonTruthy(docId) {
          docId := serverId.value;
        }
        isDirtyTitle := false;
        outcome := SavedRemotely;
      } else {
        var ok := WriteLocal(now);
        outcome := if ok then SavedLocally else Failed;
      }
      saving := false;
    }
  }
}
