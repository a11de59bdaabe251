# Plugin core of the QuickMD markdown editor, modelled in Dafny

This project models the plugin extensibility core of the QuickMD markdown
editor. The editor is a Vue application; only its plugin machinery is modelled here.

- **Two plugin registries.**
  - The *notify registry* (`01/plugins/PluginManager.js`). Every subscriber
    of a hook receives the same arguments, and an exception in one subscriber
    is contained. Plugins bring hook declarations and an
    `initialize`/`teardown` pair that may trigger hooks on the registry.
  - The *pipeline registry* (`src/plugins/PluginManager.js`). Each
    subscriber receives the previous subscriber's defined return value.
    Plugins receive the editor instance and have an `enabled` flag.
- **The plugins.**
  - The plugin interface classes (base, toolbar button, editor state,
    preview enhancement), modelled as one class with a role tag.
  - The Mermaid preview plugin and the diagram toolbar plugin of the notify
    registry.
  - The word-count plugin of the notify registry.
  - The three plugins of the pipeline registry.
- **Configuration and storage.**
  - The stored plugin configuration (`02/utils/pluginConfig.js`).
  - The local document list with its upsert (`02/api/localApi.js`).
  - Browser storage as one text slot per key. The text is either what
    `JSON.stringify` produced, and parses back to it, or any other text,
    and then parsing throws.
- **The two composables that drive the pipeline registry.**
  - The editor composable (`02/composables/useEditor.js`): plugin
    (re)initialisation, the editor API's `insertText`, the content watcher,
    the computed counters and the guards of the two saves.
  - The plugin composable (`src/composables/usePlugins.js`): the
    configuration loader with its all-enabled default, initialisation,
    the toggle handler and `insertText`.

Conventions:
- Callbacks are identified by number. What a callback does when called is a
  `Behaviour` parameter: it returns a value or throws.
- JavaScript values are the `Js.Value` datatype, and JSON values are
  `Storage.Json`.
- Classes whose fields the source updates in place are Dafny classes. Their
  methods state the new state, and pure helpers are functions with lemmas.

The modules:
- `Js`: values, truthiness, callbacks and the `Option`/`Result` wrappers.
- `Text`: trimming, word runs, `split('\n')` and the textarea splice.
- `HookBus`: the hook table and both dispatch disciplines, as functions.
- `PluginInterface`: the plugin interface classes.
- `NotifyRegistry`.
- `DiagramPlugins`.
- `WordCountStats`.
- `SrcPlugins`: the pipeline registry's plugins.
- `PipelineRegistry`.
- `Storage`.
- `PluginConfig`.
- `LocalApi`.
- `PluginSetup`: the registration step both composables share.
- `UseEditor`.
- `UsePlugins`.

Notable behaviour of the code, which the model follows:
- **Notify registry, failing teardown.** When `teardown` throws,
  `unregister` returns false and the plugin stays registered with all of its
  hooks.
- **Pipeline result.** The pipeline registry's `triggerHook` returns the
  last subscriber's return value, even when that value is `undefined`. It
  does not return the last defined value (`PipelineRegistry.LastUndefinedWins`).
- **Editor loader with nothing stored.** The editor's configuration loader
  reads an absent key as `{}`, not as every plugin enabled. The editor's
  plugin switches are the keys of that object, and initialisation only
  resets existing keys. So the editor composable registers no plugin until
  a configuration has been stored.
- **Toggling.** `handlePluginToggle` in `src/composables/usePlugins.js`
  only writes the in-memory switch; nothing is written to storage. It then re-initialises, which resets
  that switch from the stored configuration, so the toggle has no lasting
  effect of its own.
- **Two readings of "enabled".** `showWordCount` tests `=== true`, while
  registration tests truthiness.
- **Empty content, plugin versus editor.** The word-count plugin's
  `updateStats` reports 0 lines for empty content. The editor's `lineCount`
  reports 1.
- **Editor assignment on failed registration.** The pipeline registry hands
  the editor to a plugin before calling `initialize`. The assignment stays
  when `initialize` throws and the plugin is not recorded.
- **Repeated dialog subscriptions.** Each `initPlugins` subscribes the two
  dialog callbacks again, so after n initialisations each is subscribed n
  times.

## Model

| member | source | states |
|---|---|---|
| HookBus.Subscribe | 01/plugins/PluginManager.js:74-79 | subscribing appends the callback to that hook's list, creating the list if needed, and leaves every other hook's list alone |
| HookBus.Unsubscribe | 01/plugins/PluginManager.js:82-90 | unsubscribing removes the first occurrence of the callback from that hook's list, if there is one, and touches no other hook |
| HookBus.RemoveFirstShape | 01/plugins/PluginManager.js:86-89 | removing an absent callback changes nothing; otherwise exactly the first occurrence is cut out and the rest keeps its order |
| HookBus.RemoveFirstAfterAppend | 01/plugins/PluginManager.js:78-88 | removing a callback that was just pushed gives back the earlier list |
| HookBus.SubscribeAllAppends | 01/plugins/PluginManager.js:28-32 | subscribing a plugin's declarations appends, for each hook, exactly the callbacks declared for it, in declaration order |
| HookBus.SubscribeAllKeys | 01/plugins/PluginManager.js:28-32 | after subscribing a plugin's declarations, the hook table holds the old hooks plus every declared hook |
| HookBus.DeclaredForDistinct | 01/plugins/PluginManager.js:58-61 | with distinct hook names each hook has at most one declared callback; a hook that is not declared has none |
| HookBus.DeclaredForNone | 01/plugins/PluginManager.js:58-61 | a hook not among the declarations has no declared callbacks |
| HookBus.UnsubscribeAllRemoves | 01/plugins/PluginManager.js:58-61 | unsubscribing a plugin's declarations leaves undeclared hooks alone and removes the first occurrence of a declared callback |
| HookBus.UnsubscribeAfterSubscribe | 01/plugins/PluginManager.js:28-32 | subscribing and then unsubscribing a plugin's declarations, with distinct hook names, restores every hook's subscriber list |
| HookBus.PipelineCallsShape | src/plugins/PluginManager.js:73-87 | the pipeline calls every subscriber once, in order; the first gets the arguments and each later one gets the previous defined return value, or the same arguments as before |
| HookBus.PipelineCallsInOrder | src/plugins/PluginManager.js:73-87 | the calls made are a prefix of the subscriber list, each with that subscriber's behaviour |
| HookBus.PipelineCallsChain | src/plugins/PluginManager.js:73-87 | the first call gets the original arguments and each later call gets what the one before passed on |
| HookBus.PipelineCallsStop | src/plugins/PluginManager.js:73-87 | the calls stop before the end of the list only at a subscriber that throws |
| HookBus.PipelineResult | src/plugins/PluginManager.js:76-84 | the pipeline's result is the last subscriber's return value (undefined when it returned nothing); an exception escapes to the caller |
| HookBus.PipelineOfIdentities | src/plugins/PluginManager.js:73-87 | subscribers that all return their one argument hand it through unchanged |
| PluginInterface.ButtonConfig.Default | 01/plugins/PluginInterface.js:24-29 | the default toolbar descriptor has an empty icon and tooltip and sits on the left |
| PluginInterface.Plugin.constructor | 01/plugins/PluginInterface.js:3-8 | a base plugin is named "base-plugin", version 1.0.0, and declares no hooks |
| PluginInterface.Plugin.ToolbarButtonPlugin | 01/plugins/PluginInterface.js:21-30 | a toolbar button plugin declares no hooks and carries its button descriptor |
| PluginInterface.Plugin.EditorStatePlugin | 01/plugins/PluginInterface.js:47-53 | an editor-state plugin declares exactly `editor:contentChanged`, bound to its own handler |
| PluginInterface.Plugin.PreviewEnhancementPlugin | 01/plugins/PluginInterface.js:61-68 | a preview plugin declares `preview:beforeRender` and `preview:afterRender`, in that order |
| PluginInterface.Plugin.Initialize | 01/plugins/PluginInterface.js:10-37 | initialising stores the registry and the editor; a toolbar button then asks for `toolbar:addButton` with its own descriptor, and other plugins ask for nothing |
| PluginInterface.Plugin.Teardown | 01/plugins/PluginInterface.js:15-43 | teardown throws exactly when a toolbar button was never initialised; otherwise a toolbar button asks for `toolbar:removeButton` with the same descriptor object |
| PluginInterface.DefaultHandler | 01/plugins/PluginInterface.js:55-76 | the default `beforePreviewRender` returns its content, and the other default handlers return nothing |
| PluginInterface.DefaultPreviewPipeline | 01/plugins/PluginInterface.js:70-72 | a chain of default preview handlers hands defined content through unchanged |
| NotifyRegistry.PluginManager.constructor | 01/plugins/PluginManager.js:2-6 | a new registry has no plugins, no hooks and a null editor |
| NotifyRegistry.PluginManager.SetEditorInstance | 01/plugins/PluginManager.js:9-12 | only the stored editor changes; plugins registered earlier keep the editor they were given |
| NotifyRegistry.PluginManager.RegisterHook | 01/plugins/PluginManager.js:74-79 | the hook table becomes the subscription of the callback; plugins are untouched |
| NotifyRegistry.PluginManager.UnregisterHook | 01/plugins/PluginManager.js:82-90 | the hook table becomes the removal of the first occurrence of the callback; plugins are untouched |
| NotifyRegistry.PluginManager.RegisterHooks | 01/plugins/PluginManager.js:28-32 | a plugin's hook declarations are subscribed one after another, in order; plugins are untouched |
| NotifyRegistry.PluginManager.UnregisterHooks | 01/plugins/PluginManager.js:58-62 | a plugin's hook declarations are unsubscribed one after another, in order; plugins are untouched |
| NotifyRegistry.PluginManager.TriggerHook | 01/plugins/PluginManager.js:93-103 | every subscriber is called once, in order, with the same arguments; one that throws does not stop the rest; an unknown hook calls nothing |
| NotifyRegistry.PluginManager.TriggerAll | 01/plugins/PluginInterface.js:36-41 | the hooks a plugin requests are dispatched in order against the current table |
| NotifyRegistry.PluginManager.Register | 01/plugins/PluginManager.js:15-41 | registration succeeds exactly when the name is free and `initialize` does not throw; it then records the plugin last in order, subscribes its declarations in order, gives it this registry and dispatches what `initialize` asked for; on refusal or failure nothing changes |
| NotifyRegistry.PluginManager.Unregister | 01/plugins/PluginManager.js:44-71 | unregistering succeeds exactly when the name is registered and its teardown does not throw; it then removes the name from the map and the order, unsubscribes the declarations and dispatches the teardown's requests; otherwise nothing changes |
| NotifyRegistry.PluginManager.GetPlugins | 01/plugins/PluginManager.js:106-108 | the registered plugins, one per name, in registration order |
| NotifyRegistry.PluginManager.GetPlugin | 01/plugins/PluginManager.js:111-113 | the plugin registered under the name, or none |
| NotifyRegistry.RegisterThenUnregister | 01/plugins/PluginManager.js:15-71 | registering a plugin with distinct hook names and then unregistering it restores the plugins, their order and every hook's subscribers |
| NotifyRegistry.WithoutAppended | 01/plugins/PluginManager.js:34-64 | deleting a key that was just inserted restores the Map's key order |
| DiagramPlugins.Find | 01/plugins/DiagramPlugin.js:47 | the leftmost occurrence of a pattern, or none when it does not occur |
| DiagramPlugins.FindAfter | 01/plugins/DiagramPlugin.js:47 | a fence after fence-free text is found exactly there; occurrences cannot straddle the join |
| DiagramPlugins.MarkerUnbordered | 01/plugins/DiagramPlugin.js:47 | the opening fence cannot overlap itself |
| DiagramPlugins.TerminatorUnbordered | 01/plugins/DiagramPlugin.js:47 | the closing fence cannot overlap itself |
| DiagramPlugins.RewriteBlock | 01/plugins/DiagramPlugin.js:47-50 | a fenced block becomes a placeholder with the next id that holds the code verbatim; the text before is kept and the rewrite continues after the closing fence |
| DiagramPlugins.RewriteWithoutFence | 01/plugins/DiagramPlugin.js:47-50 | content with no opening fence is unchanged |
| DiagramPlugins.RewriteUnclosed | 01/plugins/DiagramPlugin.js:47-50 | an opening fence that is never closed leaves the content unchanged |
| DiagramPlugins.DiagramPlugin.constructor | 01/plugins/DiagramPlugin.js:4-12 | a preview plugin named "diagram-plugin" whose library starts not loaded |
| DiagramPlugins.DiagramPlugin.MermaidLoaded | 01/plugins/DiagramPlugin.js:18-20 | once the library has loaded the plugin is marked initialised |
| DiagramPlugins.DiagramPlugin.BeforePreviewRender | 01/plugins/DiagramPlugin.js:43-51 | the identity until the library has loaded and for fence-free content, and the block rewrite otherwise |
| DiagramPlugins.DiagramPlugin.AfterPreviewRender | 01/plugins/DiagramPlugin.js:53-60 | diagrams are rendered exactly when the library has loaded and a preview element is given |
| DiagramPlugins.DiagramToolbarPlugin.constructor | 01/plugins/DiagramPlugin.js:86-99 | a toolbar plugin named "diagram-toolbar-plugin" whose button is "DataAnalysis" / "插入图表", on the right, bound to `insertDiagramTemplate` |
| DiagramPlugins.DiagramToolbarPlugin.InsertContent | 01/plugins/DiagramPlugin.js:154-158 | the editor's `insertText` gets exactly the given text, and only when the editor exists and has that method |
| Text.Utf16Length | 02/plugins/WordCountPlugin.js:88-90 | a string's JavaScript length counts one unit per character in the Basic Multilingual Plane and two per astral character, so it lies between the character count and twice it, and equals the character count exactly when no character is astral |
| Text.Utf16LengthAppend | 02/plugins/WordCountPlugin.js:88-90 | the length of a concatenation is the sum of the lengths |
| Text.EmojiIsTwoUnits | 02/composables/useEditor.js:251 | an emoji is one character but two units of length |
| Text.Trim | 02/composables/useEditor.js:45 | trimming leaves nothing exactly when the content is all whitespace |
| Text.SplitWsCountsRuns | 02/plugins/WordCountPlugin.js:83-86 | the non-empty pieces of a whitespace split of trimmed text are its maximal non-whitespace runs |
| Text.WordRunsZeroIffAllSpace | 02/plugins/WordCountPlugin.js:83-86 | text has no word runs exactly when it is all whitespace |
| Text.SplitOnLength | 02/plugins/WordCountPlugin.js:92-94 | splitting on line breaks gives one more piece than there are line breaks |
| Text.SplitOnJoin | 02/plugins/WordCountPlugin.js:92-94 | joining the pieces of a split with the separator gives the text back |
| Text.SpliceShape | 02/composables/useEditor.js:191-197 | for a selection inside the content, the splice keeps the text before it, puts the inserted text at its start and keeps the text after it |
| Text.InsertThenDelete | 02/composables/useEditor.js:191-197 | inserting at a caret and then deleting what was inserted gives the content back |
| WordCountStats.CountWords | 02/plugins/WordCountPlugin.js:83-86 | the word count is the number of maximal non-whitespace runs, and zero exactly for blank text |
| WordCountStats.CountLines | 02/plugins/WordCountPlugin.js:92-94 | the line count is one more than the number of line breaks, so at least 1 |
| WordCountStats.StatsOf | 02/plugins/WordCountPlugin.js:70-78 | empty content gives all zeros; otherwise the word runs, the UTF-16 length (`content.length`) and one more than the line breaks; the length lies between the character count and twice it |
| WordCountStats.WordCountPlugin.constructor | 02/plugins/WordCountPlugin.js:4-16 | an editor-state plugin named "word-count-plugin" with no statistics element and zero statistics |
| WordCountStats.WordCountPlugin.CreateStatsElement | 02/plugins/WordCountPlugin.js:42-43 | the created element becomes the statistics element and the statistics stay |
| WordCountStats.WordCountPlugin.UpdateStats | 02/plugins/WordCountPlugin.js:67-81 | without a statistics element nothing changes; otherwise the statistics become those of the content |
| WordCountStats.WordCountPlugin.OnContentChanged | 02/plugins/WordCountPlugin.js:63-65 | a content change updates the statistics exactly as `updateStats` does |
| WordCountStats.BlankHasNoWords | 02/plugins/WordCountPlugin.js:84-85 | blank text, alone or doubled, counts no words |
| WordCountStats.WordsAdd | 02/plugins/WordCountPlugin.js:83-86 | word counts add up across a space between two texts |
| WordCountStats.RunsAdd | 02/plugins/WordCountPlugin.js:83-86 | the reference word count adds up across a space between two texts |
| SrcPlugins.BasePlugin.constructor | src/plugins/BasePlugin.js:2-10 | a base plugin is named "base-plugin", starts disabled and has no editor |
| SrcPlugins.BasePlugin.WordCount | src/plugins/WordCountPlugin.js:4-11 | the word-count plugin's name and metadata, disabled, with no editor |
| SrcPlugins.BasePlugin.Diagram | src/plugins/DiagramPlugin.js:4-11 | the diagram plugin's name and metadata, disabled, with no editor |
| SrcPlugins.BasePlugin.DiagramToolbar | src/plugins/DiagramToolbarPlugin.js:4-11 | the diagram toolbar plugin's name and metadata, disabled, with no editor |
| SrcPlugins.BasePlugin.SetEditor | src/plugins/BasePlugin.js:12-14 | the editor is replaced and nothing else changes |
| SrcPlugins.BasePlugin.Initialize | src/plugins/BasePlugin.js:16-19 | initialising enables the plugin, or throws and changes nothing |
| SrcPlugins.BasePlugin.Enable | src/plugins/BasePlugin.js:21-24 | the plugin becomes enabled, and the editor is kept |
| SrcPlugins.BasePlugin.Disable | src/plugins/BasePlugin.js:26-29 | the plugin becomes disabled, and the editor is kept |
| SrcPlugins.BasePlugin.Destroy | src/plugins/BasePlugin.js:31-33 | destroying changes nothing in the model |
| PipelineRegistry.PluginManager.constructor | src/plugins/PluginManager.js:2-6 | a new registry has no plugins, no hooks and a null editor |
| PipelineRegistry.PluginManager.SetEditorForPlugin | src/plugins/PluginManager.js:16-20 | a truthy registry editor is handed to the plugin; otherwise the plugin keeps its own |
| PipelineRegistry.PluginManager.SetEditorInstance | src/plugins/PluginManager.js:8-14 | the registry's editor is replaced, and when it is truthy every registered plugin receives it; the plugin set, order and hooks stay |
| PipelineRegistry.PluginManager.Register | src/plugins/PluginManager.js:22-44 | registration succeeds exactly when the name is free and `initialize` does not throw; a free name receives the editor first, and that assignment persists even when `initialize` throws; on success the plugin is recorded last and enabled |
| PipelineRegistry.PluginManager.Unregister | src/plugins/PluginManager.js:46-56 | a registered name is destroyed and removed from the map and the order; an unknown name changes nothing |
| PipelineRegistry.PluginManager.GetPlugin | src/plugins/PluginManager.js:58-60 | the plugin registered under the name, or none |
| PipelineRegistry.PluginManager.GetPlugins | src/plugins/PluginManager.js:62-64 | the registered plugins, one per name, in registration order |
| PipelineRegistry.PluginManager.RegisterHook | src/plugins/PluginManager.js:66-71 | the hook table becomes the subscription of the callback; plugins are untouched |
| PipelineRegistry.PluginManager.TriggerHook | src/plugins/PluginManager.js:73-87 | the dispatch computes the pipeline: each subscriber gets the previous defined return value, the last return value comes back, and an unknown hook returns the first argument |
| PipelineRegistry.PluginManager.EnablePlugin | src/plugins/PluginManager.js:89-94 | the named plugin becomes enabled; every other plugin and an unknown name change nothing |
| PipelineRegistry.PluginManager.DisablePlugin | src/plugins/PluginManager.js:96-101 | the named plugin becomes disabled; every other plugin and an unknown name change nothing |
| PipelineRegistry.UnregisterAll | 02/composables/useEditor.js:164 | unregistering every plugin from `getPlugins()` leaves the registry empty, with hooks and editor kept |
| PipelineRegistry.UpperThenExclaim | src/plugins/PluginManager.js:77-84 | two transforming subscribers compose: "hi" becomes "HI!" |
| PipelineRegistry.LastUndefinedWins | src/plugins/PluginManager.js:76-84 | a last subscriber that returns nothing makes the dispatch return undefined, discarding the earlier defined value |
| Storage.Parse | 02/utils/pluginConfig.js:5 | parsing succeeds exactly on text that `JSON.stringify` produced, and gives its value back |
| Storage.Stringify | 02/utils/pluginConfig.js:15 | stringified text parses back to the same value |
| Storage.Prop | src/composables/usePlugins.js:90 | reading a property of `null` throws, an object's own field is returned, and anything else gives undefined |
| Storage.Coalesce | src/composables/usePlugins.js:90 | `??` replaces both undefined and null by the fallback and keeps everything else |
| Storage.GetItem | 02/api/localApi.js:7 | a key never set reads as null; otherwise its stored text |
| Storage.LocalStorage.SetItem | 02/api/localApi.js:15 | only the given key's text changes |
| PluginConfig.LoadPluginConfig | 02/utils/pluginConfig.js:3-13 | with nothing stored the configuration is empty; unparsable text gives all three plugins enabled; otherwise the stored value |
| PluginConfig.SavePluginConfig | 02/utils/pluginConfig.js:15 | only the configuration key changes, to the stringified configuration |
| PluginConfig.SaveThenLoad | 02/utils/pluginConfig.js:3-15 | saving a configuration and loading it gives it back |
| PluginConfig.StateFor | 02/composables/useEditor.js:169 | a switch becomes the configured value unless that is missing or null, and false then |
| PluginConfig.PluginStates.Set | src/composables/usePlugins.js:33 | one switch is written and the others stay |
| PluginConfig.PluginStates.Reset | 02/composables/useEditor.js:168-169 | every existing switch takes its configured value or false and no switch is added; a null configuration throws before any write |
| PluginConfig.Switches | src/composables/usePlugins.js:96 | a configuration object's own fields are the switches, both for the editor's initial switches and for the plugin composable's lookups; any other value switches nothing on |
| PluginConfig.EnabledMembers | 02/composables/useEditor.js:176-185 | a name is enabled exactly when it is listed and its switch is truthy |
| PluginConfig.EnabledAppend | 02/composables/useEditor.js:183-185 | enabling the names of two lists one after the other gives the enabled names of each, in order |
| PluginConfig.EnabledSnoc | src/composables/usePlugins.js:113-115 | each registration call adds its plugin at the end, or nothing when its switch is off |
| PluginConfig.EnabledAfterReset | 02/composables/useEditor.js:168-177 | after a reset a known plugin is on exactly when it already had a switch and the configuration turns it on |
| PluginConfig.ShowWordCount | src/composables/usePlugins.js:18-20 | the counter is shown exactly when the word-count switch is the value `true`, which implies the plugin registers |
| PluginConfig.ShowWordCountStricter | 02/composables/useEditor.js:253 | a truthy switch other than `true` registers the word-count plugin without showing the counter |
| LocalApi.GetAll | 02/api/localApi.js:5-11 | with nothing stored, with empty text or with unparsable text the list is empty; otherwise the stored value |
| LocalApi.SaveAll | 02/api/localApi.js:14-16 | only the list key changes, to the stringified list |
| LocalApi.SaveAllThenGetAll | 02/api/localApi.js:5-16 | saving a list and reading it back gives the same list |
| LocalApi.FindIndexFrom | 02/api/localApi.js:21 | `findIndex` returns the first element whose id is strictly equal to the document's, or -1, and throws when it meets a null element first |
| LocalApi.UpdateLocal | 02/api/localApi.js:19-26 | the stored list becomes the upsert of the document and the document itself is returned; a stored value that is not an array, or a null element, throws with nothing written |
| LocalApi.UpsertReplacesFirstMatch | 02/api/localApi.js:21-22 | with a matching element, the first match is replaced and the length and the other elements stay |
| LocalApi.UpsertPrependsWhenAbsent | 02/api/localApi.js:23 | without a match, one element goes in front, with the document's own truthy id or else the clock reading, followed by the old list |
| LocalApi.UpsertIdempotent | 02/api/localApi.js:19-26 | saving a document with a truthy primitive id twice stores the same list as saving it once |
| LocalApi.UpsertWithoutIdDuplicates | 02/api/localApi.js:21-23 | a document whose id is missing or null, saved into a list whose stored ids are all present and non-null, is prepended again on every save, each copy stamped with that save's clock reading |
| PluginSetup.NewPlugin | 02/composables/useEditor.js:179 | each known name builds its own, fresh, disabled plugin |
| PluginSetup.RegisterIfOn | src/composables/usePlugins.js:94-111 | a plugin is built and registered only when its switch is on; the result is true exactly when it was on and the name was free |
| PluginSetup.RegisterNext | 02/composables/useEditor.js:176-182 | each registration call keeps the registry equal to the enabled prefix of the known plugins |
| PluginSetup.RegisterEnabled | 02/composables/useEditor.js:183-185 | after the three calls exactly the enabled known plugins are registered, in the known order, each enabled and holding the registry's editor |
| UseEditor.DocumentOf | 02/composables/useEditor.js:22-28 | the saved document has exactly the five document fields, with the document's id and content |
| UseEditor.EditorSession.constructor | 02/composables/useEditor.js:20-35 | an empty document, no save running, and switches from the stored configuration, none when nothing is stored |
| UseEditor.EditorSession.EditorApi | 02/composables/useEditor.js:189-204 | the editor API is a truthy object with an `insertText` method |
| UseEditor.EditorSession.InitPlugins | 02/composables/useEditor.js:162-186 | every plugin is unregistered, the editor API becomes the registry's editor, the switches are reset from storage, the dialog hooks are subscribed once more, and exactly the plugins that had a switch and are turned on in storage are registered, in the known order, each holding the editor API |
| UseEditor.EditorSession.Unmount | 02/composables/useEditor.js:233-237 | unmounting leaves the registry without plugins |
| UseEditor.EditorSession.InsertText | 02/composables/useEditor.js:191-201 | without a textarea nothing changes; otherwise the selection is replaced by the text and the caret is placed right after it, and no other document field changes |
| UseEditor.EditorSession.ContentWatcher | 02/composables/useEditor.js:240-243 | the editor API's copy of the content is updated, and `editor:contentChanged` runs through the pipeline with the content |
| UseEditor.EditorSession.Counters | 02/composables/useEditor.js:245-252 | the computed counters are the word runs, the UTF-16 length and one more than the line breaks; they equal the word-count plugin's statistics except for empty content, which gives one line |
| UseEditor.EditorSession.WriteLocal | 02/composables/useEditor.js:56 | the current document is upserted into the stored list, and the result says whether the write succeeded; on failure nothing is written |
| UseEditor.EditorSession.AutoSave | 02/composables/useEditor.js:44-62 | blank content or a save in progress does nothing; otherwise a failed title push skips the local write, else the document is upserted into the local list and the time recorded; `saving` ends false |
| UseEditor.EditorSession.ManualSave | 02/composables/useEditor.js:131-145 | blank content only warns; a dirty title or a missing id goes to the server and clears the dirty title; otherwise the document is upserted locally; `saving` ends false |
| UsePlugins.LoadSrcPluginConfig | src/composables/usePlugins.js:37-56 | nothing stored, empty text or unparsable text gives all three plugins enabled; a stored value is returned and agrees with the editor's loader, which reads nothing stored as empty |
| UsePlugins.PluginsSession.constructor | src/composables/usePlugins.js:12-16 | all three switches start false |
| UsePlugins.PluginsSession.InitializePlugins | src/composables/usePlugins.js:58-116 | every plugin is unregistered, a fresh editor API becomes the registry's editor, the three switches are reset from the configuration; the call fails exactly when the stored configuration is null (it throws in the reset or at the first switch lookup), and exactly the plugins the configuration turns on are registered, in the known order |
| UsePlugins.PluginsSession.HandlePluginToggle | src/composables/usePlugins.js:32-35 | the switch is written and then initialisation runs again, resetting that switch from the stored configuration, so the written value survives only when initialisation throws |
| UsePlugins.PluginsSession.Unmount | src/composables/usePlugins.js:120-124 | unmounting leaves the registry without plugins |
| UsePlugins.PluginsSession.InsertText | src/composables/usePlugins.js:70-80 | without a textarea nothing changes; otherwise the selection is replaced by the text |

## Left out

- DOM work is not modelled: `loadMermaid`, `renderDiagram`, the statistics
  element's markup and `renderStats`, `createWordCountDisplay`,
  `onWindowResize`, the dialog markup of `insertDiagramTemplate`, and the
  `nextTick`/focus calls after an insertion.
- Console logging and message toasts are not modelled.
- Network calls of the editor composable are reduced to parameters:
  - `documentApi.update` in the automatic save becomes the `titlePushed` flag.
  - `silentSave` in the manual save becomes the `serverId` result.
- Document loading and creation, and the list reload after a save, are not
  modelled.
- The autosave timer is not modelled.
- The clock (`Date.now()`, `new Date()`) is a parameter.
- The random suffix of diagram ids is a function parameter.
- The asynchronous completion of the Mermaid load is the explicit
  `MermaidLoaded` step.
- Callbacks' side effects beyond returning or throwing are not modelled.
- A plugin registered with the notify registry is one of the modelled
  classes. Duck-typed objects that lack `initialize` or `hooks` are not
  covered.
- JSON numbers are integers. Floating point, `NaN` and numeric-string keys
  are not modelled.
- PluginConfig.Switches: a stored configuration that is not an object is
  modelled as having no switches. For `null`, `Object.keys` would throw, and
  an array would yield index keys.
- `Storage.Parse`: the model does not distinguish different texts that
  stringify to the same value.
- `02/plugins/PluginInterface.js` is not part of this model. The word-count
  plugin in `02/plugins` is modelled against the interface in `01/plugins`.
- `02/plugins/PluginManager.js` is not part of this model. The editor
  composable imports `@/plugins/...`, which is modelled as the pipeline
  registry and the plugins in `src/plugins`.
- PluginSetup.RegisterEnabled: does not state that the registered plugin
  objects are newly built, because tracking allocation across the three
  calls is too costly to prove. `PluginSetup.RegisterIfOn` states it for
  each call. The same holds for `UseEditor.EditorSession.InitPlugins` and
  `UsePlugins.PluginsSession.InitializePlugins`.
- UseEditor.EditorSession.AutoSave and UseEditor.EditorSession.ManualSave
  are each one atomic step. The awaits at `02/composables/useEditor.js:50`,
  `:56`, `:137` and `:141` are not points where another operation can run,
  so `saving` is true only inside a save. The guard that makes an automatic
  save do nothing while a save is in progress is modelled, but no model
  operation leaves `saving` true for it to see. An interleaved edit of the
  content or the title during a save is not captured.
- Storage.Prop: only an object's own fields are read. Inherited properties
  such as `constructor` or `toString`, and an array's `length`, read as
  undefined, because functions and prototypes are not JSON values here. The
  keys the core reads are the plugin names and `id`.
- Text.Splice: selection offsets and the caret are character positions,
  used by `UseEditor.EditorSession.InsertText` and
  `UsePlugins.PluginsSession.InsertText`. They equal JavaScript's UTF-16
  offsets only for text within the Basic Multilingual Plane, and a selection
  that splits a surrogate pair cannot be expressed. Lone surrogates cannot
  occur in a Dafny string.
- Theme, device detection, document deletion and the markdown parser of the
  editor composable lie outside the plugin core.
