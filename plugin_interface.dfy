/**
 * The capability contracts of the notify registry's plugins
 * (01/plugins/PluginInterface.js): a base plugin and its toolbar-button,
 * editor-state and preview-enhancement specialisations.
 *
 * The specialisations differ only in what their constructors declare and in
 * what `initialize`/`teardown` do, so one class carries them all, tagged
 * with its `role`. A plugin does not call the registry directly: its
 * `Initialize` and `Teardown` return the hook triggers they make, which the
 * registry then dispatches.
 */
module PluginInterface {
  import opened Js
  import opened HookBus

  // The hook vocabulary shared by host and plugins.
  const ContentChanged := "editor:contentChanged"
  const AddButton := "toolbar:addButton"
  const RemoveButton := "toolbar:removeButton"
  const BeforeRender := "preview:beforeRender"
  const AfterRender := "preview:afterRender"
  const ShowDialog := "editor:showDialog"
  const HideDialog := "editor:hideDialog"

  datatype Position = Left | Right

  /** A toolbar button descriptor; identity matters, as removal passes the same object. */
  class ButtonConfig {
    const icon: string
    const tooltip: string
    const position: Position
    const onClick: CallbackId

    constructor (icon: string, tooltip: string, position: Position, onClick: CallbackId)
      ensures this.icon == icon && this.tooltip == tooltip
      ensures this.position == position && this.onClick == onClick
    {
      this.icon, this.tooltip, this.position, this.onClick := icon, tooltip, position, onClick;
    }

    /** The descriptor `ToolbarButtonPlugin`'s constructor builds. */
    constructor Default(onClick: CallbackId)
      ensures icon == "" && tooltip == "" && position == Left && this.onClick == onClick
    {
      icon, tooltip, position, this.onClick := "", "", Left, onClick;
    }
  }

  datatype Identity = Identity(name: string, version: string, description: string)

  const BaseIdentity := Identity("base-plugin", "1.0.0", "Base plugin class")

  datatype Role = Base | ToolbarButton | EditorState | PreviewEnhancement

  class Plugin {
    const identity: Identity
    const name: string
    const role: Role
    /** `Object.entries(this.hooks)`, in insertion order. */
    const hooks: seq<HookDecl>
    const buttonConfig: ButtonConfig?
    /**
     * Stand for a subclass whose `initialize` or `teardown` override
     * throws; none of the plugins in this repository has one.
     */
    const failsOnInitialize: bool
    const failsOnTeardown: bool

    var pluginManager: object?
    var editorInstance: Value

    ghost predicate Valid()
    {
      && name == identity.name
      && DistinctHooks(hooks)
      && (role == ToolbarButton <==> buttonConfig != null)
    }

    /** `new BasePlugin()` */
    constructor ()
      ensures Valid() && identity == BaseIdentity && name == "base-plugin"
      ensures role == Base && hooks == [] && !failsOnInitialize && !failsOnTeardown
      ensures pluginManager == null && editorInstance == Undefined
    {
      identity, name, role, hooks, buttonConfig := BaseIdentity, BaseIdentity.name, Base, [], null;
      failsOnInitialize, failsOnTeardown := false, false;
      pluginManager, editorInstance := null, Undefined;
    }

    /** Any other object handed to the registry, with its own hooks and failure behaviour. */
    constructor Custom(identity: Identity, hooks: seq<HookDecl>, failsOnInitialize: bool, failsOnTeardown: bool)
      requires DistinctHooks(hooks)
      ensures Valid() && this.identity == identity && role == Base && this.hooks == hooks
      ensures this.failsOnInitialize == failsOnInitialize && this.failsOnTeardown == failsOnTeardown
      ensures pluginManager == null && editorInstance == Undefined
    {
      this.identity, name, role, this.hooks, buttonConfig := identity, identity.name, Base, hooks, null;
      this.failsOnInitialize, this.failsOnTeardown := failsOnInitialize, failsOnTeardown;
      pluginManager, editorInstance := null, Undefined;
    }

    /** `new ToolbarButtonPlugin()`, or a subclass that replaces identity and descriptor. */
    constructor ToolbarButtonPlugin(identity: Identity, config: ButtonConfig)
      ensures Valid() && this.identity == identity && role == ToolbarButton
      ensures hooks == [] && buttonConfig == config && !failsOnInitialize && !failsOnTeardown
      ensures pluginManager == null && editorInstance == Undefined
    {
      this.identity, name, role, hooks, buttonConfig := identity, identity.name, ToolbarButton, [], config;
      failsOnInitialize, failsOnTeardown := false, false;
      pluginManager, editorInstance := null, Undefined;
    }

    /** `new EditorStatePlugin()`: one hook, bound to `onContentChanged`. */
    constructor EditorStatePlugin(identity: Identity, onContentChanged: CallbackId)
      ensures Valid() && this.identity == identity && role == EditorState
      ensures hooks == [HookDecl(ContentChanged, onContentChanged)]
      ensures buttonConfig == null && !failsOnInitialize && !failsOnTeardown
      ensures pluginManager == null && editorInstance == Undefined
    {
      this.identity, name, role, buttonConfig := identity, identity.name, EditorState, null;
      hooks := [HookDecl(ContentChanged, onContentChanged)];
      failsOnInitialize, failsOnTeardown := false, false;
      pluginManager, editorInstance := null, Undefined;
    }

    /** `new PreviewEnhancementPlugin()`: the before- and after-render hooks. */
    constructor PreviewEnhancementPlugin(identity: Identity, beforeRender: CallbackId, afterRender: CallbackId)
      ensures Valid() && this.identity == identity && role == PreviewEnhancement
      ensures hooks == [HookDecl(BeforeRender, beforeRender), HookDecl(AfterRender, afterRender)]
      ensures buttonConfig == null && !failsOnInitialize && !failsOnTeardown
      ensures pluginManager == null && editorInstance == Undefined
    {
      this.identity, name, role, buttonConfig := identity, identity.name, PreviewEnhancement, null;
      hooks := [HookDecl(BeforeRender, beforeRender), HookDecl(AfterRender, afterRender)];
      failsOnInitialize, failsOnTeardown := false, false;
      pluginManager, editorInstance := null, Undefined;
    }

    /** The triggers `initialize` makes: a toolbar button adds its own descriptor, once. */
    function AddRequests(): (r: seq<Trigger>)
      requires Valid()
    {
      if role == ToolbarButton then [Trigger(AddButton, [Ref(buttonConfig)])] else []
    }

    /** The triggers `teardown` makes: a toolbar button removes the same descriptor object. */
    function RemoveRequests(): (r: seq<Trigger>)
      requires Valid()
    {
      if role == ToolbarButton then [Trigger(RemoveButton, [Ref(buttonConfig)])] else []
    }

    /**
     * `initialize(pluginManager, editorInstance)`: store both references;
     * a toolbar button then asks for its descriptor to be added.
     */
    method Initialize(manager: object, editor: Value) returns (r: Result<seq<Trigger>>)
      requires Valid()
      modifies this
      ensures failsOnInitialize ==> r == Thrown && unchanged(this)
      ensures !failsOnInitialize ==> r.Ok? && pluginManager == manager && editorInstance == editor
      ensures r.Ok? ==> r.value == AddRequests()
      ensures r.Ok? && role == ToolbarButton ==> r.value == [Trigger(AddButton, [Ref(buttonConfig)])]
      ensures r.Ok? && role != ToolbarButton ==> r.value == []
    {
      if failsOnInitialize {
        return Thrown;
      }
      pluginManager, editorInstance := manager, editor;
      if role == ToolbarButton {
        r := Ok([Trigger(AddButton, [Ref(buttonConfig)])]);
      } else {
        r := Ok([]);
      }
    }

    /**
     * Whether `teardown()` throws: a toolbar button reads
     * `this.pluginManager.triggerHook`, which throws when it was never
     * initialised.
     */
    predicate TeardownThrows()
      reads this
    {
      if role == ToolbarButton then pluginManager == null else failsOnTeardown
    }

    /**
     * `teardown()`: a toolbar button asks for the very descriptor object it
     * added to be removed; the base teardown does nothing.
     */
    method Teardown() returns (r: Result<seq<Trigger>>)
      requires Valid()
      ensures r.Thrown? <==> TeardownThrows()
      ensures r.Ok? ==> r.value == RemoveRequests()
      ensures r.Ok? && role == ToolbarButton ==> r.value == [Trigger(RemoveButton, [Ref(buttonConfig)])]
      ensures r.Ok? && role != ToolbarButton ==> r.value == []
    {
      if TeardownThrows() {
        return Thrown;
      }
      if role == ToolbarButton {
        r := Ok([Trigger(RemoveButton, [Ref(buttonConfig)])]);
      } else {
        r := Ok([]);
      }
    }
  }

  /**
   * The default `beforePreviewRender` is the identity and the default
   * `onContentChanged`/`afterPreviewRender` return nothing.
   */
  function DefaultHandler(role: Role, hook: string, args: seq<Value>): (r: CallResult)
    ensures role == PreviewEnhancement && hook == BeforeRender && |args| > 0 ==> r == Returned(args[0])
    ensures hook != BeforeRender ==> r == Returned(Undefined)
  {
    if role == PreviewEnhancement && hook == BeforeRender then
      Returned(if |args| > 0 then args[0] else Undefined)
    else
      Returned(Undefined)
  }

  /**
   * Subscribers that all behave as the default `beforePreviewRender` hand
   * defined content through a transforming dispatch unchanged.
   */
  lemma DefaultPreviewPipeline(subs: seq<CallbackId>, content: Value, behave: Behaviour)
    requires content != Undefined && subs != []
    requires forall i :: 0 <= i < |subs| ==> behave(subs[i], [content]) == DefaultHandler(PreviewEnhancement, BeforeRender, [content])
    ensures Pipeline(subs, [content], Undefined, behave) == Ok(content)
  {
    PipelineOfIdentities(subs, content, Undefined, behave);
  }
}
