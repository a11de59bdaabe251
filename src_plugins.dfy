/**
 * The pipeline registry's plugins (src/plugins/BasePlugin.js and its three
 * subclasses): a small state machine over an `enabled` flag and an `editor`
 * reference. The subclasses only replace the descriptive fields and add
 * logging to the inherited methods, so one class carries them all; each
 * subclass is one of its named constructors.
 */
module SrcPlugins {
  import opened Js

  const WordCountName := "word-count-plugin"
  const DiagramName := "diagram-plugin"
  const DiagramToolbarName := "diagram-toolbar-plugin"

  class BasePlugin {
    const name: string
    const displayName: string
    const description: string
    const version: string
    const author: string
    /**
     * Stands for a plugin object whose `initialize` throws; none of the
     * plugins in this repository does.
     */
    const failsOnInitialize: bool

    var enabled: bool
    var editor: Value

    /** `new BasePlugin()` */
    constructor ()
      ensures name == "base-plugin" && version == "1.0.0" && author == "QuickMD Team"
      ensures !enabled && editor == Null && !failsOnInitialize
    {
      name, displayName, description := "base-plugin", "基础插件", "插件基础类";
      version, author, failsOnInitialize := "1.0.0", "QuickMD Team", false;
      enabled, editor := false, Null;
    }

    /** `new WordCountPlugin()` (src/plugins/WordCountPlugin.js) */
    constructor WordCount()
      ensures name == WordCountName && version == "1.0.0" && author == "QuickMD Team"
      ensures !enabled && editor == Null && !failsOnInitialize
    {
      name, displayName, description := WordCountName, "字数统计", "实时统计文档字数和字符数，支持多种统计方式";
      version, author, failsOnInitialize := "1.0.0", "QuickMD Team", false;
      enabled, editor := false, Null;
    }

    /** `new DiagramPlugin()` (src/plugins/DiagramPlugin.js) */
    constructor Diagram()
      ensures name == DiagramName && version == "1.0.0" && author == "QuickMD Team"
      ensures !enabled && editor == Null && !failsOnInitialize
    {
      name, displayName, description := DiagramName, "图表支持", "支持 Mermaid 图表渲染，包括流程图、序列图、甘特图等";
      version, author, failsOnInitialize := "1.0.0", "QuickMD Team", false;
      enabled, editor := false, Null;
    }

    /**
     * `new DiagramToolbarPlugin()` (src/plugins/DiagramToolbarPlugin.js,
     * also re-exported, as the same class, by src/plugins/DiagramPlugin.js).
     */
    constructor DiagramToolbar()
      ensures name == DiagramToolbarName && version == "1.0.0" && author == "QuickMD Team"
      ensures !enabled && editor == Null && !failsOnInitialize
    {
      name, displayName, description := DiagramToolbarName, "图表工具栏", "提供图表插入快捷工具栏，方便快速插入各种图表";
      version, author, failsOnInitialize := "1.0.0", "QuickMD Team", false;
      enabled, editor := false, Null;
    }

    /** Any other plugin object handed to the registry. */
    constructor Custom(name: string, failsOnInitialize: bool)
      ensures this.name == name && this.failsOnInitialize == failsOnInitialize
      ensures !enabled && editor == Null
    {
      this.name, displayName, description := name, "", "";
      version, author, this.failsOnInitialize := "1.0.0", "", failsOnInitialize;
      enabled, editor := false, Null;
    }

    /** `setEditor(editor)` */
    method SetEditor(e: Value)
      modifies this
      ensures editor == e && enabled == old(enabled)
    {
      editor := e;
    }

    /** `initialize()`: the plugin becomes enabled. */
    method Initialize() returns (r: Outcome)
      modifies this
      ensures failsOnInitialize ==> r == Fail && unchanged(this)
      ensures !failsOnInitialize ==> r == Pass && enabled && editor == old(editor)
    {
      if failsOnInitialize {
        return Fail;
      }
      enabled := true;
      r := Pass;
    }

    /** `enable()`: idempotent, as it sets rather than toggles. */
    method Enable()
      modifies this
      ensures enabled && editor == old(editor)
    {
      enabled := true;
    }

    /** `disable()`: idempotent, as it sets rather than toggles. */
    method Disable()
      modifies this
      ensures !enabled && editor == old(editor)
    {
      enabled := false;
    }

    /** `destroy()` only logs. */
    method Destroy()
      ensures unchanged(this)
    {
    }
  }
}
