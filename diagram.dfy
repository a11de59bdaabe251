/**
 * The Mermaid plugins of the notify registry (01/plugins/DiagramPlugin.js):
 * a preview-enhancement plugin that rewrites fenced `mermaid` blocks into
 * diagram placeholders once the Mermaid library has loaded, and a toolbar
 * button plugin that inserts text through the editor.
 */
module DiagramPlugins {
  import opened Js
  import opened HookBus
  import opened PluginInterface

  /** The opening fence the rewrite looks for, newline included. */
  const Marker := "```mermaid\n"
  /** The closing fence, newline first. */
  const Terminator := "\n```"

  /** `pat` occurs in `s` at position `i`. */
  predicate OccursAt(s: string, pat: string, i: nat)
  {
    i + |pat| <= |s| && s[i..i + |pat|] == pat
  }

  predicate Absent(s: string, pat: string)
  {
    forall i :: 0 <= i <= |s| ==> !OccursAt(s, pat, i)
  }

  /** No proper suffix of `pat` is also a prefix of it, so occurrences cannot overlap. */
  predicate Unbordered(pat: string)
  {
    forall d :: 0 < d < |pat| ==> pat[d..] != pat[..|pat| - d]
  }

  lemma ShiftOccurs(s: string, pat: string)
    requires s != []
    ensures forall j: nat :: j >= 1 ==> (OccursAt(s, pat, j) <==> OccursAt(s[1..], pat, j - 1))
  {
    forall j: nat | j >= 1
      ensures OccursAt(s, pat, j) <==> OccursAt(s[1..], pat, j - 1)
    {
      if j + |pat| <= |s| {
        assert s[j..j + |pat|] == s[1..][j - 1..j - 1 + |pat|];
      }
    }
  }

  /** The leftmost occurrence of `pat` in `s`, if any. */
  function Find(s: string, pat: string): (r: Option<nat>)
    requires pat != []
    ensures r.Some? ==> OccursAt(s, pat, r.value)
    ensures forall j: nat :: (r.None? || j < r.value) ==> !OccursAt(s, pat, j)
    decreases |s|
  {
    if |s| < |pat| then None
    else if s[..|pat|] == pat then Some(0)
    else
      var k := Find(s[1..], pat);
      ShiftOccurs(s, pat);
      if k.None? then None else Some(k.value + 1)
  }

  /** The placeholder a block becomes. */
  function Div(id: string, code: string): string
  {
    "<div class=\"mermaid-diagram\" id=\"" + id + "\">" + code + "</div>"
  }

  /**
   * `content.replace(/```mermaid\n([\s\S]*?)\n```/g, …)`: left to right,
   * the leftmost opening fence is paired with the first closing fence after
   * it (the lazy group), the block becomes a placeholder whose id is
   * `"mermaid-"` and the `n`-th random suffix, and the search resumes after
   * the closing fence. An opening fence with no closing fence after it ends
   * the rewriting, since no later fence can have one either.
   */
  function RewriteMermaid(s: string, ids: nat -> string, n: nat): string
    decreases |s|
  {
    match Find(s, Marker)
    case None => s
    case Some(p) =>
      var rest := s[p + |Marker|..];
      match Find(rest, Terminator)
      case None => s
      case Some(q) =>
        s[..p] + Div("mermaid-" + ids(n), rest[..q]) + RewriteMermaid(rest[q + |Terminator|..], ids, n + 1)
  }

  lemma MarkerUnbordered()
    ensures Unbordered(Marker)
  {
    assert '`' !in Marker[3..];
    forall d | 0 < d < |Marker|
      ensures Marker[d..] != Marker[..|Marker| - d]
    {
      if d < 3 {
        assert Marker[d..][3 - d] != Marker[..|Marker| - d][3 - d];
      } else {
        assert Marker[d] in Marker[3..];
        assert Marker[d..][0] != Marker[..|Marker| - d][0];
      }
    }
  }

  lemma TerminatorUnbordered()
    ensures Unbordered(Terminator)
  {
    forall d | 0 < d < |Terminator|
      ensures Terminator[d..] != Terminator[..|Terminator| - d]
    {
      assert Terminator[d..][0] != Terminator[..|Terminator| - d][0];
    }
  }

  /**
   * An unbordered pattern placed right after a text that does not contain
   * it is found exactly there: no occurrence can straddle the join.
   */
  lemma FindAfter(p: string, pat: string, rest: string)
    requires pat != [] && Unbordered(pat) && Absent(p, pat)
    ensures Find(p + pat + rest, pat) == Some(|p|)
  {
    var s := p + pat + rest;
    assert s[|p|..|p| + |pat|] == pat;
    assert OccursAt(s, pat, |p|);
    forall j: nat | j < |p|
      ensures !OccursAt(s, pat, j)
    {
      if j + |pat| <= |p| {
        assert s[j..j + |pat|] == p[j..j + |pat|];
        assert !OccursAt(p, pat, j);
      } else if j + |pat| <= |s| {
        var d := |p| - j;
        assert s[j..j + |pat|][d..] == pat[..|pat| - d];
        assert pat[d..] != pat[..|pat| - d];
      }
    }
  }

  /**
   * One block: text with no opening fence, then a fenced block whose code
   * has no closing fence in it, then anything. The text before is kept, the
   * block becomes a placeholder holding the code verbatim, and the rewrite
   * continues on what follows with the next id.
   */
  lemma RewriteBlock(p: string, code: string, q: string, ids: nat -> string, n: nat)
    requires Absent(p, Marker) && Absent(code, Terminator)
    ensures RewriteMermaid(p + Marker + code + Terminator + q, ids, n)
         == p + Div("mermaid-" + ids(n), code) + RewriteMermaid(q, ids, n + 1)
  {
    var s := p + Marker + code + Terminator + q;
    MarkerUnbordered();
    TerminatorUnbordered();
    assert s == p + Marker + (code + Terminator + q);
    FindAfter(p, Marker, code + Terminator + q);
    var rest := s[|p| + |Marker|..];
    assert rest == code + Terminator + q;
    FindAfter(code, Terminator, q);
    assert rest[..|code|] == code;
    assert rest[|code| + |Terminator|..] == q;
    assert s[..|p|] == p;
  }

  /** Content with no opening fence is returned unchanged. */
  lemma RewriteWithoutFence(s: string, ids: nat -> string, n: nat)
    requires Absent(s, Marker)
    ensures RewriteMermaid(s, ids, n) == s
  {
    var r := Find(s, Marker);
    assert r.Some? ==> OccursAt(s, Marker, r.value);
  }

  /** An opening fence that is never closed leaves the content unchanged. */
  lemma RewriteUnclosed(p: string, rest: string, ids: nat -> string, n: nat)
    requires Absent(p, Marker) && Absent(rest, Terminator)
    ensures RewriteMermaid(p + Marker + rest, ids, n) == p + Marker + rest
  {
    var s := p + Marker + rest;
    MarkerUnbordered();
    FindAfter(p, Marker, rest);
    assert s[|p| + |Marker|..] == rest;
    var r := Find(rest, Terminator);
    assert r.Some? ==> OccursAt(rest, Terminator, r.value);
  }

  const DiagramIdentity := Identity("diagram-plugin", "1.0.0", "支持Mermaid流程图、序列图等图表渲染")

  class DiagramPlugin {
    /** The preview-enhancement plugin this one extends. */
    const plugin: Plugin
    var mermaidInitialized: bool

    constructor (beforeRender: CallbackId, afterRender: CallbackId)
      ensures fresh(plugin) && plugin.Valid() && plugin.identity == DiagramIdentity
      ensures plugin.role == PreviewEnhancement
      ensures plugin.hooks == [HookDecl(BeforeRender, beforeRender), HookDecl(AfterRender, afterRender)]
      ensures !mermaidInitialized
    {
      plugin := new Plugin.PreviewEnhancementPlugin(DiagramIdentity, beforeRender, afterRender);
      mermaidInitialized := false;
    }

    /** The completion of the library load that `initialize` starts. */
    method MermaidLoaded()
      modifies this
      ensures mermaidInitialized
    {
      mermaidInitialized := true;
    }

    /**
     * `beforePreviewRender(content)`: the identity until the library has
     * loaded, then the block rewrite, with `ids` for the random suffixes.
     */
    function BeforePreviewRender(content: string, ids: nat -> string): (r: string)
      reads this
      ensures !mermaidInitialized ==> r == content
      ensures Absent(content, Marker) ==> r == content
      ensures mermaidInitialized ==> r == RewriteMermaid(content, ids, 0)
    {
      if !mermaidInitialized then content
      else
        if Absent(content, Marker) then
          RewriteWithoutFence(content, ids, 0);
          RewriteMermaid(content, ids, 0)
        else
          RewriteMermaid(content, ids, 0)
    }

    /**
     * `afterPreviewRender(previewElement)`: whether the diagrams inside
     * the element get rendered; nothing happens before the library has
     * loaded or without an element.
     */
    function AfterPreviewRender(previewElement: Value): (renders: bool)
      reads this
      ensures renders ==> mermaidInitialized
      ensures !Truthy(previewElement) ==> !renders
      ensures mermaidInitialized && Truthy(previewElement) ==> renders
    {
      mermaidInitialized && Truthy(previewElement)
    }
  }

  const DiagramToolbarIdentity := Identity("diagram-toolbar-plugin", "1.0.0", "图表插入工具栏按钮")

  class DiagramToolbarPlugin {
    /** The toolbar-button plugin this one extends. */
    const plugin: Plugin

    constructor (insertDiagramTemplate: CallbackId)
      ensures fresh(plugin) && plugin.Valid() && plugin.identity == DiagramToolbarIdentity
      ensures plugin.name == "diagram-toolbar-plugin" && plugin.role == ToolbarButton && plugin.hooks == []
      ensures plugin.buttonConfig != null && fresh(plugin.buttonConfig)
      ensures plugin.buttonConfig.icon == "DataAnalysis" && plugin.buttonConfig.tooltip == "插入图表"
      ensures plugin.buttonConfig.position == Right && plugin.buttonConfig.onClick == insertDiagramTemplate
    {
      var config := new ButtonConfig("DataAnalysis", "插入图表", Right, insertDiagramTemplate);
      plugin := new Plugin.ToolbarButtonPlugin(DiagramToolbarIdentity, config);
    }

    /**
     * `insertContent(content)`: the text handed to the editor's
     * `insertText`, exactly when the plugin holds an editor that has one.
     */
    function InsertContent(content: string): (r: Option<string>)
      reads plugin
      ensures r.Some? <==> HasMethod(plugin.editorInstance, "insertText")
      ensures r.Some? ==> r.value == content
    {
      if Truthy(plugin.editorInstance) && HasMethod(plugin.editorInstance, "insertText") then Some(content)
      else None
    }
  }
}
