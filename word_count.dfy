/**
 * The word-count plugin of the notify registry (02/plugins/WordCountPlugin.js):
 * an editor-state plugin that keeps word, character and line counts of the
 * content it is told about, while it has a statistics element to show them
 * in. The counting functions are also what the editor's computed counters
 * use.
 */
module WordCountStats {
  import opened Js
  import opened Text
  import opened HookBus
  import opened PluginInterface

  /**
   * `countWords(content)`: zero for blank text, otherwise the number of
   * non-empty pieces of `trim().split(/\s+/)`, which is the number of
   * maximal runs of non-whitespace characters.
   */
  function CountWords(content: string): (r: nat)
    ensures r == WordRuns(content)
    ensures r == 0 <==> AllSpace(content)
  {
    var trimmed := Trim(content);
    WordRunsTrimStart(content);
    WordRunsTrimEnd(TrimStart(content));
    WordRunsZeroIffAllSpace(content);
    if trimmed != [] then
      SplitWsCountsRuns(trimmed);
      |NonEmpty(SplitWs(trimmed))|
    else
      0
  }

  /** `countLines(content)`: the pieces of `split('\n')`, one more than the line breaks. */
  function CountLines(content: string): (r: nat)
    ensures r == Occurrences(content, '\n') + 1
    ensures r >= 1
  {
    SplitOnLength(content, '\n');
    |SplitOn(content, '\n')|
  }

  datatype Stats = Stats(words: nat, characters: nat, lines: nat)

  /**
   * The statistics `updateStats(content)` records: all zero for empty
   * content (even though `countLines("")` is 1), otherwise the three
   * counts, characters being UTF-16 code units (`content.length`): one
   * per character, two for a character outside the Basic Multilingual Plane.
   */
  function StatsOf(content: string): (r: Stats)
    ensures content == "" ==> r == Stats(0, 0, 0)
    ensures content != "" ==>
      r.words == WordRuns(content) && r.characters == Utf16Length(content)
      && r.lines == Occurrences(content, '\n') + 1
    ensures |content| <= r.characters <= 2 * |content|
  {
    if content == "" then Stats(0, 0, 0)
    else Stats(CountWords(content), Utf16Length(content), CountLines(content))
  }

  const WordCountIdentity := Identity("word-count-plugin", "1.0.0", "实时统计文档字数、字符数和行数")

  class WordCountPlugin {
    /** The editor-state plugin this one extends: its one hook is `onContentChanged`. */
    const plugin: Plugin
    /** The DOM element the statistics are shown in, or `null`. */
    var statsElement: Value
    var stats: Stats

    constructor (onContentChanged: CallbackId)
      ensures fresh(plugin) && plugin.Valid() && plugin.identity == WordCountIdentity
      ensures plugin.role == EditorState && plugin.hooks == [HookDecl(ContentChanged, onContentChanged)]
      ensures statsElement == Null && stats == Stats(0, 0, 0)
    {
      plugin := new Plugin.EditorStatePlugin(WordCountIdentity, onContentChanged);
      statsElement, stats := Null, Stats(0, 0, 0);
    }

    /** `createStatsElement()`, with the element it creates as a parameter. */
    method CreateStatsElement(element: Value)
      requires Truthy(element)
      modifies this
      ensures statsElement == element && stats == old(stats)
    {
      statsElement := element;
    }

    /**
     * `updateStats(content)`: without a statistics element nothing
     * changes; otherwise the statistics become those of `content`.
     */
    method UpdateStats(content: string)
      modifies this
      ensures statsElement == old(statsElement)
      ensures !Truthy(statsElement) ==> stats == old(stats)
      ensures Truthy(statsElement) ==> stats == StatsOf(content)
    {
      if !Truthy(statsElement) {
        return;
      }
      if content == "" {
        stats := Stats(0, 0, 0);
      } else {
        stats := Stats(CountWords(content), Utf16Length(content), CountLines(content));
      }
    }

    /** `onContentChanged(content)` is `updateStats(content)`. */
    method OnContentChanged(content: string)
      modifies this
      ensures statsElement == old(statsElement)
      ensures !Truthy(statsElement) ==> stats == old(stats)
      ensures Truthy(statsElement) ==> stats == StatsOf(content)
    {
      UpdateStats(content);
    }
  }

  /** Blank text has no words, whatever whitespace it holds. */
  lemma BlankHasNoWords(s: string)
    requires AllSpace(s)
    ensures CountWords(s) == 0 && CountWords(s + s) == 0
  {
    assert AllSpace(s + s);
  }

  /**
   * Words are counted across a join exactly when the join point falls on
   * whitespace: a space between two texts makes their counts add up.
   */
  lemma WordsAdd(a: string, b: string)
    ensures CountWords(a + " " + b) == CountWords(a) + CountWords(b)
  {
    RunsAdd(a, b);
  }

  /** The same on the reference count, by induction on `a`. */
  lemma {:induction false} RunsAdd(a: string, b: string)
    ensures WordRuns(a + " " + b) == WordRuns(a) + WordRuns(b)
    decreases |a|
  {
    var t := a + " " + b;
    if a == [] {
      assert t[1..] == b;
    } else if IsSpace(a[0]) {
      assert t[1..] == a[1..] + " " + b;
      RunsAdd(a[1..], b);
    } else {
      var n := WordLen(a);
      WordLenJoin(a, b);
      assert t[n..] == a[n..] + " " + b;
      RunsAdd(a[n..], b);
    }
  }

  lemma {:induction false} WordLenJoin(a: string, b: string)
    requires a != [] && !IsSpace(a[0])
    ensures WordLen(a + " " + b) == WordLen(a)
    decreases |a|
  {
    var t := a + " " + b;
    assert t[1..] == a[1..] + " " + b;
    if |a| > 1 && !IsSpace(a[1]) {
      WordLenJoin(a[1..], b);
    } else if |a| == 1 {
      assert t[1..][0] == ' ';
    }
  }
}
