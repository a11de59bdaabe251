/**
 * The string operations the word counter, the editor's counters and the
 * text insertion rely on: JavaScript's `trim`, `split(/\s+/)`,
 * `split('\n')`, `substring` and `length`. A `char` is a Unicode scalar
 * value; `length` counts UTF-16 code units, two for a character outside
 * the Basic Multilingual Plane (`Utf16Length`).
 */
module Text {

  /** A character JavaScript stores as two UTF-16 code units (a surrogate pair). */
  predicate Astral(c: char)
  {
    c as int > 0xFFFF
  }

  /** `s.length`: one code unit per character, two for an astral one. */
  function Utf16Length(s: string): (n: nat)
    ensures |s| <= n <= 2 * |s|
    ensures n == |s| <==> forall i :: 0 <= i < |s| ==> !Astral(s[i])
  {
    if s == [] then 0
    else
      var rest := Utf16Length(s[1..]);
      assert forall i :: 1 <= i < |s| ==> s[i] == s[1..][i - 1];
      (if Astral(s[0]) then 2 else 1) + rest
  }

  /** Lengths add up over a concatenation. */
  lemma {:induction false} Utf16LengthAppend(a: string, b: string)
    ensures Utf16Length(a + b) == Utf16Length(a) + Utf16Length(b)
    decreases |a|
  {
    if a == [] {
      assert a + b == b;
    } else {
      assert (a + b)[0] == a[0] && (a + b)[1..] == a[1..] + b;
      Utf16LengthAppend(a[1..], b);
    }
  }

  /** An emoji is one character but two code units. */
  lemma EmojiIsTwoUnits()
    ensures |"\U{1F600}"| == 1 && Utf16Length("\U{1F600}") == 2
  {
    assert "\U{1F600}"[1..] == [];
  }

  /** JavaScript's `\s` class, which is also the set `trim()` removes. */
  predicate IsSpace(c: char)
  {
    c == ' ' || c == '\t' || c == '\n' || c == '\r' || c == '\U{B}' || c == '\U{C}'
    || c == '\U{A0}' || c == '\U{1680}' || ('\U{2000}' <= c <= '\U{200A}')
    || c == '\U{2028}' || c == '\U{2029}' || c == '\U{202F}' || c == '\U{205F}'
    || c == '\U{3000}' || c == '\U{FEFF}'
  }

  predicate AllSpace(s: string)
  {
    forall i :: 0 <= i < |s| ==> IsSpace(s[i])
  }

  /** `s.trimStart()`: a suffix of `s` that starts with a non-space, or is empty. */
  function TrimStart(s: string): (r: string)
    ensures |r| <= |s| && r == s[|s| - |r|..]
    ensures r == [] || !IsSpace(r[0])
    ensures forall i :: 0 <= i < |s| - |r| ==> IsSpace(s[i])
  {
    if s != [] && IsSpace(s[0]) then
      var r := TrimStart(s[1..]);
      assert forall i :: 1 <= i < |s| ==> s[i] == s[1..][i - 1];
      r
    else s
  }

  /** `s.trimEnd()`: a prefix of `s` that ends with a non-space, or is empty. */
  function TrimEnd(s: string): (r: string)
    ensures |r| <= |s| && r == s[..|r|]
    ensures r == [] || !IsSpace(r[|r| - 1])
    ensures forall i :: |r| <= i < |s| ==> IsSpace(s[i])
  {
    if s != [] && IsSpace(s[|s| - 1]) then
      var r := TrimEnd(s[..|s| - 1]);
      assert forall i :: 0 <= i < |s| - 1 ==> s[i] == s[..|s| - 1][i];
      r
    else s
  }

  /** `s.trim()`: it leaves nothing exactly when the text is blank (`!s.trim()`). */
  function Trim(s: string): (r: string)
    ensures r == [] <==> AllSpace(s)
  {
    TrimEnd(TrimStart(s))
  }

  /** Length of the leading run of non-space characters. */
  function WordLen(s: string): (n: nat)
    ensures n <= |s|
    ensures forall i :: 0 <= i < n ==> !IsSpace(s[i])
    ensures n < |s| ==> IsSpace(s[n])
  {
    if s == [] || IsSpace(s[0]) then 0 else 1 + WordLen(s[1..])
  }

  /**
   * `s.split(/\s+/)`: the pieces between maximal whitespace runs; a leading
   * or trailing run yields an empty first or last piece, and `""` splits
   * into `[""]`.
   */
  function SplitWs(s: string): (r: seq<string>)
    ensures |r| >= 1
    decreases |s|
  {
    var i := WordLen(s);
    if i == |s| then [s]
    else [s[..i]] + SplitWs(TrimStart(s[i..]))
  }

  /** `.filter(w => w.length > 0)` */
  function NonEmpty(ws: seq<string>): (r: seq<string>)
    ensures |r| <= |ws|
    ensures forall i :: 0 <= i < |r| ==> r[i] != ""
  {
    if ws == [] then []
    else (if ws[0] != "" then [ws[0]] else []) + NonEmpty(ws[1..])
  }

  /**
   * The reference meaning of a word count: the number of maximal runs of
   * non-whitespace characters.
   */
  function WordRuns(s: string): nat
    decreases |s|
  {
    if s == [] then 0
    else if IsSpace(s[0]) then WordRuns(s[1..])
    else 1 + WordRuns(s[WordLen(s)..])
  }

  /** Leading whitespace does not change the number of words. */
  lemma {:induction false} WordRunsTrimStart(s: string)
    ensures WordRuns(TrimStart(s)) == WordRuns(s)
    decreases |s|
  {
    if s != [] && IsSpace(s[0]) {
      WordRunsTrimStart(s[1..]);
    }
  }

  /** A whitespace character at the end does not change the number of words. */
  lemma {:induction false} WordRunsAppendSpace(s: string, c: char)
    requires IsSpace(c)
    ensures WordRuns(s + [c]) == WordRuns(s)
    decreases |s|
  {
    var t := s + [c];
    if s == [] {
      assert t[1..] == [];
    } else if IsSpace(s[0]) {
      assert t[1..] == s[1..] + [c];
      WordRunsAppendSpace(s[1..], c);
    } else {
      var n := WordLen(s);
      WordLenAppendSpace(s, c);
      assert t[n..] == s[n..] + [c];
      WordRunsAppendSpace(s[n..], c);
    }
  }

  lemma {:induction false} WordLenAppendSpace(s: string, c: char)
    requires IsSpace(c)
    ensures WordLen(s + [c]) == WordLen(s)
    decreases |s|
  {
    if s != [] && !IsSpace(s[0]) {
      assert (s + [c])[1..] == s[1..] + [c];
      WordLenAppendSpace(s[1..], c);
    }
  }

  /** Trailing whitespace does not change the number of words. */
  lemma {:induction false} WordRunsTrimEnd(s: string)
    ensures WordRuns(TrimEnd(s)) == WordRuns(s)
    decreases |s|
  {
    if s != [] && IsSpace(s[|s| - 1]) {
      var p := s[..|s| - 1];
      assert s == p + [s[|s| - 1]];
      WordRunsAppendSpace(p, s[|s| - 1]);
      WordRunsTrimEnd(p);
    }
  }

  /** The non-empty pieces of `split(/\s+/)` are exactly the maximal non-space runs. */
  lemma {:induction false} SplitWsCountsRuns(s: string)
    ensures |NonEmpty(SplitWs(s))| == WordRuns(s)
    decreases |s|
  {
    var i := WordLen(s);
    if i == |s| {
      if s != [] {
        assert s[i..] == [];
      }
    } else {
      var rest := TrimStart(s[i..]);
      var pieces := SplitWs(s);
      assert pieces[0] == s[..i] && pieces[1..] == SplitWs(rest);
      assert |NonEmpty(pieces)| == (if i == 0 then 0 else 1) + |NonEmpty(SplitWs(rest))|;
      SplitWsCountsRuns(rest);
      WordRunsTrimStart(s[i..]);
      if i == 0 {
        assert s[i..] == s;
      }
    }
  }

  /** A string has no words exactly when it is all whitespace. */
  lemma {:induction false} WordRunsZeroIffAllSpace(s: string)
    ensures WordRuns(s) == 0 <==> AllSpace(s)
    decreases |s|
  {
    if s != [] {
      WordRunsZeroIffAllSpace(s[1..]);
      if !IsSpace(s[0]) {
        assert !AllSpace(s);
      } else {
        assert AllSpace(s) <==> AllSpace(s[1..]);
      }
    }
  }

  /** Number of occurrences of `c` in `s`. */
  function Occurrences(s: string, c: char): nat
  {
    multiset(s)[c]
  }

  /** `s.split(c)` for a one-character separator. */
  function SplitOn(s: string, c: char): (r: seq<string>)
    ensures |r| >= 1
    decreases |s|
  {
    if c !in s then [s]
    else
      var i := FirstIndex(s, c);
      [s[..i]] + SplitOn(s[i + 1..], c)
  }

  function FirstIndex(s: string, c: char): (i: nat)
    requires c in s
    ensures i < |s| && s[i] == c && c !in s[..i]
  {
    if s[0] == c then 0 else 1 + FirstIndex(s[1..], c)
  }

  /** `pieces.join(c)` */
  function JoinOn(pieces: seq<string>, c: char): string
  {
    if |pieces| <= 1 then (if pieces == [] then "" else pieces[0])
    else pieces[0] + [c] + JoinOn(pieces[1..], c)
  }

  /** `s.split(c).length` is one more than the number of separators. */
  lemma {:induction false} SplitOnLength(s: string, c: char)
    ensures |SplitOn(s, c)| == Occurrences(s, c) + 1
    decreases |s|
  {
    if c in s {
      var i := FirstIndex(s, c);
      assert s == s[..i] + [c] + s[i + 1..];
      assert multiset(s) == multiset(s[..i]) + multiset([c]) + multiset(s[i + 1..]);
      SplitOnLength(s[i + 1..], c);
    }
  }

  /** Splitting on a separator and joining with it gives the string back. */
  lemma {:induction false} SplitOnJoin(s: string, c: char)
    ensures JoinOn(SplitOn(s, c), c) == s
    ensures forall k :: 0 <= k < |SplitOn(s, c)| ==> c !in SplitOn(s, c)[k]
    decreases |s|
  {
    if c in s {
      var i := FirstIndex(s, c);
      var rest := s[i + 1..];
      SplitOnJoin(rest, c);
      assert s == s[..i] + [c] + rest;
    }
  }

  function Min(a: int, b: int): int
  {
    if a < b then a else b
  }

  /** A textarea's selection: start and end offsets. */
  datatype Selection = Selection(start: nat, end: nat)

  /**
   * `s.substring(0, start) + text + s.substring(end)` for a textarea
   * selection (both offsets are non-negative; offsets beyond the end clamp).
   */
  function Splice(s: string, start: nat, end: nat, text: string): string
  {
    s[..Min(start, |s|)] + text + s[Min(end, |s|)..]
  }

  /**
   * For a selection inside the content, the splice keeps what precedes the
   * selection, puts `text` at the selection start and keeps what follows it.
   */
  lemma SpliceShape(s: string, start: nat, end: nat, text: string)
    requires start <= end <= |s|
    ensures var r := Splice(s, start, end, text);
      && |r| == |s| - (end - start) + |text|
      && r[..start] == s[..start]
      && r[start..start + |text|] == text
      && r[start + |text|..] == s[end..]
  {
  }

  /**
   * Inserting at a collapsed selection and then deleting the inserted
   * range restores the content.
   */
  lemma InsertThenDelete(s: string, at: nat, text: string)
    requires at <= |s|
    ensures Splice(Splice(s, at, at, text), at, at + |text|, "") == s
  {
    var r := Splice(s, at, at, text);
    assert r[..at] == s[..at];
    assert r[at + |text|..] == s[at..];
    assert s == s[..at] + s[at..];
  }
}
