/** `DialogueManager`: the append-only dialogue history, its JSON file and
    the recent-context renderer that gives every speaker its memory. */
module Dialogue {

  import opened Wrappers
  import opened Text

  /** One history record `{speaker, text, type}`; `kind` holds the record's
      "type" string, which is "dialogue" or "narration" for the records the
      program writes but may be anything in a loaded file. */
  datatype Entry = Entry(speaker: string, text: string, kind: string)

  const DialogueKind: string := "dialogue"
  const NarrationKind: string := "narration"

  function Min(a: int, b: int): int
  {
    if a <= b then a else b
  }

  /** One entry of the recent context: a narration is its bare text, any
      other record is `speaker: text`; either way a newline follows. */
  function Render(e: Entry): (r: string)
    ensures |r| > 0 && r[|r| - 1] == '\n'
  {
    if e.kind == NarrationKind then e.text + "\n" else e.speaker + ": " + e.text + "\n"
  }

  /** The renderings of `es`, oldest first, concatenated. */
  function RenderAll(es: seq<Entry>): string
  {
    if es == [] then "" else Render(es[0]) + RenderAll(es[1..])
  }

  lemma {:induction false} RenderAllAppend(a: seq<Entry>, b: seq<Entry>)
    ensures RenderAll(a + b) == RenderAll(a) + RenderAll(b)
  {
    if a == [] {
      assert a + b == b;
    } else {
      assert (a + b)[0] == a[0] && (a + b)[1..] == a[1..] + b;
      RenderAllAppend(a[1..], b);
    }
  }

  /** Rendering one more entry appends its rendering. */
  lemma RenderAllSnoc(es: seq<Entry>, e: Entry)
    ensures RenderAll(es + [e]) == RenderAll(es) + Render(e)
  {
    RenderAllAppend(es, [e]);
    assert [e][1..] == [];
    assert RenderAll([e]) == Render(e) + RenderAll([]);
  }

  /** Where the Python slice `history[-n:]` starts in a list of length `len`:
      a negative start counts from the end and is clipped at 0, a
      non-negative one is clipped at `len`. So for `n > 0` the window holds
      the last `min(n, len)` entries, `n == 0` keeps the whole list and a
      negative `n` drops the first `-n` entries. */
  function TailStart(len: nat, n: int): (k: nat)
    ensures k <= len
    ensures n > 0 ==> len - k == Min(n, len)
    ensures n == 0 ==> k == 0
    ensures n < 0 ==> k == Min(-n, len)
  {
    var start := -n;
    if start < 0 then (if len + start < 0 then 0 else len + start)
    else if start > len then len else start
  }

  /** What `get_recent_context(n)` returns for `history`. */
  function RecentContext(history: seq<Entry>, n: int): string
  {
    RenderAll(history[TailStart(|history|, n)..])
  }

  /** After one more entry, a window of `n > 0` turns shows the previous
      `n - 1` entries and then the new one, last. */
  lemma RecentContextAfterAdd(history: seq<Entry>, e: Entry, n: int)
    requires n > 0
    ensures RecentContext(history + [e], n) == RenderAll(history[|history| - Min(n - 1, |history|)..]) + Render(e)
  {
    var h := history + [e];
    var k := |history| - Min(n - 1, |history|);
    assert TailStart(|h|, n) == k;
    assert h[k..] == history[k..] + [e];
    RenderAllSnoc(history[k..], e);
  }

  /** Neither the speaker nor the text of the entry holds a line break. */
  predicate SingleLine(e: Entry)
  {
    '\n' !in e.speaker && '\n' !in e.text
  }

  lemma {:induction false} CountAbsent(s: string, c: char)
    requires c !in s
    ensures Count(s, c) == 0
    decreases |s|
  {
    if s != [] {
      assert c !in s[1..];
      CountAbsent(s[1..], c);
    }
  }

  /** Each single-line entry renders as exactly one line. */
  lemma {:induction false} RenderAllLines(es: seq<Entry>)
    requires forall i :: 0 <= i < |es| ==> SingleLine(es[i])
    ensures Count(RenderAll(es), '\n') == |es|
    decreases |es|
  {
    if es != [] {
      var e := es[0];
      CountAbsent(e.text, '\n');
      CountAbsent(e.speaker, '\n');
      CountAbsent(": ", '\n');
      if e.kind == NarrationKind {
        CountAppend(e.text, "\n", '\n');
      } else {
        CountAppend(e.speaker, ": ", '\n');
        CountAppend(e.speaker + ": ", e.text, '\n');
        CountAppend(e.speaker + ": " + e.text, "\n", '\n');
      }
      RenderAllLines(es[1..]);
      CountAppend(Render(e), RenderAll(es[1..]), '\n');
    }
  }

  /** For `n > 0` the recent context of single-line entries has exactly
      `min(n, |history|)` lines. */
  lemma RecentContextLineCount(history: seq<Entry>, n: int)
    requires n > 0
    requires forall i :: 0 <= i < |history| ==> SingleLine(history[i])
    ensures Count(RecentContext(history, n), '\n') == Min(n, |history|)
  {
    var w := history[TailStart(|history|, n)..];
    assert forall i :: 0 <= i < |w| ==> SingleLine(w[i]);
    RenderAllLines(w);
  }

  /** A narration "a" and a line "b" by X, both inside a five-turn window. */
  lemma RecentContextExample()
    ensures RecentContext([Entry("나레이션", "a", NarrationKind), Entry("X", "b", DialogueKind)], 5) == "a\nX: b\n"
  {
    var h := [Entry("나레이션", "a", NarrationKind), Entry("X", "b", DialogueKind)];
    assert h[TailStart(|h|, 5)..] == h;
    assert Render(h[0]) == "a\n";
    assert Render(h[1]) == "X: b\n";
    assert h[1..][1..] == [];
    assert RenderAll(h[1..]) == "X: b\n" + RenderAll([]);
  }

  /** The history `load_history` yields for the file's contents: an absent
      file is an empty history. */
  function Loaded(contents: Option<seq<Entry>>): seq<Entry>
  {
    match contents
    case Some(h) => h
    case None => []
  }

  /** The history file; `contents` is None while no file exists. */
  class HistoryFile {
    var contents: Option<seq<Entry>>

    constructor (contents: Option<seq<Entry>>)
      ensures this.contents == contents
    {
      this.contents := contents;
    }
  }

  class DialogueManager {
    const historyFile: HistoryFile
    var history: seq<Entry>

    /** Opens the history stored in `historyFile`, or an empty one. */
    constructor (historyFile: HistoryFile)
      ensures this.historyFile == historyFile
      ensures history == Loaded(historyFile.contents)
    {
      this.historyFile := historyFile;
      new;
      history := LoadHistory();
    }

    method LoadHistory() returns (h: seq<Entry>)
      ensures historyFile.contents.Some? ==> h == historyFile.contents.value
      ensures historyFile.contents.None? ==> h == []
    {
      if historyFile.contents.Some? {
        h := historyFile.contents.value;
      } else {
        h := [];
      }
    }

    /** Overwrites the file with the whole history. */
    method SaveHistory()
      modifies historyFile
      ensures historyFile.contents == Some(history)
    {
      historyFile.contents := Some(history);
    }

    /** Appends one record, keeps every earlier one, and saves. */
    method AddDialogue(speaker: string, text: string, kind: string := DialogueKind)
      modifies this, historyFile
      ensures history == old(history) + [Entry(speaker, text, kind)]
      ensures historyFile.contents == Some(history)
    {
      history := history + [Entry(speaker, text, kind)];
      SaveHistory();
    }

    /** Renders the entries of `history[-nTurns:]`, each followed by a newline. */
    method GetRecentContext(nTurns: int := 5) returns (context: string)
      ensures context == RecentContext(history, nTurns)
    {
      var window := history[TailStart(|history|, nTurns)..];
      context := "";
      var i := 0;
      while i < |window|
        invariant 0 <= i <= |window|
        invariant context == RenderAll(window[..i])
      {
        assert window[..i + 1] == window[..i] + [window[i]];
        RenderAllSnoc(window[..i], window[i]);
        context := context + Render(window[i]);
        i := i + 1;
      }
      assert window[..i] == window;
    }
  }

}
