/**
 * History windowing and formatting (index.js, onGenerateBefore): the last
 * `maxHistoryMessages` chat entries, one labelled line each, joined by newlines.
 */
module History {
  import opened Wrappers

  /** One chat entry: whether the user wrote it, and its text. */
  datatype Message = Message(isUser: bool, mes: string)

  function Min(a: int, b: int): int { if a <= b then a else b }
  function Max(a: int, b: int): int { if a >= b then a else b }

  /**
   * ECMAScript's `Array.prototype.slice(start)` with no end argument: a negative
   * start counts back from the end and is clamped at 0, a non-negative start is
   * clamped at the length. Integer zero has no sign, so `slice(-0)` is `slice(0)`.
   */
  function JsSlice<T>(s: seq<T>, start: int): (r: seq<T>)
    ensures |r| <= |s| && r == s[|s| - |r|..]
    ensures start >= 0 ==> |r| == Max(|s| - start, 0)
    ensures start < 0 ==> |r| == Min(-start, |s|)
  {
    var k := if start < 0 then Max(|s| + start, 0) else Min(start, |s|);
    s[k..]
  }

  /** `chat.slice(-maxHistoryMessages)`: the window of chat entries sent for summarising. */
  function Window(chat: seq<Message>, maxHistory: int): (w: seq<Message>)
    ensures |w| <= |chat| && w == chat[|chat| - |w|..]
    ensures maxHistory >= 1 ==> |w| == Min(maxHistory, |chat|)
    ensures maxHistory == 0 ==> w == chat
    ensures maxHistory < 0 ==> |w| == Max(|chat| + maxHistory, 0)
  {
    JsSlice(chat, -maxHistory)
  }

  /** Line prefixes: the user's entries and the character's entries. */
  const UserPrefix: string := "受方: "
  const CharPrefix: string := "攻方: "

  /** One chat entry as a line: its speaker's prefix, then the text unchanged. */
  function Render(m: Message): (line: string)
    ensures |line| == |UserPrefix| + |m.mes| && line[|UserPrefix|..] == m.mes
    ensures m.isUser <==> line[..|UserPrefix|] == UserPrefix
    ensures !m.isUser <==> line[..|CharPrefix|] == CharPrefix
  {
    (if m.isUser then UserPrefix else CharPrefix) + m.mes
  }

  /** `Array.prototype.join("\n")`. */
  function Join(lines: seq<string>): (r: string)
    ensures |lines| > 0 ==> lines[0] <= r
  {
    if |lines| == 0 then ""
    else if |lines| == 1 then lines[0]
    else lines[0] + "\n" + Join(lines[1..])
  }

  /** The history text: every entry of the window rendered, in order, joined by newlines. */
  function Format(window: seq<Message>): (r: string)
    ensures r == "" <==> |window| == 0
    ensures |window| > 0 ==> Render(window[0]) <= r
  {
    Join(seq(|window|, i requires 0 <= i < |window| => Render(window[i])))
  }

  /** Number of newline characters in `s`. */
  function CountNewlines(s: string): nat {
    if |s| == 0 then 0 else (if s[0] == '\n' then 1 else 0) + CountNewlines(s[1..])
  }

  /**
   * `String.prototype.split("\n")`: the pieces between newlines, always at least
   * one, one more than there are newlines.
   */
  function Split(s: string): (parts: seq<string>)
    ensures |parts| == CountNewlines(s) + 1
    decreases |s|
  {
    if |s| == 0 then [""]
    else
      var rest := Split(s[1..]);
      if s[0] == '\n' then [""] + rest else [[s[0]] + rest[0]] + rest[1..]
  }

  /** Reads one rendered line back into the entry it came from, if it has a known prefix. */
  function ParseLine(line: string): (r: Option<Message>)
    ensures r.Some? ==> Render(r.value) == line
  {
    if |line| >= |UserPrefix| && line[..|UserPrefix|] == UserPrefix then
      Some(Message(true, line[|UserPrefix|..]))
    else if |line| >= |CharPrefix| && line[..|CharPrefix|] == CharPrefix then
      Some(Message(false, line[|CharPrefix|..]))
    else
      None
  }

  function ParseLines(lines: seq<string>): (r: Option<seq<Message>>)
    ensures r.Some? ==> |r.value| == |lines|
  {
    if |lines| == 0 then Some([])
    else match (ParseLine(lines[0]), ParseLines(lines[1..]))
      case (Some(m), Some(ms)) => Some([m] + ms)
      case _ => None
  }

  /**
   * Reads a history text back into chat entries: the empty text is the empty
   * window; any other text is split into lines and each line parsed.
   */
  function Decode(text: string): Option<seq<Message>> {
    if text == "" then Some([]) else ParseLines(Split(text))
  }

  /** No entry of `ms` has a newline in its text. */
  predicate SingleLine(ms: seq<Message>) {
    forall i :: 0 <= i < |ms| ==> '\n' !in ms[i].mes
  }

  /** A rendered entry parses back to itself. */
  lemma ParseRender(m: Message)
    ensures ParseLine(Render(m)) == Some(m)
  {
  }

  lemma {:induction false} SplitNoNewline(s: string)
    requires '\n' !in s
    ensures Split(s) == [s]
    decreases |s|
  {
    if |s| > 0 {
      assert '\n' !in s[1..] by {
        forall i | 0 <= i < |s[1..]| ensures s[1..][i] != '\n' {
          assert s[1..][i] == s[i + 1];
        }
      }
      SplitNoNewline(s[1..]);
      assert [s[0]] + s[1..] == s;
    }
  }

  lemma {:induction false} SplitAfterLine(a: string, b: string)
    requires '\n' !in a
    ensures Split(a + "\n" + b) == [a] + Split(b)
    decreases |a|
  {
    var s := a + "\n" + b;
    if |a| == 0 {
      assert s[0] == '\n';
      assert s[1..] == b;
    } else {
      assert s[0] == a[0];
      assert s[1..] == a[1..] + "\n" + b;
      assert '\n' !in a[1..] by {
        forall i | 0 <= i < |a[1..]| ensures a[1..][i] != '\n' {
          assert a[1..][i] == a[i + 1];
        }
      }
      SplitAfterLine(a[1..], b);
      assert [a[0]] + a[1..] == a;
    }
  }

  /** Splitting a join of newline-free lines gives the lines back. */
  lemma {:induction false} SplitJoin(lines: seq<string>)
    requires |lines| >= 1
    requires forall i :: 0 <= i < |lines| ==> '\n' !in lines[i]
    ensures Split(Join(lines)) == lines
    decreases |lines|
  {
    if |lines| == 1 {
      SplitNoNewline(lines[0]);
    } else {
      SplitAfterLine(lines[0], Join(lines[1..]));
      SplitJoin(lines[1..]);
    }
  }

  lemma {:induction false} ParseRenderAll(window: seq<Message>)
    ensures ParseLines(seq(|window|, i requires 0 <= i < |window| => Render(window[i]))) == Some(window)
    decreases |window|
  {
    var lines := seq(|window|, i requires 0 <= i < |window| => Render(window[i]));
    if |window| > 0 {
      ParseRender(window[0]);
      assert lines[1..] == seq(|window[1..]|, i requires 0 <= i < |window[1..]| => Render(window[1..][i]));
      ParseRenderAll(window[1..]);
      assert [window[0]] + window[1..] == window;
    }
  }

  /**
   * The history text is faithful: when no entry's text spans several lines,
   * reading the text back line by line recovers exactly the window, entry by
   * entry and in order.
   */
  lemma DecodeFormat(window: seq<Message>)
    requires SingleLine(window)
    ensures Decode(Format(window)) == Some(window)
  {
    if |window| == 0 {
      return;
    }
    var lines := seq(|window|, i requires 0 <= i < |window| => Render(window[i]));
    forall i | 0 <= i < |lines| ensures '\n' !in lines[i] {
      var p := if window[i].isUser then UserPrefix else CharPrefix;
      assert lines[i] == p + window[i].mes;
      assert '\n' !in p;
    }
    SplitJoin(lines);
    ParseRenderAll(window);
  }

  /**
   * The text of a window is its first entry's line, then, if more entries
   * follow, a newline and the text of the rest.
   */
  lemma FormatCons(m: Message, window: seq<Message>)
    ensures Format([m] + window) == Render(m) + (if |window| == 0 then "" else "\n" + Format(window))
  {
    var w := [m] + window;
    var lines := seq(|w|, i requires 0 <= i < |w| => Render(w[i]));
    assert lines[0] == Render(m);
    assert lines[1..] == seq(|window|, i requires 0 <= i < |window| => Render(window[i]));
  }

  /**
   * Whatever the messages contain, the history text for a bound N of at least 1
   * is the text of the last min(N, |chat|) entries, and for N = 0 the text of
   * the whole chat.
   */
  lemma FormatWindow(chat: seq<Message>, maxHistory: int)
    ensures maxHistory >= 1 ==>
      Format(Window(chat, maxHistory)) == Format(chat[|chat| - Min(maxHistory, |chat|)..])
    ensures maxHistory == 0 ==> Format(Window(chat, maxHistory)) == Format(chat)
  {
  }

  /**
   * When no entry's text spans several lines, the history text for a bound N
   * of at least 1 reads back as exactly the last min(N, |chat|) entries in
   * their order; for N = 0, as the whole chat.
   */
  lemma HistoryCoversWindow(chat: seq<Message>, maxHistory: int)
    requires |chat| >= 1 && maxHistory >= 0
    requires SingleLine(chat)
    ensures maxHistory >= 1 ==>
      Decode(Format(Window(chat, maxHistory))) == Some(chat[|chat| - Min(maxHistory, |chat|)..])
    ensures maxHistory == 0 ==> Decode(Format(Window(chat, maxHistory))) == Some(chat)
  {
    var w := Window(chat, maxHistory);
    assert SingleLine(w) by {
      forall i | 0 <= i < |w| ensures '\n' !in w[i].mes {
        assert w[i] == chat[|chat| - |w| + i];
      }
    }
    DecodeFormat(w);
  }
}
