/**
 * The simulation console, a GTK text buffer, as the list of its lines. The
 * last line is the text after the final newline (empty when the text ends
 * with one), and the buffer's `line_count` is the length of the list. After
 * every message the roller trims the buffer to its last 50 lines
 * (src/simulation.rs:811-817 and 929-935); since messages end with a
 * newline, the 50 lines left are 49 messages and the empty line after them.
 */
module Console {
  import opened Strings

  const MaxLines: nat := 50

  /** The text the console starts with (src/simulation.rs:245-247). */
  const Greeting: string := GreetingLine + "\n"

  /** The greeting's one line, written in pieces so that each can be seen to hold no newline. */
  const GreetingLine: string := "Simulation " + "console: " + "Last 50 " + "lines " + "will be " + "displayed " + "here."

  predicate NoNewline(line: string) {
    '\n' !in line
  }

  /** A list of lines some buffer has: at least one line, none holding a newline. */
  predicate WellFormed(lines: seq<string>) {
    |lines| >= 1 && forall i :: 0 <= i < |lines| ==> NoNewline(lines[i])
  }

  /** The buffer's text. */
  function Text(lines: seq<string>): string {
    Join(lines, "\n")
  }

  /** The buffer's lines after inserting `t` at its end. */
  function Insert(lines: seq<string>, t: string): (r: seq<string>)
    requires WellFormed(lines)
    ensures WellFormed(r)
    decreases |t|
  {
    if t == [] then lines
    else if t[0] == '\n' then Insert(lines + [""], t[1..])
    else Insert(lines[..|lines| - 1] + [lines[|lines| - 1] + [t[0]]], t[1..])
  }

  /** The buffer after deleting its first `line_count - 50` lines, when it has more than 50. */
  function Trimmed(lines: seq<string>): seq<string> {
    if |lines| > MaxLines then lines[|lines| - MaxLines..] else lines
  }

  /** An empty buffer. */
  const Empty: seq<string> := [""]

  lemma JoinSnoc(lines: seq<string>, line: string)
    requires lines != []
    ensures Join(lines + [line], "\n") == Join(lines, "\n") + "\n" + line
  {
    assert (lines + [line])[..|lines|] == lines;
  }

  lemma JoinExtendLast(init: seq<string>, last: string, c: char)
    ensures Join(init + [last + [c]], "\n") == Join(init + [last], "\n") + [c]
  {
    if init == [] {
      assert init + [last + [c]] == [last + [c]];
      assert init + [last] == [last];
    } else {
      JoinSnoc(init, last + [c]);
      JoinSnoc(init, last);
    }
  }

  /** Inserting text appends exactly that text to the buffer. */
  lemma {:induction false} InsertText(lines: seq<string>, t: string)
    requires WellFormed(lines)
    ensures Text(Insert(lines, t)) == Text(lines) + t
    decreases |t|
  {
    if t != [] {
      assert t == [t[0]] + t[1..];
      if t[0] == '\n' {
        var next := lines + [""];
        assert Insert(lines, t) == Insert(next, t[1..]);
        InsertText(next, t[1..]);
        JoinSnoc(lines, "");
      } else {
        var init := lines[..|lines| - 1];
        var last := lines[|lines| - 1];
        var next := init + [last + [t[0]]];
        assert Insert(lines, t) == Insert(next, t[1..]);
        InsertText(next, t[1..]);
        JoinExtendLast(init, last, t[0]);
        assert init + [last] == lines;
      }
    }
  }

  /** Two inserts in a row are one insert of both texts. */
  lemma {:induction false} InsertInsert(lines: seq<string>, a: string, b: string)
    requires WellFormed(lines)
    ensures Insert(Insert(lines, a), b) == Insert(lines, a + b)
    decreases |a|
  {
    if a != [] {
      assert (a + b)[0] == a[0] && (a + b)[1..] == a[1..] + b;
      var next := if a[0] == '\n' then lines + [""] else lines[..|lines| - 1] + [lines[|lines| - 1] + [a[0]]];
      assert WellFormed(next);
      InsertInsert(next, a[1..], b);
    } else {
      assert a + b == b;
    }
  }

  function Newlines(t: string): nat {
    if t == [] then 0 else (if t[0] == '\n' then 1 else 0) + Newlines(t[1..])
  }

  lemma {:induction false} NewlinesConcat(a: string, b: string)
    ensures Newlines(a + b) == Newlines(a) + Newlines(b)
    decreases |a|
  {
    if a == [] {
      assert a + b == b;
    } else {
      assert (a + b)[0] == a[0] && (a + b)[1..] == a[1..] + b;
      NewlinesConcat(a[1..], b);
    }
  }

  lemma {:induction false} NewlinesOfLine(line: string)
    requires NoNewline(line)
    ensures Newlines(line) == 0
    decreases |line|
  {
    if line != [] {
      assert line[0] in line;
      assert forall ch :: ch in line[1..] ==> ch in line;
      NewlinesOfLine(line[1..]);
    }
  }

  /** A line of text and its newline start exactly one new line. */
  lemma NewlinesOfTerminatedLine(line: string)
    requires NoNewline(line)
    ensures Newlines(line + "\n") == 1
  {
    NewlinesConcat(line, "\n");
    NewlinesOfLine(line);
    assert "\n"[1..] == [];
  }

  /** Each newline inserted starts one more line. */
  lemma {:induction false} InsertLineCount(lines: seq<string>, t: string)
    requires WellFormed(lines)
    ensures |Insert(lines, t)| == |lines| + Newlines(t)
    decreases |t|
  {
    if t != [] {
      var next := if t[0] == '\n' then lines + [""] else lines[..|lines| - 1] + [lines[|lines| - 1] + [t[0]]];
      assert WellFormed(next);
      InsertLineCount(next, t[1..]);
    }
  }

  /** Text ending with a newline leaves the buffer on an empty last line. */
  lemma InsertEndingInNewline(lines: seq<string>, t: string)
    requires WellFormed(lines) && t != [] && t[|t| - 1] == '\n'
    ensures Insert(lines, t)[|Insert(lines, t)| - 1] == ""
  {
    var init := t[..|t| - 1];
    assert init + "\n" == t;
    InsertInsert(lines, init, "\n");
    var mid := Insert(lines, init);
    assert Insert(mid, "\n") == Insert(mid + [""], "\n"[1..]);
    assert "\n"[1..] == [];
  }

  /**
   * Trimming keeps at most 50 lines, and those are the most recent ones: a
   * suffix of the lines before, in order, shortened only when there were more
   * than 50.
   */
  lemma TrimmedKeepsRecent(lines: seq<string>)
    requires WellFormed(lines)
    ensures var r := Trimmed(lines);
            && WellFormed(r) && |r| <= MaxLines
            && r == lines[|lines| - |r|..]
            && (|lines| <= MaxLines ==> r == lines)
            && (|lines| > MaxLines ==> |r| == MaxLines)
  {
  }

  /** Text with `n` newlines lengthens the buffer by `n` lines, up to the 50 the trim keeps. */
  lemma TrimmedInsertLength(lines: seq<string>, t: string, n: nat)
    requires WellFormed(lines) && Newlines(t) == n
    ensures |Trimmed(Insert(lines, t))| == if |lines| + n <= MaxLines then |lines| + n else MaxLines
  {
    InsertLineCount(lines, t);
  }

  /** The text kept is the end of the text before. */
  lemma TrimmedTextIsSuffix(lines: seq<string>)
    requires WellFormed(lines)
    ensures var t := Text(lines);
            var kept := Text(Trimmed(lines));
            |kept| <= |t| && kept == t[|t| - |kept|..]
  {
    if |lines| > MaxLines {
      JoinSplit(lines, |lines| - MaxLines);
    }
  }

  /** The text of the lines is the text of a prefix, a newline, and the text of the rest. */
  lemma {:induction false} JoinSplit(lines: seq<string>, k: nat)
    requires 0 < k < |lines|
    ensures Join(lines, "\n") == Join(lines[..k], "\n") + "\n" + Join(lines[k..], "\n")
    decreases |lines|
  {
    var init := lines[..|lines| - 1];
    var last := lines[|lines| - 1];
    assert init + [last] == lines;
    JoinSnoc(init, last);
    if k == |lines| - 1 {
      assert init == lines[..k];
      assert lines[k..] == [last];
    } else {
      JoinSplit(init, k);
      assert init[..k] == lines[..k];
      assert init[k..] + [last] == lines[k..];
      JoinSnoc(init[k..], last);
    }
  }

  /** Text without a newline extends the last line. */
  lemma {:induction false} InsertWithinLine(lines: seq<string>, t: string)
    requires WellFormed(lines) && NoNewline(t)
    ensures Insert(lines, t) == lines[..|lines| - 1] + [lines[|lines| - 1] + t]
    decreases |t|
  {
    var init := lines[..|lines| - 1];
    var last := lines[|lines| - 1];
    if t == [] {
      assert last + t == last;
      assert init + [last] == lines;
    } else {
      var next := init + [last + [t[0]]];
      assert t[0] in t;
      assert Insert(lines, t) == Insert(next, t[1..]);
      assert forall ch :: ch in t[1..] ==> ch in t;
      InsertWithinLine(next, t[1..]);
      assert next[..|next| - 1] == init;
      assert (last + [t[0]]) + t[1..] == last + t;
    }
  }

  /** The console a new simulation starts with: the greeting and an empty line after it. */
  lemma GreetingLines()
    ensures Insert(Empty, Greeting) == [GreetingLine, ""]
  {
    assert '\n' !in "Simulation ";
    assert '\n' !in "console: ";
    assert '\n' !in "Last 50 ";
    assert '\n' !in "lines ";
    assert '\n' !in "will be ";
    assert '\n' !in "displayed ";
    assert NoNewline(GreetingLine);
    InsertInsert(Empty, GreetingLine, "\n");
    InsertWithinLine(Empty, GreetingLine);
    assert Empty[..0] == [] && Empty[0] + GreetingLine == GreetingLine;
    assert Insert(Empty, GreetingLine) == [GreetingLine];
    assert Insert([GreetingLine], "\n") == Insert([GreetingLine, ""], "\n"[1..]);
  }
}
