/** Line framing of core/reactor/TcpServer.h: how a byte stream becomes messages. */
module Framing {

  const MAX_LINE := 8192

  /** Where the first newline at or after i is, or the end. */
  function Newline(s: string, i: nat): (n: nat)
    requires i <= |s|
    ensures i <= n <= |s|
    ensures n < |s| ==> s[n] == '\n'
    ensures forall k :: i <= k < n ==> s[k] != '\n'
    decreases |s| - i
  {
    if i == |s| || s[i] == '\n' then i else Newline(s, i + 1)
  }

  /** What the receive buffer yields: the messages, what stays in the buffer, and whether
      the connection is given up for a line that is too long. */
  datatype Framed = Framed(lines: seq<string>, rest: string, overlong: bool)

  /** A message in front of what the rest of the buffer yields; empty lines are skipped. */
  function Cons(line: string, f: Framed): Framed {
    Framed((if line == "" then [] else [line]) + f.lines, f.rest, f.overlong)
  }

  function Frame(s: string): Framed
    decreases |s|
  {
    var pos := Newline(s, 0);
    if pos == |s| then Framed([], s, |s| > MAX_LINE)
    else if pos > MAX_LINE then Framed([], s, true)
    else Cons(s[..pos], Frame(s[pos + 1..]))
  }

  ghost predicate Plain(s: string) {
    forall k :: 0 <= k < |s| ==> s[k] != '\n'
  }

  function Line(head: string, tail: string): string {
    head + ['\n'] + tail
  }

  lemma NewlineOfLine(head: string, tail: string)
    requires Plain(head)
    ensures Newline(Line(head, tail), 0) == |head|
    ensures Line(head, tail)[..|head|] == head && Line(head, tail)[|head| + 1..] == tail
  {
    var s := Line(head, tail);
    assert s[|head|] == '\n';
    assert forall k :: 0 <= k < |head| ==> s[k] == head[k];
  }

  lemma NewlineOfPlain(s: string)
    requires Plain(s)
    ensures Newline(s, 0) == |s|
  {
  }

  lemma FrameLine(head: string, tail: string)
    requires Plain(head)
    ensures Frame(Line(head, tail)) ==
              if |head| > MAX_LINE then Framed([], Line(head, tail), true) else Cons(head, Frame(tail))
  {
    NewlineOfLine(head, tail);
  }

  lemma FramePlain(s: string)
    requires Plain(s)
    ensures Frame(s) == Framed([], s, |s| > MAX_LINE)
  {
    NewlineOfPlain(s);
  }

  /** Every buffer is plain or starts with a line. */
  lemma Decompose(s: string) returns (head: string, tail: string)
    ensures Plain(s) || (Plain(head) && |tail| < |s|)
    ensures !Plain(s) ==> s == Line(head, tail)
  {
    var pos := Newline(s, 0);
    head, tail := s[..pos], if pos < |s| then s[pos + 1..] else "";
  }

  // ----- the whole stream at once -----

  /** All the pieces between newlines; the last one is not finished yet. */
  function Split(s: string): (r: seq<string>)
    ensures |r| > 0
    decreases |s|
  {
    if s == "" then [""]
    else
      var r := Split(s[..|s| - 1]);
      Extended(r, s[|s| - 1])
  }

  /** The nonempty pieces before the first one that is too long. */
  function Messages(pieces: seq<string>): seq<string> {
    if pieces == [] || |pieces[0]| > 8192 then []
    else (if pieces[0] == "" then [] else [pieces[0]]) + Messages(pieces[1..])
  }

  predicate TooLong(pieces: seq<string>) {
    exists i :: 0 <= i < |pieces| && |pieces[i]| > 8192
  }

  /** What one more character does to the pieces. */
  function Extended(r: seq<string>, c: char): seq<string>
    requires |r| > 0
  {
    if c == '\n' then r + [""] else r[..|r| - 1] + [r[|r| - 1] + [c]]
  }

  lemma SplitExtends(s: string, c: char)
    ensures Split(s + [c]) == Extended(Split(s), c)
  {
    assert (s + [c])[..|s|] == s;
  }

  lemma ExtendedAfter(l: seq<string>, r: seq<string>, c: char)
    requires |r| > 0
    ensures Extended(l + r, c) == l + Extended(r, c)
  {
    assert (l + r)[..|l + r| - 1] == l + r[..|r| - 1];
  }

  lemma {:induction false} SplitLine(a: string, b: string)
    ensures Split(Line(a, b)) == Split(a) + Split(b)
    decreases |b|
  {
    if b == "" {
      assert Line(a, b) == a + ['\n'];
      SplitExtends(a, '\n');
    } else {
      var less, c := b[..|b| - 1], b[|b| - 1];
      SplitLine(a, less);
      assert Line(a, b) == Line(a, less) + [c];
      SplitExtends(Line(a, less), c);
      assert b == less + [c];
      SplitExtends(less, c);
      ExtendedAfter(Split(a), Split(less), c);
    }
  }

  lemma {:induction false} SplitPlain(s: string)
    requires Plain(s)
    ensures Split(s) == [s]
    decreases |s|
  {
    if s != "" {
      SplitPlain(s[..|s| - 1]);
      assert s == s[..|s| - 1] + [s[|s| - 1]];
    }
  }

  function Complete(pieces: seq<string>): seq<string>
    requires pieces != []
  {
    pieces[..|pieces| - 1]
  }

  /** Framing a buffer delivers exactly its nonempty complete lines up to the first piece
      longer than 8192 bytes, and gives up if and only if there is such a piece, finished
      or not; otherwise the unfinished last piece stays in the buffer. */
  lemma {:induction false} FrameMeansSplit(s: string)
    ensures Frame(s).lines == Messages(Complete(Split(s)))
    ensures Frame(s).overlong <==> TooLong(Split(s))
    ensures !Frame(s).overlong ==> Frame(s).rest == Split(s)[|Split(s)| - 1] && |Frame(s).rest| <= MAX_LINE
    decreases |s|
  {
    var head, tail := Decompose(s);
    if Plain(s) {
      FramePlain(s);
      SplitPlain(s);
    } else {
      FrameLine(head, tail);
      SplitLine(head, tail);
      SplitPlain(head);
      FrameMeansSplit(tail);
      PiecesCons(head, Split(tail));
      TooLongCons(head, Split(tail));
    }
  }

  lemma PiecesCons(head: string, t: seq<string>)
    requires t != []
    ensures Complete([head] + t) == [head] + Complete(t)
    ensures ([head] + t)[|[head] + t| - 1] == t[|t| - 1]
    ensures Messages([head] + Complete(t)) ==
              if |head| > MAX_LINE then [] else (if head == "" then [] else [head]) + Messages(Complete(t))
  {
    assert ([head] + Complete(t))[1..] == Complete(t);
  }

  lemma TooLongCons(head: string, t: seq<string>)
    ensures TooLong([head] + t) <==> |head| > MAX_LINE || TooLong(t)
  {
    var p := [head] + t;
    if TooLong(t) {
      var i :| 0 <= i < |t| && |t[i]| > MAX_LINE;
      assert p[i + 1] == t[i];
    }
    if |head| > MAX_LINE { assert p[0] == head; }
  }

  // ----- chunk by chunk -----

  function After(lines: seq<string>, f: Framed): Framed {
    Framed(lines + f.lines, f.rest, f.overlong)
  }

  /** f frames a buffer, g the same buffer with t appended. */
  ghost predicate Extends(f: Framed, t: string, g: Framed) {
    if f.overlong then g.overlong && g.lines == f.lines else g == After(f.lines, Frame(f.rest + t))
  }

  lemma ConsExtends(line: string, f: Framed, t: string, g: Framed)
    requires Extends(f, t, g)
    ensures Extends(Cons(line, f), t, Cons(line, g))
  {
    var first := if line == "" then [] else [line];
    if !f.overlong {
      var r := Frame(f.rest + t);
      assert first + (f.lines + r.lines) == first + f.lines + r.lines;
    }
  }

  /** More bytes only add to what was framed before. */
  lemma {:induction false} FrameConcat(s: string, t: string)
    ensures Extends(Frame(s), t, Frame(s + t))
    decreases |s|
  {
    var head, tail := Decompose(s);
    if Plain(s) {
      FramePlain(s);
      if |s| > MAX_LINE { LongStaysLong(s, t); }
    } else {
      assert s + t == Line(head, tail + t);
      FrameLine(head, tail);
      FrameLine(head, tail + t);
      FrameConcat(tail, t);
      ConsExtends(head, Frame(tail), t, Frame(tail + t));
    }
  }

  lemma LongStaysLong(s: string, t: string)
    requires Plain(s) && |s| > MAX_LINE
    ensures Frame(s + t).overlong && Frame(s + t).lines == []
  {
    var head, tail := Decompose(s + t);
    if Plain(s + t) {
      FramePlain(s + t);
    } else {
      FrameLine(head, tail);
      assert (s + t)[|head|] == '\n';
      assert forall k :: 0 <= k < |s| ==> (s + t)[k] == s[k];
      assert |s| <= |head|;
    }
  }

  /** Feeding a connection one chunk at a time, stopping when it is given up. */
  function FeedAll(buffer: string, chunks: seq<string>): Framed
    decreases |chunks|
  {
    if chunks == [] then Framed([], buffer, false)
    else
      var f := Frame(buffer + chunks[0]);
      if f.overlong then f
      else
        After(f.lines, FeedAll(f.rest, chunks[1..]))
  }

  function Joined(chunks: seq<string>): string {
    if chunks == [] then "" else chunks[0] + Joined(chunks[1..])
  }

  lemma {:induction false} RestIsStable(s: string)
    requires !Frame(s).overlong
    ensures Frame(Frame(s).rest) == Framed([], Frame(s).rest, false) && |Frame(s).rest| <= MAX_LINE
    decreases |s|
  {
    var head, tail := Decompose(s);
    if Plain(s) {
      FramePlain(s);
    } else {
      FrameLine(head, tail);
      RestIsStable(tail);
    }
  }

  /** However a stream is cut into reads, the messages and the verdict are those of the
      whole stream. */
  lemma {:induction false} ChunkingDoesNotMatter(buffer: string, chunks: seq<string>)
    requires Frame(buffer) == Framed([], buffer, false)
    ensures
      var f, whole := FeedAll(buffer, chunks), Frame(buffer + Joined(chunks));
      && f.lines == whole.lines && f.overlong == whole.overlong
      && (!f.overlong ==> f.rest == whole.rest)
    decreases |chunks|
  {
    if chunks == [] {
      assert buffer + "" == buffer;
    } else {
      var s, t := buffer + chunks[0], Joined(chunks[1..]);
      assert buffer + Joined(chunks) == s + t;
      FrameConcat(s, t);
      if !Frame(s).overlong {
        RestIsStable(s);
        ChunkingDoesNotMatter(Frame(s).rest, chunks[1..]);
      }
    }
  }
}
