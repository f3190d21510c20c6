/**
  Stream reassembly: the per-client line buffer of client_manager.c and the drain loop of worker.c.
  A read of at most 1023 bytes is appended to a 2048-byte buffer, then complete lines are extracted
  into a 1024-byte message until none is left.
 */
module LineBuffer {
  import opened Strings

  const BUFFER_SIZE: nat := 2048
  const MESSAGE_SIZE: nat := 1024

  // ---- What the code does, on values ------------------------------------------------------

  /** client_buffer_append: on overflow everything is dropped, old and new. */
  function Append(buf: string, data: string): string {
    if |buf| + |data| >= BUFFER_SIZE then "" else buf + data
  }

  datatype Extraction = NoLine | Line(text: string, rest: string)

  /** client_buffer_extract_line: strchr stops at a NUL; a long line is cut to the message size. */
  function Extract(buf: string, maxLen: nat): Extraction
    requires 0 < maxLen
  {
    var text := buf[..Index(buf, NUL)];
    var n := Index(text, '\n');
    if n == |text| then NoLine
    else Line(buf[..if n < maxLen - 1 then n else maxLen - 1], buf[n + 1..])
  }

  datatype Drained = Drained(lines: seq<string>, rest: string)

  function Drain(buf: string): Drained
    decreases |buf|
  {
    match Extract(buf, MESSAGE_SIZE)
    case NoLine => Drained([], buf)
    case Line(text, rest) => var d := Drain(rest); Drained([text] + d.lines, d.rest)
  }

  lemma DrainStep(buf: string)
    ensures var e := Extract(buf, MESSAGE_SIZE);
            Drain(buf) == if e.NoLine? then Drained([], buf)
                          else Drained([e.text] + Drain(e.rest).lines, Drain(e.rest).rest)
  {
    hide Extract;
  }

  function Prepend(lines: seq<string>, d: Drained): Drained {
    Drained(lines + d.lines, d.rest)
  }

  lemma PrependNone(d: Drained)
    ensures Prepend([], d) == d
  {
    assert [] + d.lines == d.lines;
  }

  lemma PrependAll(lines: seq<string>, rest: string)
    ensures Prepend(lines, Drained([], rest)) == Drained(lines, rest)
  {
    assert lines + [] == lines;
  }

  lemma PrependOne(lines: seq<string>, line: string, d: Drained)
    ensures Prepend(lines, Drained([line] + d.lines, d.rest)) == Prepend(lines + [line], d)
  {
    assert lines + ([line] + d.lines) == (lines + [line]) + d.lines;
  }

  datatype Fed = Fed(lines: seq<string>, rest: string, dropped: bool)

  /** The reads of a connection one after the other, each appended and drained. */
  function Feed(buf: string, chunks: seq<string>): Fed
    decreases |chunks|
  {
    if chunks == [] then Fed([], buf, false)
    else
      var d := Drain(Append(buf, chunks[0]));
      var f := Feed(d.rest, chunks[1..]);
      Fed(d.lines + f.lines, f.rest, f.dropped || |buf| + |chunks[0]| >= BUFFER_SIZE)
  }

  // ---- What a stream means ----------------------------------------------------------------

  /** The newline-terminated lines of a stream. */
  function Lines(stream: string): seq<string>
    decreases |stream|
  {
    var n := Index(stream, '\n');
    if n == |stream| then [] else [stream[..n]] + Lines(stream[n + 1..])
  }

  /** What follows the last newline. */
  function Tail(stream: string): string
    decreases |stream|
  {
    var n := Index(stream, '\n');
    if n == |stream| then stream else Tail(stream[n + 1..])
  }

  function Concat(chunks: seq<string>): string {
    if chunks == [] then "" else chunks[0] + Concat(chunks[1..])
  }

  /** Lines that a message takes whole: of at most 1023 bytes, none of them NUL. */
  predicate Proper(lines: seq<string>) {
    forall line :: line in lines ==> |line| <= MESSAGE_SIZE - 1 && NUL !in line
  }

  predicate Fits(stream: string) {
    && Proper(Lines(stream))
    && |Tail(stream)| <= BUFFER_SIZE - 1
  }

  predicate Reads(chunks: seq<string>) {
    forall i :: 0 <= i < |chunks| ==> |chunks[i]| <= MESSAGE_SIZE - 1
  }

  // ---- Splitting a stream -----------------------------------------------------------------

  lemma {:induction false} FirstLine(a: string)
    ensures var n := Index(a, '\n');
            if n < |a| then Lines(a) == [a[..n]] + Lines(a[n + 1..]) && Tail(a) == Tail(a[n + 1..])
            else Lines(a) == [] && Tail(a) == a
  {
    hide Index;
  }

  lemma {:induction false} SplitStream(a: string, b: string)
    ensures Lines(a + b) == Lines(a) + Lines(Tail(a) + b)
    ensures Tail(a + b) == Tail(Tail(a) + b)
    decreases |a|
  {
    hide Index, Lines, Tail;
    var n := Index(a, '\n');
    FirstLine(a);
    if n < |a| {
      assert (a + b)[..n] == a[..n];
      IndexUnique(a + b, '\n', n);
      FirstLine(a + b);
      assert (a + b)[n + 1..] == a[n + 1..] + b;
      SplitStream(a[n + 1..], b);
    } else {
      assert [] + Lines(a + b) == Lines(a + b);
    }
  }

  lemma {:induction false} TailHasNoNewline(a: string)
    ensures '\n' !in Tail(a) && (forall c :: c in Tail(a) ==> c in a)
    decreases |a|
  {
    var n := Index(a, '\n');
    if n < |a| {
      TailHasNoNewline(a[n + 1..]);
    } else {
      assert a[..n] == a;
    }
  }

  lemma ProperRest(line: string, lines: seq<string>)
    requires Proper([line] + lines)
    ensures |line| <= MESSAGE_SIZE - 1 && NUL !in line && Proper(lines)
  {
    assert line in [line] + lines;
    assert forall l :: l in lines ==> l in [line] + lines;
  }

  lemma NoNewline(buf: string)
    requires '\n' !in buf
    ensures Extract(buf, MESSAGE_SIZE).NoLine? && Index(buf, '\n') == |buf|
  {
    hide Index;
    var text := buf[..Index(buf, NUL)];
    assert buf[..|buf|] == buf && text[..|text|] == text;
    IndexUnique(buf, '\n', |buf|);
    IndexUnique(text, '\n', |text|);
  }

  lemma ExtractFirst(line: string, rest: string)
    requires |line| <= MESSAGE_SIZE - 1 && NUL !in line && '\n' !in line
    ensures Extract((line + "\n") + rest, MESSAGE_SIZE) == Line(line, rest)
  {
    hide Index;
    var n, buf := |line|, (line + "\n") + rest;
    IndexSkip(line + "\n", rest, NUL);
    var text := buf[..Index(buf, NUL)];
    assert text[..n] == line && text[n] == '\n';
    IndexUnique(text, '\n', n);
    assert buf[..n] == line && buf[n + 1..] == rest;
  }

  /** Draining bytes whose lines a message takes yields exactly the lines and the unfinished rest. */
  lemma {:induction false} DrainIsLines(buf: string)
    requires Proper(Lines(buf))
    ensures Drain(buf) == Drained(Lines(buf), Tail(buf))
    decreases |buf|
  {
    hide Index, Lines, Tail, Drain, Proper, Extract;
    var n := Index(buf, '\n');
    FirstLine(buf);
    DrainStep(buf);
    if n < |buf| {
      var line, rest := buf[..n], buf[n + 1..];
      ProperRest(line, Lines(rest));
      assert buf == (line + "\n") + rest;
      ExtractFirst(line, rest);
      DrainIsLines(rest);
    } else {
      assert buf[..n] == buf;
      NoNewline(buf);
    }
  }

  /** A buffer and a read that belong to a stream that fits do not overflow. */
  lemma NoOverflow(buf: string, read: string, later: string)
    requires '\n' !in buf && |read| <= MESSAGE_SIZE - 1 && Fits(buf + read + later)
    ensures |buf| + |read| < BUFFER_SIZE
  {
    hide Index, Lines, Tail;
    var stream := buf + read + later;
    var n := Index(stream, '\n');
    FirstLine(stream);
    if n < |stream| {
      assert Lines(stream)[0] == stream[..n];
      assert stream == buf + (read + later);
      IndexSkip(buf, read + later, '\n');
    }
  }

  lemma FitsSplit(got: string, later: string)
    requires Fits(got + later)
    ensures Proper(Lines(got)) && Fits(Tail(got) + later) && '\n' !in Tail(got)
  {
    hide Lines, Tail, Index;
    SplitStream(got, later);
    TailHasNoNewline(got);
    var a, b := Lines(got), Lines(Tail(got) + later);
    assert forall line :: line in a || line in b ==> line in a + b;
  }

  lemma {:induction false} FeedIsLines(buf: string, chunks: seq<string>)
    requires '\n' !in buf && Reads(chunks) && Fits(buf + Concat(chunks))
    ensures Feed(buf, chunks) == Fed(Lines(buf + Concat(chunks)), Tail(buf + Concat(chunks)), false)
    decreases |chunks|
  {
    hide Lines, Tail, Index, Drain, Proper, Fits;
    if chunks == [] {
      assert buf + "" == buf && buf[..|buf|] == buf;
      IndexUnique(buf, '\n', |buf|);
      FirstLine(buf);
    } else {
      var got, later := buf + chunks[0], Concat(chunks[1..]);
      assert buf + Concat(chunks) == got + later;
      NoOverflow(buf, chunks[0], later);
      SplitStream(got, later);
      FitsSplit(got, later);
      DrainIsLines(got);
      FeedIsLines(Tail(got), chunks[1..]);
    }
  }

  lemma {:induction false} DrainBounds(buf: string)
    ensures |Drain(buf).rest| <= |buf|
    ensures Proper(Drain(buf).lines)
    decreases |buf|
  {
    match Extract(buf, MESSAGE_SIZE)
    case NoLine =>
    case Line(text, rest) => DrainBounds(rest);
  }

  lemma {:induction false} FeedBounds(buf: string, chunks: seq<string>)
    requires |buf| < BUFFER_SIZE
    ensures |Feed(buf, chunks).rest| < BUFFER_SIZE
    ensures Proper(Feed(buf, chunks).lines)
    decreases |chunks|
  {
    if chunks != [] {
      DrainBounds(Append(buf, chunks[0]));
      FeedBounds(Drain(Append(buf, chunks[0])).rest, chunks[1..]);
    }
  }

  /**
    Reassembly does not depend on how the stream is cut into reads, exactly as long as its lines fit
    the message (1023 bytes, no NUL) and its unfinished rest fits the buffer (2047 bytes): then nothing is
    dropped or cut, and otherwise something is, however the stream was cut.
   */
  lemma Reassembly(chunks: seq<string>)
    requires Reads(chunks)
    ensures Fits(Concat(chunks)) <==>
            Feed("", chunks).lines == Lines(Concat(chunks)) && Feed("", chunks).rest == Tail(Concat(chunks))
    ensures Fits(Concat(chunks)) ==> !Feed("", chunks).dropped
  {
    assert "" + Concat(chunks) == Concat(chunks);
    FeedBounds("", chunks);
    if Fits(Concat(chunks)) {
      FeedIsLines("", chunks);
    }
  }

  /** Two ways to cut the same stream give the same lines. */
  lemma ChunkingIsInvisible(chunks: seq<string>, chunks': seq<string>)
    requires Reads(chunks) && Reads(chunks') && Concat(chunks) == Concat(chunks') && Fits(Concat(chunks))
    ensures Feed("", chunks) == Feed("", chunks')
  {
    assert "" + Concat(chunks) == Concat(chunks);
    FeedIsLines("", chunks);
    FeedIsLines("", chunks');
  }

  // ---- Any bytes ---------------------------------------------------------------------------

  /** What strchr sees: the bytes before the first NUL. */
  function Visible(s: string): (r: string)
    ensures r <= s
  {
    s[..Index(s, NUL)]
  }

  /** Each line as the message buffer takes it: its first 1023 bytes. */
  function Cropped(lines: seq<string>): (r: seq<string>)
    ensures |r| == |lines|
    ensures forall i :: 0 <= i < |r| ==>
              r[i] <= lines[i] && |r[i]| == if |lines[i]| <= MESSAGE_SIZE - 1 then |lines[i]| else MESSAGE_SIZE - 1
  {
    if lines == [] then []
    else
      var line := lines[0];
      [if |line| <= MESSAGE_SIZE - 1 then line else line[..MESSAGE_SIZE - 1]] + Cropped(lines[1..])
  }

  lemma {:induction false} CroppedAppend(a: seq<string>, b: seq<string>)
    ensures Cropped(a + b) == Cropped(a) + Cropped(b)
  {
    if a == [] {
      assert a + b == b;
    } else {
      assert (a + b)[1..] == a[1..] + b;
      CroppedAppend(a[1..], b);
    }
  }

  lemma CroppedCons(line: string, lines: seq<string>)
    ensures Cropped([line] + lines)
            == [if |line| <= MESSAGE_SIZE - 1 then line else line[..MESSAGE_SIZE - 1]] + Cropped(lines)
  {
    assert ([line] + lines)[1..] == lines;
  }

  lemma VisibleAppend(a: string, b: string)
    ensures NUL in a ==> Visible(a + b) == Visible(a)
    ensures NUL !in a ==> Visible(a) == a && Visible(a + b) == a + Visible(b)
  {
    var k := Index(a, NUL);
    assert a[..|a|] == a;
    if NUL in a {
      assert (a + b)[..k] == a[..k];
      IndexUnique(a + b, NUL, k);
    } else {
      IndexUnique(a, NUL, |a|);
      IndexSkip(a, b, NUL);
    }
  }

  /** Draining any bytes: the lines before the first NUL, cropped; the rest stays, what is behind a NUL included. */
  lemma {:induction false} DrainIs(buf: string)
    ensures Drain(buf) == Drained(Cropped(Lines(Visible(buf))), Tail(Visible(buf)) + buf[|Visible(buf)|..])
    decreases |buf|
  {
    hide Index, Lines, Tail, Drain, Cropped;
    var text := Visible(buf);
    var n := Index(text, '\n');
    DrainStep(buf);
    FirstLine(text);
    if n < |text| {
      var line, rest := buf[..n], buf[n + 1..];
      assert text[..n] == line && buf == buf[..n + 1] + rest && text == buf[..n + 1] + text[n + 1..];
      VisibleAppend(buf[..n + 1], rest);
      assert NUL !in buf[..n + 1] by { NotVisible(buf, n + 1); }
      assert Visible(rest) == text[n + 1..] && rest[|Visible(rest)|..] == buf[|text|..];
      assert n > MESSAGE_SIZE - 1 ==> line[..MESSAGE_SIZE - 1] == buf[..MESSAGE_SIZE - 1];
      CroppedCons(line, Lines(Visible(rest)));
      DrainIs(rest);
    } else {
      CroppedNone();
      assert text + buf[|text|..] == buf;
    }
  }

  lemma CroppedNone()
    ensures Cropped([]) == []
  {
  }

  lemma NotVisible(s: string, n: nat)
    requires n <= |Visible(s)|
    ensures NUL !in s[..n]
  {
  }

  /** No whole line waits in the buffer. */
  predicate Unfinished(buf: string) {
    '\n' !in Visible(buf)
  }

  lemma RestUnfinished(buf: string)
    ensures Unfinished(Drain(buf).rest)
  {
    hide Drain, Lines, Index, Tail;
    DrainIs(buf);
    var text := Visible(buf);
    var tail, behind := Tail(text), buf[|text|..];
    TailHasNoNewline(text);
    assert NUL !in tail by { NotVisible(buf, |text|); assert text == buf[..|text|]; }
    VisibleAppend(tail, behind);
    assert Visible(behind) == "" by { BehindNul(buf); }
  }

  lemma BehindNul(s: string)
    ensures Visible(s[|Visible(s)|..]) == ""
  {
    var k := Index(s, NUL);
    if k < |s| {
      IndexUnique(s[k..], NUL, 0);
    }
  }

  /**
    Reads of any bytes, as long as none overflows the buffer: however the stream is cut, the lines are those
    before its first NUL, each cropped, and nothing is lost. Behind a NUL no line is ever found.
   */
  lemma {:induction false} FeedIs(buf: string, chunks: seq<string>)
    requires Unfinished(buf) && !Feed(buf, chunks).dropped
    ensures var stream := buf + Concat(chunks); var text := Visible(stream);
            Feed(buf, chunks) == Fed(Cropped(Lines(text)), Tail(text) + stream[|text|..], false)
    decreases |chunks|
  {
    hide Drain, Lines, Tail, Index, Cropped, Visible;
    if chunks == [] {
      assert buf + "" == buf;
      FinishedNone(buf);
    } else {
      var got, later := buf + chunks[0], Concat(chunks[1..]);
      assert buf + Concat(chunks) == got + later;
      DrainIs(got);
      RestUnfinished(got);
      FeedIs(Drain(got).rest, chunks[1..]);
      DrainedRest(got, later);
    }
  }

  lemma FinishedNone(buf: string)
    requires Unfinished(buf)
    ensures Lines(Visible(buf)) == [] == Cropped([]) && Tail(Visible(buf)) + buf[|Visible(buf)|..] == buf
  {
    hide Lines, Tail, Index;
    var text := Visible(buf);
    assert text[..|text|] == text;
    IndexUnique(text, '\n', |text|);
    FirstLine(text);
    CroppedNone();
  }

  /** What is read after draining `got` continues what `got` left. */
  lemma DrainedRest(got: string, later: string)
    ensures var rest, text := Tail(Visible(got)) + got[|Visible(got)|..], Visible(got + later);
            var text' := Visible(rest + later);
            && Cropped(Lines(text)) == Cropped(Lines(Visible(got))) + Cropped(Lines(text'))
            && Tail(text) + (got + later)[|text|..] == Tail(text') + (rest + later)[|text'|..]
  {
    hide Lines, Tail, Cropped, Index;
    var seen := Visible(got);
    var tail, behind := Tail(seen), got[|seen|..];
    var rest := tail + behind;
    var text, text' := Visible(got + later), Visible(rest + later);
    assert got == seen + behind && rest + later == tail + (behind + later) && got + later == seen + (behind + later);
    assert NUL !in seen by { NotVisible(got, |seen|); assert seen == got[..|seen|]; }
    TailHasNoNewline(seen);
    VisibleAppend(seen, behind + later);
    VisibleAppend(tail, behind + later);
    var more := Visible(behind + later);
    assert text == seen + more && text' == tail + more;
    SplitStream(seen, more);
    CroppedAppend(Lines(seen), Lines(text'));
    assert (got + later)[|text|..] == (behind + later)[|more|..] == (rest + later)[|text'|..];
  }

  /** A read that overflows the buffer is lost with what the buffer held; later reads start afresh. */
  lemma Overflow(buf: string, chunk: string, chunks: seq<string>)
    requires |buf| + |chunk| >= BUFFER_SIZE
    ensures Feed(buf, [chunk] + chunks) == Feed("", chunks).(dropped := true)
  {
    assert ([chunk] + chunks)[1..] == chunks;
    assert Drain("") == Drained([], "");
    assert [] + Feed("", chunks).lines == Feed("", chunks).lines;
  }

  // ---- The buffer itself ------------------------------------------------------------------

  class Buffer {
    const data: array<char>
    var len: nat

    ghost predicate Valid()
      reads this, data
    {
      data.Length == BUFFER_SIZE && len < BUFFER_SIZE && (0 < len ==> data[len] == NUL)
    }

    ghost function Contents(): string
      requires Valid()
      reads this, data
    {
      data[..len]
    }

    constructor ()
      ensures Valid() && fresh(data) && Contents() == ""
    {
      data := new char[BUFFER_SIZE];
      len := 0;
    }

    method AppendBytes(bytes: string)
      requires Valid()
      modifies this, data
      ensures Valid() && Contents() == Append(old(Contents()), bytes)
    {
      if len + |bytes| >= BUFFER_SIZE {
        len := 0;
        return;
      }
      forall i | 0 <= i < |bytes| {
        data[len + i] := bytes[i];
      }
      len := len + |bytes|;
      data[len] := NUL;
    }

    /** strchr over the terminated contents: the first newline, or the first NUL. */
    method FindNewline() returns (n: nat)
      requires Valid() && 0 < len
      ensures n == Index(Contents()[..Index(Contents(), NUL)], '\n')
      ensures n <= Index(Contents(), NUL) && (data[n] == '\n' <==> n < Index(Contents(), NUL))
    {
      hide Index;
      n := 0;
      while data[n] != '\n' && data[n] != NUL
        invariant n <= len && '\n' !in data[..n] && NUL !in data[..n]
        decreases len - n
      {
        n := n + 1;
      }
      ghost var text := Contents()[..Index(Contents(), NUL)];
      if n < len && data[n] == '\n' {
        IndexSkip(data[..n], data[n..len], NUL);
        assert data[..n] + data[n..len] == Contents();
        IndexUnique(text, '\n', n);
      } else {
        IndexUnique(Contents(), NUL, n);
        IndexUnique(text, '\n', n);
      }
    }

    method ExtractLine(maxLen: nat) returns (r: Extraction)
      requires Valid() && 0 < maxLen
      modifies this, data
      ensures Valid() && r == Extract(old(Contents()), maxLen)
      ensures r.Line? ==> len < old(len)
      ensures Contents() == if r.Line? then r.rest else old(Contents())
    {
      hide Index;
      if len == 0 {
        return NoLine;
      }
      var n := FindNewline();
      if data[n] != '\n' {
        return NoLine;
      }
      var text := data[..if n < maxLen - 1 then n else maxLen - 1];
      r := Line(text, data[n + 1..len]);
      Consume(n + 1);
    }

    /** memmove of what follows the first `k` bytes to the front. */
    method Consume(k: nat)
      requires Valid() && k <= len
      modifies this, data
      ensures Valid() && Contents() == old(Contents())[k..]
    {
      var remaining := len - k;
      forall i | 0 <= i < remaining {
        data[i] := data[k + i];
      }
      len := remaining;
      data[remaining] := NUL;
    }

    /** The worker's loop: extract until nothing is left to extract. */
    method DrainLines() returns (lines: seq<string>)
      requires Valid()
      modifies this, data
      ensures Valid() && Drained(lines, Contents()) == Drain(old(Contents()))
    {
      hide Extract, Index, Drain, Prepend;
      PrependNone(Drain(Contents()));
      lines := [];
      while true
        invariant Valid() && Drain(old(Contents())) == Prepend(lines, Drain(Contents()))
        decreases len
      {
        DrainStep(Contents());
        var r := ExtractLine(MESSAGE_SIZE);
        if r.NoLine? {
          PrependAll(lines, Contents());
          return;
        }
        PrependOne(lines, r.text, Drain(r.rest));
        lines := lines + [r.text];
      }
    }
  }
}
