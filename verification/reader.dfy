/** The chat page's reader for the `/api/chat` body
    (frontend/src/pages/Chat.jsx): text arrives in chunks, a buffer keeps
    the unfinished line, every finished line is either a frame line, which
    adds nothing, or a content line, which is appended with its line feed,
    and the leftover buffer is appended last without one. */
module StreamReader {
  import opened Text

  /** The lines the reader appends to the reply: not blank and not starting
      with "data:". Every "data: " frame line is excluded by the second
      condition, whether or not its payload parses. */
  predicate IsContentLine(line: string) {
    !Blank(line) && !StartsWith(line, "data:")
  }

  /** Finished lines as they stood on the wire, each followed by '\n'. */
  function Terminated(lines: seq<string>): string {
    if |lines| == 0 then "" else lines[0] + "\n" + Terminated(lines[1..])
  }

  /** What `accumulatedText` holds after the reader has gone through these
      finished lines. */
  function Accumulate(lines: seq<string>): string {
    if |lines| == 0 then ""
    else (if IsContentLine(lines[0]) then lines[0] + "\n" else "") + Accumulate(lines[1..])
  }

  /** What the leftover buffer adds at the end of the stream. */
  function Leftover(buffer: string): string {
    if IsContentLine(buffer) then buffer else ""
  }

  /** The reply text the page shows for a whole body, read in one piece:
      every part of `body.split('\n')` but the last is a finished line. */
  function ClientText(body: string): string {
    ReplyOf(Split(body, '\n'))
  }

  /** The reply for the parts of a split body. */
  function ReplyOf(parts: seq<string>): string
    requires |parts| >= 1
  {
    Accumulate(parts[..|parts| - 1]) + Leftover(parts[|parts| - 1])
  }

  predicate LineFree(lines: seq<string>) {
    forall i :: 0 <= i < |lines| ==> '\n' !in lines[i]
  }

  lemma {:induction false} TerminatedAppend(a: seq<string>, b: seq<string>)
    ensures Terminated(a + b) == Terminated(a) + Terminated(b)
  {
    if |a| > 0 {
      assert (a + b)[1..] == a[1..] + b;
      TerminatedAppend(a[1..], b);
    } else {
      assert a + b == b;
    }
  }

  lemma {:induction false} AccumulateAppend(a: seq<string>, b: seq<string>)
    ensures Accumulate(a + b) == Accumulate(a) + Accumulate(b)
  {
    if |a| > 0 {
      assert (a + b)[1..] == a[1..] + b;
      AccumulateAppend(a[1..], b);
    } else {
      assert a + b == b;
    }
  }

  /** Finished lines plus the buffer are the lines and buffer joined by '\n'. */
  lemma {:induction false} TerminatedJoin(lines: seq<string>, buffer: string)
    ensures Terminated(lines) + buffer == Join(lines + [buffer], '\n')
  {
    if |lines| > 0 {
      TerminatedJoin(lines[1..], buffer);
      assert (lines + [buffer])[1..] == lines[1..] + [buffer];
    } else {
      assert lines + [buffer] == [buffer];
    }
  }

  /** Text made of finished lines and then more text splits into those
      lines followed by the split of the rest. */
  lemma {:induction false} SplitAfterLines(lines: seq<string>, t: string)
    requires LineFree(lines)
    ensures Split(Terminated(lines) + t, '\n') == lines + Split(t, '\n')
  {
    if |lines| > 0 {
      SplitAfterLines(lines[1..], t);
      assert Terminated(lines) + t == lines[0] + "\n" + (Terminated(lines[1..]) + t);
      SplitLeadingPart(lines[0], '\n', Terminated(lines[1..]) + t);
      assert [lines[0]] + lines[1..] == lines;
    } else {
      assert Terminated(lines) + t == t;
    }
  }

  /** The reply of a body whose finished lines come first is what those
      lines contribute followed by the reply of the rest. */
  lemma ClientTextAfterLines(lines: seq<string>, t: string)
    requires LineFree(lines)
    ensures ClientText(Terminated(lines) + t) == Accumulate(lines) + ClientText(t)
  {
    SplitAfterLines(lines, t);
    ReplyOfAfterLines(lines, Split(t, '\n'));
  }

  lemma ReplyOfAfterLines(lines: seq<string>, rest: seq<string>)
    requires |rest| >= 1
    ensures ReplyOf(lines + rest) == Accumulate(lines) + ReplyOf(rest)
  {
    var parts := lines + rest;
    assert parts[|parts| - 1] == rest[|rest| - 1];
    assert parts[..|parts| - 1] == lines + rest[..|rest| - 1];
    AccumulateAppend(lines, rest[..|rest| - 1]);
  }

  /** Finished lines and a buffer without line feeds read back as what
      those lines contribute followed by the leftover. */
  lemma ClientTextOfLines(lines: seq<string>, buffer: string)
    requires LineFree(lines) && '\n' !in buffer
    ensures ClientText(Terminated(lines) + buffer) == Accumulate(lines) + Leftover(buffer)
  {
    ClientTextAfterLines(lines, buffer);
    ClientTextOfBuffer(buffer);
  }

  /** A body with no line feed at all is only a leftover buffer. */
  lemma ClientTextOfBuffer(buffer: string)
    requires '\n' !in buffer
    ensures ClientText(buffer) == Leftover(buffer)
  {
    SplitNoSeparator(buffer, '\n');
    assert [buffer][..0] == [];
    assert ReplyOf([buffer]) == Accumulate([]) + Leftover(buffer);
  }

  lemma AccumulateSnoc(lines: seq<string>, line: string)
    ensures Accumulate(lines + [line]) == Accumulate(lines) + (if IsContentLine(line) then line + "\n" else "")
  {
    AccumulateAppend(lines, [line]);
    assert [line][1..] == [];
  }

  lemma ConcatSnoc(chunks: seq<string>, k: nat)
    requires k < |chunks|
    ensures Concat(chunks[..k + 1]) == Concat(chunks[..k]) + chunks[k]
  {
    assert chunks[..k + 1] == chunks[..k] + [chunks[k]];
    ConcatAppend(chunks[..k], [chunks[k]]);
    assert [chunks[k]][1..] == [];
  }

  /** One chunk's worth of the outer loop: appending the chunk to the
      buffer and splitting again moves the newly finished lines out of the
      buffer without losing or reordering any text. */
  lemma BufferStep(processed: seq<string>, buffer: string, chunk: string)
    ensures var lines := Split(buffer + chunk, '\n');
      Terminated(processed + lines[..|lines| - 1]) + lines[|lines| - 1] == Terminated(processed) + buffer + chunk
  {
    var lines := Split(buffer + chunk, '\n');
    var complete := lines[..|lines| - 1];
    var last := lines[|lines| - 1];
    JoinSplit(buffer + chunk, '\n');
    assert complete + [last] == lines;
    TerminatedJoin(complete, last);
    TerminatedAppend(processed, complete);
    assert Terminated(complete) + last == buffer + chunk;
    calc {
      Terminated(processed + complete) + last;
      (Terminated(processed) + Terminated(complete)) + last;
      Terminated(processed) + (Terminated(complete) + last);
      Terminated(processed) + (buffer + chunk);
    }
  }

  /** The `while (true)` loop over `reader.read()` and the final buffer
      check. Whatever the chunk boundaries, the text shown is the reply of
      everything received. */
  method ReadStream(chunks: seq<string>) returns (text: string)
    ensures text == ClientText(Concat(chunks))
  {
    var accumulated := "";
    var buffer := "";
    ghost var processed: seq<string> := [];
    var k := 0;
    while k < |chunks|
      invariant 0 <= k <= |chunks|
      invariant Terminated(processed) + buffer == Concat(chunks[..k])
      invariant '\n' !in buffer
      invariant LineFree(processed)
      invariant accumulated == Accumulate(processed)
    {
      var lines := Split(buffer + chunks[k], '\n');
      var complete := lines[..|lines| - 1];
      var j := 0;
      assert processed + complete[..0] == processed;
      while j < |complete|
        invariant 0 <= j <= |complete|
        invariant accumulated == Accumulate(processed + complete[..j])
      {
        if IsContentLine(complete[j]) {
          accumulated := accumulated + complete[j] + "\n";
        }
        AccumulateSnoc(processed + complete[..j], complete[j]);
        assert processed + complete[..j + 1] == processed + complete[..j] + [complete[j]];
        j := j + 1;
      }
      assert complete[..j] == complete;
      BufferStep(processed, buffer, chunks[k]);
      ConcatSnoc(chunks, k);
      processed := processed + complete;
      buffer := lines[|lines| - 1];
      k := k + 1;
    }
    assert chunks[..k] == chunks;
    ClientTextOfLines(processed, buffer);
    text := accumulated + Leftover(buffer);
  }

  /** The only lines the reader appends are content lines, so the shown
      text has no "data:" line and no blank line. */
  lemma {:induction false} AccumulateOnlyContent(lines: seq<string>)
    ensures |Accumulate(lines)| <= |Terminated(lines)|
    ensures |Accumulate(lines)| == |Terminated(lines)| <==> forall i :: 0 <= i < |lines| ==> IsContentLine(lines[i])
    ensures (forall i :: 0 <= i < |lines| ==> IsContentLine(lines[i])) ==> Accumulate(lines) == Terminated(lines)
  {
    if |lines| > 0 {
      AccumulateOnlyContent(lines[1..]);
      if !IsContentLine(lines[0]) {
        assert !(forall i :: 0 <= i < |lines| ==> IsContentLine(lines[i]));
      }
      if forall i :: 0 <= i < |lines[1..]| ==> IsContentLine(lines[1..][i]) {
      } else {
        var i :| 0 <= i < |lines[1..]| && !IsContentLine(lines[1..][i]);
        assert !IsContentLine(lines[i + 1]);
      }
    }
  }

  /** A reply reaches the page unaltered exactly when each of its finished
      lines is a content line and its last piece is a content line or empty;
      a blank line or a line starting with "data:" anywhere is dropped. */
  lemma ClientTextIdentity(reply: string)
    ensures var parts := Split(reply, '\n');
      ClientText(reply) == reply <==>
        && (forall i :: 0 <= i < |parts| - 1 ==> IsContentLine(parts[i]))
        && (IsContentLine(parts[|parts| - 1]) || parts[|parts| - 1] == "")
  {
    var parts := Split(reply, '\n');
    var lines := parts[..|parts| - 1];
    var last := parts[|parts| - 1];
    JoinSplit(reply, '\n');
    assert lines + [last] == parts;
    TerminatedJoin(lines, last);
    assert LineFree(lines);
    ClientTextOfLines(lines, last);
    AccumulateOnlyContent(lines);
    assert Terminated(lines) + last == reply;
    assert (forall i :: 0 <= i < |parts| - 1 ==> IsContentLine(parts[i])) <==> (forall i :: 0 <= i < |lines| ==> IsContentLine(lines[i]));
    if ClientText(reply) == reply {
      assert |Accumulate(lines)| + |Leftover(last)| == |Terminated(lines)| + |last|;
    }
  }
}
