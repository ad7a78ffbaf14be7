/** The relay's stream re-framer (app/api/mark-attendance/route.ts, the read
    loop): every decoded chunk is split into lines on their own, blank lines
    are dropped, and each remaining line, trimmed, is sent to the browser as
    one Server-Sent-Events frame `<line>\n\n`. A line that already starts
    with an SSE field name passes through; anything else is wrapped as
    `data: <line>`. Nothing is remembered from one chunk to the next. */
module Reframer {
  import opened Text

  const DataPrefix := "data: "
  const FrameEnd := "\n\n"

  /** The line starts with one of the SSE field names the relay recognises. */
  predicate HasFieldPrefix(line: string)
  {
    StartsWith(line, "data:") || StartsWith(line, "id:")
    || StartsWith(line, "event:") || StartsWith(line, "retry:")
  }

  /** The first character of a JSON text with no leading whitespace: the
      start of an object, array, string, number, `true`, `false` or `null`. */
  predicate JsonStart(t: string)
  {
    |t| > 0 && t[0] in "{[\"-0123456789tfn"
  }

  /** The per-line rule exactly as the loop writes it: a `data:` line is
      kept; otherwise a line that parses as JSON is wrapped; otherwise an
      `id:`, `event:` or `retry:` line is kept and anything else is wrapped.
      `isJson` stands for `JSON.parse` succeeding on the line. A `data:`
      line is kept and any line without a field name is wrapped, whatever
      `isJson` says; only `id:`, `event:` and `retry:` lines depend on it. */
  function ReframeAsWritten(line: string, isJson: string -> bool): (r: string)
    ensures r == line || r == DataPrefix + line
    ensures StartsWith(line, "data:") ==> r == line
    ensures !HasFieldPrefix(line) ==> r == DataPrefix + line
  {
    if StartsWith(line, "data:") then line
    else if isJson(line) then DataPrefix + line
    else if StartsWith(line, "id:") || StartsWith(line, "event:") || StartsWith(line, "retry:") then line
    else DataPrefix + line
  }

  /** The per-line rule without the JSON check. The result always carries
      an SSE field name: a line that has one passes unchanged, and any other
      line comes back exactly, behind `data: `. */
  function Reframe(line: string): (r: string)
    ensures HasFieldPrefix(r)
    ensures HasFieldPrefix(line) ==> r == line
    ensures !HasFieldPrefix(line) ==> StartsWith(r, DataPrefix) && r[|DataPrefix|..] == line
  {
    if HasFieldPrefix(line) then line
    else
      assert (DataPrefix + line)[..5] == "data:";
      DataPrefix + line
  }

  /** A JSON text never starts like an SSE field name, so the JSON check in
      the loop never changes what is sent: whether or not the line is valid
      JSON, the outcome is `Reframe`. */
  lemma JsonCheckIrrelevant(line: string, isJson: string -> bool)
    requires isJson(line) ==> JsonStart(line)
    ensures ReframeAsWritten(line, isJson) == Reframe(line)
  {
  }

  /** What one frame of the relay looks like: a payload followed by a blank
      line, where the payload is non-empty, trimmed, free of CR and LF, and
      starts with an SSE field name. */
  predicate WellFormedFrame(f: string)
  {
    && |f| > |FrameEnd|
    && f[|f| - |FrameEnd|..] == FrameEnd
    && var payload := f[..|f| - |FrameEnd|];
       payload != [] && IsTrimmed(payload) && NoBreak(payload) && HasFieldPrefix(payload)
  }

  /** The payload a well-formed frame carries. */
  function Payload(f: string): string
    requires |f| >= |FrameEnd|
  {
    f[..|f| - |FrameEnd|]
  }

  /** The frame sent for one already trimmed, non-blank line. */
  function Frame(t: string): (f: string)
    requires t != [] && IsTrimmed(t) && NoBreak(t)
    ensures WellFormedFrame(f)
    ensures Payload(f) == Reframe(t)
  {
    ReframeShape(t);
    FrameEndSplit(Reframe(t));
    Reframe(t) + FrameEnd
  }

  /** Framing keeps a non-empty, trimmed, break-free line so. */
  lemma ReframeShape(t: string)
    requires t != [] && IsTrimmed(t) && NoBreak(t)
    ensures Reframe(t) != [] && IsTrimmed(Reframe(t)) && NoBreak(Reframe(t))
  {
    var p := Reframe(t);
    assert p == DataPrefix + t ==> p[0] == 'd' && p[|p| - 1] == t[|t| - 1];
    forall i | 0 <= i < |p|
      ensures !IsBreak(p[i])
    {
      if p != t {
        assert p[i] == if i < |DataPrefix| then DataPrefix[i] else t[i - |DataPrefix|];
      }
    }
  }

  /** A payload and its frame end can be read back off the frame. */
  lemma FrameEndSplit(p: string)
    ensures (p + FrameEnd)[..|p|] == p && (p + FrameEnd)[|p|..] == FrameEnd
  {
  }

  /** A line is skipped when `trim` leaves nothing of it. */
  predicate IsBlank(part: string)
  {
    Trim(part) == []
  }

  /** The frame sent for one non-blank piece of a chunk. */
  function FrameOfLine(part: string): (f: string)
    requires NoBreak(part) && !IsBlank(part)
    ensures WellFormedFrame(f)
    ensures Payload(f) == Reframe(Trim(part))
  {
    TrimKeepsNoBreak(part);
    Frame(Trim(part))
  }

  /** The frames for the pieces of one chunk, in order: one per non-blank
      piece, none for a blank one. */
  function FramesOfParts(parts: seq<string>): (fs: seq<string>)
    requires forall i :: 0 <= i < |parts| ==> NoBreak(parts[i])
    ensures |fs| <= |parts|
    ensures forall i :: 0 <= i < |fs| ==> WellFormedFrame(fs[i])
  {
    if |parts| == 0 then []
    else
      var rest := FramesOfParts(parts[1..]);
      if IsBlank(parts[0]) then rest else [FrameOfLine(parts[0])] + rest
  }

  /** The frames the loop sends for one decoded chunk. */
  function Frames(chunk: string): (fs: seq<string>)
    ensures forall i :: 0 <= i < |fs| ==> WellFormedFrame(fs[i])
  {
    FramesOfParts(SplitLines(chunk))
  }

  /** The frames for a whole upstream body, chunk after chunk. */
  function StreamFrames(chunks: seq<string>): (fs: seq<string>)
    ensures forall i :: 0 <= i < |fs| ==> WellFormedFrame(fs[i])
  {
    if |chunks| == 0 then [] else Frames(chunks[0]) + StreamFrames(chunks[1..])
  }

  /** A single piece: a blank one gives no frame, any other exactly one, the
      frame of its trimmed text. */
  lemma FramesOfOnePart(part: string)
    requires NoBreak(part)
    ensures IsBlank(part) ==> FramesOfParts([part]) == []
    ensures !IsBlank(part) ==> FramesOfParts([part]) == [FrameOfLine(part)]
  {
    assert [part][1..] == [];
  }

  /** Concatenation is associative; proved once, away from any frame. */
  lemma ConcatAssoc(x: seq<string>, y: seq<string>, z: seq<string>)
    ensures x + (y + z) == (x + y) + z
  {
  }

  /** Break-free pieces stay break-free when two runs are joined. */
  lemma NoBreakConcat(a: seq<string>, b: seq<string>)
    requires forall i :: 0 <= i < |a| ==> NoBreak(a[i])
    requires forall i :: 0 <= i < |b| ==> NoBreak(b[i])
    ensures forall i :: 0 <= i < |a + b| ==> NoBreak((a + b)[i])
  {
    forall i | 0 <= i < |a + b|
      ensures NoBreak((a + b)[i])
    {
      if i < |a| {
        assert (a + b)[i] == a[i];
      } else {
        assert (a + b)[i] == b[i - |a|];
      }
    }
  }

  /** The rest of a run of break-free pieces is break-free. */
  lemma NoBreakTail(a: seq<string>)
    requires |a| > 0 && forall i :: 0 <= i < |a| ==> NoBreak(a[i])
    ensures forall i :: 0 <= i < |a[1..]| ==> NoBreak(a[1..][i])
  {
    forall i | 0 <= i < |a[1..]|
      ensures NoBreak(a[1..][i])
    {
      assert a[1..][i] == a[i + 1];
    }
  }

  /** The frames of a run of pieces: those of its first piece, then those
      of the rest. */
  lemma FramesOfPartsUncons(parts: seq<string>)
    requires |parts| > 0 && forall i :: 0 <= i < |parts| ==> NoBreak(parts[i])
    ensures forall i :: 0 <= i < |parts[1..]| ==> NoBreak(parts[1..][i])
    ensures FramesOfParts(parts) == FramesOfParts([parts[0]]) + FramesOfParts(parts[1..])
  {
    NoBreakTail(parts);
    assert [parts[0]][1..] == [];
  }

  /** The frames of a run of pieces are the frames of its first part
      followed by those of the rest, so frames come out in the order of the
      pieces. */
  lemma {:induction false} FramesOfPartsAppend(a: seq<string>, b: seq<string>)
    requires forall i :: 0 <= i < |a| ==> NoBreak(a[i])
    requires forall i :: 0 <= i < |b| ==> NoBreak(b[i])
    ensures forall i :: 0 <= i < |a + b| ==> NoBreak((a + b)[i])
    ensures FramesOfParts(a + b) == FramesOfParts(a) + FramesOfParts(b)
    decreases |a|
  {
    NoBreakConcat(a, b);
    if |a| == 0 {
      assert a + b == b;
    } else {
      var a1 := a[1..];
      FramesOfPartsUncons(a);
      FramesOfPartsUncons(a + b);
      assert (a + b)[0] == a[0];
      assert (a + b)[1..] == a1 + b;
      FramesOfPartsAppend(a1, b);
      ConcatAssoc(FramesOfParts([a[0]]), FramesOfParts(a1), FramesOfParts(b));
    }
  }

  /** No state is carried between chunks: the frames for a stream are the
      frames for its first stretch of chunks followed by those for the rest. */
  lemma {:induction false} StreamFramesAppend(a: seq<string>, b: seq<string>)
    ensures StreamFrames(a + b) == StreamFrames(a) + StreamFrames(b)
    decreases |a|
  {
    if |a| == 0 {
      assert a + b == b;
    } else {
      assert (a + b)[1..] == a[1..] + b;
      StreamFramesAppend(a[1..], b);
    }
  }

  /** Extending a run of pieces by one adds that piece's frame, if any. */
  lemma FramesOfPrefixStep(parts: seq<string>, p: nat)
    requires p < |parts| && forall i :: 0 <= i < |parts| ==> NoBreak(parts[i])
    ensures FramesOfParts(parts[..p + 1])
         == FramesOfParts(parts[..p]) + (if IsBlank(parts[p]) then [] else [FrameOfLine(parts[p])])
  {
    var pre := parts[..p];
    forall i | 0 <= i < |pre|
      ensures NoBreak(pre[i])
    {
      assert pre[i] == parts[i];
    }
    assert parts[..p + 1] == pre + [parts[p]];
    FramesOfPartsAppend(pre, [parts[p]]);
    FramesOfOnePart(parts[p]);
  }

  /** One pass of the relay's read loop: split the decoded chunk, skip
      blank pieces, frame the trimmed rest, and send each frame at once. */
  method PumpChunk(chunk: string) returns (sent: seq<string>)
    ensures sent == Frames(chunk)
  {
    var parts := SplitLines(chunk);
    sent := [];
    var p := 0;
    while p < |parts|
      invariant 0 <= p <= |parts|
      invariant sent == FramesOfParts(parts[..p])
    {
      var part := parts[p];
      FramesOfPrefixStep(parts, p);
      if Trim(part) != [] {
        sent := sent + [FrameOfLine(part)];
      }
      p := p + 1;
    }
    assert parts[..|parts|] == parts;
  }

  /** Extending a run of chunks by one adds that chunk's frames. */
  lemma StreamFramesPrefixStep(chunks: seq<string>, c: nat)
    requires c < |chunks|
    ensures StreamFrames(chunks[..c + 1]) == StreamFrames(chunks[..c]) + Frames(chunks[c])
  {
    assert chunks[..c + 1] == chunks[..c] + [chunks[c]];
    StreamFramesAppend(chunks[..c], [chunks[c]]);
    StreamFramesOne(chunks[c]);
  }

  /** A stream of one chunk gives that chunk's frames. */
  lemma StreamFramesOne(x: string)
    ensures StreamFrames([x]) == Frames(x)
  {
    assert [x][1..] == [];
  }

  /** The read loop over a whole upstream body: the frames of every chunk,
      in arrival order. */
  method Pump(chunks: seq<string>) returns (sent: seq<string>)
    ensures sent == StreamFrames(chunks)
  {
    sent := [];
    var c := 0;
    while c < |chunks|
      invariant 0 <= c <= |chunks|
      invariant sent == StreamFrames(chunks[..c])
    {
      var out := PumpChunk(chunks[c]);
      StreamFramesPrefixStep(chunks, c);
      sent := sent + out;
      c := c + 1;
    }
    assert chunks[..|chunks|] == chunks;
  }

  /** Break-free, non-blank lines joined with LF each come out as one frame,
      in order: the chunk `l1 LF l2 LF ... ln` yields n frames. */
  lemma FramesOfJoinedLines(lines: seq<string>)
    requires |lines| >= 1
    requires forall i :: 0 <= i < |lines| ==> NoBreak(lines[i]) && !IsBlank(lines[i])
    ensures |Frames(JoinLines(lines))| == |lines|
    ensures forall i :: 0 <= i < |lines| ==> Frames(JoinLines(lines))[i] == FrameOfLine(lines[i])
  {
    SplitJoinLines(lines);
    FramesOfNonBlank(lines);
  }

  /** A non-blank first piece gives the first frame. */
  lemma FramesOfPartsCons(parts: seq<string>)
    requires |parts| > 0 && !IsBlank(parts[0])
    requires forall i :: 0 <= i < |parts| ==> NoBreak(parts[i])
    ensures forall i :: 0 <= i < |parts| - 1 ==> NoBreak(parts[1..][i])
    ensures FramesOfParts(parts) == [FrameOfLine(parts[0])] + FramesOfParts(parts[1..])
  {
    forall i | 0 <= i < |parts| - 1
      ensures NoBreak(parts[1..][i])
    {
      assert parts[1..][i] == parts[i + 1];
    }
  }

  /** Non-blank pieces give one frame each, in order. */
  lemma {:induction false} FramesOfNonBlank(lines: seq<string>)
    requires forall i :: 0 <= i < |lines| ==> NoBreak(lines[i]) && !IsBlank(lines[i])
    ensures |FramesOfParts(lines)| == |lines|
    ensures forall i :: 0 <= i < |lines| ==> FramesOfParts(lines)[i] == FrameOfLine(lines[i])
    decreases |lines|
  {
    if |lines| > 0 {
      var tail := lines[1..];
      FramesOfPartsCons(lines);
      forall i | 0 <= i < |tail|
        ensures NoBreak(tail[i]) && !IsBlank(tail[i])
      {
        assert tail[i] == lines[i + 1];
      }
      FramesOfNonBlank(tail);
      var rest := FramesOfParts(tail);
      var fs := FramesOfParts(lines);
      assert fs == [FrameOfLine(lines[0])] + rest;
      forall i | 0 <= i < |lines|
        ensures fs[i] == FrameOfLine(lines[i])
      {
        if i > 0 {
          assert fs[i] == rest[i - 1];
          assert tail[i - 1] == lines[i];
        }
      }
    }
  }

  /** A chunk that is one trimmed line without an SSE field name becomes
      exactly one `data:` frame. */
  lemma FramesOfPlainLine(w: string)
    requires w != [] && IsTrimmed(w) && NoBreak(w) && !HasFieldPrefix(w)
    ensures Frames(w) == [DataPrefix + w + FrameEnd]
    ensures StreamFrames([w]) == Frames(w)
  {
    SplitLinesOfPiece(w, "");
    TrimOfTrimmed(w);
    FramesOfOnePart(w);
    assert [w][1..] == [];
  }

  /** Re-chunking matters: a line the upstream delivers split over two reads
      comes out as two frames, not one. */
  lemma RechunkingSplitsLines()
    ensures StreamFrames(["ab"]) == ["data: ab\n\n"]
    ensures StreamFrames(["a", "b"]) == ["data: a\n\n", "data: b\n\n"]
  {
    PlainWord();
    PlainLetters();
    TwoChunks("a", "b");
  }

  /** The frames of two chunks are those of the first, then the second. */
  lemma TwoChunks(x: string, y: string)
    ensures StreamFrames([x, y]) == StreamFrames([x]) + StreamFrames([y])
  {
    StreamFramesAppend([x], [y]);
    assert [x] + [y] == [x, y];
  }

  /** The chunks `a` and `b` each give one `data:` frame. */
  lemma PlainLetters()
    ensures StreamFrames(["a"]) == ["data: a\n\n"]
    ensures StreamFrames(["b"]) == ["data: b\n\n"]
  {
    PlainLetter('a');
    assert ['a'] == "a" && "data: " + ['a'] + "\n\n" == "data: a\n\n";
    PlainLetter('b');
    assert ['b'] == "b" && "data: " + ['b'] + "\n\n" == "data: b\n\n";
  }

  /** A one-letter chunk other than a field start gives one `data:` frame. */
  lemma PlainLetter(c: char)
    requires c == 'a' || c == 'b'
    ensures StreamFrames([[c]]) == ["data: " + [c] + "\n\n"]
  {
    assert IsTrimmed([c]) && NoBreak([c]);
    assert !HasFieldPrefix([c]);
    FramesOfPlainLine([c]);
  }

  /** The chunk `ab` gives one `data:` frame. */
  lemma PlainWord()
    ensures StreamFrames(["ab"]) == ["data: ab\n\n"]
  {
    assert IsTrimmed("ab") && NoBreak("ab");
    assert !HasFieldPrefix("ab");
    FramesOfPlainLine("ab");
    assert DataPrefix + "ab" + FrameEnd == "data: ab\n\n";
  }
}
