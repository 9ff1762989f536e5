/** The decoder sees through every way of cutting the byte stream. */
module SseTheorems {
  import opened Wrappers
  import opened Sequences
  import opened SseDecoding

  function Concat(chunks: seq<Bytes>): Bytes {
    if chunks == [] then [] else chunks[0] + Concat(chunks[1..])
  }

  // ---------------------------------------------------------- any chunking

  /** More input never moves a delimiter that has already been found. */
  lemma BoundaryIsStable(b: Bytes, u: Bytes, start: nat)
    requires start <= |b| && NextBoundary(b, start).Some?
    ensures NextBoundary(b + u, start) == NextBoundary(b, start)
    decreases |b| - start
  {
    var found := NextBoundary(b, start).value;
    BoundaryIsFirst(b, start);
    if start < found.position {
      assert DelimiterAt(b, start) == 0;
      assert NextBoundary(b, start + 1) == NextBoundary(b, start);
      StillClear(b, u, start, found.position);
      BoundaryIsStable(b, u, start + 1);
    }
  }

  /** A CRLF CRLF cannot begin just before an LF LF that follows it. */
  lemma StillClear(b: Bytes, u: Bytes, i: nat, p: nat)
    requires i < p && DelimiterAt(b, p) > 0 && DelimiterAt(b, i) == 0
    ensures DelimiterAt(b + u, i) == 0
  {
    var s := b + u;
    assert p + 2 <= |b|;
    assert s[i] == b[i] && s[i + 1] == b[i + 1] && s[i + 2] == b[i + 2];
    if i + 4 <= |b| {
      assert s[i + 3] == b[i + 3];
    }
  }

  lemma SliceOfDrop(b: Bytes, d: nat, i: nat, j: nat)
    requires d + i <= d + j <= |b|
    ensures b[d..][i..j] == b[d + i..d + j] && b[d..][i..] == b[d + i..]
  {
  }

  lemma SliceOfConcat(b: Bytes, u: Bytes, i: nat, j: nat)
    requires i <= j <= |b|
    ensures (b + u)[i..j] == b[i..j] && (b + u)[i..] == b[i..] + u
  {
  }

  lemma SplitAtBoundary(b: Bytes, start: nat, p: nat, d: nat)
    requires start <= |b| && NextBoundary(b, start) == Some(Boundary(p, d))
    ensures var rest := SplitFrom(b, p + d);
      SplitFrom(b, start) == Frames([b[start..p]] + rest.complete, rest.tail)
  {
  }

  lemma {:induction false} SplitShift(b: Bytes, d: nat, start: nat)
    requires d + start <= |b|
    ensures SplitFrom(b[d..], start) == SplitFrom(b, d + start)
    decreases |b| - start
  {
    var found := NextBoundary(b, d + start);
    if found.Some? {
      SplitShift(b, d, found.value.position + found.value.length - d);
      SplitShiftsAfter(b, d, start, found.value.position, found.value.length);
    } else {
      SplitShiftClear(b, d, start);
    }
  }

  lemma SplitShiftClear(b: Bytes, d: nat, start: nat)
    requires d + start <= |b| && NextBoundary(b, d + start).None?
    ensures SplitFrom(b[d..], start) == SplitFrom(b, d + start)
  {
    BoundaryShift(b, d, start);
    SplitClear(b, d + start);
    SplitClear(b[d..], start);
    SliceOfDrop(b, d, start, start);
  }

  lemma SplitClear(b: Bytes, start: nat)
    requires start <= |b| && NextBoundary(b, start).None?
    ensures SplitFrom(b, start) == Frames([], b[start..])
  {
  }

  lemma SplitShiftsAfter(b: Bytes, d: nat, start: nat, p: nat, n: nat)
    requires d + start <= |b| && NextBoundary(b, d + start) == Some(Boundary(p, n))
    requires SplitFrom(b[d..], p + n - d) == SplitFrom(b, p + n)
    ensures SplitFrom(b[d..], start) == SplitFrom(b, d + start)
  {
    SplitAtBoundary(b, d + start, p, n);
    SplitAtShifted(b, d, start, p, n);
    SliceOfDrop(b, d, start, p - d);
  }

  lemma SplitAtShifted(b: Bytes, d: nat, start: nat, p: nat, n: nat)
    requires d + start <= |b| && NextBoundary(b, d + start) == Some(Boundary(p, n))
    ensures d + start <= p && p + n <= |b|
    ensures var rest := SplitFrom(b[d..], p + n - d);
      SplitFrom(b[d..], start) == Frames([b[d..][start..p - d]] + rest.complete, rest.tail)
  {
    BoundaryShift(b, d, start);
    SplitAtBoundary(b[d..], start, p - d, n);
  }

  /** Splitting can stop at any point and go on from the tail it left. */
  lemma {:induction false} SplitResumes(b: Bytes, u: Bytes, start: nat)
    requires start <= |b|
    ensures var s := SplitFrom(b, start);
      var r := Split(s.tail + u);
      SplitFrom(b + u, start) == Frames(s.complete + r.complete, r.tail)
    decreases |b| - start
  {
    var found := NextBoundary(b, start);
    if found.Some? {
      SplitResumes(b, u, found.value.position + found.value.length);
      SplitResumesAfter(b, u, start, found.value.position, found.value.length);
    } else {
      SplitResumesAtTail(b, u, start);
    }
  }

  lemma SplitResumesAtTail(b: Bytes, u: Bytes, start: nat)
    requires start <= |b|
    ensures var r := Split(b[start..] + u);
      SplitFrom(b + u, start) == Frames([] + r.complete, r.tail)
  {
    SplitShift(b + u, start, 0);
    SliceOfConcat(b, u, start, start);
    assert [] + Split(b[start..] + u).complete == Split(b[start..] + u).complete;
  }

  lemma SplitResumesAfter(b: Bytes, u: Bytes, start: nat, p: nat, d: nat)
    requires start <= |b| && NextBoundary(b, start) == Some(Boundary(p, d))
    requires var s := SplitFrom(b, p + d);
      var r := Split(s.tail + u);
      SplitFrom(b + u, p + d) == Frames(s.complete + r.complete, r.tail)
    ensures var s := SplitFrom(b, start);
      var r := Split(s.tail + u);
      SplitFrom(b + u, start) == Frames(s.complete + r.complete, r.tail)
  {
    BoundaryIsStable(b, u, start);
    SplitAtBoundary(b, start, p, d);
    SplitAtBoundary(b + u, start, p, d);
    SliceOfConcat(b, u, start, p);
    Assoc([b[start..p]], SplitFrom(b, p + d).complete, Split(SplitFrom(b, p + d).tail + u).complete);
  }

  lemma TailIsClear(b: Bytes, start: nat)
    requires start <= |b|
    ensures NextBoundary(SplitFrom(b, start).tail, 0).None?
    decreases |b| - start
  {
    var found := NextBoundary(b, start);
    if found.Some? {
      TailIsClear(b, found.value.position + found.value.length);
    } else {
      BoundaryShift(b, start, 0);
    }
  }

  /** All pushes of `chunks`, stopping at the first limit error. */
  function RunChunks(buffer: Bytes, chunks: seq<Bytes>, maxFrame: nat, maxBuffer: nat): Result<Frames, SseDecodeError>
    decreases |chunks|
  {
    if chunks == [] then Ok(Frames([], buffer))
    else match Pushed(buffer, chunks[0], maxFrame, maxBuffer)
      case Err(error) => Err(error)
      case Ok(now) =>
        match RunChunks(now.tail, chunks[1..], maxFrame, maxBuffer)
        case Err(error) => Err(error)
        case Ok(later) => Ok(Frames(now.complete + later.complete, later.tail))
  }

  /** Every chunk fits into the buffer next to the tail left by those before. */
  predicate BuffersFit(buffer: Bytes, chunks: seq<Bytes>, maxBuffer: nat)
    decreases |chunks|
  {
    chunks == [] || (
      && |buffer| + |chunks[0]| <= maxBuffer
      && BuffersFit(Split(buffer + chunks[0]).tail, chunks[1..], maxBuffer))
  }

  lemma FitConcat(a: seq<Bytes>, b: seq<Bytes>, max: nat)
    ensures Fit(a + b, max) <==> Fit(a, max) && Fit(b, max)
  {
    FitsIff(a, max);
    FitsIff(b, max);
    FitsIff(a + b, max);
    forall k | 0 <= k < |a| ensures (a + b)[k] == a[k] { }
    forall k | 0 <= k < |b| ensures (a + b)[|a| + k] == b[k] { }
  }

  /** The outcome of a run depends on the chunking only through the buffer
      limit: the frames and the tail are those of the whole input, and the frame
      limit is exceeded exactly when a frame of the whole input exceeds it. */
  lemma {:induction false} ChunkingIsInvisible(buffer: Bytes, chunks: seq<Bytes>, maxFrame: nat, maxBuffer: nat)
    requires NextBoundary(buffer, 0).None?
    ensures var whole := Split(buffer + Concat(chunks));
      var run := RunChunks(buffer, chunks, maxFrame, maxBuffer);
      && (run.Ok? <==> BuffersFit(buffer, chunks, maxBuffer) && Fit(whole.complete, maxFrame))
      && (run.Ok? ==> run.value == whole)
    decreases |chunks|
  {
    if chunks == [] {
      assert buffer + Concat(chunks) == buffer;
    } else {
      var now, rest := Split(buffer + chunks[0]), Concat(chunks[1..]);
      SplitResumes(buffer + chunks[0], rest, 0);
      assert buffer + Concat(chunks) == buffer + chunks[0] + rest;
      TailIsClear(buffer + chunks[0], 0);
      ChunkingIsInvisible(now.tail, chunks[1..], maxFrame, maxBuffer);
      FitConcat(now.complete, Split(now.tail + rest).complete, maxFrame);
    }
  }

  lemma {:induction false} EventsConcat(decode: Bytes -> string, a: seq<Bytes>, b: seq<Bytes>)
    ensures Events(decode, a + b) == Events(decode, a) + Events(decode, b)
    decreases |b|
  {
    if b == [] {
      assert a + b == a;
    } else {
      assert (a + b)[..|a + b| - 1] == a + b[..|b| - 1];
      EventsConcat(decode, a, b[..|b| - 1]);
    }
  }

  function Prepend(frames: seq<Bytes>, r: Result<Frames, SseDecodeError>): Result<Frames, SseDecodeError> {
    match r
    case Err(error) => Err(error)
    case Ok(later) => Ok(Frames(frames + later.complete, later.tail))
  }

  lemma RunStep(frames: seq<Bytes>, buffer: Bytes, chunks: seq<Bytes>, i: nat, maxFrame: nat, maxBuffer: nat)
    requires i < |chunks|
    ensures var run := Prepend(frames, RunChunks(buffer, chunks[i..], maxFrame, maxBuffer));
      match Pushed(buffer, chunks[i], maxFrame, maxBuffer)
      case Err(error) => run.Err?
      case Ok(now) => run == Prepend(frames + now.complete, RunChunks(now.tail, chunks[i + 1..], maxFrame, maxBuffer))
    ensures |Concat(chunks[i..])| == |chunks[i]| + |Concat(chunks[i + 1..])|
  {
    assert chunks[i..][1..] == chunks[i + 1..];
    var now := Pushed(buffer, chunks[i], maxFrame, maxBuffer);
    if now.Ok? {
      var later := RunChunks(now.value.tail, chunks[i + 1..], maxFrame, maxBuffer);
      if later.Ok? {
        assert frames + (now.value.complete + later.value.complete) == frames + now.value.complete + later.value.complete;
      }
    }
  }

  lemma WholeRun(chunks: seq<Bytes>, maxFrame: nat, maxBuffer: nat)
    ensures var whole, run := Split(Concat(chunks)), Prepend([], RunChunks([], chunks[0..], maxFrame, maxBuffer));
      && (run.Ok? <==> BuffersFit([], chunks, maxBuffer) && Fit(whole.complete, maxFrame))
      && (run.Ok? ==> run.value == whole)
    ensures chunks[0..] == chunks
  {
    assert [] + Concat(chunks) == Concat(chunks);
    assert chunks[0..] == chunks;
    ChunkingIsInvisible([], chunks, maxFrame, maxBuffer);
    var whole := Split(Concat(chunks));
    assert [] + whole.complete == whole.complete;
  }

  lemma LastRun(frames: seq<Bytes>, buffer: Bytes, chunks: seq<Bytes>, maxFrame: nat, maxBuffer: nat)
    ensures Prepend(frames, RunChunks(buffer, chunks[|chunks|..], maxFrame, maxBuffer)) == Ok(Frames(frames, buffer))
  {
    assert frames + [] == frames;
  }

  /** The receiving loop of `stream_attempt`: one decoder fed chunk by chunk. */
  method DecodeAll(decode: Bytes -> string, chunks: seq<Bytes>, maxFrame: nat, maxBuffer: nat)
    returns (r: Result<seq<SseEvent>, SseDecodeError>, tail: Bytes, ghost inspected: nat)
    ensures r.Ok? <==> BuffersFit([], chunks, maxBuffer) && Fit(Split(Concat(chunks)).complete, maxFrame)
    ensures r.Ok? ==> r.value == Events(decode, Split(Concat(chunks)).complete) && tail == Split(Concat(chunks)).tail
    ensures inspected <= |Concat(chunks)| + 3 * |chunks|
  {
    WholeRun(chunks, maxFrame, maxBuffer);
    ghost var run := Prepend([], RunChunks([], chunks[0..], maxFrame, maxBuffer));
    var decoder := new SseDecoder(decode);
    var events: seq<SseEvent> := [];
    ghost var frames: seq<Bytes> := [];
    inspected := 0;
    for i := 0 to |chunks|
      invariant fresh(decoder) && decoder.Valid() && decoder.decode == decode
      invariant events == Events(decode, frames)
      invariant run == Prepend(frames, RunChunks(decoder.buffer, chunks[i..], maxFrame, maxBuffer))
      invariant inspected + |Concat(chunks[i..])| <= |Concat(chunks)| + 3 * i
    {
      RunStep(frames, decoder.buffer, chunks, i, maxFrame, maxBuffer);
      ghost var now := Pushed(decoder.buffer, chunks[i], maxFrame, maxBuffer);
      var step, cost := decoder.TryPush(chunks[i], maxFrame, maxBuffer);
      inspected := inspected + cost;
      if step.Err? {
        return Err(step.error), [], inspected;
      }
      EventsConcat(decode, frames, now.value.complete);
      events := events + step.value;
      frames := frames + now.value.complete;
    }
    LastRun(frames, decoder.buffer, chunks, maxFrame, maxBuffer);
    r, tail := Ok(events), decoder.buffer;
  }

  // ------------------------------------------------------- nothing is lost

  /** The delimiters that `SplitFrom` drops. */
  function Delimiters(b: Bytes, start: nat): seq<Bytes>
    requires start <= |b|
    decreases |b| - start
  {
    match NextBoundary(b, start)
    case None => []
    case Some(found) =>
      [b[found.position..found.position + found.length]] + Delimiters(b, found.position + found.length)
  }

  predicate IsDelimiter(d: Bytes) {
    d == [LF, LF] || d == [CR, LF, CR, LF]
  }

  function Glue(frames: seq<Bytes>, delimiters: seq<Bytes>): Bytes
    requires |frames| == |delimiters|
  {
    if frames == [] then [] else frames[0] + delimiters[0] + Glue(frames[1..], delimiters[1..])
  }

  predicate AreDelimiters(ds: seq<Bytes>) {
    ds == [] || (IsDelimiter(ds[0]) && AreDelimiters(ds[1..]))
  }

  /** Frames and delimiters, glued together, are the input from `start` on. */
  predicate Reassembles(b: Bytes, start: nat)
    requires start <= |b|
  {
    var s, ds := SplitFrom(b, start), Delimiters(b, start);
    |s.complete| == |ds| && AreDelimiters(ds) && b[start..] == Glue(s.complete, ds) + s.tail
  }

  /** Splitting drops the delimiters and nothing else, byte for byte. */
  lemma {:induction false} SplitLosesNothing(b: Bytes, start: nat)
    requires start <= |b|
    ensures Reassembles(b, start)
    decreases |b| - start
  {
    var found := NextBoundary(b, start);
    if found.Some? {
      SplitLosesNothing(b, found.value.position + found.value.length);
      LosesNothingAt(b, start, found.value.position, found.value.length);
    } else {
      LosesNothingClear(b, start);
    }
  }

  lemma LosesNothingClear(b: Bytes, start: nat)
    requires start <= |b| && NextBoundary(b, start).None?
    ensures Reassembles(b, start)
  {
    SplitClear(b, start);
    assert Glue([], []) + b[start..] == b[start..];
  }

  lemma DelimitersAtBoundary(b: Bytes, start: nat, p: nat, n: nat)
    requires start <= |b| && NextBoundary(b, start) == Some(Boundary(p, n))
    ensures Delimiters(b, start) == [b[p..p + n]] + Delimiters(b, p + n)
    ensures IsDelimiter(b[p..p + n])
  {
    BoundaryIsFirst(b, start);
    DelimiterBytes(b, p);
  }

  lemma LosesNothingAt(b: Bytes, start: nat, p: nat, n: nat)
    requires start <= |b| && NextBoundary(b, start) == Some(Boundary(p, n))
    requires Reassembles(b, p + n)
    ensures Reassembles(b, start)
  {
    SplitAtBoundary(b, start, p, n);
    DelimitersAtBoundary(b, start, p, n);
    GlueStep(b, start, p, p + n, SplitFrom(b, p + n), Delimiters(b, p + n));
  }

  lemma GlueStep(b: Bytes, start: nat, p: nat, e: nat, s: Frames, ds: seq<Bytes>)
    requires start <= p <= e <= |b| && |s.complete| == |ds| && AreDelimiters(ds) && IsDelimiter(b[p..e])
    requires b[e..] == Glue(s.complete, ds) + s.tail
    ensures AreDelimiters([b[p..e]] + ds)
    ensures b[start..] == Glue([b[start..p]] + s.complete, [b[p..e]] + ds) + s.tail
  {
    assert ([b[start..p]] + s.complete)[1..] == s.complete && ([b[p..e]] + ds)[1..] == ds;
    ThreePieces(b, start, p, e);
  }

  lemma ThreePieces(b: Bytes, i: nat, j: nat, k: nat)
    requires i <= j <= k <= |b|
    ensures b[i..] == b[i..j] + b[j..k] + b[k..]
  {
  }

  lemma DelimiterBytes(b: Bytes, p: nat)
    requires DelimiterAt(b, p) > 0
    ensures p + DelimiterAt(b, p) <= |b|
    ensures IsDelimiter(b[p..p + DelimiterAt(b, p)])
  {
    if DelimiterAt(b, p) == 2 {
      assert b[p..p + 2] == [b[p], b[p + 1]];
    } else {
      assert b[p..p + 4] == [b[p], b[p + 1], b[p + 2], b[p + 3]];
    }
  }

  // ----------------------------------------------------------- round trips

  /** Followed by LF LF, the frame ends there and not earlier. */
  predicate Closed(frame: Bytes) {
    forall i :: 0 <= i < |frame| ==> DelimiterAt(frame + [LF, LF], i) == 0
  }

  function Encode(frames: seq<Bytes>): Bytes {
    if frames == [] then [] else frames[0] + [LF, LF] + Encode(frames[1..])
  }

  lemma {:induction false} SplitEncoded(frames: seq<Bytes>)
    requires forall k :: 0 <= k < |frames| ==> Closed(frames[k])
    ensures Split(Encode(frames)) == Frames(frames, [])
    decreases |frames|
  {
    if frames != [] {
      var frame, rest := frames[0], Encode(frames[1..]);
      var whole := frame + [LF, LF] + rest;
      FrameEndsAtDelimiter(frame, rest);
      SplitEncoded(frames[1..]);
      SplitShift(whole, |frame| + 2, 0);
      assert whole[|frame| + 2..] == rest && whole[0..|frame|] == frame;
      assert frames == [frame] + frames[1..];
    }
  }

  lemma FrameEndsAtDelimiter(frame: Bytes, rest: Bytes)
    requires Closed(frame)
    ensures NextBoundary(frame + [LF, LF] + rest, 0) == Some(Boundary(|frame|, 2))
  {
    var framed := frame + [LF, LF];
    forall i: nat | i < |frame| ensures DelimiterAt(framed + rest, i) == 0 {
      assert DelimiterAt(framed, |frame|) == 2;
      StillClear(framed, rest, i, |frame|);
    }
    SkipClear(framed + rest, 0, |frame|);
    assert DelimiterAt(framed + rest, |frame|) == 2;
  }

  /** Written as a line, `s` is read back as one: it holds no LF and, unless it
      is the last line, its end is not taken for a CRLF. */
  predicate OneLine(s: string, last: bool) {
    '\n' !in s && (last || s == [] || s[|s| - 1] != '\r')
  }

  lemma {:induction false} IndexOfFirst(a: string, b: string, c: char)
    requires c !in a
    ensures IndexOf(a + [c] + b, c) == Some(|a|)
  {
    if a == [] {
      assert a + [c] + b == [c] + b;
    } else {
      IndexOfFirst(a[1..], b, c);
      assert (a + [c] + b)[1..] == a[1..] + [c] + b;
    }
  }

  lemma {:induction false} LinesOfJoin(lines: seq<string>)
    requires |lines| > 0 && lines[|lines| - 1] != []
    requires forall k :: 0 <= k < |lines| ==> OneLine(lines[k], k == |lines| - 1)
    ensures Lines(Join(lines, "\n")) == lines
    decreases |lines|
  {
    var first := lines[0];
    if |lines| == 1 {
      assert IndexOf(first, '\n').None?;
    } else {
      var rest := Join(lines[1..], "\n");
      var text := first + "\n" + rest;
      LinesOfJoin(lines[1..]);
      IndexOfFirst(first, rest, '\n');
      assert text[..|first|] == first && text[|first| + 1..] == rest;
      assert first != [] ==> text[|first| - 1] == first[|first| - 1];
      assert Lines(text) == [first] + Lines(rest);
      assert lines == [first] + lines[1..];
    }
  }

  function DataLines(data: seq<string>): seq<string> {
    seq(|data|, i requires 0 <= i < |data| => "data:" + data[i])
  }

  /** How a server writes an event that the decoder is to read back. */
  function Render(event: SseEvent, data: seq<string>): string {
    Join((if event.event.Some? then ["event:" + event.event.value] else []) + DataLines(data), "\n")
  }

  predicate Readable(s: string, last: bool) {
    OneLine(s, last) && (s == [] || !IsWhite(s[0]))
  }

  lemma {:induction false} ReadDataLines(fields: Fields, data: seq<string>)
    requires forall k :: 0 <= k < |data| ==> Readable(data[k], k == |data| - 1)
    ensures ReadAll(fields, DataLines(data)) == fields.(data := fields.data + data)
    decreases |data|
  {
    if data == [] {
      assert fields.data + data == fields.data;
    } else {
      var line := "data:" + data[0];
      assert DataLines(data)[0] == line && DataLines(data)[1..] == DataLines(data[1..]);
      assert line[5..] == data[0] && line[0] == 'd';
      assert StripPrefix(line, "event:").None?;
      assert TrimStart(data[0]) == data[0];
      ReadDataLines(fields.(data := fields.data + [data[0]]), data[1..]);
      assert fields.data + [data[0]] + data[1..] == fields.data + data;
    }
  }

  /** A rendered event parses back, whatever its optional name and data lines;
      a CR is lost only just before an LF. */
  lemma ParseRendered(event: SseEvent, data: seq<string>)
    requires data != [] && event.data == Join(data, "\n")
    requires event.event.Some? ==> Readable(event.event.value, false)
    requires forall k :: 0 <= k < |data| ==> Readable(data[k], k == |data| - 1)
    ensures ParseFrame(Render(event, data)) == Some(event)
  {
    var name := if event.event.Some? then ["event:" + event.event.value] else [];
    LinesOfRendered(event, data);
    assert [] + data == data;
    if event.event.Some? {
      ReadNameLine(event.event.value);
      assert (name + DataLines(data))[1..] == DataLines(data);
      ReadDataLines(Fields(event.event, []), data);
    } else {
      assert name + DataLines(data) == DataLines(data);
      ReadDataLines(Fields(None, []), data);
    }
  }

  lemma ReadNameLine(name: string)
    requires Readable(name, false)
    ensures Read(Fields(None, []), "event:" + name) == Fields(Some(name), [])
  {
    assert ("event:" + name)[6..] == name;
    assert TrimStart(name) == name;
  }

  lemma LinesOfRendered(event: SseEvent, data: seq<string>)
    requires data != []
    requires event.event.Some? ==> Readable(event.event.value, false)
    requires forall k :: 0 <= k < |data| ==> Readable(data[k], k == |data| - 1)
    ensures Lines(Render(event, data)) ==
      (if event.event.Some? then ["event:" + event.event.value] else []) + DataLines(data)
  {
    var name := if event.event.Some? then ["event:" + event.event.value] else [];
    var lines := name + DataLines(data);
    forall k | 0 <= k < |lines| ensures OneLine(lines[k], k == |lines| - 1) {
      if k >= |name| {
        assert lines[k] == "data:" + data[k - |name|];
      }
    }
    assert lines[|lines| - 1] == "data:" + data[|data| - 1];
    LinesOfJoin(lines);
  }
}
