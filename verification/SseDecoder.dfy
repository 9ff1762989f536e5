/** The incremental server-sent-event decoder (`SseDecoder` in
    `src/provider/openai.rs`): section 9.2.6 of the WHATWG HTML standard in a
    narrower form, where only LF LF and CRLF CRLF end a frame. */
module SseDecoding {
  import opened Wrappers
  import opened Sequences

  type Byte = x: int | 0 <= x < 256
  type Bytes = seq<Byte>

  const CR: Byte := 13
  const LF: Byte := 10

  // ----------------------------------------------------------- splitting once

  /** The length of the frame delimiter at `i`, or zero. */
  function DelimiterAt(b: Bytes, i: nat): nat {
    if i + 4 <= |b| && b[i] == CR && b[i + 1] == LF && b[i + 2] == CR && b[i + 3] == LF then 4
    else if i + 2 <= |b| && b[i] == LF && b[i + 1] == LF then 2
    else 0
  }

  datatype Boundary = Boundary(position: nat, length: nat)

  /** The first delimiter at or after `start`. */
  function NextBoundary(b: Bytes, start: nat): (r: Option<Boundary>)
    requires start <= |b|
    ensures r.Some? ==> start <= r.value.position < r.value.position + r.value.length <= |b|
    decreases |b| - start
  {
    if start == |b| then None
    else if DelimiterAt(b, start) > 0 then Some(Boundary(start, DelimiterAt(b, start)))
    else NextBoundary(b, start + 1)
  }

  datatype Frames = Frames(complete: seq<Bytes>, tail: Bytes)

  /** It is a delimiter, and there is none before it. */
  lemma {:induction false} BoundaryIsFirst(b: Bytes, start: nat)
    requires start <= |b|
    ensures var r := NextBoundary(b, start);
      && (r.Some? ==> r.value.length == DelimiterAt(b, r.value.position))
      && (forall i: nat :: start <= i && (r.Some? ==> i < r.value.position) ==> DelimiterAt(b, i) == 0)
    decreases |b| - start
  {
    if start < |b| && DelimiterAt(b, start) == 0 {
      BoundaryIsFirst(b, start + 1);
    }
  }

  /** The frames delimited from `start` on, then what is left of `b`. */
  function SplitFrom(b: Bytes, start: nat): Frames
    requires start <= |b|
    decreases |b| - start
  {
    match NextBoundary(b, start)
    case None => Frames([], b[start..])
    case Some(found) =>
      var rest := SplitFrom(b, found.position + found.length);
      Frames([b[start..found.position]] + rest.complete, rest.tail)
  }

  /** One-shot splitting of the whole input. */
  function Split(b: Bytes): Frames {
    SplitFrom(b, 0)
  }

  /** No frame is longer than `max`. */
  predicate Fit(frames: seq<Bytes>, max: nat) {
    frames == [] || (|frames[|frames| - 1]| <= max && Fit(frames[..|frames| - 1], max))
  }

  lemma {:induction false} FitsIff(frames: seq<Bytes>, max: nat)
    ensures Fit(frames, max) <==> forall k :: 0 <= k < |frames| ==> |frames[k]| <= max
  {
    if frames != [] {
      FitsIff(frames[..|frames| - 1], max);
    }
  }

  // -------------------------------------------------------- parsing one frame

  datatype SseEvent = SseEvent(event: Option<string>, data: string)

  /** The Unicode White_Space property, which `trim_start` goes by. */
  predicate IsWhite(c: char) {
    var n := c as int;
    9 <= n <= 13 || n == 0x20 || n == 0x85 || n == 0xA0 || n == 0x1680 || 0x2000 <= n <= 0x200A
    || n == 0x2028 || n == 0x2029 || n == 0x202F || n == 0x205F || n == 0x3000
  }

  function TrimStart(s: string): string {
    if s != [] && IsWhite(s[0]) then TrimStart(s[1..]) else s
  }

  function IndexOf(s: string, c: char): (r: Option<nat>)
    ensures r.Some? ==> r.value < |s| && s[r.value] == c && c !in s[..r.value]
    ensures r.None? <==> c !in s
  {
    if s == [] then None
    else if s[0] == c then Some(0)
    else match IndexOf(s[1..], c) case None => None case Some(i) => Some(i + 1)
  }

  /** `str::lines`: a terminated line loses its LF and one CR before it. */
  function Lines(s: string): seq<string>
    decreases |s|
  {
    if s == [] then []
    else match IndexOf(s, '\n')
      case None => [s]
      case Some(i) =>
        var line := if i > 0 && s[i - 1] == '\r' then s[..i - 1] else s[..i];
        [line] + Lines(s[i + 1..])
  }

  function StripPrefix(s: string, prefix: string): Option<string> {
    if prefix <= s then Some(s[|prefix|..]) else None
  }

  function Join(parts: seq<string>, separator: string): string {
    if parts == [] then []
    else if |parts| == 1 then parts[0]
    else parts[0] + separator + Join(parts[1..], separator)
  }

  datatype Fields = Fields(event: Option<string>, data: seq<string>)

  function Read(fields: Fields, line: string): Fields {
    match StripPrefix(line, "event:")
    case Some(value) => fields.(event := Some(TrimStart(value)))
    case None =>
      match StripPrefix(line, "data:")
      case Some(value) => fields.(data := fields.data + [TrimStart(value)])
      case None => fields
  }

  function ReadAll(fields: Fields, lines: seq<string>): Fields
    decreases |lines|
  {
    if lines == [] then fields else ReadAll(Read(fields, lines[0]), lines[1..])
  }

  function ParseFrame(text: string): Option<SseEvent> {
    var fields := ReadAll(Fields(None, []), Lines(text));
    if fields.data == [] then None else Some(SseEvent(fields.event, Join(fields.data, "\n")))
  }

  /** Events of `frames`; `decode` stands for `String::from_utf8_lossy`. */
  function Events(decode: Bytes -> string, frames: seq<Bytes>): seq<SseEvent> {
    if frames == [] then []
    else
      var last := ParseFrame(decode(frames[|frames| - 1]));
      Events(decode, frames[..|frames| - 1]) + (if last.Some? then [last.value] else [])
  }

  // ----------------------------------------------------------- implementation

  datatype SseDecodeError = FrameTooLarge | BufferTooLarge

  /** What one push delivers from a buffer without a complete frame. */
  function Pushed(buffer: Bytes, chunk: Bytes, maxFrame: nat, maxBuffer: nat): Result<Frames, SseDecodeError> {
    var split := Split(buffer + chunk);
    if |buffer| + |chunk| > maxBuffer then Err(BufferTooLarge)
    else if !Fit(split.complete, maxFrame) then Err(FrameTooLarge)
    else Ok(split)
  }

  /** Steps an index over `buffer`; `inspected` counts the positions looked at. */
  method FindEventBoundary(buffer: Bytes, start: nat) returns (r: Option<Boundary>, ghost inspected: nat)
    requires start <= |buffer|
    ensures r == NextBoundary(buffer, start)
    ensures inspected == if r.Some? then r.value.position + 1 - start else |buffer| - start
  {
    var position := start;
    inspected := 0;
    while position < |buffer|
      invariant start <= position <= |buffer|
      invariant inspected == position - start
      invariant NextBoundary(buffer, start) == NextBoundary(buffer, position)
    {
      inspected := inspected + 1;
      if position + 4 <= |buffer| && buffer[position..position + 4] == [CR, LF, CR, LF] {
        return Some(Boundary(position, 4)), inspected;
      }
      if position + 2 <= |buffer| && buffer[position..position + 2] == [LF, LF] {
        return Some(Boundary(position, 2)), inspected;
      }
      position := position + 1;
    }
    r := None;
  }

  method ParseSseFrame(text: string) returns (r: Option<SseEvent>)
    ensures r == ParseFrame(text)
  {
    var event: Option<string> := None;
    var data: seq<string> := [];
    var lines := Lines(text);
    for i := 0 to |lines|
      invariant ReadAll(Fields(event, data), lines[i..]) == ReadAll(Fields(None, []), lines)
    {
      assert lines[i..][1..] == lines[i + 1..];
      var name := StripPrefix(lines[i], "event:");
      if name.Some? {
        event := Some(TrimStart(name.value));
      } else {
        var value := StripPrefix(lines[i], "data:");
        if value.Some? {
          data := data + [TrimStart(value.value)];
        }
      }
    }
    r := if data == [] then None else Some(SseEvent(event, Join(data, "\n")));
  }

  /** Appends the event of `frame`, if it carries any data. */
  method Deliver(decode: Bytes -> string, events: seq<SseEvent>, frame: Bytes, ghost done: seq<Bytes>)
    returns (r: seq<SseEvent>)
    requires events == Events(decode, done)
    ensures r == Events(decode, done + [frame])
  {
    var event := ParseSseFrame(decode(frame));
    r := if event.Some? then events + [event.value] else events;
    assert (done + [frame])[..|done|] == done;
  }

  /** The loop of `try_push` after the frames `done`. */
  ghost predicate Drained(decode: Bytes -> string, b: Bytes, done: seq<Bytes>, events: seq<SseEvent>, consumed: nat, scan: nat, max: nat) {
    Progress(b, done, consumed, scan) && events == Events(decode, done) && Fit(done, max)
  }

  /** Takes the frame before a delimiter. */
  method TakeNext(decode: Bytes -> string, b: Bytes, events: seq<SseEvent>, consumed: nat, boundary: Boundary, maxFrame: nat,
                  ghost done: seq<Bytes>, ghost scan: nat)
    returns (r: seq<SseEvent>, next: nat)
    requires Drained(decode, b, done, events, consumed, scan, maxFrame) && NextBoundary(b, scan) == Some(boundary)
    requires boundary.position - consumed <= maxFrame
    ensures consumed <= boundary.position < next == boundary.position + boundary.length <= |b|
    ensures Drained(decode, b, done + [b[consumed..boundary.position]], r, next, next, maxFrame)
  {
    TakeFrame(b, done, consumed, scan, boundary.position, boundary.length, maxFrame);
    r := Deliver(decode, events, b[consumed..boundary.position], done);
    next := boundary.position + boundary.length;
  }

  /** The loop of `try_push`: takes complete frames off the front of `b`. */
  method Drain(decode: Bytes -> string, b: Bytes, scan: nat, maxFrame: nat)
    returns (r: Result<seq<SseEvent>, SseDecodeError>, consumed: nat, scanPos: nat, ghost inspected: nat)
    requires Progress(b, [], 0, scan)
    ensures r.Ok? <==> Fit(Split(b).complete, maxFrame)
    ensures r == Err(FrameTooLarge) || r == Ok(Events(decode, Split(b).complete))
    ensures r.Ok? ==> Ended(b, consumed, scanPos)
    ensures inspected <= |b| - scan
  {
    consumed, scanPos := 0, scan;
    var events: seq<SseEvent> := [];
    ghost var done: seq<Bytes> := [];
    var next, cost := FindEventBoundary(b, scanPos);
    inspected := cost;
    while next.Some?
      invariant Drained(decode, b, done, events, consumed, scanPos, maxFrame) && scan <= scanPos
      invariant next == NextBoundary(b, scanPos)
      invariant inspected <= (if next.Some? then next.value.position + 1 else |b|) - scan
      decreases |b| - consumed, next.Some?
    {
      var Boundary(position, length) := next.value;
      if position - consumed > maxFrame {
        FrameDoesNotFit(b, done, consumed, scanPos, position, length, maxFrame);
        return Err(FrameTooLarge), consumed, scanPos, inspected;
      }
      ghost var frame := b[consumed..position];
      events, consumed := TakeNext(decode, b, events, consumed, next.value, maxFrame, done, scanPos);
      done, scanPos := done + [frame], consumed;
      next, cost := FindEventBoundary(b, scanPos);
      inspected := inspected + cost;
    }
    ProgressEnd(b, done, consumed, scanPos);
    r := Ok(events);
  }

  /** Everything complete has been taken; the rest of `b` is the new buffer. */
  ghost predicate Ended(b: Bytes, consumed: nat, scan: nat) {
    && consumed <= scan <= |b|
    && (consumed == 0 || scan == consumed)
    && Split(b).tail == b[consumed..]
    && NextBoundary(b[consumed..], 0).None?
  }

  class SseDecoder {
    const decode: Bytes -> string
    var buffer: Bytes
    var scanPos: nat

    constructor (decode: Bytes -> string)
      ensures Valid() && buffer == [] && this.decode == decode
    {
      this.decode := decode;
      buffer, scanPos := [], 0;
    }

    /** No delimiter is buffered, and all but the last three bytes are settled. */
    ghost predicate Valid()
      reads this
    {
      && NextBoundary(buffer, 0).None?
      && scanPos == if |buffer| > 3 then |buffer| - 3 else 0
    }

    method TryPush(chunk: Bytes, maxFrame: nat, maxBuffer: nat)
      returns (r: Result<seq<SseEvent>, SseDecodeError>, ghost inspected: nat)
      requires Valid()
      modifies this
      ensures var spec := Pushed(old(buffer), chunk, maxFrame, maxBuffer);
        match spec
        case Ok(frames) => r == Ok(Events(decode, frames.complete)) && buffer == frames.tail && Valid()
        case Err(error) => r == Err(error)
      ensures inspected <= |chunk| + 3
    {
      inspected := 0;
      if |chunk| > maxBuffer || |buffer| + |chunk| > maxBuffer {
        return Err(BufferTooLarge), inspected;
      }
      ProgressStart(buffer, chunk, scanPos);
      buffer := buffer + chunk;
      var drained, consumed, scanned, cost := Drain(decode, buffer, scanPos, maxFrame);
      inspected := cost;
      if drained.Err? {
        return drained, inspected;
      }
      scanPos := scanned;
      if consumed > 0 {
        scanPos := if |buffer| > 3 && |buffer| - 3 > scanPos then |buffer| - 3 else scanPos;
        buffer := buffer[consumed..];
        scanPos := scanPos - consumed;
      } else {
        scanPos := if |buffer| > 3 then |buffer| - 3 else 0;
      }
      if |buffer| > maxBuffer {
        assert false; // the buffer only shrank since it was checked
      }
      r := drained;
    }
  }

  /** Where a push stands: the frames `done` precede `consumed`, and nothing
      between there and `scan` was missed. */
  ghost predicate Progress(b: Bytes, done: seq<Bytes>, consumed: nat, scan: nat) {
    && consumed <= scan <= |b|
    && (consumed == 0 || scan == consumed)
    && NextBoundary(b, consumed) == NextBoundary(b, scan)
    && done + SplitFrom(b, consumed).complete == Split(b).complete
    && SplitFrom(b, consumed).tail == Split(b).tail
  }

  lemma ProgressStart(b: Bytes, chunk: Bytes, n: nat)
    requires NextBoundary(b, 0).None? && (n == 0 || n + 3 <= |b|)
    ensures Progress(b + chunk, [], 0, n)
  {
    BoundaryIsFirst(b, 0);
    forall i: nat | i < n ensures DelimiterAt(b + chunk, i) == 0 {
      assert DelimiterAt(b, i) == 0;
    }
    SkipClear(b + chunk, 0, n);
  }

  lemma SkipClear(b: Bytes, start: nat, n: nat)
    requires start <= n <= |b| && forall i: nat :: start <= i < n ==> DelimiterAt(b, i) == 0
    ensures NextBoundary(b, start) == NextBoundary(b, n)
    decreases n - start
  {
    if start < n {
      SkipClear(b, start + 1, n);
    }
  }

  lemma ProgressStep(b: Bytes, done: seq<Bytes>, consumed: nat, scan: nat, p: nat, d: nat)
    requires Progress(b, done, consumed, scan) && NextBoundary(b, scan) == Some(Boundary(p, d))
    ensures Progress(b, done + [b[consumed..p]], p + d, p + d)
    ensures done + [b[consumed..p]] <= Split(b).complete
  {
    Assoc(done, [b[consumed..p]], SplitFrom(b, p + d).complete);
  }

  lemma FrameDoesNotFit(b: Bytes, done: seq<Bytes>, consumed: nat, scan: nat, p: nat, d: nat, max: nat)
    requires Progress(b, done, consumed, scan) && NextBoundary(b, scan) == Some(Boundary(p, d))
    requires p - consumed > max
    ensures !Fit(Split(b).complete, max)
  {
    ProgressStep(b, done, consumed, scan, p, d);
    FitsIff(Split(b).complete, max);
    assert Split(b).complete[|done|] == b[consumed..p];
  }

  lemma TakeFrame(b: Bytes, done: seq<Bytes>, consumed: nat, scan: nat, p: nat, d: nat, max: nat)
    requires Progress(b, done, consumed, scan) && NextBoundary(b, scan) == Some(Boundary(p, d))
    requires Fit(done, max) && p - consumed <= max
    ensures Progress(b, done + [b[consumed..p]], p + d, p + d)
    ensures Fit(done + [b[consumed..p]], max)
  {
    ProgressStep(b, done, consumed, scan, p, d);
    assert (done + [b[consumed..p]])[..|done|] == done;
  }

  lemma ProgressEnd(b: Bytes, done: seq<Bytes>, consumed: nat, scan: nat)
    requires Progress(b, done, consumed, scan) && NextBoundary(b, scan).None?
    ensures Split(b).complete == done && Ended(b, consumed, scan)
  {
    assert done + [] == done;
    BoundaryShift(b, consumed, 0);
  }

  lemma DelimiterShift(b: Bytes, d: nat, i: nat)
    requires d <= i && d <= |b|
    ensures DelimiterAt(b[d..], i - d) == DelimiterAt(b, i)
  {
  }

  lemma BoundaryShift(b: Bytes, d: nat, start: nat)
    requires d + start <= |b|
    ensures var found := NextBoundary(b, d + start);
      NextBoundary(b[d..], start) ==
        if found.Some? then Some(Boundary(found.value.position - d, found.value.length)) else None
    decreases |b| - start
  {
    if d + start < |b| {
      DelimiterShift(b, d, d + start);
      BoundaryShift(b, d, start + 1);
    }
  }
}
