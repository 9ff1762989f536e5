/** What one frame of a server-sent-event stream means (`parse_sse_frame` in
    `src/provider/openai.rs`). */
module SseFrames {
  import opened Wrappers
  import opened SseDecoding

  const EVENT := "event:"
  const DATA := "data:"

  /** The values of the `data:` lines. */
  function DataOf(lines: seq<string>): seq<string> {
    if lines == [] then []
    else
      var n := |lines| - 1;
      DataOf(lines[..n]) + (if DATA <= lines[n] then [TrimStart(lines[n][|DATA|..])] else [])
  }

  /** The value of the last `event:` line. */
  function EventOf(lines: seq<string>): Option<string> {
    if lines == [] then None
    else
      var n := |lines| - 1;
      if EVENT <= lines[n] then Some(TrimStart(lines[n][|EVENT|..])) else EventOf(lines[..n])
  }

  lemma NotBoth(line: string)
    ensures EVENT <= line ==> !(DATA <= line)
  {
    if EVENT <= line {
      assert line[0] == 'e';
    }
  }

  lemma {:induction false} ReadAllSnoc(fields: Fields, lines: seq<string>, line: string)
    ensures ReadAll(fields, lines + [line]) == Read(ReadAll(fields, lines), line)
    decreases |lines|
  {
    if lines == [] {
      assert lines + [line] == [line] && [line][1..] == [];
    } else {
      assert (lines + [line])[1..] == lines[1..] + [line];
      ReadAllSnoc(Read(fields, lines[0]), lines[1..], line);
    }
  }

  lemma {:induction false} ReadAllIs(lines: seq<string>)
    ensures ReadAll(Fields(None, []), lines) == Fields(EventOf(lines), DataOf(lines))
  {
    if lines != [] {
      var n := |lines| - 1;
      ReadAllIs(lines[..n]);
      ReadAllSnoc(Fields(None, []), lines[..n], lines[n]);
      assert lines[..n] + [lines[n]] == lines;
      NotBoth(lines[n]);
    }
  }

  /** A frame means its last `event:` line and its `data:` lines, in order; all
      other lines, such as comments, change nothing. */
  lemma FrameMeans(text: string)
    ensures var lines := Lines(text);
      ParseFrame(text) == if DataOf(lines) == [] then None else Some(SseEvent(EventOf(lines), Join(DataOf(lines), "\n")))
  {
    ReadAllIs(Lines(text));
  }
}
