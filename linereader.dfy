/** A buffered reader over a response body, read line by line. */
module LineReader {
  import opened Common
  import opened GoValue

  /** The body of a response as the buffered reader delivers it: the lines
      that end in a newline, then what is left after the last newline. */
  datatype Source = Source(lines: seq<string>, tail: string)

  /** The line the reader hands back at a position: a full line, then the
      tail together with `io.EOF`, then nothing but `io.EOF`. */
  function ReadAt(src: Source, pos: nat): string
  {
    if pos < |src.lines| then src.lines[pos] else if pos == |src.lines| then src.tail else ""
  }

  /** The reader's position after a read. */
  function NextPos(src: Source, pos: nat): nat
  {
    if pos <= |src.lines| then pos + 1 else pos
  }

  /** A body as the reader delivers it: the text split at each newline,
      the piece after the last newline being the tail. */
  function Lines(body: string): (r: Source)
    ensures Join(r.lines + [r.tail], "\n") == body
  {
    var parts := Split(body, '\n');
    assert parts == parts[..|parts| - 1] + [parts[|parts| - 1]];
    Source(parts[..|parts| - 1], parts[|parts| - 1])
  }

  /** A reply to a streaming request: the status, the body read whole
      (or the read error), and the body as a stream. */
  datatype HttpReply = HttpReply(status: int, body: Result<string, GoError>, stream: Source)
}
