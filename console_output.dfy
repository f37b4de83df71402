/**
 * The console sink the report goes to (SafeConsoleWriter): coloured chunks of text,
 * grouped in batches that are queued whole and written out in queue order.
 */
module ConsoleOutput {
  import opened Wrappers

  /** System.ConsoleColor. */
  datatype Color =
    | Black | DarkBlue | DarkGreen | DarkCyan | DarkRed | DarkMagenta | DarkYellow | Gray
    | DarkGray | Blue | Green | Cyan | Red | Magenta | Yellow | White

  /** ConsoleChunk: a piece of text and the colours to write it in (None keeps the current one). */
  datatype Chunk = Chunk(text: string, fg: Option<Color>, bg: Option<Color>)

  /** A plain chunk, written in the console's current colours. */
  function Plain(text: string): Chunk {
    Chunk(text, None, None)
  }

  /** One report: the chunks a producer hands over in a single call. */
  type Batch = seq<Chunk>

  /** The writer's queue of batches. The background thread that drains it to the console is
      not modelled: the queue is the observable output, one batch after another. */
  class ConsoleWriter {
    var batches: seq<Batch>

    constructor ()
      ensures batches == []
    {
      batches := [];
    }

    /** EnqueueChunks: the batch is copied and queued as one unit behind the earlier ones. */
    method EnqueueChunks(chunks: Batch)
      modifies this
      ensures batches == old(batches) + [chunks]
    {
      batches := batches + [chunks];
    }
  }
}
