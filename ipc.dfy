/**
  The Arrow IPC stream as a sequence of frames: a schema message first, then
  record batch messages, then the end-of-stream marker. The byte encoding of
  each frame is not part of this model.
 */
module IpcStream {
  import opened Wrappers
  import opened Errors
  import opened ArrowSchema
  import opened ArrowArrays

  datatype Frame =
    | SchemaMessage(schema: Schema)
    | RecordBatchMessage(batch: RecordBatch)
    | EndOfStream

  /** The output the stream is written to; here it never fails. */
  class Sink {
    var frames: seq<Frame>

    constructor ()
      ensures frames == []
    {
      frames := [];
    }

    method Put(f: Frame)
      modifies this
      ensures frames == old(frames) + [f]
    {
      frames := frames + [f];
    }
  }

  /** A stream writer over a sink; once finished it refuses further frames. */
  class StreamWriter {
    const sink: Sink
    const schema: Schema
    var finished: bool

    /** Opening the stream writes the schema message at once. */
    constructor TryNew(sink: Sink, schema: Schema)
      modifies sink
      ensures this.sink == sink && this.schema == schema && !finished
      ensures sink.frames == old(sink.frames) + [SchemaMessage(schema)]
    {
      this.sink := sink;
      this.schema := schema;
      finished := false;
      new;
      sink.Put(SchemaMessage(schema));
    }

    method Write(batch: RecordBatch) returns (r: Result<(), Error>)
      modifies sink
      ensures r.Ok? <==> !finished
      ensures r.Err? ==> r.error == StreamClosed
      ensures sink.frames == old(sink.frames) + (if r.Ok? then [RecordBatchMessage(batch)] else [])
    {
      if finished {
        return Err(StreamClosed);
      }
      sink.Put(RecordBatchMessage(batch));
      r := Ok(());
    }

    /** Writes the end-of-stream marker; a second Finish is an error. */
    method Finish() returns (r: Result<(), Error>)
      modifies this, sink
      ensures r.Ok? <==> !old(finished)
      ensures r.Err? ==> r.error == StreamClosed
      ensures finished
      ensures sink.frames == old(sink.frames) + (if r.Ok? then [EndOfStream] else [])
    {
      if finished {
        return Err(StreamClosed);
      }
      sink.Put(EndOfStream);
      finished := true;
      r := Ok(());
    }
  }
}
