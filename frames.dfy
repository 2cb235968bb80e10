/**
  The interface between a decoder and the capture host: the events the host delivers for one
  chip-select window and the annotated frame a decoder hands back. The host's own classes
  (`AnalyzerFrame`, `HighLevelAnalyzer`) are replaced by these values.
*/
module Frames {
  import opened Options
  import opened Bytes

  /** Capture timestamps are opaque to the decoders: they are only copied into frames. */
  type Time = int

  /** One buffered byte with the times of the host frame that carried it, `(start_time, end_time, byte)`. */
  datatype Timed = Timed(start: Time, end: Time, value: byte)

  /** The host's frames: chip select asserted, one byte transferred on each wire (either may be
      missing), chip select released, or any other frame type the decoders ignore. */
  datatype Event =
    | Enable(start: Time)
    | Transfer(start: Time, end: Time, mosi: Option<byte>, miso: Option<byte>)
    | Disable
    | Other

  /** The data dictionary of an output frame: empty, or `{"data": value}` where value may be Python's None. */
  datatype Fields = NoFields | DataField(data: Option<string>)

  datatype Frame = Frame(text: string, start: Time, end: Time, fields: Fields)

  /** Python exceptions a decoder can raise. */
  datatype PyError = TypeError | ValueError | AttributeError

  /** What one call of `decode` does: returns None, returns a frame, or raises. */
  datatype Outcome = NoFrame | Emit(frame: Frame) | Raise(error: PyError)

  /** `[b for (_, _, b) in buffer]`. */
  function Values(buffer: seq<Timed>): (r: seq<byte>)
    ensures |r| == |buffer|
    ensures forall i :: 0 <= i < |buffer| ==> r[i] == buffer[i].value
  {
    seq(|buffer|, i requires 0 <= i < |buffer| => buffer[i].value)
  }

  /** `frame_start_time or buffer[0][0]`: the window's recorded start, else the first byte's start. */
  function StartTime(recorded: Option<Time>, buffer: seq<Timed>): Time
    requires buffer != []
  {
    if recorded.Some? then recorded.value else buffer[0].start
  }

  /** `buffer[-1][1]`. */
  function EndTime(buffer: seq<Timed>): Time
    requires buffer != []
  {
    buffer[|buffer| - 1].end
  }
}
