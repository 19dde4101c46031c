/** The output kept of a command that may print without end (src/PostCmdRunner.cpp): its
    beginning, its end, and how much lies between. */
module OutputCapture {
  import opened Arithmetic

  type byte = bv8

  const HALF_OUTPUT: nat := 2048
  const MAX_OUTPUT: nat := 4096

  function Right(s: seq<byte>, n: nat): seq<byte> { if |s| > n then s[|s| - n..] else s }

  /** The part of the stream that is kept at its start, and what is kept of the rest. */
  function Head(stream: seq<byte>): seq<byte> { stream[..Min(HALF_OUTPUT, |stream|)] }

  function Tail(stream: seq<byte>): seq<byte> { Right(stream[Min(HALF_OUTPUT, |stream|)..], HALF_OUTPUT) }

  lemma TailAppend(stream: seq<byte>, chunk: seq<byte>)
    ensures var consumed := if |stream| < HALF_OUTPUT then Min(|chunk|, HALF_OUTPUT - |stream|) else 0;
            && Head(stream + chunk) == Head(stream) + chunk[..consumed]
            && Tail(stream + chunk) == Right(Tail(stream) + chunk[consumed..], HALF_OUTPUT)
  {
  }

  class BoundedOutput {
    var head: seq<byte>
    var tail: seq<byte>
    var total: nat
    ghost var stream: seq<byte>

    ghost predicate Valid()
      reads this
    {
      head == Head(stream) && tail == Tail(stream) && total == |stream|
    }

    constructor ()
      ensures Valid() && stream == []
    {
      head, tail, total, stream := [], [], 0, [];
    }

    method Clear()
      modifies this
      ensures Valid() && stream == []
    {
      head, tail, total, stream := [], [], 0, [];
    }

    /** However the stream is cut into chunks, what is kept is a function of the stream. */
    method Append(chunk: seq<byte>)
      requires Valid()
      modifies this
      ensures Valid() && stream == old(stream) + chunk
    {
      TailAppend(stream, chunk);
      total := total + |chunk|;
      var consumed := 0;
      if |head| < HALF_OUTPUT {
        consumed := Min(|chunk|, HALF_OUTPUT - |head|);
        head := head + chunk[..consumed];
      }
      if consumed < |chunk| {
        tail := tail + chunk[consumed..];
        if |tail| > HALF_OUTPUT {
          tail := tail[|tail| - HALF_OUTPUT..];
        }
      }
      stream := stream + chunk;
    }

    method Omitted() returns (omitted: int)
      requires Valid()
      ensures omitted == |stream| - |Head(stream)| - |Tail(stream)|
    {
      omitted := total - |head| - |tail|;
    }
  }

  /** What is kept is bounded, and is the stream with exactly one gap of the size reported:
      no byte is lost while the stream fits. */
  lemma KeptIsStreamWithGap(stream: seq<byte>)
    ensures |Head(stream)| == Min(2048, |stream|) && |Tail(stream)| == Min(2048, |stream| - |Head(stream)|)
    ensures |Head(stream)| + |Tail(stream)| <= MAX_OUTPUT
    ensures var omitted := |stream| - |Head(stream)| - |Tail(stream)|;
            && omitted >= 0
            && Head(stream) + stream[|Head(stream)|..|Head(stream)| + omitted] + Tail(stream) == stream
            && (omitted == 0 <==> |stream| <= MAX_OUTPUT)
  {
  }
}
