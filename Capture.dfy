/**
 * What the two capture back ends share: the errors their methods raise, and
 * a byte stream read in fixed-size requests (a pipe's stdout.read(n), a
 * capture stream's read(frames)), which return fewer bytes only at the end.
 */
module Capture {
  import opened Wrappers
  import opened Pcm

  datatype StreamError =
    | AlreadyRunning                  // Warning("Stream is already running")
    | NotRunning                      // Exception("Stream is not running")
    | MonitorNotFound                 // Warning("Could not find the monitor source for the default sink.")
    | SinkLineIndexError(line: nat)   // parts[1] on a sink line with fewer than two fields
    | WasapiUnavailable               // Exception("Could not find WASAPI host API")
    | InvalidDeviceIndex(index: int)  // get_device_info_by_index on an unknown index
    | LoopbackNotFound                // Exception("Could not find Loopback Device")
    | Decode(cause: DecodeError)      // np.frombuffer / reshape on the bytes read

  /** Bytes in `frames` frames of `channels` two-byte samples. */
  function ChunkBytes(frames: nat, channels: nat): nat
  {
    frames * channels * 2
  }

  /** The bytes one read(n) returns from stream s. */
  function Take(s: seq<byte>, n: nat): (t: seq<byte>)
    ensures |t| == Min(n, |s|)
  {
    s[..Min(n, |s|)]
  }

  /** What stream s still holds after one read(n). */
  function Drop(s: seq<byte>, n: nat): (t: seq<byte>)
    ensures Take(s, n) + t == s
  {
    s[Min(n, |s|)..]
  }

  /** What is left of `source` after i reads of n bytes each. */
  function AfterReads(source: seq<byte>, n: nat, i: nat): seq<byte>
  {
    if i == 0 then source else Drop(AfterReads(source, n, i - 1), n)
  }

  /** The bytes returned by read number i (counting from 0) of n bytes each. */
  function NthRead(source: seq<byte>, n: nat, i: nat): seq<byte>
  {
    Take(AfterReads(source, n, i), n)
  }

  /** The bytes of the first k reads, in order. */
  function ConcatReads(source: seq<byte>, n: nat, k: nat): seq<byte>
  {
    if k == 0 then [] else ConcatReads(source, n, k - 1) + NthRead(source, n, k - 1)
  }

  /** The first k reads, followed by what is left, are the whole stream, unmodified. */
  lemma {:induction false} ConcatReadsThenRest(source: seq<byte>, n: nat, k: nat)
    ensures ConcatReads(source, n, k) + AfterReads(source, n, k) == source
  {
    if k > 0 {
      ConcatReadsThenRest(source, n, k - 1);
      var rest := AfterReads(source, n, k - 1);
      assert Take(rest, n) + Drop(rest, n) == rest;
    }
  }

  /** With n > 0 a read returns nothing exactly when the stream is exhausted. */
  lemma EmptyReadMeansExhausted(s: seq<byte>, n: nat)
    requires n > 0
    ensures Take(s, n) == [] <==> s == []
  {
  }

  /** The frame numpy makes of the bytes a read returned, or the error it raises. */
  function DecodeRead(bytes: seq<byte>, channels: nat): (r: Result<Frame, StreamError>)
    ensures r.Success? <==> FromBuffer(bytes, channels).Success?
    ensures r.Success? ==> r.value == FromBuffer(bytes, channels).value
    ensures r.Failure? ==> r.error == Decode(FromBuffer(bytes, channels).error)
  {
    match FromBuffer(bytes, channels)
    case Success(frame) => Success(frame)
    case Failure(e) => Failure(Decode(e))
  }
}
