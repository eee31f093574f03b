/**
 * The PortAudio (pyaudio / pyaudiowpatch) objects the Windows capture code
 * handles: device-information records, the arguments of PyAudio.open, and
 * an open input stream.
 */
module PortAudio {
  import opened Pcm
  import opened Capture

  /** The dictionary get_device_info_by_index and the loopback generator yield. */
  datatype DeviceInfo = DeviceInfo(
    index: int,
    name: string,
    hostApi: int,
    maxInputChannels: nat,
    maxOutputChannels: nat,
    defaultSampleRate: real,
    isLoopbackDevice: bool)

  datatype SampleFormat = PaInt16

  /** The keyword arguments of PyAudio.open. */
  datatype OpenParams = OpenParams(
    format: SampleFormat,
    channels: nat,
    rate: int,
    input: bool,
    inputDeviceIndex: int,
    framesPerBuffer: nat,
    asLoopback: bool)

  /** An input stream returned by PyAudio.open: the bytes it has yet to deliver. */
  class CaptureStream {
    const params: OpenParams
    var pending: seq<byte>
    var active: bool
    var closed: bool

    /** PyAudio.open(**params) on a device that will capture `captured`. */
    constructor Open(params: OpenParams, captured: seq<byte>)
      ensures this.params == params && pending == captured && active && !closed
    {
      this.params := params;
      pending := captured;
      active := true;
      closed := false;
    }

    /** Bytes in `frames` frames of int16 samples on every channel. */
    function FrameBytes(frames: nat): nat
    {
      ChunkBytes(frames, params.channels)
    }

    /** read(frames) */
    method Read(frames: nat) returns (data: seq<byte>)
      modifies this
      ensures data == Take(old(pending), FrameBytes(frames)) && pending == Drop(old(pending), FrameBytes(frames))
      ensures active == old(active) && closed == old(closed)
    {
      data := Take(pending, FrameBytes(frames));
      pending := Drop(pending, FrameBytes(frames));
    }

    /** stop_stream() */
    method StopStream()
      modifies this
      ensures !active && closed == old(closed) && pending == old(pending)
    {
      active := false;
    }

    /** close() */
    method Close()
      modifies this
      ensures closed && active == old(active) && pending == old(pending)
    {
      closed := true;
    }
  }
}
