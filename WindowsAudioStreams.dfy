/**
 * WindowsAudioStream: loopback capture on Windows through pyaudiowpatch, by
 * opening the WASAPI loopback device that mirrors the default output device.
 */
module WindowsAudioStreams {
  import opened Wrappers
  import opened Pcm
  import opened Text
  import opened Capture
  import opened PortAudio

  /**
   * What the PyAudio instance reports: the default output device of the WASAPI
   * host API (None when get_host_api_info_by_type raises OSError), the device
   * table indexed by get_device_info_by_index, and the devices the loopback
   * generator yields, in order.
   */
  datatype WindowsAudio = WindowsAudio(
    wasapiDefaultOutput: Option<int>,
    devices: seq<DeviceInfo>,
    loopbacks: seq<DeviceInfo>)

  /** get_device_info_by_index(i) */
  function DeviceByIndex(audio: WindowsAudio, i: int): (r: Result<DeviceInfo, StreamError>)
    ensures r.Success? <==> 0 <= i < |audio.devices|
    ensures r.Success? ==> r.value == audio.devices[i]
    ensures r.Failure? ==> r.error == InvalidDeviceIndex(i)
  {
    if 0 <= i < |audio.devices| then Success(audio.devices[i]) else Failure(InvalidDeviceIndex(i))
  }

  /** Index of the first loopback device at or after i whose name contains `name`, or |loopbacks|. */
  function FirstNameMatch(name: string, loopbacks: seq<DeviceInfo>, i: nat): (j: nat)
    requires i <= |loopbacks|
    ensures i <= j <= |loopbacks|
    ensures forall k :: i <= k < j ==> !Contains(loopbacks[k].name, name)
    ensures j < |loopbacks| ==> Contains(loopbacks[j].name, name)
    decreases |loopbacks| - i
  {
    if i == |loopbacks| || Contains(loopbacks[i].name, name) then i else FirstNameMatch(name, loopbacks, i + 1)
  }

  /** The device find_loopback_output returns, or what it raises, stated as a specification. */
  function SelectLoopback(audio: WindowsAudio): Result<DeviceInfo, StreamError>
  {
    if audio.wasapiDefaultOutput.None? then Failure(WasapiUnavailable)
    else
      var speakers := DeviceByIndex(audio, audio.wasapiDefaultOutput.value);
      if speakers.Failure? then speakers
      else if speakers.value.isLoopbackDevice then speakers
      else
        var j := FirstNameMatch(speakers.value.name, audio.loopbacks, 0);
        if j == |audio.loopbacks| then Failure(LoopbackNotFound) else Success(audio.loopbacks[j])
  }

  /** The outcomes of the loopback search, each characterised by the device tables. */
  lemma SelectLoopbackCases(audio: WindowsAudio)
    ensures audio.wasapiDefaultOutput.None? ==> SelectLoopback(audio) == Failure(WasapiUnavailable)
    ensures audio.wasapiDefaultOutput.Some? ==>
      var d := audio.wasapiDefaultOutput.value;
      && (!(0 <= d < |audio.devices|) ==> SelectLoopback(audio) == Failure(InvalidDeviceIndex(d)))
      && (0 <= d < |audio.devices| && audio.devices[d].isLoopbackDevice ==>
            SelectLoopback(audio) == Success(audio.devices[d]))
      && (0 <= d < |audio.devices| && !audio.devices[d].isLoopbackDevice ==>
            && ((SelectLoopback(audio) == Failure(LoopbackNotFound)) <==>
                  (forall k :: 0 <= k < |audio.loopbacks| ==> !Contains(audio.loopbacks[k].name, audio.devices[d].name)))
            && (forall j :: 0 <= j < |audio.loopbacks| && Contains(audio.loopbacks[j].name, audio.devices[d].name)
                   && (forall k :: 0 <= k < j ==> !Contains(audio.loopbacks[k].name, audio.devices[d].name))
                   ==> SelectLoopback(audio) == Success(audio.loopbacks[j])))
  {
    if audio.wasapiDefaultOutput.Some? {
      var d := audio.wasapiDefaultOutput.value;
      if 0 <= d < |audio.devices| && !audio.devices[d].isLoopbackDevice {
        var name := audio.devices[d].name;
        var j0 := FirstNameMatch(name, audio.loopbacks, 0);
        forall j | 0 <= j < |audio.loopbacks| && Contains(audio.loopbacks[j].name, name)
            && (forall k :: 0 <= k < j ==> !Contains(audio.loopbacks[k].name, name))
          ensures j == j0
        {
          if j < j0 {
            assert false;
          } else if j > j0 {
            assert false;
          }
        }
      }
    }
  }

  class WindowsAudioStream {
    const os: string
    const chunkSize: nat
    const rate: nat
    const channels: nat
    var stream: CaptureStream?

    ghost var running: bool
    ghost var Repr: set<object>

    ghost predicate Valid()
      reads this, Repr
    {
      && this in Repr
      && os == "windows"
      && running == (stream != null)
      && Repr == {this} + (if stream == null then {} else {stream})
      && (stream != null ==> stream.params.channels == channels && stream.active && !stream.closed)
    }

    /** The bytes the open capture stream has yet to deliver; none when there is no stream. */
    ghost function Pending(): seq<byte>
      reads this, Repr
      requires Valid()
    {
      if stream == null then [] else stream.pending
    }

    /** Bytes per read: chunk_size frames of `channels` two-byte samples. */
    function ReadSize(): nat
    {
      ChunkBytes(chunkSize, channels)
    }

    /** __init__ (the PyAudio instance is the `audio` argument of the methods that use it). */
    constructor (chunkSize: nat := 512, rate: nat := 44100, channels: nat := 2)
      ensures Valid() && fresh(Repr) && !running
      ensures this.chunkSize == chunkSize && this.rate == rate && this.channels == channels
    {
      os := "windows";
      this.chunkSize := chunkSize;
      this.rate := rate;
      this.channels := channels;
      stream := null;
      running := false;
      Repr := {this};
    }

    /**
     * find_loopback_output: the default WASAPI output device when it is a
     * loopback device, else the first loopback device whose name contains its name.
     */
    method FindLoopbackOutput(audio: WindowsAudio) returns (r: Result<DeviceInfo, StreamError>)
      ensures r == SelectLoopback(audio)
    {
      if audio.wasapiDefaultOutput.None? {
        return Failure(WasapiUnavailable);
      }
      var found := DeviceByIndex(audio, audio.wasapiDefaultOutput.value);
      if found.Failure? {
        return found;
      }
      var defaultSpeakers := found.value;
      if !defaultSpeakers.isLoopbackDevice {
        var i := 0;
        var matched := false;
        while i < |audio.loopbacks| && !matched
          invariant 0 <= i <= |audio.loopbacks|
          invariant !matched ==> defaultSpeakers == found.value
          invariant !matched ==> forall k :: 0 <= k < i ==> !Contains(audio.loopbacks[k].name, found.value.name)
          invariant matched ==> 0 < i && defaultSpeakers == audio.loopbacks[i - 1]
                                && FirstNameMatch(found.value.name, audio.loopbacks, 0) == i - 1
          decreases |audio.loopbacks| - i, !matched
        {
          if Contains(audio.loopbacks[i].name, defaultSpeakers.name) {
            defaultSpeakers := audio.loopbacks[i];
            matched := true;
          }
          i := i + 1;
        }
        if !matched {
          return Failure(LoopbackNotFound);
        }
      }
      return Success(defaultSpeakers);
    }

    /** The arguments start_stream passes to PyAudio.open for `device`. */
    function OpenRequest(device: DeviceInfo): (p: OpenParams)
      ensures p.channels == channels && p.framesPerBuffer == chunkSize
      ensures p.rate == TruncToInt(device.defaultSampleRate) && p.inputDeviceIndex == device.index
      ensures p.format == PaInt16 && p.input && !p.asLoopback
    {
      OpenParams(PaInt16, channels, TruncToInt(device.defaultSampleRate), true, device.index, chunkSize, false)
    }

    /**
     * start_stream: opens the loopback device found by find_loopback_output
     * (which will capture `captured`) and keeps it in `stream`. There is no
     * guard against a running stream: it is replaced and left open.
     */
    method StartStream(audio: WindowsAudio, captured: seq<byte>) returns (r: Outcome<StreamError>)
      requires Valid()
      modifies this
      ensures Valid() && fresh(Repr - old(Repr))
      ensures SelectLoopback(audio).Failure? ==>
        r == Fail(SelectLoopback(audio).error) && stream == old(stream) && running == old(running)
      ensures SelectLoopback(audio).Success? ==>
        && r == Pass && running && fresh(stream)
        && stream.params == OpenRequest(SelectLoopback(audio).value)
        && stream.pending == captured
      ensures old(stream) != null ==> old(stream).active && !old(stream).closed
    {
      var deviceInfo := FindLoopbackOutput(audio);
      if deviceInfo.Failure? {
        return Fail(deviceInfo.error);
      }
      var d := deviceInfo.value;
      // computed as in the source, and not passed to open
      var channelCount := if d.maxOutputChannels < d.maxInputChannels then d.maxInputChannels else d.maxOutputChannels;
      stream := new CaptureStream.Open(OpenRequest(d), captured);
      running := true;
      Repr := {this, stream};
      r := Pass;
    }

    /** stop_stream: stops and closes the stream and forgets it, or raises when there is none. */
    method StopStream() returns (r: Outcome<StreamError>)
      requires Valid()
      modifies Repr
      ensures Valid() && Repr == {this} && !running && stream == null
      ensures r == if old(running) then Pass else Fail(NotRunning)
      ensures old(running) ==> !old(stream).active && old(stream).closed
    {
      if stream != null {
        stream.StopStream();
        stream.Close();
        stream := null;
        running := false;
        Repr := {this};
        r := Pass;
      } else {
        r := Fail(NotRunning);
      }
    }

    /**
     * stream_audio_chunk: reads chunk_size frames and decodes them into rows
     * of `channels` samples; raises, changing nothing, when there is no stream.
     */
    method StreamAudioChunk() returns (r: Result<Frame, StreamError>)
      requires Valid()
      modifies Repr
      ensures Valid() && Repr == old(Repr) && running == old(running) && stream == old(stream)
      ensures stream != null ==> stream.active == old(stream.active) && stream.closed == old(stream.closed)
      ensures !old(running) ==> r == Failure(NotRunning)
      ensures old(running) ==>
        && r == DecodeRead(Take(old(Pending()), ReadSize()), channels)
        && Pending() == Drop(old(Pending()), ReadSize())
    {
      if stream == null {
        return Failure(NotRunning);
      }
      var chunkBin := stream.Read(chunkSize);
      r := DecodeRead(chunkBin, channels);
    }
  }
}
