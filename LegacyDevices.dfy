/**
 * The earlier Windows capture helpers: find the WASAPI "Stereo Mix" input
 * device by scanning the PortAudio device table, and open it in loopback
 * mode with as many channels as the device offers.
 */
module LegacyDevices {
  import opened Wrappers
  import opened Text
  import opened Pcm
  import opened PortAudio

  /** Names under which Windows lists its "Stereo Mix" recording device (English and Japanese). */
  const StereoMixNames: seq<string> := ["Stereo Mix", "ステレオ ミキサー"]

  const FramesPerBuffer: nat := 512

  /** Every device refers to an existing host API, as PortAudio's tables do. */
  predicate HostApisKnown(devices: seq<DeviceInfo>, hostApiNames: seq<string>)
  {
    forall i :: 0 <= i < |devices| ==> 0 <= devices[i].hostApi < |hostApiNames|
  }

  /** check_wasapi: the name of the device's host API contains "WASAPI". */
  predicate CheckWasapi(device: DeviceInfo, hostApiNames: seq<string>)
    requires 0 <= device.hostApi < |hostApiNames|
  {
    Contains(hostApiNames[device.hostApi], "WASAPI")
  }

  /** check_stereo_mix: the device name contains one of the Stereo Mix names. */
  predicate CheckStereoMix(device: DeviceInfo)
  {
    exists k :: 0 <= k < |StereoMixNames| && Contains(device.name, StereoMixNames[k])
  }

  predicate IsStereoMixLoopback(device: DeviceInfo, hostApiNames: seq<string>)
    requires 0 <= device.hostApi < |hostApiNames|
  {
    CheckWasapi(device, hostApiNames) && CheckStereoMix(device)
  }

  /** Both checks hold exactly when the two names contain the expected words. */
  lemma CheckCriteria(device: DeviceInfo, hostApiNames: seq<string>)
    requires 0 <= device.hostApi < |hostApiNames|
    ensures IsStereoMixLoopback(device, hostApiNames) <==>
      && (exists i: nat :: OccursAt(hostApiNames[device.hostApi], "WASAPI", i))
      && ((exists i: nat :: OccursAt(device.name, "Stereo Mix", i))
          || (exists i: nat :: OccursAt(device.name, "ステレオ ミキサー", i)))
  {
    if CheckStereoMix(device) {
      var k :| 0 <= k < |StereoMixNames| && Contains(device.name, StereoMixNames[k]);
      assert k == 0 || k == 1;
    }
    if Contains(device.name, "Stereo Mix") {
      assert Contains(device.name, StereoMixNames[0]);
    }
    if Contains(device.name, "ステレオ ミキサー") {
      assert Contains(device.name, StereoMixNames[1]);
    }
  }

  /** Index of the first device at or after i that passes both checks, or |devices|. */
  function FirstStereoMix(devices: seq<DeviceInfo>, hostApiNames: seq<string>, i: nat): (j: nat)
    requires HostApisKnown(devices, hostApiNames) && i <= |devices|
    ensures i <= j <= |devices|
    ensures forall k :: i <= k < j ==> !IsStereoMixLoopback(devices[k], hostApiNames)
    ensures j < |devices| ==> IsStereoMixLoopback(devices[j], hostApiNames)
    decreases |devices| - i
  {
    if i == |devices| || IsStereoMixLoopback(devices[i], hostApiNames) then i
    else FirstStereoMix(devices, hostApiNames, i + 1)
  }

  /**
   * find_loopback_output: the lowest-indexed device (of get_device_count()
   * many) that is a WASAPI Stereo Mix device, or None when there is none.
   */
  method FindLoopbackOutput(devices: seq<DeviceInfo>, hostApiNames: seq<string>) returns (r: Option<DeviceInfo>)
    requires HostApisKnown(devices, hostApiNames)
    ensures r.None? <==> forall k :: 0 <= k < |devices| ==> !IsStereoMixLoopback(devices[k], hostApiNames)
    ensures r.Some? ==>
      var j := FirstStereoMix(devices, hostApiNames, 0);
      j < |devices| && r.value == devices[j]
  {
    for i := 0 to |devices|
      invariant forall k :: 0 <= k < i ==> !IsStereoMixLoopback(devices[k], hostApiNames)
    {
      var deviceInfo := devices[i];
      if CheckWasapi(deviceInfo, hostApiNames) && CheckStereoMix(deviceInfo) {
        assert FirstStereoMix(devices, hostApiNames, 0) == i;
        return Some(deviceInfo);
      }
    }
    return None;
  }

  /** The device returned is the lowest-indexed one that passes both checks. */
  lemma FoundIsLowestIndexed(devices: seq<DeviceInfo>, hostApiNames: seq<string>, j: nat)
    requires HostApisKnown(devices, hostApiNames)
    requires j < |devices| && IsStereoMixLoopback(devices[j], hostApiNames)
    requires forall k :: 0 <= k < j ==> !IsStereoMixLoopback(devices[k], hostApiNames)
    ensures FirstStereoMix(devices, hostApiNames, 0) == j
  {
    var j0 := FirstStereoMix(devices, hostApiNames, 0);
    if j0 < j {
      assert false;
    } else if j0 > j {
      assert false;
    }
  }

  /** The channel count open_stream asks for: the larger of the input and output channel counts. */
  function ChannelCount(device: DeviceInfo): (n: nat)
    ensures n >= device.maxInputChannels && n >= device.maxOutputChannels
    ensures n == device.maxInputChannels || n == device.maxOutputChannels
  {
    if device.maxOutputChannels < device.maxInputChannels then device.maxInputChannels else device.maxOutputChannels
  }

  datatype LegacyError = NoStereoMixDevice   // device_info["index"] on None raises TypeError

  /**
   * open_stream: the arguments PyAudio.open receives for the Stereo Mix
   * device: int16, max(in, out) channels, the device's default rate, 512
   * frames per buffer, input in loopback mode.
   */
  method OpenStream(devices: seq<DeviceInfo>, hostApiNames: seq<string>) returns (r: Result<OpenParams, LegacyError>)
    requires HostApisKnown(devices, hostApiNames)
    ensures var j := FirstStereoMix(devices, hostApiNames, 0);
      && (j == |devices| ==> r == Failure(NoStereoMixDevice))
      && (j < |devices| ==>
            && r.Success?
            && r.value.channels == ChannelCount(devices[j])
            && r.value.rate == TruncToInt(devices[j].defaultSampleRate)
            && r.value.inputDeviceIndex == devices[j].index
            && r.value.framesPerBuffer == FramesPerBuffer
            && r.value.format == PaInt16 && r.value.input && r.value.asLoopback)
  {
    var deviceInfo := FindLoopbackOutput(devices, hostApiNames);
    if deviceInfo.None? {
      return Failure(NoStereoMixDevice);
    }
    var d := deviceInfo.value;
    var channelCount := if d.maxOutputChannels < d.maxInputChannels then d.maxInputChannels else d.maxOutputChannels;
    r := Success(OpenParams(PaInt16, channelCount, TruncToInt(d.defaultSampleRate), true, d.index, FramesPerBuffer, true));
  }
}
