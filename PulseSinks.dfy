/**
 * Resolving the PulseAudio monitor source of the default sink from the text
 * printed by `pactl get-default-sink` and `pactl list short sinks`, and the
 * `parec` command line that records from it.
 */
module PulseSinks {
  import opened Text

  const MonitorSuffix := ".monitor"

  /** What scanning the sink list can end in. */
  datatype SinkScan =
    | Monitor(source: string)   // the monitor source of the default sink
    | NoMatch                   // no line names the default sink
    | ShortLine(line: nat)      // line `line` has fewer than two fields: parts[1] raises IndexError

  /** A line the scan moves past: it has a second field and that field is not `sink`. */
  predicate Passes(line: string, sink: string)
  {
    |Split(line)| >= 2 && Split(line)[1] != sink
  }

  /** A line whose second field (the sink name in `pactl list short sinks`) is `sink`. */
  predicate NamesSink(line: string, sink: string)
  {
    |Split(line)| >= 2 && Split(line)[1] == sink
  }

  /** Index of the first line at or after i that the scan does not move past, or |lines|. */
  function FirstStop(sink: string, lines: seq<string>, i: nat): (j: nat)
    requires i <= |lines|
    ensures i <= j <= |lines|
    ensures forall k :: i <= k < j ==> Passes(lines[k], sink)
    ensures j < |lines| ==> !Passes(lines[j], sink)
    decreases |lines| - i
  {
    if i == |lines| || !Passes(lines[i], sink) then i else FirstStop(sink, lines, i + 1)
  }

  /** The outcome of the scan, stated as a specification: decided by the first line not passed. */
  function ResolveMonitor(defaultSinkOut: string, lines: seq<string>): SinkScan
  {
    var sink := Strip(defaultSinkOut);
    var j := FirstStop(sink, lines, 0);
    if j == |lines| then NoMatch
    else if |Split(lines[j])| < 2 then ShortLine(j)
    else Monitor(Split(lines[j])[1] + MonitorSuffix)
  }

  /**
   * The loop of _get_default_sink_monitor / get_default_sink_monitor: strip the
   * default sink name, then return at the first sink line whose second
   * whitespace-separated field equals it.
   */
  method ScanSinks(defaultSinkOut: string, sinkLines: seq<string>) returns (r: SinkScan)
    ensures r == ResolveMonitor(defaultSinkOut, sinkLines)
  {
    var defaultSink := Strip(defaultSinkOut);
    for i := 0 to |sinkLines|
      invariant forall k :: 0 <= k < i ==> Passes(sinkLines[k], defaultSink)
    {
      var parts := Split(sinkLines[i]);
      if |parts| < 2 {
        return ShortLine(i);
      }
      if parts[1] == defaultSink {
        return Monitor(parts[1] + MonitorSuffix);
      }
    }
    return NoMatch;
  }

  /** The three outcomes, each exactly characterised by the lines. */
  lemma ResolveMonitorCases(defaultSinkOut: string, lines: seq<string>)
    ensures var sink := Strip(defaultSinkOut);
      && ((ResolveMonitor(defaultSinkOut, lines) == NoMatch) <==>
            (forall k :: 0 <= k < |lines| ==> Passes(lines[k], sink)))
      && (forall j :: 0 <= j < |lines| ==>
            ((ResolveMonitor(defaultSinkOut, lines) == ShortLine(j)) <==>
               (|Split(lines[j])| < 2 && forall k :: 0 <= k < j ==> Passes(lines[k], sink))))
      && (forall j :: 0 <= j < |lines| && NamesSink(lines[j], sink) && (forall k :: 0 <= k < j ==> Passes(lines[k], sink))
            ==> ResolveMonitor(defaultSinkOut, lines) == Monitor(sink + MonitorSuffix))
      && (ResolveMonitor(defaultSinkOut, lines).Monitor? ==>
            ResolveMonitor(defaultSinkOut, lines).source == sink + MonitorSuffix)
  {
    var sink := Strip(defaultSinkOut);
    var j0 := FirstStop(sink, lines, 0);
    forall j | 0 <= j < |lines| && (forall k :: 0 <= k < j ==> Passes(lines[k], sink)) && !Passes(lines[j], sink)
      ensures j == j0
    {
      if j < j0 {
        assert false;
      } else if j > j0 {
        assert false;
      }
    }
  }

  /** A resolved monitor source is never empty and always ends in ".monitor". */
  lemma MonitorSourceShape(defaultSinkOut: string, lines: seq<string>)
    requires ResolveMonitor(defaultSinkOut, lines).Monitor?
    ensures EndsWith(ResolveMonitor(defaultSinkOut, lines).source, MonitorSuffix)
    ensures ResolveMonitor(defaultSinkOut, lines).source != ""
  {
    var m := ResolveMonitor(defaultSinkOut, lines).source;
    ResolveMonitorCases(defaultSinkOut, lines);
    assert m == Strip(defaultSinkOut) + MonitorSuffix;
    assert m[|m| - |MonitorSuffix|..] == MonitorSuffix;
  }

  /**
   * A default sink name that is empty or holds whitespace after stripping can
   * never equal a field, so resolution never succeeds (for instance when
   * `pactl get-default-sink` printed nothing).
   */
  lemma UnsplittableDefaultNeverResolves(defaultSinkOut: string, lines: seq<string>)
    requires !IsWord(Strip(defaultSinkOut))
    ensures !ResolveMonitor(defaultSinkOut, lines).Monitor?
  {
    var sink := Strip(defaultSinkOut);
    var j := FirstStop(sink, lines, 0);
    if j < |lines| && |Split(lines[j])| >= 2 {
      assert false;
    }
  }

  /** The recorder command: parec -d DEVICE --rate RATE --channels CHANNELS --format s16le. */
  function ParecCommand(device: string, rate: nat, channels: nat): (cmd: seq<string>)
    ensures |cmd| == 9 && cmd[0] == "parec"
  {
    ["parec", "-d", device, "--rate", IntToString(rate), "--channels", IntToString(channels), "--format", "s16le"]
  }

  /**
   * The values parec reads after -d, --rate and --channels are the configured
   * device, rate and channel count, so distinct configurations give distinct commands.
   */
  lemma ParecCommandDetermines(d1: string, r1: nat, c1: nat, d2: string, r2: nat, c2: nat)
    requires ParecCommand(d1, r1, c1) == ParecCommand(d2, r2, c2)
    ensures d1 == d2 && r1 == r2 && c1 == c2
  {
    var cmd1, cmd2 := ParecCommand(d1, r1, c1), ParecCommand(d2, r2, c2);
    assert cmd1[2] == cmd2[2] && cmd1[4] == cmd2[4] && cmd1[6] == cmd2[6];
    IntToStringInjective(r1, r2);
    IntToStringInjective(c1, c2);
  }
}
