/** The home page (src/app/home/page.js): ping over three aborting
    requests, one download of a fixed script file measured by the bytes
    actually received, one upload of a generated 5 MiB blob, and a results
    record. Its speed and ping measurements report failure as 0 and never
    throw. Each request is an input `Fetch`. */
module HomePage {
  import opened Wrappers
  import opened Units
  import opened Network

  /** The upload payload size and the figure the upload speed is computed from: 5 MiB. */
  const TestSize: nat := 5 * MiB

  const PingAttempts: nat := 3

  /** An element of a `Uint8Array`. */
  newtype byte = x: int | 0 <= x < 256

  // ------------------------------------------------------------- payload

  /** `generateLargeBlob(size)`: a zero-filled `Uint8Array` of `size` bytes
      in which element `i` is set to `Math.floor(random[i] * 256)`, where
      `random` holds the successive `Math.random()` draws. */
  method GenerateLargeBlob(size: nat, random: seq<real>) returns (blob: seq<byte>)
    requires |random| == size
    requires forall i :: 0 <= i < size ==> 0.0 <= random[i] < 1.0
    ensures |blob| == size
    ensures forall i :: 0 <= i < size ==> blob[i] as int == (random[i] * 256.0).Floor
  {
    var bytes := new byte[size];
    var i := 0;
    while i < size
      invariant 0 <= i <= size
      invariant forall j :: 0 <= j < i ==> bytes[j] as int == (random[j] * 256.0).Floor
    {
      var v := (random[i] * 256.0).Floor;
      bytes[i] := v as byte;
      i := i + 1;
    }
    blob := bytes[..];
  }

  // --------------------------------------------------------------- speed

  /** `measureSpeed('download')`: the size of the body actually received,
      over the time from before the request until the body is read; 0 on a
      non-ok status or any error. */
  function MeasureDownload(f: Fetch): (r: real)
    ensures r >= 0.0
    ensures r > 0.0 <==> Succeeds(f) && f.bodyBytes > 0
    ensures Succeeds(f) ==> r * (MiB as real * (f.elapsedMs / 1000.0)) == (f.bodyBytes * 8) as real
  {
    if Succeeds(f) then Mbps(f.bodyBytes, Seconds(f.elapsedMs)) else 0.0
  }

  /** `measureSpeed('upload')`: the nominal 5 MiB over the POST's time; 0
      on a non-ok status or any error. The clock (`uploadStartTime`) starts
      after the payload is generated, so `f.elapsedMs` is the POST alone:
      generation time is not part of the input at all. */
  function MeasureUpload(f: Fetch): (r: real)
    ensures r >= 0.0
    ensures r > 0.0 <==> Succeeds(f)
    ensures Succeeds(f) ==> r * (MiB as real * (f.elapsedMs / 1000.0)) == (TestSize * 8) as real
  {
    if Succeeds(f) then Mbps(TestSize, Seconds(f.elapsedMs)) else 0.0
  }

  /** The download figure follows the bytes actually received: of two
      equally fast successful downloads, the larger body is the higher speed. */
  lemma DownloadUsesReceivedBytes(status: int, elapsedMs: Millis, b1: nat, b2: nat)
    requires IsOk(status) && b1 < b2
    ensures MeasureDownload(Response(status, elapsedMs, b1)) < MeasureDownload(Response(status, elapsedMs, b2))
  {
    MbpsGrowsWithBytes(b1, b2, Seconds(elapsedMs));
  }

  // ---------------------------------------------------------------- ping

  /** `totalPing` after the requests in `probes`, or None once one rejects
      (which returns 0 at once). The response status is not checked. */
  function PingTotal(probes: seq<Fetch>): (t: Option<real>)
    ensures t.Some? <==> AllRespond(probes)
  {
    if probes == [] then Some(0.0)
    else
      var last := probes[|probes| - 1];
      assert probes == probes[..|probes| - 1] + [last];
      AllRespondSnoc(probes[..|probes| - 1], last);
      match PingTotal(probes[..|probes| - 1])
      case None => None
      case Some(total) => if last.Response? then Some(total + last.elapsedMs) else None
  }

  /** The loop completes exactly when every request is answered, and then
      its total is the sum of the measured times. */
  lemma {:induction false} PingTotalSums(probes: seq<Fetch>)
    ensures PingTotal(probes).Some? <==> AllRespond(probes)
    ensures PingTotal(probes).Some? ==> PingTotal(probes).value == Sum(ElapsedTimes(probes))
  {
    if probes != [] {
      var init := probes[..|probes| - 1];
      var last := probes[|probes| - 1];
      PingTotalSums(init);
      assert probes == init + [last];
      AllRespondSnoc(init, last);
      if AllRespond(probes) {
        ElapsedTimesSnoc(init, last);
        SumAppend(ElapsedTimes(init), [last.elapsedMs]);
      }
    }
  }

  /** `measurePing`: 0 as soon as one of the three requests rejects,
      otherwise the rounded mean of the three times. It never throws. */
  function MeasurePing(probes: seq<Fetch>): (r: int)
    requires |probes| == PingAttempts
    ensures r >= 0
    ensures !AllRespond(probes) ==> r == 0
    ensures AllRespond(probes) ==> r == MathRound(Sum(ElapsedTimes(probes)) / PingAttempts as real)
  {
    PingTotalSums(probes);
    match PingTotal(probes)
    case None => 0
    case Some(total) =>
      SumPositive(ElapsedTimes(probes));
      MathRound(total / PingAttempts as real)
  }

  // ---------------------------------------------------------- orchestration

  datatype Results = Results(ping: int, downloadSpeed: real, uploadSpeed: real)

  /** The page's React state. */
  datatype State = State(isLoading: bool, results: Option<Results>, error: Option<string>)

  /** Everything the network answers during one run. */
  datatype Attempts = Attempts(pings: seq<Fetch>, download: Fetch, upload: Fetch)

  /** One run: the state once loading starts, the measurements in order, and the final state. */
  datatype Run = Run(started: State, phases: seq<Phase>, final: State)

  /** `startTest`: set loading and clear the error (earlier results stay),
      measure ping, download and upload in that order, store all three,
      and stop loading. None of the measurements throws, so the error stays
      cleared and a results record is always stored. */
  function StartTest(prev: State, net: Attempts): (run: Run)
    requires |net.pings| == PingAttempts
    ensures run.started == State(true, prev.results, None)
    ensures run.phases == [Ping, Download, Upload]
    ensures !run.final.isLoading && run.final.error == None && run.final.results.Some?
    ensures run.final.results.value.ping == MeasurePing(net.pings)
    ensures run.final.results.value.downloadSpeed == MeasureDownload(net.download)
    ensures run.final.results.value.uploadSpeed == MeasureUpload(net.upload)
    ensures run.final.results.value.ping >= 0
    ensures run.final.results.value.downloadSpeed >= 0.0 && run.final.results.value.uploadSpeed >= 0.0
  {
    var started := prev.(isLoading := true, error := None);
    var ping := MeasurePing(net.pings);
    var downloadSpeed := MeasureDownload(net.download);
    var uploadSpeed := MeasureUpload(net.upload);
    Run(started, [Ping, Download, Upload],
        started.(results := Some(Results(ping, downloadSpeed, uploadSpeed)), isLoading := false))
  }
}
