/** The `useSpeedTest` hook (src/hooks/useSpeedTest.ts): five aborting ping
    requests, then a download phase and an upload phase over an increasing
    size schedule in which every sample overwrites the phase's speed and is
    appended to a chart series. Each request is an input `Fetch`.

    Both phases POST the payload to the same echo endpoint, so the
    "download" figure is in fact an upload measurement; the model keeps
    that as written. */
module SpeedTestHook {
  import opened Wrappers
  import opened Units
  import opened Network

  /** Payload sizes in bytes for each phase, in order: 256 KiB, 512 KiB, 1 MiB. */
  const Sizes: seq<nat> := [1024 * 256, 1024 * 512, 1024 * 1024]

  const PingIterations: nat := 5

  const NetworkTestFailed := "Network test failed"

  // ------------------------------------------------------------- payload

  /** The request body: the character 'x' repeated `size` times. */
  function Payload(size: nat): (p: string)
    ensures |p| == size
    ensures forall i :: 0 <= i < size ==> p[i] == 'x'
  {
    seq(size, _ => 'x')
  }

  /** Bytes one character takes in UTF-8, the encoding a `Blob` gives a string. */
  function Utf8Width(c: char): nat
  {
    if c as int < 0x80 then 1
    else if c as int < 0x800 then 2
    else if c as int < 0x1_0000 then 3
    else 4
  }

  /** The byte size of `new Blob([s])`. */
  function BlobSize(s: string): nat
  {
    if s == [] then 0 else Utf8Width(s[0]) + BlobSize(s[1..])
  }

  /** The body sent for `size` is exactly `size` bytes, so the `size * 8`
      bits the speed is computed from are the bits actually sent. */
  lemma {:induction false} PayloadIsSizeBytes(size: nat)
    ensures BlobSize(Payload(size)) == size
  {
    AllXBlobSize(Payload(size));
  }

  lemma {:induction false} AllXBlobSize(s: string)
    requires forall i :: 0 <= i < |s| ==> s[i] == 'x'
    ensures BlobSize(s) == |s|
  {
    if s != [] {
      AllXBlobSize(s[1..]);
    }
  }

  // --------------------------------------------------------------- speed

  /** `measureSpeed(size)`: time one POST of the payload. A rejected fetch
      propagates its own error, a non-ok response throws "Network test
      failed", otherwise the speed is (size * 8) / duration / (1024 * 1024). */
  function MeasureSpeed(size: nat, f: Fetch): (r: Result<real>)
    ensures r.Ok? <==> Succeeds(f)
    ensures r.Ok? ==> r.value == Mbps(size, Seconds(f.elapsedMs))
    ensures f.NetworkError? ==> r == Err(f.reason)
    ensures f.Response? && r.Err? ==> r.message == NetworkTestFailed
  {
    if f.NetworkError? then Err(f.reason)
    else if !IsOk(f.status) then Err(NetworkTestFailed)
    else
      var duration := Seconds(f.elapsedMs);
      var bitsLoaded := size * 8;
      var speedBps := bitsLoaded as real / duration;
      DivideTwice(bitsLoaded as real, duration, MiB as real);
      Ok(speedBps / MiB as real)
  }

  /** Dividing by `duration` and then by 2^20 is dividing by their product. */
  lemma DivideTwice(x: real, a: real, b: real)
    requires a > 0.0 && b > 0.0
    ensures x / a / b == x / (b * a)
  {
    var q := x / a / b;
    assert q * b == x / a;
    assert q * b * a == x;
    assert q * (b * a) == x;
  }

  /** The speed of a successful sample counts the bytes of the body actually sent. */
  lemma SpeedCountsBytesSent(size: nat, f: Fetch)
    requires Succeeds(f)
    ensures MeasureSpeed(size, f).value == Mbps(BlobSize(Payload(size)), Seconds(f.elapsedMs))
  {
    PayloadIsSizeBytes(size);
  }

  // ---------------------------------------------------------------- ping

  /** `totalPing` after the requests in `probes`, or None once one of them
      has thrown (a rejection or a non-ok status), which ends the loop. */
  function PingTotal(probes: seq<Fetch>): (t: Option<real>)
    ensures t.Some? <==> AllSucceed(probes)
  {
    if probes == [] then Some(0.0)
    else
      var last := probes[|probes| - 1];
      assert probes == probes[..|probes| - 1] + [last];
      AllSucceedSnoc(probes[..|probes| - 1], last);
      match PingTotal(probes[..|probes| - 1])
      case None => None
      case Some(total) => if Succeeds(last) then Some(total + last.elapsedMs) else None
  }

  /** The loop completes exactly when every request succeeds, and then its
      total is the sum of the measured times. */
  lemma {:induction false} PingTotalSums(probes: seq<Fetch>)
    ensures PingTotal(probes).Some? <==> AllSucceed(probes)
    ensures PingTotal(probes).Some? ==> AllRespond(probes) && PingTotal(probes).value == Sum(ElapsedTimes(probes))
  {
    if probes != [] {
      var init := probes[..|probes| - 1];
      var last := probes[|probes| - 1];
      PingTotalSums(init);
      assert probes == init + [last];
      AllSucceedSnoc(init, last);
      AllRespondSnoc(init, last);
      if AllSucceed(probes) {
        ElapsedTimesSnoc(init, last);
        SumAppend(ElapsedTimes(init), [last.elapsedMs]);
      }
    }
  }

  /** `calculatePing`: the rounded mean of five request times if all five
      succeed; any failure abandons the measurement and leaves ping unset. */
  function CalculatePing(probes: seq<Fetch>): (r: Option<int>)
    requires |probes| == PingIterations
    ensures r.Some? <==> AllSucceed(probes)
    ensures r.Some? ==>
              AllRespond(probes)
              && r.value == MathRound(Sum(ElapsedTimes(probes)) / PingIterations as real)
              && r.value >= 0
  {
    PingTotalSums(probes);
    match PingTotal(probes)
    case None => None
    case Some(total) =>
      SumPositive(ElapsedTimes(probes));
      Some(MathRound(total / PingIterations as real))
  }

  // -------------------------------------------------------------- series

  /** One chart point: the sample's position in its phase and its speed. */
  datatype SpeedPoint = SpeedPoint(time: nat, speed: real)

  /** Point `i` of the series has time `i`: no gaps, starting at 0. */
  predicate Contiguous(data: seq<SpeedPoint>)
  {
    forall i :: 0 <= i < |data| ==> data[i].time == i
  }

  /** `prev => [...prev, { time: prev.length, speed }]`. */
  function AppendSample(data: seq<SpeedPoint>, speed: real): (r: seq<SpeedPoint>)
    ensures |r| == |data| + 1 && r[..|data|] == data
    ensures r[|data|].speed == speed
    ensures Contiguous(data) ==> Contiguous(r)
  {
    data + [SpeedPoint(|data|, speed)]
  }

  /** Reference: how many samples of a phase complete, that is, the index
      of the first failed request (or all of them). */
  function LeadingSuccesses(outs: seq<Fetch>): (k: nat)
    ensures k <= |outs|
    ensures forall i :: 0 <= i < k ==> Succeeds(outs[i])
    ensures k < |outs| ==> !Succeeds(outs[k])
  {
    if outs == [] || !Succeeds(outs[0]) then 0 else 1 + LeadingSuccesses(outs[1..])
  }

  /** How a phase's sample loop ends: the last speed it stored, the series,
      and whether every sample completed (otherwise the thrown error ends
      the whole run). */
  datatype PhaseEnd = PhaseEnd(last: Option<real>, points: seq<SpeedPoint>, finished: bool)

  /** The `for (let size of sizes)` loop of one phase, starting from the
      stored speed `last` and the series `points`. */
  function RunPhase(sizes: seq<nat>, outs: seq<Fetch>, last: Option<real>, points: seq<SpeedPoint>): (p: PhaseEnd)
    requires |sizes| == |outs|
    ensures |points| <= |p.points| <= |points| + |sizes| && p.points[..|points|] == points
    ensures p.finished ==> |p.points| == |points| + |sizes|
    ensures Contiguous(points) ==> Contiguous(p.points)
    ensures |p.points| > |points| ==> p.last.Some?
  {
    if sizes == [] then PhaseEnd(last, points, true)
    else
      match MeasureSpeed(sizes[0], outs[0])
      case Err(_) => PhaseEnd(last, points, false)
      case Ok(v) => RunPhase(sizes[1..], outs[1..], Some(v), AppendSample(points, v))
  }

  /** The phase keeps the first `k` samples, `k` the index of the first
      failure: it finishes iff none fails, appends exactly `k` contiguous
      points carrying those samples' speeds, and leaves the last of them
      (or the previous value, when `k` is 0) as the stored speed. */
  lemma {:induction false} RunPhaseSpec(sizes: seq<nat>, outs: seq<Fetch>, last: Option<real>, points: seq<SpeedPoint>)
    requires |sizes| == |outs|
    requires Contiguous(points)
    ensures var p := RunPhase(sizes, outs, last, points);
            var k := LeadingSuccesses(outs);
            && (p.finished <==> k == |outs|)
            && |p.points| == |points| + k
            && p.points[..|points|] == points
            && Contiguous(p.points)
            && (forall i :: 0 <= i < k ==> p.points[|points| + i].speed == Mbps(sizes[i], Seconds(outs[i].elapsedMs)))
            && (k == 0 ==> p.last == last)
            && (k > 0 ==> p.last == Some(Mbps(sizes[k - 1], Seconds(outs[k - 1].elapsedMs))))
  {
    if sizes != [] && Succeeds(outs[0]) {
      var v := Mbps(sizes[0], Seconds(outs[0].elapsedMs));
      var points' := AppendSample(points, v);
      RunPhaseSpec(sizes[1..], outs[1..], Some(v), points');
      var p := RunPhase(sizes, outs, last, points);
      assert p == RunPhase(sizes[1..], outs[1..], Some(v), points');
      var k := LeadingSuccesses(outs);
      assert p.points[..|points|] == points by {
        assert p.points[..|points'|] == points';
        assert points'[..|points|] == points;
      }
      forall i | 0 <= i < k
        ensures p.points[|points| + i].speed == Mbps(sizes[i], Seconds(outs[i].elapsedMs))
      {
        if i > 0 {
          assert sizes[1..][i - 1] == sizes[i] && outs[1..][i - 1] == outs[i];
          assert |points'| + (i - 1) == |points| + i;
        } else {
          assert p.points[..|points'|] == points';
          assert p.points[|points|] == p.points[..|points'|][|points|];
        }
      }
      if k > 1 {
        assert sizes[1..][k - 2] == sizes[k - 1] && outs[1..][k - 2] == outs[k - 1];
      }
    }
  }

  // ---------------------------------------------------------- orchestration

  /** The hook's React state. */
  datatype State = State(
    testing: bool,
    downloadSpeed: Option<real>,
    uploadSpeed: Option<real>,
    ping: Option<int>,
    currentTest: Option<Phase>,
    speedData: seq<SpeedPoint>)

  /** Everything the network answers during one run: one outcome per request
      the hook can make (five pings, one per scheduled size and phase). */
  datatype Attempts = Attempts(pings: seq<Fetch>, download: seq<Fetch>, upload: seq<Fetch>)

  predicate WellFormed(net: Attempts)
  {
    |net.pings| == PingIterations && |net.download| == |Sizes| && |net.upload| == |Sizes|
  }

  /** One run: the state once the resets and `currentTest = 'ping'` are
      applied, the phases entered in order, and the state after `finally`. */
  datatype Run = Run(started: State, phases: seq<Phase>, final: State)

  /** `startTest`: reset, ping (whose failure is absorbed), the download
      loop, then a cleared series and the upload loop. A failed sample
      throws out of everything that remains; `finally` always clears
      `testing` and `currentTest`. */
  function StartTest(net: Attempts): (run: Run)
    requires WellFormed(net)
    ensures run.started == State(true, None, None, None, Some(Ping), [])
    ensures !run.final.testing && run.final.currentTest == None
    ensures run.final.ping == CalculatePing(net.pings)
    ensures Contiguous(run.final.speedData) && |run.final.speedData| <= |Sizes|
    ensures Upload in run.phases ==> run.final.downloadSpeed.Some?
  {
    var started := State(true, None, None, None, Some(Ping), []);
    var afterPing := started.(ping := CalculatePing(net.pings));
    var down := RunPhase(Sizes, net.download, None, []);
    if !down.finished then
      Run(started, [Ping, Download],
          afterPing.(downloadSpeed := down.last, speedData := down.points, testing := false, currentTest := None))
    else
      var up := RunPhase(Sizes, net.upload, None, []);
      Run(started, [Ping, Download, Upload],
          afterPing.(downloadSpeed := down.last, uploadSpeed := up.last, speedData := up.points,
                     testing := false, currentTest := None))
  }

  /** The samples of the phase the chart shows at the end: the upload
      phase if it was reached, otherwise the download phase. */
  function ShownPhase(net: Attempts): seq<Fetch>
  {
    if AllSucceed(net.download) then net.upload else net.download
  }

  /** What a run leaves behind, stated against the requests' outcomes. */
  lemma StartTestSpec(net: Attempts)
    requires WellFormed(net)
    ensures var run := StartTest(net);
            var kd := LeadingSuccesses(net.download);
            var ku := LeadingSuccesses(net.upload);
            var shown := ShownPhase(net);
            && run.started == State(true, None, None, None, Some(Ping), [])
            && !run.final.testing && run.final.currentTest == None
            && run.final.ping == CalculatePing(net.pings)
            && run.phases == [Ping, Download] + (if AllSucceed(net.download) then [Upload] else [])
            && (kd == 0 ==> run.final.downloadSpeed == None)
            && (kd > 0 ==> run.final.downloadSpeed == Some(Mbps(Sizes[kd - 1], Seconds(net.download[kd - 1].elapsedMs))))
            && (!AllSucceed(net.download) || ku == 0 ==> run.final.uploadSpeed == None)
            && (AllSucceed(net.download) && ku > 0 ==>
                  run.final.uploadSpeed == Some(Mbps(Sizes[ku - 1], Seconds(net.upload[ku - 1].elapsedMs))))
            && Contiguous(run.final.speedData)
            && |run.final.speedData| == LeadingSuccesses(shown)
            && (forall i :: 0 <= i < |run.final.speedData| ==>
                  run.final.speedData[i].speed == Mbps(Sizes[i], Seconds(shown[i].elapsedMs)))
  {
    RunPhaseSpec(Sizes, net.download, None, []);
    RunPhaseSpec(Sizes, net.upload, None, []);
    var kd := LeadingSuccesses(net.download);
    assert kd == |Sizes| <==> AllSucceed(net.download) by {
      if !AllSucceed(net.download) {
        var j :| 0 <= j < |net.download| && !Succeeds(net.download[j]);
        assert kd <= j;
      }
    }
  }
}
