/** The `SpeedTest` component (src/components/SpeedTest.js): download and
    upload speed averaged over a fixed list of endpoints, ping averaged over
    WebSocket handshakes with an HTTP fallback, and an idle/testing/complete
    status. Each endpoint attempt is an input `Fetch`, one per entry of the
    endpoint list, in list order. */
module SpeedTestComponent {
  import opened Wrappers
  import opened Units
  import opened Network

  /** The nominal test-file size used in every speed computation: 25 MiB. */
  const FileSize: nat := 25 * MiB

  const AllEndpointsFailed := "All speed test endpoints failed"
  const FailureMessage := "Failed to complete speed test. Please try again."

  /** Running totals of an averaging loop: the sum so far and how many terms it has. */
  datatype Tally<T> = Tally(total: T, count: nat)

  /** The speed one endpoint contributes, or None when its attempt throws
      (a rejected fetch or a non-ok status) and is skipped. The nominal
      `FileSize` is used whatever the response body holds. */
  function SampleSpeed(f: Fetch): (v: Option<real>)
    ensures v.Some? <==> Succeeds(f)
    ensures v.Some? ==> v.value > 0.0
    ensures v.Some? ==> v.value * (MiB as real * f.elapsedMs / 1000.0) == (FileSize * 8) as real
  {
    if Succeeds(f) then Some(Mbps(FileSize, Seconds(f.elapsedMs))) else None
  }

  /** Reference: the speeds of the successful endpoints, in list order. */
  function Successes(outcomes: seq<Fetch>): (speeds: seq<real>)
    ensures |speeds| <= |outcomes|
    ensures forall i :: 0 <= i < |speeds| ==> speeds[i] > 0.0
  {
    if outcomes == [] then []
    else
      match SampleSpeed(outcomes[0])
      case Some(v) => [v] + Successes(outcomes[1..])
      case None => Successes(outcomes[1..])
  }

  /** The loop state (`totalSpeed`, `successfulTests`) after visiting the
      endpoints in `outcomes`, one at a time in order. */
  function Accumulate(outcomes: seq<Fetch>): (t: Tally<real>)
    ensures t.count <= |outcomes|
  {
    if outcomes == [] then Tally(0.0, 0)
    else
      var prev := Accumulate(outcomes[..|outcomes| - 1]);
      match SampleSpeed(outcomes[|outcomes| - 1])
      case Some(v) => Tally(prev.total + v, prev.count + 1)
      case None => prev
  }

  lemma {:induction false} SuccessesAppend(xs: seq<Fetch>, ys: seq<Fetch>)
    ensures Successes(xs + ys) == Successes(xs) + Successes(ys)
  {
    if xs == [] {
      assert xs + ys == ys;
    } else {
      assert (xs + ys)[1..] == xs[1..] + ys;
      SuccessesAppend(xs[1..], ys);
    }
  }

  /** No speed is recorded exactly when every endpoint fails. */
  lemma {:induction false} SuccessesEmpty(outcomes: seq<Fetch>)
    ensures Successes(outcomes) == [] <==> !AnySucceeds(outcomes)
  {
    if outcomes != [] {
      SuccessesEmpty(outcomes[1..]);
      if Succeeds(outcomes[0]) {
        assert AnySucceeds(outcomes);
      } else {
        assert AnySucceeds(outcomes) <==> AnySucceeds(outcomes[1..]) by {
          if AnySucceeds(outcomes) {
            var i :| 0 <= i < |outcomes| && Succeeds(outcomes[i]);
            assert Succeeds(outcomes[1..][i - 1]);
          }
          if AnySucceeds(outcomes[1..]) {
            var j :| 0 <= j < |outcomes[1..]| && Succeeds(outcomes[1..][j]);
            assert Succeeds(outcomes[j + 1]);
          }
        }
      }
    }
  }

  /** The loop's totals are the sum and the number of successful speeds. */
  lemma {:induction false} AccumulateSums(outcomes: seq<Fetch>)
    ensures Accumulate(outcomes) == Tally(Sum(Successes(outcomes)), |Successes(outcomes)|)
  {
    if outcomes != [] {
      var init := outcomes[..|outcomes| - 1];
      var last := outcomes[|outcomes| - 1];
      assert outcomes == init + [last];
      AccumulateSums(init);
      SuccessesAppend(init, [last]);
      assert [last][1..] == [];
      SumAppend(Successes(init), Successes([last]));
    }
  }

  /** `measureSpeed`: visit every endpoint in order, skipping those that
      throw; return the arithmetic mean of the successful speeds, or throw
      when none succeeded. */
  function MeasureSpeed(outcomes: seq<Fetch>): (r: Result<real>)
    ensures r.Ok? <==> AnySucceeds(outcomes)
    ensures r.Ok? ==> |Successes(outcomes)| > 0 && r.value == Mean(Successes(outcomes))
    ensures r.Ok? ==> r.value > 0.0
    ensures r.Err? ==> r.message == AllEndpointsFailed
  {
    AccumulateSums(outcomes);
    SuccessesEmpty(outcomes);
    var t := Accumulate(outcomes);
    if t.count == 0 then Err(AllEndpointsFailed)
    else
      SumPositive(Successes(outcomes));
      Ok(t.total / t.count as real)
  }

  /** A failed endpoint anywhere in the list changes nothing: it adds
      neither to the total nor to the count. */
  lemma SkipFailedEndpoint(xs: seq<Fetch>, f: Fetch, ys: seq<Fetch>)
    requires !Succeeds(f)
    ensures MeasureSpeed(xs + [f] + ys) == MeasureSpeed(xs + ys)
  {
    SuccessesAppend(xs + [f], ys);
    SuccessesAppend(xs, [f]);
    SuccessesAppend(xs, ys);
    assert Successes([f]) == [];
    assert Successes(xs + [f]) == Successes(xs);
    SuccessesEmpty(xs + [f] + ys);
    SuccessesEmpty(xs + ys);
  }

  /** The reported speed lies between the slowest and the fastest successful endpoint. */
  lemma MeasureSpeedWithinSamples(outcomes: seq<Fetch>, lo: real, hi: real)
    requires AnySucceeds(outcomes)
    requires forall i :: 0 <= i < |Successes(outcomes)| ==> lo <= Successes(outcomes)[i] <= hi
    ensures lo <= MeasureSpeed(outcomes).value <= hi
  {
    SuccessesEmpty(outcomes);
    MeanBetween(Successes(outcomes), lo, hi);
  }

  /** Two endpoint lists that agree on every status and timing, whatever
      their bodies hold. */
  predicate SameButBodies(xs: seq<Fetch>, ys: seq<Fetch>)
  {
    && |xs| == |ys|
    && forall i :: 0 <= i < |xs| ==>
         && xs[i].Response? == ys[i].Response?
         && (xs[i].Response? ==> xs[i].status == ys[i].status && xs[i].elapsedMs == ys[i].elapsedMs)
  }

  /** Each successful endpoint's speed depends on its status and timing only. */
  lemma {:induction false} SuccessesIgnoreBodies(xs: seq<Fetch>, ys: seq<Fetch>)
    requires SameButBodies(xs, ys)
    ensures Successes(xs) == Successes(ys)
  {
    if xs != [] {
      assert SameButBodies(xs[1..], ys[1..]) by {
        forall i | 0 <= i < |xs| - 1
          ensures xs[1..][i].Response? == ys[1..][i].Response?
        {
          assert xs[1..][i] == xs[i + 1] && ys[1..][i] == ys[i + 1];
        }
      }
      SuccessesIgnoreBodies(xs[1..], ys[1..]);
      assert SampleSpeed(xs[0]) == SampleSpeed(ys[0]);
    }
  }

  /** The speed is computed from the nominal 25 MiB, never from the bytes
      actually received: responses differing only in body size give the
      same result. */
  lemma NominalSizeOnly(xs: seq<Fetch>, ys: seq<Fetch>)
    requires SameButBodies(xs, ys)
    ensures MeasureSpeed(xs) == MeasureSpeed(ys)
  {
    SuccessesIgnoreBodies(xs, ys);
    SuccessesEmpty(xs);
    SuccessesEmpty(ys);
  }

  // ---------------------------------------------------------------- ping

  /** Reference: `Math.round` of each opened socket's handshake time, in host order. */
  function RoundedPings(sockets: seq<Handshake>): (ms: seq<int>)
    ensures |ms| <= |sockets|
    ensures forall i :: 0 <= i < |ms| ==> ms[i] >= 0
  {
    if sockets == [] then []
    else
      match sockets[0]
      case Opened(e) => [MathRound(e)] + RoundedPings(sockets[1..])
      case Refused => RoundedPings(sockets[1..])
  }

  /** The loop state (`totalPing`, `successfulPings`) after trying the hosts in `sockets`. */
  function PingTally(sockets: seq<Handshake>): (t: Tally<int>)
    ensures t.count <= |sockets|
  {
    if sockets == [] then Tally(0, 0)
    else
      var prev := PingTally(sockets[..|sockets| - 1]);
      match sockets[|sockets| - 1]
      case Opened(e) => Tally(prev.total + MathRound(e), prev.count + 1)
      case Refused => prev
  }

  predicate AnyOpened(sockets: seq<Handshake>)
  {
    exists i :: 0 <= i < |sockets| && sockets[i].Opened?
  }

  lemma {:induction false} RoundedPingsAppend(xs: seq<Handshake>, ys: seq<Handshake>)
    ensures RoundedPings(xs + ys) == RoundedPings(xs) + RoundedPings(ys)
  {
    if xs == [] {
      assert xs + ys == ys;
    } else {
      assert (xs + ys)[1..] == xs[1..] + ys;
      RoundedPingsAppend(xs[1..], ys);
    }
  }

  lemma {:induction false} RoundedPingsEmpty(sockets: seq<Handshake>)
    ensures RoundedPings(sockets) == [] <==> !AnyOpened(sockets)
  {
    if sockets != [] {
      RoundedPingsEmpty(sockets[1..]);
      if !sockets[0].Opened? {
        assert AnyOpened(sockets) <==> AnyOpened(sockets[1..]) by {
          if AnyOpened(sockets) {
            var i :| 0 <= i < |sockets| && sockets[i].Opened?;
            assert sockets[1..][i - 1].Opened?;
          }
          if AnyOpened(sockets[1..]) {
            var j :| 0 <= j < |sockets[1..]| && sockets[1..][j].Opened?;
            assert sockets[j + 1].Opened?;
          }
        }
      }
    }
  }

  /** The ping loop's totals are the sum and number of the rounded handshake times. */
  lemma {:induction false} PingTallySums(sockets: seq<Handshake>)
    ensures PingTally(sockets) == Tally(IntSum(RoundedPings(sockets)), |RoundedPings(sockets)|)
  {
    if sockets != [] {
      var init := sockets[..|sockets| - 1];
      var last := sockets[|sockets| - 1];
      assert sockets == init + [last];
      PingTallySums(init);
      RoundedPingsAppend(init, [last]);
      assert [last][1..] == [];
      IntSumAppend(RoundedPings(init), RoundedPings([last]));
    }
  }

  /** `measurePing`: the rounded mean of the rounded handshake times of the
      hosts whose socket opened; when none opened, one HTTP request is timed
      instead (any response counts, its status is not checked), and 0 is
      returned if that request rejects too. It never throws. */
  function MeasurePing(sockets: seq<Handshake>, fallback: Fetch): (r: int)
    ensures r >= 0
    ensures AnyOpened(sockets) ==>
              |RoundedPings(sockets)| > 0
              && r == MathRound(IntSum(RoundedPings(sockets)) as real / |RoundedPings(sockets)| as real)
    ensures !AnyOpened(sockets) && fallback.Response? ==> r == MathRound(fallback.elapsedMs)
    ensures !AnyOpened(sockets) && fallback.NetworkError? ==> r == 0
  {
    PingTallySums(sockets);
    RoundedPingsEmpty(sockets);
    var t := PingTally(sockets);
    if t.count == 0 then
      match fallback
      case Response(_, e, _) => MathRound(e)
      case NetworkError(_) => 0
    else
      IntSumNonNegative(RoundedPings(sockets));
      MathRound(t.total as real / t.count as real)
  }

  /** The HTTP fallback is consulted only when every socket failed: once one
      socket opens, its outcome cannot change the result. */
  lemma FallbackOnlyWhenAllSocketsFail(sockets: seq<Handshake>, f1: Fetch, f2: Fetch)
    requires AnyOpened(sockets)
    ensures MeasurePing(sockets, f1) == MeasurePing(sockets, f2)
  {
  }

  /** The rounded mean lies between the lowest and highest rounded handshake time. */
  lemma {:induction false} PingWithinSamples(sockets: seq<Handshake>, fallback: Fetch, lo: int, hi: int)
    requires AnyOpened(sockets)
    requires forall i :: 0 <= i < |RoundedPings(sockets)| ==> lo <= RoundedPings(sockets)[i] <= hi
    ensures lo <= MeasurePing(sockets, fallback) <= hi
  {
    var ms := RoundedPings(sockets);
    RoundedPingsEmpty(sockets);
    IntSumBetween(ms, lo, hi);
    var mean := IntSum(ms) as real / |ms| as real;
    MeanOfBoundedSum(IntSum(ms), |ms|, lo, hi);
    MathRoundMonotone(lo as real, mean);
    MathRoundMonotone(mean, hi as real);
  }

  // ---------------------------------------------------------- orchestration

  datatype Status = Idle | Testing | Complete

  /** The component's React state. */
  datatype State = State(status: Status, downloadSpeed: real, uploadSpeed: real, ping: int, error: Option<string>)

  /** Everything the network answers during one run. */
  datatype Attempts = Attempts(
    pingSockets: seq<Handshake>,
    pingFallback: Fetch,
    download: seq<Fetch>,
    upload: seq<Fetch>)

  /** One run: the state right after the synchronous resets, the
      measurements started in order, and the state when the run settles. */
  datatype Run = Run(started: State, measured: seq<Phase>, final: State)

  /** `startTest`: reset to testing with zero values, then ping, download and
      upload in sequence. A throw from either speed measurement ends the run
      at once, back in `idle` with the error message; otherwise it ends
      `complete`. */
  function StartTest(net: Attempts): (run: Run)
    ensures run.started == State(Testing, 0.0, 0.0, 0, None)
    ensures run.final.status != Testing
    ensures run.final.ping == MeasurePing(net.pingSockets, net.pingFallback)
    ensures run.final.status == Complete <==> AnySucceeds(net.download) && AnySucceeds(net.upload)
    ensures run.final.status == Complete <==> run.final.error == None
    ensures run.final.status == Idle ==> run.final.error == Some(FailureMessage)
    ensures run.measured == [Ping, Download] + (if AnySucceeds(net.download) then [Upload] else [])
    ensures AnySucceeds(net.download) ==>
              |Successes(net.download)| > 0 && run.final.downloadSpeed == Mean(Successes(net.download))
    ensures !AnySucceeds(net.download) ==> run.final.downloadSpeed == 0.0
    ensures run.final.status == Complete ==>
              |Successes(net.upload)| > 0 && run.final.uploadSpeed == Mean(Successes(net.upload))
    ensures run.final.status != Complete ==> run.final.uploadSpeed == 0.0
  {
    var started := State(Testing, 0.0, 0.0, 0, None);
    var ping := MeasurePing(net.pingSockets, net.pingFallback);
    var afterPing := started.(ping := ping);
    match MeasureSpeed(net.download)
    case Err(_) =>
      Run(started, [Ping, Download], afterPing.(status := Idle, error := Some(FailureMessage)))
    case Ok(down) =>
      var afterDownload := afterPing.(downloadSpeed := down);
      match MeasureSpeed(net.upload)
      case Err(_) =>
        Run(started, [Ping, Download, Upload], afterDownload.(status := Idle, error := Some(FailureMessage)))
      case Ok(up) =>
        Run(started, [Ping, Download, Upload], afterDownload.(uploadSpeed := up, status := Complete))
  }
}
