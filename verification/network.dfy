/** What the network does, as seen by the measurement code: every request
    the code issues is given as an input outcome rather than performed. */
module Network {
  import opened Units

  /** The settled result of one `fetch` call: a response (with its status,
      the elapsed time the caller measured around it, and the byte size of
      its body) or a rejection (DNS failure, refused or reset connection,
      CORS block) carrying the message of the error `fetch` rejects with. */
  datatype Fetch = Response(status: int, elapsedMs: Millis, bodyBytes: nat) | NetworkError(reason: string)

  /** `response.ok`: the status is in the 2xx range. */
  predicate IsOk(status: int)
  {
    200 <= status <= 299
  }

  /** A fetch that neither rejects nor answers with a non-ok status. */
  predicate Succeeds(f: Fetch)
  {
    f.Response? && IsOk(f.status)
  }

  predicate AnySucceeds(fs: seq<Fetch>)
  {
    exists i :: 0 <= i < |fs| && Succeeds(fs[i])
  }

  predicate AllSucceed(fs: seq<Fetch>)
  {
    forall i :: 0 <= i < |fs| ==> Succeeds(fs[i])
  }

  predicate AllRespond(fs: seq<Fetch>)
  {
    forall i :: 0 <= i < |fs| ==> fs[i].Response?
  }

  /** The measured times of a sequence of answered requests, in order. */
  function ElapsedTimes(fs: seq<Fetch>): (ts: seq<real>)
    requires AllRespond(fs)
    ensures |ts| == |fs|
    ensures forall i :: 0 <= i < |fs| ==> ts[i] == fs[i].elapsedMs
  {
    if fs == [] then [] else [fs[0].elapsedMs] + ElapsedTimes(fs[1..])
  }

  lemma AllSucceedSnoc(init: seq<Fetch>, last: Fetch)
    ensures AllSucceed(init + [last]) <==> AllSucceed(init) && Succeeds(last)
  {
    var fs := init + [last];
    if AllSucceed(fs) {
      forall i | 0 <= i < |init|
        ensures Succeeds(init[i])
      {
        assert fs[i] == init[i];
      }
      assert fs[|init|] == last;
    }
  }

  lemma AllRespondSnoc(init: seq<Fetch>, last: Fetch)
    ensures AllRespond(init + [last]) <==> AllRespond(init) && last.Response?
  {
    var fs := init + [last];
    if AllRespond(fs) {
      forall i | 0 <= i < |init|
        ensures init[i].Response?
      {
        assert fs[i] == init[i];
      }
      assert fs[|init|] == last;
    }
  }

  /** Answering one more request appends its time to the list of times. */
  lemma ElapsedTimesSnoc(init: seq<Fetch>, last: Fetch)
    requires AllRespond(init) && last.Response?
    ensures AllRespond(init + [last])
    ensures ElapsedTimes(init + [last]) == ElapsedTimes(init) + [last.elapsedMs]
  {
    AllRespondSnoc(init, last);
  }

  /** A WebSocket connection attempt: `onopen` fired after the measured
      time, or `onerror`/the 5-second timeout fired first. */
  datatype Handshake = Opened(elapsedMs: Millis) | Refused

  /** The measurement a run is busy with (`currentTest` in the hook). */
  datatype Phase = Ping | Download | Upload
}
