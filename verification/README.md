# Speed-test measurement logic in Dafny

This project models the measurement logic of a browser speed test that exists in three divergent variants:

- the `SpeedTest` component (`src/components/SpeedTest.js`);
- the `useSpeedTest` hook (`src/hooks/useSpeedTest.ts`);
- the home page (`src/app/home/page.js`).

Each variant turns transfer and ping outcomes into a download speed, an upload speed and a ping. Each one also drives a small run state machine. The variants disagree with each other, so each has its own module rather than one reconciled engine:

- `SpeedTestComponent` averages the successful endpoints and throws when all fail. Its ping is a rounded mean over WebSocket handshakes with one HTTP fallback and a 0 sentinel. Its status goes idle → testing → complete, or back to idle with an error.
- `SpeedTestHook` measures each size of a 256 KiB / 512 KiB / 1 MiB schedule. Each sample overwrites the phase's speed, so the last sample wins, and is appended to a chart series whose `time` is the series length. Its ping is abandoned at the first failed request of five and then stays unset. Any failed sample aborts the rest of the run.
- `HomePage` times one download using the bytes actually received and one 5 MiB upload. A failure of either becomes 0. Its ping returns 0 at the first rejected request of three; the response status is not checked. A results record is always stored.

The network is an input. Every request a variant makes is given as a `Fetch` outcome: a response with its status, its measured elapsed milliseconds and its body size, or a rejection. A WebSocket handshake is given as a `Handshake`. Numbers are exact `real`s. `Math.round` is `Floor(x + 0.5)`. The megabit conversion is `(bytes * 8) / (1024 * 1024 * seconds)`.

Shared modules:

- `Units`: conversion, rounding, sums and means.
- `Network`: the outcome types and `Phase`.
- `Wrappers`: `Option` for `null`, and `Result` for a value or a thrown error.

How the three variants differ from each other:

- Byte count. The component computes every speed from the nominal 25 MiB and never reads the response body. The page's download uses the bytes actually received. The page's upload uses the fixed 5 MiB. The hook uses the payload size it sent.
- Ping failures. The component skips a host whose socket fails and averages the rest. The hook and the page abandon ping at the first failed request.
- Ping fallback. Only the component has one: a single HTTP request, tried when every socket fails, with 0 as a sentinel.
- Ping rounding. The component rounds each handshake time before averaging. The hook and the page round only the mean.
- Reducing speed samples. The component averages the successful endpoints. The hook keeps the last sample of each phase.
- Failed speed samples. In the component, a phase in which every endpoint fails ends the run. In the hook, any failed sample ends the run. In the page, a failure becomes 0 and the run continues.
- Hook phases. The hook's "download" phase POSTs the payload to an echo endpoint, exactly like its upload phase. It therefore measures upload throughput twice. The model keeps this as written.

## Model

| member | source | states |
|---|---|---|
| Units.Mbps | src/components/SpeedTest.js:34-35 | the rate times `1024*1024*seconds` gives back exactly `bytes*8`; it is non-negative and zero only for zero bytes |
| Units.Seconds | src/components/SpeedTest.js:34 | the duration in seconds is positive and 1000 of them make up the elapsed milliseconds |
| Units.MbpsGrowsWithBytes | src/app/home/page.js:28-31 | more bytes in the same time is a strictly higher rate |
| Units.MbpsShrinksWithTime | src/components/SpeedTest.js:33-35 | the same payload taking longer is a strictly lower rate |
| Units.MathRound | src/components/SpeedTest.js:106 | `Math.round`: the nearest integer with halves going up, non-negative for a non-negative argument |
| Units.MeanBetween | src/components/SpeedTest.js:49 | a mean lies between the smallest and largest value averaged |
| SpeedTestComponent.SampleSpeed | src/components/SpeedTest.js:19-38 | an endpoint contributes a speed iff it neither rejects nor answers non-ok; that speed is positive and moves exactly 25 MiB in the measured time |
| SpeedTestComponent.Successes | src/components/SpeedTest.js:23-42 | the successful speeds in list order: no more than the endpoints, all positive |
| SpeedTestComponent.SuccessesEmpty | src/components/SpeedTest.js:45-47 | no speed is recorded exactly when no endpoint succeeds |
| SpeedTestComponent.Accumulate | src/components/SpeedTest.js:20-43 | the endpoint loop's `successfulTests` never exceeds the endpoints visited; its totals are characterised by AccumulateSums |
| SpeedTestComponent.AccumulateSums | src/components/SpeedTest.js:20-43 | the loop's `totalSpeed` and `successfulTests` are the sum and the number of successful speeds; failures add nothing |
| SpeedTestComponent.MeasureSpeed | src/components/SpeedTest.js:18-50 | throws "All speed test endpoints failed" iff no endpoint succeeds; otherwise returns the positive arithmetic mean of the successful speeds |
| SpeedTestComponent.SkipFailedEndpoint | src/components/SpeedTest.js:39-42 | inserting a failing endpoint anywhere in the list leaves the result unchanged |
| SpeedTestComponent.MeasureSpeedWithinSamples | src/components/SpeedTest.js:37-49 | the result lies between the slowest and fastest successful endpoint |
| SpeedTestComponent.SuccessesIgnoreBodies | src/components/SpeedTest.js:19-35 | outcomes that differ only in body size give the same list of speeds |
| SpeedTestComponent.NominalSizeOnly | src/components/SpeedTest.js:19-49 | outcomes that differ only in body size give the same result: the nominal 25 MiB is used, not the bytes received |
| SpeedTestComponent.RoundedPings | src/components/SpeedTest.js:84-86 | each opened socket contributes its rounded, non-negative handshake time |
| SpeedTestComponent.RoundedPingsEmpty | src/components/SpeedTest.js:93 | no ping is recorded exactly when no socket opens |
| SpeedTestComponent.PingTally | src/components/SpeedTest.js:59-91 | the host loop's `successfulPings` never exceeds the hosts tried; its totals are characterised by PingTallySums |
| SpeedTestComponent.PingTallySums | src/components/SpeedTest.js:59-91 | the loop's `totalPing` and `successfulPings` are the sum and the number of rounded handshake times |
| SpeedTestComponent.MeasurePing | src/components/SpeedTest.js:52-107 | never throws and is non-negative; it is the rounded mean of rounded handshake times when a socket opens, otherwise the rounded fallback time, or 0 if the fallback rejects |
| SpeedTestComponent.FallbackOnlyWhenAllSocketsFail | src/components/SpeedTest.js:93-104 | once any socket opens, the fallback request's outcome cannot change the ping |
| SpeedTestComponent.PingWithinSamples | src/components/SpeedTest.js:106 | the ping lies between the lowest and highest rounded handshake time |
| SpeedTestComponent.StartTest | src/components/SpeedTest.js:109-135 | starts in testing with zeros and no error; ends complete iff download and upload both have a successful endpoint, otherwise idle with the error message; upload is attempted only if download returned; a failed download leaves both speeds 0 |
| SpeedTestHook.Payload | src/hooks/useSpeedTest.ts:20 | the body is `size` copies of 'x' |
| SpeedTestHook.PayloadIsSizeBytes | src/hooks/useSpeedTest.ts:20-21 | the blob built from the payload is exactly `size` bytes in UTF-8 |
| SpeedTestHook.MeasureSpeed | src/hooks/useSpeedTest.ts:19-40 | throws iff the request rejects or answers non-ok: a rejection propagates fetch's own error, a non-ok status throws "Network test failed"; otherwise `bits/duration/2^20` equals the shared conversion of `size` bytes |
| SpeedTestHook.SpeedCountsBytesSent | src/hooks/useSpeedTest.ts:20-37 | a sample's speed is the conversion of the bytes actually sent |
| SpeedTestHook.PingTotal | src/hooks/useSpeedTest.ts:44-55 | the ping loop yields a total iff every request succeeds; the total itself is stated by PingTotalSums |
| SpeedTestHook.PingTotalSums | src/hooks/useSpeedTest.ts:44-55 | the ping loop completes iff every request succeeds, and its total is then the sum of the times |
| SpeedTestHook.CalculatePing | src/hooks/useSpeedTest.ts:42-66 | sets ping iff all five requests succeed, to the non-negative rounded mean of the five times; otherwise leaves it unset |
| SpeedTestHook.AppendSample | src/hooks/useSpeedTest.ts:86 | appends one point carrying the speed, keeps the earlier points, and keeps `time` values contiguous from 0 |
| SpeedTestHook.LeadingSuccesses | src/hooks/useSpeedTest.ts:83-87 | the number of completed samples: all before it succeed and the next one fails |
| SpeedTestHook.RunPhase | src/hooks/useSpeedTest.ts:83-96 | a sample loop keeps the earlier points, adds at most one point per size and exactly one per size when it finishes, keeps the series contiguous, and stores a speed once a point is added; RunPhaseSpec states which points |
| SpeedTestHook.RunPhaseSpec | src/hooks/useSpeedTest.ts:83-96 | a phase finishes iff no sample fails; it appends exactly one contiguous point per completed sample with that sample's speed; its stored speed is the last completed sample's, not a mean |
| SpeedTestHook.StartTest | src/hooks/useSpeedTest.ts:68-108 | starts with speeds, ping and series reset and `currentTest` ping; ends with `testing` false and `currentTest` null, the ping `calculatePing` gave, a contiguous series of at most three points, and a download speed whenever upload was entered; StartTestSpec states the rest |
| SpeedTestHook.StartTestSpec | src/hooks/useSpeedTest.ts:68-108 | resets speeds, ping and series; ping failure does not stop the run; upload runs only if every download sample succeeds; the series shows only the last phase reached, contiguous from 0; testing is false and currentTest is null at the end |
| HomePage.GenerateLargeBlob | src/app/home/page.js:10-16 | exactly `size` bytes, byte `i` being `floor(random_i * 256)`, all within 0..255 |
| HomePage.MeasureDownload | src/app/home/page.js:23-31 | non-negative, never throws; positive iff the request succeeds with a non-empty body; the rate moves exactly the bytes received |
| HomePage.MeasureUpload | src/app/home/page.js:32-52 | non-negative, never throws; positive iff the upload succeeds; the rate moves exactly 5 MiB in the POST's own time, whatever the response body holds |
| HomePage.DownloadUsesReceivedBytes | src/app/home/page.js:27-31 | of two equally fast successful downloads, the larger body gives the higher speed |
| HomePage.PingTotal | src/app/home/page.js:56-69 | the ping loop yields a total iff every request is answered, whatever its status; the total is stated by PingTotalSums |
| HomePage.PingTotalSums | src/app/home/page.js:56-69 | the ping loop completes iff every request is answered, whatever the status, and its total is the sum of the times |
| HomePage.MeasurePing | src/app/home/page.js:55-72 | non-negative; 0 if any of the three requests rejects, otherwise the rounded mean of the three times |
| HomePage.StartTest | src/app/home/page.js:74-96 | loading starts with the error cleared and earlier results kept; ping, download and upload are measured in that order; all three are stored as non-negative numbers; loading ends with no error (both callers start a run with no results shown, since the start button appears only without results and "Test Again" clears them first) |

## Left out

- Real I/O is not modelled: `fetch`, WebSocket connections, the 5-second WebSocket timeout and `performance.now`. Each request's outcome and elapsed time is an input.
- Zero elapsed time is excluded. Elapsed times are positive reals (`Millis`), so the JavaScript result `Infinity` for a zero duration is not modelled.
- IEEE double rounding and `toFixed` display formatting are not modelled. Arithmetic is exact over `real`.
- React is not modelled: batching of state updates, async scheduling, toast notifications and console logging. The state is an explicit record. A run is given as the state after the synchronous resets, the phases started, and the settled state.
- Request shapes are not modelled. This covers the component's GET for download and its POST of a zero-filled 25 MiB body for upload, the hook's POST body type, and the page's `FormData` wrapping and the URLs. None of them enters a computed value.
- `Math.random` is not modelled. `GenerateLargeBlob` takes the successive draws as an input in [0, 1).
- The generated upload payload is not linked to the upload measurement. Only its size enters the speed, and the speed uses the constant 5 MiB directly. The time spent generating the payload is not an input, because the upload clock starts after generation.
- The text of fetch's own rejection is not modelled. Browsers differ in it, so it is an input carried by `NetworkError`.
- Presentation is not modelled: `SpeedMeter.tsx`, `SpeedGraph.tsx`, `SpeedTestResults.tsx`, `SpeedTest.tsx` and `layout.js`.
- `src/app/api/upload/route.js` is not modelled. It is a thin request handler mapping a missing file to 400, a present one to 200 and an exception to 500.
- Cancellation, run generation counters and endpoint failover-with-retry are absent from the code and are not modelled. So is a second `startTest` while one is in flight, since the UI hides or disables the button.
- Response bodies in the component are not modelled. Its timing stops when `fetch` resolves, so the body is never read. The elapsed time given is that measurement.
- SpeedTestComponent.MeasureSpeed, SpeedTestComponent.MeasurePing: these are stated for an endpoint list of any length. The code always uses three.
- SpeedTestHook.CalculatePing, HomePage.MeasurePing, SpeedTestHook.StartTestSpec: these take exactly one outcome per request the code can make (5 pings, 3 pings, 3 sizes per phase). Outcomes after the first failure are never consulted.
