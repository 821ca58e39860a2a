# Doppler forwarder (metron agent), modelled in Dafny

The metron agent forwards every message it collects to one of a pool of
Doppler servers. It does this through the `DopplerForwarder`, which is built
from four injected collaborators: a network wrapper, a client pool, an
optional retrier and a logger. One `Write(message)` call runs in four steps:

1. Ask the pool for a random client. If that fails, log "failed to pick a client" and stop.
2. Write the message to that client through the network wrapper. On success, count one `DopplerForwarder.sentMessages`.
3. On a write error, log "failed to write message". If a retrier is configured, hand it the same message.
4. If the retrier fails, log "failed to retry message" and count nothing. If it succeeds, count one `DopplerForwarder.retryCount`.

`Weight()` returns the client pool's `Size()` unchanged.

The forwarder's implementation file is not part of this model. Its
behaviour is taken from the assertions of its test suite,
`src/metron/writers/dopplerforwarder/doppler_forwarder_test.go`.

Files:

- `forwarder_spec.dfy`, module `ForwarderSpec`:
  - the values the forwarder exchanges with its collaborators;
  - the terminal state of one call (`Classify`);
  - the effect of one call on the forwarder's observable state (`Step`).
- `forwarder_runs.dfy`, module `ForwarderRuns`:
  - replays a sequence of `Write` calls (`Run`);
  - proves by induction how the accumulated counters, call traces and log relate to
    reference descriptions of that sequence.
- `doppler_forwarder.dfy`, module `DopplerForwarder`:
  - the `Forwarder` class. Its fields gather onto one object what the Go program keeps in its
    collaborators: the two counters live in the global metrics sender (test lines 36, 118, 126, 134),
    the network-wrapper and retrier calls in the mocks' channels, and the log in the logger sink
    (lines 43-44). Go's `New` (line 54) holds only the four collaborators;
  - its `Write` method, written step by step and proved equal to `Step`;
  - a ghost invariant tying the fields to `Run` over every call served so far;
  - `Weight`;
  - six scenario methods covering the nine `It` blocks of the test suite.

The collaborators are modelled by what they answer. `Answers` holds three things for one call:

- what `RandomClient()` returned (a client or an error);
- what the network wrapper's `Write` returned;
- what the retrier's `Retry` returned, which is consulted only when the retrier is called.

Whether a retrier was injected (that is, `retrier` is non-nil) is the `hasRetrier` constant of the forwarder.

The tests do not say what `sentMessages` does after a write that failed
and was then retried successfully. This model counts such a message as sent:
it reached a Doppler.

## Model

| member | source | states |
|---|---|---|
| ForwarderSpec.Classify | src/metron/writers/dopplerforwarder/doppler_forwarder_test.go:57-128 | The terminal state of one call. Selection fails exactly when the pool returned an error. The first attempt succeeds exactly when the pool returned a client and the write returned nil. The retrier is reached exactly when it is configured, a client was picked and the write errored. |
| ForwarderSpec.Step | src/metron/writers/dopplerforwarder/doppler_forwarder_test.go:57-136 | The effect of one `Write`. A selection error is logged with "failed to pick a client" and nothing else happens: no write, no retry, no counter change. Otherwise the wrapper receives exactly the picked client and the given message. A first-time success adds exactly 1 to sentMessages and changes nothing else. A write error logs "failed to write message" first. The retrier gets the identical message exactly when it is configured and the write failed. A retrier error logs "failed to retry message" and leaves retryCount and sentMessages unchanged. A retrier success adds exactly 1 to retryCount. Without a retrier, a failed write moves no counter. |
| ForwarderRuns.Run | src/metron/writers/dopplerforwarder/doppler_forwarder_test.go:118-134 | Over any sequence of calls, the counters never decrease. The wrapper trace, the retrier trace and the log only grow by appending. |
| ForwarderRuns.Tally | src/metron/writers/dopplerforwarder/doppler_forwarder_test.go:57-136 | The number of calls that end in a given terminal state, never more than the number of calls. |
| ForwarderRuns.RunSnoc | src/metron/writers/dopplerforwarder/doppler_forwarder_test.go:59 | Serving one more call applies one `Step` to the accumulated state. |
| ForwarderRuns.RunWrites | src/metron/writers/dopplerforwarder/doppler_forwarder_test.go:58-73 | After any sequence of calls, the wrapper received exactly one (client, message) pair per call whose selection succeeded, in order, with the message unchanged. |
| ForwarderRuns.RunRetries | src/metron/writers/dopplerforwarder/doppler_forwarder_test.go:91-106 | After any sequence of calls, the retrier received exactly the messages of the calls whose write failed while a retrier was configured, in order and unchanged. |
| ForwarderRuns.RunLogLines | src/metron/writers/dopplerforwarder/doppler_forwarder_test.go:70-117 | After any sequence of calls, the log is what was there before followed by exactly the lines each call ought to log, in call order: the pick error for a failed selection, nothing for a successful write, the write error for a failed write, then the retrier's error when a configured retrier also fails. |
| ForwarderRuns.RunCounters | src/metron/writers/dopplerforwarder/doppler_forwarder_test.go:118-134 | sentMessages grows by exactly the number of delivered calls (first attempt or retry). retryCount grows by exactly the number of successful retries. |
| ForwarderRuns.RunLog | src/metron/writers/dopplerforwarder/doppler_forwarder_test.go:70-117 | The log grows by one line per failed selection, one per failed write and one per failed retry. A call whose retry fails logs two lines. |
| ForwarderRuns.NoRetrierNeverRetries | src/metron/writers/dopplerforwarder/doppler_forwarder_test.go:50-83 | With no retrier injected, no call reaches a retry state, the retrier trace never changes and retryCount never moves. |
| ForwarderRuns.TraceLengths | src/metron/writers/dopplerforwarder/doppler_forwarder_test.go:64-106 | Network writes number the calls minus the failed selections. Retrier calls number the successful plus the failed retries. |
| DopplerForwarder.Forwarder.constructor | src/metron/writers/dopplerforwarder/doppler_forwarder_test.go:50-55 | `New` keeps the given pool and retrier presence, starts both counters at 0 with empty traces and log, and establishes the invariant. |
| DopplerForwarder.Forwarder.Write | src/metron/writers/dopplerforwarder/doppler_forwarder_test.go:57-136 | The step-by-step forwarder leaves exactly the state `Step` gives (counters, wrapper calls, retrier calls, log). It records the call and keeps the invariant. |
| DopplerForwarder.Forwarder.Weight | src/metron/writers/dopplerforwarder/doppler_forwarder_test.go:139-147 | The weight is the pool's current `Size()`, unchanged. |
| DopplerForwarder.Forwarder.Accounting | src/metron/writers/dopplerforwarder/doppler_forwarder_test.go:118-134 | For any history of calls on a forwarder, sentMessages is the number of delivered messages and retryCount the number of successful retries. The wrapper calls are exactly those of the calls whose selection succeeded, the retrier calls exactly those of the failed writes with a retrier, and the log exactly the lines those calls ought to log. |
| DopplerForwarder.SelectsRandomClient | src/metron/writers/dopplerforwarder/doppler_forwarder_test.go:58-62 | On a fresh forwarder whose pool picks `client`, one `Write` calls the wrapper once with that client and the message. It then counts sentMessages 1, retryCount 0, no retry and no log line. |
| DopplerForwarder.SelectionErrors | src/metron/writers/dopplerforwarder/doppler_forwarder_test.go:64-97 | When selection errors, the only effect is the "failed to pick a client" line. The wrapper is not called, and the retrier is not called even when one is configured. |
| DopplerForwarder.NetworkWriteFails | src/metron/writers/dopplerforwarder/doppler_forwarder_test.go:75-83 | Without a retrier, a failed write logs "failed to write message" and counts nothing. |
| DopplerForwarder.RetriesFailedWrite | src/metron/writers/dopplerforwarder/doppler_forwarder_test.go:99-127 | With a retrier, a failed write hands the identical message to the retrier once. A successful retry makes retryCount 1. |
| DopplerForwarder.RetrierErrors | src/metron/writers/dopplerforwarder/doppler_forwarder_test.go:108-119 | When the retrier errors, it was called with the message, "failed to retry message" is logged and retryCount stays 0. |
| DopplerForwarder.WeightOfPool | src/metron/writers/dopplerforwarder/doppler_forwarder_test.go:139-147 | A pool of 10 clients gives weight 10 (lines 142, 145). The second half goes beyond the test, as an added no-caching scenario: after the pool shrinks to 3, the next `Weight()` gives 3. |

## Left out

- The forwarder's Go implementation file is not part of this model. Every branch is taken from what the tests assert, and the wording of log lines beyond the phrases the tests look for is not modelled. A log line is the phrase plus the error that caused it.
- DopplerForwarder.Forwarder.Write, ForwarderSpec.Step, ForwarderRuns.RunCounters, DopplerForwarder.Forwarder.Accounting: the tests do not pin down sentMessages after a successful retry. All four count such a message as sent (adding 1), which is an assumption (see above).
- Randomness of `RandomClient`: the pool's answer is an input of each call. The model does not require the picked client to be a member of the pool, and does not model selection failing because the pool is empty. Those are internals of the pool, which are not shown.
- The internals of the network wrapper and the retrier (connections, attempt budgets, back-off, any writes the retrier makes itself) are not shown. Only their returned errors enter the model.
- Metrics plumbing: the global `metrics.Initialize`, the batching sender that flushes every 10 ms, and the test's `Eventually`/`Consistently` timing. The counters are plain unbounded naturals on the forwarder, so uint64 wrap-around is not modelled.
- Channel-based mock synchronisation: calls to the wrapper and the retrier are recorded in traces instead.
- Concurrency: concurrent `Write` calls sharing the counters are not modelled. Each call is atomic in the model.
- The logger sink (gosteno, loggertesthelper): the log is a sequence of lines.
- `integration_tests/trafficcontroller/health_endpoint_test.go`: an HTTP check of a running traffic controller, consisting only of a 200 status and three field names in the body. It is network I/O with no logic here. The stream-health registry behind that endpoint has no source in this model.
