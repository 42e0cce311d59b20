# delayhttp dispatch core, modelled in Dafny

delayhttp is an asynchronous HTTP relay. Its `/` handler accepts any request
that carries an `X-Delay-Host` header, captures it, puts it on a bounded job
queue (a Go channel of capacity 1000) and answers "OK" at once. A pool of
worker goroutines takes jobs from the queue in FIFO order. Each worker rewrites
the job into an outbound request for the host named by the header and
sends it with a plain net/http client over a pooled transport, with no retry
policy. When the send returns no error it counts the job as done, whatever the
HTTP status of the reply, 4xx and 5xx included. On the first send that returns
an error it counts the job as failed and leaves its loop for good. `/_stats` reports the three counters and the derived "Working"
value `received - done - failed`.

The model runs this core as one sequential interleaving.

- `Headers` models Go's `http.Header`: a map from canonical header name to its
  list of values, with `Get` and `Del`.
- `Requests` models the parsed request. `Rewritten` specifies the worker's
  rewrite. `Rewrite` performs the same field assignments one at a time, as the
  worker does.
- `Stats` models the `/_stats` line. The counters are uint64 values, and
  "Working" is computed with uint64 (wrapping) subtraction. A reader
  `ParseStats` recovers the four numbers from a line, and round-trip lemmas
  connect it to the renderer `StatsLine`.
- `Dispatch` holds the `Relay` class. Its fields are the job queue, one state
  per worker (`Idle`, `Delivering` the rewritten request, `Halted`) and the
  counters. Its methods are the intake handler, the two halves of a worker
  iteration (`Take`, `Deliver`), a whole iteration (`WorkerStep`), a worker run
  over a sequence of delivery outcomes (`RunWorker`) and the stats handler.
  The class invariant `Valid()` says four things:
  - the queue holds at most 1000 jobs;
  - every queued job has a routing directive;
  - every request being delivered has a host and no X-Delay-Host entry at all;
  - every accepted job is queued, in flight, done or failed, each exactly once:
    `received == done + failed + |queue| + InFlight(workers)`.
- `Scenarios` is a client that uses only the contracts. It checks a 404, a
  worker that halts and then claims nothing, a second worker that drains the
  queue in order, and a balanced stats line.

Where the code is more specific than a plain description of the relay, the
model follows the code:

- A request is turned away when `Header.Get("X-Delay-Host")` is empty. `Get`
  reads only the first value. So a header whose first value is empty is
  rejected even when a later value is not (main.go:68).
- The header check comes before the channel send. A request without the
  header is answered 404 at once, even when the queue is full.
- The worker halts after the first failed delivery (main.go:45-49). The model
  keeps this behaviour as written.

## Model

| member | source | states |
|---|---|---|
| `Headers.Del` | main.go:32-33 | the key is gone and `Get` of it reads ""; every other key is kept with exactly its values, so `Get` of any other key reads what it read before |
| `Requests.Rewritten` | main.go:32-41 | the outbound request: no X-Delay-Host (so it would not be routed again); every other header kept with its values; URL host and Host both equal the first X-Delay-Host value read before deletion; RequestURI cleared; an empty scheme becomes "https" and any other scheme is kept; method, body, protocol, path and query unchanged |
| `Requests.Rewrite` | main.go:32-41 | the worker's step-by-step field assignments produce exactly the rewritten request |
| `Stats.Working` | main.go:81 | uint64 subtraction: adding back done and failed gives received modulo 2^64; when done + failed <= received it is the plain difference |
| `Stats.Decimal` | main.go:81 | %d rendering: non-empty, digits only, no leading zero except for "0" |
| `Stats.DecimalRoundTrip` | main.go:81 | reading a rendered number gives the number back |
| `Stats.ParseDecimalRoundTrip` | main.go:81 | rendering the value of a canonical numeral gives the numeral back (the other direction) |
| `Stats.StatsLineRoundTrip` | main.go:81 | a poller reads from the "Received : [r] = Done [d] + Failed [f] + Working [w]" line exactly r, d, f and the Working value |
| `Stats.StatsLineInjective` | main.go:81 | different counter readings never render the same stats line |
| `Dispatch.InFlight` | main.go:43-52 | counts the workers that hold a job taken from the queue but not yet counted; it is zero exactly when no worker is delivering |
| `Dispatch.InFlightUpdate` | main.go:43-52 | changing one worker's state changes the in-flight count only by that worker's own contribution |
| `Dispatch.Attempted` | main.go:45-49 | the number of jobs a worker takes for given delivery outcomes: all of them when none fails, otherwise up to and including the first failure, with every earlier delivery a success |
| `Dispatch.Relay.constructor` | main.go:58-63 | empty queue, zero counters, the given number of idle workers, invariant established |
| `Dispatch.Relay.Intake` | main.go:66-78 | no routing directive: 404 "Not Found" and nothing changes; otherwise, with room in the queue: the request is appended at the end, received grows by exactly 1, done, failed and the workers are untouched, reply "OK"; with the queue full the handler is still suspended on the send and nothing has changed |
| `Dispatch.Relay.Take` | main.go:25-41 | an idle worker takes the oldest job and holds its rewritten form; a delivering or halted worker, or an empty queue, takes nothing; the counters are untouched |
| `Dispatch.Relay.Deliver` | main.go:43-52 | a delivering worker forwards the request it holds; success adds 1 to done and makes it idle; failure adds 1 to failed and halts it; nothing else changes |
| `Dispatch.Relay.WorkerStep` | main.go:25-53 | one loop iteration of an idle worker with a job available: the oldest job is removed, the request delivered is exactly its rewritten form, exactly one of done or failed grows by 1, the worker halts on failure and is idle again on success, and received is untouched |
| `Dispatch.Relay.RunWorker` | main.go:25-53 | over the next jobs with given outcomes, the worker takes exactly the oldest jobs in queue order up to and including the first failure (all of them when none fails); done grows by the successes and failed by 1 when a delivery failed; the worker ends halted after a failure and idle otherwise; later jobs stay queued |
| `Dispatch.Relay.StatsReply` | main.go:80-82 | the stats line of the uint64 counters; its Working value is the number of jobs queued or in flight (mod 2^64); below 2^64 done + failed <= received, so in the model Working never underflows |
| `Stats.WorkingOfCounts` | main.go:81 | when received = done + failed + pending, the Working value of the wrapped counters is pending mod 2^64, and exactly pending when nothing wraps |

## Left out

- Serialisation of the captured request (`httputil.DumpRequest`, main.go:74) and parsing it back (`http.ReadRequest`, main.go:30) are library code. A job is the parsed request itself, so the two are taken to round-trip. The parse error ignored at main.go:30 is not modelled.
- `hc.Do` (main.go:43) is a foreign network client: a plain `*http.Client` (main.go:22) built with a pooled transport (main.go:57), with no retry policy. Each delivery's outcome is an input: `ok` means `hc.Do` returned no error, whatever the HTTP status (`ok` for `Deliver`, a sequence of outcomes for `RunWorker`).
- Goroutines, atomic increments and torn reads in `/_stats` (main.go:47, 52, 61-63, 76, 81) are concurrency. The model runs one sequential interleaving of intake, worker and stats steps. A worker iteration is split into `Take` and `Deliver` so that jobs can be in flight.
- Blocking on a full channel is modelled as `Intake` returning no reply and changing nothing. Blocking on an empty channel is a worker that takes nothing.
- The counters are exact counts. The uint64 values the program holds are those counts modulo 2^64, and `Counters` and `StatsReply` use them that way.
- Headers.Get: `Header.Get` is net/http library code. It is modelled by its documented definition (the first value, or ""), and its contract restates that definition. The facts the relay relies on are stated about `Headers.Del`.
- Header-name canonicalisation (`CanonicalMIMEHeaderKey`) is library code. Header keys are taken to be canonical already, as `X-Delay-Host` is.
- Dispatch.Relay.Intake: the channel send (main.go:75) and `received++` (main.go:76) are one step in the model. In the program a worker can take the job and reach `done++` (main.go:52) before line 76 runs. A `/_stats` read in that window shows Working as one less than the jobs still queued or in flight, even when every counter is read whole. When no other job is pending, that wraps to 2^64 - 1 (uint64 underflow). The model never shows that state.
- Fields of the parsed request that the relay neither reads nor writes are not modelled: the URL fragment and user info, ContentLength, TransferEncoding, trailers, the remote address and the TLS state. They would be carried over unchanged like the body.
- Logging, the CLI, `http.ListenAndServe` and mux routing (main.go:18-20, 84-133) are I/O and process plumbing.
- Dispatch.Relay.RunWorker: covers a run over jobs that are already queued, for an idle worker. Runs with new arrivals in between are sequences of `Intake` and `WorkerStep` calls.
- Dispatch.Relay.RunWorker: returns the jobs the worker took, in order, rather than the outbound requests; that each delivered request is the rewritten form of the job taken is stated per iteration by `WorkerStep`.
