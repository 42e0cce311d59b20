/**
 * The dispatch core of the relay, run as one sequential interleaving: the
 * intake handler appends captured requests to a bounded FIFO job queue, and
 * workers take jobs from its front, rewrite them, deliver them through an
 * opaque client and count the outcome. A worker whose delivery fails stops
 * for good.
 */
module Dispatch {
  import opened Wrappers
  import opened Requests
  import opened Stats

  /** Buffer size of the jobs channel. */
  const QueueCapacity: nat := 1000

  /** The intake handler's reply: a status code and a body. */
  datatype Response = Response(status: nat, body: string)

  const NotFound: Response := Response(404, "Not Found")
  const Accepted: Response := Response(200, "OK")

  /**
   * A worker between jobs (Idle), in the middle of one delivery holding the
   * outbound request (Delivering), or stopped after a failed delivery (Halted).
   */
  datatype WorkerState = Idle | Delivering(outbound: Request) | Halted

  function DeliveringCount(w: WorkerState): nat
  {
    if w.Delivering? then 1 else 0
  }

  /** Every job in the sequence carries a routing directive. */
  predicate AllRouted(q: seq<Request>)
  {
    q == [] || (HasRoute(q[0]) && AllRouted(q[1..]))
  }

  lemma {:induction false} AllRoutedIff(q: seq<Request>)
    ensures AllRouted(q) <==> forall j :: j in q ==> HasRoute(j)
  {
    if q != [] {
      AllRoutedIff(q[1..]);
      assert forall j :: j in q <==> j == q[0] || j in q[1..];
    }
  }

  /** A worker in the middle of a delivery holds a request with a host and no X-Delay-Host entry at all. */
  predicate Forwardable(w: WorkerState)
  {
    w.Delivering? ==> w.outbound.host != "" && RouteHeader !in w.outbound.header
  }

  predicate AllForwardable(ws: seq<WorkerState>)
  {
    ws == [] || (Forwardable(ws[0]) && AllForwardable(ws[1..]))
  }

  lemma {:induction false} AllForwardableIff(ws: seq<WorkerState>)
    ensures AllForwardable(ws) <==> forall i :: 0 <= i < |ws| ==> Forwardable(ws[i])
  {
    if ws != [] {
      AllForwardableIff(ws[1..]);
      assert forall i :: 1 <= i < |ws| ==> ws[1..][i - 1] == ws[i];
    }
  }

  /** Number of workers in the middle of a delivery: the jobs taken from the queue but not yet counted. */
  function InFlight(ws: seq<WorkerState>): (n: nat)
    ensures n <= |ws|
    ensures n == 0 <==> forall i :: 0 <= i < |ws| ==> !ws[i].Delivering?
  {
    if ws == [] then 0 else DeliveringCount(ws[0]) + InFlight(ws[1..])
  }

  /** Changing one worker's state changes the in-flight count by that worker's contribution alone. */
  lemma {:induction false} InFlightUpdate(ws: seq<WorkerState>, i: nat, w: WorkerState)
    requires i < |ws|
    ensures InFlight(ws[i := w]) + DeliveringCount(ws[i]) == InFlight(ws) + DeliveringCount(w)
  {
    if i > 0 {
      assert ws[i := w][1..] == ws[1..][i - 1 := w];
      InFlightUpdate(ws[1..], i - 1, w);
    }
  }

  /**
   * How many jobs a worker takes when the deliveries of the next jobs have the
   * given outcomes: every job up to and including the first failed one, or all
   * of them when none fails.
   */
  function Attempted(outcomes: seq<bool>): (n: nat)
    ensures n <= |outcomes|
    ensures false !in outcomes ==> n == |outcomes|
    ensures false in outcomes ==> 0 < n && !outcomes[n - 1] && forall k :: 0 <= k < n - 1 ==> outcomes[k]
  {
    if outcomes == [] then 0
    else if !outcomes[0] then 1
    else 1 + Attempted(outcomes[1..])
  }

  /** A run whose first failure is delivery i - 1 attempts exactly i deliveries. */
  lemma {:induction false} AttemptedStopsAt(outcomes: seq<bool>, i: nat)
    requires 0 < i <= |outcomes| && !outcomes[i - 1]
    requires forall k :: 0 <= k < i - 1 ==> outcomes[k]
    ensures Attempted(outcomes) == i && false in outcomes
  {
    if i > 1 {
      AttemptedStopsAt(outcomes[1..], i - 1);
    }
  }

  class Relay {
    /** Captured jobs waiting for a worker, oldest first. */
    var queue: seq<Request>
    /** One state per worker goroutine. */
    var workers: seq<WorkerState>
    /** Jobs accepted by the intake handler. */
    var received: nat
    /** Deliveries that succeeded. */
    var done: nat
    /** Deliveries that failed. */
    var failed: nat

    /**
     * The queue stays within its capacity and holds only routed jobs, every
     * worker in the middle of a delivery holds a rewritten request, and every
     * accepted job is queued, in flight, done or failed.
     */
    ghost predicate Valid()
      reads this
    {
      && |queue| <= QueueCapacity
      && AllRouted(queue)
      && AllForwardable(workers)
      && received == done + failed + |queue| + InFlight(workers)
    }

    /** A relay with an empty queue, zeroed counters and `workerCount` idle workers. */
    constructor (workerCount: nat)
      ensures Valid()
      ensures queue == [] && received == 0 && done == 0 && failed == 0
      ensures |workers| == workerCount && forall i :: 0 <= i < workerCount ==> workers[i] == Idle
    {
      queue := [];
      workers := seq(workerCount, _ => Idle);
      received, done, failed := 0, 0, 0;
      AllForwardableIff(seq(workerCount, _ => Idle));
    }

    /**
     * The "/" handler. A request without a routing directive is answered 404
     * "Not Found" and changes nothing. A routed request is appended to the
     * queue, counted as received and answered "OK". When the queue is full the
     * handler is suspended on the send (None): nothing has changed yet.
     */
    method Intake(req: Request) returns (reply: Option<Response>)
      requires Valid()
      modifies this
      ensures Valid()
      ensures !HasRoute(req) ==> reply == Some(NotFound) && unchanged(this)
      ensures HasRoute(req) && |old(queue)| == QueueCapacity ==> reply == None && unchanged(this)
      ensures HasRoute(req) && |old(queue)| < QueueCapacity ==>
        && reply == Some(Accepted)
        && queue == old(queue) + [req]
        && received == old(received) + 1
        && done == old(done) && failed == old(failed) && workers == old(workers)
    {
      if Route(req) == "" {
        return Some(NotFound);
      }
      if |queue| == QueueCapacity {
        return None;
      }
      AllRoutedIff(queue);
      AllRoutedIff(queue + [req]);
      queue := queue + [req];
      received := received + 1;
      reply := Some(Accepted);
    }

    /**
     * An idle worker takes the oldest job, rewrites it and starts delivering
     * it. A worker that is not idle, or finds the queue empty, takes nothing.
     */
    method Take(id: nat) returns (job: Option<Request>)
      requires Valid() && id < |workers|
      modifies this
      ensures Valid()
      ensures received == old(received) && done == old(done) && failed == old(failed)
      ensures old(workers[id]) == Idle && old(queue) != [] ==>
        && job == Some(old(queue)[0])
        && queue == old(queue)[1..]
        && workers == old(workers)[id := Delivering(Rewritten(old(queue)[0]))]
      ensures !(old(workers[id]) == Idle && old(queue) != []) ==> job == None && unchanged(this)
    {
      if workers[id] != Idle || queue == [] {
        return None;
      }
      var j := queue[0];
      var out := Rewrite(j);
      InFlightUpdate(workers, id, Delivering(out));
      AllForwardableIff(workers);
      AllForwardableIff(workers[id := Delivering(out)]);
      queue := queue[1..];
      workers := workers[id := Delivering(out)];
      job := Some(j);
    }

    /**
     * A delivering worker learns the outcome of its delivery. `ok` means the
     * client's Do returned no error; a reply with any HTTP status, 4xx and 5xx
     * included, is a success. On success the worker counts the job as done and
     * becomes idle, on an error it counts the job as failed and halts. A worker
     * that is not delivering is unaffected.
     */
    method Deliver(id: nat, ok: bool) returns (sent: Option<Request>)
      requires Valid() && id < |workers|
      modifies this
      ensures Valid()
      ensures queue == old(queue) && received == old(received)
      ensures old(workers[id]).Delivering? ==>
        && sent == Some(old(workers[id]).outbound)
        && done == old(done) + (if ok then 1 else 0)
        && failed == old(failed) + (if ok then 0 else 1)
        && workers == old(workers)[id := if ok then Idle else Halted]
      ensures !old(workers[id]).Delivering? ==> sent == None && unchanged(this)
    {
      if !workers[id].Delivering? {
        return None;
      }
      sent := Some(workers[id].outbound);
      var next := if ok then Idle else Halted;
      InFlightUpdate(workers, id, next);
      AllForwardableIff(workers);
      AllForwardableIff(workers[id := next]);
      workers := workers[id := next];
      if ok {
        done := done + 1;
      } else {
        failed := failed + 1;
      }
    }

    /**
     * One iteration of a running worker's loop once a job is available: take
     * the oldest job, rewrite it, deliver it with outcome `ok` and count it.
     */
    method WorkerStep(id: nat, ok: bool) returns (sent: Request)
      requires Valid() && id < |workers| && workers[id] == Idle && queue != []
      modifies this
      ensures Valid()
      ensures sent == Rewritten(old(queue)[0])
      ensures queue == old(queue)[1..] && received == old(received)
      ensures done == old(done) + (if ok then 1 else 0)
      ensures failed == old(failed) + (if ok then 0 else 1)
      ensures workers == old(workers)[id := if ok then Idle else Halted]
    {
      var job := Take(id);
      var out := Deliver(id, ok);
      sent := out.value;
    }

    /**
     * A worker runs its loop over the next |outcomes| jobs, whose deliveries
     * have the given outcomes: it takes them in queue order, up to and
     * including the first failed one, forwarding each (see WorkerStep). It
     * halts if a delivery failed; otherwise it stays idle. The jobs after the
     * last one taken stay queued. Each job taken is counted once, as done or
     * as failed.
     */
    method RunWorker(id: nat, outcomes: seq<bool>) returns (taken: seq<Request>)
      requires Valid() && id < |workers| && workers[id] == Idle
      requires |outcomes| <= |queue|
      modifies this
      ensures Valid()
      ensures var n := Attempted(outcomes);
        && taken == old(queue)[..n]
        && queue == old(queue)[n..]
        && received == old(received)
        && done == old(done) + (if false in outcomes then n - 1 else n)
        && failed == old(failed) + (if false in outcomes then 1 else 0)
        && workers == old(workers)[id := if false in outcomes then Halted else Idle]
    {
      ghost var jobs, before, r0, d0, f0 := queue, workers, received, done, failed;
      taken := [];
      var i := 0;
      while i < |outcomes|
        invariant Valid() && workers == before
        invariant 0 <= i <= |outcomes|
        invariant forall k :: 0 <= k < i ==> outcomes[k]
        invariant taken == jobs[..i]
        invariant queue == jobs[i..]
        invariant received == r0 && done == d0 + i && failed == f0
      {
        assert queue[0] == jobs[i] && queue[1..] == jobs[i + 1..];
        assert jobs[..i + 1] == jobs[..i] + [jobs[i]];
        taken := taken + [queue[0]];
        var out := WorkerStep(id, outcomes[i]);
        if !outcomes[i] {
          AttemptedStopsAt(outcomes, i + 1);
          return;
        }
        i := i + 1;
      }
    }

    /** The current counters as the uint64 variables hold them (they wrap modulo 2^64). */
    function Counters(): Snapshot
      reads this
    {
      Snapshot(received % U64Limit, done % U64Limit, failed % U64Limit)
    }

    /**
     * The "/_stats" handler: the stats line of the counters as the uint64
     * variables hold them. Its Working value is the number of jobs queued or in
     * flight (modulo 2^64), and while fewer than 2^64 jobs have been accepted
     * nothing wraps and done + failed never exceeds received.
     */
    method StatsReply() returns (line: string)
      requires Valid()
      ensures line == StatsLine(Counters())
      ensures Working(Counters()) == (|queue| + InFlight(workers)) % U64Limit
      ensures received < U64Limit ==>
        && Counters() == Snapshot(received, done, failed)
        && done + failed <= received
        && Working(Counters()) == received - done - failed
    {
      line := StatsLine(Counters());
      WorkingOfCounts(received, done, failed, |queue| + InFlight(workers));
    }
  }
}
