/**
 * A client of the relay that relies on the contracts alone: a request without
 * a routing directive is turned away, one worker halts on its first failed
 * delivery and claims nothing afterwards, another drains the rest in order,
 * and the stats line then balances.
 */
module Scenarios {
  import opened Wrappers
  import opened Requests
  import opened Stats
  import opened Dispatch

  /** An origin-form GET of "/" carrying the given X-Delay-Host value. */
  function Routed(dest: string): Request
  {
    Request("GET", Url("", "", "/", ""), "HTTP/1.1", "relay.local", "/",
            map[RouteHeader := [dest], "Accept" := ["*/*"]], [])
  }

  /** A request without a routing directive is answered 404 and changes nothing. */
  method RejectsUnrouted()
  {
    var relay := new Relay(2);
    var bare := Request("GET", Url("", "", "/", ""), "HTTP/1.1", "relay.local", "/", map[], []);
    var reply := relay.Intake(bare);
    assert reply == Some(NotFound) && relay.received == 0 && relay.queue == [];
  }

  /** Two idle workers and three routed jobs, accepted in order. */
  method Loaded() returns (relay: Relay)
    ensures fresh(relay) && relay.Valid()
    ensures relay.queue == [Routed("a.example"), Routed("b.example"), Routed("c.example")]
    ensures relay.workers == [Idle, Idle]
    ensures relay.received == 3 && relay.done == 0 && relay.failed == 0
  {
    relay := new Relay(2);
    assert relay.workers == [Idle, Idle];
    var reply := relay.Intake(Routed("a.example"));
    assert reply == Some(Accepted);
    reply := relay.Intake(Routed("b.example"));
    reply := relay.Intake(Routed("c.example"));
  }

  /** A failed delivery halts its worker, which then takes no further job. */
  method OneWorkerHalts()
  {
    var relay := Loaded();
    var sent := relay.WorkerStep(0, false);
    assert sent.host == "a.example" && sent.url.scheme == "https";
    assert RouteHeader !in sent.header && sent.header["Accept"] == ["*/*"];
    assert relay.workers[0] == Halted && relay.failed == 1;

    var job := relay.Take(0);
    assert job == None && relay.queue == [Routed("b.example"), Routed("c.example")];
  }

  /** After one failure, a second worker drains the queue in order and the stats line balances. */
  method OtherWorkerDrains()
  {
    var relay := Loaded();
    var sent := relay.WorkerStep(0, false);
    var rest := relay.RunWorker(1, [true, true]);
    assert rest == [Routed("b.example"), Routed("c.example")];
    assert relay.queue == [] && relay.done == 2 && relay.failed == 1 && relay.received == 3;

    var line := relay.StatsReply();
    assert line == StatsLine(Snapshot(3, 2, 1));
    StatsLineRoundTrip(Snapshot(3, 2, 1));
    assert ParseStats(line) == Some(Report(3, 2, 1, 0));
  }
}
