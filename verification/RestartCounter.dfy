/** The metrics exporter's restart counter, fed by the retry-handler supervisor's counts. */
module RestartCounter {
  import opened Basics

  datatype HandlerStatus = HandlerStatus(device: string, running: bool, restarts: int)

  /** The counter vector and the counts last seen. */
  datatype Books = Books(last: map<string, int>, counter: map<string, int>)

  function CounterOf(b: Books, device: string): int { if device in b.counter then b.counter[device] else 0 }

  function Enter(b: Books, st: HandlerStatus): Books {
    var grown := st.device in b.last && st.restarts > b.last[st.device];
    Books(b.last[st.device := st.restarts],
          if grown then b.counter[st.device := CounterOf(b, st.device) + (st.restarts - b.last[st.device])] else b.counter)
  }

  function EnterAll(b: Books, statuses: seq<HandlerStatus>): Books {
    if statuses == [] then b else Enter(EnterAll(b, statuses[..|statuses| - 1]), statuses[|statuses| - 1])
  }

  /** The running gauges: for each device what was read last. */
  function Gauges(g: map<string, bool>, statuses: seq<HandlerStatus>): map<string, bool> {
    if statuses == [] then g
    else var st := statuses[|statuses| - 1]; Gauges(g, statuses[..|statuses| - 1])[st.device := st.running]
  }

  /** The i-th status is the last one of the device. */
  predicate LastOf(statuses: seq<HandlerStatus>, device: string, i: int) {
    && 0 <= i < |statuses| && statuses[i].device == device
    && forall j :: i < j < |statuses| ==> statuses[j].device != device
  }

  /** Each device's gauge shows the running flag of the last status of that device, and stays as
      it is if there is none. */
  lemma {:induction false} GaugeShows(g: map<string, bool>, statuses: seq<HandlerStatus>, device: string)
    ensures var r := Gauges(g, statuses);
      || (device in r && exists i :: LastOf(statuses, device, i) && r[device] == statuses[i].running)
      || ((forall i :: 0 <= i < |statuses| ==> statuses[i].device != device)
            && (device in r <==> device in g) && (device in g ==> r[device] == g[device]))
  {
    if statuses != [] {
      var front, last := statuses[..|statuses| - 1], statuses[|statuses| - 1];
      GaugeShows(g, front, device);
      if last.device == device {
        assert LastOf(statuses, device, |statuses| - 1);
      } else if exists i :: 0 <= i < |front| && front[i].device == device {
        var i :| LastOf(front, device, i) && Gauges(g, front)[device] == front[i].running;
        assert forall j :: i <= j < |front| ==> statuses[j] == front[j];
        assert LastOf(statuses, device, i);
      } else {
        assert forall i :: 0 <= i < |front| ==> statuses[i] == front[i];
      }
    }
  }

  class Exporter {
    var lastRestartCounts: map<string, int>
    var restarts: map<string, int>
    var running: map<string, bool>
    var scrapeErrors: nat

    constructor ()
      ensures lastRestartCounts == map[] && restarts == map[]
    {
      lastRestartCounts, restarts, running, scrapeErrors := map[], map[], map[], 0;
    }

    function State(): Books reads this { Books(lastRestartCounts, restarts) }

    /** One scrape; None is a client that could not be reached or read. */
    method ScrapeRetryHandlerStatus(answer: Option<seq<HandlerStatus>>)
      modifies this
      ensures answer.None? ==> State() == old(State()) && running == old(running) && scrapeErrors == old(scrapeErrors) + 1
      ensures answer.Some? ==> State() == EnterAll(old(State()), answer.value) && scrapeErrors == old(scrapeErrors)
      ensures answer.Some? ==> running == Gauges(old(running), answer.value)
    {
      match answer {
        case None => scrapeErrors := scrapeErrors + 1;
        case Some(statuses) =>
          for i := 0 to |statuses|
            invariant State() == EnterAll(old(State()), statuses[..i])
            invariant scrapeErrors == old(scrapeErrors)
            invariant running == Gauges(old(running), statuses[..i])
          {
            var status := statuses[i];
            assert statuses[..i + 1][..i] == statuses[..i];
            running := running[status.device := status.running];
            if status.device in lastRestartCounts && status.restarts > lastRestartCounts[status.device] {
              var before := if status.device in restarts then restarts[status.device] else 0;
              restarts := restarts[status.device := before + (status.restarts - lastRestartCounts[status.device])];
            }
            lastRestartCounts := lastRestartCounts[status.device := status.restarts];
          }
          assert statuses[..|statuses|] == statuses;
      }
    }
  }

  // ----- the counter as a function of what was seen

  /** The counts seen for one device, in order. */
  function Seen(statuses: seq<HandlerStatus>, device: string): seq<int> {
    if statuses == [] then []
    else
      var st := statuses[|statuses| - 1];
      Seen(statuses[..|statuses| - 1], device) + (if st.device == device then [st.restarts] else [])
  }

  function Rise(a: int, b: int): nat { if b > a then b - a else 0 }

  /** The sum of the positive differences of neighbours. */
  function Rises(counts: seq<int>): nat {
    if |counts| < 2 then 0 else Rises(counts[..|counts| - 1]) + Rise(counts[|counts| - 2], counts[|counts| - 1])
  }

  /** After any scrapes the counter is the sum of the positive differences seen. */
  lemma {:induction false} CounterIsRises(statuses: seq<HandlerStatus>, device: string)
    ensures var b, seen := EnterAll(Books(map[], map[]), statuses), Seen(statuses, device);
      && CounterOf(b, device) == Rises(seen)
      && (device in b.last <==> seen != [])
      && (seen != [] ==> b.last[device] == seen[|seen| - 1])
  {
    if statuses != [] {
      CounterIsRises(statuses[..|statuses| - 1], device);
      var seen := Seen(statuses[..|statuses| - 1], device);
      var st := statuses[|statuses| - 1];
      if st.device == device {
        assert (seen + [st.restarts])[..|seen|] == seen;
      } else {
        assert seen + [] == seen;
      }
    }
  }

  predicate NeverDrops(counts: seq<int>) { forall i :: 0 <= i < |counts| - 1 ==> counts[i] <= counts[i + 1] }

  /** While counts never drop, that is last minus first. */
  lemma {:induction false} RisesTelescope(counts: seq<int>)
    requires counts != [] && NeverDrops(counts)
    ensures Rises(counts) == counts[|counts| - 1] - counts[0]
  {
    if |counts| > 1 {
      RisesTelescope(counts[..|counts| - 1]);
    }
  }
}
