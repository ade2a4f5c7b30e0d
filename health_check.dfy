/** Readiness probing of a started service: a TCP connect or an HTTP GET, retried with
    a fixed delay. The network and the clock are outside the model: each probe's outcome
    is given per attempt, and the waiting is recorded in a trace instead of performed. */
module HealthCheck {
  import opened Wrappers
  import opened Text

  const Ready := "Service is ready"
  const NotReady := "Service failed to become ready"
  /** The ValueError `time.sleep` raises on a negative length. */
  const NegativeSleep := "sleep length must be non-negative"

  /** How `socket.create_connection((host, port), timeout=5)` ends. */
  datatype TcpOutcome = Connected | TimedOut | SocketError

  /** How `requests.get(url, timeout=5)` ends. */
  datatype HttpOutcome = Response(status: int) | RequestError

  /** The outcomes of the probes, by target and attempt number. */
  datatype Network = Network(tcp: (string, int, nat) -> TcpOutcome, http: (string, nat) -> HttpOutcome)

  /** What the wait does, in order. */
  datatype Event = TcpProbe(host: string, port: int) | HttpGet(url: string) | Sleep(seconds: int)

  /** `check_tcp_port`: up exactly when the connection is established. */
  function CheckTcpPort(outcome: TcpOutcome): (up: bool)
    ensures up <==> outcome == Connected
  {
    match outcome
    case Connected => true
    case TimedOut => false
    case SocketError => false
  }

  /** `check_http_endpoint`: up when any response below 500 arrives; a server error or a
      failed request is down. */
  function CheckHttpEndpoint(outcome: HttpOutcome): (up: bool)
    ensures up <==> outcome.Response? && outcome.status < 500
  {
    match outcome
    case Response(status) => status < 500
    case RequestError => false
  }

  function Url(host: string, port: int): string {
    "http://" + host + ":" + IntToString(port)
  }

  /** The probe one attempt makes; an unknown protocol makes none. */
  function ProbeEvent(protocol: string, host: string, port: int): seq<Event> {
    if protocol == "tcp" then [TcpProbe(host, port)]
    else if protocol == "http" then [HttpGet(Url(host, port))]
    else []
  }

  /** Whether attempt number `attempt` finds the service up. */
  predicate Up(net: Network, protocol: string, host: string, port: int, attempt: nat) {
    (protocol == "tcp" && CheckTcpPort(net.tcp(host, port, attempt)))
    || (protocol == "http" && CheckHttpEndpoint(net.http(Url(host, port), attempt)))
  }

  /** The trace of the first `n` attempts when none of them succeeds: each one probes,
      then sleeps unless it is the last of `maxRetries`. */
  function Schedule(n: nat, maxRetries: int, protocol: string, host: string, port: int, delay: int): seq<Event> {
    if n == 0 then []
    else
      Schedule(n - 1, maxRetries, protocol, host, port, delay)
      + ProbeEvent(protocol, host, port)
      + (if n - 1 < maxRetries - 1 then [Sleep(delay)] else [])
  }

  function Sleeps(trace: seq<Event>): (total: int)
    decreases |trace|
  {
    if trace == [] then 0
    else Sleeps(trace[..|trace| - 1]) + (if trace[|trace| - 1].Sleep? then trace[|trace| - 1].seconds else 0)
  }

  function Probes(trace: seq<Event>): (count: nat)
    decreases |trace|
  {
    if trace == [] then 0
    else Probes(trace[..|trace| - 1]) + (if trace[|trace| - 1].Sleep? then 0 else 1)
  }

  lemma {:induction false} SleepsAppend(a: seq<Event>, b: seq<Event>)
    ensures Sleeps(a + b) == Sleeps(a) + Sleeps(b)
    ensures Probes(a + b) == Probes(a) + Probes(b)
    decreases |b|
  {
    if b == [] {
      assert a + b == a;
    } else {
      assert (a + b)[..|a + b| - 1] == a + b[..|b| - 1];
      SleepsAppend(a, b[..|b| - 1]);
    }
  }

  lemma SingleTotals(e: Event)
    ensures Sleeps([e]) == (if e.Sleep? then e.seconds else 0)
    ensures Probes([e]) == (if e.Sleep? then 0 else 1)
  {
    assert [e][..0] == [];
  }

  lemma ProbeTotals(protocol: string, host: string, port: int)
    ensures Sleeps(ProbeEvent(protocol, host, port)) == 0
    ensures Probes(ProbeEvent(protocol, host, port)) == (if protocol == "tcp" || protocol == "http" then 1 else 0)
  {
    if protocol == "tcp" {
      SingleTotals(TcpProbe(host, port));
    } else if protocol == "http" {
      SingleTotals(HttpGet(Url(host, port)));
    }
  }

  /** Before the last of `maxRetries` attempts, `n` attempts sleep `n` times; all of them
      together sleep one time fewer, and a known protocol probes once per attempt. */
  lemma {:induction false} ScheduleTotals(n: nat, maxRetries: int, protocol: string, host: string, port: int, delay: int)
    requires n <= maxRetries
    ensures Sleeps(Schedule(n, maxRetries, protocol, host, port, delay))
            == (if n == maxRetries && n > 0 then (n - 1) * delay else n * delay)
    ensures Probes(Schedule(n, maxRetries, protocol, host, port, delay))
            == (if protocol == "tcp" || protocol == "http" then n else 0)
  {
    if n > 0 {
      ScheduleTotals(n - 1, maxRetries, protocol, host, port, delay);
      var s := Schedule(n - 1, maxRetries, protocol, host, port, delay);
      var probe := ProbeEvent(protocol, host, port);
      ProbeTotals(protocol, host, port);
      SleepsAppend(s, probe);
      if n < maxRetries {
        SingleTotals(Sleep(delay));
        SleepsAppend(s + probe, [Sleep(delay)]);
        assert Schedule(n, maxRetries, protocol, host, port, delay) == s + probe + [Sleep(delay)];
        assert Sleeps(s) == (n - 1) * delay;
        assert (n - 1) * delay + delay == n * delay;
      } else {
        assert Schedule(n, maxRetries, protocol, host, port, delay) == s + probe + [];
        assert s + probe + [] == s + probe;
        assert Sleeps(s) == (n - 1) * delay;
      }
    }
  }

  /** A wait that never succeeds and is not cut short by a negative sleep: `maxRetries`
      probes and `(maxRetries - 1) * delay` seconds of sleep, never a negative total. */
  lemma FailedWaitTotals(maxRetries: int, protocol: string, host: string, port: int, delay: int)
    requires maxRetries >= 1 && (protocol == "tcp" || protocol == "http")
    requires delay >= 0 || maxRetries == 1
    ensures Sleeps(Schedule(maxRetries, maxRetries, protocol, host, port, delay)) == (maxRetries - 1) * delay >= 0
    ensures Probes(Schedule(maxRetries, maxRetries, protocol, host, port, delay)) == maxRetries
  {
    ScheduleTotals(maxRetries, maxRetries, protocol, host, port, delay);
  }

  /** The first attempt fails and is followed by a sleep of negative length, which raises. */
  predicate SleepRaises(net: Network, protocol: string, host: string, port: int, maxRetries: int, delay: int) {
    delay < 0 && maxRetries > 1 && !Up(net, protocol, host, port, 0)
  }

  /** `wait_for_service`: probe up to `maxRetries` times, sleeping `delay` seconds between
      attempts, and report whether one of them found the service up. A negative `delay`
      makes the first sleep raise, which ends the wait with that error. */
  method WaitForService(net: Network, host: string, port: int, protocol: string, maxRetries: int, delay: int)
    returns (r: Result<(bool, string), string>, trace: seq<Event>)
    ensures r.Failure? <==> SleepRaises(net, protocol, host, port, maxRetries, delay)
    ensures r.Failure? ==> r.error == NegativeSleep && trace == ProbeEvent(protocol, host, port)
    ensures r.Success? ==> (r.value.0 <==> exists a: nat :: a < maxRetries && Up(net, protocol, host, port, a))
    ensures r.Success? ==> r.value.1 == if r.value.0 then Ready else NotReady
    ensures r.Success? && r.value.0 ==>
      exists k: nat :: k < maxRetries && Up(net, protocol, host, port, k)
                       && (forall j: nat :: j < k ==> !Up(net, protocol, host, port, j))
                       && trace == Schedule(k, maxRetries, protocol, host, port, delay) + ProbeEvent(protocol, host, port)
    ensures r.Success? && !r.value.0 ==>
      trace == Schedule(if maxRetries > 0 then maxRetries else 0, maxRetries, protocol, host, port, delay)
  {
    var attempt: nat := 0;
    trace := [];
    while attempt < maxRetries
      invariant maxRetries >= 0 ==> attempt <= maxRetries
      invariant maxRetries < 0 ==> attempt == 0
      invariant attempt > 0 && delay < 0 ==> maxRetries <= 1
      invariant forall j: nat :: j < attempt ==> !Up(net, protocol, host, port, j)
      invariant trace == Schedule(attempt, maxRetries, protocol, host, port, delay)
    {
      if protocol == "tcp" {
        trace := trace + [TcpProbe(host, port)];
        if CheckTcpPort(net.tcp(host, port, attempt)) {
          assert Up(net, protocol, host, port, attempt);
          return Success((true, Ready)), trace;
        }
      } else if protocol == "http" {
        var url := Url(host, port);
        trace := trace + [HttpGet(url)];
        if CheckHttpEndpoint(net.http(url, attempt)) {
          assert Up(net, protocol, host, port, attempt);
          return Success((true, Ready)), trace;
        }
      }
      if attempt < maxRetries - 1 {
        if delay < 0 {
          return Failure(NegativeSleep), trace;
        }
        trace := trace + [Sleep(delay)];
      }
      attempt := attempt + 1;
    }
    return Success((false, NotReady)), trace;
  }
}
