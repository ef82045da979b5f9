/**
  The resilient Jetstream streaming client (internal/indexer/client.go).

  The client dials the endpoint, hands the connection to a read loop that
  feeds every message to the handler, and dials again whenever the read loop
  ends.  Failed dials are retried after an exponentially growing, capped delay;
  a connection that was live is re-dialled at once.  Only cancellation stops it.

  The network, the timer and the context are not modelled as such: what they
  report at each point where the client waits is an `Outcome` given to `Step`.
  The state of the client is given twice: as the value `ClientState`, whose
  transition function `Next` is the specification, and as the class `Client`,
  whose fields are updated in place and whose methods are proved against `Next`.
 */
module Indexer {
  import opened Wrappers

  /** A time.Duration: a whole number of nanoseconds. */
  type Duration = int

  const Millisecond: Duration := 1_000_000

  /** The client's configuration; only the delays matter to the control logic. */
  datatype Config = Config(url: string, baseDelay: Duration, maxDelay: Duration, jitterFactor: real)

  /** The identity of an open WebSocket connection. */
  type Conn = nat

  /**
    Where the client is in `Run`: at the head of its loop about to check the
    context and dial, waiting out a backoff delay, inside the read loop, or
    returned after cancellation.
   */
  datatype Phase = Connecting | Waiting | Streaming | Stopped

  /**
    What the outside world reports at the point where the client waits next:
    the context is found cancelled, the dial succeeds with a connection or
    fails, the backoff timer fires, a message is read and the handler accepts
    it, reading fails, or a message is read and the handler returns an error.
   */
  datatype Outcome = Cancelled | DialOk(conn: Conn) | DialFail | TimerFired | Msg | ReadErr | HandlerErr

  datatype ClientState = ClientState(conn: Option<Conn>, isConnected: bool, reconnectCount: nat, phase: Phase)

  /** A step's new state, and the backoff delay it schedules, if any. */
  datatype Transition = Transition(state: ClientState, wait: Option<Duration>)

  /** A run's final state and the backoff delays it waited, in order. */
  datatype Trace = Trace(state: ClientState, waits: seq<Duration>)

  /** A freshly constructed client: no connection, no failures, at the head of `Run`. */
  const Initial: ClientState := ClientState(None, false, 0, Connecting)

  /**
    The connection handle and the connected flag change together, and the
    client is connected exactly while it is in the read loop.
   */
  predicate Consistent(s: ClientState) {
    && (s.isConnected <==> s.conn.Some?)
    && (s.phase == Streaming <==> s.isConnected)
  }

  function Pow2(n: nat): (p: nat)
    ensures p >= 1
  {
    if n == 0 then 1 else 2 * Pow2(n - 1)
  }

  lemma {:induction false} Pow2Monotone(m: nat, n: nat)
    requires m <= n
    ensures Pow2(m) <= Pow2(n)
  {
    if m < n {
      Pow2Monotone(m, n - 1);
    }
  }

  /**
    The backoff delay before jitter for a client that has failed to dial
    `count` times in a row: the base delay doubled `count` times, capped at the
    maximum delay.
   */
  function ComputeBackoff(cfg: Config, count: nat): (d: Duration)
    ensures d <= cfg.maxDelay && d <= cfg.baseDelay * Pow2(count)
    ensures d == cfg.maxDelay || d == cfg.baseDelay * Pow2(count)
  {
    var backoff := cfg.baseDelay * Pow2(count);
    if backoff > cfg.maxDelay then cfg.maxDelay else backoff
  }

  /** With no failure yet the delay is exactly the base delay. */
  lemma BackoffStartsAtBase(cfg: Config)
    requires cfg.baseDelay <= cfg.maxDelay
    ensures ComputeBackoff(cfg, 0) == cfg.baseDelay
  {
  }

  /** The delay never shrinks as failures accumulate. */
  lemma {:induction false} BackoffMonotone(cfg: Config, m: nat, n: nat)
    requires cfg.baseDelay >= 0 && m <= n
    ensures ComputeBackoff(cfg, m) <= ComputeBackoff(cfg, n)
  {
    Pow2Monotone(m, n);
    MulMonotone(cfg.baseDelay, Pow2(m), Pow2(n));
  }

  lemma MulMonotone(a: int, x: int, y: int)
    requires a >= 0 && x <= y
    ensures a * x <= a * y
  {
  }

  /** Each further failure doubles the delay until the cap is reached. */
  lemma BackoffDoubles(cfg: Config, n: nat)
    requires 0 <= cfg.baseDelay && 0 <= cfg.maxDelay
    ensures ComputeBackoff(cfg, n + 1) ==
              if 2 * ComputeBackoff(cfg, n) > cfg.maxDelay then cfg.maxDelay else 2 * ComputeBackoff(cfg, n)
  {
    assert cfg.baseDelay * Pow2(n + 1) == 2 * (cfg.baseDelay * Pow2(n));
  }

  /** The effect of `close`: no connection and not connected, whatever the state before. */
  function Closed(s: ClientState): (t: ClientState)
    ensures t.conn == None && !t.isConnected
    ensures t.reconnectCount == s.reconnectCount && t.phase == s.phase
  {
    s.(conn := None, isConnected := false)
  }

  /**
    One step of `Run` (and of `readLoop`, which `Run` enters while streaming).
    At the loop head a cancelled context closes the client and stops it; a
    successful dial installs the connection, resets the failure counter and
    enters the read loop; a failed dial schedules the backoff for the counter
    before it is incremented, then increments it.  While waiting, cancellation
    stops the client and the timer sends it back to the loop head.  In the read
    loop, cancellation makes it return and `Run` then close and stop; a read
    error, or an error from a handler that is present, closes the connection
    and returns to the loop head with no backoff.  An outcome that cannot arise
    in the current phase changes nothing.
   */
  function Next(cfg: Config, hasHandler: bool, s: ClientState, ev: Outcome): (t: Transition)
    ensures t.wait.Some? <==> s.phase == Connecting && ev == DialFail
    ensures t.wait.Some? ==>
              t.wait.value == ComputeBackoff(cfg, s.reconnectCount) &&
              t.state.reconnectCount == s.reconnectCount + 1
    ensures s.phase == Connecting && ev.DialOk? ==>
              t.state == ClientState(Some(ev.conn), true, 0, Streaming)
    ensures s.phase != Stopped && ev == Cancelled ==> t.state.phase == Stopped
    ensures t.state.phase == Stopped ==> s.phase == Stopped || ev == Cancelled
    ensures s.phase == Stopped ==> t.state == s
    ensures s.phase == Streaming && t.state.phase != Streaming ==> !t.state.isConnected && t.state.conn == None
    ensures t.state.reconnectCount != s.reconnectCount ==> ev == DialFail || ev.DialOk?
    ensures Consistent(s) ==> Consistent(t.state)
  {
    match s.phase
    case Stopped => Transition(s, None)
    case Connecting =>
      (match ev
       case Cancelled => Transition(Closed(s).(phase := Stopped), None)
       case DialOk(c) => Transition(s.(conn := Some(c), isConnected := true, reconnectCount := 0, phase := Streaming), None)
       case DialFail =>
         Transition(s.(reconnectCount := s.reconnectCount + 1, phase := Waiting), Some(ComputeBackoff(cfg, s.reconnectCount)))
       case _ => Transition(s, None))
    case Waiting =>
      (match ev
       case Cancelled => Transition(s.(phase := Stopped), None)
       case TimerFired => Transition(s.(phase := Connecting), None)
       case _ => Transition(s, None))
    case Streaming =>
      (match ev
       case Cancelled => Transition(Closed(s).(phase := Stopped), None)
       case ReadErr => Transition(Closed(s).(phase := Connecting), None)
       case HandlerErr =>
         if hasHandler then Transition(Closed(s).(phase := Connecting), None) else Transition(s, None)
       case _ => Transition(s, None))
  }

  function WaitList(w: Option<Duration>): seq<Duration> {
    if w.Some? then [w.value] else []
  }

  /** The steps of `Run` for a sequence of outcomes, with the backoff delays it waits. */
  function Replay(cfg: Config, hasHandler: bool, s: ClientState, evs: seq<Outcome>): (r: Trace)
    ensures s.phase == Stopped ==> r == Trace(s, [])
    ensures Consistent(s) ==> Consistent(r.state)
    ensures r.state.phase == Stopped ==> s.phase == Stopped || Cancelled in evs
    ensures |r.waits| <= |evs|
    decreases |evs|
  {
    if evs == [] then
      Trace(s, [])
    else
      var t := Next(cfg, hasHandler, s, evs[0]);
      var rest := Replay(cfg, hasHandler, t.state, evs[1..]);
      assert Cancelled in evs[1..] ==> Cancelled in evs;
      Trace(rest.state, WaitList(t.wait) + rest.waits)
  }

  lemma TakeOneMore<T>(s: seq<T>, i: nat)
    requires i < |s|
    ensures s[..i + 1] == s[..i] + [s[i]]
  {
  }

  lemma SplitAt<T>(s: seq<T>, i: nat)
    requires i <= |s|
    ensures s[..i] + s[i..] == s
  {
  }

  /** Replaying one more outcome takes one more step of `Next`. */
  lemma ReplaySnoc(cfg: Config, hasHandler: bool, s: ClientState, evs: seq<Outcome>, ev: Outcome)
    ensures var r := Replay(cfg, hasHandler, s, evs);
            var t := Next(cfg, hasHandler, r.state, ev);
            Replay(cfg, hasHandler, s, evs + [ev]) == Trace(t.state, r.waits + WaitList(t.wait))
  {
    ReplayAppend(cfg, hasHandler, s, evs, [ev]);
    var r := Replay(cfg, hasHandler, s, evs);
    var t := Next(cfg, hasHandler, r.state, ev);
    assert [ev][1..] == [];
    assert Replay(cfg, hasHandler, r.state, [ev]) == Trace(t.state, WaitList(t.wait) + []);
  }

  lemma {:induction false} ReplayAppend(cfg: Config, hasHandler: bool, s: ClientState, evs: seq<Outcome>, more: seq<Outcome>)
    ensures var r := Replay(cfg, hasHandler, s, evs);
            var r' := Replay(cfg, hasHandler, r.state, more);
            Replay(cfg, hasHandler, s, evs + more) == Trace(r'.state, r.waits + r'.waits)
    decreases |evs|
  {
    if evs == [] {
      assert evs + more == more;
    } else {
      var t := Next(cfg, hasHandler, s, evs[0]);
      assert (evs + more)[0] == evs[0];
      assert (evs + more)[1..] == evs[1..] + more;
      ReplayAppend(cfg, hasHandler, t.state, evs[1..], more);
      var r1 := Replay(cfg, hasHandler, t.state, evs[1..]);
      var r' := Replay(cfg, hasHandler, r1.state, more);
      assert WaitList(t.wait) + r1.waits + r'.waits == WaitList(t.wait) + (r1.waits + r'.waits);
    }
  }

  /** `k` dial failures in a row, each followed by the backoff timer firing. */
  function Failures(k: nat): (evs: seq<Outcome>)
    ensures |evs| == 2 * k
  {
    if k == 0 then [] else [DialFail, TimerFired] + Failures(k - 1)
  }

  /** Replaying an outcome followed by more takes one step of `Next`, then replays the rest. */
  lemma ReplayCons(cfg: Config, hasHandler: bool, s: ClientState, ev: Outcome, evs: seq<Outcome>)
    ensures var t := Next(cfg, hasHandler, s, ev);
            var r := Replay(cfg, hasHandler, t.state, evs);
            Replay(cfg, hasHandler, s, [ev] + evs) == Trace(r.state, WaitList(t.wait) + r.waits)
  {
    assert ([ev] + evs)[0] == ev && ([ev] + evs)[1..] == evs;
  }

  /** The delays computed for `k` consecutive failure counts starting at `n`. */
  function Schedule(cfg: Config, n: nat, k: nat): (ds: seq<Duration>)
    ensures |ds| == k
    decreases k
  {
    if k == 0 then [] else [ComputeBackoff(cfg, n)] + Schedule(cfg, n + 1, k - 1)
  }

  /** The `i`-th delay of a schedule starting at count `n` is the one computed for count `n + i`. */
  lemma {:induction false} ScheduleAt(cfg: Config, n: nat, k: nat, i: nat)
    requires i < k
    ensures Schedule(cfg, n, k)[i] == ComputeBackoff(cfg, n + i)
    decreases k
  {
    if i > 0 {
      ScheduleAt(cfg, n + 1, k - 1, i - 1);
    }
  }

  /**
    Consecutive dial failures from a counter of `n` wait the delays computed for
    `n`, `n + 1`, ... in turn, and leave the counter `k` higher.
   */
  lemma {:induction false} FailuresBackOff(cfg: Config, hasHandler: bool, s: ClientState, k: nat)
    requires s.phase == Connecting
    ensures Replay(cfg, hasHandler, s, Failures(k)) ==
              Trace(s.(reconnectCount := s.reconnectCount + k), Schedule(cfg, s.reconnectCount, k))
    decreases k
  {
    if k > 0 {
      var s1 := s.(reconnectCount := s.reconnectCount + 1);
      assert Failures(k) == [DialFail, TimerFired] + Failures(k - 1);
      OneFailure(cfg, hasHandler, s, Failures(k - 1));
      FailuresBackOff(cfg, hasHandler, s1, k - 1);
    }
  }

  /** A dial failure and the timer that ends its wait: one delay, one more failure counted. */
  lemma OneFailure(cfg: Config, hasHandler: bool, s: ClientState, evs: seq<Outcome>)
    requires s.phase == Connecting
    ensures var r := Replay(cfg, hasHandler, s.(reconnectCount := s.reconnectCount + 1), evs);
            Replay(cfg, hasHandler, s, [DialFail, TimerFired] + evs) ==
              Trace(r.state, [ComputeBackoff(cfg, s.reconnectCount)] + r.waits)
  {
    var counted := s.(reconnectCount := s.reconnectCount + 1);
    var waiting := counted.(phase := Waiting);
    assert Next(cfg, hasHandler, s, DialFail) == Transition(waiting, Some(ComputeBackoff(cfg, s.reconnectCount)));
    assert Next(cfg, hasHandler, waiting, TimerFired) == Transition(counted, None);
    var r := Replay(cfg, hasHandler, counted, evs);
    ReplayCons(cfg, hasHandler, waiting, TimerFired, evs);
    assert [] + r.waits == r.waits;
    assert Replay(cfg, hasHandler, waiting, [TimerFired] + evs) == r;
    assert [DialFail, TimerFired] + evs == [DialFail] + ([TimerFired] + evs);
    ReplayCons(cfg, hasHandler, s, DialFail, [TimerFired] + evs);
  }

  /**
    With a base delay of 100 ms, a cap of 1600 ms and no jitter, four dial
    failures from a fresh client wait 100, 200, 400 and 800 ms.
   */
  lemma FourFailuresFromFreshClient(hasHandler: bool)
    ensures Replay(Config("wss://jetstream", 100 * Millisecond, 1600 * Millisecond, 0.0), hasHandler, Initial, Failures(4)).waits ==
              [100 * Millisecond, 200 * Millisecond, 400 * Millisecond, 800 * Millisecond]
  {
    var cfg := Config("wss://jetstream", 100 * Millisecond, 1600 * Millisecond, 0.0);
    FailuresBackOff(cfg, hasHandler, Initial, 4);
    assert Pow2(1) == 2 && Pow2(2) == 4 && Pow2(3) == 8;
  }

  /**
    Outcomes other than a dial failure never schedule a backoff, and keep a
    failure counter of zero at zero.
   */
  lemma {:induction false} NoFailureNoBackoff(cfg: Config, hasHandler: bool, s: ClientState, evs: seq<Outcome>)
    requires DialFail !in evs
    ensures Replay(cfg, hasHandler, s, evs).waits == []
    ensures s.reconnectCount == 0 ==> Replay(cfg, hasHandler, s, evs).state.reconnectCount == 0
    decreases |evs|
  {
    if evs != [] {
      assert evs[0] in evs;
      assert forall e :: e in evs[1..] ==> e in evs;
      NoFailureNoBackoff(cfg, hasHandler, Next(cfg, hasHandler, s, evs[0]).state, evs[1..]);
    }
  }

  /**
    However many dials failed before, after a successful dial the next dial
    failure backs off by the delay for a counter of zero, and nothing in
    between waits.
   */
  lemma ConnectResetsBackoff(cfg: Config, hasHandler: bool, s: ClientState, c: Conn, evs: seq<Outcome>)
    requires s.phase == Connecting
    requires DialFail !in evs
    requires Replay(cfg, hasHandler, s, [DialOk(c)] + evs).state.phase == Connecting
    ensures Replay(cfg, hasHandler, s, [DialOk(c)] + evs + [DialFail]).waits == [ComputeBackoff(cfg, 0)]
  {
    var s1 := Next(cfg, hasHandler, s, DialOk(c)).state;
    assert ([DialOk(c)] + evs)[1..] == evs;
    NoFailureNoBackoff(cfg, hasHandler, s1, evs);
    ReplayAppend(cfg, hasHandler, s, [DialOk(c)] + evs, [DialFail]);
  }

  /**
    A dial failure, a successful dial, then a handler error: one backoff wait
    for the failure, none before the dial that follows the handler error, and
    the connection is released in between.
   */
  lemma HandlerErrorRedialsAtOnce(cfg: Config)
    requires cfg.baseDelay <= cfg.maxDelay
    ensures var r := Replay(cfg, true, Initial, [DialFail, TimerFired, DialOk(7), Msg, HandlerErr]);
            r.waits == [cfg.baseDelay]
    ensures var r := Replay(cfg, true, Initial, [DialFail, TimerFired, DialOk(7), Msg, HandlerErr]);
            r.state == ClientState(None, false, 0, Connecting)
  {
  }

  /**
    The read loop keeps its connection across every message the handler
    accepts, and across every message at all when there is no handler; a read
    error, or an error from a handler that is present, releases the connection
    and sends the client straight back to dial, keeping the failure counter
    and waiting for no backoff.
   */
  lemma ReadLoopOutcomes(cfg: Config, hasHandler: bool, s: ClientState)
    requires Consistent(s) && s.phase == Streaming
    ensures Next(cfg, hasHandler, s, Msg) == Transition(s, None)
    ensures !hasHandler ==> Next(cfg, hasHandler, s, HandlerErr) == Transition(s, None)
    ensures Next(cfg, hasHandler, s, ReadErr) ==
              Transition(ClientState(None, false, s.reconnectCount, Connecting), None)
    ensures hasHandler ==>
              Next(cfg, hasHandler, s, HandlerErr) ==
              Transition(ClientState(None, false, s.reconnectCount, Connecting), None)
  {
  }

  /**
    Cancellation in any live phase stops the client with the connection
    released and the failure counter untouched.
   */
  lemma CancelReleasesConnection(cfg: Config, hasHandler: bool, s: ClientState)
    requires Consistent(s) && s.phase != Stopped
    ensures Next(cfg, hasHandler, s, Cancelled).state == ClientState(None, false, s.reconnectCount, Stopped)
  {
  }

  /**
    A resilient WebSocket client.  `phase` is where `Run` is in its loop; the
    other variable fields are those of the source.
   */
  class Client {
    const config: Config
    const hasHandler: bool
    var conn: Option<Conn>
    var isConnected: bool
    var reconnectCount: nat
    var phase: Phase

    function State(): ClientState
      reads this
    {
      ClientState(conn, isConnected, reconnectCount, phase)
    }

    ghost predicate Valid()
      reads this
    {
      Consistent(State())
    }

    constructor (config: Config, hasHandler: bool)
      ensures this.config == config && this.hasHandler == hasHandler
      ensures State() == Initial && Valid()
    {
      this.config := config;
      this.hasHandler := hasHandler;
      conn := None;
      isConnected := false;
      reconnectCount := 0;
      phase := Connecting;
    }

    /**
      Builds a client unless the configuration's validation reported an error,
      in which case that error is returned and no client.
     */
    static method NewClient(config: Config, validationError: Option<string>, hasHandler: bool)
      returns (c: Client?, err: Option<string>)
      ensures validationError.Some? ==> c == null && err == validationError
      ensures validationError.None? ==>
                c != null && fresh(c) && err == None &&
                c.config == config && c.hasHandler == hasHandler && c.State() == Initial && c.Valid()
    {
      if validationError.Some? {
        return null, validationError;
      }
      c := new Client(config, hasHandler);
      err := None;
    }

    /** Installs a dialled connection; a failed dial leaves the client as it was. */
    method Connect(dialled: Option<Conn>) returns (ok: bool)
      modifies this`conn, this`isConnected
      ensures ok == dialled.Some?
      ensures ok ==> conn == dialled && isConnected
      ensures !ok ==> conn == old(conn) && isConnected == old(isConnected)
    {
      if dialled.None? {
        return false;
      }
      conn := dialled;
      isConnected := true;
      ok := true;
    }

    /**
      Releases the connection, if any, and marks the client disconnected.
      Closing a closed client changes nothing.
     */
    method Close()
      modifies this`conn, this`isConnected
      ensures State() == Closed(old(State()))
      ensures old(conn) == None && !old(isConnected) ==> State() == old(State())
    {
      if conn.Some? {
        conn := None;
      }
      isConnected := false;
    }

    /** A snapshot of the connected flag, which always agrees with the handle. */
    method IsConnected() returns (connected: bool)
      requires Valid()
      ensures connected == isConnected
      ensures connected <==> conn.Some?
    {
      connected := isConnected;
    }

    /** One step of `Run`, driven by what the outside world reports. */
    method Step(ev: Outcome) returns (wait: Option<Duration>)
      requires Valid()
      modifies this
      ensures Valid()
      ensures State() == Next(config, hasHandler, old(State()), ev).state
      ensures wait == Next(config, hasHandler, old(State()), ev).wait
    {
      wait := None;
      match phase
      case Stopped =>
      case Connecting =>
        if ev == Cancelled {
          Close();
          phase := Stopped;
        } else if ev.DialOk? || ev == DialFail {
          var ok := Connect(if ev.DialOk? then Some(ev.conn) else None);
          if !ok {
            wait := Some(ComputeBackoff(config, reconnectCount));
            reconnectCount := reconnectCount + 1;
            phase := Waiting;
          } else {
            reconnectCount := 0;
            phase := Streaming;
          }
        }
      case Waiting =>
        if ev == Cancelled {
          phase := Stopped;
        } else if ev == TimerFired {
          phase := Connecting;
        }
      case Streaming =>
        if ev == Cancelled {
          Close();
          phase := Stopped;
        } else if ev == ReadErr || (ev == HandlerErr && hasHandler) {
          Close();
          phase := Connecting;
        }
    }

    /**
      Runs the client over a sequence of outcomes until it stops or the
      outcomes run out, returning whether it stopped (that is, `Run` returned
      the context's error) and the backoff delays it waited.
     */
    method Run(events: seq<Outcome>) returns (stopped: bool, waits: seq<Duration>)
      requires Valid()
      modifies this
      ensures Valid()
      ensures Trace(State(), waits) == Replay(config, hasHandler, old(State()), events)
      ensures stopped <==> phase == Stopped
      ensures stopped ==> conn == None && !isConnected
    {
      ghost var start := State();
      var i := 0;
      waits := [];
      while i < |events| && phase != Stopped
        invariant 0 <= i <= |events|
        invariant Valid()
        invariant Replay(config, hasHandler, start, events[..i]) == Trace(State(), waits)
      {
        ghost var t := Next(config, hasHandler, State(), events[i]);
        ReplaySnoc(config, hasHandler, start, events[..i], events[i]);
        TakeOneMore(events, i);
        assert Replay(config, hasHandler, start, events[..i + 1]) == Trace(t.state, waits + WaitList(t.wait));
        var w := Step(events[i]);
        waits := waits + WaitList(w);
        i := i + 1;
      }
      ghost var rest := Replay(config, hasHandler, State(), events[i..]);
      assert rest == Trace(State(), []) by {
        if i == |events| {
          assert events[i..] == [];
        }
      }
      ReplayAppend(config, hasHandler, start, events[..i], events[i..]);
      SplitAt(events, i);
      assert waits + rest.waits == waits;
      stopped := phase == Stopped;
    }
  }
}
