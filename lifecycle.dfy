/**
 * The lifecycle supervisor (Server): a control loop that, once per run
 * cycle, builds the WebSocket transport and its adapters from a
 * configuration, starts them, waits for a restart or stop request and
 * tears the transport down.
 *
 * Every collaborator call (transport, adapters, TLS helpers, API server)
 * is recorded as an Event in the server's trace. The blocking wait is fed
 * by the restart()/stop() calls that arrive during each 100 ms sleep, an
 * exception thrown by a collaborator is a fault position in the trace, and
 * System.exit(1) is the outcome Exit(1).
 */
module Lifecycle {
  import opened Options

  // ---------------------------------------------------------------------
  // Configuration and events
  // ---------------------------------------------------------------------

  datatype SerialConfig = SerialConfig(name: string, key: string)

  datatype Config = Config(
    bind: string,
    port: int,
    tlsEnabled: bool,
    tlsSelfSigned: bool,
    tlsCert: string,
    tlsKey: string,
    tlsCaBundle: string,
    address: string,
    serials: seq<SerialConfig>,
    cloudProxyEnabled: bool,
    apiEnabled: bool)

  /** The notification listener the server was built with. */
  datatype Listener = Listener(id: nat)

  datatype Adapter =
    | Serial(name: string, key: string)
    | Printer
    | CloudProxy
    | Api

  /** One call the supervisor makes on a collaborator. */
  datatype Event =
    | NewTransport(bind: string, port: int)
    | SetReuseAddr(enabled: bool)
    | SetConnectionLostTimeout(seconds: int)
    | NewAdapter(adapter: Adapter)
    | Attach(adapter: Adapter)                     // setServer(transport)
    | SetNotificationListener(listener: Option<Listener>)
    | StartAdapter(adapter: Adapter)
    | GenerateCertificate(address: string, cert: string, key: string)
    | InstallSecureFactory(cert: string, key: string, caBundle: string)
    | StartTransport
    | CloseTransport
    | StopTransport

  /** Seconds after which the transport drops a silent peer. */
  const ConnectionLostTimeout := 3

  /** The adapter an event concerns, if any. */
  function AdapterOf(e: Event): Option<Adapter>
  {
    if e.NewAdapter? || e.Attach? || e.StartAdapter? then Some(e.adapter) else None
  }

  predicate IsSerialEvent(e: Event)
  {
    AdapterOf(e).Some? && AdapterOf(e).value.Serial?
  }

  predicate IsTlsEvent(e: Event)
  {
    e.GenerateCertificate? || e.InstallSecureFactory?
  }

  // ---------------------------------------------------------------------
  // The construction plan of one run cycle
  // ---------------------------------------------------------------------

  function TransportSteps(c: Config): seq<Event>
  {
    [NewTransport(c.bind, c.port), SetReuseAddr(true), SetConnectionLostTimeout(ConnectionLostTimeout)]
  }

  /** Construct, attach to the transport, start. */
  function AdapterSteps(a: Adapter): seq<Event>
  {
    [NewAdapter(a), Attach(a), StartAdapter(a)]
  }

  function SerialAdapter(s: SerialConfig): Adapter
  {
    Serial(s.name, s.key)
  }

  function SerialSteps(serials: seq<SerialConfig>): seq<Event>
  {
    if serials == [] then []
    else SerialSteps(serials[..|serials| - 1]) + AdapterSteps(SerialAdapter(serials[|serials| - 1]))
  }

  function PrinterSteps(listener: Option<Listener>): seq<Event>
  {
    [NewAdapter(Printer), Attach(Printer), SetNotificationListener(listener), StartAdapter(Printer)]
  }

  function CloudProxySteps(c: Config): seq<Event>
  {
    if c.cloudProxyEnabled then AdapterSteps(CloudProxy) else []
  }

  function TlsSteps(c: Config): seq<Event>
  {
    if !c.tlsEnabled then []
    else
      (if c.tlsSelfSigned then [GenerateCertificate(c.address, c.tlsCert, c.tlsKey)] else [])
      + [InstallSecureFactory(c.tlsCert, c.tlsKey, c.tlsCaBundle)]
  }

  /** The API server is started on its own; it is never attached to the transport. */
  function ApiSteps(c: Config): seq<Event>
  {
    if c.apiEnabled then [NewAdapter(Api), StartAdapter(Api)] else []
  }

  /** Everything one cycle does, in order, up to and including starting the transport. */
  function CyclePlan(c: Config, listener: Option<Listener>): seq<Event>
  {
    TransportSteps(c) + SerialSteps(c.serials) + PrinterSteps(listener) + CloudProxySteps(c)
    + TlsSteps(c) + ApiSteps(c) + [StartTransport]
  }

  /** Close the open connections, then stop the listener. */
  function Teardown(): seq<Event>
  {
    [CloseTransport, StopTransport]
  }

  /** One adapter per serial entry, in list order, each built, attached and started. */
  lemma {:induction false} SerialStepsShape(serials: seq<SerialConfig>)
    ensures |SerialSteps(serials)| == 3 * |serials|
    ensures forall i :: 0 <= i < |serials| ==>
      SerialSteps(serials)[3 * i..3 * i + 3] == AdapterSteps(SerialAdapter(serials[i]))
  {
    if serials != [] {
      var init := serials[..|serials| - 1];
      SerialStepsShape(init);
      var steps := SerialSteps(serials);
      assert steps == SerialSteps(init) + AdapterSteps(SerialAdapter(serials[|serials| - 1]));
      forall i | 0 <= i < |serials|
        ensures steps[3 * i..3 * i + 3] == AdapterSteps(SerialAdapter(serials[i]))
      {
        if i < |init| {
          assert serials[i] == init[i];
          assert steps[3 * i..3 * i + 3] == SerialSteps(init)[3 * i..3 * i + 3];
        }
      }
    }
  }

  /** The serial part of a cycle holds serial-adapter events only. */
  lemma {:induction false} SerialStepsOnlySerial(serials: seq<SerialConfig>)
    ensures forall e :: e in SerialSteps(serials) ==> IsSerialEvent(e)
  {
    if serials != [] {
      SerialStepsOnlySerial(serials[..|serials| - 1]);
    }
  }

  /** No part of a cycle other than the serial one touches a serial adapter. */
  lemma OtherStepsNotSerial(c: Config, listener: Option<Listener>)
    ensures forall e :: e in TransportSteps(c) ==> !IsSerialEvent(e)
    ensures forall e :: e in PrinterSteps(listener) ==> !IsSerialEvent(e)
    ensures forall e :: e in CloudProxySteps(c) ==> !IsSerialEvent(e)
    ensures forall e :: e in TlsSteps(c) ==> !IsSerialEvent(e)
    ensures forall e :: e in ApiSteps(c) ==> !IsSerialEvent(e)
  {
  }

  lemma PrefixOfAppend(a: seq<Event>, b: seq<Event>, plan: seq<Event>)
    requires a + b <= plan
    ensures a <= plan
  {
    assert plan[..|a|] == (a + b)[..|a|];
  }

  /** Each stage of a cycle's construction is a prefix of its whole plan. */
  lemma PlanPrefixes(c: Config, listener: Option<Listener>)
    ensures var p := CyclePlan(c, listener);
      var t := TransportSteps(c);
      var ts := t + SerialSteps(c.serials);
      var tsp := ts + PrinterSteps(listener);
      var tspc := tsp + CloudProxySteps(c);
      var tspcl := tspc + TlsSteps(c);
      var tspcla := tspcl + ApiSteps(c);
      tspcla <= p && tspcl <= p && tspc <= p && tsp <= p && ts <= p && t <= p
  {
    var p := CyclePlan(c, listener);
    var t := TransportSteps(c);
    var ts := t + SerialSteps(c.serials);
    var tsp := ts + PrinterSteps(listener);
    var tspc := tsp + CloudProxySteps(c);
    var tspcl := tspc + TlsSteps(c);
    var tspcla := tspcl + ApiSteps(c);
    PrefixOfAppend(tspcla, [StartTransport], p);
    PrefixOfAppend(tspcl, ApiSteps(c), p);
    PrefixOfAppend(tspc, TlsSteps(c), p);
    PrefixOfAppend(tsp, CloudProxySteps(c), p);
    PrefixOfAppend(ts, PrinterSteps(listener), p);
    PrefixOfAppend(t, SerialSteps(c.serials), p);
  }

  /**
   * The transport is created and configured (address reuse on, timeout 3)
   * before anything else, and is started last, exactly once.
   */
  lemma TransportFirstStartedLast(c: Config, listener: Option<Listener>)
    ensures var p := CyclePlan(c, listener);
      |p| > 3
      && p[..3] == [NewTransport(c.bind, c.port), SetReuseAddr(true), SetConnectionLostTimeout(3)]
      && p[|p| - 1] == StartTransport
      && forall i :: 0 <= i < |p| - 1 ==> p[i] != StartTransport
  {
    SerialStepsOnlySerial(c.serials);
    PlanPrefixes(c, listener);
    var p := CyclePlan(c, listener);
    var body := TransportSteps(c) + SerialSteps(c.serials) + PrinterSteps(listener) + CloudProxySteps(c)
      + TlsSteps(c) + ApiSteps(c);
    assert p == body + [StartTransport];
    assert StartTransport !in SerialSteps(c.serials);
    assert StartTransport !in body;
    forall i | 0 <= i < |p| - 1
      ensures p[i] != StartTransport
    {
      assert p[i] == body[i];
    }
  }

  /** What a cycle does after its serial adapters. */
  function AfterSerials(c: Config, listener: Option<Listener>): seq<Event>
  {
    PrinterSteps(listener) + CloudProxySteps(c) + TlsSteps(c) + ApiSteps(c) + [StartTransport]
  }

  lemma PlanAroundSerials(c: Config, listener: Option<Listener>)
    ensures CyclePlan(c, listener) == TransportSteps(c) + SerialSteps(c.serials) + AfterSerials(c, listener)
    ensures forall e :: e in TransportSteps(c) ==> !IsSerialEvent(e)
    ensures forall e :: e in AfterSerials(c, listener) ==> !IsSerialEvent(e)
  {
    OtherStepsNotSerial(c, listener);
  }

  /** A slice of the middle part of a three-part sequence. */
  lemma MiddleSlice(h: seq<Event>, m: seq<Event>, t: seq<Event>, i: nat, j: nat)
    requires i <= j <= |m|
    ensures (h + m + t)[|h| + i..|h| + j] == m[i..j]
  {
  }

  /** A serial event of a three-part sequence whose outer parts hold none lies in the middle. */
  lemma SerialInMiddle(h: seq<Event>, m: seq<Event>, t: seq<Event>, i: nat)
    requires i < |h + m + t| && IsSerialEvent((h + m + t)[i])
    requires forall e :: e in h ==> !IsSerialEvent(e)
    requires forall e :: e in t ==> !IsSerialEvent(e)
    ensures |h| <= i < |h| + |m|
  {
  }

  /**
   * The serial adapters occupy the positions right after the transport's
   * set-up, in list order, and appear nowhere else in the cycle.
   */
  lemma SerialAdaptersInOrder(c: Config, listener: Option<Listener>)
    ensures var p := CyclePlan(c, listener);
      var n := 3 * |c.serials|;
      3 + n <= |p|
      && (forall i :: 0 <= i < |c.serials| ==>
            p[3 + 3 * i..6 + 3 * i] == AdapterSteps(SerialAdapter(c.serials[i])))
      && (forall i :: 0 <= i < |p| && IsSerialEvent(p[i]) ==> 3 <= i < 3 + n)
  {
    SerialStepsShape(c.serials);
    PlanAroundSerials(c, listener);
    var h, m, t := TransportSteps(c), SerialSteps(c.serials), AfterSerials(c, listener);
    forall i | 0 <= i < |c.serials|
      ensures (h + m + t)[3 + 3 * i..6 + 3 * i] == AdapterSteps(SerialAdapter(c.serials[i]))
    {
      MiddleSlice(h, m, t, 3 * i, 3 * i + 3);
    }
    forall i | 0 <= i < |h + m + t| && IsSerialEvent((h + m + t)[i])
      ensures 3 <= i < 3 + |m|
    {
      SerialInMiddle(h, m, t, i);
    }
  }

  /** The printer adapter is always built, attached, given the listener and started, right after the serials. */
  lemma PrinterAlwaysStarted(c: Config, listener: Option<Listener>)
    ensures var p := CyclePlan(c, listener);
      var k := 3 + 3 * |c.serials|;
      k + 4 <= |p| && p[k..k + 4] == PrinterSteps(listener)
  {
    SerialStepsShape(c.serials);
    PlanPrefixes(c, listener);
    var ts := TransportSteps(c) + SerialSteps(c.serials);
    var tsp := ts + PrinterSteps(listener);
    assert tsp[|ts|..] == PrinterSteps(listener);
  }

  /** An event outside the serial part is in a cycle's plan iff it is in one of the other parts. */
  lemma InPlan(c: Config, listener: Option<Listener>, e: Event)
    requires !IsSerialEvent(e)
    ensures e in CyclePlan(c, listener) <==>
      e in TransportSteps(c) || e in PrinterSteps(listener) || e in CloudProxySteps(c)
      || e in TlsSteps(c) || e in ApiSteps(c) || e == StartTransport
  {
    SerialStepsOnlySerial(c.serials);
  }

  /** The cloud proxy is built, attached and started iff it is enabled. */
  lemma CloudProxyIffEnabled(c: Config, listener: Option<Listener>)
    ensures var p := CyclePlan(c, listener);
      (NewAdapter(CloudProxy) in p <==> c.cloudProxyEnabled)
      && (Attach(CloudProxy) in p <==> c.cloudProxyEnabled)
      && (StartAdapter(CloudProxy) in p <==> c.cloudProxyEnabled)
  {
    InPlan(c, listener, NewAdapter(CloudProxy));
    InPlan(c, listener, Attach(CloudProxy));
    InPlan(c, listener, StartAdapter(CloudProxy));
  }

  /** The API server is built and started iff it is enabled, and is never attached to the transport. */
  lemma ApiIffEnabled(c: Config, listener: Option<Listener>)
    ensures var p := CyclePlan(c, listener);
      (NewAdapter(Api) in p <==> c.apiEnabled)
      && (StartAdapter(Api) in p <==> c.apiEnabled)
      && Attach(Api) !in p
  {
    InPlan(c, listener, NewAdapter(Api));
    InPlan(c, listener, StartAdapter(Api));
    InPlan(c, listener, Attach(Api));
  }

  /** A cycle's plan around its TLS part, which holds its only TLS events. */
  lemma TlsApart(c: Config, listener: Option<Listener>)
    ensures var head := TransportSteps(c) + SerialSteps(c.serials) + PrinterSteps(listener) + CloudProxySteps(c);
      CyclePlan(c, listener) == head + TlsSteps(c) + (ApiSteps(c) + [StartTransport])
      && (forall e :: e in head ==> !IsTlsEvent(e))
      && (forall e :: e in ApiSteps(c) + [StartTransport] ==> !IsTlsEvent(e))
  {
    SerialStepsOnlySerial(c.serials);
  }

  /** Certificate generation comes before the secure factory is installed. */
  lemma CertificateBeforeFactory(c: Config, listener: Option<Listener>)
    ensures var p := CyclePlan(c, listener);
      forall i, j :: 0 <= i < |p| && 0 <= j < |p| && p[i].GenerateCertificate? && p[j].InstallSecureFactory?
        ==> i < j
  {
    TlsApart(c, listener);
    var p := CyclePlan(c, listener);
    var head := TransportSteps(c) + SerialSteps(c.serials) + PrinterSteps(listener) + CloudProxySteps(c);
    var tls := TlsSteps(c);
    var tail := ApiSteps(c) + [StartTransport];
    forall i, j | 0 <= i < |p| && 0 <= j < |p| && p[i].GenerateCertificate? && p[j].InstallSecureFactory?
      ensures i < j
    {
      TlsPosition(head, tls, tail, i);
      TlsPosition(head, tls, tail, j);
    }
  }

  /**
   * Without TLS there is neither certificate generation nor a secure
   * factory. With TLS the factory is installed, a certificate is generated
   * iff self-signed is set, and generation comes before installation.
   */
  lemma TlsHandling(c: Config, listener: Option<Listener>)
    ensures !c.tlsEnabled ==> forall e :: e in CyclePlan(c, listener) ==> !IsTlsEvent(e)
    ensures c.tlsEnabled ==> InstallSecureFactory(c.tlsCert, c.tlsKey, c.tlsCaBundle) in CyclePlan(c, listener)
    ensures GenerateCertificate(c.address, c.tlsCert, c.tlsKey) in CyclePlan(c, listener)
      <==> c.tlsEnabled && c.tlsSelfSigned
    ensures forall e :: (e in CyclePlan(c, listener) && e.GenerateCertificate?)
                        ==> e == GenerateCertificate(c.address, c.tlsCert, c.tlsKey)
    ensures var p := CyclePlan(c, listener);
      forall i, j :: 0 <= i < |p| && 0 <= j < |p| && p[i].GenerateCertificate? && p[j].InstallSecureFactory?
        ==> i < j
  {
    TlsApart(c, listener);
    CertificateBeforeFactory(c, listener);
  }

  lemma TlsPosition(head: seq<Event>, tls: seq<Event>, tail: seq<Event>, i: nat)
    requires i < |head + tls + tail| && IsTlsEvent((head + tls + tail)[i])
    requires forall e :: e in head ==> !IsTlsEvent(e)
    requires forall e :: e in tail ==> !IsTlsEvent(e)
    ensures |head| <= i < |head| + |tls| && (head + tls + tail)[i] == tls[i - |head|]
  {
  }

  // ---------------------------------------------------------------------
  // The flag loop
  // ---------------------------------------------------------------------

  /** The restart() and stop() calls made during one 100 ms sleep of the wait. */
  datatype Tick = Tick(restart: bool, stop: bool)

  predicate Signalled(t: Tick)
  {
    t.restart || t.stop
  }

  /** What the environment supplies for one run cycle: the configuration and the wait's ticks. */
  datatype Cycle = Cycle(config: Config, ticks: seq<Tick>)

  datatype Outcome =
    | Returned        // start() returned: the loop saw shouldStop
    | Running         // the input ran out while the server was still serving or about to rebuild
    | Exit(code: int) // System.exit

  datatype RunResult = RunResult(events: seq<Event>, outcome: Outcome, restart: bool, stop: bool)

  /** The first tick, from `from` on, at which restart() or stop() was called. */
  function FirstWake(ticks: seq<Tick>, from: nat): (k: Option<nat>)
    requires from <= |ticks|
    decreases |ticks| - from
    ensures k.Some? ==> (from <= k.value < |ticks| && Signalled(ticks[k.value])
      && forall j :: from <= j < k.value ==> !Signalled(ticks[j]))
    ensures k.None? ==> forall j :: from <= j < |ticks| ==> !Signalled(ticks[j])
  {
    if from == |ticks| then None
    else if Signalled(ticks[from]) then Some(from)
    else FirstWake(ticks, from + 1)
  }

  /**
   * The loop of start() when nothing throws, from the given flags: each
   * cycle clears the restart flag, runs the plan, waits for the first
   * signal, tears down and goes round again unless stop was requested.
   */
  function Run(restart: bool, stop: bool, cycles: seq<Cycle>, listener: Option<Listener>): RunResult
    decreases |cycles|
  {
    if stop then RunResult([], Returned, restart, stop)
    else if cycles == [] then RunResult([], Running, restart, stop)
    else
      var plan := CyclePlan(cycles[0].config, listener);
      match FirstWake(cycles[0].ticks, 0)
      case None => RunResult(plan, Running, false, false)
      case Some(k) =>
        var tick := cycles[0].ticks[k];
        var rest := Run(tick.restart, tick.stop, cycles[1..], listener);
        RunResult(plan + Teardown() + rest.events, rest.outcome, rest.restart, rest.stop)
  }

  /** The calls one cycle makes when nothing throws: its plan, then teardown once it wakes. */
  function CycleEvents(c: Cycle, listener: Option<Listener>): (ev: seq<Event>)
    ensures CyclePlan(c.config, listener) <= ev
    ensures |ev| == |CyclePlan(c.config, listener)| + if FirstWake(c.ticks, 0).Some? then 2 else 0
    ensures FirstWake(c.ticks, 0).Some? ==> ev[|CyclePlan(c.config, listener)|..] == Teardown()
  {
    CyclePlan(c.config, listener) + if FirstWake(c.ticks, 0).Some? then Teardown() else []
  }

  /** With shouldStop already set the loop runs no cycle at all. */
  lemma StopBeforeStartRunsNothing(restart: bool, cycles: seq<Cycle>, listener: Option<Listener>)
    ensures Run(restart, true, cycles, listener) == RunResult([], Returned, restart, true)
  {
  }

  /** A restart requested before a cycle begins is discarded: the cycle clears the flag. */
  lemma EarlyRestartDiscarded(cycles: seq<Cycle>, listener: Option<Listener>)
    requires cycles != []
    ensures Run(true, false, cycles, listener) == Run(false, false, cycles, listener)
  {
  }

  /** Teardown needs a signal: a cycle whose wait sees none makes only its plan's calls and keeps serving. */
  lemma NoSignalNoTeardown(restart: bool, c: Cycle, cycles: seq<Cycle>, listener: Option<Listener>)
    requires FirstWake(c.ticks, 0).None?
    ensures var r := Run(restart, false, [c] + cycles, listener);
      r == RunResult(CyclePlan(c.config, listener), Running, false, false)
      && CloseTransport !in r.events && StopTransport !in r.events
  {
    assert ([c] + cycles)[0] == c;
    NoTeardownInPlan(c.config, listener);
  }

  /** Stop wins over restart: a cycle woken with stop set is the last one. */
  lemma StopWins(restart: bool, c: Cycle, cycles: seq<Cycle>, listener: Option<Listener>, k: nat)
    requires FirstWake(c.ticks, 0) == Some(k) && c.ticks[k].stop
    ensures Run(restart, false, [c] + cycles, listener)
      == RunResult(CyclePlan(c.config, listener) + Teardown(), Returned, c.ticks[k].restart, true)
  {
    assert ([c] + cycles)[1..] == cycles;
  }

  /**
   * A restart during the wait (however many restart() calls it holds)
   * yields exactly one new cycle, built from the next configuration.
   */
  lemma RestartBuildsOneNewCycle(restart: bool, c: Cycle, d: Cycle, cycles: seq<Cycle>,
                                 listener: Option<Listener>, k: nat)
    requires FirstWake(c.ticks, 0) == Some(k) && c.ticks[k].restart && !c.ticks[k].stop
    ensures var r := Run(restart, false, [c, d] + cycles, listener);
      var next := Run(false, false, [d] + cycles, listener);
      r.events == CyclePlan(c.config, listener) + Teardown() + next.events && r.outcome == next.outcome
      && CyclePlan(d.config, listener) <= next.events
  {
    assert ([c, d] + cycles)[0] == c && ([c, d] + cycles)[1..] == [d] + cycles;
    EarlyRestartDiscarded([d] + cycles, listener);
    RunBegins(false, [d] + cycles, listener);
  }

  /** A cycle that begins makes all the calls of its plan first. */
  lemma RunBegins(restart: bool, cycles: seq<Cycle>, listener: Option<Listener>)
    requires cycles != []
    ensures CyclePlan(cycles[0].config, listener) <= Run(restart, false, cycles, listener).events
  {
    var r := Run(restart, false, cycles, listener);
    assert [] + r.events == r.events;
    CycleAhead(r, [], restart, cycles, listener);
    assert [] + CycleEvents(cycles[0], listener) == CycleEvents(cycles[0], listener);
  }

  lemma NoTeardownInPlan(c: Config, listener: Option<Listener>)
    ensures CloseTransport !in CyclePlan(c, listener) && StopTransport !in CyclePlan(c, listener)
  {
    SerialStepsOnlySerial(c.serials);
  }

  /** Every event sequence of the loop is empty or begins with a new transport. */
  lemma RunStartsWithTransport(restart: bool, stop: bool, cycles: seq<Cycle>, listener: Option<Listener>)
    ensures var ev := Run(restart, stop, cycles, listener).events;
      ev != [] ==> ev[0] == NewTransport(cycles[0].config.bind, cycles[0].config.port)
  {
  }

  /** Every close directly follows a start and is directly followed by a stop, and every stop follows a close. */
  predicate ClosesThenStops(ev: seq<Event>)
  {
    (forall i :: 0 <= i < |ev| && ev[i] == CloseTransport ==>
       0 < i && ev[i - 1] == StartTransport && i + 1 < |ev| && ev[i + 1] == StopTransport)
    && (forall i :: 0 <= i < |ev| && ev[i] == StopTransport ==> 0 < i && ev[i - 1] == CloseTransport)
  }

  /** A plan ending in a start, then teardown, then a sequence with the pattern that does not open with a stop. */
  lemma TeardownJoin(plan: seq<Event>, rest: seq<Event>)
    requires plan != [] && plan[|plan| - 1] == StartTransport
    requires CloseTransport !in plan && StopTransport !in plan
    requires ClosesThenStops(rest) && (rest != [] ==> rest[0] != StopTransport)
    ensures ClosesThenStops(plan + Teardown() + rest)
  {
    var ev := plan + Teardown() + rest;
    var n := |plan|;
    forall i | 0 <= i < |ev| && ev[i] == CloseTransport
      ensures 0 < i && ev[i - 1] == StartTransport && i + 1 < |ev| && ev[i + 1] == StopTransport
    {
      if i > n + 1 {
        assert ev[i] == rest[i - n - 2];
        assert ev[i - 1] == rest[i - n - 3];
        assert ev[i + 1] == rest[i - n - 1];
      }
    }
    forall i | 0 <= i < |ev| && ev[i] == StopTransport
      ensures 0 < i && ev[i - 1] == CloseTransport
    {
      if i > n + 2 {
        assert ev[i] == rest[i - n - 2];
        assert ev[i - 1] == rest[i - n - 3];
      }
    }
  }

  /**
   * Teardown happens only after the transport was started, and always as
   * close immediately followed by stop.
   */
  lemma {:induction false} TeardownClosesThenStops(restart: bool, stop: bool, cycles: seq<Cycle>,
                                                  listener: Option<Listener>)
    ensures ClosesThenStops(Run(restart, stop, cycles, listener).events)
    decreases |cycles|
  {
    if !stop && cycles != [] {
      var c := cycles[0];
      var plan := CyclePlan(c.config, listener);
      TransportFirstStartedLast(c.config, listener);
      NoTeardownInPlan(c.config, listener);
      match FirstWake(c.ticks, 0)
      case None =>
        assert ClosesThenStops(plan);
      case Some(k) =>
        var tick := c.ticks[k];
        TeardownClosesThenStops(tick.restart, tick.stop, cycles[1..], listener);
        RunStartsWithTransport(tick.restart, tick.stop, cycles[1..], listener);
        TeardownJoin(plan, Run(tick.restart, tick.stop, cycles[1..], listener).events);
    }
  }

  // ---------------------------------------------------------------------
  // Faults
  // ---------------------------------------------------------------------

  /** The call at trace position `at` throws; the method returns Thrown in place of the exception. */
  datatype Status = Ok | Thrown

  /** Whether position `at` falls within `count` calls made from position `from`. */
  predicate Hits(at: Option<nat>, from: nat, count: nat)
  {
    at.Some? && from <= at.value < from + count
  }

  /**
   * Running `plan` from trace `t0` gave `t1`: all of it when no call in it
   * throws, or the calls up to and including the one that throws.
   */
  ghost predicate Performed(t0: seq<Event>, t1: seq<Event>, plan: seq<Event>, at: Option<nat>, s: Status)
  {
    if Hits(at, |t0|, |plan|) then s == Thrown && t1 == t0 + plan[..at.value - |t0| + 1]
    else s == Ok && t1 == t0 + plan
  }

  /** Two pieces of work in a row behave as their concatenation. */
  lemma Chain(t0: seq<Event>, t1: seq<Event>, t2: seq<Event>, p: seq<Event>, q: seq<Event>,
              at: Option<nat>, s: Status)
    requires Performed(t0, t1, p, at, Ok) && Performed(t1, t2, q, at, s)
    ensures Performed(t0, t2, p + q, at, s)
  {
    if Hits(at, |t1|, |q|) {
      assert (p + q)[..at.value - |t0| + 1] == p + q[..at.value - |t1| + 1];
    }
  }

  /** A piece of work that threw leaves the rest of the plan undone. */
  lemma Abandon(t0: seq<Event>, t1: seq<Event>, p: seq<Event>, plan: seq<Event>, at: Option<nat>)
    requires Performed(t0, t1, p, at, Thrown) && p <= plan
    ensures Performed(t0, t1, plan, at, Thrown)
  {
    assert plan[..at.value - |t0| + 1] == p[..at.value - |t0| + 1];
  }

  /**
   * One more piece of a plan: afterwards either everything done so far
   * went through, or the plan was cut at the call that threw.
   */
  lemma Advance(t0: seq<Event>, t1: seq<Event>, t2: seq<Event>, done: seq<Event>, piece: seq<Event>,
                plan: seq<Event>, at: Option<nat>, s: Status)
    requires Performed(t0, t1, done, at, Ok) && Performed(t1, t2, piece, at, s) && done + piece <= plan
    ensures s.Ok? ==> Performed(t0, t2, done + piece, at, Ok)
    ensures s.Thrown? ==> Performed(t0, t2, plan, at, Thrown)
    ensures done + piece == plan ==> Performed(t0, t2, plan, at, s)
  {
    Chain(t0, t1, t2, done, piece, at, s);
    if s.Thrown? {
      Abandon(t0, t2, done + piece, plan, at);
    }
  }

  /** The whole of start(): the fault-free run, cut short by the first call that throws. */
  ghost predicate Supervised(r: RunResult, fault: Option<nat>, t0: seq<Event>, t1: seq<Event>, o: Outcome,
                             restart: bool, stop: bool)
  {
    if Hits(fault, 0, |r.events|) then o == Exit(1) && t1 == t0 + r.events[..fault.value + 1]
    else o == r.outcome && t1 == t0 + r.events && restart == r.restart && stop == r.stop
  }

  // ---------------------------------------------------------------------
  // The server
  // ---------------------------------------------------------------------

  class Server {
    const listener: Option<Listener>
    var shouldRestart: bool
    var shouldStop: bool
    /** Every collaborator call made so far, in order. */
    var trace: seq<Event>

    constructor (listener: Option<Listener>)
      ensures this.listener == listener && !shouldRestart && !shouldStop && trace == []
    {
      this.listener := listener;
      shouldRestart, shouldStop, trace := false, false, [];
    }

    method Stop()
      modifies this`shouldStop
      ensures shouldStop
    {
      shouldStop := true;
    }

    method Restart()
      modifies this`shouldRestart
      ensures shouldRestart
    {
      shouldRestart := true;
    }

    /** One collaborator call; it throws when it is the call at trace position `at`. */
    method Call(e: Event, at: Option<nat>) returns (s: Status)
      modifies this`trace
      ensures Performed(old(trace), trace, [e], at, s)
    {
      trace := trace + [e];
      s := if at == Some(|trace| - 1) then Thrown else Ok;
    }

    method AddAdapter(a: Adapter, at: Option<nat>) returns (s: Status)
      modifies this`trace
      ensures Performed(old(trace), trace, AdapterSteps(a), at, s)
    {
      s := Call(NewAdapter(a), at);
      if s.Thrown? { return; }
      s := Call(Attach(a), at);
      if s.Thrown? { return; }
      s := Call(StartAdapter(a), at);
    }

    method CreateTransport(c: Config, at: Option<nat>) returns (s: Status)
      modifies this`trace
      ensures Performed(old(trace), trace, TransportSteps(c), at, s)
    {
      s := Call(NewTransport(c.bind, c.port), at);
      if s.Thrown? { return; }
      s := Call(SetReuseAddr(true), at);
      if s.Thrown? { return; }
      s := Call(SetConnectionLostTimeout(ConnectionLostTimeout), at);
    }

    method AddSerials(serials: seq<SerialConfig>, at: Option<nat>) returns (s: Status)
      modifies this`trace
      ensures Performed(old(trace), trace, SerialSteps(serials), at, s)
    {
      ghost var t0 := trace;
      s := Ok;
      for i := 0 to |serials|
        invariant s == Ok && Performed(t0, trace, SerialSteps(serials[..i]), at, Ok)
      {
        ghost var t1 := trace;
        assert serials[..i + 1][..i] == serials[..i];
        s := AddAdapter(SerialAdapter(serials[i]), at);
        Chain(t0, t1, trace, SerialSteps(serials[..i]), AdapterSteps(SerialAdapter(serials[i])), at, s);
        if s.Thrown? {
          SerialPrefix(serials, i + 1);
          Abandon(t0, trace, SerialSteps(serials[..i + 1]), SerialSteps(serials), at);
          return;
        }
      }
      assert serials[..|serials|] == serials;
    }

    method AddPrinter(at: Option<nat>) returns (s: Status)
      modifies this`trace
      ensures Performed(old(trace), trace, PrinterSteps(listener), at, s)
    {
      s := Call(NewAdapter(Printer), at);
      if s.Thrown? { return; }
      s := Call(Attach(Printer), at);
      if s.Thrown? { return; }
      s := Call(SetNotificationListener(listener), at);
      if s.Thrown? { return; }
      s := Call(StartAdapter(Printer), at);
    }

    method AddCloudProxy(c: Config, at: Option<nat>) returns (s: Status)
      modifies this`trace
      ensures Performed(old(trace), trace, CloudProxySteps(c), at, s)
    {
      s := Ok;
      if c.cloudProxyEnabled {
        s := AddAdapter(CloudProxy, at);
      }
    }

    method ConfigureTls(c: Config, at: Option<nat>) returns (s: Status)
      modifies this`trace
      ensures Performed(old(trace), trace, TlsSteps(c), at, s)
    {
      s := Ok;
      if c.tlsEnabled {
        if c.tlsSelfSigned {
          s := Call(GenerateCertificate(c.address, c.tlsCert, c.tlsKey), at);
          if s.Thrown? { return; }
        }
        s := Call(InstallSecureFactory(c.tlsCert, c.tlsKey, c.tlsCaBundle), at);
      }
    }

    method StartApi(c: Config, at: Option<nat>) returns (s: Status)
      modifies this`trace
      ensures Performed(old(trace), trace, ApiSteps(c), at, s)
    {
      s := Ok;
      if c.apiEnabled {
        s := Call(NewAdapter(Api), at);
        if s.Thrown? { return; }
        s := Call(StartAdapter(Api), at);
      }
    }

    /** The construct-and-start part of one cycle. */
    method Construct(c: Config, at: Option<nat>) returns (s: Status)
      modifies this`trace
      ensures Performed(old(trace), trace, CyclePlan(c, listener), at, s)
    {
      ghost var plan := CyclePlan(c, listener);
      PlanPrefixes(c, listener);
      ghost var t0 := trace;

      s := CreateTransport(c, at);
      ghost var done := TransportSteps(c);
      Advance(t0, t0, trace, [], done, plan, at, s);
      if s.Thrown? { return; }

      ghost var t1 := trace;
      s := AddSerials(c.serials, at);
      Advance(t0, t1, trace, done, SerialSteps(c.serials), plan, at, s);
      if s.Thrown? { return; }
      done := done + SerialSteps(c.serials);

      t1 := trace;
      s := AddPrinter(at);
      Advance(t0, t1, trace, done, PrinterSteps(listener), plan, at, s);
      if s.Thrown? { return; }
      done := done + PrinterSteps(listener);

      t1 := trace;
      s := AddCloudProxy(c, at);
      Advance(t0, t1, trace, done, CloudProxySteps(c), plan, at, s);
      if s.Thrown? { return; }
      done := done + CloudProxySteps(c);

      t1 := trace;
      s := ConfigureTls(c, at);
      Advance(t0, t1, trace, done, TlsSteps(c), plan, at, s);
      if s.Thrown? { return; }
      done := done + TlsSteps(c);

      t1 := trace;
      s := StartApi(c, at);
      Advance(t0, t1, trace, done, ApiSteps(c), plan, at, s);
      if s.Thrown? { return; }
      done := done + ApiSteps(c);

      t1 := trace;
      s := Call(StartTransport, at);
      Advance(t0, t1, trace, done, [StartTransport], plan, at, s);
    }

    /**
     * The polling wait: sleep, let that interval's restart()/stop() calls
     * happen, look at the flags again.
     */
    method Await(ticks: seq<Tick>) returns (woke: bool)
      modifies this`shouldRestart, this`shouldStop
      ensures old(shouldRestart) || old(shouldStop) ==>
        woke && shouldRestart == old(shouldRestart) && shouldStop == old(shouldStop)
      ensures !old(shouldRestart) && !old(shouldStop) ==>
        match FirstWake(ticks, 0)
        case None => !woke && !shouldRestart && !shouldStop
        case Some(k) => woke && shouldRestart == ticks[k].restart && shouldStop == ticks[k].stop
    {
      var i := 0;
      while !shouldRestart && !shouldStop
        invariant 0 <= i <= |ticks|
        invariant old(shouldRestart) || old(shouldStop) ==>
          i == 0 && shouldRestart == old(shouldRestart) && shouldStop == old(shouldStop)
        invariant !old(shouldRestart) && !old(shouldStop) && !shouldRestart && !shouldStop ==>
          FirstWake(ticks, 0) == FirstWake(ticks, i)
        invariant !old(shouldRestart) && !old(shouldStop) && (shouldRestart || shouldStop) ==>
          0 < i && FirstWake(ticks, 0) == Some(i - 1)
          && shouldRestart == ticks[i - 1].restart && shouldStop == ticks[i - 1].stop
        decreases |ticks| - i
      {
        if i == |ticks| {
          return false;
        }
        // Thread.sleep(100), during which these calls arrive
        if ticks[i].restart { Restart(); }
        if ticks[i].stop { Stop(); }
        i := i + 1;
      }
      woke := true;
    }

    method Shutdown(at: Option<nat>) returns (s: Status)
      modifies this`trace
      ensures Performed(old(trace), trace, Teardown(), at, s)
    {
      s := Call(CloseTransport, at);
      if s.Thrown? { return; }
      s := Call(StopTransport, at);
    }

    /**
     * One pass of start()'s loop: clear the restart flag, build and start
     * everything, wait for a signal and, once woken, tear down.
     */
    method ServeCycle(c: Cycle, at: Option<nat>) returns (s: Status, woke: bool)
      requires !shouldStop
      modifies this`trace, this`shouldRestart, this`shouldStop
      ensures Performed(old(trace), trace, CycleEvents(c, listener), at, s)
      ensures s.Ok? ==>
        match FirstWake(c.ticks, 0)
        case None => !woke && !shouldRestart && !shouldStop
        case Some(k) => woke && shouldRestart == c.ticks[k].restart && shouldStop == c.ticks[k].stop
    {
      shouldRestart := false;
      woke := false;
      ghost var t0 := trace;
      s := Construct(c.config, at);
      if s.Thrown? {
        Abandon(t0, trace, CyclePlan(c.config, listener), CycleEvents(c, listener), at);
        return;
      }
      woke := Await(c.ticks);
      if !woke {
        return;
      }
      ghost var t1 := trace;
      s := Shutdown(at);
      Chain(t0, t1, trace, CyclePlan(c.config, listener), Teardown(), at, s);
    }

    /**
     * One pass of start()'s loop, after the calls `done` of the run `r0`:
     * it throws and ends the run, or is never woken and leaves the server
     * serving, or hands the rest of the run to the next cycle.
     */
    method NextCycle(ghost r0: RunResult, ghost done: seq<Event>, pending: seq<Cycle>, at: Option<nat>,
                     ghost fault: Option<nat>, ghost t0: seq<Event>) returns (s: Status, woke: bool)
      requires !shouldStop && pending != []
      requires at == if fault.Some? then Some(|t0| + fault.value) else None
      requires trace == t0 + done && !Hits(fault, 0, |done|)
      requires Resumes(r0, done, shouldRestart, false, pending, listener)
      modifies this`trace, this`shouldRestart, this`shouldStop
      ensures s.Thrown? ==> Supervised(r0, fault, t0, trace, Exit(1), shouldRestart, shouldStop)
      ensures s.Ok? && !woke ==> Supervised(r0, fault, t0, trace, Running, shouldRestart, shouldStop)
      ensures s.Ok? && woke ==>
        var ev := done + CycleEvents(pending[0], listener);
        trace == t0 + ev && !Hits(fault, 0, |ev|)
        && Resumes(r0, ev, shouldRestart, shouldStop, pending[1..], listener)
    {
      ghost var restart := shouldRestart;
      s, woke := ServeCycle(pending[0], at);
      CycleMade(r0, done, restart, pending, listener, fault, t0, trace, at, s, shouldRestart, shouldStop);
      if s.Ok? {
        if woke {
          CycleWoken(r0, done, restart, pending, listener, FirstWake(pending[0].ticks, 0).value);
        } else {
          CycleNeverWoken(r0, done, restart, pending, listener, fault, t0, trace);
        }
      }
    }

    /**
     * start(): run cycles until stop is requested. `cycles` supplies each
     * cycle's configuration and wait; `fault` is the position, counted from
     * this call's first collaborator call, of a call that throws.
     */
    method Start(cycles: seq<Cycle>, fault: Option<nat>) returns (o: Outcome)
      modifies this`trace, this`shouldRestart, this`shouldStop
      ensures Supervised(Run(old(shouldRestart), old(shouldStop), cycles, listener), fault,
                         old(trace), trace, o, shouldRestart, shouldStop)
    {
      ghost var r0 := Run(shouldRestart, shouldStop, cycles, listener);
      ghost var t0 := trace;
      ghost var done: seq<Event> := [];
      assert done + r0.events == r0.events;
      var at := if fault.Some? then Some(|trace| + fault.value) else None;
      var pending := cycles;
      while !shouldStop
        invariant trace == t0 + done && !Hits(fault, 0, |done|)
        invariant Resumes(r0, done, shouldRestart, shouldStop, pending, listener)
        decreases |pending|
      {
        if pending == [] {
          InputExhausted(r0, done, shouldRestart, listener, fault, t0, trace);
          return Running;
        }
        var s, woke := NextCycle(r0, done, pending, at, fault, t0);
        if s.Thrown? {
          return Exit(1);
        }
        if !woke {
          return Running;
        }
        done := done + CycleEvents(pending[0], listener);
        pending := pending[1..];
      }
      StopSeen(r0, done, shouldRestart, pending, listener, fault, t0, trace);
      o := Returned;
    }

    /** main(): take the single-instance lock, then start; a held lock exits with status 1. */
    method Launch(lockHeld: bool, cycles: seq<Cycle>, fault: Option<nat>) returns (o: Outcome)
      modifies this`trace, this`shouldRestart, this`shouldStop
      ensures lockHeld ==> (o == Exit(1) && trace == old(trace)
        && shouldRestart == old(shouldRestart) && shouldStop == old(shouldStop))
      ensures !lockHeld ==> Supervised(Run(old(shouldRestart), old(shouldStop), cycles, listener), fault,
                                       old(trace), trace, o, shouldRestart, shouldStop)
    {
      if lockHeld {
        return Exit(1);
      }
      o := Start(cycles, fault);
    }
  }

  /** The loop has made the calls `done` and, from these flags and cycles, does the rest of `r0`. */
  ghost predicate Resumes(r0: RunResult, done: seq<Event>, restart: bool, stop: bool, pending: seq<Cycle>,
                          listener: Option<Listener>)
  {
    var rest := Run(restart, stop, pending, listener);
    r0 == RunResult(done + rest.events, rest.outcome, rest.restart, rest.stop)
  }

  /** Stop seen at the top of the loop: start() returns with everything done so far. */
  lemma StopSeen(r0: RunResult, done: seq<Event>, restart: bool, pending: seq<Cycle>, listener: Option<Listener>,
                 fault: Option<nat>, t0: seq<Event>, t1: seq<Event>)
    requires Resumes(r0, done, restart, true, pending, listener)
    requires t1 == t0 + done && !Hits(fault, 0, |done|)
    ensures Supervised(r0, fault, t0, t1, Returned, restart, true)
  {
    assert done + [] == done;
  }

  /** No more cycles to run: the server is left serving. */
  lemma InputExhausted(r0: RunResult, done: seq<Event>, restart: bool, listener: Option<Listener>,
                       fault: Option<nat>, t0: seq<Event>, t1: seq<Event>)
    requires Resumes(r0, done, restart, false, [], listener)
    requires t1 == t0 + done && !Hits(fault, 0, |done|)
    ensures Supervised(r0, fault, t0, t1, Running, restart, false)
  {
    assert done + [] == done;
  }

  /** A cycle's calls, teardown included once it wakes, come first among the loop's calls from it on. */
  lemma CycleEventsFirst(restart: bool, pending: seq<Cycle>, listener: Option<Listener>)
    requires pending != []
    ensures CycleEvents(pending[0], listener) <= Run(restart, false, pending, listener).events
  {
    var c := pending[0];
    var plan := CyclePlan(c.config, listener);
    match FirstWake(c.ticks, 0)
    case None =>
      assert CycleEvents(c, listener) == plan;
    case Some(k) =>
      var after := Run(c.ticks[k].restart, c.ticks[k].stop, pending[1..], listener);
      assert CycleEvents(c, listener) == plan + Teardown();
      assert Run(restart, false, pending, listener).events == plan + Teardown() + after.events;
  }

  lemma PrefixExtend(done: seq<Event>, a: seq<Event>, b: seq<Event>)
    requires a <= b
    ensures done + a <= done + b
  {
    assert (done + b)[..|done + a|] == done + a;
  }

  /** The calls of the next cycle come right after those already made. */
  lemma CycleAhead(r0: RunResult, done: seq<Event>, restart: bool, pending: seq<Cycle>, listener: Option<Listener>)
    requires pending != [] && Resumes(r0, done, restart, false, pending, listener)
    ensures done + CycleEvents(pending[0], listener) <= r0.events
  {
    CycleEventsFirst(restart, pending, listener);
    PrefixExtend(done, CycleEvents(pending[0], listener), Run(restart, false, pending, listener).events);
  }

  /**
   * A cycle whose calls were made from `t0 + done` either threw, ending
   * start() with the run cut at the fault, or went through entirely.
   */
  lemma CycleMade(r0: RunResult, done: seq<Event>, restart: bool, pending: seq<Cycle>, listener: Option<Listener>,
                  fault: Option<nat>, t0: seq<Event>, t1: seq<Event>, at: Option<nat>, s: Status,
                  restartAfter: bool, stopAfter: bool)
    requires pending != [] && Resumes(r0, done, restart, false, pending, listener)
    requires at == if fault.Some? then Some(|t0| + fault.value) else None
    requires Performed(t0 + done, t1, CycleEvents(pending[0], listener), at, s) && !Hits(fault, 0, |done|)
    ensures s.Thrown? ==> Supervised(r0, fault, t0, t1, Exit(1), restartAfter, stopAfter)
    ensures s.Ok? ==> (var ev := done + CycleEvents(pending[0], listener);
      t1 == t0 + ev && !Hits(fault, 0, |ev|))
  {
    var ev := CycleEvents(pending[0], listener);
    CycleAhead(r0, done, restart, pending, listener);
    Located(t0, done, ev, t1, fault, at, s);
    if s.Thrown? {
      FaultEnds(r0, done, ev, fault, t0, t1, restartAfter, stopAfter);
    }
  }

  /** A cycle never woken is the last: the server is left serving. */
  lemma CycleNeverWoken(r0: RunResult, done: seq<Event>, restart: bool, pending: seq<Cycle>,
                        listener: Option<Listener>, fault: Option<nat>, t0: seq<Event>, t1: seq<Event>)
    requires pending != [] && FirstWake(pending[0].ticks, 0).None?
    requires Resumes(r0, done, restart, false, pending, listener)
    requires var ev := done + CycleEvents(pending[0], listener); t1 == t0 + ev && !Hits(fault, 0, |ev|)
    ensures Supervised(r0, fault, t0, t1, Running, false, false)
  {
  }

  /** A woken cycle hands over to the next one with the flags of the tick that woke it. */
  lemma CycleWoken(r0: RunResult, done: seq<Event>, restart: bool, pending: seq<Cycle>, listener: Option<Listener>,
                   k: nat)
    requires pending != [] && FirstWake(pending[0].ticks, 0) == Some(k)
    requires Resumes(r0, done, restart, false, pending, listener)
    ensures Resumes(r0, done + CycleEvents(pending[0], listener), pending[0].ticks[k].restart,
                    pending[0].ticks[k].stop, pending[1..], listener)
  {
    var c := pending[0];
    var after := Run(c.ticks[k].restart, c.ticks[k].stop, pending[1..], listener);
    assert CycleEvents(c, listener) == CyclePlan(c.config, listener) + Teardown();
    assert done + (CyclePlan(c.config, listener) + Teardown() + after.events)
      == done + CycleEvents(c, listener) + after.events;
  }

  /**
   * A piece of a cycle that starts after `done` calls of the run either
   * goes through without reaching the fault or stops at it.
   */
  lemma Located(t0: seq<Event>, done: seq<Event>, piece: seq<Event>, t2: seq<Event>, fault: Option<nat>,
                at: Option<nat>, s: Status)
    requires at == if fault.Some? then Some(|t0| + fault.value) else None
    requires Performed(t0 + done, t2, piece, at, s) && !Hits(fault, 0, |done|)
    ensures s.Ok? ==> t2 == t0 + (done + piece) && !Hits(fault, 0, |done + piece|)
    ensures s.Thrown? ==> (Hits(fault, |done|, |piece|)
      && t2 == t0 + (done + piece[..fault.value - |done| + 1]))
  {
  }

  lemma SerialPrefix(serials: seq<SerialConfig>, n: nat)
    requires n <= |serials|
    ensures SerialSteps(serials[..n]) <= SerialSteps(serials)
    decreases |serials|
  {
    if n < |serials| {
      var init := serials[..|serials| - 1];
      assert serials[..n] == init[..n];
      SerialPrefix(init, n);
    } else {
      assert serials[..n] == serials;
    }
  }

  /** A fault inside the piece `p` that follows `done` cuts the whole run at that call. */
  lemma FaultEnds(r: RunResult, done: seq<Event>, p: seq<Event>, fault: Option<nat>, t0: seq<Event>,
                  t1: seq<Event>, restart: bool, stop: bool)
    requires done + p <= r.events
    requires !Hits(fault, 0, |done|) && Hits(fault, |done|, |p|)
    requires t1 == t0 + (done + p[..fault.value - |done| + 1])
    ensures Supervised(r, fault, t0, t1, Exit(1), restart, stop)
  {
    assert r.events[..fault.value + 1] == done + p[..fault.value - |done| + 1];
  }
}
