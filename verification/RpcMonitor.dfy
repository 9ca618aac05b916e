/**
 The health monitor of src/main/chain/rpc-monitor.ts: one endpoint is probed on many occasions, and
 a fault is published only when a second probe confirms the first. Module variables are the fields
 of a class; each method is one uninterrupted stretch and is proved to be a step of a transition
 system, and what is published is then judged over whole runs.
 */
module RpcMonitor {
  import opened Common
  import opened RpcHealth

  type Endpoint = nat

  datatype Path = Clear | ByTunnel | ByKillSwitch

  datatype Published = Published(state: State, endpoint: Endpoint)

  datatype Flight = Flight(endpoint: Endpoint, confirming: bool)

  /** The variables, with the configured endpoint and the path that they read. */
  datatype Monitor = Monitor(health: Published, flight: Option<Flight>, timer: bool, selections: nat,
                             endpoint: Endpoint, path: Path)

  datatype Event =
    | Refresh                         // the poll, or a failed chain query
    | ConfirmFires
    | ProbeReturns(verdict: State)    // classifyRpc of what came back
    | PathMoves(path: Path)           // tunnel or kill switch, before anyone is told
    | PathChanged                     // onChainPathChanged
    | EndpointChanged(endpoint: Endpoint)
    | Stopped

  function UnprobedState(p: Path): State
    requires !p.Clear?
  {
    if p.ByTunnel? then Suspended else Blocked
  }

  /** cancelConfirm and publishUnprobed, for the endpoint that the refresh began with. */
  function Unprobed(m: Monitor, e: Endpoint): Monitor
    requires !m.path.Clear?
  {
    m.(timer := false, health := Published(UnprobedState(m.path), e))
  }

  /** refreshRpcHealth up to the probe. */
  function Refreshed(m: Monitor, confirming: bool): Monitor {
    if m.flight.Some? then m
    else if !m.path.Clear? then Unprobed(m, m.endpoint)
    else m.(flight := Some(Flight(m.endpoint, confirming)))
  }

  predicate StaleState(s: State) {
    s.Suspended? || s.Blocked?
  }

  /** The rest of refreshRpcHealth, when the probe returns. */
  function Returned(m: Monitor, verdict: State): Monitor
    requires m.flight.Some?
  {
    var m1 := m.(flight := None);
    if !m.path.Clear? then Unprobed(m1, m.flight.value.endpoint)
    else if !m.flight.value.confirming && NeedsConfirmation(verdict, m.health.state) then m1.(timer := true)
    else
      var e := m.flight.value.endpoint;
      var again := IsFault(m.health.state) && m.health.endpoint == e;
      m1.(timer := false, health := Published(verdict, e),
          selections := m.selections + if IsFault(verdict) && !again then 1 else 0)
  }

  /** What can happen at all. */
  predicate Enabled(m: Monitor, ev: Event) {
    match ev
    case ConfirmFires => m.timer
    case ProbeReturns(v) => m.flight.Some? && (v.Ok? || v.Degraded? || v.Down?)
    case _ => true
  }

  function Step(m: Monitor, ev: Event): Monitor
    requires Enabled(m, ev)
  {
    match ev
    case Refresh => Refreshed(m, false)
    case ConfirmFires => Refreshed(m.(timer := false), true)
    case ProbeReturns(v) => Returned(m, v)
    case PathMoves(p) => m.(path := p)
    case PathChanged =>
      Refreshed(if StaleState(m.health.state) && m.path.Clear? then m.(health := Published(Unknown, m.endpoint)) else m, false)
    case EndpointChanged(e) => Refreshed(m.(endpoint := e, timer := false), false)
    case Stopped => m.(timer := false)
  }

  // ---- the module ------------------------------------------------------------------

  class HealthMonitor {
    var health: Published
    var probeInFlight: Option<Flight>
    var confirmTimer: bool
    var selections: nat
    var endpoint: Endpoint
    var path: Path

    function View(): Monitor
      reads this
    {
      Monitor(health, probeInFlight, confirmTimer, selections, endpoint, path)
    }

    constructor (e: Endpoint, p: Path)
      ensures View() == Monitor(Published(Unknown, 0), None, false, 0, e, p)
    {
      health, probeInFlight, confirmTimer, selections, endpoint, path := Published(Unknown, 0), None, false, 0, e, p;
    }

    method CancelConfirm()
      modifies this`confirmTimer
      ensures View() == old(View()).(timer := false)
    {
      confirmTimer := false;
    }

    method RefreshRpcHealth(confirming: bool)
      modifies this
      ensures View() == Refreshed(old(View()), confirming)
    {
      if probeInFlight.Some? {
        return;
      }
      if path != Clear {
        CancelConfirm();
        health := Published(UnprobedState(path), endpoint);
        return;
      }
      probeInFlight := Some(Flight(endpoint, confirming));
    }

    method OnProbeReturns(verdict: State)
      requires Enabled(View(), ProbeReturns(verdict))
      modifies this
      ensures View() == Step(old(View()), ProbeReturns(verdict))
    {
      var flight := probeInFlight.value;
      probeInFlight := None;
      if path != Clear {
        CancelConfirm();
        health := Published(UnprobedState(path), flight.endpoint);
        return;
      }
      if !flight.confirming && NeedsConfirmation(verdict, health.state) {
        if !confirmTimer {
          confirmTimer := true;
        }
        return;
      }
      CancelConfirm();
      var prev := health;
      health := Published(verdict, flight.endpoint);
      if IsFault(verdict) && !(IsFault(prev.state) && prev.endpoint == flight.endpoint) {
        selections := selections + 1;
      }
    }

    method OnConfirmFires()
      requires Enabled(View(), ConfirmFires)
      modifies this
      ensures View() == Step(old(View()), ConfirmFires)
    {
      confirmTimer := false;
      RefreshRpcHealth(true);
    }

    method OnRpcEndpointChanged(e: Endpoint)
      modifies this
      ensures View() == Step(old(View()), EndpointChanged(e))
    {
      endpoint := e;
      CancelConfirm();
      RefreshRpcHealth(false);
    }

    method OnChainPathChanged()
      modifies this
      ensures View() == Step(old(View()), PathChanged)
    {
      if StaleState(health.state) && path == Clear {
        health := Published(Unknown, endpoint);
      }
      RefreshRpcHealth(false);
    }

    method StopRpcMonitor()
      modifies this
      ensures View() == Step(old(View()), Stopped)
    {
      CancelConfirm();
    }
  }

  // ---- two samples before an accusation --------------------------------------------

  /**
   A witness of a run: the bad sample that is held back, with the endpoint it was taken from, and
   whether every accusation so far was made by a confirming probe over such a sample.
   */
  datatype Witness = Witness(held: Option<Endpoint>, sound: bool)

  /** The step takes a bad sample and keeps it back. */
  predicate Arms(m: Monitor, ev: Event) {
    ev.ProbeReturns? && m.flight.Some? && m.path.Clear? && !m.flight.value.confirming
    && NeedsConfirmation(ev.verdict, m.health.state)
  }

  /** The step publishes a fault where none was published. */
  predicate Accuses(m: Monitor, m': Monitor) {
    !IsFault(m.health.state) && IsFault(m'.health.state)
  }

  /** The step publishes that all is well, or that the path is not ours to judge. */
  predicate Clears(ev: Event, m: Monitor, m': Monitor) {
    m'.health != m.health && (m'.health.state.Ok? || StaleState(m'.health.state))
  }

  /** A held sample is dropped with its timer, and kept while its confirmation is under way. */
  function Watched(w: Witness, m: Monitor, ev: Event): Witness
    requires Enabled(m, ev)
  {
    var m' := Step(m, ev);
    Witness(
      if Arms(m, ev) then Some(m.flight.value.endpoint)
      else if Clears(ev, m, m') || !(m'.timer || Confirming(m')) then None
      else w.held,
      w.sound && (Accuses(m, m') ==> w.held.Some? && Confirming(m) && ev.ProbeReturns? && IsFault(ev.verdict)))
  }

  predicate Confirming(m: Monitor) {
    m.flight.Some? && m.flight.value.confirming
  }

  /** What every state of a run keeps. */
  predicate Holding(w: Witness, m: Monitor) {
    w.sound && (m.timer || Confirming(m) ==> w.held.Some? && !IsFault(m.health.state))
  }

  lemma StepKeepsHolding(w: Witness, m: Monitor, ev: Event)
    requires Holding(w, m) && Enabled(m, ev)
    ensures Holding(Watched(w, m, ev), Step(m, ev))
  {
  }

  /** Events that can happen, one after another. */
  ghost predicate Possible(m: Monitor, es: seq<Event>)
    decreases |es|
  {
    es == [] || (Enabled(m, es[0]) && Possible(Step(m, es[0]), es[1..]))
  }

  ghost function WatchAll(w: Witness, m: Monitor, es: seq<Event>): Witness
    requires Possible(m, es)
    decreases |es|
  {
    if es == [] then w else WatchAll(Watched(w, m, es[0]), Step(m, es[0]), es[1..])
  }

  ghost function Run(m: Monitor, es: seq<Event>): Monitor
    requires Possible(m, es)
    decreases |es|
  {
    if es == [] then m else Run(Step(m, es[0]), es[1..])
  }

  const NOTHING_HELD := Witness(None, true)

  /** A monitor as it starts. */
  predicate Starting(m: Monitor) {
    m.health.state.Unknown? && m.flight.None? && !m.timer
  }

  /**
   In every run of polls, reports, path changes, endpoint changes and timers: whenever the
   published state turns from no fault to down or degraded, a confirming probe has just come back
   bad, and a bad sample was held before it, with no publication between the two that the endpoint
   is well or the path is closed.
   */
  lemma {:induction false} TwoSamples(w: Witness, m: Monitor, es: seq<Event>)
    requires Holding(w, m) && Possible(m, es)
    ensures Holding(WatchAll(w, m, es), Run(m, es)) && WatchAll(w, m, es).sound
    decreases |es|
  {
    if es != [] {
      StepKeepsHolding(w, m, es[0]);
      TwoSamples(Watched(w, m, es[0]), Step(m, es[0]), es[1..]);
    }
  }

  lemma TwoSamplesFromStart(m: Monitor, es: seq<Event>)
    requires Starting(m) && Possible(m, es)
    ensures WatchAll(NOTHING_HELD, m, es).sound
  {
    TwoSamples(NOTHING_HELD, m, es);
  }

  // ---- nothing at all published between the samples --------------------------------

  /** As Watched, but the "checking" of a path that has just cleared drops the sample as well. */
  function WatchedStrictly(w: Witness, m: Monitor, ev: Event): Witness
    requires Enabled(m, ev)
  {
    var m' := Step(m, ev);
    var rechecked := m'.health != m.health && m'.health.state.Unknown?;
    Watched(w, m, ev).(held := if rechecked && !Arms(m, ev) then None else Watched(w, m, ev).held)
  }

  ghost function WatchAllStrictly(w: Witness, m: Monitor, es: seq<Event>): Witness
    requires Possible(m, es)
    decreases |es|
  {
    if es == [] then w else WatchAllStrictly(WatchedStrictly(w, m, es[0]), Step(m, es[0]), es[1..])
  }

  /** A confirming probe has its sample, and a timer that will start one has it too. */
  predicate HoldingStrictly(w: Witness, m: Monitor) {
    && w.sound
    && (m.timer || Confirming(m) ==> !IsFault(m.health.state))
    && (Confirming(m) || (m.timer && m.flight.None?) ==> w.held.Some?)
  }

  /** A cleared path is announced into a confirming probe: "checking" is published in its middle. */
  predicate Interrupts(m: Monitor, ev: Event) {
    ev.PathChanged? && Confirming(m) && StaleState(m.health.state) && m.path.Clear?
  }

  ghost predicate Uninterrupted(m: Monitor, es: seq<Event>)
    requires Possible(m, es)
    decreases |es|
  {
    es == [] || (!Interrupts(m, es[0]) && Uninterrupted(Step(m, es[0]), es[1..]))
  }

  lemma StepKeepsHoldingStrictly(w: Witness, m: Monitor, ev: Event)
    requires HoldingStrictly(w, m) && Enabled(m, ev)
    ensures WatchedStrictly(w, m, ev).sound
    ensures HoldingStrictly(WatchedStrictly(w, m, ev), Step(m, ev)) <==> !Interrupts(m, ev)
  {
  }

  /** In every run without such an announcement, nothing is published between the two samples. */
  lemma {:induction false} TwoSamplesStrictly(w: Witness, m: Monitor, es: seq<Event>)
    requires HoldingStrictly(w, m) && Possible(m, es) && Uninterrupted(m, es)
    ensures WatchAllStrictly(w, m, es).sound
    decreases |es|
  {
    if es != [] {
      StepKeepsHoldingStrictly(w, m, es[0]);
      TwoSamplesStrictly(WatchedStrictly(w, m, es[0]), Step(m, es[0]), es[1..]);
    }
  }

  /** Every continuation without such an announcement keeps the promise. */
  ghost predicate KeepsStrictly(w: Witness, m: Monitor) {
    forall es :: Possible(m, es) && Uninterrupted(m, es) ==> WatchAllStrictly(w, m, es).sound
  }

  lemma OneStepStrictly(w: Witness, m: Monitor, ev: Event)
    requires Enabled(m, ev)
    ensures Possible(m, [ev]) && WatchAllStrictly(w, m, [ev]) == WatchedStrictly(w, m, ev)
    ensures Uninterrupted(m, [ev]) <==> !Interrupts(m, ev)
  {
    assert [ev][1..] == [];
  }

  /**
   The step that breaks it. From a state in which every accusation so far was sound and samples are
   held, whatever happens next leaves all uninterrupted continuations sound, if and only if it is
   not the announcement of a cleared path into a confirming probe.
   */
  lemma StrictExactlyUnlessInterrupted(w: Witness, m: Monitor, ev: Event)
    requires HoldingStrictly(w, m) && Enabled(m, ev)
    ensures KeepsStrictly(WatchedStrictly(w, m, ev), Step(m, ev)) <==> !Interrupts(m, ev)
  {
    var w1, m1 := WatchedStrictly(w, m, ev), Step(m, ev);
    StepKeepsHoldingStrictly(w, m, ev);
    if Interrupts(m, ev) {
      OneStepStrictly(w1, m1, ProbeReturns(Down));
      assert !WatchAllStrictly(w1, m1, [ProbeReturns(Down)]).sound;
    } else {
      forall es | Possible(m1, es) && Uninterrupted(m1, es) ensures WatchAllStrictly(w1, m1, es).sound {
        TwoSamplesStrictly(w1, m1, es);
      }
    }
  }

  // ---- where a cleared path is announced at once -----------------------------------

  /** While "paused" stands on a cleared path, nothing comes before the announcement. */
  predicate Announced(m: Monitor, ev: Event) {
    StaleState(m.health.state) && m.path.Clear? ==> ev.PathChanged? || ev.PathMoves?
  }

  ghost predicate AllAnnounced(m: Monitor, es: seq<Event>)
    requires Possible(m, es)
    decreases |es|
  {
    es == [] || (Announced(m, es[0]) && AllAnnounced(Step(m, es[0]), es[1..]))
  }

  ghost predicate KeepsAnnounced(w: Witness, m: Monitor) {
    forall es :: Possible(m, es) && AllAnnounced(m, es) ==> WatchAllStrictly(w, m, es).sound
  }

  /** A confirming probe is out under a "paused" that is out of date. */
  predicate Exposed(m: Monitor) {
    Confirming(m) && StaleState(m.health.state)
  }

  /** The timer starts a confirming probe before the cleared path is announced. */
  predicate Exposes(m: Monitor, ev: Event) {
    ev.ConfirmFires? && m.flight.None? && StaleState(m.health.state) && m.path.Clear?
  }

  lemma {:induction false} AnnouncedIsUninterrupted(m: Monitor, es: seq<Event>)
    requires Possible(m, es) && AllAnnounced(m, es) && !Exposed(m)
    ensures Uninterrupted(m, es)
    decreases |es|
  {
    if es != [] {
      AnnouncedIsUninterrupted(Step(m, es[0]), es[1..]);
    }
  }

  lemma ExposedBreaks(w: Witness, m: Monitor)
    requires HoldingStrictly(w, m) && Exposed(m)
    ensures var es := [PathMoves(Clear), PathChanged, ProbeReturns(Down)];
      Possible(m, es) && AllAnnounced(m, es) && !WatchAllStrictly(w, m, es).sound
  {
    var es := [PathMoves(Clear), PathChanged, ProbeReturns(Down)];
    var m1, w1 := Step(m, es[0]), WatchedStrictly(w, m, es[0]);
    var m2, w2 := Step(m1, es[1]), WatchedStrictly(w1, m1, es[1]);
    assert es[1..][1..] == [es[2]] && es[1..][0] == es[1];
    OneStepStrictly(w2, m2, es[2]);
    assert AllAnnounced(m2, [es[2]]) by {
      assert [es[2]][1..] == [];
    }
    assert Possible(m1, es[1..]) && AllAnnounced(m1, es[1..]);
    assert WatchAllStrictly(w1, m1, es[1..]) == WatchedStrictly(w2, m2, es[2]);
    assert WatchAllStrictly(w, m, es) == WatchAllStrictly(w1, m1, es[1..]);
  }

  /**
   Where every cleared path is announced at once from now on, the step that breaks the promise is
   the timer that starts its confirming probe before the announcement; no other step does, and in
   particular not a plain probe that is sent before it.
   */
  lemma StrictExactlyUnlessExposed(w: Witness, m: Monitor, ev: Event)
    requires HoldingStrictly(w, m) && !Exposed(m) && Enabled(m, ev)
    ensures KeepsAnnounced(WatchedStrictly(w, m, ev), Step(m, ev)) <==> !Exposes(m, ev)
  {
    var w1, m1 := WatchedStrictly(w, m, ev), Step(m, ev);
    StepKeepsHoldingStrictly(w, m, ev);
    if Exposes(m, ev) {
      ExposedBreaks(w1, m1);
    } else {
      forall es | Possible(m1, es) && AllAnnounced(m1, es) ensures WatchAllStrictly(w1, m1, es).sound {
        AnnouncedIsUninterrupted(m1, es);
        TwoSamplesStrictly(w1, m1, es);
      }
    }
  }

  /**
   Otherwise "checking" can come between them: a poll finds the path clear before the change is
   announced, its bad sample is held, and the announcement falls into the confirming probe.
   */
  lemma CheckingComesBetween(m: Monitor)
    requires m.health.state.Suspended? && m.path.Clear? && m.flight.None? && !m.timer
    ensures var es := [Refresh, ProbeReturns(Down), ConfirmFires, PathChanged, ProbeReturns(Down)];
      Possible(m, es) && !WatchAllStrictly(NOTHING_HELD, m, es).sound && WatchAll(NOTHING_HELD, m, es).sound
  {
    var es := [Refresh, ProbeReturns(Down), ConfirmFires, PathChanged, ProbeReturns(Down)];
    var m1 := Step(m, es[0]);
    var m2 := Step(m1, es[1]);
    var m3 := Step(m2, es[2]);
    var m4 := Step(m3, es[3]);
    var r1 := es[1..];
    var r2 := r1[1..];
    var r3 := r2[1..];
    var r4 := r3[1..];
    assert r4 == [es[4]] && r4[1..] == [];
    assert Possible(m4, r4) && Possible(m3, r3) && Possible(m2, r2) && Possible(m1, r1);
    var w1 := WatchedStrictly(NOTHING_HELD, m, es[0]);
    var w2 := WatchedStrictly(w1, m1, es[1]);
    var w3 := WatchedStrictly(w2, m2, es[2]);
    var w4 := WatchedStrictly(w3, m3, es[3]);
    var w5 := WatchedStrictly(w4, m4, es[4]);
    assert w4.held.None? && !w5.sound;
    assert WatchAllStrictly(w4, m4, r4) == w5;
    assert WatchAllStrictly(w3, m3, r3) == w5 && WatchAllStrictly(w2, m2, r2) == w5;
    assert WatchAllStrictly(w1, m1, r1) == w5;
    TwoSamples(NOTHING_HELD, m, es);
  }

  /** A plain probe sent while "paused" is out of date does no harm, if the announcement comes next. */
  lemma EarlyProbeIsHarmless(w: Witness, m: Monitor, e: Endpoint)
    requires HoldingStrictly(w, m) && m.flight.None? && StaleState(m.health.state) && m.path.Clear?
    ensures KeepsAnnounced(WatchedStrictly(w, m, Refresh), Step(m, Refresh))
    ensures KeepsAnnounced(WatchedStrictly(w, m, EndpointChanged(e)), Step(m, EndpointChanged(e)))
  {
    StrictExactlyUnlessExposed(w, m, Refresh);
    StrictExactlyUnlessExposed(w, m, EndpointChanged(e));
  }

  // ---- whose samples ---------------------------------------------------------------

  /**
   The sample behind every accusation that can still come is of the endpoint to be accused: by the
   timer, by the confirming probe that is out, and by a plain probe whose reading would be held.
   */
  predicate Attributed(w: Witness, m: Monitor) {
    && (m.timer && m.flight.None? ==> w.held == Some(m.endpoint))
    && (Confirming(m) ==> w.held == Some(m.flight.value.endpoint))
    && (Plain(m) && !IsFault(m.health.state) ==> m.flight.value.endpoint == m.endpoint)
  }

  predicate Plain(m: Monitor) {
    m.flight.Some? && !m.flight.value.confirming
  }

  /** The setting leaves the endpoint of a plain probe whose reading would be held. */
  predicate Misleads(m: Monitor, ev: Event) {
    ev.EndpointChanged? && Plain(m) && !IsFault(m.health.state) && ev.endpoint != m.flight.value.endpoint
  }

  /** An accusation is of the endpoint whose sample was held. */
  predicate Accurate(w: Witness, m: Monitor, ev: Event)
    requires Enabled(m, ev)
  {
    Accuses(m, Step(m, ev)) ==> w.held == Some(Step(m, ev).health.endpoint)
  }

  lemma AttributedStep(w: Witness, m: Monitor, ev: Event)
    requires Holding(w, m) && Attributed(w, m) && Enabled(m, ev)
    ensures Accurate(w, m, ev)
    ensures Attributed(Watched(w, m, ev), Step(m, ev)) <==> !Misleads(m, ev)
  {
  }

  ghost predicate AllQuiet(m: Monitor, es: seq<Event>)
    requires Possible(m, es)
    decreases |es|
  {
    es == [] || (!Misleads(m, es[0]) && AllQuiet(Step(m, es[0]), es[1..]))
  }

  ghost predicate AllAccurate(w: Witness, m: Monitor, es: seq<Event>)
    requires Possible(m, es)
    decreases |es|
  {
    es == [] || (Accurate(w, m, es[0]) && AllAccurate(Watched(w, m, es[0]), Step(m, es[0]), es[1..]))
  }

  /** Where the setting never changes so, both samples are of the accused endpoint. */
  lemma {:induction false} BothSamplesOfTheAccused(w: Witness, m: Monitor, es: seq<Event>)
    requires Holding(w, m) && Attributed(w, m) && Possible(m, es) && AllQuiet(m, es)
    ensures AllAccurate(w, m, es)
    decreases |es|
  {
    if es != [] {
      StepKeepsHolding(w, m, es[0]);
      AttributedStep(w, m, es[0]);
      BothSamplesOfTheAccused(Watched(w, m, es[0]), Step(m, es[0]), es[1..]);
    }
  }

  /** Every quiet continuation accuses accurately. */
  ghost predicate StaysAccurate(w: Witness, m: Monitor) {
    forall es :: Possible(m, es) && AllQuiet(m, es) ==> AllAccurate(w, m, es)
  }

  /** A continuation by one quiet step. */
  lemma StepIsInaccurate(w: Witness, m: Monitor, ev: Event)
    requires Enabled(m, ev) && !Misleads(m, ev)
    ensures !Accurate(w, m, ev) ==> !StaysAccurate(w, m)
    ensures !StaysAccurate(Watched(w, m, ev), Step(m, ev)) ==> !StaysAccurate(w, m)
  {
    if !Accurate(w, m, ev) {
      var es := [ev];
      assert es[0] == ev && es[1..] == [];
      assert Possible(m, es) && AllQuiet(m, es);
      assert !AllAccurate(w, m, es);
    } else if !StaysAccurate(Watched(w, m, ev), Step(m, ev)) {
      var es :| Possible(Step(m, ev), es) && AllQuiet(Step(m, ev), es) && !AllAccurate(Watched(w, m, ev), Step(m, ev), es);
      var all := [ev] + es;
      assert all[0] == ev && all[1..] == es;
      assert Possible(m, all) && AllQuiet(m, all);
      assert !AllAccurate(w, m, all);
    }
  }

  /** A sample of another endpoint leads to a false accusation. */
  lemma MisattributedBreaks(w: Witness, m: Monitor)
    requires Holding(w, m) && !Attributed(w, m)
    ensures !StaysAccurate(w, m)
  {
    var m1, w1 := Step(m, PathMoves(Clear)), Watched(w, m, PathMoves(Clear));
    StepKeepsHolding(w, m, PathMoves(Clear));
    if Confirming(m) && w.held != Some(m.flight.value.endpoint) {
      StepIsInaccurate(w1, m1, ProbeReturns(Down));
    } else if m.timer && m.flight.None? && w.held != Some(m.endpoint) {
      TimerBreaks(w1, m1);
    } else {
      var m2, w2 := Step(m1, ProbeReturns(Down)), Watched(w1, m1, ProbeReturns(Down));
      StepKeepsHolding(w1, m1, ProbeReturns(Down));
      TimerBreaks(w2, m2);
      StepIsInaccurate(w1, m1, ProbeReturns(Down));
    }
    StepIsInaccurate(w, m, PathMoves(Clear));
  }

  lemma TimerBreaks(w: Witness, m: Monitor)
    requires Holding(w, m) && m.timer && m.flight.None? && m.path.Clear? && w.held != Some(m.endpoint)
    ensures !StaysAccurate(w, m)
  {
    var m1, w1 := Step(m, ConfirmFires), Watched(w, m, ConfirmFires);
    StepKeepsHolding(w, m, ConfirmFires);
    StepIsInaccurate(w1, m1, ProbeReturns(Down));
    StepIsInaccurate(w, m, ConfirmFires);
  }

  /** Exactly: all quiet continuations are accurate if and only if the samples are attributed. */
  lemma StaysAccurateIff(w: Witness, m: Monitor)
    requires Holding(w, m)
    ensures StaysAccurate(w, m) <==> Attributed(w, m)
  {
    if Attributed(w, m) {
      forall es | Possible(m, es) && AllQuiet(m, es) ensures AllAccurate(w, m, es) {
        BothSamplesOfTheAccused(w, m, es);
      }
    } else {
      MisattributedBreaks(w, m);
    }
  }

  /**
   The step that breaks it, whatever the path and the published state: of all events only a change
   of the setting away from the endpoint of a plain probe that is out, while no fault is published.
   Under a published fault that probe's reading is published and not held, so no harm is done.
   */
  lemma AccurateExactlyUnlessMisled(w: Witness, m: Monitor, ev: Event)
    requires Holding(w, m) && Attributed(w, m) && Enabled(m, ev)
    ensures StaysAccurate(Watched(w, m, ev), Step(m, ev)) <==> !Misleads(m, ev)
  {
    StepKeepsHolding(w, m, ev);
    AttributedStep(w, m, ev);
    StaysAccurateIff(Watched(w, m, ev), Step(m, ev));
  }

  /**
   Otherwise not: the setting changes while the first probe is out, its bad result is held all the
   same, and the new endpoint is accused after a single sample of its own.
   */
  lemma AccusedOnOneSample(m: Monitor, e: Endpoint)
    requires Starting(m) && m.path.Clear? && e != m.endpoint
    ensures var es := [Refresh, EndpointChanged(e), ProbeReturns(Down), ConfirmFires, ProbeReturns(Down)];
      && Possible(m, es) && Run(m, es).health == Published(Down, e) && !AllAccurate(NOTHING_HELD, m, es)
  {
    var es := [Refresh, EndpointChanged(e), ProbeReturns(Down), ConfirmFires, ProbeReturns(Down)];
    var m1 := Step(m, es[0]);
    var m2 := Step(m1, es[1]);
    var m3 := Step(m2, es[2]);
    var m4 := Step(m3, es[3]);
    var m5 := Step(m4, es[4]);
    var r1 := es[1..];
    var r2 := r1[1..];
    var r3 := r2[1..];
    var r4 := r3[1..];
    assert r4 == [es[4]] && r4[1..] == [];
    assert Possible(m4, r4) && Possible(m3, r3) && Possible(m2, r2) && Possible(m1, r1);
    assert Run(m4, r4) == m5;
    assert Run(m3, r3) == m5 && Run(m2, r2) == m5 && Run(m1, r1) == m5;
    var w1 := Watched(NOTHING_HELD, m, es[0]);
    var w2 := Watched(w1, m1, es[1]);
    var w3 := Watched(w2, m2, es[2]);
    var w4 := Watched(w3, m3, es[3]);
    assert w4.held == Some(m.endpoint);
    assert !Accurate(w4, m4, es[4]);
    assert !AllAccurate(w4, m4, r4);
    assert !AllAccurate(w3, m3, r3);
    assert !AllAccurate(w2, m2, r2);
    assert !AllAccurate(w1, m1, r1);
  }

  // ---- undisturbed -----------------------------------------------------------------

  lemma RunCons(m: Monitor, e: Event, es: seq<Event>)
    requires Enabled(m, e) && Possible(Step(m, e), es)
    ensures Possible(m, [e] + es) && Run(m, [e] + es) == Run(Step(m, e), es)
  {
    assert ([e] + es)[1..] == es;
  }

  lemma RunTwo(m: Monitor, a: Event, b: Event)
    requires Enabled(m, a) && Enabled(Step(m, a), b)
    ensures Possible(m, [a, b]) && Run(m, [a, b]) == Step(Step(m, a), b)
  {
    RunCons(Step(m, a), b, []);
    RunCons(m, a, [b]);
    assert [a] + [b] == [a, b] && [b] + [] == [b];
  }

  lemma RunFour(m: Monitor, a: Event, b: Event, c: Event, d: Event)
    requires Enabled(m, a) && Enabled(Step(m, a), b) && Enabled(Step(Step(m, a), b), c)
    requires Enabled(Step(Step(Step(m, a), b), c), d)
    ensures Possible(m, [a, b]) && Run(m, [a, b]) == Step(Step(m, a), b)
    ensures Possible(m, [a, b, c, d]) && Run(m, [a, b, c, d]) == Step(Step(Step(Step(m, a), b), c), d)
  {
    RunTwo(m, a, b);
    RunTwo(Step(Step(m, a), b), c, d);
    RunCons(Step(m, a), b, [c, d]);
    RunCons(m, a, [b, c, d]);
    assert [b] + [c, d] == [b, c, d] && [a] + [b, c, d] == [a, b, c, d];
  }

  /** Ready to probe, on a clear path, with no fault on show. */
  predicate Ready(m: Monitor) {
    m.flight.None? && m.path.Clear? && !IsFault(m.health.state)
  }

  /**
   A poll and what comes of it. A good reading is published at once. A bad one is held and probed
   again, once: what the second says of the endpoint is published, and a fault starts the selection.
   */
  lemma PollOutcome(m: Monitor, first: State, second: State)
    requires Ready(m) && IsFault(first) && (IsFault(second) || second.Ok?)
    ensures var good := [Refresh, ProbeReturns(State.Ok)];
      Possible(m, good) && Run(m, good) == m.(timer := false, health := Published(State.Ok, m.endpoint))
    ensures var held := [Refresh, ProbeReturns(first)];
      Possible(m, held) && Run(m, held) == m.(timer := true)
    ensures var es := [Refresh, ProbeReturns(first), ConfirmFires, ProbeReturns(second)];
      && Possible(m, es)
      && Run(m, es) == m.(timer := false, health := Published(second, m.endpoint),
                          selections := m.selections + if IsFault(second) then 1 else 0)
  {
    RunFour(m, Refresh, ProbeReturns(State.Ok), Refresh, ProbeReturns(State.Ok));
    RunFour(m, Refresh, ProbeReturns(first), ConfirmFires, ProbeReturns(second));
  }

  /** A fault that is on show: the next reading replaces it at once, and the same fault selects nothing again. */
  lemma FaultOutcome(m: Monitor, e: Endpoint, verdict: State)
    requires m.flight == Some(Flight(e, false)) && m.path.Clear? && IsFault(m.health.state)
    requires IsFault(verdict) || verdict.Ok?
    ensures Step(m, ProbeReturns(verdict))
         == m.(flight := None, timer := false, health := Published(verdict, e),
               selections := m.selections + if IsFault(verdict) && m.health.endpoint != e then 1 else 0)
  {
  }

  /** While the tunnel or the kill switch is in the way nothing is probed: that is what is published. */
  lemma ClosedPath(m: Monitor, verdict: State)
    requires !m.path.Clear? && (verdict.Ok? || IsFault(verdict))
    ensures var why := if m.path.ByTunnel? then Suspended else Blocked;
      && (m.flight.None? ==> Step(m, Refresh) == m.(timer := false, health := Published(why, m.endpoint)))
      && (m.flight.Some? ==> Step(m, Refresh) == m)
      && (m.flight.Some? ==>
            Step(m, ProbeReturns(verdict))
            == m.(flight := None, timer := false, health := Published(why, m.flight.value.endpoint)))
  {
  }

  /** The timer fires once; a change of endpoint and a stop take it back. */
  lemma TimerEnds(m: Monitor, e: Endpoint)
    requires m.timer
    ensures !Step(m, ConfirmFires).timer && !Step(m, EndpointChanged(e)).timer && !Step(m, Stopped).timer
    ensures Step(m, EndpointChanged(e)).endpoint == e
    ensures m.flight.None? && m.path.Clear? ==>
              && Step(m, ConfirmFires) == m.(timer := false, flight := Some(Flight(m.endpoint, true)))
              && Step(m, EndpointChanged(e)) == m.(timer := false, endpoint := e, flight := Some(Flight(e, false)))
    ensures Step(m, Stopped) == m.(timer := false)
  {
  }

  /** A path that has cleared goes to "checking" and is probed. */
  lemma ClearedPath(m: Monitor)
    requires m.path.Clear? && m.flight.None?
    ensures Step(m, PathChanged)
         == m.(flight := Some(Flight(m.endpoint, false)),
               health := if m.health.state.Suspended? || m.health.state.Blocked? then Published(Unknown, m.endpoint) else m.health)
  {
  }

  // ---- the selection behind a fault ------------------------------------------------

  /** The automatic selection runs once for each fault published anew, and at no other time. */
  lemma SelectionPerFaultIff(w: Witness, m: Monitor, ev: Event)
    requires Holding(w, m) && Enabled(m, ev)
    ensures var m' := Step(m, ev);
      && (m'.selections == m.selections + 1
          <==> IsFault(m'.health.state) && (!IsFault(m.health.state) || m.health.endpoint != m'.health.endpoint))
      && (m'.selections == m.selections || m'.selections == m.selections + 1)
  {
  }
}
