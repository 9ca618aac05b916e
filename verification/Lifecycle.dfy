/**
 The connection lifecycle of src/main/ipc-handlers.ts as a transition system.

 JavaScript runs one segment of code at a time and switches only at an await, so every
 segment between two awaits is one step here. Bodies handed to withConnectionLock wait in a
 FIFO queue and only the one at its head moves; the teardown that a give-up starts runs
 beside the queue. Every choice the environment makes (does a bring-up work, is there a
 saved config, what do the settings say) rides on the event, so a run is a sequence of events.
 */
module Lifecycle {
  import opened Common

  const RECONNECT_MAX_ATTEMPTS: nat := 5

  type SessionId = nat

  datatype Protocol = WireGuard | AmneziaWg | OpenVpn | V2Ray | Xray | Hysteria2

  datatype Mode = Tunnel | Proxy

  /** The root helper owns the interface; the other three spawn a core and then a TUN. */
  predicate IsRootTunnel(p: Protocol) {
    p.WireGuard? || p.AmneziaWg? || p.OpenVpn?
  }

  // ---- queued bodies, each with the await it is suspended at -----------------------

  /** Where a bring-up is: core spawned or root verb sent, TUN verb sent, settings, probe. */
  datatype BringUp = Starting | RaisingTun | Applying | Probing

  datatype ConnectAt = ConnectAtLock | Preparing | Raising(stage: BringUp) | Undoing

  datatype TearAt = Reverting | Dropping | Settling

  datatype ReconnectAt =
    | ReconnectAtLock
    | Reraising(protocol: Protocol, stage: BringUp)
    | Failing
    | Idling(tear: TearAt)

  datatype HaltAt = HaltAtLock | HaltReverting | HaltDropping | HaltClearing

  datatype Body =
    | Connect(protocol: Protocol, mode: Mode, connectAt: ConnectAt)
    | Reconnect(epoch: nat, reconnectAt: ReconnectAt)
    | Halt(haltAt: HaltAt)  // performDisconnect and standDownSession
    | Firewall              // reapplyFirewall: no step of it touches the tunnel

  predicate AtLock(b: Body) {
    match b
    case Connect(_, _, at) => at.ConnectAtLock?
    case Reconnect(_, at) => at.ReconnectAtLock?
    case Halt(at) => at.HaltAtLock?
    case Firewall => true
  }

  // ---- state -----------------------------------------------------------------------

  /** connectionEpoch, reconnectAttempt, isIntentionalDisconnect, and reconnectTimer with
      the epoch its closure captured. */
  datatype Ladder = Ladder(epoch: nat, attempt: nat, intentional: bool, timer: Option<nat>)

  /** The tracked session: ids, whether any of the six active…Config strings is set, intent. */
  datatype Tracked = Tracked(
    session: Option<SessionId>, exitSession: Option<SessionId>, hasConfig: bool,
    desired: Option<Protocol>, mode: Mode)

  /** What vpn-manager.ts keeps running: the child core, an interface or TUN, its activeMode. */
  datatype Link = Link(core: bool, iface: bool, proxyOnly: bool)

  datatype Watch = Watch(monitor: bool, watchdog: bool)

  datatype Vars = Vars(ladder: Ladder, tracked: Tracked, link: Link, watch: Watch)

  /** `teardowns` are the teardownToIdle calls running outside the lock; `applying` counts the
      purchase and reconnect handlers that passed assertNotConnected and have not ended. */
  datatype State = State(v: Vars, queue: seq<Body>, teardowns: seq<TearAt>, applying: nat)

  const NO_LINK := Link(false, false, false)
  const NO_SESSION := Tracked(None, None, false, None, Tunnel)
  const UNWATCHED := Watch(false, false)
  const INITIAL := State(Vars(Ladder(0, 0, false, None), NO_SESSION, NO_LINK, UNWATCHED), [], [], 0)

  /** getConnectionStatus().connected. */
  predicate Connected(link: Link) {
    if link.core then link.proxyOnly || link.iface else link.iface
  }

  /** Nothing of ours is running: no core process and no tunnel interface. */
  predicate TunnelDown(s: State) {
    !s.v.link.core && !s.v.link.iface
  }

  // ---- reconnect decision ----------------------------------------------------------

  datatype Decision = NoSession | Intentional | AutoReconnectOff | GiveUp | Retry(attempt: nat)

  function DecideReconnect(attempt: nat, autoReconnect: bool, intentional: bool, hasSession: bool): Decision {
    if !hasSession then NoSession
    else if intentional then Intentional
    else if !autoReconnect then AutoReconnectOff
    else if attempt + 1 > RECONNECT_MAX_ATTEMPTS then GiveUp
    else Retry(attempt + 1)
  }

  /** The part of performDisconnect and standDownSession that runs before the lock. */
  function SignalHalt(s: State): State {
    s.(v := s.v.(ladder := Ladder(s.v.ladder.epoch + 1, 0, true, None)), queue := s.queue + [Halt(HaltAtLock)])
  }

  /** attemptReconnect: `quotaSpent` is the verdict a give-up consults. */
  function AttemptReconnect(s: State, autoReconnect: bool, quotaSpent: bool): State {
    var ladder := s.v.ladder;
    match DecideReconnect(ladder.attempt, autoReconnect, ladder.intentional, s.v.tracked.session.Some?)
    case NoSession => s
    case Intentional => s
    case AutoReconnectOff => SignalHalt(s)
    case GiveUp =>
      if quotaSpent then SignalHalt(s)
      else s.(v := s.v.(ladder := ladder.(attempt := 0)), teardowns := s.teardowns + [Reverting])
    case Retry(n) => s.(v := s.v.(ladder := ladder.(attempt := n, timer := Some(ladder.epoch))))
  }

  // ---- what each body does between two awaits --------------------------------------

  /** What the environment answers while a body moves. */
  datatype Answer = Answer(
    ok: bool,                  // the awaited step succeeded
    leftover: bool,            // a failed root bring-up leaves its interface behind
    saved: Option<Protocol>,   // loadSessionConfig
    autoReconnect: bool,
    quotaSpent: bool)

  /** The variables after a segment and the await it reached; None when the body ended. */
  datatype Moved = Moved(v: Vars, next: Option<Body>)

  /** finalizeTunnelConnect. */
  function Finalized(v: Vars, p: Protocol, mode: Mode): Vars {
    v.(tracked := v.tracked.(desired := Some(p), mode := mode),
       watch := Watch(v.watch.monitor || mode.Tunnel?, true))
  }

  /** Start a bring-up: the child protocols spawn their core before the first await. */
  function Spawned(v: Vars, p: Protocol, mode: Mode): Vars {
    if IsRootTunnel(p) then v else v.(link := v.link.(core := true, proxyOnly := mode.Proxy?))
  }

  function WithIface(v: Vars, up: bool): Vars {
    v.(link := v.link.(iface := up))
  }

  /** CONNECTION_CONNECT inside the lock. */
  function ConnectStep(v: Vars, p: Protocol, mode: Mode, at: ConnectAt, a: Answer): Moved {
    match at
    case ConnectAtLock =>
      // assertNotConnected, then the await of assertSystemReady
      if v.ladder.attempt > 0 || Connected(v.link) then Moved(v, None)
      else Moved(v, Some(Connect(p, mode, Preparing)))
    case Preparing =>
      if !a.ok then Moved(v, None) else Moved(Spawned(v, p, mode), Some(Connect(p, mode, Raising(Starting))))
    case Raising(Starting) =>
      if IsRootTunnel(p) then
        if a.ok then Moved(WithIface(v, true), Some(Connect(p, mode, Raising(Applying))))
        else Moved(WithIface(v, a.leftover), None)
      else if !v.link.core then Moved(v, None)
      else if mode.Proxy? then Moved(Finalized(v, p, mode), None)
      else Moved(v, Some(Connect(p, mode, Raising(RaisingTun))))
    case Raising(RaisingTun) =>
      if a.ok then Moved(WithIface(v, true), Some(Connect(p, mode, Raising(Applying))))
      else Moved(v, Some(Connect(p, mode, Undoing)))
    case Raising(Applying) => Moved(v, Some(Connect(p, mode, Raising(Probing))))
    case Raising(Probing) =>
      if a.ok then Moved(Finalized(v, p, mode), None) else Moved(v, Some(Connect(p, mode, Undoing)))
    case Undoing => Moved(v.(link := NO_LINK), None)
  }

  /** The tail of teardownToIdle after its disconnect(). */
  function Idled(v: Vars): Vars {
    v.(watch := UNWATCHED, tracked := v.tracked.(desired := None))
  }

  function WithAttempt(v: Vars, n: nat): Vars {
    v.(ladder := v.ladder.(attempt := n))
  }

  /** The bring-up of a reconnect is complete: the epoch check that follows it. */
  function RaisedAgain(v: Vars, myEpoch: nat, p: Protocol): Moved {
    if v.ladder.epoch != myEpoch then Moved(WithAttempt(v, 0), Some(Reconnect(myEpoch, Idling(Reverting))))
    else if v.tracked.mode.Proxy? then Moved(Finalized(WithAttempt(v, 0), p, v.tracked.mode), None)
    else Moved(v, Some(Reconnect(myEpoch, Reraising(p, Applying))))
  }

  /** The body the reconnect timer queues; its Failing end is in HeadStep. */
  function ReconnectStep(v: Vars, e: nat, at: ReconnectAt, a: Answer): Moved
    requires !at.Failing?
  {
    match at
    case ReconnectAtLock =>
      if v.ladder.epoch != e || v.tracked.session.None? then Moved(v, None)
      else if a.saved.None? then Moved(WithAttempt(v, 0), Some(Reconnect(e, Idling(Reverting))))
      else Moved(Spawned(v, a.saved.value, v.tracked.mode), Some(Reconnect(e, Reraising(a.saved.value, Starting))))
    case Reraising(p, Starting) =>
      if IsRootTunnel(p) then
        if a.ok then RaisedAgain(WithIface(v, true), e, p)
        else Moved(WithIface(v, a.leftover), Some(Reconnect(e, Failing)))
      else if !v.link.core then Moved(v, Some(Reconnect(e, Failing)))
      else if v.tracked.mode.Proxy? then RaisedAgain(v, e, p)
      else Moved(v, Some(Reconnect(e, Reraising(p, RaisingTun))))
    case Reraising(p, RaisingTun) =>
      if a.ok then RaisedAgain(WithIface(v, true), e, p) else Moved(v, Some(Reconnect(e, Failing)))
    case Reraising(p, Applying) => Moved(v, Some(Reconnect(e, Reraising(p, Probing))))
    case Reraising(p, Probing) =>
      if a.ok then Moved(Finalized(WithAttempt(v, 0), p, v.tracked.mode), None)
      else Moved(v, Some(Reconnect(e, Failing)))
    case Idling(Reverting) => Moved(v, Some(Reconnect(e, Idling(Dropping))))
    case Idling(Dropping) => Moved(v.(link := NO_LINK), Some(Reconnect(e, Idling(Settling))))
    case Idling(Settling) => Moved(Idled(v), None)
  }

  /** performDisconnect and standDownSession inside the lock. */
  function HaltStep(v: Vars, at: HaltAt): Moved {
    match at
    case HaltAtLock => Moved(v.(watch := UNWATCHED), Some(Halt(HaltReverting)))
    case HaltReverting => Moved(v, Some(Halt(HaltDropping)))
    case HaltDropping => Moved(v.(link := NO_LINK), Some(Halt(HaltClearing)))
    case HaltClearing => Moved(v.(tracked := NO_SESSION, ladder := v.ladder.(intentional := false)), None)
  }

  function BodyStep(v: Vars, b: Body, a: Answer): Moved
    requires !IsFailing(b)
  {
    match b
    case Connect(p, mode, at) => ConnectStep(v, p, mode, at, a)
    case Reconnect(e, at) => ReconnectStep(v, e, at, a)
    case Halt(at) => HaltStep(v, at)
    case Firewall => Moved(v, None)
  }

  predicate IsFailing(b: Body) {
    b.Reconnect? && b.reconnectAt.Failing?
  }

  /** The head of the lock queue runs to its next await. */
  function HeadStep(s: State, a: Answer): State
    requires s.queue != []
  {
    if IsFailing(s.queue[0]) then
      // the catch: disconnect(), then attemptReconnect() with no epoch check
      AttemptReconnect(s.(v := s.v.(link := NO_LINK), queue := s.queue[1..]), a.autoReconnect, a.quotaSpent)
    else
      var m := BodyStep(s.v, s.queue[0], a);
      s.(v := m.v, queue := if m.next.None? then s.queue[1..] else s.queue[0 := m.next.value])
  }

  // ---- events ----------------------------------------------------------------------

  datatype Event =
    | ClickConnect(protocol: Protocol, mode: Mode)
    | ClickDisconnect
    | QuotaOrStall
    | ToggleFirewall
    | BeginSession
    | ApplySession(id: SessionId, exit: Option<SessionId>, config: bool, last: bool)
    | AbandonSession
    | TimerFires
    | MonitorTick(routeChanged: bool, autoReconnect: bool, quotaSpent: bool)
    | CoreExits(autoReconnect: bool, quotaSpent: bool)
    | InterfaceLost
    | HeadRuns(answer: Answer)
    | TeardownRuns(i: nat)

  /** Does a tick of the 5 s liveness timer call attemptReconnect? */
  predicate MonitorReacts(v: Vars, routeChanged: bool) {
    && v.watch.monitor && !v.ladder.intentional && v.ladder.attempt == 0
    && v.tracked.session.Some? && v.tracked.desired.Some?
    && (if IsRootTunnel(v.tracked.desired.value) then !v.link.iface
        else v.tracked.mode.Tunnel? && v.link.iface && routeChanged)
  }

  function TeardownStep(s: State, i: nat): State
    requires i < |s.teardowns|
  {
    match s.teardowns[i]
    case Reverting => s.(teardowns := s.teardowns[i := Dropping])
    case Dropping => s.(v := s.v.(link := NO_LINK), teardowns := s.teardowns[i := Settling])
    case Settling => s.(v := Idled(s.v), teardowns := s.teardowns[..i] + s.teardowns[i + 1..])
  }

  /** One step of the whole system; an event that is not enabled changes nothing. */
  function Step(s: State, e: Event): State {
    match e
    case ClickConnect(p, mode) =>
      if mode.Proxy? && IsRootTunnel(p) then s
      else s.(queue := s.queue + [Connect(p, mode, ConnectAtLock)])
    case ClickDisconnect => SignalHalt(s)
    case QuotaOrStall =>
      if s.v.ladder.intentional || s.v.ladder.attempt > 0 || s.v.tracked.session.None? then s else SignalHalt(s)
    case ToggleFirewall => s.(queue := s.queue + [Firewall])
    case BeginSession =>
      if s.v.ladder.attempt > 0 || Connected(s.v.link) then s else s.(applying := s.applying + 1)
    case ApplySession(id, exit, config, last) =>
      if s.applying == 0 then s
      else
        var t := s.v.tracked;
        var t' := t.(session := Some(id), exitSession := if exit.Some? then exit else t.exitSession,
                     hasConfig := t.hasConfig || config);
        s.(v := s.v.(tracked := t'), applying := if last then s.applying - 1 else s.applying)
    case AbandonSession => if s.applying == 0 then s else s.(applying := s.applying - 1)
    case TimerFires =>
      if s.v.ladder.timer.None? then s
      else s.(v := s.v.(ladder := s.v.ladder.(timer := None)),
              queue := s.queue + [Reconnect(s.v.ladder.timer.value, ReconnectAtLock)])
    case MonitorTick(changed, auto, spent) =>
      if MonitorReacts(s.v, changed) then AttemptReconnect(s, auto, spent) else s
    case CoreExits(auto, spent) =>
      if !s.v.link.core then s
      else
        var gone := s.(v := s.v.(link := NO_LINK));
        if s.v.ladder.intentional || s.v.tracked.session.None? then gone else AttemptReconnect(gone, auto, spent)
    case InterfaceLost => s.(v := WithIface(s.v, false))
    case HeadRuns(a) => if s.queue == [] then s else HeadStep(s, a)
    case TeardownRuns(i) => if i < |s.teardowns| then TeardownStep(s, i) else s
  }

  /** The state a run of events ends in. */
  function Run(s: State, es: seq<Event>): State
    decreases |es|
  {
    if es == [] then s else Run(Step(s, es[0]), es[1..])
  }

  lemma {:induction false} RunAppend(s: State, a: seq<Event>, b: seq<Event>)
    ensures Run(s, a + b) == Run(Run(s, a), b)
    decreases |a|
  {
    if a == [] {
      assert a + b == b;
    } else {
      assert (a + b)[0] == a[0] && (a + b)[1..] == a[1..] + b;
      RunAppend(Step(s, a[0]), a[1..], b);
    }
  }

  // ---- what every step keeps -------------------------------------------------------

  /**
   Only the head has left the lock, an armed timer carries the current epoch, no queued
   reconnect is from the future, the ladder is bounded, a connect that passed its guard is
   not about to stack a second tunnel on a live one, and a halt that has dropped the tunnel
   finds it down.
   */
  ghost predicate WellFormed(s: State) {
    && QueueOk(s.queue, s.v.ladder.epoch)
    && LadderOk(s.v.ladder)
    && (s.queue != [] ==> HeadOk(s.v, s.queue[0]))
  }

  ghost predicate QueueOk(q: seq<Body>, epoch: nat) {
    && (forall i :: 0 < i < |q| ==> AtLock(q[i]))
    && (forall i :: 0 <= i < |q| && q[i].Reconnect? ==> q[i].epoch <= epoch)
  }

  predicate LadderOk(l: Ladder) {
    l.attempt <= RECONNECT_MAX_ATTEMPTS && (l.timer.Some? ==> l.timer.value == l.epoch)
  }

  predicate HeadOk(v: Vars, head: Body) {
    match head
    case Connect(_, _, at) => at.Preparing? ==> !Connected(v.link)
    case Halt(at) =>
      (!at.HaltAtLock? ==> v.watch == UNWATCHED) && (at.HaltClearing? ==> v.link == NO_LINK)
    case _ => true
  }

  /** A segment keeps the epoch and timer, never raises the attempt count, and keeps its kind. */
  lemma BodyMoves(v: Vars, b: Body, a: Answer)
    requires !IsFailing(b) && HeadOk(v, b)
    ensures var m := BodyStep(v, b, a);
      && m.v.ladder.epoch == v.ladder.epoch && m.v.ladder.timer == v.ladder.timer
      && m.v.ladder.attempt <= v.ladder.attempt
      && (m.next.Some? ==> HeadOk(m.v, m.next.value))
      && (m.next.Some? && m.next.value.Reconnect? ==> b.Reconnect? && m.next.value.epoch == b.epoch)
  {
  }

  lemma AttemptKeepsWellFormed(s: State, autoReconnect: bool, quotaSpent: bool)
    requires WellFormed(s)
    ensures WellFormed(AttemptReconnect(s, autoReconnect, quotaSpent))
  {
  }

  lemma HeadKeepsWellFormed(s: State, a: Answer)
    requires WellFormed(s) && s.queue != []
    ensures WellFormed(HeadStep(s, a))
  {
    if IsFailing(s.queue[0]) {
      AttemptKeepsWellFormed(s.(v := s.v.(link := NO_LINK), queue := s.queue[1..]), a.autoReconnect, a.quotaSpent);
    } else {
      BodyMoves(s.v, s.queue[0], a);
    }
  }

  lemma StepKeepsWellFormed(s: State, e: Event)
    requires WellFormed(s)
    ensures WellFormed(Step(s, e))
  {
    match e
    case HeadRuns(a) => if s.queue != [] { HeadKeepsWellFormed(s, a); }
    case MonitorTick(_, auto, spent) => AttemptKeepsWellFormed(s, auto, spent);
    case CoreExits(auto, spent) => AttemptKeepsWellFormed(s.(v := s.v.(link := NO_LINK)), auto, spent);
    case _ =>
  }

  lemma {:induction false} RunKeepsWellFormed(s: State, es: seq<Event>)
    requires WellFormed(s)
    ensures WellFormed(Run(s, es))
    decreases |es|
  {
    if es != [] {
      StepKeepsWellFormed(s, es[0]);
      RunKeepsWellFormed(Step(s, es[0]), es[1..]);
    }
  }

  // ---- a disconnect that has run ---------------------------------------------------

  /** The next segment of the head ends a disconnect or stand-down body. */
  predicate HaltFinishes(s: State) {
    s.queue != [] && s.queue[0] == Halt(HaltClearing)
  }

  predicate NoConnect(q: seq<Body>) {
    forall i :: 0 <= i < |q| ==> !q[i].Connect?
  }

  predicate NoClickConnect(es: seq<Event>) {
    forall i :: 0 <= i < |es| ==> !es[i].ClickConnect?
  }

  predicate NoNewSession(es: seq<Event>) {
    forall i :: 0 <= i < |es| ==> !es[i].ApplySession?
  }

  /** A reconnect that will pass its epoch check. */
  predicate Fresh(b: Body, epoch: nat) {
    b.Reconnect? && b.epoch == epoch
  }

  /** A reconnect is armed: its timer is set, or it is queued with the current epoch. */
  ghost predicate ReconnectArmed(s: State) {
    s.v.ladder.timer.Some? || exists i :: 0 <= i < |s.queue| && Fresh(s.queue[i], s.v.ladder.epoch)
  }

  /** An armed reconnect can still find a session: a handler is in flight, or one may start. */
  ghost predicate ReconnectCanWin(s: State) {
    ReconnectArmed(s) && (s.applying > 0 || s.v.ladder.attempt == 0)
  }

  /** Down, unwatched, and nothing queued can raise it. */
  ghost predicate Calm(s: State) {
    && s.v.link == NO_LINK && s.v.watch == UNWATCHED && s.v.ladder.timer.None?
    && (forall i :: 0 <= i < |s.queue| ==> Harmless(s.queue[i], s.v.ladder.epoch))
  }

  predicate Harmless(b: Body, epoch: nat) {
    !b.Connect? && (b.Reconnect? ==> AtLock(b) && b.epoch < epoch)
  }

  predicate SessionCleared(t: Tracked) {
    t.session.None? && t.exitSession.None? && !t.hasConfig
  }

  lemma CalmStep(s: State, e: Event)
    requires Calm(s) && !e.ClickConnect?
    ensures Calm(Step(s, e))
    ensures s.v.tracked.desired.None? ==> Step(s, e).v.tracked.desired.None?
    ensures SessionCleared(s.v.tracked) && !e.ApplySession? ==> SessionCleared(Step(s, e).v.tracked)
  {
    if e.HeadRuns? && s.queue != [] {
      assert Harmless(s.queue[0], s.v.ladder.epoch);
    }
  }

  lemma {:induction false} CalmRun(s: State, es: seq<Event>)
    requires Calm(s) && NoClickConnect(es)
    ensures Calm(Run(s, es))
    ensures s.v.tracked.desired.None? ==> Run(s, es).v.tracked.desired.None?
    ensures SessionCleared(s.v.tracked) && NoNewSession(es) ==> SessionCleared(Run(s, es).v.tracked)
    decreases |es|
  {
    if es != [] {
      CalmStep(s, es[0]);
      assert forall i :: 0 <= i < |es[1..]| ==> es[1..][i] == es[i + 1];
      CalmRun(Step(s, es[0]), es[1..]);
    }
  }

  /**
   Down, unwatched, with no session and no way to get one: the attempt count left behind by an
   armed reconnect makes assertNotConnected refuse every handler that would apply a session.
   */
  ghost predicate Stranded(s: State) {
    && s.v.link == NO_LINK && s.v.watch == UNWATCHED && s.v.tracked.session.None?
    && s.v.ladder.attempt > 0 && s.applying == 0
    && LadderOk(s.v.ladder) && QueueOk(s.queue, s.v.ladder.epoch)
    && (forall i :: 0 <= i < |s.queue| ==> !s.queue[i].Connect? && (s.queue[i].Reconnect? ==> AtLock(s.queue[i])))
  }

  lemma StrandedStep(s: State, e: Event)
    requires Stranded(s) && !e.ClickConnect?
    ensures Stranded(Step(s, e)) || Calm(Step(s, e))
  {
    if e.ClickDisconnect? {
      var s' := Step(s, e);
      assert forall i :: 0 <= i < |s'.queue| ==> Harmless(s'.queue[i], s'.v.ladder.epoch);
    } else if e.HeadRuns? && s.queue != [] {
      BodyIntent(s.v, s.queue[0], e.answer);
    }
  }

  lemma {:induction false} StrandedRun(s: State, es: seq<Event>)
    requires Stranded(s) && NoClickConnect(es)
    ensures TunnelDown(Run(s, es))
    decreases |es|
  {
    if es != [] {
      StrandedStep(s, es[0]);
      assert forall i :: 0 <= i < |es[1..]| ==> es[1..][i] == es[i + 1];
      if Calm(Step(s, es[0])) {
        CalmRun(Step(s, es[0]), es[1..]);
      } else {
        StrandedRun(Step(s, es[0]), es[1..]);
      }
    }
  }

  /** The tunnel is down and no run without a new connect raises it. */
  ghost predicate StaysDown(s: State) {
    forall es :: NoClickConnect(es) ==> TunnelDown(Run(s, es))
  }

  /**
   Exactly when a disconnect or stand-down dominates: in every reachable state where its body
   finishes with no connect behind it, the tunnel stays down in all continuations without a
   new connect if and only if no armed reconnect can still find a session at that moment.
   */
  lemma HaltDominatesIff(es: seq<Event>, a: Answer)
    requires HaltFinishes(Run(INITIAL, es)) && NoConnect(Run(INITIAL, es).queue)
    ensures var s' := Step(Run(INITIAL, es), HeadRuns(a));
      && s'.v.tracked == NO_SESSION && TunnelDown(s')
      && (StaysDown(s') <==> !ReconnectCanWin(s'))
  {
    RunKeepsWellFormed(INITIAL, es);
    var s := Run(INITIAL, es);
    StepKeepsWellFormed(s, HeadRuns(a));
    var s' := Step(s, HeadRuns(a));
    assert s'.queue == s.queue[1..];
    assert forall i :: 0 <= i < |s'.queue| ==> s'.queue[i] == s.queue[i + 1] && AtLock(s'.queue[i]);
    if ReconnectCanWin(s') {
      var fs := ArmedRises(s');
      assert NoClickConnect(fs) && !TunnelDown(Run(s', fs));
    } else if ReconnectArmed(s') {
      forall fs | NoClickConnect(fs) ensures TunnelDown(Run(s', fs)) {
        StrandedRun(s', fs);
      }
    } else {
      forall i | 0 <= i < |s'.queue| ensures Harmless(s'.queue[i], s'.v.ladder.epoch) {
        assert !Fresh(s'.queue[i], s'.v.ladder.epoch);
      }
      forall fs | NoClickConnect(fs) ensures TunnelDown(Run(s', fs)) {
        CalmRun(s', fs);
      }
    }
  }

  const YES := Answer(true, false, Some(Xray), true, false)

  /** Let the head finish when nothing raises the tunnel: a halt takes four segments. */
  function DrainHead(b: Body): seq<Event> {
    if b.Halt? then [HeadRuns(YES), HeadRuns(YES), HeadRuns(YES), HeadRuns(YES)] else [HeadRuns(YES)]
  }

  /** The parts of a state a queued reconnect needs in order to win. */
  predicate CanApply(s: State) {
    s.v.link == NO_LINK && (s.applying > 0 || s.v.ladder.attempt == 0)
  }

  lemma RunOne(s: State, e: Event)
    ensures Run(s, [e]) == Step(s, e)
  {
    assert [e][1..] == [];
  }

  lemma RunSnoc(s: State, es: seq<Event>, e: Event)
    ensures Run(s, es + [e]) == Step(Run(s, es), e)
  {
    RunAppend(s, es, [e]);
    RunOne(Run(s, es), e);
  }

  lemma DrainOne(s: State)
    requires s.queue != [] && AtLock(s.queue[0]) && !s.queue[0].Connect?
    requires !Fresh(s.queue[0], s.v.ladder.epoch) && CanApply(s)
    ensures var s' := Run(s, DrainHead(s.queue[0]));
      s'.queue == s.queue[1..] && s'.v.ladder.epoch == s.v.ladder.epoch && CanApply(s')
  {
    var e := HeadRuns(YES);
    RunOne(s, e);
    if s.queue[0].Halt? {
      RunSnoc(s, [e], e);
      RunSnoc(s, [e, e], e);
      RunSnoc(s, [e, e, e], e);
      assert [e] + [e] == [e, e] && [e, e] + [e] == [e, e, e] && [e, e, e] + [e] == [e, e, e, e];
    }
  }

  /** A fresh reconnect at place i of an idle queue can be brought to spawn a core. */
  lemma {:induction false} FreshRises(s: State, i: nat) returns (fs: seq<Event>)
    requires i < |s.queue| && Fresh(s.queue[i], s.v.ladder.epoch) && CanApply(s)
    requires forall k :: 0 <= k < |s.queue| ==> AtLock(s.queue[k]) && !s.queue[k].Connect?
    ensures NoClickConnect(fs) && !TunnelDown(Run(s, fs))
    decreases i
  {
    if Fresh(s.queue[0], s.v.ladder.epoch) {
      var apply := ApplySession(0, None, true, false);
      var pre := if s.applying > 0 then [] else [BeginSession];
      if s.applying == 0 {
        RunOne(s, BeginSession);
      }
      RunSnoc(s, pre, apply);
      RunSnoc(s, pre + [apply], HeadRuns(YES));
      fs := pre + [apply] + [HeadRuns(YES)];
    } else {
      DrainOne(s);
      var head := DrainHead(s.queue[0]);
      var s1 := Run(s, head);
      assert s1.queue[i - 1] == s.queue[i];
      var rest := FreshRises(s1, i - 1);
      fs := head + rest;
      RunAppend(s, head, rest);
    }
  }

  lemma ArmedRises(s: State) returns (fs: seq<Event>)
    requires LadderOk(s.v.ladder) && ReconnectArmed(s) && CanApply(s)
    requires forall k :: 0 <= k < |s.queue| ==> AtLock(s.queue[k]) && !s.queue[k].Connect?
    ensures NoClickConnect(fs) && !TunnelDown(Run(s, fs))
  {
    if s.v.ladder.timer.Some? {
      var s1 := Step(s, TimerFires);
      assert Fresh(s1.queue[|s.queue|], s1.v.ladder.epoch);
      var rest := FreshRises(s1, |s.queue|);
      fs := [TimerFires] + rest;
      assert fs[1..] == rest;
    } else {
      var i :| 0 <= i < |s.queue| && Fresh(s.queue[i], s.v.ladder.epoch);
      fs := FreshRises(s, i);
    }
  }

  /** Run a few events by hand. */
  lemma RunMany(s: State, es: seq<Event>)
    ensures |es| == 1 ==> Run(s, es) == Step(s, es[0])
    ensures |es| == 2 ==> Run(s, es) == Step(Step(s, es[0]), es[1])
    ensures |es| == 3 ==> Run(s, es) == Step(Step(Step(s, es[0]), es[1]), es[2])
    decreases |es|
  {
    if |es| == 2 {
      RunMany(Step(s, es[0]), es[1..]);
    } else if |es| == 3 {
      RunMany(Step(s, es[0]), es[1..]);
    }
  }

  const H := HeadRuns(YES)

  /** Four segments of the head. */
  lemma RunHead4(s: State)
    ensures Run(s, [H, H, H, H]) == Step(Step(Step(Step(s, H), H), H), H)
  {
    RunMany(s, [H, H]);
    RunMany(Run(s, [H, H]), [H, H]);
    RunAppend(s, [H, H], [H, H]);
    assert [H, H] + [H, H] == [H, H, H, H];
  }

  /** Disconnect, connect and disconnect are clicked; the first disconnect runs to its end. */
  lemma FirstHaltRuns() returns (es: seq<Event>)
    ensures Run(INITIAL, es) == State(Vars(Ladder(2, 0, false, None), NO_SESSION, NO_LINK, UNWATCHED),
                                      [Connect(Xray, Tunnel, ConnectAtLock), Halt(HaltAtLock)], [], 2)
  {
    var begins := [BeginSession, BeginSession];
    var clicks := [ClickDisconnect, ClickConnect(Xray, Tunnel), ClickDisconnect];
    RunMany(INITIAL, begins);
    var s := Run(INITIAL, begins);
    RunMany(s, clicks);
    RunAppend(INITIAL, begins, clicks);
    s := Run(s, clicks);
    assert s.queue == [Halt(HaltAtLock), Connect(Xray, Tunnel, ConnectAtLock), Halt(HaltAtLock)];
    RunHead4(s);
    RunAppend(INITIAL, begins + clicks, [H, H, H, H]);
    es := begins + clicks + [H, H, H, H];
  }

  /** The connect spawns a core that dies; the exit callback arms a reconnect at epoch 2. */
  lemma CoreDies(s: State)
    requires s == State(Vars(Ladder(2, 0, false, None), NO_SESSION, NO_LINK, UNWATCHED),
                        [Connect(Xray, Tunnel, ConnectAtLock), Halt(HaltAtLock)], [], 2)
    ensures var s' := Run(Run(s, [ApplySession(1, None, true, true)]), [H, H, CoreExits(true, false)]);
      && s'.v.ladder == Ladder(2, 1, false, Some(2)) && s'.v.link == NO_LINK && s'.applying == 1
      && s'.queue == [Connect(Xray, Tunnel, Raising(Starting)), Halt(HaltAtLock)]
  {
    RunOne(s, ApplySession(1, None, true, true));
    RunMany(Run(s, [ApplySession(1, None, true, true)]), [H, H, CoreExits(true, false)]);
  }

  /** The connect fails and the second halt runs; its last segment leaves the timer armed. */
  lemma SecondHaltFinishes(s: State)
    requires s.v.ladder == Ladder(2, 1, false, Some(2)) && s.v.link == NO_LINK && s.applying == 1
    requires s.queue == [Connect(Xray, Tunnel, Raising(Starting)), Halt(HaltAtLock)]
    ensures var s' := Run(s, [H, H, H, H]);
      HaltFinishes(s') && NoConnect(s'.queue) && ReconnectCanWin(Step(s', H))
  {
    RunHead4(s);
  }

  /**
   The comment at ipc-handlers.ts:335-338 promises more than the code keeps. Two overlapping
   disconnects with a connect between them: the first clears the intent flag, the connect's
   core dies and arms a reconnect at the second one's epoch, and the second body does not
   clear the timer. A session that an in-flight handler then applies is brought up.
   */
  lemma OverlapLetsReconnectWin() returns (es: seq<Event>)
    ensures HaltFinishes(Run(INITIAL, es)) && NoConnect(Run(INITIAL, es).queue)
    ensures !StaysDown(Step(Run(INITIAL, es), HeadRuns(YES)))
  {
    var clicks := FirstHaltRuns();
    var apply := [ApplySession(1, None, true, true)];
    var dies := [H, H, CoreExits(true, false)];
    CoreDies(Run(INITIAL, clicks));
    RunAppend(INITIAL, clicks, apply);
    RunAppend(INITIAL, clicks + apply, dies);
    var s := Run(INITIAL, clicks + apply + dies);
    SecondHaltFinishes(s);
    RunAppend(INITIAL, clicks + apply + dies, [H, H, H, H]);
    es := clicks + apply + dies + [H, H, H, H];
    HaltDominatesIff(es, YES);
  }

  // ---- one halt at a time ----------------------------------------------------------

  predicate NoHalt(q: seq<Body>) {
    forall i :: 0 <= i < |q| ==> !q[i].Halt?
  }

  /** The user does not press Disconnect while a disconnect or stand-down is still queued. */
  ghost predicate OneHaltAtATime(s: State, es: seq<Event>)
    decreases |es|
  {
    es == [] || ((es[0].ClickDisconnect? ==> NoHalt(s.queue)) && OneHaltAtATime(Step(s, es[0]), es[1..]))
  }

  /**
   What holds when halts never overlap: the intent flag is up exactly while one is queued, and
   then no reconnect is armed or can be.
   */
  ghost predicate Disciplined(s: State) {
    && (NoHalt(s.queue) <==> !s.v.ladder.intentional)
    && (forall i, j :: 0 <= i < j < |s.queue| ==> !(s.queue[i].Halt? && s.queue[j].Halt?))
    && (s.v.ladder.intentional ==> !ReconnectArmed(s))
  }

  lemma SignalDisciplined(s: State)
    requires WellFormed(s) && Disciplined(s) && NoHalt(s.queue)
    ensures Disciplined(SignalHalt(s))
  {
    var q := SignalHalt(s).queue;
    assert q[|s.queue|].Halt?;
  }

  lemma AttemptDisciplined(s: State, autoReconnect: bool, quotaSpent: bool)
    requires WellFormed(s) && Disciplined(s)
    ensures Disciplined(AttemptReconnect(s, autoReconnect, quotaSpent))
  {
    if NoHalt(s.queue) {
      SignalDisciplined(s);
    }
  }

  lemma PopDisciplined(s: State, v: Vars)
    requires Disciplined(s) && s.queue != [] && v.ladder.epoch == s.v.ladder.epoch && v.ladder.timer == s.v.ladder.timer
    requires if s.queue[0].Halt? then !v.ladder.intentional else v.ladder.intentional == s.v.ladder.intentional
    ensures Disciplined(s.(v := v, queue := s.queue[1..]))
  {
    var q := s.queue[1..];
    assert forall i :: 0 <= i < |q| ==> q[i] == s.queue[i + 1];
    if s.queue[0].Halt? {
      assert NoHalt(q);
    } else if !NoHalt(s.queue) {
      var i :| 0 <= i < |s.queue| && s.queue[i].Halt?;
      assert q[i - 1].Halt?;
    }
  }

  lemma SetDisciplined(s: State, v: Vars, b: Body)
    requires Disciplined(s) && s.queue != [] && v.ladder.epoch == s.v.ladder.epoch && v.ladder.timer == s.v.ladder.timer
    requires v.ladder.intentional == s.v.ladder.intentional && b.Halt? == s.queue[0].Halt?
    requires b.Reconnect? ==> s.queue[0].Reconnect? && b.epoch == s.queue[0].epoch
    ensures Disciplined(s.(v := v, queue := s.queue[0 := b]))
  {
    var q := s.queue[0 := b];
    assert forall i :: 0 <= i < |q| ==> q[i].Halt? == s.queue[i].Halt?;
    if !NoHalt(s.queue) {
      var i :| 0 <= i < |s.queue| && s.queue[i].Halt?;
      assert q[i].Halt?;
    }
    assert forall i :: 0 <= i < |q| && Fresh(q[i], v.ladder.epoch) ==> Fresh(s.queue[i], v.ladder.epoch);
  }

  lemma BodyIntent(v: Vars, b: Body, a: Answer)
    requires !IsFailing(b)
    ensures var m := BodyStep(v, b, a);
      && (m.v.ladder.intentional == (v.ladder.intentional && b != Halt(HaltClearing)))
      && (m.next.None? && b.Halt? ==> b == Halt(HaltClearing))
      && (b == Halt(HaltClearing) ==> m.next.None?)
      && (m.next.Some? ==> m.next.value.Halt? == b.Halt?)
  {
  }

  lemma StepDisciplined(s: State, e: Event)
    requires WellFormed(s) && Disciplined(s)
    requires e.ClickDisconnect? ==> NoHalt(s.queue)
    ensures Disciplined(Step(s, e))
  {
    match e
    case ClickDisconnect => SignalDisciplined(s);
    case QuotaOrStall => if NoHalt(s.queue) { SignalDisciplined(s); }
    case HeadRuns(a) =>
      if s.queue != [] {
        HeadDisciplined(s, a);
      }
    case MonitorTick(_, auto, spent) => AttemptDisciplined(s, auto, spent);
    case CoreExits(auto, spent) => AttemptDisciplined(s.(v := s.v.(link := NO_LINK)), auto, spent);
    case ClickConnect(_, _) => AppendDisciplined(s, Step(s, e));
    case ToggleFirewall => AppendDisciplined(s, Step(s, e));
    case TimerFires => AppendDisciplined(s, Step(s, e));
    case _ =>
  }

  /** Queueing anything but a halt; a reconnect is queued only from an armed timer. */
  lemma AppendDisciplined(s: State, s': State)
    requires Disciplined(s) && s.queue <= s'.queue
    requires forall i :: |s.queue| <= i < |s'.queue| ==> !s'.queue[i].Halt?
    requires s'.v.ladder.intentional == s.v.ladder.intentional && s'.v.ladder.epoch == s.v.ladder.epoch
    requires s'.v.ladder.timer == s.v.ladder.timer || s.v.ladder.timer.Some?
    requires s.v.ladder.timer.None? ==> forall i :: |s.queue| <= i < |s'.queue| ==> !s'.queue[i].Reconnect?
    ensures Disciplined(s')
  {
    if !NoHalt(s.queue) {
      var i :| 0 <= i < |s.queue| && s.queue[i].Halt?;
      assert s'.queue[i].Halt?;
    }
    assert forall i :: 0 <= i < |s.queue| ==> s'.queue[i] == s.queue[i];
  }

  lemma HeadDisciplined(s: State, a: Answer)
    requires WellFormed(s) && Disciplined(s) && s.queue != []
    ensures Disciplined(HeadStep(s, a))
  {
    if IsFailing(s.queue[0]) {
      var v := s.v.(link := NO_LINK);
      PopDisciplined(s, v);
      AttemptDisciplined(s.(v := v, queue := s.queue[1..]), a.autoReconnect, a.quotaSpent);
    } else {
      BodyMoves(s.v, s.queue[0], a);
      BodyIntent(s.v, s.queue[0], a);
      var m := BodyStep(s.v, s.queue[0], a);
      if m.next.None? {
        PopDisciplined(s, m.v);
      } else {
        SetDisciplined(s, m.v, m.next.value);
      }
    }
  }

  lemma {:induction false} RunDisciplined(s: State, es: seq<Event>)
    requires WellFormed(s) && Disciplined(s) && OneHaltAtATime(s, es)
    ensures WellFormed(Run(s, es)) && Disciplined(Run(s, es))
    decreases |es|
  {
    if es != [] {
      StepKeepsWellFormed(s, es[0]);
      StepDisciplined(s, es[0]);
      RunDisciplined(Step(s, es[0]), es[1..]);
    }
  }

  lemma {:induction false} OneHaltAppend(s: State, a: seq<Event>, b: seq<Event>)
    requires OneHaltAtATime(s, a) && OneHaltAtATime(Run(s, a), b)
    ensures OneHaltAtATime(s, a + b)
    decreases |a|
  {
    if a == [] {
      assert a + b == b;
    } else {
      assert (a + b)[0] == a[0] && (a + b)[1..] == a[1..] + b;
      OneHaltAppend(Step(s, a[0]), a[1..], b);
    }
  }

  lemma {:induction false} NoClickOneHalt(s: State, es: seq<Event>)
    requires forall e :: e in es ==> !e.ClickDisconnect?
    ensures OneHaltAtATime(s, es)
    decreases |es|
  {
    if es != [] {
      assert es[0] in es;
      NoClickOneHalt(Step(s, es[0]), es[1..]);
    }
  }

  /** Three segments of the head, none of which is a click. */
  lemma ThreeSegments(s: State)
    ensures OneHaltAtATime(s, [H, H, H]) && Run(s, [H, H, H]) == Step(Step(Step(s, H), H), H)
  {
    RunMany(s, [H, H, H]);
    NoClickOneHalt(s, [H, H, H]);
  }

  /** A connect has raised the interface and waits for its settings. */
  lemma RaisesTunnel() returns (es: seq<Event>)
    ensures OneHaltAtATime(INITIAL, es)
    ensures Run(INITIAL, es)
         == INITIAL.(v := INITIAL.v.(link := Link(false, true, false)),
                     queue := [Connect(WireGuard, Tunnel, Raising(Applying))])
  {
    var click := [ClickConnect(WireGuard, Tunnel)];
    RunOne(INITIAL, click[0]);
    NoClickOneHalt(INITIAL, click);
    var s := Run(INITIAL, click);
    ThreeSegments(s);
    OneHaltAppend(INITIAL, click, [H, H, H]);
    RunAppend(INITIAL, click, [H, H, H]);
    es := click + [H, H, H];
  }

  /** Such a run: the user disconnects while a connect is raising the tunnel. */
  lemma DisconnectMidway() returns (up: seq<Event>, es: seq<Event>)
    ensures !TunnelDown(Run(INITIAL, up)) && up <= es && OneHaltAtATime(INITIAL, es)
    ensures HaltFinishes(Run(INITIAL, es)) && NoConnect(Run(INITIAL, es).queue)
  {
    up := RaisesTunnel();
    var s0, click := Run(INITIAL, up), [ClickDisconnect];
    RunOne(s0, ClickDisconnect);
    assert click[1..] == [];
    OneHaltAppend(INITIAL, up, click);
    RunAppend(INITIAL, up, click);
    es := up + click;
    var s1 := Run(INITIAL, es);
    assert s1.queue == [Connect(WireGuard, Tunnel, Raising(Applying)), Halt(HaltAtLock)];
    ThreeSegments(s1);
    OneHaltAppend(INITIAL, es, [H, H, H]);
    RunAppend(INITIAL, es, [H, H, H]);
    es := es + [H, H, H];
    var s2 := Run(INITIAL, es);
    assert s2.queue == [Halt(HaltReverting)];
    RunMany(s2, [H, H]);
    NoClickOneHalt(s2, [H, H]);
    OneHaltAppend(INITIAL, es, [H, H]);
    RunAppend(INITIAL, es, [H, H]);
    es := es + [H, H];
  }

  /**
   Disconnect dominates. If halts never overlap, then once a disconnect or stand-down body
   finishes with no connect behind it, the tunnel is down and stays down, the intent stays
   cleared, and ids and configs stay cleared until a new session is applied: whatever
   reconnects, timers, monitor ticks, give-ups and disconnects still come.
   */
  lemma DisconnectDominates(es: seq<Event>, a: Answer, fs: seq<Event>)
    requires OneHaltAtATime(INITIAL, es)
    requires HaltFinishes(Run(INITIAL, es)) && NoConnect(Run(INITIAL, es).queue)
    requires NoClickConnect(fs)
    ensures var s' := Run(INITIAL, es + [HeadRuns(a)] + fs);
      && TunnelDown(s') && s'.v.watch == UNWATCHED && s'.v.tracked.desired.None?
      && (NoNewSession(fs) ==> SessionCleared(s'.v.tracked))
  {
    RunDisciplined(INITIAL, es);
    var s := Run(INITIAL, es);
    var e := HeadRuns(a);
    assert !NoHalt(s.queue);
    RunAppend(INITIAL, es, [e]);
    assert Run(s, [e]) == Step(s, e) by { assert [e][1..] == []; }
    RunAppend(INITIAL, es + [e], fs);
    var s' := Step(s, e);
    assert s'.queue == s.queue[1..];
    forall i | 0 <= i < |s'.queue| ensures Harmless(s'.queue[i], s'.v.ladder.epoch) {
      assert s'.queue[i] == s.queue[i + 1];
      assert !Fresh(s.queue[i + 1], s.v.ladder.epoch);
    }
    CalmRun(s', fs);
  }
}
