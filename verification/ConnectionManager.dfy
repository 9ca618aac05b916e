/**
 The lifecycle in the form the source has it: variables that every handler updates in place.
 Each method is one uninterrupted stretch of JavaScript and is proved to be the matching step
 of the transition system in Lifecycle, so every theorem there speaks about this object.
 */
module ConnectionManager {
  import opened Common
  import opened Lifecycle

  class Manager {
    var connectionEpoch: nat
    var reconnectAttempt: nat
    var isIntentionalDisconnect: bool
    var reconnectTimer: Option<nat>
    var activeSessionId: Option<SessionId>
    var activeExitSessionId: Option<SessionId>
    var hasActiveConfig: bool
    var desiredProtocol: Option<Protocol>
    var desiredMode: Mode
    var monitorOn: bool
    var watchdogOn: bool
    var childAlive: bool
    var ifaceUp: bool
    var proxyOnly: bool
    var lockQueue: seq<Body>
    var teardowns: seq<TearAt>
    var handlersInFlight: nat

    function Variables(): Vars
      reads this
    {
      Vars(Ladder(connectionEpoch, reconnectAttempt, isIntentionalDisconnect, reconnectTimer),
           Tracked(activeSessionId, activeExitSessionId, hasActiveConfig, desiredProtocol, desiredMode),
           Link(childAlive, ifaceUp, proxyOnly), Watch(monitorOn, watchdogOn))
    }

    function View(): State
      reads this
    {
      State(Variables(), lockQueue, teardowns, handlersInFlight)
    }

    constructor ()
      ensures View() == INITIAL
    {
      connectionEpoch, reconnectAttempt, isIntentionalDisconnect, reconnectTimer := 0, 0, false, None;
      activeSessionId, activeExitSessionId, hasActiveConfig := None, None, false;
      desiredProtocol, desiredMode := None, Tunnel;
      monitorOn, watchdogOn := false, false;
      childAlive, ifaceUp, proxyOnly := false, false, false;
      lockQueue, teardowns, handlersInFlight := [], [], 0;
    }

    // ---- the parts of vpn-manager.ts the lifecycle calls -----------------------------

    method Disconnect()
      modifies this`childAlive, this`ifaceUp, this`proxyOnly
      ensures Variables() == old(Variables()).(link := NO_LINK)
    {
      childAlive, ifaceUp, proxyOnly := false, false, false;
    }

    method SpawnCore(p: Protocol, mode: Mode)
      modifies this`childAlive, this`proxyOnly
      ensures Variables() == Spawned(old(Variables()), p, mode)
    {
      if !IsRootTunnel(p) {
        childAlive, proxyOnly := true, mode.Proxy?;
      }
    }

    // ---- ipc-handlers.ts --------------------------------------------------------------

    method FinalizeTunnelConnect(p: Protocol, mode: Mode)
      modifies this`desiredProtocol, this`desiredMode, this`monitorOn, this`watchdogOn
      ensures Variables() == Finalized(old(Variables()), p, mode)
    {
      desiredProtocol := Some(p);
      desiredMode := mode;
      if mode != Proxy {
        monitorOn := true;
      }
      watchdogOn := true;
    }

    /** Up to and including withConnectionLock. */
    method PerformDisconnect()
      modifies this
      ensures View() == SignalHalt(old(View()))
    {
      isIntentionalDisconnect := true;
      connectionEpoch := connectionEpoch + 1;
      reconnectTimer := None;
      reconnectAttempt := 0;
      lockQueue := lockQueue + [Halt(HaltAtLock)];
    }

    /** Its part before the lock is that of a disconnect. */
    method StandDownSession()
      modifies this
      ensures View() == if old(activeSessionId).Some? then SignalHalt(old(View())) else old(View())
    {
      if activeSessionId.None? {
        return;
      }
      isIntentionalDisconnect := true;
      connectionEpoch := connectionEpoch + 1;
      reconnectTimer := None;
      reconnectAttempt := 0;
      lockQueue := lockQueue + [Halt(HaltAtLock)];
    }

    /** A tick of the quota watchdog, or an answer to its handshake probe: `spent` is the verdict. */
    method WatchdogTicks(spent: bool)
      modifies this
      ensures View() == if spent then Step(old(View()), QuotaOrStall) else old(View())
    {
      if isIntentionalDisconnect || reconnectAttempt > 0 || activeSessionId.None? {
        return;
      }
      if spent {
        StandDownSession();
      }
    }

    method TryReconnect(autoReconnect: bool, quotaSpent: bool)
      modifies this
      ensures View() == AttemptReconnect(old(View()), autoReconnect, quotaSpent)
    {
      var decision := DecideReconnect(reconnectAttempt, autoReconnect, isIntentionalDisconnect, activeSessionId.Some?);
      match decision
      case NoSession => return;
      case Intentional => return;
      case AutoReconnectOff => StandDownSession();
      case GiveUp =>
        if quotaSpent {
          StandDownSession();
        } else {
          reconnectAttempt := 0;
          teardowns := teardowns + [Reverting];
        }
      case Retry(n) =>
        reconnectAttempt := n;
        reconnectTimer := Some(connectionEpoch);
    }

    method ReconnectTimerFires()
      modifies this
      ensures View() == Step(old(View()), TimerFires)
    {
      if reconnectTimer.Some? {
        lockQueue := lockQueue + [Reconnect(reconnectTimer.value, ReconnectAtLock)];
        reconnectTimer := None;
      }
    }

    method MonitorTicks(routeChanged: bool, autoReconnect: bool, quotaSpent: bool)
      modifies this
      ensures View() == Step(old(View()), MonitorTick(routeChanged, autoReconnect, quotaSpent))
    {
      if !monitorOn || isIntentionalDisconnect || reconnectAttempt > 0 {
        return;
      }
      if activeSessionId.None? || desiredProtocol.None? {
        return;
      }
      if IsRootTunnel(desiredProtocol.value) {
        if !ifaceUp {
          TryReconnect(autoReconnect, quotaSpent);
        }
        return;
      }
      if desiredMode == Tunnel && ifaceUp && routeChanged {
        TryReconnect(autoReconnect, quotaSpent);
      }
    }

    /** spawnV2Ray's exit handler with the callback ipc-handlers.ts registered. */
    method ChildExits(autoReconnect: bool, quotaSpent: bool)
      modifies this
      ensures View() == Step(old(View()), CoreExits(autoReconnect, quotaSpent))
    {
      if !childAlive {
        return;
      }
      Disconnect();
      if !isIntentionalDisconnect && activeSessionId.Some? {
        TryReconnect(autoReconnect, quotaSpent);
      }
    }

    /** The start of a bring-up: a root tunnel is up or not, a core is there or not. */
    method StartSegment(p: Protocol, mode: Mode, a: Answer) returns (next: Option<Body>)
      modifies this
      ensures Moved(Variables(), next) == ConnectStep(old(Variables()), p, mode, Raising(Starting), a)
      ensures lockQueue == old(lockQueue) && teardowns == old(teardowns) && handlersInFlight == old(handlersInFlight)
    {
      next := None;
      if IsRootTunnel(p) {
        ifaceUp := a.ok || a.leftover;
        if a.ok {
          next := Some(Connect(p, mode, Raising(Applying)));
        }
      } else if childAlive {
        if mode == Proxy {
          FinalizeTunnelConnect(p, mode);
        } else {
          next := Some(Connect(p, mode, Raising(RaisingTun)));
        }
      }
    }

    /** CONNECTION_CONNECT inside the lock, from one await to the next. */
    method ConnectSegment(p: Protocol, mode: Mode, at: ConnectAt, a: Answer) returns (next: Option<Body>)
      modifies this
      ensures Moved(Variables(), next) == ConnectStep(old(Variables()), p, mode, at, a)
      ensures lockQueue == old(lockQueue) && teardowns == old(teardowns) && handlersInFlight == old(handlersInFlight)
    {
      next := None;
      match at
      case ConnectAtLock =>
        if reconnectAttempt == 0 && !Connected(Link(childAlive, ifaceUp, proxyOnly)) {
          next := Some(Connect(p, mode, Preparing));
        }
      case Preparing =>
        if a.ok {
          SpawnCore(p, mode);
          next := Some(Connect(p, mode, Raising(Starting)));
        }
      case Raising(Starting) =>
        next := StartSegment(p, mode, a);
      case Raising(RaisingTun) =>
        if a.ok {
          ifaceUp := true;
          next := Some(Connect(p, mode, Raising(Applying)));
        } else {
          next := Some(Connect(p, mode, Undoing));
        }
      case Raising(Applying) =>
        next := Some(Connect(p, mode, Raising(Probing)));
      case Raising(Probing) =>
        if a.ok {
          FinalizeTunnelConnect(p, mode);
        } else {
          next := Some(Connect(p, mode, Undoing));
        }
      case Undoing =>
        Disconnect();
    }

    /** The epoch check after a reconnect's bring-up, and what follows it. */
    method AfterRaise(e: nat, p: Protocol) returns (next: Option<Body>)
      modifies this
      ensures Moved(Variables(), next) == RaisedAgain(old(Variables()), e, p)
      ensures lockQueue == old(lockQueue) && teardowns == old(teardowns) && handlersInFlight == old(handlersInFlight)
    {
      next := None;
      if connectionEpoch != e {
        reconnectAttempt := 0;
        next := Some(Reconnect(e, Idling(Reverting)));
      } else if desiredMode != Proxy {
        next := Some(Reconnect(e, Reraising(p, Applying)));
      } else {
        reconnectAttempt := 0;
        FinalizeTunnelConnect(p, desiredMode);
      }
    }

    /** The reconnect timer's body inside the lock; its catch is in HeadSegment. */
    method ReconnectSegment(e: nat, at: ReconnectAt, a: Answer) returns (next: Option<Body>)
      requires !at.Failing?
      modifies this
      ensures Moved(Variables(), next) == ReconnectStep(old(Variables()), e, at, a)
      ensures lockQueue == old(lockQueue) && teardowns == old(teardowns) && handlersInFlight == old(handlersInFlight)
    {
      next := None;
      match at
      case ReconnectAtLock =>
        if connectionEpoch == e && activeSessionId.Some? {
          if a.saved.None? {
            reconnectAttempt := 0;
            next := Some(Reconnect(e, Idling(Reverting)));
          } else {
            SpawnCore(a.saved.value, desiredMode);
            next := Some(Reconnect(e, Reraising(a.saved.value, Starting)));
          }
        }
      case Reraising(p, Starting) =>
        if IsRootTunnel(p) {
          ifaceUp := a.ok || a.leftover;
          if a.ok {
            next := AfterRaise(e, p);
          } else {
            next := Some(Reconnect(e, Failing));
          }
        } else if !childAlive {
          next := Some(Reconnect(e, Failing));
        } else if desiredMode == Proxy {
          next := AfterRaise(e, p);
        } else {
          next := Some(Reconnect(e, Reraising(p, RaisingTun)));
        }
      case Reraising(p, RaisingTun) =>
        if a.ok {
          ifaceUp := true;
          next := AfterRaise(e, p);
        } else {
          next := Some(Reconnect(e, Failing));
        }
      case Reraising(p, Applying) =>
        next := Some(Reconnect(e, Reraising(p, Probing)));
      case Reraising(p, Probing) =>
        if a.ok {
          reconnectAttempt := 0;
          FinalizeTunnelConnect(p, desiredMode);
        } else {
          next := Some(Reconnect(e, Failing));
        }
      case Idling(Reverting) =>
        next := Some(Reconnect(e, Idling(Dropping)));
      case Idling(Dropping) =>
        Disconnect();
        next := Some(Reconnect(e, Idling(Settling)));
      case Idling(Settling) =>
        SettleIdle();
    }

    /** The end of teardownToIdle. */
    method SettleIdle()
      modifies this`monitorOn, this`watchdogOn, this`desiredProtocol
      ensures Variables() == Idled(old(Variables()))
    {
      monitorOn, watchdogOn := false, false;
      desiredProtocol := None;
    }

    /** performDisconnect's body inside the lock. */
    method HaltSegment(at: HaltAt) returns (next: Option<Body>)
      modifies this
      ensures Moved(Variables(), next) == HaltStep(old(Variables()), at)
      ensures lockQueue == old(lockQueue) && teardowns == old(teardowns) && handlersInFlight == old(handlersInFlight)
    {
      next := None;
      match at
      case HaltAtLock =>
        monitorOn, watchdogOn := false, false;
        next := Some(Halt(HaltReverting));
      case HaltReverting =>
        next := Some(Halt(HaltDropping));
      case HaltDropping =>
        Disconnect();
        next := Some(Halt(HaltClearing));
      case HaltClearing =>
        hasActiveConfig := false;
        desiredProtocol, desiredMode := None, Tunnel;
        activeSessionId, activeExitSessionId := None, None;
        isIntentionalDisconnect := false;
    }

    /** The body holding the lock runs to its next await; the lock passes on when it ends. */
    method HeadSegment(a: Answer)
      modifies this
      ensures View() == Step(old(View()), HeadRuns(a))
    {
      if lockQueue == [] {
        return;
      }
      if IsFailing(lockQueue[0]) {
        Disconnect();
        lockQueue := lockQueue[1..];
        TryReconnect(a.autoReconnect, a.quotaSpent);
        return;
      }
      var head, next: Option<Body> := lockQueue[0], None;
      match head {
        case Connect(p, mode, at) => next := ConnectSegment(p, mode, at, a);
        case Reconnect(e, at) => next := ReconnectSegment(e, at, a);
        case Halt(at) => next := HaltSegment(at);
        case Firewall =>
      }
      if next.None? {
        lockQueue := lockQueue[1..];
      } else {
        lockQueue := lockQueue[0 := next.value];
      }
    }

    /** A give-up's teardownToIdle, which runs beside the lock. */
    method TeardownSegment(i: nat)
      modifies this
      ensures View() == Step(old(View()), TeardownRuns(i))
    {
      if i >= |teardowns| {
        return;
      }
      match teardowns[i]
      case Reverting =>
        teardowns := teardowns[i := Dropping];
      case Dropping =>
        Disconnect();
        teardowns := teardowns[i := Settling];
      case Settling =>
        SettleIdle();
        teardowns := teardowns[..i] + teardowns[i + 1..];
    }

    // ---- handlers that only queue, or only touch the session ------------------------

    method ClickConnect(p: Protocol, mode: Mode)
      modifies this`lockQueue
      ensures View() == Step(old(View()), Event.ClickConnect(p, mode))
    {
      if mode != Proxy || !IsRootTunnel(p) {
        lockQueue := lockQueue + [Connect(p, mode, ConnectAtLock)];
      }
    }

    method ToggleFirewall()
      modifies this`lockQueue
      ensures View() == Step(old(View()), Event.ToggleFirewall)
    {
      lockQueue := lockQueue + [Firewall];
    }

    /** assertNotConnected at the head of a purchase or of a reconnect from the list. */
    method BeginSession()
      modifies this`handlersInFlight
      ensures View() == Step(old(View()), Event.BeginSession)
    {
      if reconnectAttempt == 0 && !Connected(Link(childAlive, ifaceUp, proxyOnly)) {
        handlersInFlight := handlersInFlight + 1;
      }
    }

    /** applySession and its kind; `last` is the end of the handler. */
    method ApplySession(id: SessionId, exit: Option<SessionId>, config: bool, last: bool)
      modifies this
      ensures View() == Step(old(View()), Event.ApplySession(id, exit, config, last))
    {
      if handlersInFlight == 0 {
        return;
      }
      activeSessionId := Some(id);
      if exit.Some? {
        activeExitSessionId := exit;
      }
      hasActiveConfig := hasActiveConfig || config;
      if last {
        handlersInFlight := handlersInFlight - 1;
      }
    }

    method AbandonSession()
      modifies this`handlersInFlight
      ensures View() == Step(old(View()), Event.AbandonSession)
    {
      if handlersInFlight > 0 {
        handlersInFlight := handlersInFlight - 1;
      }
    }

    method InterfaceLost()
      modifies this`ifaceUp
      ensures View() == Step(old(View()), Event.InterfaceLost)
    {
      ifaceUp := false;
    }

    // ---- the event loop --------------------------------------------------------------

    ghost predicate Valid()
      reads this
    {
      WellFormed(View())
    }

    /** One event to the handler it belongs to. */
    method Handle(e: Event)
      modifies this
      ensures View() == Step(old(View()), e)
    {
      match e
      case ClickConnect(p, mode) => ClickConnect(p, mode);
      case ClickDisconnect => PerformDisconnect();
      case QuotaOrStall => WatchdogTicks(true);
      case ToggleFirewall => ToggleFirewall();
      case BeginSession => BeginSession();
      case ApplySession(id, exit, config, last) => ApplySession(id, exit, config, last);
      case AbandonSession => AbandonSession();
      case TimerFires => ReconnectTimerFires();
      case MonitorTick(changed, auto, spent) => MonitorTicks(changed, auto, spent);
      case CoreExits(auto, spent) => ChildExits(auto, spent);
      case InterfaceLost => InterfaceLost();
      case HeadRuns(a) => HeadSegment(a);
      case TeardownRuns(i) => TeardownSegment(i);
    }

    /** Any run of events keeps the lock discipline, and ends where the transition system does. */
    method Drive(es: seq<Event>)
      requires Valid()
      modifies this
      ensures Valid() && View() == Run(old(View()), es)
    {
      ghost var start := View();
      for i := 0 to |es|
        invariant Valid() && Run(start, es) == Run(View(), es[i..])
      {
        assert es[i..][0] == es[i] && es[i..][1..] == es[i + 1..];
        StepKeepsWellFormed(View(), es[i]);
        Handle(es[i]);
      }
    }

    /**
     Disconnect dominates, in the variables themselves: after any run from the start in which halts
     do not overlap, once the last segment of a disconnect or stand-down has run with no connect
     behind it, no core and no interface of ours is left up by anything that follows, short of a
     click on connect.
     */
    method DriveThroughHalt(es: seq<Event>, a: Answer, fs: seq<Event>)
      requires View() == INITIAL && OneHaltAtATime(INITIAL, es)
      requires HaltFinishes(Run(INITIAL, es)) && NoConnect(Run(INITIAL, es).queue) && NoClickConnect(fs)
      modifies this
      ensures Valid() && !childAlive && !ifaceUp && !monitorOn && !watchdogOn && desiredProtocol.None?
      ensures NoNewSession(fs) ==> activeSessionId.None? && activeExitSessionId.None? && !hasActiveConfig
    {
      DisconnectDominates(es, a, fs);
      Drive(es + [HeadRuns(a)] + fs);
    }
  }
}
