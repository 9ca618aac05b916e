/**
 What each operation of the lifecycle comes to when nothing disturbs it: its events run to the end
 of its body, and the state it ends in is described by what was asked for and what was answered.
 */
module LifecycleOutcomes {
  import opened Common
  import opened Lifecycle

  /** The head of the queue runs, answered one segment after another. */
  function Heads(answers: seq<Answer>): (es: seq<Event>)
    ensures |es| == |answers| && forall i :: 0 <= i < |es| ==> es[i] == HeadRuns(answers[i])
  {
    seq(|answers|, i requires 0 <= i < |answers| => HeadRuns(answers[i]))
  }

  /** An event, and the body behind it undisturbed. */
  function After(s: State, e: Event, answers: seq<Answer>): State {
    Run(s, [e] + Heads(answers))
  }

  lemma AfterIs(s: State, e: Event, answers: seq<Answer>)
    ensures After(s, e, answers) == Run(Step(s, e), Heads(answers))
  {
    assert ([e] + Heads(answers))[1..] == Heads(answers);
  }

  lemma HeadThen(s: State, answers: seq<Answer>)
    requires answers != []
    ensures Run(s, Heads(answers)) == Run(Step(s, HeadRuns(answers[0])), Heads(answers[1..]))
  {
    assert Heads(answers)[1..] == Heads(answers[1..]);
  }

  lemma {:induction false} IdleHeads(s: State, answers: seq<Answer>)
    requires s.queue == []
    ensures Run(s, Heads(answers)) == s
    decreases |answers|
  {
    if answers != [] {
      HeadThen(s, answers);
      IdleHeads(s, answers[1..]);
    }
  }

  /** A head that ends its body, with nothing behind it. */
  lemma LastHead(s: State, answers: seq<Answer>, s': State)
    requires answers != [] && s' == Step(s, HeadRuns(answers[0])) && s'.queue == []
    ensures Run(s, Heads(answers)) == s'
  {
    HeadThen(s, answers);
    IdleHeads(s', answers[1..]);
  }

  // ---- connect ---------------------------------------------------------------------

  /** A protocol is up and looked after: intent, mode and watches. */
  function Live(v: Vars, link: Link, p: Protocol, mode: Mode): Vars {
    v.(tracked := v.tracked.(desired := Some(p), mode := mode), link := link,
       watch := Watch(v.watch.monitor || mode.Tunnel?, true))
  }

  /** What runs when it is up: the interface, a core with its TUN, or a core alone. */
  function UpLink(link: Link, p: Protocol, mode: Mode): Link {
    if IsRootTunnel(p) then link.(iface := true)
    else if mode.Tunnel? then Link(true, true, false)
    else Link(true, link.iface, true)
  }

  lemma FromProbing(s: State, p: Protocol, mode: Mode, answers: seq<Answer>)
    requires s.queue == [Connect(p, mode, Raising(Probing))] && |answers| >= 2
    ensures Run(s, Heads(answers))
         == s.(queue := [], v := if answers[0].ok then Live(s.v, s.v.link, p, mode) else s.v.(link := NO_LINK))
  {
    var s1 := Step(s, HeadRuns(answers[0]));
    HeadThen(s, answers);
    if answers[0].ok {
      IdleHeads(s1, answers[1..]);
    } else {
      LastHead(s1, answers[1..], s1.(queue := [], v := s1.v.(link := NO_LINK)));
    }
  }

  lemma FromApplying(s: State, p: Protocol, mode: Mode, answers: seq<Answer>)
    requires s.queue == [Connect(p, mode, Raising(Applying))] && |answers| >= 3
    ensures Run(s, Heads(answers))
         == s.(queue := [], v := if answers[1].ok then Live(s.v, s.v.link, p, mode) else s.v.(link := NO_LINK))
  {
    HeadThen(s, answers);
    FromProbing(s.(queue := [Connect(p, mode, Raising(Probing))]), p, mode, answers[1..]);
  }

  /** The bring-up of a root tunnel. */
  lemma FromRootStart(s: State, p: Protocol, mode: Mode, answers: seq<Answer>)
    requires s.queue == [Connect(p, mode, Raising(Starting))] && |answers| >= 4 && IsRootTunnel(p)
    ensures Run(s, Heads(answers))
         == s.(queue := [],
               v := if !answers[0].ok then s.v.(link := s.v.link.(iface := answers[0].leftover))
                    else if !answers[2].ok then s.v.(link := NO_LINK)
                    else Live(s.v, UpLink(s.v.link, p, mode), p, mode))
  {
    var s1 := Step(s, HeadRuns(answers[0]));
    HeadThen(s, answers);
    if answers[0].ok {
      FromApplying(s1, p, mode, answers[1..]);
    } else {
      IdleHeads(s1, answers[1..]);
    }
  }

  lemma FromRaisingTun(s: State, p: Protocol, mode: Mode, answers: seq<Answer>)
    requires s.queue == [Connect(p, mode, Raising(RaisingTun))] && |answers| >= 4
    ensures Run(s, Heads(answers))
         == s.(queue := [],
               v := if !answers[0].ok || !answers[2].ok then s.v.(link := NO_LINK)
                    else Live(s.v, s.v.link.(iface := true), p, mode))
  {
    var s1 := Step(s, HeadRuns(answers[0]));
    HeadThen(s, answers);
    if answers[0].ok {
      FromApplying(s1, p, mode, answers[1..]);
    } else {
      LastHead(s1, answers[1..], s1.(queue := [], v := s1.v.(link := NO_LINK)));
    }
  }

  /** The bring-up of a core that has just been spawned. */
  lemma FromChildStart(s: State, p: Protocol, mode: Mode, answers: seq<Answer>)
    requires s.queue == [Connect(p, mode, Raising(Starting))] && |answers| >= 5 && !IsRootTunnel(p)
    requires s.v.link.core && s.v.link.proxyOnly == mode.Proxy?
    ensures Run(s, Heads(answers))
         == s.(queue := [],
               v := if mode.Tunnel? && (!answers[1].ok || !answers[3].ok) then s.v.(link := NO_LINK)
                    else Live(s.v, UpLink(s.v.link, p, mode), p, mode))
  {
    var s1 := Step(s, HeadRuns(answers[0]));
    HeadThen(s, answers);
    if mode.Tunnel? {
      FromRaisingTun(s1, p, mode, answers[1..]);
    } else {
      IdleHeads(s1, answers[1..]);
    }
  }

  /** Nothing queued, no attempt under way, and nothing connected. */
  predicate Idle(s: State) {
    s.queue == [] && s.v.ladder.attempt == 0 && !Connected(s.v.link)
  }

  /** The segments of a connect that ask something: is the system ready, is the tunnel up, does it carry traffic. */
  function ConnectAsks(p: Protocol, mode: Mode): set<nat> {
    if IsRootTunnel(p) then {1, 2, 4} else if mode.Tunnel? then {1, 3, 5} else {1}
  }

  predicate AllYes(asks: set<nat>, answers: seq<Answer>) {
    forall i :: i in asks && i < |answers| ==> answers[i].ok
  }

  /** What a connect leaves running that was refused at its first no. */
  function LeftBehind(link: Link, p: Protocol, answers: seq<Answer>): Link
    requires |answers| >= 3
  {
    if !answers[1].ok then link
    else if IsRootTunnel(p) && !answers[2].ok then link.(iface := answers[2].leftover)
    else NO_LINK
  }

  /**
   A connect that is clicked when nothing runs. If every stage says yes, the protocol is up in the mode
   that was asked for and looked after; at the first no, intent, session and watches are as before,
   and nothing is left running that the failed stage did not leave.
   */
  lemma ConnectOutcome(s: State, p: Protocol, mode: Mode, answers: seq<Answer>)
    requires Idle(s) && |answers| == 7 && (mode.Proxy? ==> !IsRootTunnel(p))
    ensures After(s, ClickConnect(p, mode), answers)
         == s.(v := if AllYes(ConnectAsks(p, mode), answers) then Live(s.v, UpLink(s.v.link, p, mode), p, mode)
                    else s.v.(link := LeftBehind(s.v.link, p, answers)))
  {
    AfterIs(s, ClickConnect(p, mode), answers);
    var s1 := Step(s, ClickConnect(p, mode));
    HeadThen(s1, answers);
    var s2 := Step(s1, HeadRuns(answers[0]));
    HeadThen(s2, answers[1..]);
    var s3 := Step(s2, HeadRuns(answers[1]));
    assert answers[1..][1..] == answers[2..];
    if !answers[1].ok {
      assert 1 in ConnectAsks(p, mode);
      IdleHeads(s3, answers[2..]);
    } else if IsRootTunnel(p) {
      FromRootStart(s3, p, mode, answers[2..]);
    } else {
      FromChildStart(s3, p, mode, answers[2..]);
    }
  }

  /** Connected as asked exactly when every stage said yes. */
  lemma ConnectSucceedsIff(s: State, p: Protocol, mode: Mode, answers: seq<Answer>)
    requires Idle(s) && |answers| == 7 && (mode.Proxy? ==> !IsRootTunnel(p)) && s.v.tracked.desired != Some(p)
    ensures var s' := After(s, ClickConnect(p, mode), answers);
      && (s'.v.tracked.desired == Some(p) && s'.v.tracked.mode == mode && Connected(s'.v.link) && s'.v.watch.watchdog
          <==> AllYes(ConnectAsks(p, mode), answers))
      && (s'.v.tracked.desired == Some(p) ==> (s'.v.watch.monitor <==> s.v.watch.monitor || mode.Tunnel?))
  {
    ConnectOutcome(s, p, mode, answers);
  }

  /** The probe alone said no: the link is down, intent and watches are as before. */
  lemma ProbeRefuses(s: State, p: Protocol, mode: Mode, answers: seq<Answer>)
    requires Idle(s) && |answers| == 7 && mode.Tunnel?
    requires var at := if IsRootTunnel(p) then 4 else 5;
      !answers[at].ok && forall i :: 0 <= i < at ==> answers[i].ok
    ensures var s' := After(s, ClickConnect(p, mode), answers);
      s'.v.link == NO_LINK && s'.v.tracked == s.v.tracked && s'.v.watch == s.v.watch && s'.v.ladder == s.v.ladder
  {
    assert (if IsRootTunnel(p) then 4 else 5) in ConnectAsks(p, mode);
    ConnectOutcome(s, p, mode, answers);
  }

  /** A click that comes under a live connection or a reconnect changes nothing. */
  lemma ConnectRefused(s: State, p: Protocol, mode: Mode, answers: seq<Answer>)
    requires s.queue == [] && |answers| >= 1
    requires s.v.ladder.attempt > 0 || Connected(s.v.link) || (mode.Proxy? && IsRootTunnel(p))
    ensures After(s, ClickConnect(p, mode), answers) == s
  {
    AfterIs(s, ClickConnect(p, mode), answers);
    if mode.Proxy? && IsRootTunnel(p) {
      IdleHeads(s, answers);
    } else {
      LastHead(Step(s, ClickConnect(p, mode)), answers, s);
    }
  }

  // ---- disconnect and stand-down ---------------------------------------------------

  lemma HaltRuns(s: State, answers: seq<Answer>)
    requires s.queue == [Halt(HaltAtLock)] && |answers| == 4
    ensures Run(s, Heads(answers))
         == s.(queue := [], v := Vars(s.v.ladder.(intentional := false), NO_SESSION, NO_LINK, UNWATCHED))
  {
    var s1 := Step(s, HeadRuns(answers[0]));
    var s2 := Step(s1, HeadRuns(answers[1]));
    var s3 := Step(s2, HeadRuns(answers[2]));
    HeadThen(s, answers);
    HeadThen(s1, answers[1..]);
    assert answers[1..][1..] == answers[2..];
    HeadThen(s2, answers[2..]);
    assert answers[2..][1..] == answers[3..];
    LastHead(s3, answers[3..], Step(s3, HeadRuns(answers[3])));
  }

  /** A disconnect from any state with nothing queued: everything is off, and older reconnects are stale. */
  lemma DisconnectOutcome(s: State, answers: seq<Answer>)
    requires s.queue == [] && |answers| == 4
    ensures After(s, ClickDisconnect, answers)
         == s.(v := Vars(Ladder(s.v.ladder.epoch + 1, 0, false, None), NO_SESSION, NO_LINK, UNWATCHED))
  {
    AfterIs(s, ClickDisconnect, answers);
    HaltRuns(Step(s, ClickDisconnect), answers);
  }

  /** A quota that is spent, or a tunnel that stalls: the same, exactly while a session is connected in peace. */
  lemma StandDownOutcome(s: State, answers: seq<Answer>)
    requires s.queue == [] && |answers| == 4
    ensures After(s, QuotaOrStall, answers)
         == if s.v.tracked.session.Some? && !s.v.ladder.intentional && s.v.ladder.attempt == 0
            then After(s, ClickDisconnect, answers) else s
  {
    AfterIs(s, QuotaOrStall, answers);
    AfterIs(s, ClickDisconnect, answers);
    if Step(s, QuotaOrStall) == s {
      IdleHeads(s, answers);
    }
  }

  // ---- losing the tunnel -----------------------------------------------------------

  /** A first reconnect is armed, five attempts at most. */
  function Armed(s: State): State {
    s.(v := s.v.(ladder := s.v.ladder.(attempt := s.v.ladder.attempt + 1, timer := Some(s.v.ladder.epoch))))
  }

  /** Tunnel mode is meant to be up under this protocol, and it is not. */
  predicate Lost(v: Vars, routeChanged: bool) {
    match v.tracked.desired
    case None => false
    case Some(p) => if IsRootTunnel(p) then !v.link.iface else v.tracked.mode.Tunnel? && v.link.iface && routeChanged
  }

  /** The liveness monitor acts exactly when it is on, a session is connected in peace, and the tunnel is lost. */
  lemma MonitorOutcome(s: State, routeChanged: bool, quotaSpent: bool)
    ensures Step(s, MonitorTick(routeChanged, true, quotaSpent))
         == if s.v.watch.monitor && s.v.tracked.session.Some? && !s.v.ladder.intentional && s.v.ladder.attempt == 0
               && Lost(s.v, routeChanged)
            then Armed(s) else s
  {
  }

  /** A core that exits takes the link along; the fault is answered exactly when a session is wanted. */
  lemma CoreExitOutcome(s: State)
    requires s.v.link.core && s.v.ladder.attempt < 5
    ensures var gone := s.(v := s.v.(link := NO_LINK));
      Step(s, CoreExits(true, false))
      == if s.v.tracked.session.Some? && !s.v.ladder.intentional then Armed(gone) else gone
  {
  }

  /** With automatic reconnects off, a lost tunnel is stood down as by a disconnect. */
  lemma WithoutAutoReconnect(s: State, quotaSpent: bool)
    requires s.v.link.core && s.v.tracked.session.Some? && !s.v.ladder.intentional
    ensures var gone := s.(v := s.v.(link := NO_LINK));
      Step(s, CoreExits(false, quotaSpent)) == Step(gone, ClickDisconnect)
  {
  }

  /** So is one whose attempts are used up when the quota is what ended it. */
  lemma GiveUpByQuota(s: State)
    requires s.v.link.core && s.v.tracked.session.Some? && !s.v.ladder.intentional && s.v.ladder.attempt >= 5
    ensures var gone := s.(v := s.v.(link := NO_LINK));
      Step(s, CoreExits(true, true)) == Step(gone, ClickDisconnect)
  {
  }

  // ---- reconnect -------------------------------------------------------------------

  function ReconnectAsks(p: Protocol, mode: Mode): set<nat> {
    if IsRootTunnel(p) then (if mode.Tunnel? then {1, 3} else {1})
    else if mode.Tunnel? then {2, 4} else {}
  }

  /** An armed timer of the current lifecycle, with a session to come back to. */
  predicate Waiting(s: State) {
    && s.queue == [] && s.v.ladder.timer == Some(s.v.ladder.epoch) && s.v.tracked.session.Some?
    && !s.v.ladder.intentional
  }

  /** Reconnects are wanted, and the quota is not what ended the tunnel. */
  predicate Willing(answers: seq<Answer>) {
    forall i :: 0 <= i < |answers| ==> answers[i].autoReconnect && !answers[i].quotaSpent
  }

  /** A failed attempt: the next one is armed, or after the fifth the ladder gives up. */
  function FailedAttempt(s: State): State {
    var down := s.(queue := [], v := s.v.(link := NO_LINK));
    if s.v.ladder.attempt < 5 then Armed(down)
    else down.(v := down.v.(ladder := down.v.ladder.(attempt := 0)), teardowns := down.teardowns + [Reverting])
  }

  /** The attempt count is cleared by success. */
  function Restored(s: State, p: Protocol): State {
    var v := Live(s.v, s.v.link, p, s.v.tracked.mode);
    s.(queue := [], v := v.(ladder := v.ladder.(attempt := 0)))
  }

  lemma FromFailing(s: State, answers: seq<Answer>)
    requires s.queue == [Reconnect(s.v.ladder.epoch, Failing)] && answers != [] && Willing(answers)
    requires s.v.tracked.session.Some? && !s.v.ladder.intentional
    ensures Run(s, Heads(answers)) == FailedAttempt(s)
  {
    assert answers[0].autoReconnect && !answers[0].quotaSpent;
    LastHead(s, answers, FailedAttempt(s));
  }

  lemma WillingTail(answers: seq<Answer>)
    requires Willing(answers) && answers != []
    ensures Willing(answers[1..])
  {
  }

  lemma AgainProbing(s: State, p: Protocol, answers: seq<Answer>)
    requires s.queue == [Reconnect(s.v.ladder.epoch, Reraising(p, Probing))] && |answers| >= 2 && Willing(answers)
    requires s.v.tracked.session.Some? && !s.v.ladder.intentional
    ensures Run(s, Heads(answers)) == if answers[0].ok then Restored(s, p) else FailedAttempt(s)
  {
    var s1 := Step(s, HeadRuns(answers[0]));
    HeadThen(s, answers);
    WillingTail(answers);
    if answers[0].ok {
      IdleHeads(s1, answers[1..]);
    } else {
      FromFailing(s1, answers[1..]);
    }
  }

  lemma AgainApplying(s: State, p: Protocol, answers: seq<Answer>)
    requires s.queue == [Reconnect(s.v.ladder.epoch, Reraising(p, Applying))] && |answers| >= 3 && Willing(answers)
    requires s.v.tracked.session.Some? && !s.v.ladder.intentional
    ensures Run(s, Heads(answers)) == if answers[1].ok then Restored(s, p) else FailedAttempt(s)
  {
    HeadThen(s, answers);
    WillingTail(answers);
    AgainProbing(Step(s, HeadRuns(answers[0])), p, answers[1..]);
  }

  lemma AgainRootStart(s: State, p: Protocol, answers: seq<Answer>)
    requires s.queue == [Reconnect(s.v.ladder.epoch, Reraising(p, Starting))] && |answers| >= 4 && Willing(answers)
    requires s.v.tracked.session.Some? && !s.v.ladder.intentional && IsRootTunnel(p)
    ensures Run(s, Heads(answers))
         == if answers[0].ok && (s.v.tracked.mode.Tunnel? ==> answers[2].ok)
            then Restored(s.(v := s.v.(link := s.v.link.(iface := true))), p) else FailedAttempt(s)
  {
    var s1 := Step(s, HeadRuns(answers[0]));
    HeadThen(s, answers);
    WillingTail(answers);
    if !answers[0].ok {
      FromFailing(s1, answers[1..]);
    } else if s.v.tracked.mode.Tunnel? {
      AgainApplying(s1, p, answers[1..]);
    } else {
      IdleHeads(s1, answers[1..]);
    }
  }

  lemma AgainRaisingTun(s: State, p: Protocol, answers: seq<Answer>)
    requires s.queue == [Reconnect(s.v.ladder.epoch, Reraising(p, RaisingTun))] && |answers| >= 4 && Willing(answers)
    requires s.v.tracked.session.Some? && !s.v.ladder.intentional && s.v.tracked.mode.Tunnel?
    ensures Run(s, Heads(answers))
         == if answers[0].ok && answers[2].ok then Restored(s.(v := s.v.(link := s.v.link.(iface := true))), p)
            else FailedAttempt(s)
  {
    var s1 := Step(s, HeadRuns(answers[0]));
    HeadThen(s, answers);
    WillingTail(answers);
    if !answers[0].ok {
      FromFailing(s1, answers[1..]);
    } else {
      AgainApplying(s1, p, answers[1..]);
    }
  }

  lemma AgainChildStart(s: State, p: Protocol, answers: seq<Answer>)
    requires s.queue == [Reconnect(s.v.ladder.epoch, Reraising(p, Starting))] && |answers| >= 5 && Willing(answers)
    requires s.v.tracked.session.Some? && !s.v.ladder.intentional && !IsRootTunnel(p)
    requires s.v.link.core && s.v.link.proxyOnly == s.v.tracked.mode.Proxy?
    ensures Run(s, Heads(answers))
         == if s.v.tracked.mode.Proxy? then Restored(s, p)
            else if answers[1].ok && answers[3].ok then Restored(s.(v := s.v.(link := s.v.link.(iface := true))), p)
            else FailedAttempt(s)
  {
    var s1 := Step(s, HeadRuns(answers[0]));
    HeadThen(s, answers);
    WillingTail(answers);
    if s.v.tracked.mode.Tunnel? {
      AgainRaisingTun(s1, p, answers[1..]);
    } else {
      IdleHeads(s1, answers[1..]);
    }
  }

  /** The timer's attempt has begun: the timer is spent. */
  function Begun(s: State): State {
    s.(v := s.v.(ladder := s.v.ladder.(timer := None)))
  }

  /**
   An armed reconnect that comes to its turn. It is up again, in the mode of before and with the
   attempts forgotten, if and only if every stage says yes; at the first no the link is down, intent
   and watches are as before, and the next attempt is armed, or after the fifth the ladder gives up.
   */
  lemma ReconnectOutcome(s: State, p: Protocol, answers: seq<Answer>)
    requires Waiting(s) && |answers| == 7 && Willing(answers) && answers[0].saved == Some(p)
    ensures var mode := s.v.tracked.mode;
      After(s, TimerFires, answers)
      == if AllYes(ReconnectAsks(p, mode), answers)
         then Restored(Begun(s).(v := Begun(s).v.(link := UpLink(s.v.link, p, mode))), p)
         else FailedAttempt(Begun(s))
  {
    AfterIs(s, TimerFires, answers);
    var s1 := Step(s, TimerFires);
    assert s1.queue == [Reconnect(s.v.ladder.epoch, ReconnectAtLock)];
    HeadThen(s1, answers);
    WillingTail(answers);
    var s2 := Step(s1, HeadRuns(answers[0]));
    if IsRootTunnel(p) {
      AgainRootStart(s2, p, answers[1..]);
    } else {
      AgainChildStart(s2, p, answers[1..]);
    }
  }

  /** A reconnect that is not saved takes everything down but the session. */
  lemma NothingSaved(s: State, answers: seq<Answer>)
    requires Waiting(s) && |answers| == 4 && answers[0].saved.None?
    ensures var v := Begun(s).v;
      After(s, TimerFires, answers)
      == s.(v := Vars(v.ladder.(attempt := 0), v.tracked.(desired := None), NO_LINK, UNWATCHED))
  {
    AfterIs(s, TimerFires, answers);
    var s1 := Step(s, TimerFires);
    var s2 := Step(s1, HeadRuns(answers[0]));
    HeadThen(s1, answers);
    IdlingRuns(s2, answers[1..]);
  }

  lemma IdlingRuns(s: State, answers: seq<Answer>)
    requires s.queue != [] && s.queue[0].Reconnect? && s.queue[0].reconnectAt == Idling(Reverting)
    requires |answers| == 3 && |s.queue| == 1
    ensures Run(s, Heads(answers))
         == s.(queue := [], v := s.v.(link := NO_LINK, watch := UNWATCHED, tracked := s.v.tracked.(desired := None)))
  {
    var s1 := Step(s, HeadRuns(answers[0]));
    var s2 := Step(s1, HeadRuns(answers[1]));
    HeadThen(s, answers);
    HeadThen(s1, answers[1..]);
    assert answers[1..][1..] == answers[2..];
    LastHead(s2, answers[2..], Step(s2, HeadRuns(answers[2])));
  }

  /** A reconnect of an earlier lifecycle, or without a session, does nothing. */
  lemma StaleReconnect(s: State, answers: seq<Answer>)
    requires s.queue == [] && s.v.ladder.timer.Some? && |answers| >= 1
    requires s.v.ladder.timer != Some(s.v.ladder.epoch) || s.v.tracked.session.None?
    ensures After(s, TimerFires, answers) == Begun(s)
  {
    AfterIs(s, TimerFires, answers);
    LastHead(Step(s, TimerFires), answers, Begun(s));
  }

  // ---- the ladder of attempts ------------------------------------------------------

  /** Rounds in which every timer's attempt fails. */
  function FailRounds(s: State, n: nat): State
    decreases n
  {
    if n == 0 then s else FailRounds(FailedAttempt(Begun(s)), n - 1)
  }

  /** From the first lost tunnel on, exactly five attempts are made before the ladder gives up. */
  lemma {:induction false} FiveAttempts(s: State, n: nat)
    requires Waiting(s) && s.v.ladder.attempt + n <= 5
    ensures var s' := FailRounds(s, n); Waiting(s') && s'.v.ladder.attempt == s.v.ladder.attempt + n
    ensures s.v.ladder.attempt + n == 5 ==>
              var over := FailRounds(s, n + 1);
              over.v.ladder.attempt == 0 && over.v.ladder.timer.None? && over.teardowns == s.teardowns + [Reverting]
              && over.v.link == NO_LINK
    decreases n
  {
    if n == 0 {
      assert FailRounds(s, 1) == FailRounds(FailedAttempt(Begun(s)), 0);
    } else {
      FiveAttempts(FailedAttempt(Begun(s)), n - 1);
    }
  }

  /** The teardown of a give-up takes everything down but the session. */
  lemma GiveUpOutcome(s: State)
    requires s.teardowns == [Reverting]
    ensures Run(s, [TeardownRuns(0), TeardownRuns(0), TeardownRuns(0)])
         == s.(teardowns := [], v := s.v.(link := NO_LINK, watch := UNWATCHED, tracked := s.v.tracked.(desired := None)))
  {
    RunMany(s, [TeardownRuns(0), TeardownRuns(0), TeardownRuns(0)]);
  }

  // ---- sessions --------------------------------------------------------------------

  /** A handler that starts with nothing connected puts its session in place. */
  lemma ApplyOutcome(s: State, id: SessionId, exit: Option<SessionId>, config: bool)
    requires s.v.ladder.attempt == 0 && !Connected(s.v.link) && SessionCleared(s.v.tracked)
    ensures Run(s, [BeginSession, ApplySession(id, exit, config, true)])
         == s.(v := s.v.(tracked := s.v.tracked.(session := Some(id), exitSession := exit, hasConfig := config)))
  {
    RunMany(s, [BeginSession, ApplySession(id, exit, config, true)]);
  }

  /** Under a live connection none starts. */
  lemma ApplyRefused(s: State, id: SessionId, exit: Option<SessionId>, config: bool)
    requires (s.v.ladder.attempt > 0 || Connected(s.v.link)) && s.applying == 0
    ensures Run(s, [BeginSession, ApplySession(id, exit, config, true)]) == s
  {
    RunMany(s, [BeginSession, ApplySession(id, exit, config, true)]);
  }
}
