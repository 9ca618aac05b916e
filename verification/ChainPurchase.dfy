/**
 Buying a two-hop chain: establishChainOrRefund and refundSessions of
 src/main/ipc-handlers.ts with refundEachInTurn of src/main/vpn/connect-decisions.ts. Every
 externally visible act is recorded in a trace, and the safety claims are about that trace.
 */
module ChainPurchase {
  import opened Common

  type SessionId = nat
  type Account = nat

  datatype Role = Entry | Exit

  datatype Paid = Paid(sessionId: SessionId, signer: Account)

  /**
   What the outside can see, with its answer. A failed purchase returns no session; the exit is asked
   through the proxy's agent; a handshake is signed with the key of the account that is given.
   */
  datatype Act =
    | Buy(role: Role, signer: Account, bought: Option<SessionId>)
    | Resolve(role: Role, found: bool)
    | Shake(role: Role, sessionId: SessionId, signer: Account, answered: bool)
    | StartProxy(listens: bool)
    | Preflight(ok: bool)
    | Grade(ok: bool)
    | Finalize(ok: bool)
    | StopProxy
    | Cancel(sessionId: SessionId, signer: Account, landed: bool)

  /** How each step answers. `cancels` is whether the k-th cancel lands. */
  datatype World = World(
    buyEntry: Option<SessionId>, entryResolves: bool, entryShakes: bool,
    proxyListens: bool, exitPreflight: bool, exitEligible: bool,
    buyExit: Option<SessionId>, exitResolves: bool, exitShakes: bool,
    finalizes: bool, cancels: nat -> bool)

  // ---- refunds ---------------------------------------------------------------------

  /** Purchase i is the last one with this session id. */
  predicate LastWith(paid: seq<Paid>, id: SessionId, i: nat) {
    i < |paid| && paid[i].sessionId == id && forall j :: i < j < |paid| ==> paid[j].sessionId != id
  }

  /** refundSessions looks the signer up by session id, and a later entry overwrites. */
  function SignerOf(paid: seq<Paid>, id: SessionId): (a: Account)
    requires exists i :: 0 <= i < |paid| && paid[i].sessionId == id
    ensures exists i :: 0 <= i < |paid| && LastWith(paid, id, i) && paid[i].signer == a
    decreases |paid|
  {
    var n := |paid| - 1;
    if paid[n].sessionId == id then paid[n].signer else SignerOf(paid[..n], id)
  }

  /** The cancels, in the order of purchase. */
  function Cancels(paid: seq<Paid>, cancels: nat -> bool): (acts: seq<Act>)
    ensures |acts| == |paid|
    ensures forall i :: 0 <= i < |acts| ==>
      acts[i] == Cancel(paid[i].sessionId, SignerOf(paid, paid[i].sessionId), cancels(i))
  {
    seq(|paid|, i requires 0 <= i < |paid| => Cancel(paid[i].sessionId, SignerOf(paid, paid[i].sessionId), cancels(i)))
  }

  /** refundEachInTurn: one at a time, and a cancel that fails never stops the next. */
  method RefundEachInTurn(paid: seq<Paid>, cancels: nat -> bool) returns (acts: seq<Act>, results: seq<(SessionId, bool)>)
    ensures acts == Cancels(paid, cancels)
    ensures |results| == |paid|
    ensures forall i :: 0 <= i < |paid| ==> results[i] == (paid[i].sessionId, cancels(i))
  {
    acts, results := [], [];
    for i := 0 to |paid|
      invariant |acts| == |results| == i
      invariant forall k :: 0 <= k < i ==>
        acts[k] == Cancel(paid[k].sessionId, SignerOf(paid, paid[k].sessionId), cancels(k))
        && results[k] == (paid[k].sessionId, cancels(k))
    {
      var id := paid[i].sessionId;
      acts := acts + [Cancel(id, SignerOf(paid, id), cancels(i))];
      results := results + [(id, cancels(i))];
    }
  }

  // ---- the purchase ----------------------------------------------------------------

  /** The exit half of the `try`: everything the exit hears goes through the live proxy. */
  method ProvisionExit(w: World, exitSigner: Account) returns (ok: bool, acts: seq<Act>, paid: seq<Paid>)
    ensures acts == ExitActs(w, exitSigner)
    ensures paid == ExitPaid(w, exitSigner)
    ensures ok <==> (paid != [] && w.exitResolves && w.exitShakes && w.finalizes)
  {
    ok, paid, acts := false, [], [Preflight(w.exitPreflight)];
    if !w.exitPreflight {
      return;
    }
    acts := acts + [Grade(w.exitEligible)];
    if !w.exitEligible {
      return;
    }
    acts := acts + [Buy(Exit, exitSigner, w.buyExit)];
    if w.buyExit.None? {
      return;
    }
    paid := [Paid(w.buyExit.value, exitSigner)];
    acts := acts + [Resolve(Exit, w.exitResolves)];
    if !w.exitResolves {
      return;
    }
    acts := acts + [Shake(Exit, w.buyExit.value, exitSigner, w.exitShakes)];
    if !w.exitShakes {
      return;
    }
    acts := acts + [Finalize(w.finalizes)];
    ok := w.finalizes;
  }

  /** The entry half of the `try`, up to a proxy that listens. */
  method ProvisionEntry(w: World, entrySigner: Account) returns (proxy: bool, acts: seq<Act>, paid: seq<Paid>)
    ensures acts == EntryActs(w, entrySigner) + (if ProxyFails(w) then [StopProxy] else [])
    ensures proxy == ProxyUp(w)
    ensures paid == EntryPaid(w, entrySigner)
  {
    proxy, paid, acts := false, [], [Buy(Entry, entrySigner, w.buyEntry)];
    if w.buyEntry.None? {
      return;
    }
    paid := [Paid(w.buyEntry.value, entrySigner)];
    acts := acts + [Resolve(Entry, w.entryResolves)];
    if !w.entryResolves {
      return;
    }
    acts := acts + [Shake(Entry, w.buyEntry.value, entrySigner, w.entryShakes)];
    if !w.entryShakes {
      return;
    }
    acts := acts + [StartProxy(w.proxyListens)];
    proxy := w.proxyListens;
    if !proxy {
      // startProvisioningProxy stops its own child before it throws
      acts := acts + [StopProxy];
    }
  }

  /** The `try`, up to the first step that fails. */
  method ProvisionBoth(w: World, entrySigner: Account, exitSigner: Account)
    returns (ok: bool, proxy: bool, acts: seq<Act>, paid: seq<Paid>)
    ensures ok <==> Succeeds(w)
    ensures proxy <==> ProxyUp(w)
    ensures acts == TryActs(w, entrySigner, exitSigner)
    ensures paid == PaidFor(w, entrySigner, exitSigner)
  {
    ok := false;
    proxy, acts, paid := ProvisionEntry(w, entrySigner);
    if proxy {
      var more, morePaid;
      ok, more, morePaid := ProvisionExit(w, exitSigner);
      acts, paid := acts + more, paid + morePaid;
    }
  }

  /** The handler: the `try`, its catch, and its finally. It succeeds exactly if every step says yes. */
  method EstablishChainOrRefund(w: World, entrySigner: Account, exitSigner: Account)
    returns (ok: bool, trace: seq<Act>)
    ensures ok <==> (w.buyEntry.Some? && w.entryResolves && w.entryShakes && w.proxyListens && w.exitPreflight
                     && w.exitEligible && w.buyExit.Some? && w.exitResolves && w.exitShakes && w.finalizes)
    ensures trace == Trace(w, entrySigner, exitSigner)
  {
    var proxy, paid;
    ok, proxy, trace, paid := ProvisionBoth(w, entrySigner, exitSigner);
    if !ok {
      var cancelled, _ := RefundEachInTurn(paid, w.cancels);
      trace := trace + cancelled;
    }
    if proxy {
      trace := trace + [StopProxy];
    }
  }

  // ---- specification ---------------------------------------------------------------

  predicate ProxyUp(w: World) {
    w.buyEntry.Some? && w.entryResolves && w.entryShakes && w.proxyListens
  }

  /** The child was started but never listened. */
  predicate ProxyFails(w: World) {
    w.buyEntry.Some? && w.entryResolves && w.entryShakes && !w.proxyListens
  }

  predicate Succeeds(w: World) {
    && ProxyUp(w) && w.exitPreflight && w.exitEligible && w.buyExit.Some?
    && w.exitResolves && w.exitShakes && w.finalizes
  }

  function EntryPaid(w: World, entrySigner: Account): seq<Paid> {
    if w.buyEntry.Some? then [Paid(w.buyEntry.value, entrySigner)] else []
  }

  function ExitPaid(w: World, exitSigner: Account): seq<Paid> {
    if w.exitPreflight && w.exitEligible && w.buyExit.Some? then [Paid(w.buyExit.value, exitSigner)] else []
  }

  function PaidFor(w: World, entrySigner: Account, exitSigner: Account): seq<Paid> {
    EntryPaid(w, entrySigner) + if ProxyUp(w) then ExitPaid(w, exitSigner) else []
  }

  /** The acts of the `try` up to starting the proxy, and those behind it. */
  function EntryActs(w: World, entrySigner: Account): seq<Act> {
    [Buy(Entry, entrySigner, w.buyEntry)]
    + (if w.buyEntry.None? then []
       else [Resolve(Entry, w.entryResolves)]
            + (if !w.entryResolves then []
               else [Shake(Entry, w.buyEntry.value, entrySigner, w.entryShakes)]
                    + if w.entryShakes then [StartProxy(w.proxyListens)] else []))
  }

  function ExitActs(w: World, exitSigner: Account): seq<Act> {
    if !w.exitPreflight then [Preflight(false)]
    else if !w.exitEligible then [Preflight(true), Grade(false)]
    else [Preflight(true), Grade(true), Buy(Exit, exitSigner, w.buyExit)] + BoughtActs(w, exitSigner)
  }

  /** What the exit hears once its session is bought. */
  function BoughtActs(w: World, exitSigner: Account): seq<Act> {
    if w.buyExit.None? then []
    else [Resolve(Exit, w.exitResolves)]
         + (if !w.exitResolves then []
            else [Shake(Exit, w.buyExit.value, exitSigner, w.exitShakes)]
                 + if w.exitShakes then [Finalize(w.finalizes)] else [])
  }

  function TryActs(w: World, entrySigner: Account, exitSigner: Account): seq<Act> {
    EntryActs(w, entrySigner)
    + if ProxyUp(w) then ExitActs(w, exitSigner) else if ProxyFails(w) then [StopProxy] else []
  }

  /** The acts of the `try`, the cancels of the catch, and the stop of the finally. */
  function Trace(w: World, entrySigner: Account, exitSigner: Account): seq<Act> {
    TryActs(w, entrySigner, exitSigner)
    + (if Succeeds(w) then [] else Cancels(PaidFor(w, entrySigner, exitSigner), w.cancels))
    + (if ProxyUp(w) then [StopProxy] else [])
  }

  // ---- what any legal purchase looks like ------------------------------------------

  /** A session that was bought, whether its node's endpoint was found, and whether it was handshaked. */
  datatype Hop = Hop(role: Role, paid: Paid, found: bool, shaken: bool)

  /** What the exit has said of itself before it is paid. */
  datatype Checked = Unchecked | Reachable | Eligible

  /** Whether a no was heard, the chain is finished, and how many cancels were sent. */
  datatype Phase = Trying | Failed(cancelled: nat) | Finished

  /** An observer of the trace. */
  datatype Seen = Seen(proxy: bool, checked: Checked, hops: seq<Hop>, phase: Phase) | Bad

  /** Yes changes what is known; no ends the attempt. */
  function Heard(s: Seen, yes: bool, known: Seen): Seen
    requires s.Seen?
  {
    if yes then known else s.(phase := Failed(0))
  }

  /** The hop that was bought last, not yet handshaked. */
  predicate Pending(s: Seen, role: Role) {
    s.Seen? && s.hops != [] && s.hops[|s.hops| - 1].role == role && !s.hops[|s.hops| - 1].shaken
  }

  function WithLast(s: Seen, h: Hop): Seen
    requires s.Seen? && s.hops != []
  {
    s.(hops := s.hops[..|s.hops| - 1] + [h])
  }

  /**
   One act of the attempt, judged. The entry is bought first. A session is handshaked once, behind
   its own purchase and its node's endpoint, with the key of the account that bought it. The proxy
   starts behind the entry's handshake. The exit hears from us only while the proxy is live, and is
   bought only after it was found reachable and eligible there. The chain is finished when both hops
   are handshaked.
   */
  function ObserveTry(s: Seen, a: Act): Seen
    requires s.Seen? && !a.StopProxy? && !a.Cancel?
  {
    if !s.phase.Trying? then Bad
    else
      match a
      case Buy(role, signer, id) =>
        if role.Entry? && s.hops != [] then Bad
        else if role.Exit? && !(|s.hops| == 1 && s.hops[0].shaken && s.proxy && s.checked.Eligible?) then Bad
        else Heard(s, id.Some?, if id.None? then s else s.(hops := s.hops + [Hop(role, Paid(id.value, signer), false, false)]))
      case Resolve(role, found) =>
        if !Pending(s, role) || s.hops[|s.hops| - 1].found then Bad
        else Heard(s, found, WithLast(s, s.hops[|s.hops| - 1].(found := true)))
      case Shake(role, id, signer, answered) =>
        if !Pending(s, role) || !s.hops[|s.hops| - 1].found || s.hops[|s.hops| - 1].paid != Paid(id, signer) then Bad
        else if role.Exit? && !s.proxy then Bad
        else Heard(s, answered, WithLast(s, s.hops[|s.hops| - 1].(shaken := true)))
      case StartProxy(listens) =>
        if s.proxy || !(|s.hops| == 1 && s.hops[0].shaken) then Bad
        else Heard(s.(proxy := true), listens, s.(proxy := true))
      case Preflight(ok) => if !s.proxy || !s.checked.Unchecked? then Bad else Heard(s, ok, s.(checked := Reachable))
      case Grade(ok) => if !s.proxy || !s.checked.Reachable? then Bad else Heard(s, ok, s.(checked := Eligible))
      case Finalize(ok) =>
        if !(|s.hops| == 2 && s.hops[0].shaken && s.hops[1].shaken) then Bad
        else Heard(s, ok, s.(phase := Finished))
  }

  /**
   One act, judged. Nothing is asked or bought after a no or a finish. The proxy is stopped only then.
   Cancels come only after a no, one by one in purchase order, each signed by the account that bought
   the session.
   */
  function Observe(s: Seen, a: Act): Seen {
    if s.Bad? then Bad
    else if a.StopProxy? then (if s.proxy && !s.phase.Trying? then s.(proxy := false) else Bad)
    else if a.Cancel? then
      (if s.phase.Failed? && s.phase.cancelled < |s.hops| && s.hops[s.phase.cancelled].paid == Paid(a.sessionId, a.signer)
       then s.(phase := Failed(s.phase.cancelled + 1)) else Bad)
    else ObserveTry(s, a)
  }

  function ObserveAll(s: Seen, acts: seq<Act>): Seen
    decreases |acts|
  {
    if acts == [] then s else ObserveAll(Observe(s, acts[0]), acts[1..])
  }

  lemma {:induction false} ObserveAppend(s: Seen, a: seq<Act>, b: seq<Act>)
    ensures ObserveAll(s, a + b) == ObserveAll(ObserveAll(s, a), b)
    decreases |a|
  {
    if a == [] {
      assert a + b == b;
    } else {
      assert (a + b)[1..] == a[1..] + b;
      ObserveAppend(Observe(s, a[0]), a[1..], b);
    }
  }

  /** Can the lookup by session id find a wrong signer? Only if the two sessions share an id. */
  predicate SignersKnown(paid: seq<Paid>) {
    forall i, j :: 0 <= i < j < |paid| && paid[i].sessionId == paid[j].sessionId ==> paid[i].signer == paid[j].signer
  }

  /** The lookup finds the buyer of each of the first k purchases. */
  predicate RightSigners(paid: seq<Paid>, k: nat)
    requires k <= |paid|
  {
    forall j :: 0 <= j < k ==> SignerOf(paid, paid[j].sessionId) == paid[j].signer
  }

  /** The bill, as the observer has it. */
  function PaidOf(hops: seq<Hop>): (paid: seq<Paid>)
    ensures |paid| == |hops| && forall i :: 0 <= i < |hops| ==> paid[i] == hops[i].paid
  {
    seq(|hops|, i requires 0 <= i < |hops| => hops[i].paid)
  }

  lemma {:induction false} CancelsAreLegal(s: Seen, paid: seq<Paid>, w: World, k: nat)
    requires s.Seen? && PaidOf(s.hops) == paid && k <= |paid| && s.phase == Failed(k)
    ensures var end := ObserveAll(s, Cancels(paid, w.cancels)[k..]);
      && (SignersKnown(paid) ==> end == s.(phase := Failed(|paid|)))
      && ((!SignersKnown(paid) && RightSigners(paid, k)) ==> end == Bad)
    decreases |paid| - k
  {
    var acts := Cancels(paid, w.cancels);
    if k < |paid| {
      assert acts[k..][0] == acts[k] && acts[k..][1..] == acts[k + 1..];
      assert s.hops[k].paid == paid[k];
      var right := SignerOf(paid, paid[k].sessionId) == paid[k].signer;
      if right {
        CancelsAreLegal(s.(phase := Failed(k + 1)), paid, w, k + 1);
      } else {
        BadStays(acts[k + 1..]);
      }
    } else {
      assert acts[k..] == [];
      if RightSigners(paid, k) {
        forall i, j | 0 <= i < j < |paid| && paid[i].sessionId == paid[j].sessionId
          ensures paid[i].signer == paid[j].signer
        {
          assert SignerOf(paid, paid[i].sessionId) == SignerOf(paid, paid[j].sessionId);
        }
        assert SignersKnown(paid);
      }
    }
  }

  lemma {:induction false} BadStays(acts: seq<Act>)
    ensures ObserveAll(Bad, acts) == Bad
    decreases |acts|
  {
    if acts != [] {
      BadStays(acts[1..]);
    }
  }

  const NOTHING_SEEN := Seen(false, Unchecked, [], Trying)

  /** One act, and the rest. */
  lemma ObserveThen(s: Seen, a: Act, rest: seq<Act>)
    ensures ObserveAll(s, [a] + rest) == ObserveAll(Observe(s, a), rest)
  {
    assert ([a] + rest)[1..] == rest;
  }

  lemma ObserveOne(s: Seen, a: Act)
    ensures ObserveAll(s, [a]) == Observe(s, a)
  {
    assert [a][1..] == [];
  }

  /** What is known of the entry when its half of the attempt is over. */
  function EntrySeen(w: World, entrySigner: Account): Seen {
    if w.buyEntry.None? then NOTHING_SEEN.(phase := Failed(0))
    else
      var hop := Hop(Entry, Paid(w.buyEntry.value, entrySigner), w.entryResolves, w.entryResolves && w.entryShakes);
      Seen(hop.shaken, Unchecked, [hop], if hop.shaken && w.proxyListens then Trying else Failed(0))
  }

  lemma EntryIsLegal(w: World, entrySigner: Account)
    ensures ObserveAll(NOTHING_SEEN, EntryActs(w, entrySigner)) == EntrySeen(w, entrySigner)
  {
    var buy := Buy(Entry, entrySigner, w.buyEntry);
    if w.buyEntry.None? {
      assert EntryActs(w, entrySigner) == [buy];
      ObserveOne(NOTHING_SEEN, buy);
    } else {
      var s1 := Observe(NOTHING_SEEN, buy);
      var shake := Shake(Entry, w.buyEntry.value, entrySigner, w.entryShakes);
      var tail := if w.entryShakes then [StartProxy(w.proxyListens)] else [];
      var more := if w.entryResolves then [shake] + tail else [];
      assert EntryActs(w, entrySigner) == [buy] + ([Resolve(Entry, w.entryResolves)] + more);
      ObserveThen(NOTHING_SEEN, buy, [Resolve(Entry, w.entryResolves)] + more);
      ObserveThen(s1, Resolve(Entry, w.entryResolves), more);
      if w.entryResolves {
        var s2 := Observe(s1, Resolve(Entry, w.entryResolves));
        ObserveThen(s2, shake, tail);
        if w.entryShakes {
          ObserveOne(Observe(s2, shake), StartProxy(w.proxyListens));
        }
      }
    }
  }

  /** A proxy is live, the entry is handshaked, and nothing was said no to. */
  predicate Halfway(s: Seen) {
    s.Seen? && s.proxy && s.checked.Unchecked? && |s.hops| == 1 && s.hops[0].shaken && s.phase.Trying?
  }

  /** What is known when the exit's half is over. */
  function ExitSeen(s: Seen, w: World, exitSigner: Account): Seen
    requires Halfway(s)
  {
    if !w.exitPreflight then s.(phase := Failed(0))
    else if !w.exitEligible then s.(checked := Reachable, phase := Failed(0))
    else if w.buyExit.None? then s.(checked := Eligible, phase := Failed(0))
    else
      var hop := Hop(Exit, Paid(w.buyExit.value, exitSigner), w.exitResolves, w.exitResolves && w.exitShakes);
      Seen(true, Eligible, s.hops + [hop], if hop.shaken && w.finalizes then Finished else Failed(0))
  }

  lemma ExitIsLegal(w: World, exitSigner: Account, s: Seen)
    requires Halfway(s)
    ensures ObserveAll(s, ExitActs(w, exitSigner)) == ExitSeen(s, w, exitSigner)
  {
    var s1 := Observe(s, Preflight(true));
    if !w.exitPreflight {
      ObserveOne(s, Preflight(false));
    } else if !w.exitEligible {
      assert ExitActs(w, exitSigner) == [Preflight(true)] + [Grade(false)];
      ObserveThen(s, Preflight(true), [Grade(false)]);
      ObserveOne(s1, Grade(false));
    } else {
      var buy, bought := Buy(Exit, exitSigner, w.buyExit), BoughtActs(w, exitSigner);
      assert ExitActs(w, exitSigner) == [Preflight(true)] + ([Grade(true)] + ([buy] + bought));
      ObserveThen(s, Preflight(true), [Grade(true)] + ([buy] + bought));
      ObserveThen(s1, Grade(true), [buy] + bought);
      var s2 := Observe(s1, Grade(true));
      ObserveThen(s2, buy, bought);
      if w.buyExit.Some? {
        BoughtIsLegal(w, exitSigner, Observe(s2, buy));
      }
    }
  }

  lemma BoughtIsLegal(w: World, exitSigner: Account, s: Seen)
    requires w.buyExit.Some? && s.Seen? && s.proxy && s.phase.Trying? && |s.hops| == 2 && s.hops[0].shaken
    requires s.hops[1] == Hop(Exit, Paid(w.buyExit.value, exitSigner), false, false)
    ensures var shaken := w.exitResolves && w.exitShakes;
      ObserveAll(s, BoughtActs(w, exitSigner))
      == s.(hops := [s.hops[0], Hop(Exit, Paid(w.buyExit.value, exitSigner), w.exitResolves, shaken)],
            phase := if shaken && w.finalizes then Finished else Failed(0))
  {
    var resolve, shake := Resolve(Exit, w.exitResolves), Shake(Exit, w.buyExit.value, exitSigner, w.exitShakes);
    var tail := if w.exitShakes then [Finalize(w.finalizes)] else [];
    var more := if w.exitResolves then [shake] + tail else [];
    assert BoughtActs(w, exitSigner) == [resolve] + more;
    ObserveThen(s, resolve, more);
    var s1 := Observe(s, resolve);
    if w.exitResolves {
      ObserveThen(s1, shake, tail);
      if w.exitShakes {
        ObserveOne(Observe(s1, shake), Finalize(w.finalizes));
      }
    } else {
      assert s.hops == [s.hops[0], s.hops[1]];
    }
  }

  /** The purchase half is legal for every world: what was paid, and how far it got. */
  lemma BuyingIsLegal(w: World, entrySigner: Account, exitSigner: Account)
    ensures var s := ObserveAll(NOTHING_SEEN, TryActs(w, entrySigner, exitSigner));
      && s.Seen? && s.proxy == ProxyUp(w) && PaidOf(s.hops) == PaidFor(w, entrySigner, exitSigner)
      && s.phase == (if Succeeds(w) then Finished else Failed(0))
      && (s.phase.Finished? ==> |s.hops| == 2 && s.hops[0].shaken && s.hops[1].shaken)
  {
    var head := EntryActs(w, entrySigner);
    EntryIsLegal(w, entrySigner);
    var s := EntrySeen(w, entrySigner);
    if ProxyUp(w) {
      ObserveAppend(NOTHING_SEEN, head, ExitActs(w, exitSigner));
      ExitIsLegal(w, exitSigner, s);
    } else if ProxyFails(w) {
      ObserveAppend(NOTHING_SEEN, head, [StopProxy]);
      ObserveOne(s, StopProxy);
    } else {
      assert head + [] == head;
    }
  }

  /**
   The whole purchase, at every failure point: the trace is legal exactly when the lookup by
   session id cannot pick a wrong signer. Then no proxy is left running. If the purchase succeeded,
   both sessions have been handshaked and none cancelled; if it failed, every paid session has had
   exactly one cancel.
   */
  lemma PurchaseIsLegalIff(w: World, entrySigner: Account, exitSigner: Account)
    ensures var s := ObserveAll(NOTHING_SEEN, Trace(w, entrySigner, exitSigner));
      var paid := PaidFor(w, entrySigner, exitSigner);
      && (s.Seen? <==> Succeeds(w) || SignersKnown(paid))
      && (s.Seen? ==> !s.proxy && PaidOf(s.hops) == paid && s.phase == if Succeeds(w) then Finished else Failed(|paid|))
      && (s.Seen? && s.phase.Finished? ==> |s.hops| == 2 && s.hops[0].shaken && s.hops[1].shaken)
  {
    var paid := PaidFor(w, entrySigner, exitSigner);
    var head := TryActs(w, entrySigner, exitSigner);
    var cancels := if Succeeds(w) then [] else Cancels(paid, w.cancels);
    var stop := if ProxyUp(w) then [StopProxy] else [];
    BuyingIsLegal(w, entrySigner, exitSigner);
    var s1 := ObserveAll(NOTHING_SEEN, head);
    ObserveAppend(NOTHING_SEEN, head, cancels);
    ObserveAppend(NOTHING_SEEN, head + cancels, stop);
    if !Succeeds(w) {
      CancelsAreLegal(s1, paid, w, 0);
      assert Cancels(paid, w.cancels)[0..] == Cancels(paid, w.cancels);
    }
    if ProxyUp(w) {
      ObserveOne(ObserveAll(s1, cancels), StopProxy);
    }
  }

  // ---- handshakes counted ----------------------------------------------------------

  function Shaken(hops: seq<Hop>, role: Role): nat
    decreases |hops|
  {
    if hops == [] then 0
    else Shaken(hops[..|hops| - 1], role) + if hops[|hops| - 1].role == role && hops[|hops| - 1].shaken then 1 else 0
  }

  /** The handshakes with a hop that were answered. */
  function Answered(acts: seq<Act>, role: Role): nat
    decreases |acts|
  {
    if acts == [] then 0 else (if acts[0].Shake? && acts[0].role == role && acts[0].answered then 1 else 0) + Answered(acts[1..], role)
  }

  lemma ShakenStep(s: Seen, a: Act, role: Role)
    requires s.Seen? && Observe(s, a).Seen?
    ensures Shaken(Observe(s, a).hops, role) == Shaken(s.hops, role) + Answered([a], role)
  {
    var s' := Observe(s, a);
    assert [a][1..] == [];
    if s'.hops != [] {
      assert s'.hops[..|s'.hops| - 1] == if |s'.hops| == |s.hops| then s.hops[..|s.hops| - 1] else s.hops;
    }
  }

  /** In a legal trace every handshake is counted once. */
  lemma {:induction false} HandshakesCounted(s: Seen, acts: seq<Act>, role: Role)
    requires s.Seen? && ObserveAll(s, acts).Seen?
    ensures Shaken(ObserveAll(s, acts).hops, role) == Shaken(s.hops, role) + Answered(acts, role)
    decreases |acts|
  {
    if acts != [] {
      if Observe(s, acts[0]).Bad? {
        BadStays(acts[1..]);
      }
      ShakenStep(s, acts[0], role);
      assert [acts[0]][1..] == [];
      HandshakesCounted(Observe(s, acts[0]), acts[1..], role);
    }
  }

  /** A successful purchase has exactly one answered handshake with each of its hops. */
  lemma HandshakedOnceEach(w: World, entrySigner: Account, exitSigner: Account, role: Role)
    requires Succeeds(w)
    ensures Answered(Trace(w, entrySigner, exitSigner), role) == 1
  {
    var trace := Trace(w, entrySigner, exitSigner);
    PurchaseIsLegalIff(w, entrySigner, exitSigner);
    HandshakesCounted(NOTHING_SEEN, trace, role);
    var s := ObserveAll(NOTHING_SEEN, trace);
    RolesInOrder(NOTHING_SEEN, trace);
    assert s.hops == [s.hops[0], s.hops[1]];
    assert s.hops[..1] == [s.hops[0]] && s.hops[..1][..0] == [];
    assert Shaken([s.hops[0]], role) == if role.Entry? then 1 else 0;
  }

  predicate InOrder(hops: seq<Hop>) {
    |hops| <= 2 && (|hops| > 0 ==> hops[0].role.Entry?) && (|hops| > 1 ==> hops[1].role.Exit?)
  }

  lemma {:induction false} RolesInOrder(s: Seen, acts: seq<Act>)
    requires s.Seen? && InOrder(s.hops) && ObserveAll(s, acts).Seen?
    ensures InOrder(ObserveAll(s, acts).hops)
    decreases |acts|
  {
    if acts != [] {
      if Observe(s, acts[0]).Bad? {
        BadStays(acts[1..]);
      }
      RolesInOrder(Observe(s, acts[0]), acts[1..]);
    }
  }
}
