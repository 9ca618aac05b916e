/**
 The smart-connect ladder of PLAN_SMART_CONNECT (src/main/ipc-handlers.ts) with the money
 decisions of src/main/plans/plan-connect.ts. The node, the chain and the refund answer each
 candidate through a Reply; what the wallet broadcasts is kept in a ledger.
 */
module SmartConnect {
  import opened Common

  const MAX_TX_ATTEMPTS: nat := 3

  type SessionId = nat
  type SubscriptionId = string
  type Address = string

  // ---- what the outside answers for one candidate ----------------------------------

  /** A session-creating transaction: committed, timed out (it may still land), or rejected. */
  datatype TxReply = Committed(sessionId: SessionId, subscriptionId: SubscriptionId) | TimedOut | Rejected

  /** establishSessionOrRefund: connected, or failed with the outcome of its one refund.
      `quotesTail` says that the failure text carries the refund-failed wording by itself. */
  datatype Establish = Connected | Failed(refunded: bool, quotesTail: bool)

  /** `recorded`: what the handler does with an answered handshake (session state, caches, quota,
      notices to the windows) does not throw. It runs inside the handshake's `try`. */
  datatype Reply = Reply(address: Address, preflightOk: bool, endpointOk: bool, tx: TxReply, establish: Establish,
                         recorded: bool)

  // ---- plan-connect.ts -------------------------------------------------------------

  datatype Failure = Preflight | Handshake | Policy | Endpoint | TxTimeout | Funds | Chain

  function ShouldTryNextCandidate(failure: Failure, txAttemptsSoFar: nat): bool {
    match failure
    case Preflight | Endpoint => true
    case Handshake | Policy => txAttemptsSoFar < MAX_TX_ATTEMPTS
    case TxTimeout | Funds | Chain => false
  }

  datatype LadderTx = PlanSubscribe | SessionOnly

  function LadderNextTx(subscriptionId: Option<SubscriptionId>): LadderTx {
    if subscriptionId.None? then PlanSubscribe else SessionOnly
  }

  // ---- the ledger ------------------------------------------------------------------

  /** What left the wallet: a session-creating broadcast with its answer, or a refund attempt. */
  datatype Entry =
    | Broadcast(kind: LadderTx, tx: TxReply)
    | Refund(sessionId: SessionId, ok: bool)

  datatype Outcome =
    | Success(sessionId: SessionId, subscriptionId: SubscriptionId)
    | Stopped     // the ladder rethrew: a transaction in doubt, a failed refund, or budget spent
    | Exhausted   // every candidate was tried

  datatype Ladder = Ladder(outcome: Outcome, subscriptionId: Option<SubscriptionId>, ledger: seq<Entry>)

  /** The subscription the ladder holds after a committed transaction. */
  function Held(sub: Option<SubscriptionId>, tx: TxReply): Option<SubscriptionId>
    requires tx.Committed?
  {
    if LadderNextTx(sub).PlanSubscribe? && tx.subscriptionId != "" then Some(tx.subscriptionId) else sub
  }

  /** The failure class that the ladder derives from the text of what was thrown. */
  function EstablishFailure(e: Establish): Failure {
    if e.Failed? && (!e.refunded || e.quotesTail) then Chain else Handshake
  }

  /** establishSessionOrRefund cancels before it throws; nothing else does. */
  function Refunds(r: Reply): seq<Entry>
    requires r.tx.Committed?
  {
    if r.establish.Failed? then [Refund(r.tx.sessionId, r.establish.refunded)] else []
  }

  predicate Reaches(r: Reply) {
    r.preflightOk && r.endpointOk
  }

  /** The ladder as a function: what a run from here on does. */
  function Climb(sub: Option<SubscriptionId>, txAttempts: nat, replies: seq<Reply>): (l: Ladder)
    decreases |replies|
  {
    if replies == [] then Ladder(Exhausted, sub, [])
    else
      var r := replies[0];
      if !Reaches(r) then Climb(sub, txAttempts, replies[1..])
      else
        var sent := Broadcast(LadderNextTx(sub), r.tx);
        if !r.tx.Committed? then Ladder(Stopped, sub, [sent])
        else
          var held := Held(sub, r.tx);
          if r.establish.Connected? && r.recorded then
            Ladder(Success(r.tx.sessionId, if held.Some? then held.value else ""), held, [sent])
          else if !ShouldTryNextCandidate(EstablishFailure(r.establish), txAttempts + 1) then
            Ladder(Stopped, held, [sent] + Refunds(r))
          else
            var rest := Climb(held, txAttempts + 1, replies[1..]);
            Ladder(rest.outcome, rest.subscriptionId, [sent] + Refunds(r) + rest.ledger)
  }

  /** The handler's loop, updating the subscription, the attempt count and the ledger in place. */
  method PlanSmartConnect(subscriptionParam: Option<SubscriptionId>, replies: seq<Reply>)
    returns (outcome: Outcome, subscriptionId: Option<SubscriptionId>, ledger: seq<Entry>)
    ensures Ladder(outcome, subscriptionId, ledger) == Climb(subscriptionParam, 0, replies)
  {
    subscriptionId := subscriptionParam;
    ledger := [];
    var txAttempts: nat := 0;
    for i := 0 to |replies|
      invariant var rest := Climb(subscriptionId, txAttempts, replies[i..]);
        Ladder(rest.outcome, rest.subscriptionId, ledger + rest.ledger) == Climb(subscriptionParam, 0, replies)
    {
      assert replies[i..][1..] == replies[i + 1..];
      var r := replies[i];
      if !r.preflightOk && ShouldTryNextCandidate(Preflight, txAttempts) {
        continue;
      }
      if !r.endpointOk && ShouldTryNextCandidate(Endpoint, txAttempts) {
        continue;
      }
      ghost var before, kind := ledger, LadderNextTx(subscriptionId);
      ledger := ledger + [Broadcast(LadderNextTx(subscriptionId), r.tx)];
      if !r.tx.Committed? {
        return Stopped, subscriptionId, ledger;
      }
      txAttempts := txAttempts + 1;
      if LadderNextTx(subscriptionId) == PlanSubscribe {
        if r.tx.subscriptionId != "" {
          subscriptionId := Some(r.tx.subscriptionId);
        }
      }
      if r.establish.Connected? && r.recorded {
        outcome := Success(r.tx.sessionId, if subscriptionId.Some? then subscriptionId.value else "");
        return;
      }
      if r.establish.Failed? {
        ledger := ledger + [Refund(r.tx.sessionId, r.establish.refunded)];
      }
      if !ShouldTryNextCandidate(EstablishFailure(r.establish), txAttempts) {
        outcome := Stopped;
        return;
      }
      assert ledger == before + ([Broadcast(kind, r.tx)] + Refunds(r));
      Associate(before, [Broadcast(kind, r.tx)] + Refunds(r), Climb(subscriptionId, txAttempts, replies[i + 1..]).ledger);
    }
    outcome := Exhausted;
  }

  lemma Associate(a: seq<Entry>, b: seq<Entry>, c: seq<Entry>)
    ensures (a + b) + c == a + (b + c)
  {
  }

  // ---- establishSessionOrRefund ----------------------------------------------------

  const HANDSHAKE_RETRY_MAX_RETRIES: nat := 2

  /** One handshake: the node answered, or refused with its HTTP status if it gave one. */
  datatype Shake = Answered | Refused(status: Option<nat>)

  predicate ShouldRetrySessionHandshake(status: Option<nat>, attempt: nat) {
    status == Some(404) && attempt < HANDSHAKE_RETRY_MAX_RETRIES
  }

  /** Handshake k answers, and every one before it met a node that had not seen the session yet. */
  predicate AnswersAfterLag(shakes: nat -> Shake, k: nat) {
    shakes(k).Answered? && forall j: nat :: j < k ==> shakes(j) == Refused(Some(404))
  }

  /**
   After the session is paid for: connected exactly when the endpoint resolves and one of the
   first three handshakes answers after nothing but 404s, otherwise refunded by exactly one
   cancel. `shakes(k)` is what the node would say to handshake k.
   */
  method EstablishSessionOrRefund(endpointResolves: bool, shakes: nat -> Shake, refundLands: bool)
    returns (connected: bool, handshakes: nat, refunded: Option<bool>)
    ensures handshakes <= 3
    ensures connected <==>
            (endpointResolves && exists k: nat :: k <= 2 && AnswersAfterLag(shakes, k))
    ensures refunded == if connected then None else Some(refundLands)
    ensures if !endpointResolves then handshakes == 0
            else if connected then handshakes > 0 && AnswersAfterLag(shakes, handshakes - 1)
            else handshakes > 0 && shakes(handshakes - 1).Refused? && forall j: nat :: j < handshakes - 1 ==> shakes(j) == Refused(Some(404))
  {
    connected, handshakes := false, 0;
    var trying := endpointResolves;
    while trying
      invariant handshakes <= HANDSHAKE_RETRY_MAX_RETRIES + 1
      invariant trying ==> handshakes <= HANDSHAKE_RETRY_MAX_RETRIES && !connected
      invariant trying ==> forall j: nat :: j < handshakes ==> shakes(j) == Refused(Some(404))
      invariant connected ==> !trying && handshakes > 0 && AnswersAfterLag(shakes, handshakes - 1)
      invariant (!trying && !connected && endpointResolves) ==>
                (handshakes > 0 && shakes(handshakes - 1).Refused?
                 && !ShouldRetrySessionHandshake(shakes(handshakes - 1).status, handshakes - 1)
                 && forall j: nat :: j < handshakes - 1 ==> shakes(j) == Refused(Some(404)))
      invariant !endpointResolves ==> !connected && !trying && handshakes == 0
      decreases if trying then HANDSHAKE_RETRY_MAX_RETRIES + 1 - handshakes else 0, trying
    {
      var reply := shakes(handshakes);
      connected := reply.Answered?;
      trying := reply.Refused? && ShouldRetrySessionHandshake(reply.status, handshakes);
      handshakes := handshakes + 1;
    }
    refunded := if connected then None else Some(refundLands);
  }

  // ---- what a ledger says ----------------------------------------------------------

  function Broadcasts(ledger: seq<Entry>): nat {
    if ledger == [] then 0 else (if ledger[0].Broadcast? then 1 else 0) + Broadcasts(ledger[1..])
  }

  /** Broadcasts that charge the plan price. */
  function Charges(ledger: seq<Entry>): nat {
    if ledger == [] then 0
    else (if ledger[0].Broadcast? && ledger[0].kind.PlanSubscribe? then 1 else 0) + Charges(ledger[1..])
  }

  /** Sessions bought and not given back, in order. */
  function Live(ledger: seq<Entry>): seq<SessionId> {
    if ledger == [] then []
    else LiveThen(Live(ledger[..|ledger| - 1]), ledger[|ledger| - 1])
  }

  /** Every broadcast happens with no earlier transaction in doubt and no session outstanding. */
  predicate NeverStacks(ledger: seq<Entry>) {
    forall i :: 0 <= i < |ledger| && ledger[i].Broadcast? ==> Settled(ledger[..i])
  }

  /** Nothing is live and nothing in doubt. */
  predicate Settled(ledger: seq<Entry>) {
    Live(ledger) == [] && AllCommitted(ledger)
  }

  predicate AllCommitted(ledger: seq<Entry>) {
    forall j :: 0 <= j < |ledger| && ledger[j].Broadcast? ==> ledger[j].tx.Committed?
  }

  lemma {:induction false} SumsAppend(a: seq<Entry>, b: seq<Entry>)
    ensures Broadcasts(a + b) == Broadcasts(a) + Broadcasts(b) && Charges(a + b) == Charges(a) + Charges(b)
    decreases |a|
  {
    if a == [] {
      assert a + b == b;
    } else {
      assert (a + b)[1..] == a[1..] + b;
      SumsAppend(a[1..], b);
    }
  }

  /** One candidate's entries: a single broadcast, and its refund if there is one. */
  lemma SumsOfOne(kind: LadderTx, r: Reply)
    requires r.tx.Committed?
    ensures var own := [Broadcast(kind, r.tx)] + Refunds(r);
      Broadcasts(own) == 1 && Charges(own) == if kind.PlanSubscribe? then 1 else 0
  {
    var own, none := [Broadcast(kind, r.tx)] + Refunds(r), [];
    assert own[1..] == Refunds(r);
    assert Broadcasts(none) == 0 && Charges(none) == 0;
    if r.establish.Failed? {
      assert Refunds(r)[1..] == none;
    }
  }

  /** The transaction budget. */
  lemma {:induction false} AtMostThreeBroadcasts(sub: Option<SubscriptionId>, txAttempts: nat, replies: seq<Reply>)
    requires txAttempts < MAX_TX_ATTEMPTS
    ensures Broadcasts(Climb(sub, txAttempts, replies).ledger) <= MAX_TX_ATTEMPTS - txAttempts
    decreases |replies|
  {
    if replies != [] {
      var r := replies[0];
      if !Reaches(r) {
        AtMostThreeBroadcasts(sub, txAttempts, replies[1..]);
      } else if r.tx.Committed? {
        var held := Held(sub, r.tx);
        SumsOfOne(LadderNextTx(sub), r);
        if ShouldTryNextCandidate(EstablishFailure(r.establish), txAttempts + 1) {
          AtMostThreeBroadcasts(held, txAttempts + 1, replies[1..]);
        }
        SumsAppend([Broadcast(LadderNextTx(sub), r.tx)] + Refunds(r), Climb(held, txAttempts + 1, replies[1..]).ledger);
      }
    }
  }

  // ---- only candidates that get as far as a transaction matter ----------------------

  /** The candidates that pass the checks that cost nothing. */
  function Reached(replies: seq<Reply>): (rs: seq<Reply>)
    ensures forall r :: r in rs ==> Reaches(r)
    ensures forall r :: r in rs <==> r in replies && r.preflightOk && r.endpointOk
    decreases |replies|
  {
    if replies == [] then [] else (if Reaches(replies[0]) then [replies[0]] else []) + Reached(replies[1..])
  }

  lemma {:induction false} ChecksAreFree(sub: Option<SubscriptionId>, txAttempts: nat, replies: seq<Reply>)
    ensures Climb(sub, txAttempts, replies) == Climb(sub, txAttempts, Reached(replies))
    decreases |replies|
  {
    if replies != [] {
      var r, rs := replies[0], Reached(replies);
      if !Reaches(r) {
        ChecksAreFree(sub, txAttempts, replies[1..]);
        assert rs == Reached(replies[1..]);
      } else {
        assert rs[0] == r && rs[1..] == Reached(replies[1..]);
        if r.tx.Committed? {
          ChecksAreFree(Held(sub, r.tx), txAttempts + 1, replies[1..]);
        }
      }
    }
  }

  // ---- sessions --------------------------------------------------------------------

  /** A refunded purchase in front changes nothing that comes later. */
  lemma {:induction false} LiveAfterRefund(sent: Entry, back: Entry, rest: seq<Entry>)
    requires sent.Broadcast? && sent.tx.Committed? && back == Refund(sent.tx.sessionId, true)
    ensures Live([sent, back] + rest) == Live(rest)
    decreases |rest|
  {
    var l := [sent, back] + rest;
    if rest == [] {
      assert l == [sent, back] && l[..1] == [sent] && [sent][..0] == [];
      assert Live([sent]) == [sent.tx.sessionId];
    } else {
      var n := |rest| - 1;
      LiveAfterRefund(sent, back, rest[..n]);
      LiveSnoc([sent, back] + rest[..n], rest[n]);
      LiveSnoc(rest[..n], rest[n]);
      assert l == [sent, back] + rest[..n] + [rest[n]] && rest == rest[..n] + [rest[n]];
    }
  }

  /** What one more entry does to the sessions that are live. */
  function LiveThen(before: seq<SessionId>, e: Entry): seq<SessionId> {
    match e
    case Broadcast(_, Committed(id, _)) => before + [id]
    case Broadcast(_, _) => before
    case Refund(id, ok) => if ok && before != [] && before[|before| - 1] == id then before[..|before| - 1] else before
  }

  lemma LiveSnoc(ledger: seq<Entry>, e: Entry)
    ensures Live(ledger + [e]) == LiveThen(Live(ledger), e)
  {
    assert (ledger + [e])[..|ledger|] == ledger;
  }

  lemma LaterEntries(sent: Entry, back: Entry, rest: seq<Entry>)
    requires sent.Broadcast? && sent.tx.Committed? && back.Refund?
    ensures AllCommitted([sent, back] + rest) <==> AllCommitted(rest)
  {
    var l := [sent, back] + rest;
    forall j | 0 <= j < |rest| ensures l[j + 2] == rest[j] {
    }
    if AllCommitted(l) {
      forall j | 0 <= j < |rest| && rest[j].Broadcast? ensures rest[j].tx.Committed? {
        assert l[j + 2].Broadcast?;
      }
    }
  }

  lemma StacksAfterRefund(sent: Entry, back: Entry, rest: seq<Entry>)
    requires sent.Broadcast? && sent.tx.Committed? && back == Refund(sent.tx.sessionId, true)
    ensures NeverStacks([sent, back] + rest) <==> NeverStacks(rest)
  {
    var l := [sent, back] + rest;
    assert forall i :: 0 <= i < |rest| ==> l[i + 2] == rest[i];
    forall i | 0 <= i < |rest|
      ensures Live(l[..i + 2]) == Live(rest[..i])
      ensures Settled(l[..i + 2]) <==> Settled(rest[..i])
    {
      assert l[..i + 2] == [sent, back] + rest[..i];
      LiveAfterRefund(sent, back, rest[..i]);
      LaterEntries(sent, back, rest[..i]);
    }
    assert l[..0] == [];
    if NeverStacks(rest) {
      forall i | 0 <= i < |l| && l[i].Broadcast? ensures Settled(l[..i]) {
        if i >= 2 {
          assert rest[i - 2].Broadcast? && Settled(rest[..i - 2]);
        }
      }
    }
    if NeverStacks(l) {
      forall i | 0 <= i < |rest| && rest[i].Broadcast? ensures Settled(rest[..i]) {
        assert l[i + 2].Broadcast? && Settled(l[..i + 2]);
      }
    }
  }

  /** The session is live, but the handler threw over it. */
  predicate Mislaid(r: Reply) {
    r.tx.Committed? && r.establish.Connected? && !r.recorded
  }

  /** Bought, and given back by a refund that is believed. */
  predicate GivenBack(r: Reply) {
    r.tx.Committed? && r.establish.Failed? && EstablishFailure(r.establish).Handshake?
  }

  /**
   Some candidate's live session is mislaid after nothing but refunds, while budget and a further
   candidate are left.
   */
  predicate BuysBehindLive(txAttempts: nat, reached: seq<Reply>) {
    exists k :: 0 <= k < |reached| - 1 && txAttempts + k + 1 < MAX_TX_ATTEMPTS && MislaidFirst(reached, k)
  }

  predicate MislaidFirst(reached: seq<Reply>, k: nat)
    requires k < |reached|
  {
    Mislaid(reached[k]) && forall j :: 0 <= j < k ==> GivenBack(reached[j])
  }

  lemma BehindLater(txAttempts: nat, reached: seq<Reply>)
    requires reached != [] && GivenBack(reached[0])
    ensures BuysBehindLive(txAttempts, reached) <==> BuysBehindLive(txAttempts + 1, reached[1..])
  {
    var rest := reached[1..];
    if k :| 0 <= k < |reached| - 1 && txAttempts + k + 1 < MAX_TX_ATTEMPTS && MislaidFirst(reached, k) {
      assert rest[k - 1] == reached[k];
      assert MislaidFirst(rest, k - 1);
    }
    if k :| 0 <= k < |rest| - 1 && txAttempts + 1 + k + 1 < MAX_TX_ATTEMPTS && MislaidFirst(rest, k) {
      assert reached[k + 1] == rest[k];
      assert MislaidFirst(reached, k + 1);
    }
  }

  /** One entry: nothing was live before, and a committed session is live after. */
  lemma LiveOfOne(sent: Entry)
    requires sent.Broadcast?
    ensures [sent][..0] == [] && Live([sent]) == if sent.tx.Committed? then [sent.tx.sessionId] else []
  {
  }

  /** A purchase and its refund leave one session at most. */
  lemma LiveOfTwo(sent: Entry, back: Entry)
    requires sent.Broadcast? && sent.tx.Committed? && back.Refund?
    ensures [sent] + [back] == [sent, back] && |Live([sent, back])| <= 1
  {
    LiveOfOne(sent);
    assert [sent, back][..1] == [sent];
  }

  /** A ladder that goes on after a mislaid session stacks exactly if it broadcasts again. */
  lemma StacksBehind(sent: Entry, rest: seq<Entry>)
    requires sent.Broadcast? && sent.tx.Committed?
    requires rest != [] ==> rest[0].Broadcast?
    ensures NeverStacks([sent] + rest) <==> rest == []
  {
    LiveOfOne(sent);
    var l := [sent] + rest;
    if rest == [] {
      assert l == [sent];
    } else {
      assert l[..1] == [sent] && l[1].Broadcast?;
    }
  }

  lemma FirstIsBroadcast(sub: Option<SubscriptionId>, txAttempts: nat, reached: seq<Reply>)
    requires forall r :: r in reached ==> Reaches(r)
    ensures var l := Climb(sub, txAttempts, reached).ledger;
      (l == [] <==> reached == []) && (l != [] ==> l[0].Broadcast?)
  {
    if reached != [] {
      assert reached[0] in reached;
    }
  }

  /** What the ladder still does after its first candidate failed in a way that lets it go on. */
  function Later(sub: Option<SubscriptionId>, txAttempts: nat, reached: seq<Reply>): seq<Entry>
    requires reached != [] && reached[0].tx.Committed?
  {
    if txAttempts + 1 < MAX_TX_ATTEMPTS then Climb(Held(sub, reached[0].tx), txAttempts + 1, reached[1..]).ledger else []
  }

  lemma GoesOn(sub: Option<SubscriptionId>, txAttempts: nat, reached: seq<Reply>)
    requires reached != [] && Reaches(reached[0]) && (GivenBack(reached[0]) || Mislaid(reached[0]))
    ensures var r := reached[0];
      var sent := Broadcast(LadderNextTx(sub), r.tx);
      Climb(sub, txAttempts, reached).ledger
      == (if GivenBack(r) then [sent, Refund(r.tx.sessionId, true)] else [sent]) + Later(sub, txAttempts, reached)
  {
    var r := reached[0];
    var sent := Broadcast(LadderNextTx(sub), r.tx);
    assert [sent] + Refunds(r) == if GivenBack(r) then [sent, Refund(r.tx.sessionId, true)] else [sent];
  }

  /**
   A new session is bought only when every earlier one was refunded and none is in doubt, exactly
   unless a live session is mislaid with a further candidate to try.
   */
  lemma {:induction false} BuysOnlyAfterRefundIff(sub: Option<SubscriptionId>, txAttempts: nat, reached: seq<Reply>)
    requires forall r :: r in reached ==> Reaches(r)
    ensures NeverStacks(Climb(sub, txAttempts, reached).ledger) <==> !BuysBehindLive(txAttempts, reached)
    decreases |reached|
  {
    if reached != [] {
      var r, rest := reached[0], reached[1..];
      assert r in reached;
      var sent := Broadcast(LadderNextTx(sub), r.tx);
      LiveOfOne(sent);
      if GivenBack(r) {
        BehindLater(txAttempts, reached);
        GoesOn(sub, txAttempts, reached);
        StacksAfterRefund(sent, Refund(r.tx.sessionId, true), Later(sub, txAttempts, reached));
        BuysOnlyAfterRefundIff(Held(sub, r.tx), txAttempts + 1, rest);
      } else if Mislaid(r) {
        assert MislaidFirst(reached, 0);
        GoesOn(sub, txAttempts, reached);
        FirstIsBroadcast(Held(sub, r.tx), txAttempts + 1, rest);
        StacksBehind(sent, Later(sub, txAttempts, reached));
      } else {
        assert forall k :: 0 < k < |reached| ==> !MislaidFirst(reached, k);
        OneEntryOrTwo(sent, if r.tx.Committed? then Refunds(r) else []);
      }
    }
  }

  lemma OneEntryOrTwo(sent: Entry, more: seq<Entry>)
    requires sent.Broadcast? && |more| <= 1 && forall e :: e in more ==> e.Refund?
    ensures NeverStacks([sent] + more)
  {
    var l := [sent] + more;
    assert l[..0] == [] && forall i :: 1 <= i < |l| ==> l[i] in more;
  }

  /** The same of the candidates as they are listed: those that fail a free check count for nothing. */
  lemma BuysOnlyAfterRefund(sub: Option<SubscriptionId>, replies: seq<Reply>)
    ensures NeverStacks(Climb(sub, 0, replies).ledger) <==> !BuysBehindLive(0, Reached(replies))
  {
    ChecksAreFree(sub, 0, replies);
    BuysOnlyAfterRefundIff(sub, 0, Reached(replies));
  }

  /**
   What is left over, where nothing is mislaid: exactly the returned session when the ladder
   succeeds, nothing when every candidate was tried, and at most one when it stopped.
   */
  lemma {:induction false} WhatIsLeft(sub: Option<SubscriptionId>, txAttempts: nat, replies: seq<Reply>)
    requires forall r :: r in replies ==> !Mislaid(r)
    ensures var l := Climb(sub, txAttempts, replies);
      && (l.outcome.Success? ==> Live(l.ledger) == [l.outcome.sessionId])
      && (l.outcome.Exhausted? ==> Live(l.ledger) == [])
      && |Live(l.ledger)| <= 1
    decreases |replies|
  {
    if replies != [] {
      var r := replies[0];
      if !Reaches(r) {
        WhatIsLeft(sub, txAttempts, replies[1..]);
      } else {
        var sent := Broadcast(LadderNextTx(sub), r.tx);
        LiveOfOne(sent);
        assert r in replies;
        if r.tx.Committed? && r.establish.Failed? {
          if GivenBack(r) && txAttempts + 1 < MAX_TX_ATTEMPTS {
            WhatIsLeft(Held(sub, r.tx), txAttempts + 1, replies[1..]);
            GoesOn(sub, txAttempts, replies);
            LiveAfterRefund(sent, Refund(r.tx.sessionId, true), Later(sub, txAttempts, replies));
          } else {
            LiveOfTwo(sent, Refund(r.tx.sessionId, r.establish.refunded));
          }
        }
      }
    }
  }

  /** A run that buys a second session beside a live one. */
  lemma MislaidBuysAgain()
    ensures var live := Reply("a", true, true, Committed(1, "7"), Connected, false);
      var next := Reply("b", true, true, Committed(2, ""), Connected, true);
      !NeverStacks(Climb(None, 0, [live, next]).ledger) && Live(Climb(None, 0, [live, next]).ledger) == [1, 2]
  {
    var live := Reply("a", true, true, Committed(1, "7"), Connected, false);
    var next := Reply("b", true, true, Committed(2, ""), Connected, true);
    var one, two := Broadcast(PlanSubscribe, live.tx), Broadcast(SessionOnly, next.tx);
    assert [live, next][1..] == [next];
    var l := Climb(None, 0, [live, next]).ledger;
    GoesOn(None, 0, [live, next]);
    assert Climb(Some("7"), 1, [next]).ledger == [two];
    assert l == [one, two];
    LiveOfOne(one);
    assert l[..1] == [one] && l[1].Broadcast?;
  }

  // ---- how it ends -----------------------------------------------------------------

  /** A live session in the handler's hands. */
  predicate Won(r: Reply) {
    r.tx.Committed? && r.establish.Connected? && r.recorded
  }

  /** The ladder may go on behind this candidate. */
  predicate Passed(r: Reply) {
    GivenBack(r) || Mislaid(r)
  }

  /** Candidate k is the first that was not passed. */
  predicate PassedUpTo(reached: seq<Reply>, k: nat) {
    k <= |reached| && forall j :: 0 <= j < k ==> Passed(reached[j])
  }

  predicate SucceedsAt(reached: seq<Reply>, k: nat) {
    k < |reached| && k < 3 && PassedUpTo(reached, k) && Won(reached[k])
  }

  /** A candidate whose failure is final, or the third that was passed. */
  predicate StopsAt(reached: seq<Reply>, k: nat) {
    k < |reached| && k < 3 && PassedUpTo(reached, k) && !Won(reached[k]) && (Passed(reached[k]) ==> k == 2)
  }

  /** The subscription that is held after the first n candidates: the parameter, or the first id reported. */
  predicate HoldsAfter(sub: Option<SubscriptionId>, reached: seq<Reply>, n: nat, held: Option<SubscriptionId>) {
    n <= |reached| &&
    match sub
    case Some(_) => held == sub
    case None =>
      if held.None? then forall j :: 0 <= j < n ==> Silent(reached[j])
      else exists j :: 0 <= j < n && reached[j].tx.Committed? && reached[j].tx.subscriptionId == held.value
                       && held.value != "" && forall i :: 0 <= i < j ==> Silent(reached[i])
  }

  predicate Silent(r: Reply) {
    r.tx.Committed? ==> r.tx.subscriptionId == ""
  }

  /** What the first candidate makes of the subscription, before the others. */
  lemma HoldsLater(sub: Option<SubscriptionId>, reached: seq<Reply>, n: nat, held: Option<SubscriptionId>)
    requires reached != [] && reached[0].tx.Committed? && 0 < n
    requires HoldsAfter(Held(sub, reached[0].tx), reached[1..], n - 1, held)
    ensures HoldsAfter(sub, reached, n, held)
  {
    var rest := reached[1..];
    if sub.None? {
      if held.None? {
        forall j | 0 <= j < n ensures Silent(reached[j]) {
          assert j > 0 ==> rest[j - 1] == reached[j];
        }
      } else if !Silent(reached[0]) {
        assert reached[0].tx.subscriptionId == held.value;
      } else {
        var j :| 0 <= j < n - 1 && rest[j].tx.Committed? && rest[j].tx.subscriptionId == held.value
                 && forall i :: 0 <= i < j ==> Silent(rest[i]);
        assert reached[j + 1] == rest[j];
        assert forall i :: 0 < i < j + 1 ==> reached[i] == rest[i - 1];
      }
    }
  }

  /** Where a ladder with t transactions behind it comes to its end. */
  predicate EndsAt(t: nat, reached: seq<Reply>, k: nat) {
    k < |reached| && t + k < 3 && PassedUpTo(reached, k)
    && (Won(reached[k]) || !Passed(reached[k]) || t + k == 2)
  }

  lemma EndsLater(t: nat, reached: seq<Reply>, k: nat)
    requires reached != [] && Passed(reached[0]) && t < 2
    ensures k > 0 ==> (EndsAt(t, reached, k) <==> EndsAt(t + 1, reached[1..], k - 1))
    ensures k == 0 ==> !EndsAt(t, reached, k)
  {
    if k > 0 {
      assert forall j :: 0 < j < |reached| ==> reached[j] == reached[1..][j - 1];
      assert forall j :: 0 <= j < |reached| - 1 ==> reached[1..][j] == reached[j + 1];
    }
  }

  /** A ladder with t transactions behind it that ends at k, and how. */
  predicate Ends(sub: Option<SubscriptionId>, t: nat, reached: seq<Reply>, l: Ladder, k: nat) {
    k <= |reached| && PassedUpTo(reached, k)
    && if k == |reached| then l.outcome.Exhausted? && t + k < 3 && HoldsAfter(sub, reached, k, l.subscriptionId)
       else
         && EndsAt(t, reached, k)
         && (Won(reached[k]) ==> l.outcome.Success? && l.outcome.sessionId == reached[k].tx.sessionId
                                 && l.outcome.subscriptionId == (if l.subscriptionId.Some? then l.subscriptionId.value else ""))
         && (!Won(reached[k]) ==> l.outcome.Stopped?)
         && HoldsAfter(sub, reached, if reached[k].tx.Committed? then k + 1 else k, l.subscriptionId)
  }

  lemma ClimbGoesOn(sub: Option<SubscriptionId>, t: nat, reached: seq<Reply>)
    requires reached != [] && Reaches(reached[0]) && Passed(reached[0]) && t < 2
    ensures var l, l' := Climb(sub, t, reached), Climb(Held(sub, reached[0].tx), t + 1, reached[1..]);
      l.outcome == l'.outcome && l.subscriptionId == l'.subscriptionId
  {
  }

  lemma PassedLater(reached: seq<Reply>, k: nat)
    requires reached != [] && Passed(reached[0]) && k <= |reached| - 1 && PassedUpTo(reached[1..], k)
    ensures PassedUpTo(reached, k + 1)
  {
    assert forall j :: 0 < j < |reached| ==> reached[j] == reached[1..][j - 1];
  }

  lemma EndsOneLater(sub: Option<SubscriptionId>, t: nat, reached: seq<Reply>, l: Ladder, l': Ladder, k: nat)
    requires reached != [] && Reaches(reached[0]) && Passed(reached[0]) && t < 2
    requires Ends(Held(sub, reached[0].tx), t + 1, reached[1..], l', k)
    requires l.outcome == l'.outcome && l.subscriptionId == l'.subscriptionId
    ensures Ends(sub, t, reached, l, k + 1)
  {
    var rest := reached[1..];
    EndsLater(t, reached, k + 1);
    PassedLater(reached, k);
    assert k < |rest| ==> reached[k + 1] == rest[k];
    HoldsLater(sub, reached, if k < |rest| && rest[k].tx.Committed? then k + 2 else k + 1, l.subscriptionId);
  }

  lemma EndsHere(sub: Option<SubscriptionId>, t: nat, reached: seq<Reply>)
    requires t < 3 && reached != [] && Reaches(reached[0]) && !(Passed(reached[0]) && t < 2)
    ensures Ends(sub, t, reached, Climb(sub, t, reached), 0)
  {
    var r := reached[0];
    if r.tx.Committed? {
      assert HoldsAfter(Held(sub, r.tx), reached[1..], 0, Held(sub, r.tx));
      HoldsLater(sub, reached, 1, Held(sub, r.tx));
    }
  }

  /** Where it ends. */
  lemma {:induction false} ClimbEnds(sub: Option<SubscriptionId>, t: nat, reached: seq<Reply>) returns (k: nat)
    requires t < 3 && forall r :: r in reached ==> Reaches(r)
    ensures Ends(sub, t, reached, Climb(sub, t, reached), k)
    decreases |reached|
  {
    if reached == [] {
      k := 0;
    } else {
      assert reached[0] in reached;
      if Passed(reached[0]) && t < 2 {
        k := ClimbEnds(Held(sub, reached[0].tx), t + 1, reached[1..]);
        ClimbGoesOn(sub, t, reached);
        EndsOneLater(sub, t, reached, Climb(sub, t, reached), Climb(Held(sub, reached[0].tx), t + 1, reached[1..]), k);
        k := k + 1;
      } else {
        k := 0;
        EndsHere(sub, t, reached);
      }
    }
  }

  lemma OneEnd(reached: seq<Reply>, i: nat, k: nat)
    requires EndsAt(0, reached, i) && EndsAt(0, reached, k)
    ensures i == k
  {
  }

  /**
   How smart connect ends, by the answers alone. It succeeds if and only if one of the first three
   candidates that get as far as a transaction is won and every earlier one was passed, and then it
   hands back that candidate's session with the subscription it rides. It is exhausted if and only if
   there are fewer than three and all were passed. In all other cases it stops with the failure.
   */
  lemma LadderOutcome(sub: Option<SubscriptionId>, replies: seq<Reply>)
    ensures var l, reached := Climb(sub, 0, replies), Reached(replies);
      && (l.outcome.Success? <==> exists k: nat :: SucceedsAt(reached, k))
      && (forall k: nat :: SucceedsAt(reached, k) ==>
            && l.outcome.Success? && l.outcome.sessionId == reached[k].tx.sessionId
            && HoldsAfter(sub, reached, k + 1, l.subscriptionId)
            && l.outcome.subscriptionId == (if l.subscriptionId.Some? then l.subscriptionId.value else ""))
      && (l.outcome.Exhausted? <==> |reached| < 3 && PassedUpTo(reached, |reached|))
      && (l.outcome.Exhausted? ==> HoldsAfter(sub, reached, |reached|, l.subscriptionId))
      && (l.outcome.Stopped? <==> exists k: nat :: StopsAt(reached, k))
      && (forall k: nat :: StopsAt(reached, k) ==>
            HoldsAfter(sub, reached, if reached[k].tx.Committed? then k + 1 else k, l.subscriptionId))
  {
    var reached := Reached(replies);
    ChecksAreFree(sub, 0, replies);
    var k := ClimbEnds(sub, 0, reached);
    forall i: nat | SucceedsAt(reached, i) || StopsAt(reached, i) ensures i == k {
      assert EndsAt(0, reached, i);
      if k < |reached| {
        OneEnd(reached, i, k);
      }
    }
    if k < |reached| {
      assert SucceedsAt(reached, k) || StopsAt(reached, k);
    }
  }

  // ---- the plan price --------------------------------------------------------------

  /**
   The plan is charged twice: nothing was subscribed before, the first candidate to get as far as
   a transaction commits without reporting a subscription id, the ladder goes on, and there is
   another such candidate.
   */
  predicate ChargesTwice(sub: Option<SubscriptionId>, reached: seq<Reply>) {
    && sub.None? && |reached| > 1
    && (GivenBack(reached[0]) || Mislaid(reached[0])) && reached[0].tx.subscriptionId == ""
  }

  /** Once a subscription is held nothing is charged. */
  lemma {:induction false} NoChargeWhileHeld(sub: Option<SubscriptionId>, txAttempts: nat, replies: seq<Reply>)
    requires sub.Some?
    ensures Charges(Climb(sub, txAttempts, replies).ledger) == 0
    decreases |replies|
  {
    if replies != [] {
      var r := replies[0];
      if !Reaches(r) {
        NoChargeWhileHeld(sub, txAttempts, replies[1..]);
      } else if r.tx.Committed? {
        NoChargeWhileHeld(sub, txAttempts + 1, replies[1..]);
        SumsOfOne(SessionOnly, r);
        SumsAppend([Broadcast(SessionOnly, r.tx)] + Refunds(r), Climb(sub, txAttempts + 1, replies[1..]).ledger);
      }
    }
  }

  /** With no subscription held, the next transaction is a charge. */
  lemma ChargedWhenReached(txAttempts: nat, reached: seq<Reply>)
    requires forall r :: r in reached ==> Reaches(r)
    ensures Charges(Climb(None, txAttempts, reached).ledger) >= 1 <==> reached != []
  {
    if reached != [] {
      assert reached[0] in reached;
      var l := Climb(None, txAttempts, reached).ledger;
      assert l[0].Broadcast? && l[0].kind.PlanSubscribe?;
    }
  }

  lemma {:induction false} FirstCommitted(reached: seq<Reply>)
    requires reached != [] && reached[0].tx.Committed? && forall r :: r in reached ==> Reaches(r)
    ensures Charges(Climb(None, 0, reached).ledger) <= 1 <==> !ChargesTwice(None, reached)
  {
    var r, rest := reached[0], reached[1..];
    assert r in reached;
    var held := Held(None, r.tx);
    SumsOfOne(PlanSubscribe, r);
    SumsAppend([Broadcast(PlanSubscribe, r.tx)] + Refunds(r), Climb(held, 1, rest).ledger);
    if held.Some? {
      NoChargeWhileHeld(held, 1, rest);
    } else {
      ChargedWhenReached(1, rest);
    }
  }

  /** The money rule, exactly: the plan price is charged at most once unless ChargesTwice. */
  lemma PriceChargedOnceIff(sub: Option<SubscriptionId>, replies: seq<Reply>)
    ensures Charges(Climb(sub, 0, replies).ledger) <= 1 <==> !ChargesTwice(sub, Reached(replies))
  {
    ChecksAreFree(sub, 0, replies);
    var reached := Reached(replies);
    if sub.Some? {
      NoChargeWhileHeld(sub, 0, reached);
    } else if reached != [] && reached[0].tx.Committed? {
      FirstCommitted(reached);
    } else if reached != [] {
      assert reached[0] in reached;
    }
  }

  /** The documented rule holds whenever a committed plan subscription reports its id. */
  lemma PriceChargedOnce(sub: Option<SubscriptionId>, replies: seq<Reply>)
    requires forall i :: 0 <= i < |replies| && replies[i].tx.Committed? ==> replies[i].tx.subscriptionId != ""
    ensures Charges(Climb(sub, 0, replies).ledger) <= 1
  {
    PriceChargedOnceIff(sub, replies);
    var reached := Reached(replies);
    if reached != [] {
      assert reached[0] in replies;
    }
  }

  /** A run on which the plan price leaves the wallet twice. */
  lemma MissingIdChargesTwice()
    ensures var silent := Reply("a", true, true, Committed(1, ""), Failed(true, false), true);
      var next := Reply("b", true, true, Committed(2, "7"), Connected, true);
      Charges(Climb(None, 0, [silent, next]).ledger) == 2
  {
    var silent := Reply("a", true, true, Committed(1, ""), Failed(true, false), true);
    var next := Reply("b", true, true, Committed(2, "7"), Connected, true);
    assert [silent, next][1..] == [next];
    SumsOfOne(PlanSubscribe, silent);
    SumsAppend([Broadcast(PlanSubscribe, silent.tx)] + Refunds(silent), Climb(None, 1, [next]).ledger);
  }
}
