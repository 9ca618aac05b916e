/** Grading and choosing RPC endpoints: src/shared/rpc-health.ts. */
module RpcHealth {
  import opened Common

  datatype Probe = Probe(reachable: bool, latencyMs: Option<nat>, chainId: Option<string>, height: Option<nat>,
                         blockAgeSec: Option<nat>)

  datatype Candidate = Candidate(endpoint: string, probe: Probe, aggregatorHealthy: Option<bool>)

  datatype State = Ok | Degraded | Down | Suspended | Blocked | Unknown

  const SLOW_LATENCY_MS: nat := 2500
  const STALE_BLOCK_AGE_SEC: nat := 120
  const EXPECTED_CHAIN_ID := "sentinelhub-2"
  const AUTO_HEIGHT_TOLERANCE_BLOCKS: nat := 10
  const AUTO_KEEP_MARGIN_MS: nat := 250
  const MAX_SAFE_INTEGER: nat := 9007199254740991

  function ClassifyRpc(p: Probe): (s: State)
    ensures s.Ok? || s.Degraded? || s.Down?
  {
    if !p.reachable then Down
    else if p.chainId.Some? && p.chainId.value != EXPECTED_CHAIN_ID then Down
    else if p.blockAgeSec.Some? && p.blockAgeSec.value > STALE_BLOCK_AGE_SEC then Degraded
    else if p.latencyMs.Some? && p.latencyMs.value >= SLOW_LATENCY_MS then Degraded
    else State.Ok
  }

  /** Well: on the right chain, with a block of the last two minutes, within two and a half seconds. */
  lemma ClassifyMeans(p: Probe)
    ensures ClassifyRpc(p).Ok?
       <==> p.reachable && (p.chainId.Some? ==> p.chainId.value == "sentinelhub-2")
            && (p.blockAgeSec.Some? ==> p.blockAgeSec.value <= 120) && (p.latencyMs.Some? ==> p.latencyMs.value < 2500)
    ensures ClassifyRpc(p).Down? <==> !p.reachable || (p.chainId.Some? && p.chainId.value != "sentinelhub-2")
  {
  }

  predicate IsFault(s: State) {
    s.Down? || s.Degraded?
  }

  predicate NeedsConfirmation(probed: State, published: State) {
    !probed.Ok? && !IsFault(published)
  }

  // ---- choosing --------------------------------------------------------------------

  function Latency(c: Candidate): nat {
    if c.probe.latencyMs.Some? then c.probe.latencyMs.value else MAX_SAFE_INTEGER
  }

  predicate Healthy(c: Candidate) {
    ClassifyRpc(c.probe).Ok?
  }

  function Filter(cs: seq<Candidate>, f: Candidate -> bool): (r: seq<Candidate>)
    ensures forall c :: c in r <==> c in cs && f(c)
    decreases |cs|
  {
    if cs == [] then [] else (if f(cs[0]) then [cs[0]] else []) + Filter(cs[1..], f)
  }

  /** The first of a stable sort by latency. */
  function Fastest(cs: seq<Candidate>): (r: Candidate)
    requires cs != []
    ensures r in cs && forall c :: c in cs ==> Latency(r) <= Latency(c)
    decreases |cs|
  {
    if |cs| == 1 then cs[0]
    else
      var rest := Fastest(cs[1..]);
      assert cs == [cs[0]] + cs[1..];
      if Latency(cs[0]) <= Latency(rest) then cs[0] else rest
  }

  /** The first of those with the least latency stands at i. */
  ghost predicate FirstAt(cs: seq<Candidate>, best: Candidate, i: int) {
    0 <= i < |cs| && cs[i] == best && forall j :: 0 <= j < i ==> Latency(cs[j]) > Latency(best)
  }

  lemma FirstAtLater(cs: seq<Candidate>, best: Candidate, i: int)
    requires cs != [] && FirstAt(cs[1..], best, i) && Latency(cs[0]) > Latency(best)
    ensures FirstAt(cs, best, i + 1)
  {
    forall j | 0 <= j < i + 1 ensures Latency(cs[j]) > Latency(best) {
      if j > 0 {
        assert cs[j] == cs[1..][j - 1];
      }
    }
  }

  /** Of equally fast ones it is the first. */
  lemma {:induction false} FastestIsFirst(cs: seq<Candidate>)
    requires cs != []
    ensures exists i :: FirstAt(cs, Fastest(cs), i)
    decreases |cs|
  {
    if Fastest(cs) == cs[0] {
      assert FirstAt(cs, cs[0], 0);
    } else {
      FastestIsFirst(cs[1..]);
      var i :| FirstAt(cs[1..], Fastest(cs[1..]), i);
      FirstAtLater(cs, Fastest(cs), i);
    }
  }

  /** The healthy ones if there are any. */
  function Tier(cs: seq<Candidate>): (r: seq<Candidate>)
    ensures cs != [] ==> r != []
    ensures forall c :: c in r ==> c in cs
  {
    var healthy := Filter(cs, Healthy);
    if healthy != [] then healthy else cs
  }

  lemma TierMeans(cs: seq<Candidate>, c: Candidate)
    requires cs != []
    ensures Healthy(Fastest(Tier(cs))) <==> exists d :: d in cs && Healthy(d)
    ensures c in cs && Healthy(c) ==> Latency(Fastest(Tier(cs))) <= Latency(c)
    ensures c in cs && !Healthy(Fastest(Tier(cs))) ==> Latency(Fastest(Tier(cs))) <= Latency(c) && !Healthy(c)
  {
    var healthy := Filter(cs, Healthy);
    if d :| d in cs && Healthy(d) {
      assert d in healthy;
    }
    if healthy != [] {
      assert healthy[0] in healthy;
    }
  }

  /** pickBestRpc: what the failover banner offers. */
  function PickBestRpc(cs: seq<Candidate>, current: string): (r: Option<Candidate>)
    ensures r.Some? ==> r.value in cs && r.value.endpoint != current && r.value.aggregatorHealthy != Some(false)
                        && !ClassifyRpc(r.value.probe).Down?
  {
    var usable := Filter(cs, (c: Candidate) => c.endpoint != current && c.aggregatorHealthy != Some(false) && !ClassifyRpc(c.probe).Down?);
    if usable == [] then None else Some(Fastest(Tier(usable)))
  }

  /** The tallest height that anyone reported. */
  function Tallest(cs: seq<Candidate>): (h: Option<nat>)
    ensures h.None? <==> forall c :: c in cs ==> c.probe.height.None?
    ensures h.Some? ==> (forall c :: c in cs && c.probe.height.Some? ==> c.probe.height.value <= h.value)
                        && exists c :: c in cs && c.probe.height == h
    decreases |cs|
  {
    if cs == [] then None
    else
      var rest := Tallest(cs[1..]);
      assert cs == [cs[0]] + cs[1..];
      if cs[0].probe.height.None? || (rest.Some? && cs[0].probe.height.value <= rest.value) then rest
      else
        assert cs[0] in cs;
        cs[0].probe.height
  }

  predicate QualifiesForAuto(c: Candidate, minHeight: int) {
    && c.probe.reachable && c.probe.chainId == Some(EXPECTED_CHAIN_ID) && c.aggregatorHealthy != Some(false)
    && c.probe.height.Some? && c.probe.height.value >= minHeight
  }

  function FindCurrent(cs: seq<Candidate>, endpoint: string): (r: Option<Candidate>)
    ensures r.Some? ==> r.value in cs && r.value.endpoint == endpoint
    ensures r.None? ==> forall c :: c in cs ==> c.endpoint != endpoint
    decreases |cs|
  {
    if cs == [] then None
    else
      assert cs == [cs[0]] + cs[1..];
      if cs[0].endpoint == endpoint then Some(cs[0]) else FindCurrent(cs[1..], endpoint)
  }

  function Rivals(cs: seq<Candidate>, current: string, minHeight: int): seq<Candidate> {
    Filter(cs, (c: Candidate) => c.endpoint != current && QualifiesForAuto(c, minHeight))
  }

  /** The best rival of an endpoint. */
  function Challenger(cs: seq<Candidate>, current: string, minHeight: int): (r: Option<Candidate>)
    ensures r.Some? <==> Rivals(cs, current, minHeight) != []
    ensures r.Some? ==> r.value in Rivals(cs, current, minHeight)
  {
    var others := Rivals(cs, current, minHeight);
    if others == [] then None else Some(Fastest(Tier(others)))
  }

  /** Does the best rival take over? */
  predicate TakesOver(best: Candidate, c: Option<Candidate>, minHeight: int) {
    if c.None? || !QualifiesForAuto(c.value, minHeight) then true
    else if Healthy(c.value) then
      && Healthy(best) && c.value.probe.latencyMs.Some? && best.probe.latencyMs.Some?
      && best.probe.latencyMs.value + AUTO_KEEP_MARGIN_MS < c.value.probe.latencyMs.value
    else Healthy(best)
  }

  function MinHeight(cs: seq<Candidate>): int
    requires Tallest(cs).Some?
  {
    Tallest(cs).value - AUTO_HEIGHT_TOLERANCE_BLOCKS
  }

  /** pickAutoRpc: the endpoint to switch to, or None to stay. */
  function PickAutoRpc(cs: seq<Candidate>, current: string): Option<string> {
    if Tallest(cs).None? then None
    else
      var best := Challenger(cs, current, MinHeight(cs));
      if best.Some? && TakesOver(best.value, FindCurrent(cs, current), MinHeight(cs)) then Some(best.value.endpoint) else None
  }

  // ---- stickiness ------------------------------------------------------------------

  /** probeFeedCandidates probes each endpoint once. */
  predicate Distinct(cs: seq<Candidate>) {
    forall i, j :: 0 <= i < j < |cs| ==> cs[i].endpoint != cs[j].endpoint
  }

  lemma DistinctFind(cs: seq<Candidate>, c: Candidate)
    requires Distinct(cs) && c in cs
    ensures FindCurrent(cs, c.endpoint) == Some(c)
  {
    var found := FindCurrent(cs, c.endpoint);
    var i :| 0 <= i < |cs| && cs[i] == c;
    var j :| 0 <= j < |cs| && cs[j] == found.value;
    assert i == j;
  }

  lemma RivalsMean(cs: seq<Candidate>, current: string, minHeight: int, c: Candidate)
    ensures c in Rivals(cs, current, minHeight) <==> c in cs && c.endpoint != current && QualifiesForAuto(c, minHeight)
  {
  }

  /** The best rival among all: a healthy one if there is any, and no slower than any of its tier. */
  lemma ChallengerBest(cs: seq<Candidate>, current: string, minHeight: int, c: Candidate)
    requires c in cs && c.endpoint != current && QualifiesForAuto(c, minHeight)
    ensures var best := Challenger(cs, current, minHeight);
      && best.Some?
      && (Healthy(c) ==> Healthy(best.value))
      && (Healthy(c) == Healthy(best.value) ==> Latency(best.value) <= Latency(c))
  {
    RivalsMean(cs, current, minHeight, c);
    TierMeans(Rivals(cs, current, minHeight), c);
  }

  lemma ChallengerIs(cs: seq<Candidate>, current: string, minHeight: int)
    requires Challenger(cs, current, minHeight).Some?
    ensures var best := Challenger(cs, current, minHeight).value;
      best in cs && best.endpoint != current && QualifiesForAuto(best, minHeight)
  {
    RivalsMean(cs, current, minHeight, Challenger(cs, current, minHeight).value);
  }

  predicate InConsensus(cs: seq<Candidate>, c: Candidate) {
    && c.probe.reachable && c.probe.chainId == Some("sentinelhub-2") && c.probe.height.Some?
    && forall d :: d in cs && d.probe.height.Some? ==> d.probe.height.value <= c.probe.height.value + 10
  }

  /** Whoever is switched to is on the right chain and within ten blocks of the tallest height. */
  lemma TargetInConsensus(cs: seq<Candidate>, current: string)
    requires PickAutoRpc(cs, current).Some?
    ensures exists c :: c in cs && c.endpoint == PickAutoRpc(cs, current).value && c.endpoint != current
                        && c.aggregatorHealthy != Some(false) && InConsensus(cs, c)
  {
    ChallengerIs(cs, current, MinHeight(cs));
    assert InConsensus(cs, Challenger(cs, current, MinHeight(cs)).value);
  }

  /** A rival in consensus that is fast enough to take over from a healthy endpoint. */
  predicate Beats(cs: seq<Candidate>, r: Candidate, c: Candidate)
    requires Tallest(cs).Some?
  {
    && r in cs && r.endpoint != c.endpoint && QualifiesForAuto(r, MinHeight(cs))
    && Healthy(r) && r.probe.latencyMs.Some? && c.probe.latencyMs.Some?
    && r.probe.latencyMs.value + 250 < c.probe.latencyMs.value
  }

  /** A rival in consensus. */
  predicate Rival(cs: seq<Candidate>, current: string, r: Candidate)
    requires Tallest(cs).Some?
  {
    r in cs && r.endpoint != current && QualifiesForAuto(r, MinHeight(cs))
  }

  /** An endpoint that is not among the candidates, or not in consensus, is left for any rival at all. */
  lemma LeavesUnfitIff(cs: seq<Candidate>, current: string)
    requires Tallest(cs).Some?
    requires FindCurrent(cs, current).None? || !QualifiesForAuto(FindCurrent(cs, current).value, MinHeight(cs))
    ensures PickAutoRpc(cs, current).Some? <==> exists r :: Rival(cs, current, r)
  {
    if PickAutoRpc(cs, current).Some? {
      ChallengerIs(cs, current, MinHeight(cs));
      assert Rival(cs, current, Challenger(cs, current, MinHeight(cs)).value);
    }
    if r :| Rival(cs, current, r) {
      ChallengerBest(cs, current, MinHeight(cs), r);
    }
  }

  /** A degraded endpoint in consensus is left exactly for a healthy rival. */
  lemma LeavesDegradedIff(cs: seq<Candidate>, c: Candidate)
    requires Distinct(cs) && c in cs && !Healthy(c) && Tallest(cs).Some? && QualifiesForAuto(c, MinHeight(cs))
    ensures PickAutoRpc(cs, c.endpoint).Some? <==> exists r :: Rival(cs, c.endpoint, r) && Healthy(r)
  {
    DistinctFind(cs, c);
    if PickAutoRpc(cs, c.endpoint).Some? {
      ChallengerIs(cs, c.endpoint, MinHeight(cs));
      assert Rival(cs, c.endpoint, Challenger(cs, c.endpoint, MinHeight(cs)).value);
    }
    if r :| Rival(cs, c.endpoint, r) && Healthy(r) {
      ChallengerBest(cs, c.endpoint, MinHeight(cs), r);
    }
  }

  /** Whoever is switched to is the best there is: healthy if any rival is, and no slower than any as well. */
  lemma TargetIsBest(cs: seq<Candidate>, current: string)
    requires Tallest(cs).Some? && PickAutoRpc(cs, current).Some?
    ensures exists best :: Rival(cs, current, best) && best.endpoint == PickAutoRpc(cs, current).value
              && forall r :: Rival(cs, current, r) ==>
                   (Healthy(r) ==> Healthy(best))
                   && (Healthy(r) == Healthy(best) && best.probe.latencyMs.Some? && r.probe.latencyMs.Some?
                       && r.probe.latencyMs.value <= MAX_SAFE_INTEGER
                       ==> best.probe.latencyMs.value <= r.probe.latencyMs.value)
  {
    var best := Challenger(cs, current, MinHeight(cs)).value;
    ChallengerIs(cs, current, MinHeight(cs));
    assert Rival(cs, current, best);
    forall r | Rival(cs, current, r)
      ensures (Healthy(r) ==> Healthy(best)) && (Healthy(r) == Healthy(best) ==> Latency(best) <= Latency(r))
    {
      ChallengerBest(cs, current, MinHeight(cs), r);
    }
  }

  /** To qualify: reachable, on the right chain, not known to fail, and high enough. */
  lemma QualifiesMeans(c: Candidate, minHeight: int)
    ensures QualifiesForAuto(c, minHeight)
       <==> c.probe.reachable && c.probe.chainId == Some("sentinelhub-2") && c.aggregatorHealthy != Some(false)
            && c.probe.height.Some? && c.probe.height.value >= minHeight
    ensures forall cs :: Tallest(cs).Some? ==> MinHeight(cs) == Tallest(cs).value - 10
  {
  }

  /** Nobody's height is known: nothing is switched. */
  lemma NoHeightNoSwitch(cs: seq<Candidate>, current: string)
    requires forall c :: c in cs ==> c.probe.height.None?
    ensures PickAutoRpc(cs, current).None?
  {
  }

  /** What a failover banner may offer. */
  predicate Offerable(cs: seq<Candidate>, current: string, c: Candidate) {
    c in cs && c.endpoint != current && c.aggregatorHealthy != Some(false) && c.probe.reachable
    && (c.probe.chainId.Some? ==> c.probe.chainId.value == "sentinelhub-2")
  }

  /** Something is offered exactly when something can be, and then the best: healthy if any is, and the fastest of those. */
  lemma BestOffer(cs: seq<Candidate>, current: string, c: Candidate)
    requires Offerable(cs, current, c)
    ensures var best := PickBestRpc(cs, current);
      && best.Some? && Offerable(cs, current, best.value)
      && (Healthy(c) ==> Healthy(best.value)) && (Healthy(c) == Healthy(best.value) ==> Latency(best.value) <= Latency(c))
  {
    var usable := Filter(cs, (c: Candidate) => c.endpoint != current && c.aggregatorHealthy != Some(false) && !ClassifyRpc(c.probe).Down?);
    ClassifyMeans(c.probe);
    assert c in usable;
    TierMeans(usable, c);
    ClassifyMeans(PickBestRpc(cs, current).value.probe);
  }

  /** A healthy endpoint in consensus is left exactly when a rival in consensus beats it by the margin. */
  lemma LeavesHealthyIff(cs: seq<Candidate>, c: Candidate)
    requires Distinct(cs) && c in cs && Healthy(c) && Tallest(cs).Some? && QualifiesForAuto(c, MinHeight(cs))
    requires c.probe.latencyMs.Some? ==> c.probe.latencyMs.value <= MAX_SAFE_INTEGER
    ensures PickAutoRpc(cs, c.endpoint).Some? <==> exists r :: Beats(cs, r, c)
  {
    DistinctFind(cs, c);
    if PickAutoRpc(cs, c.endpoint).Some? {
      ChallengerIs(cs, c.endpoint, MinHeight(cs));
      assert Beats(cs, Challenger(cs, c.endpoint, MinHeight(cs)).value, c);
    }
    if r :| Beats(cs, r, c) {
      ChallengerBest(cs, c.endpoint, MinHeight(cs), r);
    }
  }

  /** A switch that happens: a healthy endpoint gives way to one that is 900 ms faster. */
  lemma FasterTakesOver()
    ensures var slow := Candidate("a", Probe(true, Some(1000), Some(EXPECTED_CHAIN_ID), Some(10), Some(5)), None);
      var fast := Candidate("b", Probe(true, Some(100), Some(EXPECTED_CHAIN_ID), Some(10), Some(5)), None);
      PickAutoRpc([slow, fast], "a") == Some("b")
  {
    var slow := Candidate("a", Probe(true, Some(1000), Some(EXPECTED_CHAIN_ID), Some(10), Some(5)), None);
    var fast := Candidate("b", Probe(true, Some(100), Some(EXPECTED_CHAIN_ID), Some(10), Some(5)), None);
    var cs := [slow, fast];
    assert cs[0] == slow && cs[1] == fast;
    assert Beats(cs, fast, slow);
    LeavesHealthyIff(cs, slow);
    ChallengerIs(cs, "a", MinHeight(cs));
  }

  /** When everyone lags together, an endpoint in consensus is kept. */
  lemma StallSwitchesNothing(cs: seq<Candidate>, c: Candidate)
    requires Distinct(cs) && c in cs && Tallest(cs).Some? && QualifiesForAuto(c, MinHeight(cs))
    requires forall d :: d in cs ==> !Healthy(d)
    ensures PickAutoRpc(cs, c.endpoint).None?
  {
    DistinctFind(cs, c);
    if Challenger(cs, c.endpoint, MinHeight(cs)).Some? {
      ChallengerIs(cs, c.endpoint, MinHeight(cs));
    }
  }

  /** Against the endpoint just left: it no longer qualifies, or it is slower or degraded. */
  lemma LeftLoses(cs: seq<Candidate>, c: Candidate, b: Candidate)
    requires Distinct(cs) && c in cs && Tallest(cs).Some? && QualifiesForAuto(c, MinHeight(cs))
    requires Challenger(cs, c.endpoint, MinHeight(cs)) == Some(b) && TakesOver(b, Some(c), MinHeight(cs))
    requires QualifiesForAuto(b, MinHeight(cs))
    ensures !TakesOver(c, Some(b), MinHeight(cs))
  {
  }

  /** Against a third: it was a rival before, and did not win then. */
  lemma ThirdLoses(cs: seq<Candidate>, current: string, b: Candidate, d: Candidate)
    requires Tallest(cs).Some? && Challenger(cs, current, MinHeight(cs)) == Some(b)
    requires d in cs && d.endpoint != current && QualifiesForAuto(d, MinHeight(cs)) && QualifiesForAuto(b, MinHeight(cs))
    ensures !TakesOver(d, Some(b), MinHeight(cs))
  {
    ChallengerBest(cs, current, MinHeight(cs), d);
  }

  /**
   No flapping: for one set of probes, an endpoint that was just switched to is kept. The one
   left behind cannot win it back, nor can a third.
   */
  lemma NoFlap(cs: seq<Candidate>, current: string)
    requires Distinct(cs) && PickAutoRpc(cs, current).Some?
    ensures PickAutoRpc(cs, PickAutoRpc(cs, current).value).None?
  {
    var m := MinHeight(cs);
    var b := Challenger(cs, current, m).value;
    ChallengerIs(cs, current, m);
    DistinctFind(cs, b);
    if Challenger(cs, b.endpoint, m).Some? {
      var best := Challenger(cs, b.endpoint, m).value;
      ChallengerIs(cs, b.endpoint, m);
      if best.endpoint == current {
        DistinctFind(cs, best);
        LeftLoses(cs, best, b);
      } else {
        ThirdLoses(cs, current, b, best);
      }
    }
  }
}
