/**
 Provider arithmetic of src/shared/provider-economics.ts: whole udvpn in decimal strings, shares
 scaled by 10^18. None stands for a thrown error.
 */
module Economics {
  import opened Common
  import opened Text

  const DEC_ONE: nat := 1_000_000_000_000_000_000
  const HOURS_PER_DAY: nat := 24

  datatype Lease = Lease(hourlyPrice: string, hours: nat, maxHours: nat)

  datatype Burn = Burn(hourly: string, daily: string, activeLeases: nat)

  datatype BreakEven = Subscribers(count: nat) | NoBurn | Never

  /** A share of 10^18 at most. */
  function ParseDecShare(raw: string): (share: Option<nat>)
    ensures share.Some? ==> share.value <= DEC_ONE
  {
    if Digits(raw) && Num(raw) <= DEC_ONE then Some(Num(raw)) else None
  }

  predicate IsActive(l: Lease) {
    l.hours < l.maxHours
  }

  /** Every price is a whole number; the code throws on the first active one that is not. */
  predicate Priced(ls: seq<Lease>) {
    forall i :: 0 <= i < |ls| && IsActive(ls[i]) ==> Digits(ls[i].hourlyPrice)
  }

  function HourlyOf(ls: seq<Lease>): nat
    requires Priced(ls)
    decreases |ls|
  {
    if ls == [] then 0 else (if IsActive(ls[0]) then Num(ls[0].hourlyPrice) else 0) + HourlyOf(ls[1..])
  }

  function Times(a: nat, b: nat): nat {
    a * b
  }

  function CommittedOf(ls: seq<Lease>): nat
    requires Priced(ls)
    decreases |ls|
  {
    if ls == [] then 0
    else (if IsActive(ls[0]) then Times(Num(ls[0].hourlyPrice), ls[0].maxHours - ls[0].hours) else 0) + CommittedOf(ls[1..])
  }

  function ActiveCount(ls: seq<Lease>): nat
    decreases |ls|
  {
    if ls == [] then 0 else (if IsActive(ls[0]) then 1 else 0) + ActiveCount(ls[1..])
  }

  function ComputeBurn(ls: seq<Lease>): Option<Burn> {
    if !Priced(ls) then None
    else Some(Burn(Dec(HourlyOf(ls)), Dec(HourlyOf(ls) * HOURS_PER_DAY), ActiveCount(ls)))
  }

  function ComputeCommitted(ls: seq<Lease>): Option<string> {
    if Priced(ls) then Some(Dec(CommittedOf(ls))) else None
  }

  /** Rounded down. */
  function Net(price: nat, share: nat): nat
    requires share <= DEC_ONE
  {
    price * (DEC_ONE - share) / DEC_ONE
  }

  function NetOfStakingShare(price: string, share: nat): Option<string>
    requires share <= DEC_ONE
  {
    if Digits(price) then Some(Dec(Net(Num(price), share))) else None
  }

  /** What a provider nets of a price, with the share as it comes off the wire. */
  function NetPrice(price: string, rawShare: string): Option<string> {
    var share := ParseDecShare(rawShare);
    if share.None? then None else NetOfStakingShare(price, share.value)
  }

  // ---- JavaScript numbers ----------------------------------------------------------

  /** Two to the 53rd: up to here a JavaScript number holds every whole number. */
  const SAFE: nat := 9007199254740992

  /** The distance of neighbouring numbers at n: the least power of two from u on that leaves 53 bits. */
  function Spacing(n: nat, u: nat): (r: nat)
    requires u > 0
    ensures r >= u && n < SAFE * r
    decreases if n < SAFE * u then 0 else n - SAFE * u + 1
  {
    if n < SAFE * u then u else Spacing(n, 2 * u)
  }

  /** Number(n): the nearest one, and of two the even one. */
  function ToNumber(n: nat): nat {
    var u := Spacing(n, 1);
    var q, r := n / u, n % u;
    if 2 * r < u || (2 * r == u && q % 2 == 0) then Times(q, u) else Times(q + 1, u)
  }

  /** A JavaScript number holds it. */
  predicate Representable(n: nat) {
    n % Spacing(n, 1) == 0
  }

  lemma RepresentableIff(n: nat)
    ensures ToNumber(n) == n <==> Representable(n)
    ensures n <= SAFE ==> Representable(n)
  {
    var u := Spacing(n, 1);
    var q, r := n / u, n % u;
    assert n == u * q + r;
    MulSwap(q, u);
    MulSwap(q + 1, u);
    Distribute(q, 1, u);
    if n == SAFE {
      assert Spacing(n, 2) == 2;
    }
  }

  lemma MulSwap(a: nat, b: nat)
    ensures Times(a, b) == b * a
  {
  }

  /** Division that rounds up. */
  function Ceiling(need: nat, unit: nat): nat
    requires unit > 0
  {
    (need + unit - 1) / unit
  }

  function ComputeBreakEven(dailyBurn: string, netPrice: string, durationDays: Option<int>): Option<BreakEven> {
    if !Digits(dailyBurn) || !Digits(netPrice) then None
    else if Num(dailyBurn) == 0 then Some(NoBurn)
    else if Num(netPrice) == 0 then Some(Never)
    else if durationDays.None? || durationDays.value <= 0 then None
    else Some(Subscribers(ToNumber(Ceiling(Num(dailyBurn) * durationDays.value, Num(netPrice)))))
  }

  function ComputeEstimatedRevenue(subscriptions: int, netPrice: string): Option<string> {
    if subscriptions >= 0 && Digits(netPrice) then Some(Dec(Num(netPrice) * subscriptions)) else None
  }

  // ---- division --------------------------------------------------------------------

  lemma Mono(a: nat, b: nat, c: nat)
    requires a <= b
    ensures c * a <= c * b
  {
  }

  lemma Distribute(a: nat, b: nat, c: nat)
    ensures c * (a + b) == c * a + c * b
  {
  }

  /** The ceiling is the least multiple count that covers. */
  lemma CeilingIsLeast(need: nat, unit: nat, n: nat)
    requires unit > 0
    ensures var count := Ceiling(need, unit);
      && unit * count >= need
      && (unit * n >= need <==> n >= count)
  {
    var top := need + unit - 1;
    var count := top / unit;
    assert top == unit * count + top % unit;
    if n >= count {
      Mono(count, n, unit);
    } else {
      Mono(n + 1, count, unit);
      Distribute(n, 1, unit);
    }
  }

  /** The floor of a share: what is understated is less than one. */
  lemma FloorLosesLessThanOne(price: nat, part: nat, whole: nat)
    requires whole > 0 && part <= whole
    ensures var net := price * part / whole;
      && net <= price
      && whole * net <= price * part < whole * net + whole
  {
    var all := price * part;
    assert all == whole * (all / whole) + all % whole;
    Mono(part, whole, price);
    if all / whole > price {
      Mono(price + 1, all / whole, whole);
      Distribute(price, 1, whole);
    }
  }

  lemma DivMono(a: nat, b: nat, w: nat)
    requires w > 0 && a <= b
    ensures a / w <= b / w
  {
    assert a == w * (a / w) + a % w && b == w * (b / w) + b % w;
    Distribute(b / w, 1, w);
    if a / w > b / w {
      Mono(b / w + 1, a / w, w);
    }
  }

  lemma DivPositiveIff(a: nat, w: nat)
    requires w > 0
    ensures a / w > 0 <==> a >= w
  {
    if a >= w {
      DivMono(w, a, w);
    }
  }

  // ---- what the figures mean -------------------------------------------------------

  /**
   A net price comes out for whole prices and shares of one at most. It lies between 0 and the
   price, and understates the true split by less than 1 udvpn.
   */
  lemma NetMeans(price: string, rawShare: string)
    ensures NetPrice(price, rawShare).Some?
       <==> Digits(price) && Digits(rawShare) && Num(rawShare) <= 1_000_000_000_000_000_000
    ensures NetPrice(price, rawShare).Some? ==>
              var net := NetPrice(price, rawShare).value;
              var gross := Num(price) * (DEC_ONE - Num(rawShare));
              && Digits(net) && Num(net) <= Num(price)
              && DEC_ONE * Num(net) <= gross < DEC_ONE * Num(net) + DEC_ONE
  {
    if NetPrice(price, rawShare).Some? {
      var share := Num(rawShare);
      NumDec(Net(Num(price), share));
      FloorLosesLessThanOne(Num(price), DEC_ONE - share, DEC_ONE);
    }
  }

  lemma NetMono(p: nat, q: nat, share: nat)
    requires share <= DEC_ONE && p <= q
    ensures Net(p, share) <= Net(q, share)
  {
    Mono(p, q, DEC_ONE - share);
    DivMono(p * (DEC_ONE - share), q * (DEC_ONE - share), DEC_ONE);
  }

  lemma NetIsMonotone(p: string, q: string, rawShare: string)
    requires NetPrice(p, rawShare).Some? && NetPrice(q, rawShare).Some? && Num(p) <= Num(q)
    ensures Num(NetPrice(p, rawShare).value) <= Num(NetPrice(q, rawShare).value)
  {
    var share := Num(rawShare);
    NumDec(Net(Num(p), share));
    NumDec(Net(Num(q), share));
    NetMono(Num(p), Num(q), share);
  }

  /** The price nets something: what is left of it for the provider is a whole udvpn at least. */
  predicate Nets(price: string, rawShare: string)
    requires Digits(price) && ParseDecShare(rawShare).Some?
  {
    Num(price) * (DEC_ONE - Num(rawShare)) >= DEC_ONE
  }

  lemma NetsIff(price: string, rawShare: string)
    requires Digits(price) && ParseDecShare(rawShare).Some?
    ensures NetPrice(price, rawShare).Some? && Digits(NetPrice(price, rawShare).value)
    ensures Num(NetPrice(price, rawShare).value) > 0 <==> Nets(price, rawShare)
  {
    NumDec(Net(Num(price), Num(rawShare)));
    DivPositiveIff(Num(price) * (DEC_ONE - Num(rawShare)), DEC_ONE);
  }

  /** What n subscribers bring in covers what the leases burn in the days. */
  predicate Covers(ls: seq<Lease>, net: string, days: int, n: nat)
    requires Priced(ls)
  {
    var revenue := ComputeEstimatedRevenue(n, net);
    revenue.Some? && Num(revenue.value) >= HourlyOf(ls) * 24 * days
  }

  /** The least number of subscribers, before it is made a JavaScript number. */
  function LeastCount(ls: seq<Lease>, net: string, days: int): nat
    requires Priced(ls) && days > 0 && Digits(net) && Num(net) > 0
  {
    Ceiling(HourlyOf(ls) * 24 * days, Num(net))
  }

  lemma LeastCountCovers(ls: seq<Lease>, net: string, days: int, n: nat)
    requires Priced(ls) && days > 0 && Digits(net) && Num(net) > 0
    ensures Covers(ls, net, days, n) <==> n >= LeastCount(ls, net, days)
  {
    NumDec(Num(net) * n);
    CeilingIsLeast(HourlyOf(ls) * 24 * days, Num(net), n);
  }

  lemma BreakEvenCount(ls: seq<Lease>, net: string, days: int)
    requires Priced(ls) && days > 0 && Digits(net) && Num(net) > 0 && HourlyOf(ls) > 0
    ensures ComputeBreakEven(ComputeBurn(ls).value.daily, net, Some(days))
         == Some(Subscribers(ToNumber(LeastCount(ls, net, days))))
    ensures LeastCount(ls, net, days) > 0
  {
    var daily := HourlyOf(ls) * 24;
    NumDec(daily);
    Mono(1, days, daily);
    CeilingIsLeast(daily * days, Num(net), 0);
  }

  /**
   Break-even, through every string: for leases that burn, a price that nets something and a whole
   duration, the count is the least number of subscribers whose revenue covers the burn of the
   whole period, if and only if a JavaScript number holds that least number.
   */
  lemma BreakEvenIsLeastIff(ls: seq<Lease>, price: string, rawShare: string, days: int)
    requires Priced(ls) && Digits(price) && ParseDecShare(rawShare).Some? && days > 0
    requires HourlyOf(ls) > 0 && Nets(price, rawShare)
    ensures NetPrice(price, rawShare).Some? && Digits(NetPrice(price, rawShare).value)
    ensures Num(NetPrice(price, rawShare).value) > 0
    ensures var net := NetPrice(price, rawShare).value;
      var b := ComputeBreakEven(ComputeBurn(ls).value.daily, net, Some(days));
      && b.Some? && b.value.Subscribers?
      && ((forall n: nat :: Covers(ls, net, days, n) <==> n >= b.value.count)
          <==> Representable(LeastCount(ls, net, days)))
  {
    NetsIff(price, rawShare);
    var net := NetPrice(price, rawShare).value;
    var least := LeastCount(ls, net, days);
    BreakEvenCount(ls, net, days);
    RepresentableIff(least);
    forall n: nat ensures Covers(ls, net, days, n) <==> n >= least {
      LeastCountCovers(ls, net, days, n);
    }
    if forall n: nat :: Covers(ls, net, days, n) <==> n >= ToNumber(least) {
      assert Covers(ls, net, days, least) && Covers(ls, net, days, ToNumber(least));
    }
  }

  /** That is so whenever the burn of the period is at most 2^53 times the net price. */
  lemma BreakEvenIsLeast(ls: seq<Lease>, price: string, rawShare: string, days: int, n: nat)
    requires Priced(ls) && Digits(price) && ParseDecShare(rawShare).Some? && days > 0
    requires HourlyOf(ls) > 0 && Nets(price, rawShare)
    requires HourlyOf(ls) * 24 * days <= SAFE * Num(NetPrice(price, rawShare).value)
    ensures var net := NetPrice(price, rawShare).value;
      var b := ComputeBreakEven(ComputeBurn(ls).value.daily, net, Some(days));
      b.Some? && b.value.Subscribers? && (Covers(ls, net, days, n) <==> n >= b.value.count)
  {
    BreakEvenIsLeastIff(ls, price, rawShare, days);
    var net := NetPrice(price, rawShare).value;
    MulSwap(SAFE, Num(net));
    CeilingIsLeast(HourlyOf(ls) * 24 * days, Num(net), SAFE);
    RepresentableIff(LeastCount(ls, net, days));
  }

  /** Beyond it: an hour at 2^53 + 1 udvpn and a net price of 24 need 2^53 + 1 subscribers; the answer is one less. */
  lemma CountCanBeRounded(hourly: string, price: string)
    requires Digits(hourly) && Num(hourly) == SAFE + 1 && Digits(price) && Num(price) == 24
    ensures var ls := [Lease(hourly, 0, 1)];
      && Priced(ls)
      && var b := ComputeBreakEven(ComputeBurn(ls).value.daily, price, Some(1));
         b == Some(Subscribers(SAFE)) && !Covers(ls, price, 1, SAFE)
  {
    var ls := [Lease(hourly, 0, 1)];
    OneLease(ls);
    RoundedDown(SAFE + 1);
    NeedOf(ls, price, SAFE + 1);
    BreakEvenCount(ls, price, 1);
    LeastCountCovers(ls, price, 1, SAFE);
  }

  lemma OneLease(ls: seq<Lease>)
    requires |ls| == 1 && IsActive(ls[0]) && Digits(ls[0].hourlyPrice)
    ensures Priced(ls) && HourlyOf(ls) == Num(ls[0].hourlyPrice)
  {
    assert HourlyOf(ls[1..]) == 0;
  }

  lemma NeedOf(ls: seq<Lease>, net: string, n: nat)
    requires Priced(ls) && HourlyOf(ls) == n && Digits(net) && Num(net) == 24
    ensures LeastCount(ls, net, 1) == n
  {
    assert HourlyOf(ls) * 24 * 1 == n * 24;
    CeilingIsLeast(n * 24, 24, n);
    if n > 0 {
      CeilingIsLeast(n * 24, 24, n - 1);
    }
  }

  /** Halfway between two numbers, the even one is taken. */
  lemma RoundedDown(n: nat)
    requires n == SAFE + 1
    ensures ToNumber(n) == SAFE
  {
    assert Spacing(n, 2) == 2 && Spacing(n, 1) == 2;
    assert n / 2 == 4503599627370496 && n % 2 == 1;
  }

  /** The other two answers: nothing burns, or the plan nets nothing. */
  lemma BreakEvenElse(ls: seq<Lease>, price: string, rawShare: string, days: Option<int>)
    requires Priced(ls) && Digits(price) && ParseDecShare(rawShare).Some?
    ensures NetPrice(price, rawShare).Some?
    ensures var b := ComputeBreakEven(ComputeBurn(ls).value.daily, NetPrice(price, rawShare).value, days);
      && (b == Some(NoBurn) <==> HourlyOf(ls) == 0)
      && (b == Some(Never) <==> HourlyOf(ls) > 0 && !Nets(price, rawShare))
  {
    NumDec(HourlyOf(ls) * 24);
    NetsIff(price, rawShare);
  }

  // ---- burn and commitment ---------------------------------------------------------

  /** One hour passes for every lease that is still billed. */
  function Tick(ls: seq<Lease>): (r: seq<Lease>)
    ensures |r| == |ls|
    ensures forall i :: 0 <= i < |ls| ==> r[i] == if IsActive(ls[i]) then ls[i].(hours := ls[i].hours + 1) else ls[i]
  {
    seq(|ls|, i requires 0 <= i < |ls| => if IsActive(ls[i]) then ls[i].(hours := ls[i].hours + 1) else ls[i])
  }

  lemma {:induction false} TickCommitted(ls: seq<Lease>)
    requires Priced(ls)
    ensures Priced(Tick(ls)) && CommittedOf(ls) == HourlyOf(ls) + CommittedOf(Tick(ls))
    decreases |ls|
  {
    if ls != [] {
      TickCommitted(ls[1..]);
      assert Tick(ls)[1..] == Tick(ls[1..]);
      if IsActive(ls[0]) {
        Distribute(1, ls[0].maxHours - ls[0].hours - 1, Num(ls[0].hourlyPrice));
      }
    }
  }

  /** The figures of the two: the burn of an hour is what the commitment loses in it. */
  lemma HourConserves(ls: seq<Lease>)
    ensures ComputeBurn(ls).Some? == ComputeCommitted(ls).Some? == Priced(ls)
    ensures Priced(ls) ==>
              && ComputeCommitted(Tick(ls)).Some?
              && Num(ComputeCommitted(ls).value)
                 == Num(ComputeBurn(ls).value.hourly) + Num(ComputeCommitted(Tick(ls)).value)
  {
    if Priced(ls) {
      TickCommitted(ls);
      NumDec(CommittedOf(ls));
      NumDec(HourlyOf(ls));
      NumDec(CommittedOf(Tick(ls)));
    }
  }

  /** What n hours burn. */
  function BurnOver(ls: seq<Lease>, n: nat): nat
    requires Priced(ls)
    decreases n
  {
    TickCommitted(ls);
    if n == 0 then 0 else HourlyOf(ls) + BurnOver(Tick(ls), n - 1)
  }

  predicate EndsWithin(ls: seq<Lease>, n: nat) {
    forall i :: 0 <= i < |ls| ==> ls[i].maxHours <= ls[i].hours + n
  }

  lemma {:induction false} EndedCommitsNothing(ls: seq<Lease>)
    requires Priced(ls) && EndsWithin(ls, 0)
    ensures CommittedOf(ls) == 0 && HourlyOf(ls) == 0
    decreases |ls|
  {
    if ls != [] {
      EndedCommitsNothing(ls[1..]);
    }
  }

  lemma {:induction false} CommittedIsBurned(ls: seq<Lease>, n: nat)
    requires Priced(ls) && EndsWithin(ls, n)
    ensures CommittedOf(ls) == BurnOver(ls, n)
    decreases n
  {
    TickCommitted(ls);
    if n == 0 {
      EndedCommitsNothing(ls);
    } else {
      CommittedIsBurned(Tick(ls), n - 1);
    }
  }

  /** Over the life of all leases, the burn adds up to exactly what was committed. */
  lemma CommitmentIsFutureBurn(ls: seq<Lease>, n: nat)
    requires Priced(ls) && EndsWithin(ls, n)
    ensures ComputeCommitted(ls).Some? && Num(ComputeCommitted(ls).value) == BurnOver(ls, n)
  {
    NumDec(CommittedOf(ls));
    CommittedIsBurned(ls, n);
  }
}
