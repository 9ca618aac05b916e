/**
 The kill switch of daemon/internal/ops/killswitch.go. Chains are packet filters: a rule is a
 conjunction of tests with a verdict, and the first rule that matches decides. Every iptables
 call may fail without effect.
 */
module KillSwitch {
  import opened Common
  import opened Ipv4
  import opened Text

  // ---- packets and rules -----------------------------------------------------------

  datatype Proto = Tcp | Udp | OtherProto

  datatype Packet = Packet(oif: string, dst: Address, proto: Proto, dport: nat, established: bool)

  datatype Target = Accept | Drop

  datatype Ports = Ports(proto: Proto, first: nat, last: nat)

  datatype Rule = Rule(oif: Option<string>, dst: Option<Net>, ports: Option<Ports>, established: bool, target: Target)

  predicate Matches(width: nat, r: Rule, p: Packet) {
    && (r.oif.Some? ==> p.oif == r.oif.value)
    && (r.dst.Some? ==> Covers(width, r.dst.value, p.dst))
    && (r.ports.Some? ==> p.proto == r.ports.value.proto && r.ports.value.first <= p.dport <= r.ports.value.last)
    && (r.established ==> p.established)
  }

  /** The first match decides; a packet that no rule matches goes back to OUTPUT. */
  function Verdict(width: nat, rules: seq<Rule>, p: Packet): Option<Target>
    decreases |rules|
  {
    if rules == [] then None
    else if Matches(width, rules[0], p) then Some(rules[0].target)
    else Verdict(width, rules[1..], p)
  }

  /** OUTPUT holds rules that other programs put there and jumps to our chain. */
  datatype OutRule = Foreign(id: nat) | Jump

  datatype Table = Table(output: seq<OutRule>, chain: Option<seq<Rule>>)

  predicate Jumped(t: Table) {
    Jump in t.output
  }

  // ---- iptables --------------------------------------------------------------------

  datatype Cmd =
    | DeleteJump          // -D OUTPUT -j chain
    | Flush               // -F chain
    | DeleteChain         // -X chain
    | NewChain            // -N chain
    | Append(rule: Rule)  // -A chain
    | AppendJump          // -A OUTPUT -j chain

  /** When the kernel takes the command. A chain is deleted only when empty and unreferenced. */
  predicate Legal(t: Table, c: Cmd) {
    match c
    case DeleteJump => Jumped(t)
    case Flush => t.chain.Some?
    case DeleteChain => t.chain == Some([]) && !Jumped(t)
    case NewChain => t.chain.None?
    case Append(_) => t.chain.Some?
    case AppendJump => t.chain.Some?
  }

  function WithoutFirstJump(out: seq<OutRule>): seq<OutRule>
    decreases |out|
  {
    if out == [] then [] else if out[0].Jump? then out[1..] else [out[0]] + WithoutFirstJump(out[1..])
  }

  function Effect(t: Table, c: Cmd): Table
    requires Legal(t, c)
  {
    match c
    case DeleteJump => t.(output := WithoutFirstJump(t.output))
    case Flush => t.(chain := Some([]))
    case DeleteChain => t.(chain := None)
    case NewChain => t.(chain := Some([]))
    case Append(r) => t.(chain := Some(t.chain.value + [r]))
    case AppendJump => t.(output := t.output + [Jump])
  }

  /** A quiet step goes on after a failure; the others stop there. */
  datatype Step = Step(cmd: Cmd, quiet: bool)

  datatype Ran = Ran(table: Table, ok: bool, calls: nat)

  /** `luck(k)` is whether the k-th call gets the xtables lock. */
  function Exec(t: Table, steps: seq<Step>, luck: nat -> bool, k: nat): Ran
    decreases |steps|
  {
    if steps == [] then Ran(t, true, k)
    else if luck(k) && Legal(t, steps[0].cmd) then Exec(Effect(t, steps[0].cmd), steps[1..], luck, k + 1)
    else if steps[0].quiet then Exec(t, steps[1..], luck, k + 1)
    else Ran(t, false, k + 1)
  }

  const TEARDOWN := [Step(DeleteJump, true), Step(Flush, true), Step(DeleteChain, true)]

  function Build(rules: seq<Rule>): (steps: seq<Step>)
    ensures |steps| == |rules| + 1
    decreases |rules|
  {
    if rules == [] then [Step(AppendJump, false)] else [Step(Append(rules[0]), false)] + Build(rules[1..])
  }

  function ArmSteps(rules: seq<Rule>): seq<Step> {
    TEARDOWN + ([Step(NewChain, false)] + Build(rules))
  }

  // ---- the rules -------------------------------------------------------------------

  datatype Dns = NoDns | Dns(ip: Address)

  const ANY := Rule(None, None, None, false, Accept)

  function Out(iface: string): Rule {
    ANY.(oif := Some(iface))
  }

  function To(net: Net): Rule {
    ANY.(dst := Some(net))
  }

  const LAN4: seq<Net> := [Net(Quad(10, 0, 0, 0), 8), Net(Quad(172, 16, 0, 0), 12), Net(Quad(192, 168, 0, 0), 16),
                           Net(Quad(169, 254, 0, 0), 16), Net(Quad(224, 0, 0, 0), 4), Net(Quad(255, 255, 255, 255), 32)]

  const LAN6: seq<Net> := [Net(0xfe80 * Pow2(112), 10), Net(0xfc00 * Pow2(112), 7), Net(0xff00 * Pow2(112), 8)]

  function Ranges(nets: seq<Net>): (rules: seq<Rule>)
    ensures |rules| == |nets|
    ensures forall i :: 0 <= i < |nets| ==> rules[i] == To(nets[i])
  {
    seq(|nets|, i requires 0 <= i < |nets| => To(nets[i]))
  }

  const DROP_ALL := ANY.(target := Drop)

  function DnsRules(iface: string, dns: Dns): seq<Rule> {
    if dns.NoDns? then []
    else
      var at := Out(iface).(dst := Some(Net(dns.ip, 32)));
      [at.(ports := Some(Ports(Udp, 53, 53))), at.(ports := Some(Ports(Tcp, 53, 53)))]
  }

  function Head4(iface: string, host: Address): seq<Rule> {
    [Out("lo"), Out(iface), To(Net(host, 32)), ANY.(ports := Some(Ports(Udp, 67, 68)))]
  }

  function Rules4(iface: string, host: Address, dns: Dns, lan: bool): seq<Rule> {
    Head4(iface, host) + DnsRules(iface, dns) + [Out(iface).(established := true)]
    + (if lan then Ranges(LAN4) else []) + [DROP_ALL]
  }

  function Rules6(iface: string, lan: bool): seq<Rule> {
    [Out("lo"), Out(iface), Out(iface).(established := true)] + (if lan then Ranges(LAN6) else []) + [DROP_ALL]
  }

  // ---- the code --------------------------------------------------------------------

  /** One address family's tables. */
  class Iptables {
    var table: Table
    var calls: nat
    const luck: nat -> bool

    constructor (t: Table, luck: nat -> bool)
      ensures table == t && calls == 0 && this.luck == luck
    {
      table, calls, this.luck := t, 0, luck;
    }

    method Ipt(c: Cmd) returns (ok: bool)
      modifies this
      ensures ok == (luck(old(calls)) && Legal(old(table), c))
      ensures table == (if ok then Effect(old(table), c) else old(table))
      ensures calls == old(calls) + 1
    {
      ok := luck(calls) && Legal(table, c);
      if ok {
        table := Effect(table, c);
      }
      calls := calls + 1;
    }

    /** Steps in order until one that is not quiet fails. */
    method RunSteps(steps: seq<Step>) returns (ok: bool)
      modifies this
      ensures Ran(table, ok, calls) == Exec(old(table), steps, luck, old(calls))
    {
      ok := true;
      for i := 0 to |steps|
        invariant Exec(old(table), steps, luck, old(calls)) == Exec(table, steps[i..], luck, calls)
      {
        assert steps[i..][1..] == steps[i + 1..];
        ok := Ipt(steps[i].cmd);
        if !ok && !steps[i].quiet {
          return;
        }
        ok := true;
      }
    }
  }

  /** The arguments as they come; an empty resolver is none. */
  datatype Params = Params(iface: string, ifaceOk: bool, remote: string, dnsIp: string, lan: bool)

  predicate Checked(p: Params) {
    p.ifaceOk && IsQuad(p.remote) && p.remote != "0.0.0.0" && (p.dnsIp != "" ==> IsQuad(p.dnsIp))
  }

  /** The rules that the arguments ask for. */
  function Asked4(p: Params): seq<Rule>
    requires Checked(p)
  {
    Rules4(p.iface, ParseIPv4(p.remote).value, if p.dnsIp == "" then NoDns else Dns(ParseIPv4(p.dnsIp).value), p.lan)
  }

  /** Both families and the state file. */
  class Firewall {
    const v4: Iptables
    const v6: Iptables
    const v6Answers: bool
    var stateFile: bool

    constructor (v4: Iptables, v6: Iptables, v6Answers: bool)
      ensures this.v4 == v4 && this.v6 == v6 && this.v6Answers == v6Answers && !stateFile
    {
      this.v4, this.v6, this.v6Answers, stateFile := v4, v6, v6Answers, false;
    }

    /** The list of rules, built up as the code does. */
    method BuildRules(p: Params) returns (rules: seq<Rule>)
      requires Checked(p)
      ensures rules == Asked4(p)
    {
      var iface, host := p.iface, ParseIPv4(p.remote).value;
      rules := Head4(iface, host);
      ghost var dns := if p.dnsIp == "" then NoDns else Dns(ParseIPv4(p.dnsIp).value);
      if p.dnsIp != "" {
        rules := rules + DnsRules(iface, Dns(ParseIPv4(p.dnsIp).value));
      }
      assert rules == Head4(iface, host) + DnsRules(iface, dns);
      rules := rules + [Out(iface).(established := true)];
      if p.lan {
        for i := 0 to |LAN4|
          invariant rules == Head4(iface, host) + DnsRules(iface, dns) + [Out(iface).(established := true)] + Ranges(LAN4)[..i]
        {
          rules := rules + [To(LAN4[i])];
        }
      }
      rules := rules + [DROP_ALL];
      assert rules == Rules4(iface, host, dns, p.lan);
    }

    /** `ready`: the lock and iptables are at hand. An error can come back from an armed firewall. */
    method KillswitchOn(p: Params, ready: bool, write: Write) returns (ok: bool)
      requires v4 != v6
      modifies this, v4, v6
      ensures (ok && v6Answers && Wf(old(v6.table)) && AllLucky(v6.luck, old(v6.calls))) ==>
        v6.table == Table(Foreigns(old(v6.table.output)) + [Jump], Some(Rules6(p.iface, p.lan)))
      ensures ok && !v6Answers ==> v6.table == old(v6.table)
      ensures !(Checked(p) && ready) ==>
        !ok && v4.table == old(v4.table) && v6.table == old(v6.table) && stateFile == old(stateFile)
      ensures (Checked(p) && ready) ==>
        var r4 := Exec(old(v4.table), ArmSteps(Asked4(p)), v4.luck, old(v4.calls));
        && v4.table == r4.table && ok == (r4.ok && write.WriteDone?)
        && stateFile == ((r4.ok && !write.WriteFails?) || old(stateFile))
        && v6.table == if r4.ok && v6Answers
                       then BestEffort6(old(v6.table), Rules6(p.iface, p.lan), v6.luck, old(v6.calls))
                       else old(v6.table)
    {
      if !p.ifaceOk || !IsQuad(p.remote) || p.remote == "0.0.0.0" || (p.dnsIp != "" && !IsQuad(p.dnsIp)) || !ready {
        return false;
      }
      var rules := BuildRules(p);
      ok := v4.RunSteps(ArmSteps(rules));
      if !ok {
        return;
      }
      if v6Answers && Wf(v6.table) {
        Armed6(v6.table, Rules6(p.iface, p.lan), v6.luck, v6.calls);
      }
      if v6Answers {
        var ok6 := v6.RunSteps(ArmSteps(Rules6(p.iface, p.lan)));
        if !ok6 {
          var _ := v6.RunSteps(TEARDOWN);
        }
      }
      if !write.WriteFails? {
        stateFile := true;
      }
      ok := write.WriteDone?;
    }

    method KillswitchOff()
      requires v4 != v6
      modifies this, v4, v6
      ensures v4.table == Exec(old(v4.table), TEARDOWN, v4.luck, old(v4.calls)).table
      ensures v6.table == Exec(old(v6.table), TEARDOWN, v6.luck, old(v6.calls)).table
      ensures !stateFile
    {
      var _ := v4.RunSteps(TEARDOWN);
      var _ := v6.RunSteps(TEARDOWN);
      stateFile := false;
    }
  }

  /** A failed v6 arm is torn down and never undoes v4. */
  function BestEffort6(t: Table, rules: seq<Rule>, luck: nat -> bool, k: nat): Table {
    var r := Exec(t, ArmSteps(rules), luck, k);
    if r.ok then r.table else Exec(r.table, TEARDOWN, luck, r.calls).table
  }

  ghost predicate AllLucky(luck: nat -> bool, k: nat) {
    forall j: nat :: j >= k ==> luck(j)
  }

  /**
   What an arm leaves in the IPv6 tables. Where every call gets the lock, OUTPUT is what other programs
   have there and one jump to the complete chain. Where a call of the arm fails but those of the
   teardown behind it do not, OUTPUT is what other programs have there and the chain is gone.
   */
  lemma Armed6(t: Table, rules: seq<Rule>, luck: nat -> bool, k: nat)
    requires Wf(t)
    ensures AllLucky(luck, k) ==> BestEffort6(t, rules, luck, k) == Table(Foreigns(t.output) + [Jump], Some(rules))
    ensures var r := Exec(t, ArmSteps(rules), luck, k);
      (r.ok ==> BestEffort6(t, rules, luck, k) == Table(Foreigns(t.output) + [Jump], Some(rules)))
      && (!r.ok && AllLucky(luck, r.calls) ==> BestEffort6(t, rules, luck, k) == Table(Foreigns(t.output), None))
  {
    RearmIsFreshArm(t, rules, luck, k);
    var r := Exec(t, ArmSteps(rules), luck, k);
    if !r.ok && AllLucky(luck, r.calls) {
      ArmKeepsWf(t, rules, luck, k);
      assert TEARDOWN[..3] == TEARDOWN;
      TeardownEnds(r.table, luck, r.calls, 3);
    }
  }

  /** A failed arm leaves other programs' rules and a table that can be torn down. */
  lemma ArmKeepsWf(t: Table, rules: seq<Rule>, luck: nat -> bool, k: nat)
    requires Wf(t) && !Exec(t, ArmSteps(rules), luck, k).ok
    ensures var t' := Exec(t, ArmSteps(rules), luck, k).table; Wf(t') && Foreigns(t'.output) == Foreigns(t.output)
  {
    var strict := [Step(NewChain, false)] + Build(rules);
    ExecAppend(t, TEARDOWN, strict, luck, k);
    assert TEARDOWN[..3] == TEARDOWN && strict[..|rules| + 2] == strict;
    TeardownEnds(t, luck, k, 3);
    TeardownRuns(t, luck, k, 3);
    StrictEnds(Exec(t, TEARDOWN, luck, k).table, rules, luck, k + 3, |rules| + 2);
  }

  // ---- which packets pass ----------------------------------------------------------

  lemma {:induction false} VerdictAppend(width: nat, a: seq<Rule>, b: seq<Rule>, p: Packet)
    ensures Verdict(width, a + b, p) == if Verdict(width, a, p).Some? then Verdict(width, a, p) else Verdict(width, b, p)
    decreases |a|
  {
    if a == [] {
      assert a + b == b;
    } else {
      assert (a + b)[1..] == a[1..] + b;
      VerdictAppend(width, a[1..], b, p);
    }
  }

  predicate InAny(width: nat, nets: seq<Net>, a: Address) {
    exists i :: 0 <= i < |nets| && Covers(width, nets[i], a)
  }

  lemma {:induction false} RangesVerdict(width: nat, nets: seq<Net>, p: Packet)
    ensures Verdict(width, Ranges(nets), p) == if InAny(width, nets, p.dst) then Some(Accept) else None
    decreases |nets|
  {
    if nets != [] {
      var rest := nets[1..];
      assert Ranges(nets)[1..] == Ranges(rest);
      RangesVerdict(width, rest, p);
      if Covers(width, nets[0], p.dst) {
      } else if InAny(width, nets, p.dst) {
        var i :| 0 <= i < |nets| && Covers(width, nets[i], p.dst);
        assert rest[i - 1] == nets[i];
      } else {
        assert forall i :: 0 <= i < |rest| ==> rest[i] == nets[i + 1];
      }
    }
  }

  /** The promise of the kill switch, packet by packet. */
  predicate Allowed4(iface: string, host: Address, lan: bool, p: Packet) {
    || p.oif == "lo"
    || p.oif == iface
    || p.dst == host
    || (p.proto.Udp? && 67 <= p.dport <= 68)
    || (lan && InAny(32, LAN4, p.dst))
  }

  /**
   A complete IPv4 chain accepts exactly the promised packets and drops all others. The answer
   does not mention the resolver or conntrack: those rules let nothing more through.
   */
  lemma ChainAcceptsIff(iface: string, host: Address, dns: Dns, lan: bool, p: Packet)
    ensures Verdict(32, Rules4(iface, host, dns, lan), p)
         == Some(if Allowed4(iface, host, lan, p) then Accept else Drop)
  {
    var head, mid := Head4(iface, host), DnsRules(iface, dns);
    var track := [Out(iface).(established := true)];
    var tail := if lan then Ranges(LAN4) else [];
    VerdictAppend(32, head + mid + track + tail, [DROP_ALL], p);
    VerdictAppend(32, head + mid + track, tail, p);
    VerdictAppend(32, head + mid, track, p);
    VerdictAppend(32, head, mid, p);
    RangesVerdict(32, LAN4, p);
    HeadVerdict(iface, host, p);
    InsideVerdict(32, iface, mid, p);
    InsideVerdict(32, iface, track, p);
  }

  /**
   The refusal of 0.0.0.0 goes by its spelling. Written with more zeros it passes, and the chain that
   is then armed lets nothing through but loopback, the tunnel, DHCP, local ranges and packets to
   the address zero: the tunnel's own packets to any server are dropped.
   */
  lemma ZeroCanBeSpelled(p: Params, parts: seq<string>, packet: Packet)
    requires p.ifaceOk && p.dnsIp == "" && !p.lan && LongZero(parts) && p.remote == Join(parts, '.')
    requires packet.oif != "lo" && packet.oif != p.iface && packet.dst != 0 && packet.proto.Udp?
    requires packet.dport != 67 && packet.dport != 68
    ensures Checked(p) && ParseIPv4(p.remote) == Some(0)
    ensures Verdict(32, Asked4(p), packet) == Some(Drop)
  {
    SpelledZero(parts, p.remote);
    assert "0.0.0.0"[1] == '.';
    ChainAcceptsIff(p.iface, 0, NoDns, false, packet);
  }

  /**
   Exactly which accepted arguments arm a host of value zero: those whose address is written in
   zeros alone. No address without leading zeros is among them.
   */
  lemma ArmsZeroHostIff(p: Params)
    requires Checked(p)
    ensures ParseIPv4(p.remote) == Some(0) <==> AllZeros(Split(p.remote, '.'))
    ensures AllCanonical(Split(p.remote, '.')) ==> ParseIPv4(p.remote) != Some(0)
  {
    ZeroTextIff(p.remote);
    if ParseIPv4(p.remote) == Some(0) && AllCanonical(Split(p.remote, '.')) {
      CanonicalZero(p.remote);
      FourZeros();
    }
  }

  /** And what it means: whatever goes to a server and not through the tunnel is dropped. */
  lemma ZeroHostStrands(p: Params, packet: Packet)
    requires Checked(p) && AllZeros(Split(p.remote, '.'))
    ensures Verdict(32, Asked4(p), packet) == Some(if Allowed4(p.iface, 0, p.lan, packet) then Accept else Drop)
  {
    ArmsZeroHostIff(p);
    ChainAcceptsIff(p.iface, 0, if p.dnsIp == "" then NoDns else Dns(ParseIPv4(p.dnsIp).value), p.lan, packet);
  }

  lemma ZeroPieces(parts: seq<string>)
    requires |parts| == 4 && AllZeros(parts) && forall i :: 0 <= i < 4 ==> 0 < |parts[i]| <= 3
    ensures forall i :: 0 <= i < 4 ==> Octet(parts[i], 3) && Num(parts[i]) <= 255
  {
    forall i | 0 <= i < 4 ensures Octet(parts[i], 3) && Num(parts[i]) <= 255 {
      assert Digits(parts[i]);
      NumZeroIff(parts[i]);
    }
  }

  /** Four pieces of one to three zeros, the first of more than one. */
  predicate LongZero(parts: seq<string>) {
    |parts| == 4 && AllZeros(parts) && (forall i :: 0 <= i < 4 ==> 0 < |parts[i]| <= 3) && |parts[0]| > 1
  }

  lemma SpelledZero(parts: seq<string>, zero: string)
    requires LongZero(parts) && zero == Join(parts, '.')
    ensures IsQuad(zero) && ParseIPv4(zero) == Some(0) && |zero| > 1 && zero[1] == '0'
  {
    forall i | 0 <= i < 4 ensures '.' !in parts[i] {
      assert forall c :: c in parts[i] ==> c == '0';
    }
    SplitJoin(parts, '.');
    ZeroPieces(parts);
    ZeroTextIff(zero);
  }

  /** The resolver's own rules name it and port 53, over either protocol, through the tunnel alone. */
  lemma DnsRulesMean(iface: string, ip: Address, p: Packet)
    ensures Verdict(32, DnsRules(iface, Dns(ip)), p)
         == if p.oif == iface && p.dst == ip && p.dport == 53 && (p.proto.Udp? || p.proto.Tcp?) then Some(Accept) else None
    ensures DnsRules(iface, NoDns) == []
  {
    var rules := DnsRules(iface, Dns(ip));
    var rest := rules[1..];
    assert rest[0] == rules[1] && rest[1..] == [];
    assert Pow2(0) == 1;
    assert Verdict(32, rest, p) == if Matches(32, rules[1], p) then Some(Accept) else Verdict(32, rest[1..], p);
    assert Verdict(32, rules, p) == if Matches(32, rules[0], p) then Some(Accept) else Verdict(32, rest, p);
  }

  lemma HeadVerdict(iface: string, host: Address, p: Packet)
    ensures Verdict(32, Head4(iface, host), p)
         == if Allowed4(iface, host, false, p) then Some(Accept) else None
  {
    var h := Head4(iface, host);
    var h1, h2, h3 := h[1..], h[2..], h[3..];
    assert h1[1..] == h2 && h2[1..] == h3 && h3[1..] == [];
    assert Pow2(0) == 1;
    assert Verdict(32, h3, p) == if Matches(32, h[3], p) then Some(Accept) else None;
    assert Verdict(32, h2, p) == if Matches(32, h[2], p) then Some(Accept) else Verdict(32, h3, p);
    assert Verdict(32, h1, p) == if Matches(32, h[1], p) then Some(Accept) else Verdict(32, h2, p);
  }

  /** Rules that all ask for the tunnel say nothing about a packet that leaves elsewhere. */
  lemma {:induction false} InsideVerdict(width: nat, iface: string, rules: seq<Rule>, p: Packet)
    requires forall i :: 0 <= i < |rules| ==> rules[i].oif == Some(iface)
    ensures p.oif != iface ==> Verdict(width, rules, p) == None
    decreases |rules|
  {
    if rules != [] {
      InsideVerdict(width, iface, rules[1..], p);
    }
  }

  /** The IPv6 chain lets only loopback, the tunnel and the local ranges through. */
  lemma Chain6AcceptsIff(iface: string, lan: bool, p: Packet)
    ensures Verdict(128, Rules6(iface, lan), p)
         == Some(if p.oif == "lo" || p.oif == iface || (lan && InAny(128, LAN6, p.dst)) then Accept else Drop)
  {
    var head, track := [Out("lo"), Out(iface)], [Out(iface).(established := true)];
    var tail := if lan then Ranges(LAN6) else [];
    assert [Out("lo"), Out(iface), Out(iface).(established := true)] == head + track;
    VerdictAppend(128, head + track + tail, [DROP_ALL], p);
    VerdictAppend(128, head + track, tail, p);
    VerdictAppend(128, head, track, p);
    RangesVerdict(128, LAN6, p);
    InsideVerdict(128, iface, track, p);
    assert head[1..] == [Out(iface)] && head[1..][1..] == [];
  }

  // ---- which tables are reached ----------------------------------------------------

  /** What other programs have in OUTPUT. */
  function Foreigns(out: seq<OutRule>): seq<OutRule>
    decreases |out|
  {
    if out == [] then [] else (if out[0].Jump? then [] else [out[0]]) + Foreigns(out[1..])
  }

  /** One jump at most, and none to a chain that does not exist. */
  predicate Wf(t: Table) {
    Jump !in WithoutFirstJump(t.output) && (Jumped(t) ==> t.chain.Some?)
  }

  predicate EndsInDrop(rules: seq<Rule>) {
    rules != [] && rules[|rules| - 1] == DROP_ALL
  }

  /** OUTPUT runs through a chain that lets packets fall out at its end. */
  predicate HalfOpen(t: Table) {
    Jumped(t) && !(t.chain.Some? && EndsInDrop(t.chain.value))
  }

  lemma {:induction false} RemoveJump(out: seq<OutRule>)
    ensures Foreigns(WithoutFirstJump(out)) == Foreigns(out)
    ensures Jump !in WithoutFirstJump(out) ==> WithoutFirstJump(out) == Foreigns(out)
    ensures Jump !in out ==> WithoutFirstJump(out) == out
    decreases |out|
  {
    if out != [] {
      var rest := out[1..];
      RemoveJump(rest);
      if out[0].Jump? {
        if Jump !in rest {
          assert WithoutFirstJump(rest) == rest;
        }
      } else {
        var short := [out[0]] + WithoutFirstJump(rest);
        assert short[1..] == WithoutFirstJump(rest);
        assert Jump in WithoutFirstJump(rest) ==> Jump in short;
        if Jump !in out {
          assert Jump !in rest;
        }
      }
    }
  }

  lemma {:induction false} AddJump(out: seq<OutRule>)
    requires Jump !in out
    ensures WithoutFirstJump(out + [Jump]) == out && Foreigns(out + [Jump]) == Foreigns(out) == out
    decreases |out|
  {
    if out != [] {
      assert (out + [Jump])[1..] == out[1..] + [Jump];
      AddJump(out[1..]);
    }
  }

  lemma {:induction false} ExecAppend(t: Table, a: seq<Step>, b: seq<Step>, luck: nat -> bool, k: nat)
    ensures var r := Exec(t, a, luck, k);
      Exec(t, a + b, luck, k) == if r.ok then Exec(r.table, b, luck, r.calls) else r
    decreases |a|
  {
    if a == [] {
      assert a + b == b;
    } else {
      assert (a + b)[0] == a[0] && (a + b)[1..] == a[1..] + b;
      if luck(k) && Legal(t, a[0].cmd) {
        ExecAppend(Effect(t, a[0].cmd), a[1..], b, luck, k + 1);
      } else if a[0].quiet {
        ExecAppend(t, a[1..], b, luck, k + 1);
      }
    }
  }

  function Try(t: Table, c: Cmd, lucky: bool): Table {
    if lucky && Legal(t, c) then Effect(t, c) else t
  }

  /** The quiet deletes never stop; after n of them. */
  lemma TeardownRuns(t: Table, luck: nat -> bool, k: nat, n: nat)
    requires n <= 3
    ensures var t1 := if n >= 1 then Try(t, DeleteJump, luck(k)) else t;
      var t2 := if n >= 2 then Try(t1, Flush, luck(k + 1)) else t1;
      var t3 := if n >= 3 then Try(t2, DeleteChain, luck(k + 2)) else t2;
      Exec(t, TEARDOWN[..n], luck, k) == Ran(t3, true, k + n)
  {
    var a := TEARDOWN[..n];
    if n >= 1 {
      var t1, b := Try(t, DeleteJump, luck(k)), a[1..];
      assert Exec(t, a, luck, k) == Exec(t1, b, luck, k + 1);
      if n >= 2 {
        var t2, c := Try(t1, Flush, luck(k + 1)), b[1..];
        assert Exec(t1, b, luck, k + 1) == Exec(t2, c, luck, k + 2);
        if n >= 3 {
          assert c[1..] == [];
          assert Exec(t2, c, luck, k + 2) == Exec(Try(t2, DeleteChain, luck(k + 2)), [], luck, k + 3);
        }
      }
    }
  }

  lemma DeleteEnds(t: Table, lucky: bool)
    requires Wf(t)
    ensures var t' := Try(t, DeleteJump, lucky);
      && Wf(t') && Foreigns(t'.output) == Foreigns(t.output) && t'.chain == t.chain
      && (Jumped(t') <==> Jumped(t) && !lucky)
      && (Jumped(t') ==> t' == t)
      && (!Jumped(t') ==> t'.output == Foreigns(t.output))
  {
    RemoveJump(t.output);
    if lucky && Jumped(t) {
      RemoveJump(WithoutFirstJump(t.output));
    }
  }

  /** After n of the quiet deletes, the -D being the first and the -F the second. */
  lemma TeardownEnds(t: Table, luck: nat -> bool, k: nat, n: nat)
    requires Wf(t) && n <= 3
    ensures var t' := Exec(t, TEARDOWN[..n], luck, k).table;
      && Wf(t') && Foreigns(t'.output) == Foreigns(t.output)
      && (Jumped(t') <==> Jumped(t) && !(n >= 1 && luck(k)))
      && (!Jumped(t') ==> t'.output == Foreigns(t.output))
      && (Jumped(t') ==> t' == if n >= 2 && luck(k + 1) then t.(chain := Some([])) else t)
      && ((n == 3 && luck(k) && luck(k + 1) && luck(k + 2)) ==> t' == Table(Foreigns(t.output), None))
  {
    TeardownRuns(t, luck, k, n);
    RemoveJump(t.output);
    if n >= 1 {
      DeleteEnds(t, luck(k));
    }
  }

  /** Filling a new chain: OUTPUT is untouched until the last step, which makes it complete. */
  lemma {:induction false} BuildEnds(t: Table, rules: seq<Rule>, luck: nat -> bool, k: nat, n: nat)
    requires t.chain.Some? && !Jumped(t) && n <= |rules| + 1
    ensures var r := Exec(t, Build(rules)[..n], luck, k);
      && r.table.chain.Some?
      && (if r.ok && n == |rules| + 1 then r.table == Table(t.output + [Jump], Some(t.chain.value + rules))
          else r.table.output == t.output)
      && ((forall j :: j >= k ==> luck(j)) ==> r.ok)
    decreases |rules|
  {
    var steps := Build(rules)[..n];
    if n > 0 {
      if rules == [] {
        assert steps[1..] == [];
        assert t.chain.value + rules == t.chain.value;
      } else {
        assert steps[0] == Step(Append(rules[0]), false) && steps[1..] == Build(rules[1..])[..n - 1];
        var t1 := t.(chain := Some(t.chain.value + [rules[0]]));
        BuildEnds(t1, rules[1..], luck, k + 1, n - 1);
        assert t.chain.value + [rules[0]] + rules[1..] == t.chain.value + rules;
      }
    }
  }

  /** A re-arm whose first delete fails and whose flush works: packets fall through an empty chain. */
  lemma RearmOpens(luck: nat -> bool, rules: seq<Rule>)
    requires EndsInDrop(rules) && !luck(0) && luck(1)
    ensures var t := Table([Jump], Some([DROP_ALL]));
      Wf(t) && !HalfOpen(t) && HalfOpen(Exec(t, ArmSteps(rules)[..2], luck, 0).table)
  {
    var t := Table([Jump], Some([DROP_ALL]));
    assert WithoutFirstJump(t.output) == [];
    assert t.output[0] == Jump;
    HalfOpenIff(t, rules, luck, 0, 2);
  }

  /** The strict part, -N first, from whatever the deletes left. */
  lemma StrictEnds(t: Table, rules: seq<Rule>, luck: nat -> bool, k: nat, n: nat)
    requires Wf(t) && n <= |rules| + 2
    ensures var r := Exec(t, ([Step(NewChain, false)] + Build(rules))[..n], luck, k);
      && (if r.ok && n == |rules| + 2 then t.chain.None? && r.table == Table(t.output + [Jump], Some(rules))
          else r.table.output == t.output && (t.chain.Some? ==> r.table == t) && (r.table.chain.None? ==> t.chain.None?))
      && ((t.chain.None? && forall j :: j >= k ==> luck(j)) ==> r.ok)
  {
    var steps := ([Step(NewChain, false)] + Build(rules))[..n];
    if n > 0 {
      assert steps[1..] == Build(rules)[..n - 1];
      if luck(k) && t.chain.None? {
        BuildEnds(t.(chain := Some([])), rules, luck, k + 1, n - 1);
        assert [] + rules == rules;
      }
    }
  }

  /**
   At every moment of an arm, however its calls fail: other programs' rules are kept, and OUTPUT
   runs through a chain without its DROP exactly when an old jump outlived the -D and the -F
   emptied the chain under it (or it was already so).
   */
  lemma HalfOpenIff(t: Table, rules: seq<Rule>, luck: nat -> bool, k: nat, n: nat)
    requires Wf(t) && EndsInDrop(rules) && n <= |ArmSteps(rules)|
    ensures var t' := Exec(t, ArmSteps(rules)[..n], luck, k).table;
      && Wf(t') && Foreigns(t'.output) == Foreigns(t.output)
      && (HalfOpen(t') <==>
           (Jumped(t) && !(n >= 1 && luck(k)) && (HalfOpen(t) || (n >= 2 && luck(k + 1)))))
  {
    var strict := [Step(NewChain, false)] + Build(rules);
    if n <= 3 {
      assert ArmSteps(rules)[..n] == TEARDOWN[..n];
      TeardownEnds(t, luck, k, n);
    } else {
      assert ArmSteps(rules)[..n] == TEARDOWN + strict[..n - 3];
      ExecAppend(t, TEARDOWN, strict[..n - 3], luck, k);
      assert TEARDOWN[..3] == TEARDOWN;
      TeardownEnds(t, luck, k, 3);
      TeardownRuns(t, luck, k, 3);
      var t1 := Exec(t, TEARDOWN, luck, k).table;
      StrictEnds(t1, rules, luck, k + 3, n - 3);
      if !Jumped(t1) {
        AddJump(t1.output);
      }
    }
  }

  /**
   An arm that succeeds leaves what a fresh arm leaves, whatever was there before; and it can
   fail only if a call fails.
   */
  lemma RearmIsFreshArm(t: Table, rules: seq<Rule>, luck: nat -> bool, k: nat)
    requires Wf(t)
    ensures var r := Exec(t, ArmSteps(rules), luck, k);
      && (r.ok ==> r.table == Table(Foreigns(t.output) + [Jump], Some(rules)))
      && ((forall j :: j >= k ==> luck(j)) ==> r.ok)
  {
    var strict := [Step(NewChain, false)] + Build(rules);
    ExecAppend(t, TEARDOWN, strict, luck, k);
    assert TEARDOWN[..3] == TEARDOWN && strict[..|rules| + 2] == strict;
    TeardownEnds(t, luck, k, 3);
    TeardownRuns(t, luck, k, 3);
    var t1 := Exec(t, TEARDOWN, luck, k).table;
    StrictEnds(t1, rules, luck, k + 3, |rules| + 2);
  }

  /** Off after on: OUTPUT is as it was and the chain is gone. */
  lemma OffUndoesOn(t: Table, rules: seq<Rule>, luck: nat -> bool, k: nat, j: nat)
    requires !Jumped(t) && t.chain.None?
    requires Exec(t, ArmSteps(rules), luck, k).ok && luck(j) && luck(j + 1) && luck(j + 2)
    ensures Exec(Exec(t, ArmSteps(rules), luck, k).table, TEARDOWN, luck, j).table == t
  {
    RemoveJump(t.output);
    RearmIsFreshArm(t, rules, luck, k);
    AddJump(t.output);
    assert TEARDOWN[..3] == TEARDOWN;
    TeardownEnds(Exec(t, ArmSteps(rules), luck, k).table, luck, j, 3);
  }

  // ---- runs ------------------------------------------------------------------------

  /** On and Off calls, each cut after n commands, with its own luck. */
  datatype Call = On(rules: seq<Rule>, luck: nat -> bool, n: nat) | Off(luck: nat -> bool, n: nat)

  function After(t: Table, c: Call): Table {
    match c
    case On(rules, luck, n) => if n <= |ArmSteps(rules)| then Exec(t, ArmSteps(rules)[..n], luck, 0).table else t
    case Off(luck, n) => if n <= 3 then Exec(t, TEARDOWN[..n], luck, 0).table else t
  }

  function RunCalls(t: Table, calls: seq<Call>): Table
    decreases |calls|
  {
    if calls == [] then t else RunCalls(After(t, calls[0]), calls[1..])
  }

  /** Every -D that is reached gets the lock; the rules are those of a kill switch. */
  predicate DeletesWork(calls: seq<Call>) {
    forall i :: 0 <= i < |calls| ==> calls[i].luck(0) && (calls[i].On? ==> EndsInDrop(calls[i].rules))
  }

  /**
   Over every run of arms and disarms, cut anywhere and failing anywhere except in the -D, no
   moment has OUTPUT running through an incomplete chain, and other programs' rules survive.
   */
  lemma {:induction false} NeverHalfOpen(t: Table, calls: seq<Call>)
    requires Wf(t) && !HalfOpen(t) && DeletesWork(calls)
    ensures var t' := RunCalls(t, calls);
      Wf(t') && !HalfOpen(t') && Foreigns(t'.output) == Foreigns(t.output)
    decreases |calls|
  {
    if calls != [] {
      match calls[0] {
        case On(rules, luck, n) =>
          if n <= |ArmSteps(rules)| {
            HalfOpenIff(t, rules, luck, 0, n);
          }
        case Off(luck, n) =>
          if n <= 3 {
            TeardownEnds(t, luck, 0, n);
          }
      }
      NeverHalfOpen(After(t, calls[0]), calls[1..]);
    }
  }

  // ---- what leaves the host --------------------------------------------------------

  /** OUTPUT in order; `foreign` is what another program's rule says about a packet. */
  function OutVerdict(width: nat, out: seq<OutRule>, chain: seq<Rule>, foreign: (nat, Packet) -> Option<Target>, p: Packet): Option<Target>
    decreases |out|
  {
    if out == [] then None
    else
      var v := match out[0] { case Foreign(id) => foreign(id, p) case Jump => Verdict(width, chain, p) };
      if v.Some? then v else OutVerdict(width, out[1..], chain, foreign, p)
  }

  lemma {:induction false} JumpComesLast(width: nat, out: seq<OutRule>, chain: seq<Rule>, foreign: (nat, Packet) -> Option<Target>, p: Packet)
    requires Jump !in out
    ensures var early := OutVerdict(width, out, [], foreign, p);
      OutVerdict(width, out + [Jump], chain, foreign, p) == if early.Some? then early else Verdict(width, chain, p)
    decreases |out|
  {
    if out == [] {
      assert ([] + [Jump])[1..] == [];
    } else {
      assert (out + [Jump])[1..] == out[1..] + [Jump];
      JumpComesLast(width, out[1..], chain, foreign, p);
    }
  }

  /**
   What an armed host sends: a packet that no earlier rule of another program has decided goes
   out exactly when it is one of the promised ones.
   */
  lemma ArmedSends(t: Table, iface: string, host: Address, dns: Dns, lan: bool, luck: nat -> bool, k: nat,
                   foreign: (nat, Packet) -> Option<Target>, p: Packet)
    requires Wf(t) && Exec(t, ArmSteps(Rules4(iface, host, dns, lan)), luck, k).ok
    ensures var t' := Exec(t, ArmSteps(Rules4(iface, host, dns, lan)), luck, k).table;
      var early := OutVerdict(32, Foreigns(t.output), [], foreign, p);
      && t'.chain.Some?
      && OutVerdict(32, t'.output, t'.chain.value, foreign, p)
         == if early.Some? then early else Some(if Allowed4(iface, host, lan, p) then Accept else Drop)
  {
    var rules := Rules4(iface, host, dns, lan);
    RearmIsFreshArm(t, rules, luck, k);
    NoJumpLeft(t.output);
    JumpComesLast(32, Foreigns(t.output), rules, foreign, p);
    ChainAcceptsIff(iface, host, dns, lan, p);
  }

  /** For the arguments of a call: the server is the one that was named, and the ranges are shared if asked. */
  lemma ArmedAsAsked(t: Table, p: Params, luck: nat -> bool, k: nat, foreign: (nat, Packet) -> Option<Target>, packet: Packet)
    requires Checked(p) && Wf(t) && Exec(t, ArmSteps(Asked4(p)), luck, k).ok
    ensures var t' := Exec(t, ArmSteps(Asked4(p)), luck, k).table;
      var early := OutVerdict(32, Foreigns(t.output), [], foreign, packet);
      && t'.chain.Some?
      && OutVerdict(32, t'.output, t'.chain.value, foreign, packet)
         == if early.Some? then early
            else Some(if Allowed4(p.iface, ParseIPv4(p.remote).value, p.lan, packet) then Accept else Drop)
  {
    var dns := if p.dnsIp == "" then NoDns else Dns(ParseIPv4(p.dnsIp).value);
    ArmedSends(t, p.iface, ParseIPv4(p.remote).value, dns, p.lan, luck, k, foreign, packet);
  }

  /** The IPv6 twin: only loopback, the tunnel and the shared ranges. */
  lemma Armed6Sends(t: Table, iface: string, lan: bool, luck: nat -> bool, k: nat,
                    foreign: (nat, Packet) -> Option<Target>, p: Packet)
    requires Wf(t) && AllLucky(luck, k)
    ensures var t' := BestEffort6(t, Rules6(iface, lan), luck, k);
      var early := OutVerdict(128, Foreigns(t.output), [], foreign, p);
      && t'.chain.Some?
      && OutVerdict(128, t'.output, t'.chain.value, foreign, p)
         == if early.Some? then early
            else Some(if p.oif == "lo" || p.oif == iface || (lan && InAny(128, LAN6, p.dst)) then Accept else Drop)
  {
    Armed6(t, Rules6(iface, lan), luck, k);
    NoJumpLeft(t.output);
    JumpComesLast(128, Foreigns(t.output), Rules6(iface, lan), foreign, p);
    Chain6AcceptsIff(iface, lan, p);
  }

  /** The shared ranges, as numbers: 10/8, 172.16/12, 192.168/16, 169.254/16, multicast, broadcast. */
  lemma SharedRanges4(a: Address)
    requires a < 0x1_0000_0000
    ensures InAny(32, LAN4, a)
       <==> (|| 0x0A00_0000 <= a < 0x0B00_0000 || 0xAC10_0000 <= a < 0xAC20_0000 || 0xC0A8_0000 <= a < 0xC0A9_0000
             || 0xA9FE_0000 <= a < 0xA9FF_0000 || 0xE000_0000 <= a < 0xF000_0000 || a == 0xFFFF_FFFF)
  {
    Powers();
    assert InAny(32, LAN4, a) <==> exists i :: 0 <= i < 6 && Covers(32, LAN4[i], a);
    RangeIs(32, 8, 0x100_0000, 10, a);
    RangeIs(32, 12, 0x10_0000, 0xAC1, a);
    RangeIs(32, 16, 0x1_0000, 0xC0A8, a);
    RangeIs(32, 16, 0x1_0000, 0xA9FE, a);
    RangeIs(32, 4, 0x1000_0000, 0xE, a);
    RangeIs(32, 32, 1, 0xFFFF_FFFF, a);
    SameNets();
    assert Covers(32, LAN4[0], a) <==> 0x0A00_0000 <= a < 0x0B00_0000;
    assert Covers(32, LAN4[1], a) <==> 0xAC10_0000 <= a < 0xAC20_0000;
    assert Covers(32, LAN4[2], a) <==> 0xC0A8_0000 <= a < 0xC0A9_0000;
    assert Covers(32, LAN4[3], a) <==> 0xA9FE_0000 <= a < 0xA9FF_0000;
    assert Covers(32, LAN4[4], a) <==> 0xE000_0000 <= a < 0xF000_0000;
    assert Covers(32, LAN4[5], a) <==> a == 0xFFFF_FFFF;
  }

  /** The ranges as multiples of their size. */
  lemma SameNets()
    ensures LAN4 == [Net(0x100_0000 * 10, 8), Net(0x10_0000 * 0xAC1, 12), Net(0x1_0000 * 0xC0A8, 16),
                     Net(0x1_0000 * 0xA9FE, 16), Net(0x1000_0000 * 0xE, 4), Net(1 * 0xFFFF_FFFF, 32)]
  {
  }

  /** A prefix whose addresses are p in number, the q-th of its size. */
  lemma RangeIs(width: nat, len: nat, p: nat, q: nat, a: Address)
    requires len <= width && Pow2(width - len) == p
    ensures Covers(width, Net(p * q, len), a) <==> p * q <= a < p * q + p
  {
    QuotientIs(p * q, p, q, 0);
    assert a == p * (a / p) + a % p;
    if p * q <= a < p * q + p {
      QuotientIs(a, p, q, a - p * q);
    }
  }

  /** And for IPv6, with p = 2^112: fe80::/10, fc00::/7 and multicast. */
  lemma SharedRanges6(a: Address, p: nat)
    requires p == Pow2(112)
    ensures InAny(128, LAN6, a)
       <==> 0xfe80 * p <= a < 0xfec0 * p || 0xfc00 * p <= a < 0xfe00 * p || 0xff00 * p <= a < 0x1_0000 * p
  {
    SixPowers();
    ThreeRanges(LAN6, 128, p, a);
  }

  lemma ThreeRanges(nets: seq<Net>, width: nat, p: nat, a: Address)
    requires width == 128 && nets == [Net(0xfe80 * p, 10), Net(0xfc00 * p, 7), Net(0xff00 * p, 8)]
    requires Pow2(width - 10) == 64 * p && Pow2(width - 7) == 512 * p && Pow2(width - 8) == 256 * p
    ensures InAny(width, nets, a)
       <==> 0xfe80 * p <= a < 0xfec0 * p || 0xfc00 * p <= a < 0xfe00 * p || 0xff00 * p <= a < 0x1_0000 * p
  {
    RangeOf(width, 10, nets[0], 64 * p, 0x3FA, a);
    RangeOf(width, 7, nets[1], 512 * p, 0x7E, a);
    RangeOf(width, 8, nets[2], 256 * p, 0xFF, a);
    InAnyOfThree(nets, width, a);
  }

  lemma InAnyOfThree(nets: seq<Net>, width: nat, a: Address)
    requires |nets| == 3
    ensures InAny(width, nets, a) <==> Covers(width, nets[0], a) || Covers(width, nets[1], a) || Covers(width, nets[2], a)
  {
  }

  lemma RangeOf(width: nat, len: nat, net: Net, p: nat, q: nat, a: Address)
    requires len <= width && Pow2(width - len) == p && net == Net(p * q, len)
    ensures Covers(width, net, a) <==> p * q <= a < p * q + p
  {
    RangeIs(width, len, p, q, a);
  }

  lemma SixPowers()
    ensures Pow2(118) == 64 * Pow2(112) && Pow2(121) == 512 * Pow2(112) && Pow2(120) == 256 * Pow2(112)
  {
    assert Pow2(6) == 64 && Pow2(9) == 512 && Pow2(8) == 256;
    PowSum(6, 112);
    PowSum(9, 112);
    PowSum(8, 112);
  }

  lemma Powers()
    ensures Pow2(24) == 0x100_0000 && Pow2(20) == 0x10_0000 && Pow2(16) == 0x1_0000 && Pow2(28) == 0x1000_0000 && Pow2(0) == 1
  {
    assert Pow2(4) == 16 && Pow2(8) == 256;
    PowSum(8, 8);
    PowSum(16, 8);
    PowSum(16, 4);
    PowSum(24, 4);
  }

  lemma {:induction false} NoJumpLeft(out: seq<OutRule>)
    ensures Jump !in Foreigns(out)
    decreases |out|
  {
    if out != [] {
      NoJumpLeft(out[1..]);
    }
  }
}
