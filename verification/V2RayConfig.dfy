/**
 The V2Ray config rewriting of src/main/config-guard.ts, judged by what a router makes of it: the
 first rule that matches a packet decides, and the first outbound is the default.
 */
module V2RayConfig {
  import opened Common

  // ---- configs ---------------------------------------------------------------------

  datatype Inbound = Inbound(tag: Option<string>, protocol: string, listen: Option<string>)

  /** `vision` is the flow xtls-rprx-vision. */
  datatype User = User(id: nat, vision: bool)

  datatype Endpoint = Endpoint(address: Option<string>, port: Option<nat>, user: User)

  /** `usable`: a server name that is not blank and a key of 32 bytes. */
  datatype RealityKeys = RealityKeys(serverName: string, publicKey: string, shortId: string, usable: bool)

  datatype Security = Plain | Tls(fingerprint: string, pin: Option<string>) | Reality(fingerprint: string, keys: RealityKeys)

  /** streamSettings. */
  datatype Stream = Stream(network: string, security: Security)

  /** `proxyTag` is proxySettings: the outbound is dialed through another one. */
  datatype Outbound = Outbound(tag: Option<string>, protocol: string, vnext: Option<seq<Endpoint>>,
                               stream: Option<Stream>, proxyTag: Option<string>)

  /** `extra` stands for every other condition that a rule may carry. */
  datatype Rule = Rule(inboundTag: Option<seq<string>>, port: Option<nat>, extra: Option<nat>,
                       outboundTag: Option<string>, balancerTag: Option<string>)

  /** A balancer chooses among the outbounds whose tag starts with one of its selectors. */
  datatype Balancer = Balancer(tag: Option<string>, selectors: seq<string>)

  datatype Routing = Routing(rules: Option<seq<Rule>>, balancers: Option<seq<Balancer>>)

  datatype Log = Log(access: Option<string>, error: Option<string>)

  datatype Dns = Dns(host: string, ips: seq<string>, server: string, tag: string)

  datatype Config = Config(log: Option<Log>, inbounds: Option<seq<Inbound>>, outbounds: Option<seq<Outbound>>,
                           routing: Option<Routing>, dns: Option<Dns>)

  function Listed<T>(o: Option<seq<T>>): seq<T> {
    if o.Some? then o.value else []
  }

  function Outbounds(c: Config): seq<Outbound> {
    Listed(c.outbounds)
  }

  function Rules(c: Config): seq<Rule> {
    if c.routing.Some? then Listed(c.routing.value.rules) else []
  }

  function Balancers(c: Config): seq<Balancer> {
    if c.routing.Some? then Listed(c.routing.value.balancers) else []
  }

  // ---- the rewrites ----------------------------------------------------------------

  const QUIET_LOG := Log(Some("none"), Some(""))

  function WithDiagnosticLog(c: Config): Config {
    c.(log := Some(QUIET_LOG))
  }

  /** `resolve` gives an IPv4 literal or None; `ipv4` recognises one. */
  function PinEndpoint(e: Endpoint, ipv4: string -> bool, resolve: string -> Option<string>): Endpoint {
    if e.address.None? || ipv4(e.address.value) || resolve(e.address.value).None? then e
    else e.(address := resolve(e.address.value))
  }

  function PinEndpoints(es: seq<Endpoint>, ipv4: string -> bool, resolve: string -> Option<string>): (r: seq<Endpoint>)
    ensures |r| == |es| && forall i :: 0 <= i < |es| ==> r[i] == PinEndpoint(es[i], ipv4, resolve)
  {
    seq(|es|, i requires 0 <= i < |es| => PinEndpoint(es[i], ipv4, resolve))
  }

  function PinOutbound(o: Outbound, ipv4: string -> bool, resolve: string -> Option<string>): Outbound {
    if o.vnext.None? then o else o.(vnext := Some(PinEndpoints(o.vnext.value, ipv4, resolve)))
  }

  function PinOutbounds(os: seq<Outbound>, ipv4: string -> bool, resolve: string -> Option<string>): (r: seq<Outbound>)
    ensures |r| == |os| && forall i :: 0 <= i < |os| ==> r[i] == PinOutbound(os[i], ipv4, resolve)
  {
    seq(|os|, i requires 0 <= i < |os| => PinOutbound(os[i], ipv4, resolve))
  }

  function PinNodeAddresses(c: Config, ipv4: string -> bool, resolve: string -> Option<string>): Config {
    if c.outbounds.None? then c else c.(outbounds := Some(PinOutbounds(c.outbounds.value, ipv4, resolve)))
  }

  const LOOPBACK := {"127.0.0.1", "localhost", "::1"}

  predicate SafeLog(l: Option<Log>) {
    l.Some? ==> (forall v :: v in [l.value.access, l.value.error] && v.Some? ==> v.value == "" || v.value == "none")
  }

  predicate Safe(c: Config) {
    && Outbounds(c) != []
    && SafeLog(c.log)
    && forall i :: 0 <= i < |Listed(c.inbounds)| && Listed(c.inbounds)[i].listen.Some? ==>
         Listed(c.inbounds)[i].listen.value in LOOPBACK
  }

  /** assertSafeV2RayConfig. */
  method AssertSafe(c: Config) returns (ok: bool)
    ensures ok <==> Safe(c)
  {
    if c.outbounds.None? || c.outbounds.value == [] {
      return false;
    }
    if c.log.Some? {
      var fields := [c.log.value.access, c.log.value.error];
      assert forall v :: v in fields <==> v == fields[0] || v == fields[1];
      for i := 0 to 2
        invariant forall k :: 0 <= k < i && fields[k].Some? ==> fields[k].value == "" || fields[k].value == "none"
      {
        if fields[i].Some? && fields[i].value != "" && fields[i].value != "none" {
          return false;
        }
      }
    }
    var inbounds := Listed(c.inbounds);
    for i := 0 to |inbounds|
      invariant forall k :: 0 <= k < i && inbounds[k].listen.Some? ==> inbounds[k].listen.value in LOOPBACK
    {
      if inbounds[i].listen.Some? && inbounds[i].listen.value !in LOOPBACK {
        return false;
      }
    }
    ok := true;
  }

  /** What the check asks for, spelled out. */
  lemma SafeMeans(c: Config)
    ensures Safe(c)
       <==> c.outbounds.Some? && c.outbounds.value != []
            && (c.log.Some? ==> (c.log.value.access.Some? ==> c.log.value.access.value in {"", "none"})
                                && (c.log.value.error.Some? ==> c.log.value.error.value in {"", "none"}))
            && (c.inbounds.Some? ==>
                  forall i :: 0 <= i < |c.inbounds.value| && c.inbounds.value[i].listen.Some?
                         ==> c.inbounds.value[i].listen.value in {"127.0.0.1", "localhost", "::1"})
  {
    if c.log.Some? {
      SafeLogMeans(c.log.value);
    }
    var inbounds := Listed(c.inbounds);
    assert c.inbounds.None? ==> inbounds == [];
    assert c.inbounds.Some? ==> inbounds == c.inbounds.value;
    assert Safe(c) <==> Outbounds(c) != [] && SafeLog(c.log)
                        && forall i :: 0 <= i < |inbounds| && inbounds[i].listen.Some? ==> inbounds[i].listen.value in LOOPBACK;
  }

  lemma SafeLogMeans(l: Log)
    ensures SafeLog(Some(l))
       <==> (l.access.Some? ==> l.access.value in {"", "none"}) && (l.error.Some? ==> l.error.value in {"", "none"})
  {
    var fields := [l.access, l.error];
    assert fields[0] == l.access && fields[1] == l.error;
    assert l.access in fields && l.error in fields;
    assert forall v :: v in fields ==> v == l.access || v == l.error;
  }

  // ---- DNS over HTTPS --------------------------------------------------------------

  const DNS_OUT := "dns-out"
  const DNS_MODULE := "dns-module"
  const DNS_OUTBOUND := Outbound(Some("dns-out"), "dns", None, None, None)

  function DohEndpoint(ip: string): Option<(string, string, seq<string>)> {
    if ip == "1.1.1.1" || ip == "1.0.0.1" then
      Some(("https://cloudflare-dns.com/dns-query", "cloudflare-dns.com", ["1.1.1.1", "1.0.0.1"]))
    else if ip == "8.8.8.8" then Some(("https://dns.google/dns-query", "dns.google", ["8.8.8.8", "8.8.4.4"]))
    else if ip == "9.9.9.9" then Some(("https://dns.quad9.net/dns-query", "dns.quad9.net", ["9.9.9.9", "149.112.112.112"]))
    else if ip == "45.90.28.0" then Some(("https://dns.nextdns.io/dns-query", "dns.nextdns.io", ["45.90.28.0", "45.90.30.0"]))
    else None
  }

  /** The tags of the socks inbounds. */
  function SocksTags(inbounds: seq<Inbound>): seq<string>
    decreases |inbounds|
  {
    if inbounds == [] then []
    else (if inbounds[0].protocol == "socks" && inbounds[0].tag.Some? then [inbounds[0].tag.value] else [])
         + SocksTags(inbounds[1..])
  }

  function InterceptTags(c: Config): seq<string> {
    var tags := SocksTags(Listed(c.inbounds));
    if tags != [] then tags else ["proxy"]
  }

  predicate Overlap(a: seq<string>, b: seq<string>) {
    exists t :: t in a && t in b
  }

  /** The balancer of the first rule that balances an intercepted inbound. */
  function ProxyBalancer(rules: seq<Rule>, tags: seq<string>): Option<string>
    decreases |rules|
  {
    if rules == [] then None
    else if rules[0].inboundTag.Some? && Overlap(rules[0].inboundTag.value, tags) && rules[0].balancerTag.Some? then
      rules[0].balancerTag
    else ProxyBalancer(rules[1..], tags)
  }

  /** Where the resolver's own traffic goes: outbound tag or balancer tag, or neither. */
  function Egress(c: Config): (Option<string>, Option<string>) {
    var proxy := ProxyBalancer(Rules(c), InterceptTags(c));
    if proxy.Some? then (None, proxy)
    else if Balancers(c) != [] && Balancers(c)[0].tag.Some? && Balancers(c)[0].tag.value != "" then (None, Balancers(c)[0].tag)
    else if Outbounds(c) != [] && Outbounds(c)[0].tag.Some? && Outbounds(c)[0].tag.value != "" then (Outbounds(c)[0].tag, None)
    else (None, None)
  }

  function InterceptRule(c: Config): Rule {
    Rule(Some(InterceptTags(c)), Some(53), None, Some(DNS_OUT), None)
  }

  function NewRules(c: Config): seq<Rule> {
    var (o, b) := Egress(c);
    [InterceptRule(c)] + if o.Some? || b.Some? then [Rule(Some([DNS_MODULE]), None, None, o, b)] else []
  }

  function WithDoH(c: Config, resolver: string): Config {
    var e := DohEndpoint(resolver);
    if e.None? then c
    else
      var (url, host, ips) := e.value;
      var routing := if c.routing.Some? then c.routing.value else Routing(None, None);
      Config(c.log, c.inbounds, Some(Outbounds(c) + [DNS_OUTBOUND]),
             Some(routing.(rules := Some(NewRules(c) + Rules(c)))), Some(Dns(host, ips, url, DNS_MODULE)))
  }

  // ---- the router ------------------------------------------------------------------

  datatype Packet = Packet(inbound: Option<string>, dport: nat, rest: nat)

  /** `holds` is what the other conditions say of a packet. */
  predicate Matches(r: Rule, p: Packet, holds: (nat, Packet) -> bool) {
    && (r.inboundTag.Some? ==> p.inbound.Some? && p.inbound.value in r.inboundTag.value)
    && (r.port.Some? ==> p.dport == r.port.value)
    && (r.extra.Some? ==> holds(r.extra.value, p))
  }

  datatype Decision = ToTag(tag: string) | ToBalancer(balancer: string) | Default

  function Target(r: Rule): Decision {
    if r.outboundTag.Some? then ToTag(r.outboundTag.value)
    else if r.balancerTag.Some? then ToBalancer(r.balancerTag.value)
    else Default
  }

  function Decide(rules: seq<Rule>, p: Packet, holds: (nat, Packet) -> bool): Decision
    decreases |rules|
  {
    if rules == [] then Default
    else if Matches(rules[0], p, holds) then Target(rules[0])
    else Decide(rules[1..], p, holds)
  }

  /** The first outbound with a tag. */
  function Tagged(os: seq<Outbound>, tag: string): Option<Outbound>
    decreases |os|
  {
    if os == [] then None else if os[0].tag == Some(tag) then Some(os[0]) else Tagged(os[1..], tag)
  }

  predicate Selected(selectors: seq<string>, o: Outbound) {
    o.tag.Some? && exists i :: 0 <= i < |selectors| && selectors[i] <= o.tag.value
  }

  /** The outbounds that a balancer chooses from, in order. */
  function Pool(os: seq<Outbound>, selectors: seq<string>): seq<Outbound>
    decreases |os|
  {
    if os == [] then [] else (if Selected(selectors, os[0]) then [os[0]] else []) + Pool(os[1..], selectors)
  }

  /** All selectors of the balancers with a tag. */
  function SelectorsOf(bs: seq<Balancer>, tag: string): seq<string>
    decreases |bs|
  {
    if bs == [] then [] else if bs[0].tag == Some(tag) then bs[0].selectors else SelectorsOf(bs[1..], tag)
  }

  /** The outbounds that may carry a packet: one, or a balancer's pool. */
  function Carriers(c: Config, p: Packet, holds: (nat, Packet) -> bool): seq<Outbound>
    requires Outbounds(c) != []
  {
    match Decide(Rules(c), p, holds)
    case Default => [Outbounds(c)[0]]
    case ToTag(t) => [if Tagged(Outbounds(c), t).Some? then Tagged(Outbounds(c), t).value else Outbounds(c)[0]]
    case ToBalancer(b) => Pool(Outbounds(c), SelectorsOf(Balancers(c), b))
  }

  predicate Intercepted(c: Config, p: Packet) {
    p.dport == 53 && p.inbound.Some? && p.inbound.value in InterceptTags(c)
  }

  // ---- what the rewrite keeps ------------------------------------------------------

  lemma {:induction false} TaggedAppend(os: seq<Outbound>, o: Outbound, tag: string)
    ensures Tagged(os + [o], tag)
         == if Tagged(os, tag).Some? then Tagged(os, tag) else if o.tag == Some(tag) then Some(o) else None
    decreases |os|
  {
    if os == [] {
      assert (os + [o])[0] == o && (os + [o])[1..] == [];
    } else {
      assert (os + [o])[0] == os[0] && (os + [o])[1..] == os[1..] + [o];
      TaggedAppend(os[1..], o, tag);
    }
  }

  lemma Associate<T>(a: seq<T>, b: seq<T>, c: seq<T>)
    ensures a + (b + c) == a + b + c
  {
  }

  lemma {:induction false} PoolAppend(os: seq<Outbound>, o: Outbound, selectors: seq<string>)
    ensures Pool(os + [o], selectors) == Pool(os, selectors) + if Selected(selectors, o) then [o] else []
    decreases |os|
  {
    if os == [] {
      assert (os + [o])[0] == o && (os + [o])[1..] == [];
    } else {
      assert (os + [o])[0] == os[0] && (os + [o])[1..] == os[1..] + [o];
      PoolAppend(os[1..], o, selectors);
      Associate(if Selected(selectors, os[0]) then [os[0]] else [], Pool(os[1..], selectors),
                if Selected(selectors, o) then [o] else []);
    }
  }

  /** The new rules pass every packet on that is neither intercepted nor the resolver's own. */
  lemma DecideBehind(c: Config, p: Packet, holds: (nat, Packet) -> bool)
    requires !Intercepted(c, p) && p.inbound != Some(DNS_MODULE)
    ensures Decide(NewRules(c) + Rules(c), p, holds) == Decide(Rules(c), p, holds)
  {
    var news, rules := NewRules(c), Rules(c);
    assert !Matches(news[0], p, holds);
    var rest := (news + rules)[1..];
    if |news| == 1 {
      assert rest == rules;
    } else {
      assert rest[0] == news[1] && rest[1..] == rules;
      assert !Matches(rest[0], p, holds);
    }
  }

  /** Some packet-deciding piece of the old config already uses the new outbound's name. */
  predicate NameTaken(c: Config, d: Decision) {
    match d
    case Default => false
    case ToTag(t) => t == DNS_OUT && Tagged(Outbounds(c), DNS_OUT).None?
    case ToBalancer(b) => Selected(SelectorsOf(Balancers(c), b), DNS_OUTBOUND)
  }

  /**
   The rewrite keeps the routing: a packet that is neither intercepted nor the resolver's own is
   carried by the same outbounds as before, exactly when the rule that decides it does not name
   the new outbound (a missing tag "dns-out", or a balancer that would select it).
   */
  lemma RoutingKeptIff(c: Config, resolver: string, p: Packet, holds: (nat, Packet) -> bool)
    requires Outbounds(c) != [] && DohEndpoint(resolver).Some?
    requires !Intercepted(c, p) && p.inbound != Some(DNS_MODULE)
    ensures Outbounds(WithDoH(c, resolver)) != []
    ensures Carriers(WithDoH(c, resolver), p, holds) == Carriers(c, p, holds)
       <==> !NameTaken(c, Decide(Rules(c), p, holds))
  {
    DecideBehind(c, p, holds);
    var d := Decide(Rules(c), p, holds);
    match d {
      case Default =>
      case ToTag(t) =>
        TaggedAppend(Outbounds(c), DNS_OUTBOUND, t);
        if t == DNS_OUT && Tagged(Outbounds(c), t).None? {
          assert Outbounds(c)[0].tag != Some(DNS_OUT);
        }
      case ToBalancer(b) =>
        var s := SelectorsOf(Balancers(c), b);
        PoolAppend(Outbounds(c), DNS_OUTBOUND, s);
        assert |Pool(Outbounds(c), s) + [DNS_OUTBOUND]| == |Pool(Outbounds(c), s)| + 1;
    }
  }

  /**
   The rewrite adds an outbound, its rules and the resolver, and changes nothing else; for a resolver
   that is not in its table, nothing at all.
   */
  lemma DohKeeps(c: Config, resolver: string)
    ensures DohEndpoint(resolver).None? ==> WithDoH(c, resolver) == c
    ensures DohEndpoint(resolver).Some? ==>
              var c' := WithDoH(c, resolver);
              && c'.log == c.log && c'.inbounds == c.inbounds && Balancers(c') == Balancers(c)
              && Outbounds(c') == Outbounds(c) + [Outbound(Some("dns-out"), "dns", None, None, None)]
              && |Rules(c)| <= |Rules(c')| && Rules(c')[|Rules(c')| - |Rules(c)|..] == Rules(c)
              && c'.dns.Some? && c'.dns.value.tag == "dns-module"
              && DohEndpoint(resolver).value == (c'.dns.value.server, c'.dns.value.host, c'.dns.value.ips)
  {
  }

  /** The resolvers that can be asked so, by the address the user picks. */
  lemma DohTable(resolver: string)
    ensures DohEndpoint(resolver)
         == if resolver in {"1.1.1.1", "1.0.0.1"}
            then Some(("https://cloudflare-dns.com/dns-query", "cloudflare-dns.com", ["1.1.1.1", "1.0.0.1"]))
            else if resolver == "8.8.8.8" then Some(("https://dns.google/dns-query", "dns.google", ["8.8.8.8", "8.8.4.4"]))
            else if resolver == "9.9.9.9"
            then Some(("https://dns.quad9.net/dns-query", "dns.quad9.net", ["9.9.9.9", "149.112.112.112"]))
            else if resolver == "45.90.28.0"
            then Some(("https://dns.nextdns.io/dns-query", "dns.nextdns.io", ["45.90.28.0", "45.90.30.0"]))
            else None
  {
  }

  /** A balancer that selects every tag selects the resolver's outbound too, for any packet it carries. */
  lemma BalancerTakesDnsOut(c: Config, resolver: string, p: Packet, holds: (nat, Packet) -> bool, b: string)
    requires Outbounds(c) != [] && DohEndpoint(resolver).Some?
    requires !Intercepted(c, p) && p.inbound != Some(DNS_MODULE)
    requires Decide(Rules(c), p, holds) == ToBalancer(b) && SelectorsOf(Balancers(c), b) == [""]
    ensures Carriers(WithDoH(c, resolver), p, holds) != Carriers(c, p, holds)
  {
    assert [""][0] <= DNS_OUT;
    RoutingKeptIff(c, resolver, p, holds);
  }

  /** Every intercepted query is answered by the resolver, unless its tag was already in use. */
  lemma InterceptedGoesToDns(c: Config, resolver: string, p: Packet, holds: (nat, Packet) -> bool)
    requires DohEndpoint(resolver).Some? && Intercepted(c, p)
    ensures Outbounds(WithDoH(c, resolver)) != []
    ensures Carriers(WithDoH(c, resolver), p, holds)
         == [if Tagged(Outbounds(c), DNS_OUT).Some? then Tagged(Outbounds(c), DNS_OUT).value else DNS_OUTBOUND]
  {
    TaggedAppend(Outbounds(c), DNS_OUTBOUND, DNS_OUT);
    assert Matches((NewRules(c) + Rules(c))[0], p, holds);
  }

  /** Every socks inbound that has a tag is intercepted, and no other inbound if there is one. */
  lemma {:induction false} SocksTagsMean(inbounds: seq<Inbound>, tag: string)
    ensures tag in SocksTags(inbounds)
       <==> (exists i :: 0 <= i < |inbounds| && inbounds[i].protocol == "socks" && inbounds[i].tag == Some(tag))
    decreases |inbounds|
  {
    if inbounds != [] {
      SocksTagsMean(inbounds[1..], tag);
      assert forall i :: 0 <= i < |inbounds| - 1 ==> inbounds[1..][i] == inbounds[i + 1];
      if tag in SocksTags(inbounds[1..]) {
        var i :| 0 <= i < |inbounds[1..]| && inbounds[1..][i].protocol == "socks" && inbounds[1..][i].tag == Some(tag);
        assert inbounds[i + 1].tag == Some(tag);
      }
      if i :| 0 <= i < |inbounds| && inbounds[i].protocol == "socks" && inbounds[i].tag == Some(tag) {
        assert i > 0 ==> inbounds[1..][i - 1] == inbounds[i];
      }
    }
  }

  /** A rule that balances an intercepted inbound. */
  predicate BalancesIntercepted(c: Config, r: Rule) {
    r.inboundTag.Some? && r.balancerTag.Some? && exists t :: t in r.inboundTag.value && t in InterceptTags(c)
  }

  /** The first such rule. */
  predicate FirstBalancing(c: Config, i: nat) {
    && i < |Rules(c)| && BalancesIntercepted(c, Rules(c)[i])
    && forall j :: 0 <= j < i ==> !BalancesIntercepted(c, Rules(c)[j])
  }

  lemma {:induction false} ProxyBalancerIs(c: Config, n: nat)
    requires n <= |Rules(c)| && forall j :: 0 <= j < n ==> !BalancesIntercepted(c, Rules(c)[j])
    ensures var b := ProxyBalancer(Rules(c)[n..], InterceptTags(c));
      && (b.None? ==> forall j :: 0 <= j < |Rules(c)| ==> !BalancesIntercepted(c, Rules(c)[j]))
      && (b.Some? ==> exists i: nat :: FirstBalancing(c, i) && Rules(c)[i].balancerTag == b)
    decreases |Rules(c)| - n
  {
    if n < |Rules(c)| {
      var rest := Rules(c)[n..];
      assert rest[0] == Rules(c)[n] && rest[1..] == Rules(c)[n + 1..];
      if BalancesIntercepted(c, Rules(c)[n]) {
        assert FirstBalancing(c, n);
      } else {
        ProxyBalancerIs(c, n + 1);
      }
    }
  }

  /** The rule after the intercept is the resolver's. */
  lemma ResolverDecision(c: Config, p: Packet, holds: (nat, Packet) -> bool)
    requires p.inbound == Some(DNS_MODULE) && !Intercepted(c, p)
    ensures var (o, b) := Egress(c);
      Decide(NewRules(c) + Rules(c), p, holds)
      == if o.Some? then ToTag(o.value) else if b.Some? then ToBalancer(b.value) else Decide(Rules(c), p, holds)
  {
    var news, rules := NewRules(c), Rules(c);
    var rest := (news + rules)[1..];
    assert !Matches(news[0], p, holds);
    if |news| == 1 {
      assert rest == rules;
    } else {
      assert rest[0] == news[1] && rest[1..] == rules;
    }
  }

  predicate Balances(c: Config) {
    exists i :: 0 <= i < |Rules(c)| && FirstBalancing(c, i)
  }

  predicate FirstBalancerNamed(c: Config) {
    Balancers(c) != [] && Balancers(c)[0].tag.Some? && Balancers(c)[0].tag.value != ""
  }

  predicate FirstOutboundNamed(c: Config) {
    Outbounds(c) != [] && Outbounds(c)[0].tag.Some? && Outbounds(c)[0].tag.value != ""
  }

  lemma EgressIs(c: Config)
    ensures forall i: nat :: FirstBalancing(c, i) ==> Egress(c) == (None, Rules(c)[i].balancerTag)
    ensures !Balances(c) ==>
              Egress(c) == if FirstBalancerNamed(c) then (None, Balancers(c)[0].tag)
                           else if FirstOutboundNamed(c) then (Outbounds(c)[0].tag, None) else (None, None)
  {
    ProxyBalancerIs(c, 0);
    assert Rules(c)[0..] == Rules(c);
    forall i: nat, j: nat | FirstBalancing(c, i) && FirstBalancing(c, j) ensures i == j {
      OneFirst(c, i, j);
    }
  }

  lemma OneFirst(c: Config, i: nat, j: nat)
    requires FirstBalancing(c, i) && FirstBalancing(c, j)
    ensures i == j
  {
  }

  /**
   The resolver's own requests leave through the tunnel: by the balancer of the first rule that
   balances an intercepted inbound; where no rule does, by the first balancer if it has a name; else
   by the first outbound if it has one; and else as the old rules say.
   */
  lemma ResolverEgress(c: Config, resolver: string, p: Packet, holds: (nat, Packet) -> bool)
    requires Outbounds(c) != [] && DohEndpoint(resolver).Some?
    requires p.inbound == Some(DNS_MODULE) && !Intercepted(c, p)
    ensures var c' := WithDoH(c, resolver);
      var d := Decide(Rules(c'), p, holds);
      && Outbounds(c') != []
      && (forall i: nat :: FirstBalancing(c, i) ==> d == ToBalancer(Rules(c)[i].balancerTag.value))
      && (!Balances(c) && FirstBalancerNamed(c) ==> d == ToBalancer(Balancers(c)[0].tag.value))
      && (!Balances(c) && !FirstBalancerNamed(c) && FirstOutboundNamed(c) ==> Carriers(c', p, holds) == [Outbounds(c)[0]])
      && (!Balances(c) && !FirstBalancerNamed(c) && !FirstOutboundNamed(c) ==> d == Decide(Rules(c), p, holds))
  {
    ResolverDecision(c, p, holds);
    EgressIs(c);
    assert Rules(WithDoH(c, resolver)) == NewRules(c) + Rules(c);
    if Egress(c).0.Some? {
      TaggedAppend(Outbounds(c), DNS_OUTBOUND, Outbounds(c)[0].tag.value);
    }
  }

  // ---- pinning and the whole preparation -------------------------------------------

  /** After pinning, an address is an IPv4 literal or one that cannot be resolved. */
  lemma PinnedOrUnresolvable(c: Config, ipv4: string -> bool, resolve: string -> Option<string>, i: nat, k: nat)
    requires forall s: string :: resolve(s).Some? ==> ipv4(resolve(s).value)
    requires i < |Outbounds(c)| && Outbounds(c)[i].vnext.Some? && k < |Outbounds(c)[i].vnext.value|
    ensures var os := Outbounds(PinNodeAddresses(c, ipv4, resolve));
      && |os| == |Outbounds(c)| && os[i].vnext.Some? && |os[i].vnext.value| == |Outbounds(c)[i].vnext.value|
      && os[i].tag == Outbounds(c)[i].tag && os[i].proxyTag == Outbounds(c)[i].proxyTag
      && var a := os[i].vnext.value[k].address; a.Some? ==> ipv4(a.value) || resolve(a.value).None?
    ensures PinNodeAddresses(PinNodeAddresses(c, ipv4, resolve), ipv4, resolve) == PinNodeAddresses(c, ipv4, resolve)
  {
    var os := Outbounds(PinNodeAddresses(c, ipv4, resolve));
    forall j | 0 <= j < |os| ensures PinOutbound(os[j], ipv4, resolve) == os[j] {
      PinTwice(Outbounds(c)[j], ipv4, resolve);
    }
    assert PinOutbounds(os, ipv4, resolve) == os;
  }

  /** Of an endpoint only the address changes, and only a name that resolves. */
  lemma PinnedExactly(c: Config, ipv4: string -> bool, resolve: string -> Option<string>, i: nat, k: nat)
    requires i < |Outbounds(c)| && Outbounds(c)[i].vnext.Some? && k < |Outbounds(c)[i].vnext.value|
    ensures var os := Outbounds(PinNodeAddresses(c, ipv4, resolve));
      && i < |os| && os[i].vnext.Some? && k < |os[i].vnext.value|
      && var e, e' := Outbounds(c)[i].vnext.value[k], os[i].vnext.value[k];
         && e'.port == e.port && e'.user == e.user
         && (e.address.None? ==> e'.address.None?)
         && (e.address.Some? && !ipv4(e.address.value) && resolve(e.address.value).Some? ==> e'.address == resolve(e.address.value))
         && (e.address.Some? && (ipv4(e.address.value) || resolve(e.address.value).None?) ==> e'.address == e.address)
    ensures PinNodeAddresses(c, ipv4, resolve) == c.(outbounds := PinNodeAddresses(c, ipv4, resolve).outbounds)
  {
  }

  lemma PinTwice(o: Outbound, ipv4: string -> bool, resolve: string -> Option<string>)
    requires forall s: string :: resolve(s).Some? ==> ipv4(resolve(s).value)
    ensures PinOutbound(PinOutbound(o, ipv4, resolve), ipv4, resolve) == PinOutbound(o, ipv4, resolve)
  {
    if o.vnext.Some? {
      var es := PinEndpoints(o.vnext.value, ipv4, resolve);
      assert PinEndpoints(es, ipv4, resolve) == es;
    }
  }

  /** What connectV2RayFromConfig writes for the core: None where the check throws. */
  function Prepared(c: Config, ipv4: string -> bool, resolve: string -> Option<string>, doh: Option<string>): Option<Config> {
    var pinned := PinNodeAddresses(WithDiagnosticLog(c), ipv4, resolve);
    if !Safe(pinned) then None
    else Some(if doh.Some? then WithDoH(pinned, doh.value) else pinned)
  }

  /** The later rewriting undoes nothing that the check asked for, nor any pin. */
  lemma PreparedIsSafe(c: Config, ipv4: string -> bool, resolve: string -> Option<string>, doh: Option<string>)
    ensures var r := Prepared(c, ipv4, resolve, doh);
      && (r.Some? <==> Outbounds(c) != [] && Safe(c.(log := None)))
      && (r.Some? ==> Safe(r.value))
      && (r.Some? ==> PinOutbounds(Outbounds(c), ipv4, resolve) <= Outbounds(r.value))
      && (r.Some? ==> r.value.log == Some(Log(Some("none"), Some(""))) && r.value.inbounds == c.inbounds)
      && (r.Some? && doh.None? ==> Outbounds(r.value) == PinOutbounds(Outbounds(c), ipv4, resolve))
  {
    assert SafeLog(Some(QUIET_LOG)) && SafeLog(None);
    var pinned := PinNodeAddresses(WithDiagnosticLog(c), ipv4, resolve);
    if c.outbounds.Some? {
      assert Outbounds(pinned) == PinOutbounds(Outbounds(c), ipv4, resolve);
      assert Outbounds(pinned)[..|Outbounds(c)|] == Outbounds(pinned);
      assert (Outbounds(pinned) + [DNS_OUTBOUND])[..|Outbounds(c)|] == Outbounds(pinned);
    }
  }
}
