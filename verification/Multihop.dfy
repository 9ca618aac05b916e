/**
 Chained configs of src/main/protocols/multihop-config.ts: which inbound of a node a hop is built
 from, how that agrees with the grade a node gets before anything is paid, and which endpoint of
 the finished config this host dials itself.
 */
module Multihop {
  import opened Common
  import opened Text
  import opened V2RayConfig

  datatype Protocol = V2Ray | Xray
  datatype Role = EntryHop | ExitHop
  datatype Transport = TcpTransport | WebSocket | Grpc | Gun | Http | Mkcp | Quic | HttpUpgrade | Xhttp

  const PROXY_VLESS := 1
  const PROXY_VMESS := 2
  const SECURITY_NONE := 1
  const SECURITY_TLS := 2
  const SECURITY_REALITY := 3
  const FLOW_VISION := 2

  /** `pin` is the normalised certificate pin; a bad port is None. */
  datatype Metadata = Metadata(port: Option<nat>, proxy: nat, transport: nat, security: nat, flow: nat,
                               pin: Option<string>, fingerprint: string, reality: RealityKeys)

  datatype HopSpec = HopSpec(protocol: Protocol, metadata: seq<Metadata>, addrs: seq<string>, uuid: nat)

  /** Each protocol has its own table; 1 is a UNIX socket on v2ray and TCP on xray. */
  function TransportName(p: Protocol, value: nat): Option<Transport> {
    if p.Xray? then
      (if value == 1 then Some(TcpTransport) else if value == 2 then Some(WebSocket) else if value == 3 then Some(Grpc)
       else if value == 4 then Some(HttpUpgrade) else if value == 5 then Some(Xhttp) else None)
    else
      (if value == 2 then Some(Gun) else if value == 3 then Some(Grpc) else if value == 4 then Some(Http)
       else if value == 5 then Some(Mkcp) else if value == 6 then Some(Quic) else if value == 7 then Some(TcpTransport)
       else if value == 8 then Some(WebSocket) else None)
  }

  /** The two tables, code by code. */
  lemma TransportTables(value: nat)
    ensures var t := TransportName(Xray, value);
      && (t == Some(TcpTransport) <==> value == 1) && (t == Some(WebSocket) <==> value == 2)
      && (t == Some(Grpc) <==> value == 3) && (t == Some(HttpUpgrade) <==> value == 4) && (t == Some(Xhttp) <==> value == 5)
      && (t.None? <==> value == 0 || value > 5)
    ensures var t := TransportName(V2Ray, value);
      && (t == Some(Gun) <==> value == 2) && (t == Some(Grpc) <==> value == 3) && (t == Some(Http) <==> value == 4)
      && (t == Some(Mkcp) <==> value == 5) && (t == Some(Quic) <==> value == 6)
      && (t == Some(TcpTransport) <==> value == 7) && (t == Some(WebSocket) <==> value == 8)
      && (t.None? <==> value <= 1 || value > 8)
  {
  }

  predicate Emittable(t: Transport) {
    t.TcpTransport? || t.WebSocket? || t.Grpc?
  }

  /** NETWORK_BY_TRANSPORT, with the builder's default. */
  function Network(t: Option<Transport>): string {
    if t == Some(WebSocket) then "ws" else if t == Some(Grpc) then "grpc" else "tcp"
  }

  predicate ChainGrade(m: Metadata) {
    m.security == SECURITY_TLS || m.security == SECURITY_REALITY
  }

  /** The shape alone, as the public listing shows it. */
  predicate Shaped(p: Protocol, role: Role, m: Metadata) {
    var t := TransportName(p, m.transport);
    t.Some? && Emittable(t.value) && (role.ExitHop? ==> t.value.TcpTransport?) && ChainGrade(m)
  }

  predicate IsCleartext(m: Metadata) {
    m.proxy != PROXY_VMESS && !ChainGrade(m) && m.proxy == PROXY_VLESS && m.security == SECURITY_NONE
  }

  /** What only the paid handshake brings: a port, and keys to authenticate the node with. */
  predicate Keyed(m: Metadata) {
    m.port.Some? && (m.security == SECURITY_TLS ==> m.pin.Some?) && (m.security == SECURITY_REALITY ==> m.reality.usable)
  }

  function Filter(ms: seq<Metadata>, f: Metadata -> bool): (r: seq<Metadata>)
    ensures forall m :: m in r <==> m in ms && f(m)
    decreases |ms|
  {
    if ms == [] then [] else (if f(ms[0]) then [ms[0]] else []) + Filter(ms[1..], f)
  }

  /** `find`: the first with a security. */
  function Find(ms: seq<Metadata>, security: nat): (r: Option<Metadata>)
    ensures r.Some? ==> r.value in ms && r.value.security == security
    ensures r.None? ==> forall m :: m in ms ==> m.security != security
    decreases |ms|
  {
    if ms == [] then None else if ms[0].security == security then Some(ms[0]) else Find(ms[1..], security)
  }

  /** Reality first, then TLS, then what is left. */
  function Preferred(ms: seq<Metadata>): (r: Option<Metadata>)
    ensures r.Some? <==> ms != []
    ensures r.Some? ==> r.value in ms
  {
    if ms == [] then None
    else if Find(ms, SECURITY_REALITY).Some? then Find(ms, SECURITY_REALITY)
    else if Find(ms, SECURITY_TLS).Some? then Find(ms, SECURITY_TLS)
    else Some(ms[0])
  }

  function Usable(spec: HopSpec, role: Role): seq<Metadata> {
    Filter(spec.metadata, m => Shaped(spec.protocol, role, m) && Keyed(m))
  }

  function SelectHopEntry(spec: HopSpec, role: Role): Option<Metadata> {
    Preferred(Usable(spec, role))
  }

  /** None is ineligible; otherwise how the inbound would be wrapped. */
  function Grade(p: Protocol, ms: seq<Metadata>, role: Role): Option<nat> {
    var best := Preferred(Filter(ms, m => Shaped(p, role, m)));
    if best.None? then None else Some(if best.value.security == SECURITY_REALITY then SECURITY_REALITY else SECURITY_TLS)
  }

  // ---- grade and selection ---------------------------------------------------------

  /** The shape by its codes: plain TCP, or for an entry WebSocket or gRPC, under TLS or Reality. */
  lemma ShapedMeans(p: Protocol, role: Role, m: Metadata)
    ensures Shaped(p, role, m)
       <==> (m.transport == (if p.Xray? then 1 else 7)
             || (role.EntryHop? && (m.transport == 3 || m.transport == (if p.Xray? then 2 else 8))))
            && (m.security == 2 || m.security == 3)
  {
  }

  /** The keys: a port, a pin under TLS, working keys under Reality. */
  lemma KeyedMeans(m: Metadata)
    ensures Keyed(m) <==> m.port.Some? && (m.security == 2 ==> m.pin.Some?) && (m.security == 3 ==> m.reality.usable)
  {
  }

  /** Cleartext is VLess without transport security, and nothing else. */
  lemma CleartextMeans(m: Metadata)
    ensures IsCleartext(m) <==> m.proxy == 1 && m.security == 1
  {
  }

  /** Some inbound of the right shape and wrapping; with keys or without. */
  predicate Offers(spec: HopSpec, role: Role, security: nat, keyed: bool) {
    exists m :: m in spec.metadata && Shaped(spec.protocol, role, m) && m.security == security && (keyed ==> Keyed(m))
  }

  /**
   The inbound that a hop is built from: there is one exactly when some inbound has the shape for
   the role and its keys; it is wrapped in Reality if any such inbound is, else in TLS, and it can
   be authenticated.
   */
  lemma SelectionMeans(spec: HopSpec, role: Role)
    ensures var m := SelectHopEntry(spec, role);
      && (m.Some? <==> Offers(spec, role, SECURITY_REALITY, true) || Offers(spec, role, SECURITY_TLS, true))
      && (m.Some? ==>
           && m.value in spec.metadata && Shaped(spec.protocol, role, m.value) && Keyed(m.value) && !IsCleartext(m.value)
           && m.value.security == if Offers(spec, role, SECURITY_REALITY, true) then SECURITY_REALITY else SECURITY_TLS)
  {
    var usable := Usable(spec, role);
    forall m | m in usable
      ensures m.security == SECURITY_REALITY ==> Offers(spec, role, SECURITY_REALITY, true)
      ensures m.security == SECURITY_TLS ==> Offers(spec, role, SECURITY_TLS, true)
    {
      assert m in spec.metadata && Shaped(spec.protocol, role, m) && Keyed(m);
    }
    if usable != [] {
      assert usable[0] in usable;
    }
    if Offers(spec, role, SECURITY_REALITY, true) {
      var m :| m in spec.metadata && Shaped(spec.protocol, role, m) && m.security == SECURITY_REALITY && Keyed(m);
      assert m in usable;
    }
    if Offers(spec, role, SECURITY_TLS, true) {
      var m :| m in spec.metadata && Shaped(spec.protocol, role, m) && m.security == SECURITY_TLS && Keyed(m);
      assert m in usable;
    }
  }

  lemma GradeMeans(p: Protocol, ms: seq<Metadata>, role: Role)
    ensures var g, spec := Grade(p, ms, role), HopSpec(p, ms, [], 0);
      && (g == Some(SECURITY_REALITY) <==> Offers(spec, role, SECURITY_REALITY, false))
      && (g == Some(SECURITY_TLS) <==> Offers(spec, role, SECURITY_TLS, false) && !Offers(spec, role, SECURITY_REALITY, false))
      && (g.Some? ==> g.value == SECURITY_REALITY || g.value == SECURITY_TLS)
  {
    var spec, shaped := HopSpec(p, ms, [], 0), Filter(ms, m => Shaped(p, role, m));
    forall m | m in shaped
      ensures m.security == SECURITY_REALITY ==> Offers(spec, role, SECURITY_REALITY, false)
      ensures m.security == SECURITY_TLS ==> Offers(spec, role, SECURITY_TLS, false)
    {
      assert m in spec.metadata && Shaped(p, role, m);
    }
    if Offers(spec, role, SECURITY_REALITY, false) {
      var m :| m in ms && Shaped(p, role, m) && m.security == SECURITY_REALITY;
      assert m in shaped;
    }
    if Offers(spec, role, SECURITY_TLS, false) {
      var m :| m in ms && Shaped(p, role, m) && m.security == SECURITY_TLS;
      assert m in shaped;
    }
  }

  /**
   The grade shown before the purchase against what is then built: a hop that can be built was
   eligible, and it is wrapped as shown exactly when Reality was not shown or some Reality inbound
   turns out to have its keys.
   */
  lemma GradePredictsSelection(spec: HopSpec, role: Role)
    requires SelectHopEntry(spec, role).Some?
    ensures var g := Grade(spec.protocol, spec.metadata, role);
      && g.Some?
      && (SelectHopEntry(spec, role).value.security == g.value
          <==> g.value == SECURITY_TLS || Offers(spec, role, SECURITY_REALITY, true))
  {
    SelectionMeans(spec, role);
    GradeMeans(spec.protocol, spec.metadata, role);
    var shown := HopSpec(spec.protocol, spec.metadata, [], 0);
    forall security | Offers(spec, role, security, true) ensures Offers(shown, role, security, false) {
      var m :| m in spec.metadata && Shaped(spec.protocol, role, m) && m.security == security && Keyed(m);
      assert m in shown.metadata;
    }
  }

  /** An exit serves as an entry too. */
  lemma ExitIsEntry(p: Protocol, ms: seq<Metadata>)
    requires Grade(p, ms, ExitHop).Some?
    ensures Grade(p, ms, EntryHop).Some?
  {
    GradeMeans(p, ms, ExitHop);
    GradeMeans(p, ms, EntryHop);
    var spec := HopSpec(p, ms, [], 0);
    var security := Grade(p, ms, ExitHop).value;
    var m :| m in ms && Shaped(p, ExitHop, m) && m.security == security;
    assert Shaped(p, EntryHop, m);
    assert Offers(spec, EntryHop, security, false);
  }

  // ---- the config ------------------------------------------------------------------

  const ENTRY_TAG := "entry-out"
  const EXIT_TAG := "exit-out"
  const SOCKS_TAG := "socks"

  function FirstAddress(addrs: seq<string>): Option<string>
    decreases |addrs|
  {
    if addrs == [] then None else if addrs[0] != "" then Some(addrs[0]) else FirstAddress(addrs[1..])
  }

  /** The first address that is not empty. */
  lemma {:induction false} FirstAddressIs(addrs: seq<string>)
    ensures FirstAddress(addrs).None? <==> forall i :: 0 <= i < |addrs| ==> addrs[i] == ""
    ensures FirstAddress(addrs).Some? ==>
              exists i :: 0 <= i < |addrs| && addrs[i] == FirstAddress(addrs).value != "" && forall j :: 0 <= j < i ==> addrs[j] == ""
    decreases |addrs|
  {
    if addrs != [] && addrs[0] == "" {
      FirstAddressIs(addrs[1..]);
      assert forall i :: 1 <= i < |addrs| ==> addrs[i] == addrs[1..][i - 1];
      assert forall i :: 0 <= i < |addrs| - 1 ==> addrs[1..][i] == addrs[i + 1];
    }
  }

  function HopSecurity(m: Metadata): Security {
    var fingerprint := if m.fingerprint == "" then "chrome" else m.fingerprint;
    if m.security == SECURITY_REALITY then Reality(fingerprint, m.reality)
    else if m.security == SECURITY_TLS then Tls(fingerprint, m.pin)
    else Plain
  }

  /** buildHopOutbound. */
  function HopOutbound(spec: HopSpec, m: Metadata, address: string, tag: string, through: Option<string>): Outbound {
    var vless := m.proxy == PROXY_VLESS;
    Outbound(Some(tag), if vless then "vless" else "vmess",
             Some([V2RayConfig.Endpoint(Some(address), m.port, User(spec.uuid, vless && m.flow == FLOW_VISION))]),
             Some(Stream(Network(TransportName(spec.protocol, m.transport)), HopSecurity(m))), through)
  }

  const SOCKS_INBOUND := Inbound(Some("socks"), "socks", Some("127.0.0.1"))

  /** buildEntryOnlyConfig and buildMultihopConfig; None where they throw. */
  function BuildEntryOnlyConfig(entry: HopSpec): Option<Config> {
    var m, a := SelectHopEntry(entry, EntryHop), FirstAddress(entry.addrs);
    if m.None? || a.None? then None
    else Some(Config(Some(Log(None, None)), Some([SOCKS_INBOUND]),
                     Some([HopOutbound(entry, m.value, a.value, ENTRY_TAG, None)]), None, None))
  }

  function BuildMultihopConfig(entry: HopSpec, exit: HopSpec): Option<Config> {
    var m, n := SelectHopEntry(entry, EntryHop), SelectHopEntry(exit, ExitHop);
    var a, b := FirstAddress(entry.addrs), FirstAddress(exit.addrs);
    if m.None? || n.None? || a.None? || b.None? then None
    else
      Some(Config(Some(Log(None, None)), Some([SOCKS_INBOUND]),
                  Some([HopOutbound(exit, n.value, b.value, EXIT_TAG, Some(ENTRY_TAG)),
                        HopOutbound(entry, m.value, a.value, ENTRY_TAG, None)]), None, None))
  }

  // ---- the endpoint that this host dials -------------------------------------------

  /** addressOf: the first vnext address, unless it is empty or the loopback. */
  function DialAddress(o: Outbound): Option<string> {
    if o.vnext.Some? && o.vnext.value != [] && o.vnext.value[0].address.Some?
      && o.vnext.value[0].address.value != "" && o.vnext.value[0].address.value != "127.0.0.1"
    then o.vnext.value[0].address else None
  }

  function FirstDial(os: seq<Outbound>): Option<string>
    decreases |os|
  {
    if os == [] then None else if DialAddress(os[0]).Some? then DialAddress(os[0]) else FirstDial(os[1..])
  }

  function Direct(os: seq<Outbound>): seq<Outbound>
    decreases |os|
  {
    if os == [] then [] else (if os[0].proxyTag.None? then [os[0]] else []) + Direct(os[1..])
  }

  /** The host that the search over the outbounds stops at. */
  function RemoteHost(c: Config): Option<string> {
    FirstDial(Direct(Outbounds(c)) + Outbounds(c))
  }

  /** slice(from, to) with a negative end counted from the back. */
  function Slice(s: string, from: nat, to: int): string {
    var end := if to >= 0 then to else |s| + to;
    if from <= end <= |s| then s[from..end] else ""
  }

  /** The host of hysteria2's `server`; indexOf and lastIndexOf are -1 where nothing is found. */
  function ServerHost(server: string): string {
    if server != "" && server[0] == '[' then
      var close := IndexOf(server, ']');
      Slice(server, 1, if close < |server| then close else -1)
    else
      var colon := LastIndexOf(server, ':');
      Slice(server, 0, if colon < |server| then colon else -1)
  }

  predicate Remote(host: string) {
    host != "" && host != "127.0.0.1"
  }

  /** The address of the bypass route and of the kill switch's exception, before and after the lookup. */
  function NamedHost(server: Option<string>, c: Config): Option<string> {
    if server.Some? && Remote(ServerHost(server.value)) then Some(ServerHost(server.value)) else RemoteHost(c)
  }

  function NamedAddress(server: Option<string>, c: Config, resolve: string -> Option<string>): Option<string> {
    if NamedHost(server, c).Some? then resolve(NamedHost(server, c).value) else None
  }

  /** extractV2RayRemoteHost; `server` is the hysteria2 member of the file, the rest of it is c. */
  method ExtractRemoteHost(server: Option<string>, c: Config, resolve: string -> Option<string>)
    returns (address: Option<string>)
    ensures address == NamedAddress(server, c, resolve)
  {
    if server.Some? {
      var host := ServerHost(server.value);
      if host != "" && host != "127.0.0.1" {
        return resolve(host);
      }
    }
    var all := Direct(Outbounds(c)) + Outbounds(c);
    for i := 0 to |all|
      invariant FirstDial(all) == FirstDial(all[i..])
    {
      assert all[i..][0] == all[i] && all[i..][1..] == all[i + 1..];
      if DialAddress(all[i]).Some? {
        return resolve(DialAddress(all[i]).value);
      }
    }
    address := None;
  }

  /** An outbound names its first endpoint's address, unless that is empty or the loopback. */
  lemma DialMeans(o: Outbound, a: string)
    ensures DialAddress(o) == Some(a)
       <==> o.vnext.Some? && o.vnext.value != [] && o.vnext.value[0].address == Some(a) && a != "" && a != "127.0.0.1"
  {
  }

  /** The search finds a direct outbound's address if there is any, and else the first of any outbound. */
  lemma {:induction false} FirstDialIs(os: seq<Outbound>)
    ensures FirstDial(os).None? <==> forall i :: 0 <= i < |os| ==> DialAddress(os[i]).None?
    ensures FirstDial(os).Some? ==>
              exists i :: 0 <= i < |os| && DialAddress(os[i]) == FirstDial(os) && forall j :: 0 <= j < i ==> DialAddress(os[j]).None?
    decreases |os|
  {
    if os != [] && DialAddress(os[0]).None? {
      FirstDialIs(os[1..]);
      assert forall i :: 1 <= i < |os| ==> os[i] == os[1..][i - 1];
      assert forall i :: 0 <= i < |os| - 1 ==> os[1..][i] == os[i + 1];
    }
  }

  /** A server that names the loopback, or nothing, leaves the search to the outbounds. */
  lemma NamedHostMeans(server: Option<string>, c: Config)
    ensures NamedHost(server, c)
         == if server.Some? && ServerHost(server.value) != "" && ServerHost(server.value) != "127.0.0.1"
            then Some(ServerHost(server.value)) else RemoteHost(c)
  {
  }

  /** Where the separator is missing, the last character is cut off instead. */
  lemma ServerHostWithout(server: string)
    requires server != ""
    ensures server[0] != '[' && ':' !in server ==> ServerHost(server) == server[..|server| - 1]
    ensures server[0] == '[' && ']' !in server ==> ServerHost(server) == if |server| == 1 then "" else server[1..|server| - 1]
  {
    if server[0] == '[' && ']' !in server {
      IndexOfIs(server, ']');
    }
  }

  /** The host of a hysteria2 server is recovered, in brackets or not. */
  lemma ServerHostRecovered(host: string, port: string)
    requires ':' !in port && ']' !in host
    ensures host != "" && host[0] != '[' ==> ServerHost(host + [':'] + port) == host
    ensures ServerHost("[" + host + "]" + [':'] + port) == host
  {
    var plain, bracketed := host + [':'] + port, "[" + host + "]" + [':'] + port;
    assert plain[|host|] == ':' && plain[|host| + 1..] == port && plain[..|host|] == host;
    LastIs(plain, ':', |host|);
    var rest := [':'] + port;
    assert bracketed == ("[" + host) + [']'] + rest;
    IndexOfFirst("[" + host, rest, ']');
    assert bracketed[1..|host| + 1] == host;
  }

  /** An address as the preparation leaves it. */
  function PinnedAddress(a: string, ipv4: string -> bool, resolve: string -> Option<string>): string {
    if ipv4(a) || resolve(a).None? then a else resolve(a).value
  }

  /** Only outbounds without proxySettings that carry endpoints count as dialed from here. */
  function DialedHere(c: Config): seq<Outbound> {
    DialedOf(Outbounds(c))
  }

  function DialedOf(os: seq<Outbound>): seq<Outbound>
    decreases |os|
  {
    if os == [] then [] else (if os[0].proxyTag.None? && os[0].vnext.Some? then [os[0]] else []) + DialedOf(os[1..])
  }

  lemma Unfold3(os: seq<Outbound>)
    requires |os| <= 3
    ensures |os| == 2 ==> os[1..] == [os[1]] && os[1..][1..] == []
    ensures |os| == 3 ==> os[1..] == [os[1], os[2]] && os[1..][1..] == [os[2]] && os[1..][1..][1..] == []
  {
  }

  /** Only the entry, at address a, is dialed from here; the exit at b is the default egress. */
  predicate DialsEntry(c: Config, a: string, b: string) {
    && |DialedHere(c)| == 1 && DialedHere(c)[0].tag == Some(ENTRY_TAG)
    && DialedHere(c)[0].vnext.Some? && DialAddress(DialedHere(c)[0]) == (if a == "127.0.0.1" then None else Some(a))
    && Outbounds(c) != [] && Outbounds(c)[0].tag == Some(EXIT_TAG)
    && RemoteHost(c) == if a != "127.0.0.1" then Some(a) else if b != "127.0.0.1" then Some(b) else None
  }

  /** The two hops of a built chain, pinned. */
  lemma PinnedHops(entry: HopSpec, exit: HopSpec, ipv4: string -> bool, resolve: string -> Option<string>)
    requires BuildMultihopConfig(entry, exit).Some?
    ensures FirstAddress(entry.addrs).Some? && FirstAddress(exit.addrs).Some?
    ensures var os := PinOutbounds(Outbounds(BuildMultihopConfig(entry, exit).value), ipv4, resolve);
      && |os| == 2
      && os[0].tag == Some(EXIT_TAG) && os[0].proxyTag == Some(ENTRY_TAG) && os[0].vnext.Some? && |os[0].vnext.value| == 1
      && os[0].vnext.value[0].address == Some(PinnedAddress(FirstAddress(exit.addrs).value, ipv4, resolve))
      && os[1].tag == Some(ENTRY_TAG) && os[1].proxyTag == None && os[1].vnext.Some? && |os[1].vnext.value| == 1
      && os[1].vnext.value[0].address == Some(PinnedAddress(FirstAddress(entry.addrs).value, ipv4, resolve))
  {
  }

  lemma ChainIsSafe(entry: HopSpec, exit: HopSpec)
    requires BuildMultihopConfig(entry, exit).Some?
    ensures var c := BuildMultihopConfig(entry, exit).value; c.outbounds.Some? && Outbounds(c) != [] && Safe(c.(log := None))
  {
  }

  lemma HopsDial(r: Config, exit: Outbound, entry: Outbound, more: seq<Outbound>, a: string, b: string)
    requires Outbounds(r) == [exit, entry] + more && (more == [] || more == [DNS_OUTBOUND])
    requires exit.tag == Some(EXIT_TAG) && exit.proxyTag.Some? && exit.vnext.Some? && |exit.vnext.value| == 1
    requires entry.tag == Some(ENTRY_TAG) && entry.proxyTag.None? && entry.vnext.Some? && |entry.vnext.value| == 1
    requires a != "" && b != "" && entry.vnext.value[0].address == Some(a) && exit.vnext.value[0].address == Some(b)
    ensures DialsEntry(r, a, b)
  {
    ChainDials(exit, entry, more);
  }

  /**
   A chained config, prepared for the core with or without DNS over HTTPS: the entry is the only
   endpoint dialed from this host; and it is the one that the bypass route and the kill switch
   name, exactly when its address is not the loopback.
   */
  lemma EntryIsDialed(entry: HopSpec, exit: HopSpec, ipv4: string -> bool, resolve: string -> Option<string>,
                      doh: Option<string>)
    requires BuildMultihopConfig(entry, exit).Some?
    requires forall s: string :: resolve(s).Some? ==> resolve(s).value != ""
    ensures FirstAddress(entry.addrs).Some? && FirstAddress(exit.addrs).Some?
    ensures var r := Prepared(BuildMultihopConfig(entry, exit).value, ipv4, resolve, doh);
      r.Some? && DialsEntry(r.value, PinnedAddress(FirstAddress(entry.addrs).value, ipv4, resolve),
                            PinnedAddress(FirstAddress(exit.addrs).value, ipv4, resolve))
  {
    var c := BuildMultihopConfig(entry, exit).value;
    AddressNonempty(entry.addrs);
    AddressNonempty(exit.addrs);
    ChainIsSafe(entry, exit);
    PreparedIsSafe(c, ipv4, resolve, doh);
    PinnedHops(entry, exit, ipv4, resolve);
    PreparedOutbounds(c, ipv4, resolve, doh);
    var pinned := PinOutbounds(Outbounds(c), ipv4, resolve);
    var r := Prepared(c, ipv4, resolve, doh).value;
    var more := if Outbounds(r) == pinned then [] else [DNS_OUTBOUND];
    TwoAndMore(pinned, more);
    HopsDial(r, pinned[0], pinned[1], more, PinnedAddress(FirstAddress(entry.addrs).value, ipv4, resolve),
             PinnedAddress(FirstAddress(exit.addrs).value, ipv4, resolve));
  }

  /** The peer is checked: a pinned certificate, or Reality with keys that work. */
  predicate Authenticated(o: Outbound) {
    && o.stream.Some?
    && match o.stream.value.security
       case Plain => false
       case Tls(_, pin) => pin.Some?
       case Reality(_, keys) => keys.usable
  }

  /** One endpoint with a port, and this account of the node. */
  predicate LogsInAs(o: Outbound, uuid: nat) {
    o.vnext.Some? && |o.vnext.value| == 1 && o.vnext.value[0].port.Some? && o.vnext.value[0].user.id == uuid
  }

  /** The network by the codes of the node's own table. */
  predicate NetworkOf(p: Protocol, transport: nat, network: string) {
    && (network == "tcp" <==> transport == if p.Xray? then 1 else 7)
    && (network == "ws" <==> transport == if p.Xray? then 2 else 8)
    && (network == "grpc" <==> transport == 3)
  }

  /** What the peer is checked by, as the inbound has it. */
  predicate SecurityOf(m: Metadata, security: Security) {
    match security
    case Plain => false
    case Tls(fingerprint, pin) => m.security == 2 && pin == m.pin && FingerprintOf(m, fingerprint)
    case Reality(fingerprint, keys) => m.security == 3 && keys == m.reality && FingerprintOf(m, fingerprint)
  }

  predicate FingerprintOf(m: Metadata, fingerprint: string) {
    if m.fingerprint == "" then fingerprint == "chrome" else fingerprint == m.fingerprint
  }

  /** The outbound speaks to this inbound, in everything but the address. */
  predicate SpeaksTo(o: Outbound, p: Protocol, m: Metadata) {
    && (m.proxy == 1 <==> o.protocol == "vless") && (m.proxy != 1 <==> o.protocol == "vmess")
    && o.vnext.Some? && |o.vnext.value| == 1 && o.vnext.value[0].port == m.port
    && (o.vnext.value[0].user.vision <==> m.proxy == 1 && m.flow == 2)
    && o.stream.Some? && NetworkOf(p, m.transport, o.stream.value.network) && SecurityOf(m, o.stream.value.security)
  }

  /** A hop built from what SelectHopEntry picked is checked, can be logged in to, and speaks to that inbound. */
  lemma HopIsAuthenticated(spec: HopSpec, role: Role, address: string, tag: string, through: Option<string>)
    requires SelectHopEntry(spec, role).Some?
    ensures var m := SelectHopEntry(spec, role).value;
      var o := HopOutbound(spec, m, address, tag, through);
      && Authenticated(o) && LogsInAs(o, spec.uuid) && SpeaksTo(o, spec.protocol, m)
      && (role.ExitHop? ==> o.stream.value.network == "tcp")
  {
    SelectionMeans(spec, role);
    ShapedNetwork(spec.protocol, role, SelectHopEntry(spec, role).value);
  }

  lemma ShapedNetwork(p: Protocol, role: Role, m: Metadata)
    requires Shaped(p, role, m)
    ensures NetworkOf(p, m.transport, Network(TransportName(p, m.transport)))
  {
  }

  /** The two hops of a built chain, exit first. */
  lemma BuiltHops(entry: HopSpec, exit: HopSpec)
    requires BuildMultihopConfig(entry, exit).Some?
    ensures var c := BuildMultihopConfig(entry, exit).value;
      && |Outbounds(c)| == 2 && c.outbounds.Some? && c.inbounds == Some([SOCKS_INBOUND]) && c.routing.None?
      && IsHop(Outbounds(c)[0], exit, ExitHop, EXIT_TAG, Some(ENTRY_TAG)) && Outbounds(c)[0].stream.value.network == "tcp"
      && IsHop(Outbounds(c)[1], entry, EntryHop, ENTRY_TAG, None)
  {
    HopIsAuthenticated(exit, ExitHop, FirstAddress(exit.addrs).value, EXIT_TAG, Some(ENTRY_TAG));
    HopIsAuthenticated(entry, EntryHop, FirstAddress(entry.addrs).value, ENTRY_TAG, None);
  }

  /** A chain can be built exactly when both hops have an inbound for their role and an address. */
  lemma ChainBuildsIff(entry: HopSpec, exit: HopSpec)
    ensures BuildMultihopConfig(entry, exit).Some?
       <==> SelectHopEntry(entry, EntryHop).Some? && SelectHopEntry(exit, ExitHop).Some?
            && FirstAddress(entry.addrs).Some? && FirstAddress(exit.addrs).Some?
  {
  }

  /** A checked hop of a node, with its account, the inbound that was selected, a name and a way of dialing. */
  predicate IsHop(o: Outbound, spec: HopSpec, role: Role, tag: string, through: Option<string>) {
    && Authenticated(o) && LogsInAs(o, spec.uuid) && o.tag == Some(tag) && o.proxyTag == through
    && SelectHopEntry(spec, role).Some? && SpeaksTo(o, spec.protocol, SelectHopEntry(spec, role).value)
  }

  /**
   The path of a chain, as the core is given it: traffic leaves by the exit, the exit is dialed
   through the outbound that is the entry, the entry is dialed directly; each end is authenticated
   and logged in to with its own account, and the exit rides plain TCP, which alone can be
   chained.
   */
  lemma ChainPath(entry: HopSpec, exit: HopSpec, ipv4: string -> bool, resolve: string -> Option<string>,
                  doh: Option<string>)
    requires BuildMultihopConfig(entry, exit).Some?
    ensures var r := Prepared(BuildMultihopConfig(entry, exit).value, ipv4, resolve, doh);
      r.Some? && |Outbounds(r.value)| >= 2 &&
      var first, dialed := Outbounds(r.value)[0], Tagged(Outbounds(r.value), ENTRY_TAG);
      && IsHop(first, exit, ExitHop, "exit-out", Some("entry-out")) && first.stream.value.network == "tcp"
      && dialed.Some? && IsHop(dialed.value, entry, EntryHop, "entry-out", None)
  {
    BuiltHops(entry, exit);
    PreparedHops(entry, exit, ipv4, resolve, doh);
    var c := BuildMultihopConfig(entry, exit).value;
    PinKeeps(Outbounds(c)[0], ipv4, resolve);
    PinKeeps(Outbounds(c)[1], ipv4, resolve);
    TaggedSecond(Outbounds(Prepared(c, ipv4, resolve, doh).value), EXIT_TAG, ENTRY_TAG);
  }

  /**
   The proxy that the exit is bought through dials the entry directly, exactly as the chain will: it
   can be built for every chain that can, and its one outbound is the chain's entry.
   */
  lemma ProvisioningDialsEntry(entry: HopSpec, exit: HopSpec)
    ensures BuildEntryOnlyConfig(entry).Some? <==> SelectHopEntry(entry, EntryHop).Some? && FirstAddress(entry.addrs).Some?
    ensures BuildEntryOnlyConfig(entry).Some? ==>
              var os := Outbounds(BuildEntryOnlyConfig(entry).value);
              && |os| == 1 && IsHop(os[0], entry, EntryHop, "entry-out", None)
              && DialedHere(BuildEntryOnlyConfig(entry).value) == os
              && Safe(BuildEntryOnlyConfig(entry).value)
    ensures BuildMultihopConfig(entry, exit).Some? ==>
              && BuildEntryOnlyConfig(entry).Some?
              && Outbounds(BuildEntryOnlyConfig(entry).value) == [Outbounds(BuildMultihopConfig(entry, exit).value)[1]]
  {
    if BuildEntryOnlyConfig(entry).Some? {
      HopIsAuthenticated(entry, EntryHop, FirstAddress(entry.addrs).value, ENTRY_TAG, None);
      var os := Outbounds(BuildEntryOnlyConfig(entry).value);
      assert os[1..] == [] && DialedOf(os[1..]) == [];
    }
  }

  lemma TaggedSecond(os: seq<Outbound>, first: string, second: string)
    requires |os| >= 2 && os[0].tag == Some(first) && os[1].tag == Some(second) && first != second
    ensures Tagged(os, second) == Some(os[1])
  {
    assert os[1..][0] == os[1];
  }

  /** The hops of the prepared chain are the built ones, pinned. */
  lemma PreparedHops(entry: HopSpec, exit: HopSpec, ipv4: string -> bool, resolve: string -> Option<string>,
                     doh: Option<string>)
    requires BuildMultihopConfig(entry, exit).Some?
    ensures var c := BuildMultihopConfig(entry, exit).value;
      var r := Prepared(c, ipv4, resolve, doh);
      && |Outbounds(c)| == 2 && r.Some? && |Outbounds(r.value)| >= 2
      && Outbounds(r.value)[0] == PinOutbound(Outbounds(c)[0], ipv4, resolve)
      && Outbounds(r.value)[1] == PinOutbound(Outbounds(c)[1], ipv4, resolve)
  {
    var c := BuildMultihopConfig(entry, exit).value;
    ChainIsSafe(entry, exit);
    PreparedIsSafe(c, ipv4, resolve, doh);
    PreparedOutbounds(c, ipv4, resolve, doh);
  }

  /** Pinning changes addresses alone. */
  lemma PinKeeps(o: Outbound, ipv4: string -> bool, resolve: string -> Option<string>)
    ensures var p := PinOutbound(o, ipv4, resolve);
      && p.tag == o.tag && p.stream == o.stream && p.proxyTag == o.proxyTag && p.protocol == o.protocol
      && (forall uuid :: LogsInAs(p, uuid) <==> LogsInAs(o, uuid))
      && (forall protocol, m :: SpeaksTo(o, protocol, m) ==> SpeaksTo(p, protocol, m))
  {
  }

  /**
   DNS over HTTPS on a chain: what the socks inbound asks on port 53 goes to the resolver, and the
   resolver's own requests leave by the exit.
   */
  lemma ChainDnsLeavesByExit(entry: HopSpec, exit: HopSpec, ipv4: string -> bool, resolve: string -> Option<string>,
                             resolver: string, rest: nat, dport: nat, holds: (nat, Packet) -> bool)
    requires BuildMultihopConfig(entry, exit).Some? && DohEndpoint(resolver).Some?
    ensures var r := WithDoH(PinNodeAddresses(WithDiagnosticLog(BuildMultihopConfig(entry, exit).value), ipv4, resolve), resolver);
      && Outbounds(r) != [] && Outbounds(r)[0].tag == Some(EXIT_TAG)
      && Carriers(r, Packet(Some(SOCKS_TAG), 53, rest), holds) == [DNS_OUTBOUND]
      && Carriers(r, Packet(Some(DNS_MODULE), dport, rest), holds) == [Outbounds(r)[0]]
  {
    BuiltHops(entry, exit);
    var c := BuildMultihopConfig(entry, exit).value;
    var pinned := PinNodeAddresses(WithDiagnosticLog(c), ipv4, resolve);
    PinKeeps(Outbounds(c)[0], ipv4, resolve);
    PinKeeps(Outbounds(c)[1], ipv4, resolve);
    ChainDns(pinned, resolver, rest, dport, holds);
  }

  lemma ChainDns(c: Config, resolver: string, rest: nat, dport: nat, holds: (nat, Packet) -> bool)
    requires |Outbounds(c)| == 2 && Outbounds(c)[0].tag == Some(EXIT_TAG) && Outbounds(c)[1].tag == Some(ENTRY_TAG)
    requires c.inbounds == Some([SOCKS_INBOUND]) && c.routing.None? && DohEndpoint(resolver).Some?
    ensures var r := WithDoH(c, resolver);
      && Outbounds(r) != [] && Outbounds(r)[0] == Outbounds(c)[0]
      && Carriers(r, Packet(Some(SOCKS_TAG), 53, rest), holds) == [DNS_OUTBOUND]
      && Carriers(r, Packet(Some(DNS_MODULE), dport, rest), holds) == [Outbounds(r)[0]]
  {
    ChainTags(c);
    assert Rules(c) == [] && Balancers(c) == [];
    InterceptedGoesToDns(c, resolver, Packet(Some(SOCKS_TAG), 53, rest), holds);
    ResolverEgress(c, resolver, Packet(Some(DNS_MODULE), dport, rest), holds);
  }

  /** What the rewrite for DNS over HTTPS finds in a chain. */
  lemma ChainTags(c: Config)
    requires |Outbounds(c)| == 2 && Outbounds(c)[0].tag == Some(EXIT_TAG) && Outbounds(c)[1].tag == Some(ENTRY_TAG)
    requires c.inbounds == Some([SOCKS_INBOUND]) && c.routing.None?
    ensures InterceptTags(c) == [SOCKS_TAG] && Egress(c) == (Some(EXIT_TAG), None) && Tagged(Outbounds(c), DNS_OUT).None?
  {
    assert SocksTags([SOCKS_INBOUND]) == [SOCKS_TAG] by {
      assert [SOCKS_INBOUND][1..] == [];
    }
    var os := Outbounds(c);
    Unfold3(os);
    assert Tagged([], DNS_OUT).None? && os[1].tag != Some(DNS_OUT);
    assert Tagged(os[1..], DNS_OUT) == Tagged(os[1..][1..], DNS_OUT);
  }

  /**
   The bypass route and the kill switch name exactly what the core dials: in a prepared chain, the
   entry's address once it is pinned, for a resolver that leaves an address as it is.
   */
  lemma PinnedIsNamed(entry: HopSpec, exit: HopSpec, ipv4: string -> bool, resolve: string -> Option<string>,
                      now: string -> Option<string>, doh: Option<string>)
    requires BuildMultihopConfig(entry, exit).Some?
    requires forall s: string :: resolve(s).Some? ==> resolve(s).value != ""
    requires forall s: string :: ipv4(s) ==> now(s) == Some(s)
    ensures FirstAddress(entry.addrs).Some?
    ensures var a := PinnedAddress(FirstAddress(entry.addrs).value, ipv4, resolve);
      var r := Prepared(BuildMultihopConfig(entry, exit).value, ipv4, resolve, doh);
      && r.Some?
      && (ipv4(a) && a != "127.0.0.1" ==>
          && NamedAddress(None, r.value, now) == Some(a)
          && |DialedHere(r.value)| == 1 && DialAddress(DialedHere(r.value)[0]) == Some(a))
  {
    EntryIsDialed(entry, exit, ipv4, resolve, doh);
  }

  lemma TwoAndMore(two: seq<Outbound>, more: seq<Outbound>)
    requires |two| == 2
    ensures two + more == [two[0], two[1]] + more && (more == [] ==> two == two + more)
  {
  }

  lemma {:induction false} AddressNonempty(addrs: seq<string>)
    ensures FirstAddress(addrs).Some? ==> FirstAddress(addrs).value != ""
    decreases |addrs|
  {
    if addrs != [] {
      AddressNonempty(addrs[1..]);
    }
  }

  lemma PreparedOutbounds(c: Config, ipv4: string -> bool, resolve: string -> Option<string>, doh: Option<string>)
    requires c.outbounds.Some? && Prepared(c, ipv4, resolve, doh).Some?
    ensures var os, pinned := Outbounds(Prepared(c, ipv4, resolve, doh).value), PinOutbounds(Outbounds(c), ipv4, resolve);
      os == pinned || os == pinned + [DNS_OUTBOUND]
  {
  }

  /** An exit through an entry, and perhaps the resolver. */
  lemma ChainDials(exit: Outbound, entry: Outbound, more: seq<Outbound>)
    requires exit.proxyTag.Some? && entry.proxyTag.None? && entry.vnext.Some? && (more == [] || more == [DNS_OUTBOUND])
    ensures var os := [exit, entry] + more;
      && DialedOf(os) == [entry]
      && FirstDial(Direct(os) + os) == if DialAddress(entry).Some? then DialAddress(entry) else DialAddress(exit)
  {
    var os := [exit, entry] + more;
    Unfold3(os);
    if more == [] {
      assert Direct(os[1..][1..]) == [] && DialedOf(os[1..][1..]) == [];
      assert Direct(os) == [entry];
      FirstOf(entry, os);
    } else {
      assert Direct(os[1..][1..]) == [DNS_OUTBOUND] && DialedOf(os[1..][1..]) == [];
      assert Direct(os) == [entry] + [DNS_OUTBOUND];
      assert Direct(os) + os == [entry] + ([DNS_OUTBOUND] + os);
      FirstOf(entry, [DNS_OUTBOUND] + os);
      FirstOf(DNS_OUTBOUND, os);
    }
    FirstOf(exit, [entry] + more);
    FirstOf(entry, more);
    assert os == [exit] + ([entry] + more);
    if more != [] {
      FirstOf(DNS_OUTBOUND, []);
      assert [DNS_OUTBOUND] + [] == more;
    }
  }

  lemma FirstOf(o: Outbound, rest: seq<Outbound>)
    ensures FirstDial([o] + rest) == if DialAddress(o).Some? then DialAddress(o) else FirstDial(rest)
  {
    assert ([o] + rest)[1..] == rest;
  }
}
