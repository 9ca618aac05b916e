/**
 parseAwgDirectives of daemon/internal/ops/amneziawg.go: what the helper itself does for a tunnel
 (addresses, resolvers, the endpoint's route, the default routes), and that it agrees with what
 the translator tells the device.
 */
module AwgDirectives {
  import opened Common
  import opened Text
  import opened AwgIni
  import opened AwgUapi

  datatype Directives = Directives(addresses: seq<string>, nameservers: seq<string>, searches: seq<string>,
                                   endpoint: string, mtu: nat, hasV4Default: bool, hasV6Default: bool)

  const NO_DIRECTIVES := Directives([], [], [], "", 0, false, false)

  const V4_DEFAULT := "0.0.0.0/0"
  const V6_DEFAULT := "::/0"

  predicate IpChar(c: char) {
    HexChar(c) || c == ':' || c == '.'
  }

  predicate IpIsh(s: string) {
    s != "" && forall i :: 0 <= i < |s| ==> IpChar(s[i])
  }

  function AddAddress(d: Directives, a: string): Directives {
    if a == "" then d else d.(addresses := d.addresses + [a])
  }

  /** A resolver by address, or a search domain. */
  function AddName(d: Directives, v: string): Directives {
    if v == "" then d
    else if IpIsh(v) then d.(nameservers := d.nameservers + [v])
    else d.(searches := d.searches + [v])
  }

  function AddAddresses(d: Directives, values: seq<string>): (r: Directives)
    ensures r == d.(addresses := r.addresses)
    decreases |values|
  {
    if values == [] then d else AddAddresses(AddAddress(d, values[0]), values[1..])
  }

  function AddNames(d: Directives, values: seq<string>): (r: Directives)
    ensures r == d.(nameservers := r.nameservers, searches := r.searches)
    decreases |values|
  {
    if values == [] then d else AddNames(AddName(d, values[0]), values[1..])
  }

  function EndpointHost(v: string): string {
    var bracket, colon := LastIndexOf(v, ']'), LastIndexOf(v, ':');
    if v != "" && v[0] == '[' && 0 < bracket < |v| then v[1..bracket]
    else if colon < |v| then v[..colon]
    else v
  }

  predicate IsPair(section: Option<Section>, item: Item, s: Section, k: Key) {
    section == Some(s) && item.Assign? && item.key == Some(k)
  }

  /** What one line adds. */
  function Extracted(d: Directives, section: Option<Section>, item: Item): Directives {
    if IsPair(section, item, Interface, Address) then AddAddresses(d, Pieces(item.value))
    else if IsPair(section, item, Interface, Dns) then AddNames(d, Pieces(item.value))
    else if IsPair(section, item, Interface, Mtu) then d.(mtu := if Digits(item.value) then Num(item.value) else 0)
    else if IsPair(section, item, Peer, Endpoint) then d.(endpoint := EndpointHost(item.value))
    else if IsPair(section, item, Peer, AllowedIps) then
      d.(hasV4Default := d.hasV4Default || V4_DEFAULT in Pieces(item.value),
         hasV6Default := d.hasV6Default || V6_DEFAULT in Pieces(item.value))
    else d
  }

  function SectionAfter(section: Option<Section>, item: Item): Option<Section> {
    if item.Header? then item.section else section
  }

  function ExtractAll(d: Directives, section: Option<Section>, items: seq<Item>): Directives
    decreases |items|
  {
    if items == [] then d else ExtractAll(Extracted(d, section, items[0]), SectionAfter(section, items[0]), items[1..])
  }

  /** None is the error return: no address, or no endpoint. */
  function Directed(ini: string): Option<Directives> {
    var d := ExtractAll(NO_DIRECTIVES, None, Items(ini));
    if d.addresses == [] || d.endpoint == "" then None else Some(d)
  }

  /** One pair of a known section. */
  method Extract(d0: Directives, section: Option<Section>, item: Item) returns (d: Directives)
    ensures d == Extracted(d0, section, item)
  {
    d := d0;
    if IsPair(section, item, Interface, Address) {
      var values := Pieces(item.value);
      for i := 0 to |values|
        invariant AddAddresses(d0, values) == AddAddresses(d, values[i..])
      {
        assert values[i..][0] == values[i] && values[i..][1..] == values[i + 1..];
        if values[i] != "" {
          d := d.(addresses := d.addresses + [values[i]]);
        }
      }
    } else if IsPair(section, item, Interface, Dns) {
      var values := Pieces(item.value);
      for i := 0 to |values|
        invariant AddNames(d0, values) == AddNames(d, values[i..])
      {
        assert values[i..][0] == values[i] && values[i..][1..] == values[i + 1..];
        if values[i] == "" {
          continue;
        }
        if IpIsh(values[i]) {
          d := d.(nameservers := d.nameservers + [values[i]]);
        } else {
          d := d.(searches := d.searches + [values[i]]);
        }
      }
    } else if IsPair(section, item, Interface, Mtu) {
      d := d.(mtu := if Digits(item.value) then Num(item.value) else 0);
    } else if IsPair(section, item, Peer, Endpoint) {
      d := d.(endpoint := EndpointHost(item.value));
    } else if IsPair(section, item, Peer, AllowedIps) {
      d := AllowDefaults(d, Pieces(item.value));
    }
  }

  method AllowDefaults(d0: Directives, values: seq<string>) returns (d: Directives)
    ensures d == d0.(hasV4Default := d0.hasV4Default || V4_DEFAULT in values,
                     hasV6Default := d0.hasV6Default || V6_DEFAULT in values)
  {
    d := d0;
    for i := 0 to |values|
      invariant d == d0.(hasV4Default := d0.hasV4Default || V4_DEFAULT in values[..i],
                         hasV6Default := d0.hasV6Default || V6_DEFAULT in values[..i])
    {
      assert values[..i + 1] == values[..i] + [values[i]];
      if values[i] == V4_DEFAULT {
        d := d.(hasV4Default := true);
      } else if values[i] == V6_DEFAULT {
        d := d.(hasV6Default := true);
      }
    }
    assert values[..|values|] == values;
  }

  lemma ExtractStep(d: Directives, section: Option<Section>, items: seq<Item>, i: nat)
    requires i < |items|
    ensures ExtractAll(d, section, items[i..])
         == ExtractAll(Extracted(d, section, items[i]), SectionAfter(section, items[i]), items[i + 1..])
  {
    assert items[i..][0] == items[i] && items[i..][1..] == items[i + 1..];
  }

  method ParseAwgDirectives(config: string) returns (r: Option<Directives>)
    ensures r == Directed(config)
  {
    var d := NO_DIRECTIVES;
    var section: Option<Section> := None;
    var raws := Split(config, '\n');
    ghost var items := Items(config);
    for i := 0 to |raws|
      invariant ExtractAll(NO_DIRECTIVES, None, items) == ExtractAll(d, section, items[i..])
    {
      ExtractStep(d, section, items, i);
      var item := Read(raws[i]);
      d := Extract(d, section, item);
      if item.Header? {
        section := item.section;
      }
    }
    r := if d.addresses == [] || d.endpoint == "" then None else Some(d);
  }

  // ---- agreement with the device ---------------------------------------------------

  /** Some peer of the device may carry traffic for the prefix. */
  predicate Allows(d: Device, cidr: string) {
    exists i :: 0 <= i < |d.peers| && cidr in d.peers[i].allowed
  }

  lemma AllowsStep(b: Building, item: Item, cidr: string)
    requires Takes(b, item)
    ensures var more := IsPair(b.section, item, Peer, AllowedIps) && cidr in Pieces(item.value);
      Allows(Meant(b, item).device, cidr) <==> Allows(b.device, cidr) || more
  {
    var before, after := b.device.peers, Meant(b, item).device.peers;
    if Allows(b.device, cidr) {
      var i :| 0 <= i < |before| && cidr in before[i].allowed;
      assert cidr in after[i].allowed;
    }
    if IsPair(b.section, item, Peer, AllowedIps) && cidr in Pieces(item.value) {
      assert cidr in after[|after| - 1].allowed;
    }
    if Allows(Meant(b, item).device, cidr) {
      var i :| 0 <= i < |after| && cidr in after[i].allowed;
      assert i < |before| ==> cidr in before[i].allowed || (i == |before| - 1 && item.Assign?);
    }
  }

  lemma DefaultsStep(d: Directives, section: Option<Section>, item: Item)
    ensures var d' := Extracted(d, section, item);
      var here := IsPair(section, item, Peer, AllowedIps);
      && (d'.hasV4Default <==> d.hasV4Default || (here && V4_DEFAULT in Pieces(item.value)))
      && (d'.hasV6Default <==> d.hasV6Default || (here && V6_DEFAULT in Pieces(item.value)))
  {
  }

  lemma SectionStep(b: Building, item: Item)
    requires Takes(b, item)
    ensures Meant(b, item).section == SectionAfter(b.section, item)
  {
  }

  lemma {:induction false} DefaultsWalk(b: Building, d: Directives, items: seq<Item>)
    requires MeantBy(b, items).Some?
    requires d.hasV4Default == Allows(b.device, V4_DEFAULT) && d.hasV6Default == Allows(b.device, V6_DEFAULT)
    ensures var device, end := MeantBy(b, items).value.device, ExtractAll(d, b.section, items);
      end.hasV4Default == Allows(device, V4_DEFAULT) && end.hasV6Default == Allows(device, V6_DEFAULT)
    decreases |items|
  {
    if items != [] {
      var item := items[0];
      AllowsStep(b, item, V4_DEFAULT);
      AllowsStep(b, item, V6_DEFAULT);
      DefaultsStep(d, b.section, item);
      SectionStep(b, item);
      DefaultsWalk(Meant(b, item), Extracted(d, b.section, item), items[1..]);
    }
  }

  /**
   The default routes that the helper installs are those that the device was told to carry: for
   every translated config, a family has its default route iff some peer allows all of it.
   */
  lemma DefaultRoutesMatchDevice(ini: string)
    requires Described(ini).Some? && Directed(ini).Some?
    ensures Directed(ini).value.hasV4Default <==> Allows(Described(ini).value, V4_DEFAULT)
    ensures Directed(ini).value.hasV6Default <==> Allows(Described(ini).value, V6_DEFAULT)
  {
    DefaultsWalk(NOTHING, NO_DIRECTIVES, Items(ini));
    var device := MeantBy(NOTHING, Items(ini)).value.device;
    assert Described(ini).value.peers == device.peers;
  }

  predicate PlainHost(host: string) {
    host != "" && forall i :: 0 <= i < |host| ==> HostChar(host[i])
  }

  /** The endpoint's host is recovered from a `host:port` that the guard admits. */
  lemma EndpointHostRecovered(host: string, port: string)
    requires Uint(port, 5) && PlainHost(host)
    ensures var v := host + [':'] + port; EndpointShape(v) && EndpointHost(v) == host
  {
    var v := host + [':'] + port;
    assert v[..|host|] == host && v[|host| + 1..] == port && v[|host|] == ':';
    LastIs(v, ':', |host|);
    assert HostShape(host);
  }

  /** And from one in brackets. */
  lemma BracketedHostRecovered(host: string, port: string)
    requires Uint(port, 5) && PlainHost(host)
    ensures var v := Bracket(host) + [':'] + port; EndpointShape(v) && EndpointHost(v) == host
  {
    var h := Bracket(host);
    var v := h + [':'] + port;
    assert v[..|h|] == h && v[|h| + 1..] == port && v[|h|] == ':';
    assert v[|host| + 1] == ']';
    assert v[|host| + 2..] == [':'] + port;
    LastIs(v, ']', |host| + 1);
    assert v[1..|host| + 1] == host;
    assert forall i :: 1 <= i < |h| - 1 ==> h[i] == host[i - 1];
    assert HostShape(h);
  }

  // ---- what is extracted, line by line ---------------------------------------------

  /** The values that a key has in its section, in file order. */
  function ValuesOf(section: Option<Section>, items: seq<Item>, s: Section, k: Key): seq<string>
    decreases |items|
  {
    if items == [] then []
    else
      var item := items[0];
      (if item.Assign? && section == Some(s) && item.key == Some(k) then [item.value] else [])
      + ValuesOf(if item.Header? then item.section else section, items[1..], s, k)
  }

  /** The pieces of all the values that pass, in order. */
  ghost function Passing(values: seq<string>, pass: string -> bool): seq<string>
    decreases |values|
  {
    if values == [] then [] else Chosen(Pieces(values[0]), pass) + Passing(values[1..], pass)
  }

  ghost function Chosen(pieces: seq<string>, pass: string -> bool): seq<string>
    decreases |pieces|
  {
    if pieces == [] then [] else (if pass(pieces[0]) then [pieces[0]] else []) + Chosen(pieces[1..], pass)
  }

  predicate Given(piece: string) {
    piece != ""
  }

  /** `[0-9a-fA-F:.]+` */
  predicate AddressLike(piece: string) {
    piece != "" && forall i :: 0 <= i < |piece| ==>
      '0' <= piece[i] <= '9' || 'a' <= piece[i] <= 'f' || 'A' <= piece[i] <= 'F' || piece[i] == ':' || piece[i] == '.'
  }

  predicate DomainLike(piece: string) {
    piece != "" && !AddressLike(piece)
  }

  predicate Mentions(values: seq<string>, cidr: string) {
    exists i :: 0 <= i < |values| && cidr in Pieces(values[i])
  }

  lemma {:induction false} AddressesChosen(d: Directives, pieces: seq<string>)
    ensures AddAddresses(d, pieces).addresses == d.addresses + Chosen(pieces, Given)
    decreases |pieces|
  {
    if pieces == [] {
      assert d.addresses + [] == d.addresses;
    } else {
      AddressesChosen(AddAddress(d, pieces[0]), pieces[1..]);
      Associate(d.addresses, if Given(pieces[0]) then [pieces[0]] else [], Chosen(pieces[1..], Given));
    }
  }

  lemma {:induction false} NamesChosen(d: Directives, pieces: seq<string>)
    ensures AddNames(d, pieces).nameservers == d.nameservers + Chosen(pieces, AddressLike)
    ensures AddNames(d, pieces).searches == d.searches + Chosen(pieces, DomainLike)
    decreases |pieces|
  {
    if pieces == [] {
      assert d.nameservers + [] == d.nameservers && d.searches + [] == d.searches;
    } else {
      NamesChosen(AddName(d, pieces[0]), pieces[1..]);
      NameAdded(d, pieces[0]);
      Associate(d.nameservers, if AddressLike(pieces[0]) then [pieces[0]] else [], Chosen(pieces[1..], AddressLike));
      Associate(d.searches, if DomainLike(pieces[0]) then [pieces[0]] else [], Chosen(pieces[1..], DomainLike));
    }
  }

  lemma NameAdded(d: Directives, v: string)
    ensures AddName(d, v).nameservers == d.nameservers + if AddressLike(v) then [v] else []
    ensures AddName(d, v).searches == d.searches + if DomainLike(v) then [v] else []
  {
  }

  lemma ValuesFirst(section: Option<Section>, items: seq<Item>, s: Section, k: Key)
    requires items != []
    ensures var more := ValuesOf(SectionAfter(section, items[0]), items[1..], s, k);
      ValuesOf(section, items, s, k) == if IsPair(section, items[0], s, k) then [items[0].value] + more else more
  {
  }

  lemma PassingFirst(v: string, values: seq<string>, pass: string -> bool)
    ensures Passing([v] + values, pass) == Chosen(Pieces(v), pass) + Passing(values, pass)
  {
    assert ([v] + values)[1..] == values;
  }

  lemma {:induction false} AddressesExtracted(d: Directives, section: Option<Section>, items: seq<Item>)
    ensures ExtractAll(d, section, items).addresses
         == d.addresses + Passing(ValuesOf(section, items, Interface, Address), Given)
    decreases |items|
  {
    if items != [] {
      var item, next := items[0], SectionAfter(section, items[0]);
      var more := ValuesOf(next, items[1..], Interface, Address);
      AddressesExtracted(Extracted(d, section, item), next, items[1..]);
      ValuesFirst(section, items, Interface, Address);
      if IsPair(section, item, Interface, Address) {
        AddressesChosen(d, Pieces(item.value));
        PassingFirst(item.value, more, Given);
        Associate(d.addresses, Chosen(Pieces(item.value), Given), Passing(more, Given));
      }
    }
  }

  lemma {:induction false} NamesExtracted(d: Directives, section: Option<Section>, items: seq<Item>)
    ensures var end, dns := ExtractAll(d, section, items), ValuesOf(section, items, Interface, Dns);
      && end.nameservers == d.nameservers + Passing(dns, AddressLike)
      && end.searches == d.searches + Passing(dns, DomainLike)
    decreases |items|
  {
    if items != [] {
      var item, next := items[0], SectionAfter(section, items[0]);
      var more := ValuesOf(next, items[1..], Interface, Dns);
      NamesExtracted(Extracted(d, section, item), next, items[1..]);
      ValuesFirst(section, items, Interface, Dns);
      if IsPair(section, item, Interface, Dns) {
        NamesChosen(d, Pieces(item.value));
        PassingFirst(item.value, more, AddressLike);
        PassingFirst(item.value, more, DomainLike);
        Associate(d.nameservers, Chosen(Pieces(item.value), AddressLike), Passing(more, AddressLike));
        Associate(d.searches, Chosen(Pieces(item.value), DomainLike), Passing(more, DomainLike));
      }
    }
  }

  /** Of several, the last. */
  lemma LastOf(v: string, more: seq<string>)
    ensures ([v] + more)[|more|] == if more == [] then v else more[|more| - 1]
  {
  }

  lemma {:induction false} MtuExtracted(d: Directives, section: Option<Section>, items: seq<Item>)
    ensures var end, mtus := ExtractAll(d, section, items), ValuesOf(section, items, Interface, Mtu);
      end.mtu == if mtus == [] then d.mtu else if Digits(mtus[|mtus| - 1]) then Num(mtus[|mtus| - 1]) else 0
    decreases |items|
  {
    if items != [] {
      var item, next := items[0], SectionAfter(section, items[0]);
      MtuExtracted(Extracted(d, section, item), next, items[1..]);
      ValuesFirst(section, items, Interface, Mtu);
      if IsPair(section, item, Interface, Mtu) {
        LastOf(item.value, ValuesOf(next, items[1..], Interface, Mtu));
      }
    }
  }

  lemma {:induction false} EndpointExtracted(d: Directives, section: Option<Section>, items: seq<Item>)
    ensures var end, endpoints := ExtractAll(d, section, items), ValuesOf(section, items, Peer, Endpoint);
      end.endpoint == if endpoints == [] then d.endpoint else EndpointHost(endpoints[|endpoints| - 1])
    decreases |items|
  {
    if items != [] {
      var item, next := items[0], SectionAfter(section, items[0]);
      EndpointExtracted(Extracted(d, section, item), next, items[1..]);
      ValuesFirst(section, items, Peer, Endpoint);
      if IsPair(section, item, Peer, Endpoint) {
        LastOf(item.value, ValuesOf(next, items[1..], Peer, Endpoint));
      }
    }
  }

  lemma MentionsFirst(v: string, values: seq<string>, cidr: string)
    ensures Mentions([v] + values, cidr) <==> cidr in Pieces(v) || Mentions(values, cidr)
  {
    var all := [v] + values;
    assert all[0] == v && forall i :: 0 <= i < |values| ==> all[i + 1] == values[i];
    if Mentions(values, cidr) {
      var i :| 0 <= i < |values| && cidr in Pieces(values[i]);
      assert cidr in Pieces(all[i + 1]);
    }
  }

  lemma {:induction false} DefaultsExtracted(d: Directives, section: Option<Section>, items: seq<Item>)
    ensures var end, allowed := ExtractAll(d, section, items), ValuesOf(section, items, Peer, AllowedIps);
      && (end.hasV4Default <==> d.hasV4Default || Mentions(allowed, V4_DEFAULT))
      && (end.hasV6Default <==> d.hasV6Default || Mentions(allowed, V6_DEFAULT))
    decreases |items|
  {
    if items != [] {
      var item, next := items[0], SectionAfter(section, items[0]);
      var more := ValuesOf(next, items[1..], Peer, AllowedIps);
      DefaultsExtracted(Extracted(d, section, item), next, items[1..]);
      DefaultsStep(d, section, item);
      ValuesFirst(section, items, Peer, AllowedIps);
      if IsPair(section, item, Peer, AllowedIps) {
        MentionsFirst(item.value, more, V4_DEFAULT);
        MentionsFirst(item.value, more, V6_DEFAULT);
      }
    }
  }

  /** The lists that come of a file. */
  ghost predicate Listed(d: Directives, items: seq<Item>) {
    var dns := ValuesOf(None, items, Interface, Dns);
    && d.addresses == Passing(ValuesOf(None, items, Interface, Address), Given)
    && d.nameservers == Passing(dns, AddressLike) && d.searches == Passing(dns, DomainLike)
  }

  /** The last MTU, the host of the last endpoint, and the families that some AllowedIPs names in full. */
  predicate Settled(d: Directives, items: seq<Item>) {
    var mtus, endpoints := ValuesOf(None, items, Interface, Mtu), ValuesOf(None, items, Peer, Endpoint);
    var allowed := ValuesOf(None, items, Peer, AllowedIps);
    && d.mtu == (if mtus != [] && Digits(mtus[|mtus| - 1]) then Num(mtus[|mtus| - 1]) else 0)
    && d.endpoint == (if endpoints == [] then "" else EndpointHost(endpoints[|endpoints| - 1]))
    && (d.hasV4Default <==> Mentions(allowed, "0.0.0.0/0")) && (d.hasV6Default <==> Mentions(allowed, "::/0"))
  }

  lemma AllListed(items: seq<Item>)
    ensures Listed(ExtractAll(NO_DIRECTIVES, None, items), items)
  {
    AddressesExtracted(NO_DIRECTIVES, None, items);
    NamesExtracted(NO_DIRECTIVES, None, items);
  }

  lemma AllSettled(items: seq<Item>)
    ensures Settled(ExtractAll(NO_DIRECTIVES, None, items), items)
  {
    MtuExtracted(NO_DIRECTIVES, None, items);
    EndpointExtracted(NO_DIRECTIVES, None, items);
    DefaultsExtracted(NO_DIRECTIVES, None, items);
  }

  /** An address, and an endpoint that names a host. */
  ghost predicate Reachable(items: seq<Item>) {
    var endpoints := ValuesOf(None, items, Peer, Endpoint);
    && Passing(ValuesOf(None, items, Interface, Address), Given) != []
    && endpoints != [] && EndpointHost(endpoints[|endpoints| - 1]) != ""
  }

  lemma ReachableMeans(d: Directives, items: seq<Item>)
    requires Listed(d, items) && Settled(d, items)
    ensures Reachable(items) <==> d.addresses != [] && d.endpoint != ""
  {
  }

  lemma DirectedIs(ini: string, d: Directives)
    requires d == ExtractAll(NO_DIRECTIVES, None, Items(ini))
    ensures Directed(ini) == if d.addresses == [] || d.endpoint == "" then None else Some(d)
  {
  }

  /**
   What the helper takes from a config, without the loop: every address, resolver and search domain
   in file order, the last MTU and endpoint, and the default routes. It is refused exactly when it
   names no address, or no endpoint with a host.
   */
  lemma DirectivesMean(ini: string)
    ensures Directed(ini).Some? <==> Reachable(Items(ini))
    ensures Directed(ini).Some? ==> Listed(Directed(ini).value, Items(ini)) && Settled(Directed(ini).value, Items(ini))
  {
    var items := Items(ini);
    var d := ExtractAll(NO_DIRECTIVES, None, items);
    AllListed(items);
    AllSettled(items);
    ReachableMeans(d, items);
    DirectedIs(ini, d);
  }

  /** An endpoint without a bracket or a port is all host. */
  lemma BareEndpoint(v: string)
    requires ':' !in v && (v == "" || v[0] != '[')
    ensures EndpointHost(v) == v
  {
  }
}
