/**
 The TUN routing of daemon/internal/ops/tun.go with the address checks of
 daemon/internal/guard/guard.go: what TunUp installs, what longest-prefix match then does, the
 state line that one call writes and the other reads, and when TunDown puts the table back.
 */
module TunRoutes {
  import opened Common
  import opened Ipv4
  import opened Text

  // ---- the helper's own check -------------------------------------------------------

  /** guard.IsAllowedBypassCidr: at least one bit, and not the all-zero address. */
  predicate IsAllowedBypassCidr(s: string) {
    var c := ParseCidr(Trim(s));
    c.Some? && c.value.len >= 1 && c.value.base != 0
  }

  // ---- the routing table -----------------------------------------------------------

  datatype Hop = Dev(name: string) | Via(gateway: Address, iface: string)

  type Table = map<Net, Hop>

  const TUN := "sntl-tun"
  const LOW := Net(0, 1)
  const HIGH := Net(0x8000_0000, 1)

  /** The kernel holds one route a prefix, host bits clear. */
  predicate Wf(t: Table) {
    forall n :: n in t ==> Aligned(32, n) && n.base < Pow2(32)
  }

  /** `ip route add`: refused when the prefix has host bits or is taken. */
  function Add(t: Table, n: Net, h: Hop, lucky: bool): Table {
    if lucky && n !in t && Aligned(32, n) then t[n := h] else t
  }

  function Del(t: Table, n: Net): Table {
    t - {n}
  }

  /** Deleting a link takes its routes along. */
  function DropTun(t: Table): Table {
    map n | n in t && t[n] != Dev(TUN) :: t[n]
  }

  /** The first n bits of an address. */
  function Mask(a: Address, n: nat): Net
    requires n <= 32
  {
    Net(a / Pow2(32 - n) * Pow2(32 - n), n)
  }

  /** The kernel's lookup: try the longest prefix first. */
  function Lookup(t: Table, a: Address, n: nat): Option<Hop>
    requires n <= 32
  {
    if Mask(a, n) in t then Some(t[Mask(a, n)]) else if n == 0 then None else Lookup(t, a, n - 1)
  }

  lemma MaskCovers(net: Net, a: Address)
    requires Aligned(32, net)
    ensures Covers(32, net, a) <==> net == Mask(a, net.len)
  {
    var p := Pow2(32 - net.len);
    MultipleOf(net.base, p);
    if net == Mask(a, net.len) {
      MulSwap(p, a / p);
      QuotientIs(net.base, p, a / p, 0);
    }
  }

  lemma MultipleOf(a: nat, p: nat)
    requires p > 0 && a % p == 0
    ensures a == a / p * p
  {
  }

  lemma MulSwap(x: nat, y: nat)
    ensures x * y == y * x
  {
  }

  /** The route looked up is the longest one that covers the address (RFC 4632, section 5.1). */
  predicate IsLongest(t: Table, a: Address, net: Net) {
    net in t && Covers(32, net, a) && forall m :: m in t && Covers(32, m, a) ==> m.len <= net.len
  }

  lemma {:induction false} LookupIsLongest(t: Table, a: Address, n: nat)
    requires Wf(t) && n <= 32
    requires forall m :: m in t && Covers(32, m, a) ==> m.len <= n
    ensures Lookup(t, a, n).None? <==> (forall m :: m in t ==> !Covers(32, m, a))
    ensures forall net :: IsLongest(t, a, net) ==> Lookup(t, a, n) == Some(t[net])
    decreases n
  {
    forall m | m in t ensures Covers(32, m, a) <==> m == Mask(a, m.len) {
      MaskCovers(m, a);
    }
    if Mask(a, n) in t {
    } else if n > 0 {
      LookupIsLongest(t, a, n - 1);
    }
  }

  // ---- the state line --------------------------------------------------------------

  datatype Saved = Saved(pid: Option<nat>, remote: string, bypass: seq<string>)

  function StateLine(pid: nat, remote: string, bypass: seq<string>): string {
    Dec(pid) + " " + remote + " " + Join(bypass, ',') + "\n"
  }

  /** The reader: whitespace fields of the first line; the last one takes the rest. */
  function ReadState(text: string): Saved {
    var f := Fields(Split(text, '\n')[0]);
    Saved(
      if |f| >= 1 && Digits(f[0]) && Num(f[0]) > 0 then Some(Num(f[0])) else None,
      if |f| >= 2 then f[1] else "",
      if |f| >= 3 then Split(Join(f[2..], ' '), ',') else [])
  }

  /** What the helper writes after its checks: no white space and no comma. */
  predicate Plain(s: string) {
    s != "" && NoSpace(s) && ',' !in s
  }

  /** A pid is read exactly from a first field that is a number above zero. */
  lemma PidRead(text: string, f: seq<string>)
    requires f == Fields(Split(text, '\n')[0])
    ensures ReadState(text).pid.Some? <==> f != [] && Digits(f[0]) && Num(f[0]) != 0
    ensures ReadState(text).pid.Some? ==> ReadState(text).pid.value == Num(f[0])
    ensures |f| < 2 ==> ReadState(text).remote == ""
    ensures |f| < 3 ==> ReadState(text).bypass == []
  {
  }

  lemma {:induction false} JoinPlain(parts: seq<string>)
    requires parts != [] && forall i :: 0 <= i < |parts| ==> Plain(parts[i])
    ensures Join(parts, ',') != "" && NoSpace(Join(parts, ','))
    decreases |parts|
  {
    if |parts| > 1 {
      JoinPlain(parts[1..]);
    }
  }

  /** TunDown reads back what TunUp wrote. */
  lemma StateLineRoundTrip(pid: nat, remote: string, bypass: seq<string>)
    requires pid > 0 && Plain(remote) && forall i :: 0 <= i < |bypass| ==> Plain(bypass[i])
    ensures ReadState(StateLine(pid, remote, bypass)) == Saved(Some(pid), remote, bypass)
  {
    var d, joined := Dec(pid), Join(bypass, ',');
    NumDec(pid);
    if bypass != [] {
      JoinPlain(bypass);
    }
    var line := d + " " + remote + " " + joined;
    assert '\n' !in line by {
      assert IsSpace('\n');
      assert NoSpace(joined);
    }
    SplitFirst(line, "", '\n');
    assert StateLine(pid, remote, bypass) == line + ['\n'] + "";
    assert Split(StateLine(pid, remote, bypass), '\n')[0] == line;
    FieldsOfLine(d, remote, joined);
    if bypass != [] {
      assert Fields(line)[2..] == [joined];
      SplitJoin(bypass, ',');
    }
  }

  lemma FieldsNext(a: string, rest: string)
    requires a != "" && NoSpace(a)
    ensures Fields(a + " " + rest) == [a] + Fields(rest)
  {
    FieldsFirst(a, " " + rest);
    assert a + " " + rest == a + (" " + rest);
    assert (" " + rest)[1..] == rest;
  }

  lemma FieldsOfLine(d: string, remote: string, joined: string)
    requires d != "" && NoSpace(d) && remote != "" && NoSpace(remote) && NoSpace(joined)
    ensures Fields(d + " " + remote + " " + joined) == [d, remote] + if joined == "" then [] else [joined]
  {
    var tail := remote + " " + joined;
    assert d + " " + remote + " " + joined == d + " " + tail;
    FieldsNext(d, tail);
    FieldsNext(remote, joined);
    if joined != "" {
      FieldsFirst(joined, "");
      assert joined + "" == joined;
    }
  }

  lemma DigitsPlain(s: string)
    requires Digits(s)
    ensures Plain(s)
  {
  }

  lemma {:induction false} JoinIsPlain(parts: seq<string>, sep: char)
    requires parts != [] && !IsSpace(sep) && sep != ','
    requires forall i :: 0 <= i < |parts| ==> Plain(parts[i])
    ensures Plain(Join(parts, sep))
    decreases |parts|
  {
    if |parts| > 1 {
      JoinIsPlain(parts[1..], sep);
    }
  }

  /** Whatever the address checks let through is plain text. */
  lemma QuadIsPlain(s: string)
    requires IsQuad(s)
    ensures Plain(s)
  {
    JoinSplit(s, '.');
    var p := Split(s, '.');
    forall i | 0 <= i < |p| ensures Plain(p[i]) {
      DigitsPlain(p[i]);
    }
    JoinIsPlain(p, '.');
  }

  lemma CidrIsPlain(s: string)
    requires ParseCidr(s).Some?
    ensures Plain(s)
  {
    JoinSplit(s, '/');
    var p := Split(s, '/');
    QuadIsPlain(p[0]);
    DigitsPlain(p[1]);
    JoinIsPlain(p, '/');
  }

  // ---- the code --------------------------------------------------------------------

  const MAX_BYPASS_ROUTES: nat := 64
  const TUN_POLL_TRIES: nat := 50

  datatype Params = Params(socksOk: bool, remote: string, gateway: string, iface: string, ifaceOk: bool, bypass: seq<string>)

  datatype UpResult =
    | Refused | SpawnFailed | NoTun | LinkFailed | LowFailed | HighFailed
    | StateFailed   // every route is in, and the call returns an error
    | Up

  /** What one call of TunUp meets: lock and tools at hand, the engine's pid, the poll at which
      it has created its link, the state file, and whether the kernel takes the k-th command. */
  datatype World = World(ready: bool, spawns: bool, pid: nat, appears: nat, write: Write, luck: nat -> bool)

  predicate Checked(p: Params) {
    p.socksOk && IsQuad(p.remote) && IsQuad(p.gateway) && p.ifaceOk && |p.bypass| <= MAX_BYPASS_ROUTES
  }

  function KeptOne(s: string): (r: seq<string>)
    ensures |r| <= 1 && forall i :: 0 <= i < |r| ==> ParseCidr(r[i]).Some?
  {
    if IsAllowedBypassCidr(s) then [Trim(s)] else []
  }

  function Kept(raw: seq<string>): (r: seq<string>)
    ensures forall i :: 0 <= i < |r| ==> ParseCidr(r[i]).Some?
    decreases |raw|
  {
    if raw == [] then [] else KeptOne(raw[0]) + Kept(raw[1..])
  }

  /**
   The filter keeps exactly the entries that are a prefix of one bit or more at an address that is not
   zero, each as it is trimmed: none of them is a default route.
   */
  lemma {:induction false} KeptMeans(raw: seq<string>, c: string)
    ensures c in Kept(raw)
       <==> (exists i :: 0 <= i < |raw| && Trim(raw[i]) == c) && ParseCidr(c).Some?
            && 1 <= ParseCidr(c).value.len && ParseCidr(c).value.base != 0
    decreases |raw|
  {
    if raw != [] {
      KeptMeans(raw[1..], c);
      assert forall i :: 1 <= i < |raw| ==> raw[i] == raw[1..][i - 1];
      assert forall i :: 0 <= i < |raw| - 1 ==> raw[1..][i] == raw[i + 1];
    }
  }

  lemma KeptStep(raw: seq<string>, i: nat, before: seq<string>)
    requires i < |raw|
    ensures before + Kept(raw[i..]) == before + KeptOne(raw[i]) + Kept(raw[i + 1..])
  {
    var rest := raw[i..];
    assert rest[0] == raw[i] && rest[1..] == raw[i + 1..];
    Associate(before, KeptOne(raw[i]), Kept(raw[i + 1..]));
  }

  lemma Associate<T>(a: seq<T>, b: seq<T>, c: seq<T>)
    ensures a + (b + c) == a + b + c
  {
  }

  function Server(remote: string): Net
    requires IsQuad(remote)
  {
    Net(ParseIPv4(remote).value, 32)
  }

  function ViaOf(p: Params): Hop
    requires Checked(p)
  {
    Via(ParseIPv4(p.gateway).value, p.iface)
  }

  /** The bypass routes in order; `luck` is whether the kernel takes the k-th add. */
  function AddAll(t: Table, cidrs: seq<string>, h: Hop, luck: nat -> bool, k: nat): Table
    requires forall i :: 0 <= i < |cidrs| ==> ParseCidr(cidrs[i]).Some?
    decreases |cidrs|
  {
    if cidrs == [] then t
    else AddAll(Add(t, ParseCidr(cidrs[0]).value, h, luck(k)), cidrs[1..], h, luck, k + 1)
  }

  function DelAll(t: Table, cidrs: seq<string>): Table
    decreases |cidrs|
  {
    if cidrs == [] then t
    else DelAll(if ParseCidr(cidrs[0]).Some? then Del(t, ParseCidr(cidrs[0]).value) else t, cidrs[1..])
  }

  /** The table with the server route, before anything enters the tunnel. */
  function ServerRouted(t: Table, p: Params, luck: nat -> bool): Table
    requires Checked(p)
  {
    Add(DropTun(t), Server(p.remote), ViaOf(p), luck(0))
  }

  class Host {
    var routes: Table
    var stateFile: Option<string>

    constructor (routes: Table, stateFile: Option<string>)
      ensures this.routes == routes && this.stateFile == stateFile
    {
      this.routes, this.stateFile := routes, stateFile;
    }

    /** One entry: kept as it is trimmed, or dropped. */
    method FilterOne(raw: seq<string>, i: nat, before: seq<string>) returns (after: seq<string>)
      requires i < |raw|
      ensures before + Kept(raw[i..]) == after + Kept(raw[i + 1..])
      ensures |before| <= |after| <= |before| + 1
    {
      KeptStep(raw, i, before);
      after := before + KeptOne(raw[i]);
    }

    method FilterBypass(raw: seq<string>) returns (bypass: seq<string>, dropped: nat)
      ensures bypass == Kept(raw) && dropped == |raw| - |bypass|
    {
      bypass, dropped := [], 0;
      for i := 0 to |raw|
        invariant Kept(raw) == bypass + Kept(raw[i..]) && dropped == i - |bypass|
      {
        var was := |bypass|;
        bypass := FilterOne(raw, i, bypass);
        if |bypass| == was {
          dropped := dropped + 1;
        }
      }
      assert Kept(raw[|raw|..]) == [];
    }

    method AddBypass(bypass: seq<string>, via: Hop, luck: nat -> bool)
      requires forall i :: 0 <= i < |bypass| ==> ParseCidr(bypass[i]).Some?
      modifies this`routes
      ensures routes == AddAll(old(routes), bypass, via, luck, 4)
    {
      for j := 0 to |bypass|
        invariant AddAll(old(routes), bypass, via, luck, 4) == AddAll(routes, bypass[j..], via, luck, 4 + j)
      {
        assert bypass[j..][1..] == bypass[j + 1..];
        routes := Add(routes, ParseCidr(bypass[j]).value, via, luck(4 + j));
      }
    }

    /** The link is there and what went before is gone. */
    method InstallRoutes(p: Params, bypass: seq<string>, luck: nat -> bool) returns (r: UpResult)
      requires Checked(p) && bypass == Kept(p.bypass) && routes == DropTun(routes)
      modifies this`routes
      ensures (r, routes) == RouteSpec(old(routes), p, luck)
    {
      var via := Via(ParseIPv4(p.gateway).value, p.iface);
      routes := Add(routes, Server(p.remote), via, luck(0));
      if !luck(1) {
        return LinkFailed;
      }
      if !luck(2) || LOW in routes {
        return LowFailed;
      }
      routes := routes[LOW := Dev(TUN)];
      if !luck(3) || HIGH in routes {
        return HighFailed;
      }
      routes := routes[HIGH := Dev(TUN)];
      AddBypass(bypass, via, luck);
      return Up;
    }

    method TunUp(p: Params, w: World) returns (r: UpResult)
      modifies this
      ensures (r, routes) == UpSpec(old(routes), p, w)
      ensures stateFile == LineAfter(old(stateFile), r, p, w)
    {
      if !p.socksOk || !IsQuad(p.remote) || !IsQuad(p.gateway) || !p.ifaceOk || |p.bypass| > MAX_BYPASS_ROUTES {
        return Refused;
      }
      if !w.ready {
        return Refused;
      }
      var bypass, _ := FilterBypass(p.bypass);
      routes := DropTun(routes);
      if !w.spawns {
        return SpawnFailed;
      }
      var i := 0;
      while i < TUN_POLL_TRIES && i < w.appears
        invariant i <= TUN_POLL_TRIES && i <= w.appears
      {
        i := i + 1;
      }
      if i < w.appears {
        return NoTun;
      }
      DropTwice(old(routes));
      r := InstallRoutes(p, bypass, w.luck);
      RouteOfDropped(old(routes), p, w.luck);
      if r.Up? {
        if !w.write.WriteFails? {
          stateFile := Some(StateLine(w.pid, p.remote, bypass));
        }
        r := if w.write.WriteDone? then Up else StateFailed;
      }
    }

    method TunDown()
      modifies this
      ensures routes == DownSpec(old(routes), old(stateFile)) && stateFile == None
    {
      var remote, bypass := "", [];
      if stateFile.Some? {
        var saved := ReadState(stateFile.value);
        remote, bypass := saved.remote, saved.bypass;
        stateFile := None;
      }
      routes := DropTun(routes);
      if IsQuad(remote) {
        routes := Del(routes, Server(remote));
      }
      ghost var t := routes;
      for i := 0 to |bypass|
        invariant DelAll(t, bypass) == DelAll(routes, bypass[i..]) && stateFile == None
      {
        assert bypass[i..][1..] == bypass[i + 1..];
        var c := ParseCidr(bypass[i]);
        if c.Some? {
          routes := Del(routes, c.value);
        }
      }
    }
  }

  lemma DropTwice(t: Table)
    ensures DropTun(DropTun(t)) == DropTun(t)
  {
  }

  lemma RouteOfDropped(t: Table, p: Params, luck: nat -> bool)
    requires Checked(p)
    ensures RouteSpec(DropTun(t), p, luck) == RouteSpec(t, p, luck)
  {
    DropTwice(t);
  }

  /** The routing, once the link is there; Up is all of it. */
  function RouteSpec(t: Table, p: Params, luck: nat -> bool): (UpResult, Table)
    requires Checked(p)
  {
    var t1 := ServerRouted(t, p, luck);
    if !luck(1) then (LinkFailed, t1)
    else if !luck(2) || LOW in t1 then (LowFailed, t1)
    else
      var t2 := t1[LOW := Dev(TUN)];
      if !luck(3) || HIGH in t2 then (HighFailed, t2)
      else (Up, AddAll(t2[HIGH := Dev(TUN)], Kept(p.bypass), ViaOf(p), luck, 4))
  }

  /** A whole call: its result and the routes it leaves. */
  function UpSpec(t: Table, p: Params, w: World): (UpResult, Table) {
    if !Checked(p) || !w.ready then (Refused, t)
    else if !w.spawns then (SpawnFailed, DropTun(t))
    else if w.appears > TUN_POLL_TRIES then (NoTun, DropTun(t))
    else
      var (r, t') := RouteSpec(t, p, w.luck);
      (if r.Up? && !w.write.WriteDone? then StateFailed else r, t')
  }

  /** The state file after a call that ended with r. */
  function LineAfter(line: Option<string>, r: UpResult, p: Params, w: World): Option<string> {
    if r.Up? || (r.StateFailed? && w.write.ChmodFails?) then Some(StateLine(w.pid, p.remote, Kept(p.bypass)))
    else line
  }

  function DownSpec(t: Table, stateFile: Option<string>): Table {
    var saved := if stateFile.Some? then ReadState(stateFile.value) else Saved(None, "", []);
    var t1 := DropTun(t);
    DelAll(if IsQuad(saved.remote) then Del(t1, Server(saved.remote)) else t1, saved.bypass)
  }

  // ---- what TunUp installs ---------------------------------------------------------

  /** The prefixes that a list of bypass entries names. */
  function Nets(cidrs: seq<string>): set<Net> {
    set i | 0 <= i < |cidrs| && ParseCidr(cidrs[i]).Some? :: ParseCidr(cidrs[i]).value
  }

  lemma NetsStep(cidrs: seq<string>)
    requires cidrs != []
    ensures Nets(cidrs) == Nets(cidrs[1..]) + if ParseCidr(cidrs[0]).Some? then {ParseCidr(cidrs[0]).value} else {}
  {
    var rest := cidrs[1..];
    forall n | n in Nets(cidrs)
      ensures n in Nets(rest) || (ParseCidr(cidrs[0]).Some? && n == ParseCidr(cidrs[0]).value)
    {
      var i :| 0 <= i < |cidrs| && ParseCidr(cidrs[i]).Some? && n == ParseCidr(cidrs[i]).value;
      if i > 0 {
        assert rest[i - 1] == cidrs[i];
      }
    }
    forall n | n in Nets(rest) ensures n in Nets(cidrs) {
      var i :| 0 <= i < |rest| && ParseCidr(rest[i]).Some? && n == ParseCidr(rest[i]).value;
      assert cidrs[i + 1] == rest[i];
    }
  }

  /** Adding only adds, only through h, only the prefixes asked for. */
  predicate Extends(t: Table, t': Table, h: Hop, nets: set<Net>) {
    && Wf(t')
    && (forall n :: n in t ==> n in t' && t'[n] == t[n])
    && (forall n :: n in t' && n !in t ==> n in nets && t'[n] == h)
  }

  lemma ExtendsAdd(t: Table, n: Net, h: Hop, lucky: bool)
    requires Wf(t) && n.base < Pow2(32)
    ensures Extends(t, Add(t, n, h, lucky), h, {n})
  {
  }

  lemma ExtendsTwice(t: Table, t1: Table, t2: Table, h: Hop, a: set<Net>, b: set<Net>)
    requires Extends(t, t1, h, a) && Extends(t1, t2, h, b)
    ensures Extends(t, t2, h, a + b)
  {
  }

  lemma {:induction false} AddAllExtends(t: Table, cidrs: seq<string>, h: Hop, luck: nat -> bool, k: nat)
    requires Wf(t) && forall i :: 0 <= i < |cidrs| ==> ParseCidr(cidrs[i]).Some?
    ensures Extends(t, AddAll(t, cidrs, h, luck, k), h, Nets(cidrs))
    decreases |cidrs|
  {
    if cidrs != [] {
      NetsStep(cidrs);
      var n := ParseCidr(cidrs[0]).value;
      var t1 := Add(t, n, h, luck(k));
      AddAllExtends(t1, cidrs[1..], h, luck, k + 1);
      ExtendsAdd(t, n, h, luck(k));
      ExtendsTwice(t, t1, AddAll(t1, cidrs[1..], h, luck, k + 1), h, {n}, Nets(cidrs[1..]));
    }
  }

  lemma {:induction false} DelAllRemoves(t: Table, cidrs: seq<string>)
    ensures DelAll(t, cidrs) == t - Nets(cidrs)
    decreases |cidrs|
  {
    if cidrs != [] {
      NetsStep(cidrs);
      var t1 := if ParseCidr(cidrs[0]).Some? then Del(t, ParseCidr(cidrs[0]).value) else t;
      DelAllRemoves(t1, cidrs[1..]);
      assert t1 - Nets(cidrs[1..]) == t - Nets(cidrs);
    }
  }

  /** What a call may add outside the tunnel. */
  function Detours(p: Params): set<Net>
    requires Checked(p)
  {
    {Server(p.remote)} + Nets(Kept(p.bypass))
  }

  /** The old routes t, the two halves, and detours through h. */
  predicate Installed(t: Table, t': Table, h: Hop, detours: set<Net>) {
    && LOW !in t && HIGH !in t
    && Wf(t') && LOW in t' && HIGH in t' && t'[LOW] == t'[HIGH] == Dev(TUN)
    && (forall n :: n in t ==> n in t' && t'[n] == t[n])
    && (forall n :: n in t' && n !in t && n != LOW && n != HIGH ==> n in detours && t'[n] == h)
  }

  lemma HalvesKeepWf(t: Table)
    requires Wf(t)
    ensures Wf(t[LOW := Dev(TUN)][HIGH := Dev(TUN)])
  {
    Pow32();
    assert Aligned(32, LOW) && Aligned(32, HIGH);
  }

  lemma InstalledFrom(t: Table, t1: Table, t': Table, h: Hop, a: set<Net>, b: set<Net>)
    requires Extends(t, t1, h, a) && LOW !in t1 && HIGH !in t1
    requires Extends(t1[LOW := Dev(TUN)][HIGH := Dev(TUN)], t', h, b)
    ensures Installed(t, t', h, a + b)
  {
  }

  /** What a TunUp that succeeds leaves. */
  lemma UpInstalls(t: Table, p: Params, luck: nat -> bool)
    requires Wf(t) && Checked(p) && RouteSpec(t, p, luck).0.Up?
    ensures Installed(DropTun(t), RouteSpec(t, p, luck).1, ViaOf(p), Detours(p))
  {
    var t0, t1 := DropTun(t), ServerRouted(t, p, luck);
    ExtendsAdd(t0, Server(p.remote), ViaOf(p), luck(0));
    HalvesKeepWf(t1);
    var t3 := t1[LOW := Dev(TUN)][HIGH := Dev(TUN)];
    AddAllExtends(t3, Kept(p.bypass), ViaOf(p), luck, 4);
    InstalledFrom(t0, t1, AddAll(t3, Kept(p.bypass), ViaOf(p), luck, 4), ViaOf(p),
                  {Server(p.remote)}, Nets(Kept(p.bypass)));
  }

  lemma HalfOf(a: Address)
    requires a < Pow2(32)
    ensures Mask(a, 1) == if a < 0x8000_0000 then LOW else HIGH
  {
    Pow32();
    assert a / 0x8000_0000 == if a < 0x8000_0000 then 0 else 1;
  }

  /**
   Longest-prefix match after a TunUp that succeeds: an address enters the tunnel exactly when
   nothing longer than a half covers it.
   */
  lemma TunnelTakesIff(t: Table, p: Params, luck: nat -> bool, a: Address)
    requires Wf(t) && Checked(p) && RouteSpec(t, p, luck).0.Up? && a < Pow2(32)
    ensures var t' := RouteSpec(t, p, luck).1;
      Lookup(t', a, 32) == Some(Dev(TUN)) <==> (forall n :: n in t' && n.len >= 2 ==> !Covers(32, n, a))
  {
    UpInstalls(t, p, luck);
    var t' := RouteSpec(t, p, luck).1;
    HalfOf(a);
    MaskCovers(Mask(a, 1), a);
    LookupIsLongest(t', a, 32);
    LookupFound(t', a, 32);
    var half := Mask(a, 1);
    if forall n :: n in t' && n.len >= 2 ==> !Covers(32, n, a) {
      assert IsLongest(t', a, half);
    } else {
      var n :| n in t' && n.len >= 2 && Covers(32, n, a);
      var m :| m in t' && m.len <= 32 && IsLongest(t', a, m);
      assert m.len >= n.len;
      assert m != LOW && m != HIGH;
      assert t'[m] != Dev(TUN);
    }
  }

  /** Where anything covers an address, some route is the longest. */
  lemma {:induction false} LookupFound(t: Table, a: Address, n: nat)
    requires Wf(t) && n <= 32
    requires forall m :: m in t && Covers(32, m, a) ==> m.len <= n
    requires exists m :: m in t && Covers(32, m, a)
    ensures exists m :: m in t && m.len <= 32 && IsLongest(t, a, m)
    decreases n
  {
    if m :| m in t && Covers(32, m, a) && m.len == n {
      assert IsLongest(t, a, m);
    } else {
      var m :| m in t && Covers(32, m, a);
      LookupFound(t, a, n - 1);
    }
  }

  /**
   The promise of the split route: of the addresses that no earlier route but the default
   covered, only the server and the bypass prefixes stay outside the tunnel.
   */
  lemma OnlyDetoursEscape(t: Table, p: Params, luck: nat -> bool, a: Address)
    requires Wf(t) && Checked(p) && RouteSpec(t, p, luck).0.Up? && a < Pow2(32)
    requires forall n :: n in DropTun(t) && n.len >= 1 ==> !Covers(32, n, a)
    requires forall n :: n in Detours(p) ==> !Covers(32, n, a)
    ensures Lookup(RouteSpec(t, p, luck).1, a, 32) == Some(Dev(TUN))
  {
    UpInstalls(t, p, luck);
    TunnelTakesIff(t, p, luck, a);
  }

  lemma ServerInstalled(t: Table, p: Params, luck: nat -> bool)
    requires Wf(t) && Checked(p) && RouteSpec(t, p, luck).0.Up? && luck(0)
    ensures Server(p.remote) in RouteSpec(t, p, luck).1
  {
    var t1 := ServerRouted(t, p, luck);
    assert Pow2(0) == 1;
    assert Server(p.remote) in t1;
    ExtendsAdd(DropTun(t), Server(p.remote), ViaOf(p), luck(0));
    HalvesKeepWf(t1);
    AddAllExtends(t1[LOW := Dev(TUN)][HIGH := Dev(TUN)], Kept(p.bypass), ViaOf(p), luck, 4);
  }

  lemma LookupHost(t: Table, a: Address)
    requires Net(a, 32) in t
    ensures Lookup(t, a, 32) == Some(t[Net(a, 32)])
  {
    assert Pow2(0) == 1;
    assert Mask(a, 32) == Net(a, 32);
  }

  /** The core's own packets never enter the tunnel. */
  lemma ServerStaysOutside(t: Table, p: Params, luck: nat -> bool)
    requires Wf(t) && Checked(p) && RouteSpec(t, p, luck).0.Up? && luck(0)
    ensures var hop := Lookup(RouteSpec(t, p, luck).1, Server(p.remote).base, 32);
      hop == Some(if Server(p.remote) in DropTun(t) then t[Server(p.remote)] else ViaOf(p)) && hop != Some(Dev(TUN))
  {
    UpInstalls(t, p, luck);
    ServerInstalled(t, p, luck);
    LookupHost(RouteSpec(t, p, luck).1, Server(p.remote).base);
  }

  // ---- TunDown after TunUp ---------------------------------------------------------

  lemma SavedByUp(p: Params, pid: nat)
    requires Checked(p) && pid > 0
    ensures ReadState(StateLine(pid, p.remote, Kept(p.bypass))) == Saved(Some(pid), p.remote, Kept(p.bypass))
  {
    QuadIsPlain(p.remote);
    forall i | 0 <= i < |Kept(p.bypass)| ensures Plain(Kept(p.bypass)[i]) {
      CidrIsPlain(Kept(p.bypass)[i]);
    }
    StateLineRoundTrip(pid, p.remote, Kept(p.bypass));
  }

  /** The prefixes that TunDown deletes on the word of a state file. */
  function Named(line: Option<string>): set<Net> {
    var saved := if line.Some? then ReadState(line.value) else Saved(None, "", []);
    (if IsQuad(saved.remote) then {Server(saved.remote)} else {}) + Nets(saved.bypass)
  }

  lemma DownDeletes(t: Table, line: Option<string>)
    ensures DownSpec(t, line) == DropTun(t) - Named(line)
  {
    var saved := if line.Some? then ReadState(line.value) else Saved(None, "", []);
    var t1 := DropTun(t);
    var t2 := if IsQuad(saved.remote) then Del(t1, Server(saved.remote)) else t1;
    DelAllRemoves(t2, saved.bypass);
    assert t2 - Nets(saved.bypass) == t1 - Named(line);
  }

  /** The adds that the kernel takes if their prefixes are free; `luck` counts from k. */
  function Lucky(cidrs: seq<string>, luck: nat -> bool, k: nat): set<Net> {
    set i | 0 <= i < |cidrs| && luck(k + i) && ParseCidr(cidrs[i]).Some? && Aligned(32, ParseCidr(cidrs[i]).value)
      :: ParseCidr(cidrs[i]).value
  }

  function LuckyHead(cidrs: seq<string>, luck: nat -> bool, k: nat): set<Net>
    requires cidrs != []
  {
    if luck(k) && ParseCidr(cidrs[0]).Some? && Aligned(32, ParseCidr(cidrs[0]).value)
    then {ParseCidr(cidrs[0]).value} else {}
  }

  lemma LuckyStep(cidrs: seq<string>, luck: nat -> bool, k: nat)
    requires cidrs != []
    ensures Lucky(cidrs, luck, k) == LuckyHead(cidrs, luck, k) + Lucky(cidrs[1..], luck, k + 1)
  {
    var rest := cidrs[1..];
    forall n | n in Lucky(cidrs, luck, k) ensures n in LuckyHead(cidrs, luck, k) || n in Lucky(rest, luck, k + 1) {
      var i :| 0 <= i < |cidrs| && luck(k + i) && ParseCidr(cidrs[i]).Some? && Aligned(32, ParseCidr(cidrs[i]).value)
               && n == ParseCidr(cidrs[i]).value;
      if i > 0 {
        assert rest[i - 1] == cidrs[i] && luck(k + 1 + (i - 1));
      }
    }
    forall n | n in Lucky(rest, luck, k + 1) ensures n in Lucky(cidrs, luck, k) {
      var i :| 0 <= i < |rest| && luck(k + 1 + i) && ParseCidr(rest[i]).Some? && Aligned(32, ParseCidr(rest[i]).value)
               && n == ParseCidr(rest[i]).value;
      assert cidrs[i + 1] == rest[i] && luck(k + (i + 1));
    }
  }

  /** Exactly the lucky prefixes are in the table behind the adds. */
  lemma {:induction false} AddAllKeys(t: Table, cidrs: seq<string>, h: Hop, luck: nat -> bool, k: nat)
    requires forall i :: 0 <= i < |cidrs| ==> ParseCidr(cidrs[i]).Some?
    ensures AddAll(t, cidrs, h, luck, k).Keys == t.Keys + Lucky(cidrs, luck, k)
    decreases |cidrs|
  {
    if cidrs != [] {
      LuckyStep(cidrs, luck, k);
      AddAllKeys(Add(t, ParseCidr(cidrs[0]).value, h, luck(k)), cidrs[1..], h, luck, k + 1);
    }
  }

  predicate GotToRoutes(r: UpResult) {
    !r.Refused? && !r.SpawnFailed? && !r.NoTun?
  }

  /** What a call that ended with r took of the server's prefix and the bypass prefixes. */
  function Taken(t: Table, p: Params, luck: nat -> bool, r: UpResult): set<Net>
    requires Checked(p)
  {
    (if GotToRoutes(r) && luck(0) then {Server(p.remote)} else {})
    + (if r.Up? || r.StateFailed? then Lucky(Kept(p.bypass), luck, 4) - {LOW, HIGH} else {})
    - DropTun(t).Keys
  }

  /** The routes outside the tunnel: the old ones, and the new ones. */
  predicate Outside(t: Table, t': Table, h: Hop, added: set<Net>) {
    && DropTun(t').Keys == DropTun(t).Keys + added
    && (forall n :: n in DropTun(t) ==> n in t' && t'[n] == t[n])
  }

  lemma ServerTaken(t: Table, p: Params, luck: nat -> bool)
    requires Wf(t) && Checked(p)
    ensures var t1 := ServerRouted(t, p, luck);
      && t1.Keys == DropTun(t).Keys + (if luck(0) then {Server(p.remote)} else {})
      && Extends(DropTun(t), t1, ViaOf(p), {Server(p.remote)})
  {
    assert Pow2(0) == 1;
    ExtendsAdd(DropTun(t), Server(p.remote), ViaOf(p), luck(0));
  }

  /** The tunnel's own routes do not count. */
  lemma LowDropped(t1: Table)
    ensures LOW !in t1 ==> DropTun(t1[LOW := Dev(TUN)]) == DropTun(t1)
  {
  }

  lemma ServerRoutedOutside(t: Table, p: Params, luck: nat -> bool)
    requires Wf(t) && Checked(p)
    ensures DropTun(ServerRouted(t, p, luck)) == ServerRouted(t, p, luck)
  {
    ServerTaken(t, p, luck);
  }

  lemma BypassOutside(t0: Table, t1: Table, t': Table, h: Hop, bypass: set<Net>)
    requires h.Via? && Wf(t1) && Extends(t0, t1, h, t1.Keys) && DropTun(t1) == t1 && LOW !in t1 && HIGH !in t1
    requires var t3 := t1[LOW := Dev(TUN)][HIGH := Dev(TUN)];
      Extends(t3, t', h, bypass) && t'.Keys == t3.Keys + bypass
    ensures DropTun(t').Keys == t1.Keys + (bypass - {LOW, HIGH})
    ensures forall n :: n in t0 ==> n in t' && t'[n] == t0[n]
  {
    var t3 := t1[LOW := Dev(TUN)][HIGH := Dev(TUN)];
    assert t'[LOW] == t3[LOW] && t'[HIGH] == t3[HIGH];
    forall n | n in t' ensures n in DropTun(t') <==> n in t1 || (n in bypass && n != LOW && n != HIGH) {
      if n in t3 {
        assert t'[n] == t3[n];
      }
    }
  }

  lemma RoutedParts(t: Table, p: Params, luck: nat -> bool)
    requires Checked(p) && RouteSpec(t, p, luck).0.Up?
    ensures var t1 := ServerRouted(t, p, luck);
      && LOW !in t1 && HIGH !in t1
      && RouteSpec(t, p, luck).1 == AddAll(t1[LOW := Dev(TUN)][HIGH := Dev(TUN)], Kept(p.bypass), ViaOf(p), luck, 4)
  {
  }

  /** The bypass routes behind the halves. */
  lemma BypassRouted(t0: Table, t1: Table, cidrs: seq<string>, h: Hop, luck: nat -> bool)
    requires h.Via? && Wf(t1) && Extends(t0, t1, h, t1.Keys) && DropTun(t1) == t1 && LOW !in t1 && HIGH !in t1
    requires forall i :: 0 <= i < |cidrs| ==> ParseCidr(cidrs[i]).Some?
    ensures var t' := AddAll(t1[LOW := Dev(TUN)][HIGH := Dev(TUN)], cidrs, h, luck, 4);
      && DropTun(t').Keys == t1.Keys + (Lucky(cidrs, luck, 4) - {LOW, HIGH})
      && forall n :: n in t0 ==> n in t' && t'[n] == t0[n]
  {
    var t3 := t1[LOW := Dev(TUN)][HIGH := Dev(TUN)];
    HalvesKeepWf(t1);
    AddAllExtends(t3, cidrs, h, luck, 4);
    AddAllKeys(t3, cidrs, h, luck, 4);
    ExtendsKeys(t3, AddAll(t3, cidrs, h, luck, 4), h, Nets(cidrs), Lucky(cidrs, luck, 4));
    BypassOutside(t0, t1, AddAll(t3, cidrs, h, luck, 4), h, Lucky(cidrs, luck, 4));
  }

  /** All routes are in. */
  lemma RoutedOutside(t: Table, p: Params, luck: nat -> bool)
    requires Wf(t) && Checked(p) && RouteSpec(t, p, luck).0.Up?
    ensures Outside(t, RouteSpec(t, p, luck).1, ViaOf(p), Taken(t, p, luck, Up))
  {
    ServerTaken(t, p, luck);
    ServerRoutedOutside(t, p, luck);
    RoutedParts(t, p, luck);
    BypassRouted(DropTun(t), ServerRouted(t, p, luck), Kept(p.bypass), ViaOf(p), luck);
  }

  /** Only the server's route is in. */
  lemma PartlyOutside(t: Table, p: Params, luck: nat -> bool)
    requires Wf(t) && Checked(p) && !RouteSpec(t, p, luck).0.Up?
    ensures var (r, t') := RouteSpec(t, p, luck);
      Outside(t, t', ViaOf(p), Taken(t, p, luck, r)) && GotToRoutes(r) && !r.StateFailed?
  {
    ServerTaken(t, p, luck);
    ServerRoutedOutside(t, p, luck);
    PartlyParts(t, p, luck, ServerRouted(t, p, luck));
    LowDropped(ServerRouted(t, p, luck));
  }

  lemma PartlyParts(t: Table, p: Params, luck: nat -> bool, t1: Table)
    requires Checked(p) && !RouteSpec(t, p, luck).0.Up? && t1 == ServerRouted(t, p, luck)
    ensures var (r, t') := RouteSpec(t, p, luck);
      && (r.LinkFailed? || r.LowFailed? || r.HighFailed?)
      && (t' == t1 || (LOW !in t1 && t' == t1[LOW := Dev(TUN)]))
  {
  }

  lemma ExtendsKeys(t: Table, t': Table, h: Hop, nets: set<Net>, exact: set<Net>)
    requires Extends(t, t', h, nets) && t'.Keys == t.Keys + exact
    ensures Extends(t, t', h, exact)
  {
  }

  lemma UpRoutes(t: Table, p: Params, w: World)
    requires Checked(p)
    ensures var (r, t') := UpSpec(t, p, w);
      if GotToRoutes(r) then
        t' == RouteSpec(t, p, w.luck).1
        && (r == RouteSpec(t, p, w.luck).0 || (r.StateFailed? && RouteSpec(t, p, w.luck).0.Up?))
      else t' == t || t' == DropTun(t)
  {
    ReachesRoutes(t, p, w);
  }

  /** However a call ends, it has added exactly what Taken says outside the tunnel. */
  lemma UpOutside(t: Table, p: Params, w: World)
    requires Wf(t) && Checked(p)
    ensures var (r, t') := UpSpec(t, p, w); Outside(t, t', ViaOf(p), Taken(t, p, w.luck, r))
  {
    DropTwice(t);
    UpRoutes(t, p, w);
    if RouteSpec(t, p, w.luck).0.Up? {
      RoutedOutside(t, p, w.luck);
    } else {
      PartlyOutside(t, p, w.luck);
    }
  }

  lemma BackIff(t: Table, t': Table, h: Hop, added: set<Net>, named: set<Net>)
    requires Outside(t, t', h, added) && added !! DropTun(t).Keys
    ensures DropTun(t') - named == DropTun(t) <==> added <= named && named !! DropTun(t).Keys
  {
    var left := DropTun(t') - named;
    if left == DropTun(t) {
      forall n | n in added ensures n in named {
        assert n in named || n in left;
      }
      forall n | n in named ensures n !in DropTun(t) {
        assert n !in left;
      }
    }
    if added <= named && named !! DropTun(t).Keys {
      assert left.Keys == DropTun(t).Keys;
    }
  }

  /**
   TunDown after any TunUp, whatever the state file said before. The table is that from before,
   without a tunnel, if and only if the state file now names every prefix that was newly taken,
   and no prefix that was there before.
   */
  lemma DownAfterUpIff(t: Table, p: Params, w: World, line: Option<string>)
    requires Wf(t) && Checked(p)
    ensures var (r, t') := UpSpec(t, p, w);
      var after := LineAfter(line, r, p, w);
      DownSpec(t', after) == DropTun(t)
      <==> (forall n :: n in Taken(t, p, w.luck, r) ==> n in Named(after))
           && (forall n :: n in Named(after) ==> n !in DropTun(t))
  {
    var (r, t') := UpSpec(t, p, w);
    var after := LineAfter(line, r, p, w);
    UpOutside(t, p, w);
    DownDeletes(t', after);
    BackIff(t, t', ViaOf(p), Taken(t, p, w.luck, r), Named(after));
  }

  /** Which outcome a call has: it is up exactly when nothing was refused and no step said no. */
  lemma UpOutcome(t: Table, p: Params, w: World)
    requires Wf(t)
    ensures UpSpec(t, p, w).0
         == if !(p.socksOk && IsQuad(p.remote) && IsQuad(p.gateway) && p.ifaceOk && |p.bypass| <= 64 && w.ready) then Refused
            else if !w.spawns then SpawnFailed
            else if w.appears > 50 then NoTun
            else if !w.luck(1) then LinkFailed
            else if !w.luck(2) || Net(0, 1) in DropTun(t) then LowFailed
            else if !w.luck(3) || Net(0x8000_0000, 1) in DropTun(t) then HighFailed
            else if w.write.WriteDone? then Up else StateFailed
  {
    if Checked(p) {
      ServerTaken(t, p, w.luck);
    }
  }

  /** A call that is refused changes nothing. */
  lemma RefusedChangesNothing(t: Table, p: Params, w: World, line: Option<string>)
    requires UpSpec(t, p, w).0.Refused?
    ensures UpSpec(t, p, w).1 == t && LineAfter(line, UpSpec(t, p, w).0, p, w) == line
  {
  }

  /** The line of a call names all of its detours. */
  lemma NamedByUp(p: Params, pid: nat)
    requires Checked(p) && pid > 0
    ensures Named(Some(StateLine(pid, p.remote, Kept(p.bypass)))) == Detours(p)
  {
    SavedByUp(p, pid);
  }

  lemma {:induction false} LuckyNamed(cidrs: seq<string>, luck: nat -> bool, k: nat)
    ensures Lucky(cidrs, luck, k) <= Nets(cidrs)
  {
  }

  /**
   Once the line is written, TunDown puts the table back exactly when none of the detours was there
   before: one that was is not added again, but it is deleted.
   */
  lemma DownUndoesUpIff(t: Table, p: Params, w: World, line: Option<string>)
    requires Wf(t) && Checked(p) && w.pid > 0
    requires var r := UpSpec(t, p, w).0; r.Up? || (r.StateFailed? && w.write.ChmodFails?)
    ensures var (r, t') := UpSpec(t, p, w);
      var back := DownSpec(t', LineAfter(line, r, p, w));
      && back == DropTun(t) - Detours(p)
      && (back == DropTun(t) <==> (forall n :: n in Detours(p) ==> n !in DropTun(t)))
  {
    var (r, t') := UpSpec(t, p, w);
    UpOutside(t, p, w);
    NamedByUp(p, w.pid);
    LuckyNamed(Kept(p.bypass), w.luck, 4);
    DownDeletes(t', LineAfter(line, r, p, w));
    DeletesLeave(t, t', ViaOf(p), Taken(t, p, w.luck, r), Detours(p));
    UnchangedIff(DropTun(t), Detours(p));
  }

  lemma DeletesLeave(t: Table, t': Table, h: Hop, added: set<Net>, detours: set<Net>)
    requires Outside(t, t', h, added) && added <= detours
    ensures DropTun(t') - detours == DropTun(t) - detours
  {
    var a, b := DropTun(t') - detours, DropTun(t) - detours;
    assert a.Keys == b.Keys;
  }

  lemma UnchangedIff(t: Table, gone: set<Net>)
    ensures t - gone == t <==> (forall n :: n in gone ==> n !in t)
  {
    if n :| n in gone && n in t {
      assert n !in t - gone;
    }
  }

  /**
   A TunUp that fails leaves the state file as it was, unless only the chmod failed; so what TunDown
   then deletes is what an earlier call wrote. The table is that from before, without a tunnel, if
   and only if the old line names every prefix that the failed call took (the server's, once the
   link was there; the bypass prefixes too, when the state file was all that failed) and none that
   was there already.
   */
  lemma FailedUpLeaksIff(t: Table, p: Params, w: World, line: Option<string>)
    requires Wf(t) && Checked(p) && w.ready && !UpSpec(t, p, w).0.Up?
    requires !(UpSpec(t, p, w).0.StateFailed? && w.write.ChmodFails?)
    ensures var (r, t') := UpSpec(t, p, w);
      var serverTaken := w.spawns && w.appears <= TUN_POLL_TRIES && w.luck(0) && Server(p.remote) !in DropTun(t);
      && LineAfter(line, r, p, w) == line
      && (DownSpec(t', line) == DropTun(t)
          <==> (serverTaken ==> Server(p.remote) in Named(line))
               && (r.StateFailed? ==>
                   forall n :: n in Lucky(Kept(p.bypass), w.luck, 4) && n !in DropTun(t) && n != LOW && n != HIGH
                          ==> n in Named(line))
               && (forall n :: n in Named(line) ==> n !in DropTun(t)))
  {
    DownAfterUpIff(t, p, w, line);
    TakenMeans(t, p, w, Named(line));
  }

  lemma TakenMeans(t: Table, p: Params, w: World, named: set<Net>)
    requires Checked(p) && w.ready && !UpSpec(t, p, w).0.Up?
    ensures var r := UpSpec(t, p, w).0;
      (forall n :: n in Taken(t, p, w.luck, r) ==> n in named)
      <==> (w.spawns && w.appears <= TUN_POLL_TRIES && w.luck(0) && Server(p.remote) !in DropTun(t) ==> Server(p.remote) in named)
           && (r.StateFailed? ==>
               forall n :: n in Lucky(Kept(p.bypass), w.luck, 4) && n !in DropTun(t) && n != LOW && n != HIGH
                      ==> n in named)
  {
    var r := UpSpec(t, p, w).0;
    ReachesRoutes(t, p, w);
    if forall n :: n in Taken(t, p, w.luck, r) ==> n in named {
      assert GotToRoutes(r) && w.luck(0) && Server(p.remote) !in DropTun(t) ==> Server(p.remote) in Taken(t, p, w.luck, r);
    }
  }

  lemma ReachesRoutes(t: Table, p: Params, w: World)
    requires Checked(p)
    ensures GotToRoutes(UpSpec(t, p, w).0) <==> w.ready && w.spawns && w.appears <= TUN_POLL_TRIES
  {
  }

  /** After a first up that worked and a second that failed, down deletes a route that was there all along. */
  lemma StaleLineDeletes(t: Table, p: Params, w: World, line: Option<string>, n: Net)
    requires Wf(t) && Checked(p) && w.ready && UpSpec(t, p, w).0.LinkFailed?
    requires n in Named(line) && n in DropTun(t)
    ensures LineAfter(line, LinkFailed, p, w) == line && n !in DownSpec(UpSpec(t, p, w).1, line)
  {
    DownDeletes(UpSpec(t, p, w).1, line);
  }

  /** A server route of the host's own does not survive an up and a down. */
  lemma OwnServerRouteGoes(t: Table, p: Params, w: World, line: Option<string>)
    requires Wf(t) && Checked(p) && w.pid > 0 && UpSpec(t, p, w).0.Up? && Server(p.remote) in DropTun(t)
    ensures var (r, t') := UpSpec(t, p, w);
      Server(p.remote) in t' && Server(p.remote) !in DownSpec(t', LineAfter(line, r, p, w))
  {
    UpOutside(t, p, w);
    DownUndoesUpIff(t, p, w, line);
  }

  /** With no earlier line, nothing may have been taken. */
  lemma FailedFirstUpLeaksIff(t: Table, p: Params, w: World)
    requires Wf(t) && Checked(p) && w.ready && !UpSpec(t, p, w).0.Up?
    requires !(UpSpec(t, p, w).0.StateFailed? && w.write.ChmodFails?)
    ensures var (r, t') := UpSpec(t, p, w);
      DownSpec(t', None) == DropTun(t) <==> Taken(t, p, w.luck, r) == {}
  {
    DownAfterUpIff(t, p, w, None);
    assert Split("", '.') == [""];
    assert Named(None) == {};
  }
}
