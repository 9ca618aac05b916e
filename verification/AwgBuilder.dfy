/**
 The client's AmneziaWG config builder (src/main/protocols/amneziawg-config.ts), and what becomes
 of its output behind it: the root-side guard, the translator and the device.
 */
module AwgBuilder {
  import opened Common
  import opened Text
  import opened AwgIni
  import opened AwgUapi

  // ---- the node's answer -----------------------------------------------------------

  /** A number is None when it is not an integer; an absent string is "". */
  datatype Entry = Entry(publicKey: string, port: Option<int>, s: seq<Option<int>>, h: seq<Option<int>>, i: seq<string>,
                         awgVersion: Option<int>, headerProtectionKey: string, randomTrailers: bool, mtu: Option<int>)

  /** What the client draws for itself. */
  datatype Junk = Junk(jc: nat, jmin: nat, jmax: nat)

  predicate Drawn(j: Junk) {
    3 <= j.jc <= 10 && 64 <= j.jmin <= 256 && 512 <= j.jmax <= 1024
  }

  /** Base64 characters for 32 bytes, however padded: the decoder of the runtime does not ask. */
  predicate NodeKey(v: string) {
    (|v| == 43 && Padded(v, 0)) || (|v| == 44 && Padded(v, 1)) || (|v| == 45 && Padded(v, 2))
  }

  predicate InRange(n: Option<int>, max: int) {
    n.Some? && 0 <= n.value <= max
  }

  predicate AllDistinct(h: seq<Option<int>>) {
    forall i, j :: 0 <= i < j < |h| ==> h[i] != h[j]
  }

  const AWG_VERSION_3 := 3
  const AWG3_MIN_PADDING := 12

  predicate Tier3(e: Entry) {
    e.awgVersion == Some(AWG_VERSION_3)
  }

  /** The checks of the builder, on the shapes that the handshake answer has. */
  predicate Sound(e: Entry) {
    && NodeKey(e.publicKey)
    && e.port.Some? && 0 < e.port.value <= 65535
    && |e.s| == 4 && |e.h| == 4 && |e.i| == 5
    && (forall k :: 0 <= k < 4 ==> InRange(e.s[k], 65535))
    && e.s[0].value + 56 != e.s[1].value
    && (forall k :: 0 <= k < 4 ==> InRange(e.h[k], 4294967295))
    && ((forall k :: 0 <= k < 4 ==> e.h[k].value == 0) || (AllDistinct(e.h) && forall k :: 0 <= k < 4 ==> e.h[k].value > 4))
    && (forall k :: 0 <= k < 5 ==> SignatureOk(e.i[k]))
    && (e.awgVersion.None? || e.awgVersion.value == 2 || Tier3(e))
    && (Tier3(e) ==> NodeKey(e.headerProtectionKey) && e.mtu.Some? && 1000 <= e.mtu.value <= 1420
                     && forall k :: 0 <= k < 4 ==> e.s[k].value >= AWG3_MIN_PADDING)
  }

  // ---- the file --------------------------------------------------------------------

  function IniName(k: Key): string {
    match k
    case PrivateKey => "PrivateKey"
    case Address => "Address"
    case Dns => "DNS"
    case Mtu => "MTU"
    case Jc => "Jc"
    case Jmin => "Jmin"
    case Jmax => "Jmax"
    case S(n) => ['S', DigitChar(n)]
    case H(n) => ['H', DigitChar(n)]
    case I(n) => ['I', DigitChar(n)]
    case HeaderProtectionKey => "HeaderProtectionKey"
    case RandomTrailers => "RandomTrailers"
    case ContentPaddingAddition => "ContentPaddingAddition"
    case PublicKey => "PublicKey"
    case AllowedIps => "AllowedIPs"
    case Endpoint => "Endpoint"
    case PersistentKeepalive => "PersistentKeepalive"
    case _ => ""
  }

  datatype Pair = Pair(key: Key, value: string)

  function BuiltLine(name: string, value: string): string {
    (name + " ") + ['='] + (" " + value)
  }

  function PairLine(p: Pair): string {
    BuiltLine(IniName(p.key), p.value)
  }

  function PairLines(pairs: seq<Pair>): (r: seq<string>)
    ensures |r| == |pairs| && forall i :: 0 <= i < |pairs| ==> r[i] == PairLine(pairs[i])
  {
    seq(|pairs|, i requires 0 <= i < |pairs| => PairLine(pairs[i]))
  }

  const DNS_SERVERS := ["10.8.0.1", "1.0.0.1", "1.1.1.1"]
  const ALL_ROUTES := ["0.0.0.0/0", "::/0"]

  function BasePairs(ownAddrs: seq<string>, privateKey: string, j: Junk): seq<Pair> {
    [Pair(Address, Join(ownAddrs, ',')), Pair(PrivateKey, privateKey), Pair(Dns, Join(DNS_SERVERS, ',')),
     Pair(Jc, Dec(j.jc)), Pair(Jmin, Dec(j.jmin)), Pair(Jmax, Dec(j.jmax))]
  }

  function ShapePairs(e: Entry): seq<Pair>
    requires Sound(e)
  {
    [Pair(S(1), Dec(e.s[0].value)), Pair(S(2), Dec(e.s[1].value)), Pair(S(3), Dec(e.s[2].value)), Pair(S(4), Dec(e.s[3].value)),
     Pair(H(1), Dec(e.h[0].value)), Pair(H(2), Dec(e.h[1].value)), Pair(H(3), Dec(e.h[2].value)), Pair(H(4), Dec(e.h[3].value))]
  }

  /** The signature packets from the n-th on. */
  function SignaturePairs(i: seq<string>, n: nat): seq<Pair>
    decreases |i|
  {
    if i == [] then [] else (if i[0] == "" then [] else [Pair(I(n), i[0])]) + SignaturePairs(i[1..], n + 1)
  }

  function TierPairs(e: Entry): seq<Pair>
    requires Sound(e)
  {
    if Tier3(e) then
      [Pair(Mtu, Dec(e.mtu.value)), Pair(HeaderProtectionKey, e.headerProtectionKey),
       Pair(RandomTrailers, if e.randomTrailers then "on" else "off"), Pair(ContentPaddingAddition, "0-32")]
    else []
  }

  function InterfacePairs(e: Entry, ownAddrs: seq<string>, privateKey: string, j: Junk): seq<Pair>
    requires Sound(e)
  {
    BasePairs(ownAddrs, privateKey, j) + ShapePairs(e) + SignaturePairs(e.i, 1) + TierPairs(e)
  }

  function PeerPairs(e: Entry, host: string): seq<Pair>
    requires Sound(e)
  {
    [Pair(PublicKey, e.publicKey), Pair(AllowedIps, Join(ALL_ROUTES, ',')),
     Pair(Endpoint, host + [':'] + Dec(e.port.value)), Pair(PersistentKeepalive, "15")]
  }

  function FileLines(e: Entry, host: string, ownAddrs: seq<string>, privateKey: string, j: Junk): seq<string>
    requires Sound(e)
  {
    ["[Interface]"] + PairLines(InterfacePairs(e, ownAddrs, privateKey, j)) + ["", "[Peer]"]
    + PairLines(PeerPairs(e, host)) + [""]
  }

  /** The first address that is not empty. */
  function FirstHost(addrs: seq<string>): string
    decreases |addrs|
  {
    if addrs == [] then "" else if addrs[0] != "" then addrs[0] else FirstHost(addrs[1..])
  }

  predicate Assignable(ownAddrs: seq<string>) {
    ownAddrs != [] && forall i :: 0 <= i < |ownAddrs| ==> CidrShape(ownAddrs[i])
  }

  /** buildAmneziaWgConfig: None where it throws, and the caller refunds. */
  method BuildAmneziaWgConfig(metadata: seq<Entry>, nodeAddrs: seq<string>, ownAddrs: seq<string>, privateKey: string, j: Junk)
    returns (text: Option<string>)
    requires Drawn(j)
    ensures text.Some? <==> metadata != [] && Sound(metadata[0]) && FirstHost(nodeAddrs) != "" && Assignable(ownAddrs)
    ensures text.Some? ==> text.value == Join(FileLines(metadata[0], FirstHost(nodeAddrs), ownAddrs, privateKey, j), '\n')
  {
    if metadata == [] || !Sound(metadata[0]) || ownAddrs == [] {
      return None;
    }
    var e := metadata[0];
    var a := 0;
    while a < |nodeAddrs| && nodeAddrs[a] == ""
      invariant a <= |nodeAddrs| && FirstHost(nodeAddrs) == FirstHost(nodeAddrs[a..])
    {
      a := a + 1;
    }
    if a == |nodeAddrs| {
      return None;
    }
    for i := 0 to |ownAddrs|
      invariant forall k :: 0 <= k < i ==> CidrShape(ownAddrs[k])
    {
      if !CidrShape(ownAddrs[i]) {
        return None;
      }
    }
    var pairs := BasePairs(ownAddrs, privateKey, j) + ShapePairs(e);
    ghost var head := pairs;
    for i := 0 to 5
      invariant head + SignaturePairs(e.i, 1) == pairs + SignaturePairs(e.i[i..], i + 1)
    {
      var one := if e.i[i] == "" then [] else [Pair(I(i + 1), e.i[i])];
      assert e.i[i..][0] == e.i[i] && e.i[i..][1..] == e.i[i + 1..];
      Associate(pairs, one, SignaturePairs(e.i[i + 1..], i + 2));
      pairs := pairs + one;
    }
    pairs := pairs + TierPairs(e);
    assert pairs == InterfacePairs(e, ownAddrs, privateKey, j);
    var lines := ["[Interface]"] + PairLines(pairs) + ["", "[Peer]"] + PairLines(PeerPairs(e, nodeAddrs[a])) + [""];
    text := Some(Join(lines, '\n'));
  }

  // ---- reading one built line ------------------------------------------------------

  predicate BuilderKey(k: Key) {
    && !k.Table? && !k.ListenPort? && !k.PresharedKey?
    && (k.S? || k.H? ==> 1 <= k.n <= 4) && (k.I? ==> 1 <= k.n <= 5)
  }

  lemma ShortNames(k: Key)
    requires BuilderKey(k) && (k.S? || k.H? || k.I? || k.Jc? || k.Mtu? || k.Dns?)
    ensures KeyOf(Lower(IniName(k))) == Some(k)
  {
    assert Lower("Jc") == "jc" && Lower("MTU") == "mtu" && Lower("DNS") == "dns";
  }

  lemma InterfaceNames(k: Key)
    requires k.PrivateKey? || k.Address? || k.Jmin? || k.Jmax?
    ensures KeyOf(Lower(IniName(k))) == Some(k)
  {
    assert Lower("PrivateKey") == "privatekey" && Lower("Address") == "address";
    assert Lower("Jmin") == "jmin" && Lower("Jmax") == "jmax";
  }

  lemma TierLower()
    ensures Lower("HeaderProtectionKey") == "headerprotectionkey"
    ensures Lower("RandomTrailers") == "randomtrailers"
  {
  }

  lemma PaddingLower()
    ensures Lower("ContentPaddingAddition") == "contentpaddingaddition"
  {
  }

  lemma PeerLower()
    ensures Lower("PublicKey") == "publickey" && Lower("AllowedIPs") == "allowedips"
    ensures Lower("Endpoint") == "endpoint"
  {
  }

  lemma KeepaliveLower()
    ensures Lower("PersistentKeepalive") == "persistentkeepalive"
  {
  }

  lemma TierNames(k: Key)
    requires k.HeaderProtectionKey? || k.RandomTrailers? || k.ContentPaddingAddition?
    ensures KeyOf(Lower(IniName(k))) == Some(k)
  {
    TierLower();
    PaddingLower();
  }

  lemma PeerNames(k: Key)
    requires k.PublicKey? || k.AllowedIps? || k.Endpoint? || k.PersistentKeepalive?
    ensures KeyOf(Lower(IniName(k))) == Some(k)
  {
    PeerLower();
    KeepaliveLower();
  }

  lemma NameRead(k: Key)
    requires BuilderKey(k)
    ensures KeyOf(Lower(IniName(k))) == Some(k)
  {
    if k.HeaderProtectionKey? || k.RandomTrailers? || k.ContentPaddingAddition? {
      TierNames(k);
    } else if k.PublicKey? || k.AllowedIps? || k.Endpoint? || k.PersistentKeepalive? {
      PeerNames(k);
    } else if k.PrivateKey? || k.Address? || k.Jmin? || k.Jmax? {
      InterfaceNames(k);
    } else {
      ShortNames(k);
    }
  }

  /** Letters and digits, of any alphabet that folds to ours. */
  predicate Worded(s: string) {
    s != "" && NoSpace(s) && forall i :: 0 <= i < |s| ==> s[i] !in "=#[;\n"
  }

  lemma KnownIsWorded(s: string)
    requires KeyOf(Lower(s)).Some?
    ensures Worded(s)
  {
    KeyPlain(Lower(s));
    forall i | 0 <= i < |s| ensures !IsSpace(s[i]) && s[i] !in "=#[;\n" {
      assert Lower(s)[i] == LowerChar(s[i]);
    }
  }

  /** A value that a line carries unchanged. */
  predicate Neat(v: string) {
    v != "" && !IsSpace(v[0]) && !IsSpace(v[|v| - 1]) && '#' !in v && '\n' !in v
  }

  lemma TrimId(s: string)
    requires s != "" && !IsSpace(s[0]) && !IsSpace(s[|s| - 1])
    ensures Trim(s) == s
  {
  }

  lemma TrimBlanks(s: string)
    requires s != "" && !IsSpace(s[0]) && !IsSpace(s[|s| - 1])
    ensures Trim(s + " ") == s && Trim(" " + s) == s
  {
    assert TrimLeft(s + " ") == s + " ";
    assert (s + " ")[..|s|] == s;
    assert TrimRight(s + " ") == TrimRight(s);
    assert (" " + s)[1..] == s;
    assert TrimLeft(" " + s) == TrimLeft(s);
  }

  lemma CutAt(a: string, c: char, b: string)
    requires c !in a
    ensures var s := a + [c] + b; IndexOf(s, c) == |a| && s[..|a|] == a && s[|a| + 1..] == b
  {
    IndexOfFirst(a, b, c);
  }

  lemma AssignReads(name: string, v: string)
    requires Worded(name) && Neat(v)
    ensures ReadAssign((name + " ") + ['='] + (" " + v)) == Assign(KeyOf(Lower(name)), v)
  {
    assert '=' !in name;
    CutAt(name + " ", '=', " " + v);
    TrimBlanks(name);
    TrimBlanks(v);
  }

  /** A line is its own trim, and holds nothing that ends it or its value. */
  lemma LineClean(line: string, name: string, v: string)
    requires Worded(name) && Neat(v) && line == (name + " ") + ['='] + (" " + v)
    ensures line != "" && Trim(line) == line && NoHash(line) && '\n' !in line && line[0] == name[0]
  {
    assert line[|line| - 1] == v[|v| - 1];
    assert name[0] !in "=#[;\n";
    assert '#' !in name && '\n' !in name;
    TrimId(line);
  }

  lemma LineReads(name: string, v: string)
    requires Worded(name) && Neat(v)
    ensures '\n' !in BuiltLine(name, v)
    ensures Read(BuiltLine(name, v)) == GuardRead(BuiltLine(name, v)) == Assign(KeyOf(Lower(name)), v)
  {
    LineClean(BuiltLine(name, v), name, v);
    AssignReads(name, v);
    assert name[0] !in "=#[;\n";
    PlainRead(BuiltLine(name, v));
  }

  /** A trimmed line without special characters is read for its '='. */
  lemma PlainRead(line: string)
    requires line != "" && Trim(line) == line && NoHash(line)
    ensures line[0] != '[' && line[0] != ';' ==> Read(line) == GuardRead(line) == ReadAssign(line)
  {
    StripPlain(line);
  }

  predicate Written(p: Pair) {
    BuilderKey(p.key) && Neat(p.value)
  }

  function PairItem(p: Pair): Item {
    Assign(Some(p.key), p.value)
  }

  lemma WordedName(k: Key)
    requires BuilderKey(k)
    ensures Worded(IniName(k)) && KeyOf(Lower(IniName(k))) == Some(k)
  {
    NameRead(k);
    KnownIsWorded(IniName(k));
  }

  lemma PairReads(p: Pair)
    requires Written(p)
    ensures '\n' !in PairLine(p) && Read(PairLine(p)) == GuardRead(PairLine(p)) == PairItem(p)
  {
    WordedName(p.key);
    LineReads(IniName(p.key), p.value);
  }

  // ---- reading the built file ------------------------------------------------------

  predicate AllWritten(pairs: seq<Pair>) {
    forall i :: 0 <= i < |pairs| ==> Written(pairs[i])
  }

  function PairItems(pairs: seq<Pair>): (r: seq<Item>)
    ensures |r| == |pairs| && forall i :: 0 <= i < |pairs| ==> r[i] == PairItem(pairs[i])
  {
    seq(|pairs|, i requires 0 <= i < |pairs| => PairItem(pairs[i]))
  }

  /** What every reader makes of the file: two sections. */
  function FileItems(own: seq<Pair>, peer: seq<Pair>): seq<Item> {
    [Header(Some(Interface))] + PairItems(own) + [Blank, Header(Some(Peer))] + PairItems(peer) + [Blank]
  }

  lemma BracketsDiffer()
    ensures Bracket("interface") != Bracket("peer")
  {
    assert |Bracket("interface")| == 11 && |Bracket("peer")| == 6;
  }

  lemma HeaderReads(line: string, name: string, s: Section)
    requires Bracketed(line) && Lower(line) == Bracket(name)
    requires (name == "interface" && s == Interface) || (name == "peer" && s == Peer)
    ensures Read(line) == GuardRead(line) == Header(Some(s))
  {
    TrimId(line);
    ExactName(line, name);
    AcceptedHeader(line);
    StripPlain(line);
    BracketsDiffer();
  }

  lemma HeadersRead()
    ensures Read("[Interface]") == GuardRead("[Interface]") == Header(Some(Interface))
    ensures Read("[Peer]") == GuardRead("[Peer]") == Header(Some(Peer))
    ensures Read("") == GuardRead("") == Blank
  {
    assert Lower("[Interface]") == Bracket("interface") && Lower("[Peer]") == Bracket("peer");
    HeaderReads("[Interface]", "interface", Interface);
    HeaderReads("[Peer]", "peer", Peer);
  }

  lemma NewlineFree(own: seq<Pair>, peer: seq<Pair>, lines: seq<string>)
    requires AllWritten(own) && AllWritten(peer)
    requires lines == ["[Interface]"] + PairLines(own) + ["", "[Peer]"] + PairLines(peer) + [""]
    ensures forall i :: 0 <= i < |lines| ==> '\n' !in lines[i]
  {
    forall i | 0 <= i < |own| ensures '\n' !in PairLines(own)[i] {
      PairReads(own[i]);
    }
    forall i | 0 <= i < |peer| ensures '\n' !in PairLines(peer)[i] {
      PairReads(peer[i]);
    }
  }

  /** A reader, line by line. */
  function Each(f: string -> Item, lines: seq<string>): (r: seq<Item>)
    ensures |r| == |lines| && forall i :: 0 <= i < |r| ==> r[i] == f(lines[i])
  {
    seq(|lines|, i requires 0 <= i < |lines| => f(lines[i]))
  }

  ghost predicate Sees(f: string -> Item, pairs: seq<Pair>) {
    forall i :: 0 <= i < |pairs| ==> f(PairLine(pairs[i])) == PairItem(pairs[i])
  }

  lemma EachPair(f: string -> Item, pairs: seq<Pair>)
    requires Sees(f, pairs)
    ensures Each(f, PairLines(pairs)) == PairItems(pairs)
  {
  }

  lemma EachAppend(f: string -> Item, a: seq<string>, b: seq<string>)
    ensures Each(f, a + b) == Each(f, a) + Each(f, b)
  {
  }

  lemma EachOfFile(f: string -> Item, own: seq<Pair>, peer: seq<Pair>, head: string, next: string)
    requires Sees(f, own) && Sees(f, peer)
    requires f(head) == Header(Some(Interface)) && f(next) == Header(Some(Peer)) && f("") == Blank
    ensures Each(f, [head] + PairLines(own) + ["", next] + PairLines(peer) + [""]) == FileItems(own, peer)
  {
    var a, b, c := [head] + PairLines(own), ["", next], PairLines(peer);
    EachAppend(f, a + b + c, [""]);
    EachAppend(f, a + b, c);
    EachAppend(f, a, b);
    EachAppend(f, [head], PairLines(own));
    EachPair(f, own);
    EachPair(f, peer);
  }

  lemma BothSee(pairs: seq<Pair>)
    requires AllWritten(pairs)
    ensures Sees(Read, pairs) && Sees(GuardRead, pairs)
  {
    forall i | 0 <= i < |pairs|
      ensures Read(PairLine(pairs[i])) == GuardRead(PairLine(pairs[i])) == PairItem(pairs[i])
    {
      PairReads(pairs[i]);
    }
  }

  lemma EachIsItems(text: string)
    ensures Items(text) == Each(Read, Split(text, '\n')) && GuardItems(text) == Each(GuardRead, Split(text, '\n'))
  {
  }

  /** Every reader sees the two sections that were built. */
  lemma FileReads(own: seq<Pair>, peer: seq<Pair>, lines: seq<string>)
    requires AllWritten(own) && AllWritten(peer)
    requires lines == ["[Interface]"] + PairLines(own) + ["", "[Peer]"] + PairLines(peer) + [""]
    ensures Items(Join(lines, '\n')) == GuardItems(Join(lines, '\n')) == FileItems(own, peer)
  {
    NewlineFree(own, peer, lines);
    SplitJoin(lines, '\n');
    EachIsItems(Join(lines, '\n'));
    HeadersRead();
    BothSee(own);
    BothSee(peer);
    EachOfFile(Read, own, peer, "[Interface]", "[Peer]");
    EachOfFile(GuardRead, own, peer, "[Interface]", "[Peer]");
  }

  // ---- guard and device over the pairs ---------------------------------------------

  predicate Admitted(s: Section, p: Pair) {
    Allowed(s, p.key) && ValueOk(p.key, p.value)
  }

  predicate AllAdmitted(s: Section, pairs: seq<Pair>) {
    forall i :: 0 <= i < |pairs| ==> Admitted(s, pairs[i])
  }

  predicate Translated(s: Section, p: Pair) {
    p.value != "" && Known(s, p.key) && Convertible(p.key, p.value)
  }

  predicate AllTranslated(s: Section, pairs: seq<Pair>) {
    forall i :: 0 <= i < |pairs| ==> Translated(s, pairs[i])
  }

  lemma PairAccepted(s: Section, p: Pair)
    requires Admitted(s, p)
    ensures GuardItem(Some(s), PairItem(p)) == Some(Some(s))
  {
  }

  lemma AcceptsStep(item: Item, rest: seq<Item>, s: Section)
    requires GuardItem(Some(s), item) == Some(Some(s))
    ensures Accepts([item] + rest, Some(s)) <==> Accepts(rest, Some(s))
  {
    assert ([item] + rest)[0] == item && ([item] + rest)[1..] == rest;
  }

  lemma {:induction false} AcceptsPairs(s: Section, pairs: seq<Pair>, rest: seq<Item>)
    requires AllAdmitted(s, pairs)
    ensures Accepts(PairItems(pairs) + rest, Some(s)) <==> Accepts(rest, Some(s))
    decreases |pairs|
  {
    if pairs == [] {
      assert PairItems(pairs) + rest == rest;
    } else {
      assert Admitted(s, pairs[0]);
      PairAccepted(s, pairs[0]);
      assert PairItems(pairs) + rest == [PairItem(pairs[0])] + (PairItems(pairs[1..]) + rest);
      AcceptsStep(PairItem(pairs[0]), PairItems(pairs[1..]) + rest, s);
      AcceptsPairs(s, pairs[1..], rest);
    }
  }

  /** The settings that [Interface] pairs make. */
  function SettingsOf(pairs: seq<Pair>): seq<Line>
    requires AllTranslated(Interface, pairs)
    decreases |pairs|
  {
    if pairs == [] then []
    else
      assert Translated(Interface, pairs[0]);
      (if Skipped(pairs[0].key) then [] else [Line(Of(pairs[0].key), Translate(pairs[0].key, pairs[0].value))])
      + SettingsOf(pairs[1..])
  }

  lemma {:induction false} OwnPairsMean(b: Building, pairs: seq<Pair>, rest: seq<Item>)
    requires b.section == Some(Interface) && AllTranslated(Interface, pairs)
    requires forall i :: 0 <= i < |pairs| ==> !pairs[i].key.PublicKey?
    ensures MeantBy(b, PairItems(pairs) + rest)
         == MeantBy(b.(device := b.device.(settings := b.device.settings + SettingsOf(pairs))), rest)
    decreases |pairs|
  {
    var all := PairItems(pairs) + rest;
    if pairs == [] {
      assert all == rest && b.device.settings + [] == b.device.settings;
    } else {
      var p := pairs[0];
      assert Translated(Interface, p);
      assert all[0] == PairItem(p) && all[1..] == PairItems(pairs[1..]) + rest;
      OwnPairsMean(Meant(b, PairItem(p)), pairs[1..], rest);
      var one := if Skipped(p.key) then [] else [Line(Of(p.key), Translate(p.key, p.value))];
      Associate(b.device.settings, one, SettingsOf(pairs[1..]));
      assert b.device.settings + [] == b.device.settings;
    }
  }

  lemma MeantOne(b: Building, item: Item, rest: seq<Item>)
    ensures MeantBy(b, [item] + rest) == if Takes(b, item) then MeantBy(Meant(b, item), rest) else None
  {
    assert ([item] + rest)[1..] == rest;
  }

  // ---- every built value is good for everyone --------------------------------------

  /** Written as it is read, let through by the guard, and taken by the translator. */
  predicate Good(s: Section, p: Pair) {
    Written(p) && Admitted(s, p) && Translated(s, p)
  }

  predicate AllGood(s: Section, pairs: seq<Pair>) {
    forall i :: 0 <= i < |pairs| ==> Good(s, pairs[i])
  }

  lemma GoodAppend(s: Section, a: seq<Pair>, b: seq<Pair>)
    requires AllGood(s, a) && AllGood(s, b)
    ensures AllGood(s, a + b)
  {
  }

  lemma DigitsNeat(v: string)
    requires Digits(v)
    ensures Neat(v)
  {
  }

  lemma DecFits(n: nat, w: nat)
    requires 0 < w && n < Ten(w)
    ensures Uint(Dec(n), w) && Num(Dec(n)) == n && Neat(Dec(n))
  {
    DecShort(n, w);
    NumDec(n);
    DigitsNeat(Dec(n));
  }

  lemma GoodSmall(k: Key, n: nat)
    requires k.Jc? || k.Jmin? || k.Jmax? || (k.S? && 1 <= k.n <= 4)
    requires n <= 65535
    ensures Good(Interface, Pair(k, Dec(n)))
  {
    TenAt();
    DecFits(n, 5);
  }

  lemma GoodHeader(k: Key, n: nat)
    requires k.H? && 1 <= k.n <= 4 && n <= 4294967295
    ensures Good(Interface, Pair(k, Dec(n)))
  {
    TenAt();
    DecFits(n, 10);
  }

  lemma GoodMtu(n: nat)
    requires n <= 1420
    ensures Good(Interface, Pair(Mtu, Dec(n)))
  {
    TenAt();
    DecFits(n, 7);
  }

  lemma KeyNeat(v: string)
    requires Key32(v)
    ensures Neat(v) && KeyShape(v)
  {
    assert Padded(v, 1);
    forall i | 0 <= i < |v| ensures v[i] != '#' && v[i] != '\n' && !IsSpace(v[i]) {
      assert i < 43 ==> Base64Char(v[i]);
    }
  }

  lemma GoodKey(s: Section, k: Key, v: string)
    requires Key32(v)
    requires (s == Interface && (k.PrivateKey? || k.HeaderProtectionKey?)) || (s == Peer && k.PublicKey?)
    ensures Good(s, Pair(k, v))
  {
    KeyNeat(v);
  }

  lemma TagsNeat(v: string)
    requires TagChars(v) && v != "" && v[0] == '<' && v[|v| - 1] == '>'
    ensures Neat(v)
  {
  }

  lemma SignatureValueOk(n: nat, v: string)
    requires Tags(v) && |v| <= I_MAX_LENGTH
    ensures ValueOk(I(n), v)
  {
  }

  lemma GoodSignatureValue(n: nat, v: string)
    requires 1 <= n <= 5 && ValueOk(I(n), v) && Neat(v)
    ensures Good(Interface, Pair(I(n), v))
  {
  }

  lemma GoodSignature(n: nat, v: string)
    requires 1 <= n <= 5 && Tags(v) && |v| <= I_MAX_LENGTH
    ensures Good(Interface, Pair(I(n), v))
  {
    TagsChars(v);
    TagsNeat(v);
    SignatureValueOk(n, v);
    GoodSignatureValue(n, v);
  }

  predicate SignatureOk(v: string) {
    v == "" || (|v| <= I_MAX_LENGTH && Tags(v))
  }

  lemma {:induction false} GoodSignatures(i: seq<string>, n: nat)
    requires n >= 1 && n + |i| <= 6
    requires forall k :: 0 <= k < |i| ==> SignatureOk(i[k])
    ensures AllGood(Interface, SignaturePairs(i, n))
    decreases |i|
  {
    if i != [] {
      GoodSignatures(i[1..], n + 1);
      if i[0] != "" {
        GoodSignature(n, i[0]);
        GoodAppend(Interface, [Pair(I(n), i[0])], SignaturePairs(i[1..], n + 1));
      }
    }
  }

  /** Host characters, brackets and a slash. */
  predicate CidrChar(c: char) {
    HostChar(c) || c == '[' || c == ']' || c == '/'
  }

  predicate AllCidrChars(v: string) {
    forall i :: 0 <= i < |v| ==> CidrChar(v[i])
  }

  lemma HostChars(h: string)
    requires HostShape(h)
    ensures h != "" && AllCidrChars(h)
  {
  }

  lemma SplicedChars(v: string, k: nat)
    requires k < |v| && AllCidrChars(v[..k]) && CidrChar(v[k]) && AllCidrChars(v[k + 1..])
    ensures AllCidrChars(v)
  {
    assert v == v[..k] + [v[k]] + v[k + 1..];
  }

  lemma CidrChars(v: string)
    requires CidrShape(v)
    ensures v != "" && AllCidrChars(v)
  {
    if HostShape(v) {
      HostChars(v);
    } else {
      var k :| 0 <= k < |v| && v[k] == '/' && HostShape(v[..k]) && Uint(v[k + 1..], 3);
      HostChars(v[..k]);
      SplicedChars(v, k);
    }
  }

  lemma CidrPlainText(v: string)
    requires CidrShape(v)
    ensures v != "" && NoSpace(v) && ',' !in v && '#' !in v && '\n' !in v
  {
    CidrChars(v);
  }

  predicate AllCidrs(items: seq<string>) {
    forall i :: 0 <= i < |items| ==> CidrShape(items[i])
  }

  lemma {:induction false} JoinPlainText(items: seq<string>)
    requires items != [] && AllCidrs(items)
    ensures var v := Join(items, ','); v != "" && NoSpace(v) && '#' !in v && '\n' !in v
    decreases |items|
  {
    CidrPlainText(items[0]);
    if |items| > 1 {
      JoinPlainText(items[1..]);
    }
  }

  lemma SplitCidrs(items: seq<string>)
    requires items != [] && AllCidrs(items)
    ensures Split(Join(items, ','), ',') == items
    ensures "" !in items && forall i :: 0 <= i < |items| ==> NoSpace(items[i])
  {
    forall i | 0 <= i < |items| ensures ',' !in items[i] && NoSpace(items[i]) && items[i] != "" {
      CidrPlainText(items[i]);
    }
    SplitJoin(items, ',');
  }

  lemma PiecesWhole(v: string, items: seq<string>)
    requires Split(v, ',') == items && forall i :: 0 <= i < |items| ==> NoSpace(items[i])
    ensures Pieces(v) == items
  {
    assert forall i :: 0 <= i < |items| ==> Trim(items[i]) == items[i];
  }

  lemma ListOf(v: string, items: seq<string>)
    requires Split(v, ',') == items && AllCidrs(items) && forall i :: 0 <= i < |items| ==> NoSpace(items[i])
    ensures ListShape(v)
  {
    assert forall i :: 0 <= i < |items| ==> Trim(items[i]) == items[i] && CidrShape(items[i]);
  }

  lemma NeatText(v: string)
    requires v != "" && NoSpace(v) && '#' !in v && '\n' !in v
    ensures Neat(v)
  {
  }

  lemma GoodListValue(s: Section, k: Key, v: string)
    requires Neat(v) && ListShape(v) && "" !in Pieces(v)
    requires (s == Interface && (k.Address? || k.Dns?)) || (s == Peer && k.AllowedIps?)
    ensures Good(s, Pair(k, v))
  {
  }

  lemma GoodList(s: Section, k: Key, items: seq<string>)
    requires items != [] && AllCidrs(items)
    requires (s == Interface && (k.Address? || k.Dns?)) || (s == Peer && k.AllowedIps?)
    ensures Good(s, Pair(k, Join(items, ',')))
  {
    var v := Join(items, ',');
    JoinPlainText(items);
    NeatText(v);
    SplitCidrs(items);
    PiecesWhole(v, items);
    ListOf(v, items);
    GoodListValue(s, k, v);
  }

  lemma FixedLists()
    ensures AllCidrs(DNS_SERVERS) && AllCidrs(ALL_ROUTES)
  {
    assert HostShape("10.8.0.1") && HostShape("1.0.0.1") && HostShape("1.1.1.1");
    var v4, v6 := "0.0.0.0/0", "::/0";
    assert v4[7] == '/' && v4[..7] == "0.0.0.0" && v4[8..] == "0" && HostShape(v4[..7]);
    assert v6[2] == '/' && v6[..2] == "::" && v6[3..] == "0" && HostShape(v6[..2]);
  }

  lemma GoodTwo(s: Section, a: Pair, b: Pair)
    requires Good(s, a) && Good(s, b)
    ensures AllGood(s, [a, b])
  {
  }

  lemma GoodBase(ownAddrs: seq<string>, privateKey: string, j: Junk)
    requires Assignable(ownAddrs) && Key32(privateKey) && Drawn(j)
    ensures AllGood(Interface, BasePairs(ownAddrs, privateKey, j))
  {
    var p := BasePairs(ownAddrs, privateKey, j);
    FixedLists();
    GoodList(Interface, Address, ownAddrs);
    GoodKey(Interface, PrivateKey, privateKey);
    GoodTwo(Interface, p[0], p[1]);
    GoodList(Interface, Dns, DNS_SERVERS);
    GoodSmall(Jc, j.jc);
    GoodTwo(Interface, p[2], p[3]);
    GoodSmall(Jmin, j.jmin);
    GoodSmall(Jmax, j.jmax);
    GoodTwo(Interface, p[4], p[5]);
    GoodAppend(Interface, [p[0], p[1]], [p[2], p[3]]);
    GoodAppend(Interface, [p[0], p[1]] + [p[2], p[3]], [p[4], p[5]]);
    assert p == [p[0], p[1]] + [p[2], p[3]] + [p[4], p[5]];
  }

  lemma GoodShape(e: Entry)
    requires Sound(e)
    ensures AllGood(Interface, ShapePairs(e))
  {
    var pairs := ShapePairs(e);
    forall i | 0 <= i < |pairs| ensures Good(Interface, pairs[i]) {
      if i < 4 {
        assert pairs[i] == Pair(S(i + 1), Dec(e.s[i].value));
        GoodSmall(S(i + 1), e.s[i].value);
      } else {
        assert pairs[i] == Pair(H(i - 3), Dec(e.h[i - 4].value));
        GoodHeader(H(i - 3), e.h[i - 4].value);
      }
    }
  }

  lemma GoodTrailers(on: bool)
    ensures Good(Interface, Pair(RandomTrailers, if on then "on" else "off"))
  {
    assert Lower("on") == "on" && Lower("off") == "off";
  }

  lemma PaddingRange()
    ensures RangeShape("0-32")
  {
    var v := "0-32";
    assert v[1] == '-' && v[..1] == "0" && v[2..] == "32" && Uint("0", 5) && Uint("32", 5);
  }

  lemma GoodRangeValue(v: string)
    requires Neat(v) && RangeShape(v)
    ensures Good(Interface, Pair(ContentPaddingAddition, v))
  {
  }

  lemma GoodPadding()
    ensures Good(Interface, Pair(ContentPaddingAddition, "0-32"))
  {
    PaddingRange();
    assert Neat("0-32");
    GoodRangeValue("0-32");
  }

  lemma GoodTier(e: Entry)
    requires Sound(e) && (Tier3(e) ==> Key32(e.headerProtectionKey))
    ensures AllGood(Interface, TierPairs(e))
  {
    if Tier3(e) {
      GoodMtu(e.mtu.value);
      GoodKey(Interface, HeaderProtectionKey, e.headerProtectionKey);
      GoodTrailers(e.randomTrailers);
      GoodPadding();
    }
  }

  /** The keys that the user's own side of the builder does not check the padding of. */
  predicate OwnKeysPadded(e: Entry, privateKey: string) {
    Key32(privateKey) && (Tier3(e) ==> Key32(e.headerProtectionKey))
  }

  lemma GoodInterface(e: Entry, ownAddrs: seq<string>, privateKey: string, j: Junk)
    requires Sound(e) && Assignable(ownAddrs) && OwnKeysPadded(e, privateKey) && Drawn(j)
    ensures AllGood(Interface, InterfacePairs(e, ownAddrs, privateKey, j))
  {
    GoodBase(ownAddrs, privateKey, j);
    GoodShape(e);
    GoodSignatures(e.i, 1);
    GoodTier(e);
    GoodAppend(Interface, BasePairs(ownAddrs, privateKey, j), ShapePairs(e));
    GoodAppend(Interface, BasePairs(ownAddrs, privateKey, j) + ShapePairs(e), SignaturePairs(e.i, 1));
    GoodAppend(Interface, BasePairs(ownAddrs, privateKey, j) + ShapePairs(e) + SignaturePairs(e.i, 1), TierPairs(e));
  }

  lemma EndpointOf(host: string, port: string)
    requires HostShape(host) && Uint(port, 5)
    ensures EndpointShape(host + [':'] + port)
  {
    var v := host + [':'] + port;
    assert v[..|host|] == host && v[|host|] == ':' && v[|host| + 1..] == port;
  }

  lemma EndpointNeat(host: string, port: string)
    requires HostShape(host) && Digits(port)
    ensures Neat(host + [':'] + port)
  {
    HostChars(host);
    var v := host + [':'] + port;
    assert forall i :: 0 <= i < |v| ==> !IsSpace(v[i]) && v[i] != '#' && v[i] != '\n';
  }

  lemma GoodEndpointValue(v: string)
    requires Neat(v) && EndpointShape(v)
    ensures Good(Peer, Pair(Endpoint, v))
  {
  }

  lemma GoodEndpoint(host: string, port: int)
    requires HostShape(host) && 0 < port <= 65535
    ensures Good(Peer, Pair(Endpoint, host + [':'] + Dec(port)))
  {
    TenAt();
    DecFits(port, 5);
    EndpointOf(host, Dec(port));
    EndpointNeat(host, Dec(port));
    GoodEndpointValue(host + [':'] + Dec(port));
  }

  lemma GoodKeepalive()
    ensures Good(Peer, Pair(PersistentKeepalive, "15"))
  {
    assert Num("15") == 15 by {
      assert "15"[..1] == "1" && "1"[..0] == "";
      assert Num("1") == 1;
    }
  }

  // ---- the whole file --------------------------------------------------------------

  lemma GoodIsAll(s: Section, pairs: seq<Pair>)
    requires AllGood(s, pairs)
    ensures AllWritten(pairs) && AllAdmitted(s, pairs) && AllTranslated(s, pairs)
  {
  }

  /** A node's key is good for the guard however it is padded. */
  lemma NodeKeyAdmitted(v: string)
    requires NodeKey(v)
    ensures Neat(v) && KeyShape(v)
  {
    forall i | 0 <= i < |v| ensures v[i] != '#' && v[i] != '\n' && !IsSpace(v[i]) {
      assert Base64Char(v[i]) || v[i] == '=';
    }
  }

  lemma NodeKeyWritten(v: string)
    requires NodeKey(v)
    ensures Written(Pair(PublicKey, v)) && Admitted(Peer, Pair(PublicKey, v))
    ensures Translated(Peer, Pair(PublicKey, v)) <==> Key32(v)
  {
    NodeKeyAdmitted(v);
  }

  /** The lines of [Peer] after its key. */
  function PeerRest(e: Entry, host: string): seq<Pair>
    requires Sound(e)
  {
    [Pair(AllowedIps, Join(ALL_ROUTES, ',')), Pair(Endpoint, host + [':'] + Dec(e.port.value)), Pair(PersistentKeepalive, "15")]
  }

  lemma GoodPeerRest(e: Entry, host: string)
    requires Sound(e) && HostShape(host)
    ensures AllGood(Peer, PeerRest(e, host))
  {
    FixedLists();
    GoodList(Peer, AllowedIps, ALL_ROUTES);
    GoodEndpoint(host, e.port.value);
    GoodKeepalive();
  }

  lemma PeerWritten(e: Entry, host: string)
    requires Sound(e) && HostShape(host)
    ensures AllWritten(PeerPairs(e, host)) && AllAdmitted(Peer, PeerPairs(e, host))
  {
    GoodPeerRest(e, host);
    NodeKeyWritten(e.publicKey);
    assert PeerPairs(e, host) == [Pair(PublicKey, e.publicKey)] + PeerRest(e, host);
  }

  /** The guard lets the file through. */
  lemma FileAccepted(own: seq<Pair>, peer: seq<Pair>)
    requires AllAdmitted(Interface, own) && AllAdmitted(Peer, peer)
    ensures Accepts(FileItems(own, peer), None)
  {
    var tail := PairItems(peer) + [Blank];
    var mid := [Blank] + ([Header(Some(Peer))] + tail);
    FileParts(own, peer);
    AcceptsOne(Header(Some(Interface)), PairItems(own) + mid, None);
    AcceptsPairs(Interface, own, mid);
    AcceptsOne(Blank, [Header(Some(Peer))] + tail, Some(Interface));
    AcceptsOne(Header(Some(Peer)), tail, Some(Interface));
    AcceptsPairs(Peer, peer, [Blank]);
    AcceptsOne(Blank, [], Some(Peer));
    assert [Blank] + [] == [Blank];
  }

  lemma AcceptsOne(item: Item, rest: seq<Item>, s: Option<Section>)
    requires item.Blank? || (item.Header? && item.section.Some?)
    ensures Accepts([item] + rest, s) <==> Accepts(rest, if item.Header? then item.section else s)
  {
    assert ([item] + rest)[0] == item && ([item] + rest)[1..] == rest;
  }

  /** The building after [Interface] and the opening of [Peer]. */
  function Opened(settings: seq<Line>): Building {
    Building(Device(settings, [Peering("", [], [])]), Some(Peer))
  }

  /** FileItems, one section after another. */
  lemma FileParts(own: seq<Pair>, peer: seq<Pair>)
    ensures FileItems(own, peer)
         == [Header(Some(Interface))] + (PairItems(own) + ([Blank] + ([Header(Some(Peer))] + (PairItems(peer) + [Blank]))))
  {
    var tail := PairItems(peer) + [Blank];
    assert [Blank] + ([Header(Some(Peer))] + tail) == [Blank, Header(Some(Peer))] + tail;
    Associate([Blank, Header(Some(Peer))], PairItems(peer), [Blank]);
    Associate([Header(Some(Interface))], PairItems(own), [Blank, Header(Some(Peer))]);
    Associate([Header(Some(Interface))] + PairItems(own), [Blank, Header(Some(Peer))], PairItems(peer));
    Associate([Header(Some(Interface))] + PairItems(own) + [Blank, Header(Some(Peer))], PairItems(peer), [Blank]);
    Associate([Header(Some(Interface))], PairItems(own), [Blank, Header(Some(Peer))] + tail);
    Associate([Header(Some(Interface))] + PairItems(own), [Blank, Header(Some(Peer))], tail);
  }

  lemma PeerOpens(settings: seq<Line>, tail: seq<Item>)
    ensures MeantBy(Building(Device(settings, []), Some(Interface)), [Blank] + ([Header(Some(Peer))] + tail))
         == MeantBy(Opened(settings), tail)
  {
    var b := Building(Device(settings, []), Some(Interface));
    MeantOne(b, Blank, [Header(Some(Peer))] + tail);
    MeantOne(b, Header(Some(Peer)), tail);
    assert [] + [Peering("", [], [])] == [Peering("", [], [])];
  }

  lemma FileMeansPeer(own: seq<Pair>, peer: seq<Pair>)
    requires AllTranslated(Interface, own)
    ensures MeantBy(NOTHING, FileItems(own, peer)) == MeantBy(Opened(SettingsOf(own)), PairItems(peer) + [Blank])
  {
    var tail := PairItems(peer) + [Blank];
    var mid := [Blank] + ([Header(Some(Peer))] + tail);
    OwnKeysNotPublic(own);
    FileParts(own, peer);
    MeantOne(NOTHING, Header(Some(Interface)), PairItems(own) + mid);
    OwnPairsMean(Building(Device([], []), Some(Interface)), own, mid);
    assert [] + SettingsOf(own) == SettingsOf(own);
    PeerOpens(SettingsOf(own), tail);
  }

  lemma OwnKeysNotPublic(own: seq<Pair>)
    requires AllTranslated(Interface, own)
    ensures forall i :: 0 <= i < |own| ==> !own[i].key.PublicKey?
  {
    forall i | 0 <= i < |own| ensures !own[i].key.PublicKey? {
      assert Translated(Interface, own[i]);
    }
  }

  /** The one peer that the built file describes. */
  function BuiltPeer(e: Entry, host: string): Peering
    requires Sound(e) && Key32(e.publicKey)
  {
    Peering(Hex(e.publicKey),
            [Line(Of(Endpoint), host + [':'] + Dec(e.port.value)), Line(Of(PersistentKeepalive), "15")], ALL_ROUTES)
  }

  lemma PeerMeans(e: Entry, host: string, settings: seq<Line>)
    requires Sound(e) && HostShape(host)
    ensures MeantBy(Opened(settings), PairItems(PeerPairs(e, host)) + [Blank])
         == if Key32(e.publicKey) then Some(Building(Device(settings, [BuiltPeer(e, host)]), Some(Peer))) else None
  {
    var rest := PeerRest(e, host);
    NodeKeyWritten(e.publicKey);
    assert PairItems(PeerPairs(e, host)) + [Blank]
        == [PairItem(Pair(PublicKey, e.publicKey))] + (PairItems(rest) + [Blank]);
    MeantOne(Opened(settings), PairItem(Pair(PublicKey, e.publicKey)), PairItems(rest) + [Blank]);
    if Key32(e.publicKey) {
      StepsTo(Opened(settings), PairItem(Pair(PublicKey, e.publicKey)), WithPeer(settings, Peering(Hex(e.publicKey), [], [])));
      PeerRestMeans(e, host, settings);
    }
  }

  function WithPeer(settings: seq<Line>, p: Peering): Building {
    Building(Device(settings, [p]), Some(Peer))
  }

  lemma StepMeans(settings: seq<Line>, p: Peering, k: Key, v: string, rest: seq<Item>)
    requires v != "" && PeerKeyed(k) && !k.PublicKey? && Convertible(k, v)
    ensures MeantBy(WithPeer(settings, p), [PairItem(Pair(k, v))] + rest)
         == MeantBy(WithPeer(settings, PeeringWith(p, k, v)), rest)
  {
    StepsTo(WithPeer(settings, p), PairItem(Pair(k, v)), WithPeer(settings, PeeringWith(p, k, v)));
    MeantOne(WithPeer(settings, p), PairItem(Pair(k, v)), rest);
  }

  /** AllowedIPs, Endpoint and PersistentKeepalive of a peer that has its key. */
  lemma ThreeMean(settings: seq<Line>, hex: string, routes: seq<string>, a: string, endpoint: string, keepalive: string)
    requires a != "" && endpoint != "" && keepalive != "" && Pieces(a) == routes && "" !in routes
    requires Convertible(PersistentKeepalive, keepalive)
    ensures MeantBy(WithPeer(settings, Peering(hex, [], [])),
                    [PairItem(Pair(AllowedIps, a))] + ([PairItem(Pair(Endpoint, endpoint))]
                    + ([PairItem(Pair(PersistentKeepalive, keepalive))] + [Blank])))
      == Some(WithPeer(settings, Peering(hex, [Line(Of(Endpoint), endpoint), Line(Of(PersistentKeepalive), keepalive)], routes)))
  {
    var p0 := Peering(hex, [], routes);
    var p1 := p0.(attrs := [Line(Of(Endpoint), endpoint)]);
    var p2 := p0.(attrs := [Line(Of(Endpoint), endpoint), Line(Of(PersistentKeepalive), keepalive)]);
    assert PeeringWith(Peering(hex, [], []), AllowedIps, a) == p0;
    assert PeeringWith(p0, Endpoint, endpoint) == p1;
    assert PeeringWith(p1, PersistentKeepalive, keepalive) == p2;
    var tail := [PairItem(Pair(PersistentKeepalive, keepalive))] + [Blank];
    StepMeans(settings, Peering(hex, [], []), AllowedIps, a, [PairItem(Pair(Endpoint, endpoint))] + tail);
    StepMeans(settings, p0, Endpoint, endpoint, tail);
    StepMeans(settings, p1, PersistentKeepalive, keepalive, [Blank]);
    assert MeantBy(WithPeer(settings, p2), [Blank]) == Some(WithPeer(settings, p2)) by {
      MeantOne(WithPeer(settings, p2), Blank, []);
      assert [Blank] + [] == [Blank];
    }
  }

  lemma StepsTo(b: Building, item: Item, next: Building)
    requires Takes(b, item) && b.section == Some(Peer) && item.Assign? && |b.device.peers| == 1
    requires next == WithPeer(b.device.settings, PeeringWith(b.device.peers[0], item.key.value, item.value))
    ensures Meant(b, item) == next
  {
  }

  lemma ThreeItems(pairs: seq<Pair>)
    requires |pairs| == 3
    ensures PairItems(pairs) + [Blank] == [PairItem(pairs[0])] + ([PairItem(pairs[1])] + ([PairItem(pairs[2])] + [Blank]))
  {
  }

  lemma PeerRestMeans(e: Entry, host: string, settings: seq<Line>)
    requires Sound(e) && HostShape(host) && Key32(e.publicKey)
    ensures MeantBy(WithPeer(settings, Peering(Hex(e.publicKey), [], [])), PairItems(PeerRest(e, host)) + [Blank])
         == Some(WithPeer(settings, BuiltPeer(e, host)))
  {
    var rest := PeerRest(e, host);
    GoodPeerRest(e, host);
    GoodIsAll(Peer, rest);
    RoutesPieces();
    ThreeItems(rest);
    PeerRestValues(rest);
    ThreeMean(settings, Hex(e.publicKey), ALL_ROUTES, rest[0].value, rest[1].value, rest[2].value);
  }

  lemma PeerRestValues(rest: seq<Pair>)
    requires AllTranslated(Peer, rest) && |rest| == 3 && rest[2].key == PersistentKeepalive
    ensures rest[0].value != "" && rest[1].value != "" && rest[2].value != ""
    ensures Convertible(PersistentKeepalive, rest[2].value)
  {
    assert Translated(Peer, rest[0]) && Translated(Peer, rest[1]) && Translated(Peer, rest[2]);
  }

  lemma RoutesPieces()
    ensures Pieces(Join(ALL_ROUTES, ',')) == ALL_ROUTES && "" !in ALL_ROUTES
  {
    FixedLists();
    SplitCidrs(ALL_ROUTES);
    PiecesWhole(Join(ALL_ROUTES, ','), ALL_ROUTES);
  }

  lemma {:induction false} PrivateKeySet(pairs: seq<Pair>, i: nat)
    requires AllTranslated(Interface, pairs) && i < |pairs| && pairs[i].key == PrivateKey
    ensures exists k :: 0 <= k < |SettingsOf(pairs)| && SettingsOf(pairs)[k].name == Of(PrivateKey)
    decreases i
  {
    var rest := SettingsOf(pairs[1..]);
    var all := SettingsOf(pairs);
    if i == 0 {
      assert all[0].name == Of(PrivateKey);
    } else {
      PrivateKeySet(pairs[1..], i - 1);
      var k :| 0 <= k < |rest| && rest[k].name == Of(PrivateKey);
      assert all[|all| - |rest| + k] == rest[k];
    }
  }

  /**
   Everything that the builder makes of a sound answer passes the root-side guard, for an endpoint
   host in the guard's alphabet and own keys in standard padding; and it is translated, to exactly
   the device that was meant, if and only if the node's public key is in standard padding too
   (RFC 4648, section 4). The builder itself does not ask for that.
   */
  lemma BuiltIsTranslatedIff(e: Entry, host: string, ownAddrs: seq<string>, privateKey: string, j: Junk)
    requires Sound(e) && HostShape(host) && Assignable(ownAddrs) && OwnKeysPadded(e, privateKey) && Drawn(j)
    ensures var text := Join(FileLines(e, host, ownAddrs, privateKey, j), '\n');
      var own := InterfacePairs(e, ownAddrs, privateKey, j);
      && Accepts(GuardItems(text), None)
      && (Described(text).Some? <==> Key32(e.publicKey))
      && (Key32(e.publicKey) ==>
           AllTranslated(Interface, own)
           && Described(text).value == Device(SettingsOf(own) + [FWMARK_LINE], [BuiltPeer(e, host)]))
  {
    var own := InterfacePairs(e, ownAddrs, privateKey, j);
    GoodInterface(e, ownAddrs, privateKey, j);
    GoodIsAll(Interface, own);
    PrivateKeyIn(e, ownAddrs, privateKey, j);
    BuiltFrom(e, host, own, FileLines(e, host, ownAddrs, privateKey, j));
  }

  lemma PrivateKeyIn(e: Entry, ownAddrs: seq<string>, privateKey: string, j: Junk)
    requires Sound(e) && AllTranslated(Interface, InterfacePairs(e, ownAddrs, privateKey, j))
    ensures var settings := SettingsOf(InterfacePairs(e, ownAddrs, privateKey, j));
      exists k :: 0 <= k < |settings| && settings[k].name == Of(PrivateKey)
  {
    var own := InterfacePairs(e, ownAddrs, privateKey, j);
    assert own[1] == BasePairs(ownAddrs, privateKey, j)[1];
    PrivateKeySet(own, 1);
  }

  lemma BuiltFrom(e: Entry, host: string, own: seq<Pair>, lines: seq<string>)
    requires Sound(e) && HostShape(host)
    requires AllWritten(own) && AllAdmitted(Interface, own) && AllTranslated(Interface, own)
    requires exists k :: 0 <= k < |SettingsOf(own)| && SettingsOf(own)[k].name == Of(PrivateKey)
    requires lines == ["[Interface]"] + PairLines(own) + ["", "[Peer]"] + PairLines(PeerPairs(e, host)) + [""]
    ensures Accepts(GuardItems(Join(lines, '\n')), None)
    ensures Described(Join(lines, '\n'))
         == if Key32(e.publicKey) then Some(Device(SettingsOf(own) + [FWMARK_LINE], [BuiltPeer(e, host)])) else None
  {
    var peer := PeerPairs(e, host);
    PeerWritten(e, host);
    FileReads(own, peer, lines);
    FileAccepted(own, peer);
    FileMeansPeer(own, peer);
    PeerMeans(e, host, SettingsOf(own));
    FileDescribes(Join(lines, '\n'), own, e, host);
  }

  lemma FileDescribes(text: string, own: seq<Pair>, e: Entry, host: string)
    requires AllTranslated(Interface, own) && Sound(e)
    requires exists k :: 0 <= k < |SettingsOf(own)| && SettingsOf(own)[k].name == Of(PrivateKey)
    requires MeantBy(NOTHING, Items(text))
          == if Key32(e.publicKey) then Some(Building(Device(SettingsOf(own), [BuiltPeer(e, host)]), Some(Peer))) else None
    ensures Described(text) == if Key32(e.publicKey) then Some(Device(SettingsOf(own) + [FWMARK_LINE], [BuiltPeer(e, host)])) else None
  {
    if Key32(e.publicKey) {
      assert |Hex(e.publicKey)| == 64;
    }
  }
}
