/**
 ToUAPI of daemon/internal/amneziawg/amneziawg.go: an AmneziaWG INI compiled to the text that the
 device is configured with. The text is read back by an interpreter of that protocol, and the
 device it describes is the one the INI describes.
 */
module AwgUapi {
  import opened Common
  import opened Text
  import opened AwgIni

  // ---- keys in hex -----------------------------------------------------------------

  /** The value of a base64 character. */
  function Sextet(c: char): (n: nat)
    ensures n < 64
  {
    if 'A' <= c <= 'Z' then c as int - 'A' as int
    else if 'a' <= c <= 'z' then c as int - 'a' as int + 26
    else if IsDigit(c) then c as int - '0' as int + 52
    else if c == '+' then 62 else 63
  }

  function HexDigit(n: nat): (c: char)
    requires n < 16
    ensures HexChar(c) && !IsSpace(c) && c != '\n' && c != '='
  {
    if n < 10 then (n + '0' as int) as char else (n - 10 + 'a' as int) as char
  }

  /** The i-th hex digit: each two characters hold three. */
  function Nibble(v: string, i: nat): (n: nat)
    requires |v| == 44 && i < 64
    ensures n < 16
  {
    var j := i / 3 * 2;
    if i % 3 == 0 then Sextet(v[j]) / 4
    else if i % 3 == 1 then Sextet(v[j]) % 4 * 4 + Sextet(v[j + 1]) / 16
    else Sextet(v[j + 1]) % 16
  }

  /** hex.EncodeToString of the 32 bytes; the last two bits of the 43rd character are dropped. */
  function Hex(v: string): (h: string)
    requires Key32(v)
    ensures |h| == 64 && forall i :: 0 <= i < 64 ==> h[i] == HexDigit(Nibble(v, i))
  {
    seq(64, i requires 0 <= i < 64 => HexDigit(Nibble(v, i)))
  }

  lemma HexNoNewline(v: string)
    requires Key32(v)
    ensures '\n' !in Hex(v)
  {
  }

  lemma HexDigitInjective(m: nat, n: nat)
    requires m < 16 && n < 16 && HexDigit(m) == HexDigit(n)
    ensures m == n
  {
  }

  lemma SextetInjective(a: char, b: char)
    requires Base64Char(a) && Base64Char(b) && Sextet(a) == Sextet(b)
    ensures a == b
  {
  }

  lemma SameNibble(v: string, w: string, i: nat)
    requires Key32(v) && Key32(w) && Hex(v) == Hex(w) && i < 64
    ensures Nibble(v, i) == Nibble(w, i)
  {
    assert Hex(v)[i] == Hex(w)[i];
    HexDigitInjective(Nibble(v, i), Nibble(w, i));
  }

  /** The three digits that two characters make. */
  lemma NibblesOf(v: string, j: nat)
    requires |v| == 44 && j < 21
    ensures Nibble(v, 3 * j) == Sextet(v[2 * j]) / 4
    ensures Nibble(v, 3 * j + 1) == Sextet(v[2 * j]) % 4 * 4 + Sextet(v[2 * j + 1]) / 16
    ensures Nibble(v, 3 * j + 2) == Sextet(v[2 * j + 1]) % 16
  {
    assert 3 * j / 3 * 2 == 2 * j && (3 * j + 1) / 3 * 2 == 2 * j && (3 * j + 2) / 3 * 2 == 2 * j;
  }

  /** Three digits give two sextets back. */
  lemma SplitSextets(x: nat, y: nat, x': nat, y': nat)
    requires x < 64 && y < 64 && x' < 64 && y' < 64
    requires x / 4 == x' / 4 && x % 4 * 4 + y / 16 == x' % 4 * 4 + y' / 16 && y % 16 == y' % 16
    ensures x == x' && y == y'
  {
  }

  lemma SamePair(v: string, w: string, j: nat)
    requires Key32(v) && Key32(w) && Hex(v) == Hex(w) && j < 21
    ensures Sextet(v[2 * j]) == Sextet(w[2 * j]) && Sextet(v[2 * j + 1]) == Sextet(w[2 * j + 1])
  {
    SameNibble(v, w, 3 * j);
    SameNibble(v, w, 3 * j + 1);
    SameNibble(v, w, 3 * j + 2);
    NibblesOf(v, j);
    NibblesOf(w, j);
    SplitSextets(Sextet(v[2 * j]), Sextet(v[2 * j + 1]), Sextet(w[2 * j]), Sextet(w[2 * j + 1]));
  }

  lemma SameCharacter(v: string, w: string, k: nat)
    requires Key32(v) && Key32(w) && Hex(v) == Hex(w) && k < 42
    ensures v[k] == w[k]
  {
    SamePair(v, w, k / 2);
    assert k == 2 * (k / 2) || k == 2 * (k / 2) + 1;
    SextetInjective(v[k], w[k]);
  }

  /** Two keys that reach the device alike are the same 32 bytes. */
  lemma HexKeepsTheKey(v: string, w: string)
    requires Key32(v) && Key32(w) && Hex(v) == Hex(w)
    ensures v[..42] == w[..42] && Sextet(v[42]) / 4 == Sextet(w[42]) / 4
  {
    forall k | 0 <= k < 42 ensures v[k] == w[k] {
      SameCharacter(v, w, k);
    }
    SameNibble(v, w, 63);
  }

  // ---- what may be translated ------------------------------------------------------

  /** The wg-quick directives that the device never sees. */
  predicate Skipped(k: Key) {
    k.Address? || k.Dns? || k.Mtu? || k.Table?
  }

  predicate KeyValued(k: Key) {
    k.PrivateKey? || k.PublicKey? || k.PresharedKey? || k.HeaderProtectionKey?
  }

  predicate Numeric(k: Key) {
    k.ListenPort? || k.Jc? || k.Jmin? || k.Jmax? || k.S? || k.H? || k.PersistentKeepalive?
  }

  /** The keys of deviceKeys and the skipped ones, and those of peerKeys and AllowedIPs. */
  predicate Known(s: Section, k: Key) {
    if s.Interface? then
      match k
      case S(n) => 1 <= n <= 4
      case H(n) => 1 <= n <= 4
      case I(n) => 1 <= n <= 5
      case _ => !PeerKeyed(k)
    else PeerKeyed(k)
  }

  predicate PeerKeyed(k: Key) {
    k.PublicKey? || k.PresharedKey? || k.AllowedIps? || k.Endpoint? || k.PersistentKeepalive?
  }

  function Pieces(v: string): (r: seq<string>)
    ensures |r| == |Split(v, ',')| && forall i :: 0 <= i < |r| ==> r[i] == Trim(Split(v, ',')[i])
  {
    var items := Split(v, ',');
    seq(|items|, i requires 0 <= i < |items| => Trim(items[i]))
  }

  predicate Convertible(k: Key, v: string) {
    if Skipped(k) then true
    else if KeyValued(k) then Key32(v)
    else if Numeric(k) then Digits(v) && Num(v) < 0x1_0000_0000
    else if k.RandomTrailers? then Lower(v) == "on" || Lower(v) == "off"
    else if k.ContentPaddingAddition? then RangeShape(v)
    else if k.AllowedIps? then "" !in Pieces(v)
    else true
  }

  /** translateValue. */
  function Translate(k: Key, v: string): string
    requires Convertible(k, v)
  {
    if KeyValued(k) then Hex(v)
    else if k.RandomTrailers? then (if Lower(v) == "on" then "true" else "false")
    else v
  }

  // ---- what an INI means -----------------------------------------------------------

  datatype Name = Of(key: Key) | AllowedIp | Fwmark | ReplacePeers | ReplaceAllowedIps

  /** A setting of the device or of a peer; also one line of the device's protocol. */
  datatype Line = Line(name: Name, value: string)

  datatype Peering = Peering(publicKey: string, attrs: seq<Line>, allowed: seq<string>)

  datatype Device = Device(settings: seq<Line>, peers: seq<Peering>)

  /** A device under construction, and the section that the next line belongs to. */
  datatype Building = Building(device: Device, section: Option<Section>)

  const NOTHING := Building(Device([], []), None)

  function Last<T>(s: seq<T>): T
    requires s != []
  {
    s[|s| - 1]
  }

  function SetLast<T>(s: seq<T>, x: T): (r: seq<T>)
    requires s != []
    ensures |r| == |s| && Last(r) == x && forall i :: 0 <= i < |s| - 1 ==> r[i] == s[i]
  {
    s[|s| - 1 := x]
  }

  predicate InPeer(b: Building) {
    b.section == Some(Peer) && b.device.peers != []
  }

  /** A line that means something after the lines before it. */
  predicate Takes(b: Building, item: Item) {
    match item
    case Blank => true
    case Header(s) => s.Some?
    case Junk => false
    case Assign(k, v) =>
      && v != "" && k.Some? && b.section.Some? && Known(b.section.value, k.value) && Convertible(k.value, v)
      && (b.section.value.Peer? ==> b.device.peers != [])
      && (k.value.PublicKey? && InPeer(b) ==> Last(b.device.peers).publicKey == "")
  }

  function PeeringWith(p: Peering, k: Key, v: string): Peering
    requires Convertible(k, v)
  {
    if k.AllowedIps? then p.(allowed := p.allowed + Pieces(v))
    else if k.PublicKey? then p.(publicKey := Translate(k, v))
    else p.(attrs := p.attrs + [Line(Of(k), Translate(k, v))])
  }

  function Meant(b: Building, item: Item): Building
    requires Takes(b, item)
  {
    match item
    case Header(s) =>
      var peers := if s.value.Peer? then b.device.peers + [Peering("", [], [])] else b.device.peers;
      Building(b.device.(peers := peers), s)
    case Assign(k, v) =>
      if b.section.value.Peer? then
        var peers := SetLast(b.device.peers, PeeringWith(Last(b.device.peers), k.value, v));
        b.(device := b.device.(peers := peers))
      else if Skipped(k.value) then b
      else b.(device := b.device.(settings := b.device.settings + [Line(Of(k.value), Translate(k.value, v))]))
    case _ => b
  }

  function MeantBy(b: Building, items: seq<Item>): Option<Building>
    decreases |items|
  {
    if items == [] then Some(b)
    else if Takes(b, items[0]) then MeantBy(Meant(b, items[0]), items[1..])
    else None
  }

  function Items(ini: string): seq<Item> {
    var lines := Split(ini, '\n');
    seq(|lines|, i requires 0 <= i < |lines| => Read(lines[i]))
  }

  predicate SetsPrivateKey(d: Device) {
    exists i :: 0 <= i < |d.settings| && d.settings[i].name == Of(PrivateKey)
  }

  predicate PeersNamed(d: Device) {
    forall i :: 0 <= i < |d.peers| ==> d.peers[i].publicKey != ""
  }

  const FWMARK_LINE := Line(Fwmark, "51820")

  /** The device that an INI describes, with the mark that the helper adds; None if it is not one. */
  function Described(ini: string): Option<Device> {
    var b := MeantBy(NOTHING, Items(ini));
    if b.None? || !SetsPrivateKey(b.value.device) || !PeersNamed(b.value.device) then None
    else Some(b.value.device.(settings := b.value.device.settings + [FWMARK_LINE]))
  }

  // ---- the device's protocol -------------------------------------------------------

  datatype Uapi = Uapi(device: Device, inPeer: bool)

  predicate PeerAttr(k: Key) {
    k.PresharedKey? || k.Endpoint? || k.PersistentKeepalive?
  }

  /** One line: a public key opens a peer, and what follows is the peer's. */
  function UapiStep(u: Uapi, l: Line): Option<Uapi> {
    var d := u.device;
    match l.name
    case Of(k) =>
      if k.PublicKey? then Some(Uapi(d.(peers := d.peers + [Peering(l.value, [], [])]), true))
      else if PeerAttr(k) then
        if u.inPeer && d.peers != [] then
          Some(u.(device := d.(peers := SetLast(d.peers, Last(d.peers).(attrs := Last(d.peers).attrs + [l])))))
        else None
      else if u.inPeer then None
      else Some(u.(device := d.(settings := d.settings + [l])))
    case Fwmark => if u.inPeer then None else Some(u.(device := d.(settings := d.settings + [l])))
    case ReplacePeers => if u.inPeer then None else Some(u.(device := d.(peers := [])))
    case ReplaceAllowedIps =>
      if u.inPeer && d.peers != [] then Some(u.(device := d.(peers := SetLast(d.peers, Last(d.peers).(allowed := [])))))
      else None
    case AllowedIp =>
      if u.inPeer && d.peers != [] then
        Some(u.(device := d.(peers := SetLast(d.peers, Last(d.peers).(allowed := Last(d.peers).allowed + [l.value])))))
      else None
  }

  function UapiRun(u: Uapi, lines: seq<Line>): Option<Uapi>
    decreases |lines|
  {
    if lines == [] then Some(u)
    else
      var next := UapiStep(u, lines[0]);
      if next.None? then None else UapiRun(next.value, lines[1..])
  }

  lemma {:induction false} UapiAppend(u: Uapi, a: seq<Line>, b: seq<Line>)
    ensures var mid := UapiRun(u, a);
      UapiRun(u, a + b) == if mid.None? then None else UapiRun(mid.value, b)
    decreases |a|
  {
    if a == [] {
      assert a + b == b;
    } else {
      assert (a + b)[0] == a[0] && (a + b)[1..] == a[1..] + b;
      if UapiStep(u, a[0]).Some? {
        UapiAppend(UapiStep(u, a[0]).value, a[1..], b);
      }
    }
  }

  // ---- the translator --------------------------------------------------------------

  /** What the loop knows of a peer: its key in hex, and its other lines in file order. */
  datatype Record = Record(publicKey: string, lines: seq<Line>)

  function AttrsOf(lines: seq<Line>): seq<Line>
    decreases |lines|
  {
    if lines == [] then [] else (if lines[0].name.AllowedIp? then [] else [lines[0]]) + AttrsOf(lines[1..])
  }

  function AllowedOf(lines: seq<Line>): seq<string>
    decreases |lines|
  {
    if lines == [] then [] else (if lines[0].name.AllowedIp? then [lines[0].value] else []) + AllowedOf(lines[1..])
  }

  function PeeringOf(r: Record): Peering {
    Peering(r.publicKey, AttrsOf(r.lines), AllowedOf(r.lines))
  }

  function AllowedLines(cidrs: seq<string>): (r: seq<Line>)
    ensures |r| == |cidrs| && forall i :: 0 <= i < |r| ==> r[i] == Line(AllowedIp, cidrs[i])
  {
    seq(|cidrs|, i requires 0 <= i < |cidrs| => Line(AllowedIp, cidrs[i]))
  }

  /** The current peer after one of its lines. */
  function RecordWith(r: Record, k: Key, v: string): Record
    requires Convertible(k, v)
  {
    if k.AllowedIps? then r.(lines := r.lines + AllowedLines(Pieces(v)))
    else if k.PublicKey? then r.(publicKey := Translate(k, v))
    else r.(lines := r.lines + [Line(Of(k), Translate(k, v))])
  }

  lemma Associate<T>(a: seq<T>, b: seq<T>, c: seq<T>)
    ensures a + (b + c) == a + b + c
  {
  }

  lemma {:induction false} AttrsAppend(a: seq<Line>, b: seq<Line>)
    ensures AttrsOf(a + b) == AttrsOf(a) + AttrsOf(b)
    decreases |a|
  {
    if a == [] {
      assert a + b == b;
    } else {
      assert (a + b)[0] == a[0] && (a + b)[1..] == a[1..] + b;
      AttrsAppend(a[1..], b);
      Associate(if a[0].name.AllowedIp? then [] else [a[0]], AttrsOf(a[1..]), AttrsOf(b));
    }
  }

  lemma {:induction false} AllowedAppend(a: seq<Line>, b: seq<Line>)
    ensures AllowedOf(a + b) == AllowedOf(a) + AllowedOf(b)
    decreases |a|
  {
    if a == [] {
      assert a + b == b;
    } else {
      assert (a + b)[0] == a[0] && (a + b)[1..] == a[1..] + b;
      AllowedAppend(a[1..], b);
      Associate(if a[0].name.AllowedIp? then [a[0].value] else [], AllowedOf(a[1..]), AllowedOf(b));
    }
  }

  lemma PartsAppend(a: seq<Line>, b: seq<Line>)
    ensures AttrsOf(a + b) == AttrsOf(a) + AttrsOf(b)
    ensures AllowedOf(a + b) == AllowedOf(a) + AllowedOf(b)
  {
    AttrsAppend(a, b);
    AllowedAppend(a, b);
  }

  lemma {:induction false} PartsOfAllowed(cidrs: seq<string>)
    ensures AttrsOf(AllowedLines(cidrs)) == [] && AllowedOf(AllowedLines(cidrs)) == cidrs
    decreases |cidrs|
  {
    if cidrs != [] {
      assert AllowedLines(cidrs)[1..] == AllowedLines(cidrs[1..]);
      PartsOfAllowed(cidrs[1..]);
    }
  }

  /** Recording a line records its meaning. */
  lemma RecordMeans(r: Record, k: Key, v: string)
    requires Convertible(k, v)
    ensures PeeringOf(RecordWith(r, k, v)) == PeeringWith(PeeringOf(r), k, v)
  {
    if k.AllowedIps? {
      PartsAppend(r.lines, AllowedLines(Pieces(v)));
      PartsOfAllowed(Pieces(v));
    } else if !k.PublicKey? {
      PartsAppend(r.lines, [Line(Of(k), Translate(k, v))]);
    }
  }

  /** A line of a record, as it can be written and read back. */
  predicate PeerLine(l: Line) {
    '\n' !in l.value && (l.name.AllowedIp? || (l.name.Of? && PeerAttr(l.name.key)))
  }

  predicate DevLine(l: Line) {
    '\n' !in l.value && l.name.Of? && Known(Interface, l.name.key) && !Skipped(l.name.key)
  }

  predicate RecordOk(r: Record) {
    '\n' !in r.publicKey && forall i :: 0 <= i < |r.lines| ==> PeerLine(r.lines[i])
  }

  predicate DevOk(dev: seq<Line>) {
    forall i :: 0 <= i < |dev| ==> DevLine(dev[i])
  }

  /** The loop's variables hold what the lines so far mean. */
  predicate Holds(b: Building, dev: seq<Line>, peers: seq<Record>, section: Option<Section>, sawKey: bool) {
    && b.section == section && b.device.settings == dev && sawKey == SetsPrivateKey(b.device)
    && (section == Some(Peer) ==> peers != [])
    && |peers| == |b.device.peers| && forall i :: 0 <= i < |peers| ==> PeeringOf(peers[i]) == b.device.peers[i]
  }

  lemma {:induction false} TrimSubset(s: string, c: char)
    requires c !in s
    ensures c !in Trim(s)
  {
    TrimLeftIs(s);
    TrimRightIs(TrimLeft(s));
  }

  lemma PiecesNoNewline(v: string)
    requires '\n' !in v
    ensures forall i :: 0 <= i < |Pieces(v)| ==> '\n' !in Pieces(v)[i]
  {
    var items := Split(v, ',');
    forall i | 0 <= i < |items| ensures '\n' !in Trim(items[i]) {
      SplitSubset(v, ',', '\n', i);
      TrimSubset(items[i], '\n');
    }
  }

  lemma {:induction false} SplitSubset(s: string, sep: char, c: char, i: nat)
    requires c !in s && i < |Split(s, sep)|
    ensures c !in Split(s, sep)[i]
    decreases |s|
  {
    if s != "" {
      var rest := Split(s[1..], sep);
      if s[0] == sep {
        if i > 0 {
          SplitSubset(s[1..], sep, c, i - 1);
        }
      } else {
        SplitSubset(s[1..], sep, c, i);
      }
    }
  }

  lemma StripSubset(raw: string, c: char)
    requires c !in raw
    ensures c !in Strip(raw)
  {
    var text := Trim(raw);
    TrimSubset(raw, c);
    TrimSubset(text[..IndexOf(text, '#')], c);
  }

  lemma AssignSubset(line: string, c: char)
    requires c !in line && ReadAssign(line).Assign?
    ensures c !in ReadAssign(line).value
  {
    var eq := IndexOf(line, '=');
    assert c !in line[eq + 1..];
    TrimSubset(line[eq + 1..], c);
  }

  lemma ReadNoNewline(raw: string)
    requires '\n' !in raw && Read(raw).Assign?
    ensures '\n' !in Read(raw).value
  {
    StripSubset(raw, '\n');
    AssignSubset(Strip(raw), '\n');
  }

  lemma TranslateNoNewline(k: Key, v: string)
    requires Convertible(k, v) && '\n' !in v
    ensures '\n' !in Translate(k, v)
  {
    if KeyValued(k) {
      HexNoNewline(v);
    }
  }

  lemma RecordStaysOk(r: Record, k: Key, v: string)
    requires RecordOk(r) && Known(Peer, k) && Convertible(k, v) && '\n' !in v
    ensures RecordOk(RecordWith(r, k, v))
  {
    TranslateNoNewline(k, v);
    PiecesNoNewline(v);
  }

  lemma HeaderHolds(b: Building, s: Section, dev: seq<Line>, peers: seq<Record>, section: Option<Section>, sawKey: bool)
    requires Holds(b, dev, peers, section, sawKey)
    ensures Holds(Meant(b, Header(Some(s))), dev, if s.Peer? then peers + [Record("", [])] else peers, Some(s), sawKey)
  {
  }

  lemma InterfaceHolds(b: Building, k: Key, v: string, dev: seq<Line>, peers: seq<Record>, sawKey: bool)
    requires Holds(b, dev, peers, Some(Interface), sawKey) && Takes(b, Assign(Some(k), v))
    ensures Holds(Meant(b, Assign(Some(k), v)), if Skipped(k) then dev else dev + [Line(Of(k), Translate(k, v))],
                  peers, Some(Interface), sawKey || k.PrivateKey?)
  {
    if !Skipped(k) {
      var l := Line(Of(k), Translate(k, v));
      assert (dev + [l])[|dev|] == l;
      assert forall i :: 0 <= i < |dev| ==> (dev + [l])[i] == dev[i];
    }
  }

  lemma PeerHolds(b: Building, k: Key, v: string, dev: seq<Line>, peers: seq<Record>, sawKey: bool)
    requires Holds(b, dev, peers, Some(Peer), sawKey) && Takes(b, Assign(Some(k), v))
    ensures Holds(Meant(b, Assign(Some(k), v)), dev, SetLast(peers, RecordWith(Last(peers), k, v)), Some(Peer), sawKey)
  {
    RecordMeans(Last(peers), k, v);
  }

  predicate RecordsOk(peers: seq<Record>) {
    forall i :: 0 <= i < |peers| ==> RecordOk(peers[i])
  }

  /** A `key = value` line. */
  method TakePair(ghost b: Building, key: Option<Key>, v: string, section: Option<Section>,
                  dev: seq<Line>, peers: seq<Record>, sawKey: bool)
    returns (ok: bool, dev': seq<Line>, peers': seq<Record>, sawKey': bool)
    requires Holds(b, dev, peers, section, sawKey) && DevOk(dev) && RecordsOk(peers) && '\n' !in v
    ensures ok <==> Takes(b, Assign(key, v))
    ensures ok ==> Holds(Meant(b, Assign(key, v)), dev', peers', section, sawKey')
    ensures DevOk(dev') && RecordsOk(peers')
  {
    ok, dev', peers', sawKey' := false, dev, peers, sawKey;
    if v == "" || section.None? || key.None? || !Known(section.value, key.value) || !Convertible(key.value, v) {
      return;
    }
    var k := key.value;
    if section.value.Interface? {
      InterfaceHolds(b, k, v, dev, peers, sawKey);
      TranslateNoNewline(k, v);
      if !Skipped(k) {
        dev' := dev + [Line(Of(k), Translate(k, v))];
      }
      sawKey' := sawKey || k.PrivateKey?;
    } else {
      if k.PublicKey? && Last(peers).publicKey != "" {
        return;
      }
      PeerHolds(b, k, v, dev, peers, sawKey);
      RecordStaysOk(Last(peers), k, v);
      peers' := SetLast(peers, RecordWith(Last(peers), k, v));
    }
    ok := true;
  }

  /** One line of the file. */
  method TakeLine(ghost b: Building, raw: string, section: Option<Section>, dev: seq<Line>, peers: seq<Record>, sawKey: bool)
    returns (ok: bool, section': Option<Section>, dev': seq<Line>, peers': seq<Record>, sawKey': bool)
    requires Holds(b, dev, peers, section, sawKey) && DevOk(dev) && RecordsOk(peers) && '\n' !in raw
    ensures ok <==> Takes(b, Read(raw))
    ensures ok ==> Holds(Meant(b, Read(raw)), dev', peers', section', sawKey')
    ensures DevOk(dev') && RecordsOk(peers')
  {
    ok, section', dev', peers', sawKey' := true, section, dev, peers, sawKey;
    var item := Read(raw);
    if item.Junk? || (item.Header? && item.section.None?) {
      ok := false;
    } else if item.Header? {
      HeaderHolds(b, item.section.value, dev, peers, section, sawKey);
      section' := item.section;
      if section'.value.Peer? {
        peers' := peers + [Record("", [])];
      }
    } else if item.Assign? {
      ReadNoNewline(raw);
      ok, dev', peers', sawKey' := TakePair(b, item.key, item.value, section, dev, peers, sawKey);
    }
  }

  lemma MeantStep(b: Building, items: seq<Item>, i: nat)
    requires i < |items|
    ensures MeantBy(b, items[i..]) == if Takes(b, items[i]) then MeantBy(Meant(b, items[i]), items[i + 1..]) else None
  {
    assert items[i..][0] == items[i] && items[i..][1..] == items[i + 1..];
  }

  /** The line loop. */
  method ReadIni(ini: string) returns (ok: bool, dev: seq<Line>, peers: seq<Record>, sawKey: bool, section: Option<Section>)
    ensures ok <==> MeantBy(NOTHING, Items(ini)).Some?
    ensures ok ==> Holds(MeantBy(NOTHING, Items(ini)).value, dev, peers, section, sawKey)
    ensures DevOk(dev) && RecordsOk(peers)
  {
    ok, dev, peers, sawKey, section := true, [], [], false, None;
    var raws := Split(ini, '\n');
    SplitPieces(ini, '\n');
    ghost var items, b := Items(ini), NOTHING;
    for i := 0 to |raws|
      invariant MeantBy(NOTHING, items) == MeantBy(b, items[i..])
      invariant ok && Holds(b, dev, peers, section, sawKey)
      invariant DevOk(dev) && RecordsOk(peers)
    {
      MeantStep(b, items, i);
      ok, section, dev, peers, sawKey := TakeLine(b, raws[i], section, dev, peers, sawKey);
      if !ok {
        return;
      }
      b := Meant(b, items[i]);
    }
  }

  // ---- the text --------------------------------------------------------------------

  function DigitChar(n: nat): char {
    if n < 10 then (n + '0' as int) as char else '?'
  }

  /** deviceKeys, peerKeys, and the lines that the translator adds. */
  function Spell(n: Name): string {
    match n
    case AllowedIp => "allowed_ip"
    case Fwmark => "fwmark"
    case ReplacePeers => "replace_peers"
    case ReplaceAllowedIps => "replace_allowed_ips"
    case Of(k) =>
      (match k
       case PrivateKey => "private_key"
       case ListenPort => "listen_port"
       case Jc => "jc"
       case Jmin => "jmin"
       case Jmax => "jmax"
       case S(i) => ['s', DigitChar(i)]
       case H(i) => ['h', DigitChar(i)]
       case I(i) => ['i', DigitChar(i)]
       case HeaderProtectionKey => "header_protection_key"
       case RandomTrailers => "random_trailers"
       case ContentPaddingAddition => "content_padding_addition"
       case PublicKey => "public_key"
       case PresharedKey => "preshared_key"
       case Endpoint => "endpoint"
       case PersistentKeepalive => "persistent_keepalive_interval"
       case _ => "")
  }

  /** A two-character name is "jc" or a letter and a digit. */
  function ShortName(s: string): Option<Name>
    requires |s| == 2
  {
    if s[0] == 'j' && s[1] == 'c' then Some(Of(Jc))
    else if !IsDigit(s[1]) then None
    else
      var n := s[1] as int - '0' as int;
      if s[0] == 's' then Some(Of(S(n))) else if s[0] == 'h' then Some(Of(H(n)))
      else if s[0] == 'i' then Some(Of(I(n))) else None
  }

  function DeviceName(s: string): Option<Name> {
    if s == "private_key" then Some(Of(PrivateKey))
    else if s == "listen_port" then Some(Of(ListenPort))
    else if s == "jmin" then Some(Of(Jmin))
    else if s == "jmax" then Some(Of(Jmax))
    else None
  }

  /** The 3.1 tier, and the lines that the translator adds. */
  function ExtraName(s: string): Option<Name> {
    if s == "header_protection_key" then Some(Of(HeaderProtectionKey))
    else if s == "random_trailers" then Some(Of(RandomTrailers))
    else if s == "content_padding_addition" then Some(Of(ContentPaddingAddition))
    else if s == "fwmark" then Some(Fwmark)
    else if s == "replace_peers" then Some(ReplacePeers)
    else None
  }

  function PeerName(s: string): Option<Name> {
    if s == "public_key" then Some(Of(PublicKey))
    else if s == "preshared_key" then Some(Of(PresharedKey))
    else if s == "endpoint" then Some(Of(Endpoint))
    else if s == "persistent_keepalive_interval" then Some(Of(PersistentKeepalive))
    else if s == "replace_allowed_ips" then Some(ReplaceAllowedIps)
    else if s == "allowed_ip" then Some(AllowedIp)
    else None
  }

  function NameOf(s: string): Option<Name> {
    if |s| == 2 then ShortName(s)
    else if DeviceName(s).Some? then DeviceName(s)
    else if ExtraName(s).Some? then ExtraName(s)
    else PeerName(s)
  }

  /** The names that a translation uses. */
  predicate Usable(n: Name) {
    n.Of? ==> (Known(Interface, n.key) && !Skipped(n.key)) || (PeerKeyed(n.key) && !n.key.AllowedIps?)
  }

  predicate Clean(s: string) {
    forall i :: 0 <= i < |s| ==> s[i] != '=' && s[i] != '\n'
  }

  lemma DeviceNameClean(s: string)
    requires DeviceName(s).Some?
    ensures Clean(s)
  {
  }

  lemma TierNamesClean()
    ensures Clean("header_protection_key") && Clean("random_trailers")
  {
  }

  lemma PaddingNameClean()
    ensures Clean("content_padding_addition")
  {
  }

  lemma KeepaliveNameClean()
    ensures Clean("persistent_keepalive_interval")
  {
  }

  lemma AddedNamesClean()
    ensures Clean("fwmark") && Clean("replace_peers") && Clean("replace_allowed_ips") && Clean("allowed_ip")
  {
  }

  lemma PeerNamesClean()
    ensures Clean("public_key") && Clean("preshared_key") && Clean("endpoint")
  {
  }

  lemma NameClean(s: string)
    requires ExtraName(s).Some? || PeerName(s).Some?
    ensures Clean(s)
  {
    TierNamesClean();
    PaddingNameClean();
    KeepaliveNameClean();
    AddedNamesClean();
    PeerNamesClean();
  }

  predicate Short(n: Name) {
    n.Of? && (n.key.Jc? || n.key.S? || n.key.H? || n.key.I?)
  }

  predicate Extra(n: Name) {
    n.Fwmark? || n.ReplacePeers?
    || (n.Of? && (n.key.HeaderProtectionKey? || n.key.RandomTrailers? || n.key.ContentPaddingAddition?))
  }

  predicate OfPeer(n: Name) {
    n.AllowedIp? || n.ReplaceAllowedIps? || (n.Of? && PeerKeyed(n.key))
  }

  lemma SpellShort(n: Name)
    requires Usable(n) && Short(n)
    ensures NameOf(Spell(n)) == Some(n) && Clean(Spell(n))
  {
  }

  lemma SpellDevice(n: Name)
    requires Usable(n) && !Short(n) && !Extra(n) && !OfPeer(n)
    ensures |Spell(n)| != 2 && DeviceName(Spell(n)) == Some(n)
  {
  }

  lemma SpellExtra(n: Name)
    requires Usable(n) && Extra(n)
    ensures |Spell(n)| != 2 && DeviceName(Spell(n)) == None && ExtraName(Spell(n)) == Some(n)
  {
  }

  lemma SpellPeer(n: Name)
    requires Usable(n) && OfPeer(n)
    ensures |Spell(n)| != 2 && DeviceName(Spell(n)) == None && ExtraName(Spell(n)) == None && PeerName(Spell(n)) == Some(n)
  {
  }

  lemma SpellRoundTrip(n: Name)
    requires Usable(n)
    ensures NameOf(Spell(n)) == Some(n) && Clean(Spell(n))
  {
    if Short(n) {
      SpellShort(n);
    } else if Extra(n) {
      SpellExtra(n);
      NameClean(Spell(n));
    } else if OfPeer(n) {
      SpellPeer(n);
      NameClean(Spell(n));
    } else {
      SpellDevice(n);
      DeviceNameClean(Spell(n));
    }
  }

  function LineText(l: Line): string {
    Spell(l.name) + "=" + l.value
  }

  function Render(lines: seq<Line>): string
    decreases |lines|
  {
    if lines == [] then "" else LineText(lines[0]) + "\n" + Render(lines[1..])
  }

  function ParseLine(s: string): Option<Line> {
    var eq := IndexOf(s, '=');
    if eq == |s| || NameOf(s[..eq]).None? then None else Some(Line(NameOf(s[..eq]).value, s[eq + 1..]))
  }

  function ParseAll(texts: seq<string>): Option<seq<Line>>
    decreases |texts|
  {
    if texts == [] then Some([])
    else
      var l, rest := ParseLine(texts[0]), ParseAll(texts[1..]);
      if l.None? || rest.None? then None else Some([l.value] + rest.value)
  }

  /** What a text makes of a device: every line ended by a newline, read in order. */
  function ReadUapi(before: Device, text: string): Option<Device> {
    if Last(Split(text, '\n')) != "" then None
    else
      var lines := ParseAll(Texts(text));
      if lines.None? then None
      else
        var u := UapiRun(Uapi(before, false), lines.value);
        if u.None? then None else Some(u.value.device)
  }

  predicate Writable(l: Line) {
    Usable(l.name) && '\n' !in l.value
  }

  lemma LineRoundTrip(l: Line)
    requires Writable(l)
    ensures ParseLine(LineText(l)) == Some(l) && '\n' !in LineText(l)
  {
    SpellRoundTrip(l.name);
    IndexOfFirst(Spell(l.name), l.value, '=');
    assert LineText(l) == Spell(l.name) + ['='] + l.value;
    assert LineText(l)[..|Spell(l.name)|] == Spell(l.name);
    assert LineText(l)[|Spell(l.name)| + 1..] == l.value;
  }

  lemma FrontOf<T>(x: T, more: seq<T>)
    requires more != []
    ensures Last([x] + more) == Last(more)
    ensures var front := ([x] + more)[..|more|]; front[0] == x && front[1..] == more[..|more| - 1]
  {
  }

  lemma ParseAllStep(texts: seq<string>, l: Line, rest: seq<Line>)
    requires texts != [] && ParseLine(texts[0]) == Some(l) && ParseAll(texts[1..]) == Some(rest)
    ensures ParseAll(texts) == Some([l] + rest)
  {
  }

  lemma RenderSplit(lines: seq<Line>)
    requires lines != [] && '\n' !in LineText(lines[0])
    ensures Split(Render(lines), '\n') == [LineText(lines[0])] + Split(Render(lines[1..]), '\n')
  {
    SplitFirst(LineText(lines[0]), Render(lines[1..]), '\n');
  }

  predicate AllWritable(lines: seq<Line>) {
    forall i :: 0 <= i < |lines| ==> Writable(lines[i])
  }

  /** Split at the newlines, less the empty text after the last. */
  function Texts(text: string): seq<string> {
    Split(text, '\n')[..|Split(text, '\n')| - 1]
  }

  /** The text says exactly the lines it was written from. */
  lemma {:induction false} TextRoundTrip(lines: seq<Line>)
    requires AllWritable(lines)
    ensures Last(Split(Render(lines), '\n')) == "" && ParseAll(Texts(Render(lines))) == Some(lines)
    decreases |lines|
  {
    if lines != [] {
      var t, rest := LineText(lines[0]), lines[1..];
      assert Writable(lines[0]);
      LineRoundTrip(lines[0]);
      assert AllWritable(rest);
      TextRoundTrip(rest);
      RenderSplit(lines);
      FrontOf(t, Split(Render(rest), '\n'));
      ParseAllStep(Texts(Render(lines)), lines[0], rest);
      assert [lines[0]] + rest == lines;
    }
  }

  // ---- the text means what the INI means -------------------------------------------

  function RecordLines(r: Record): seq<Line> {
    [Line(Of(PublicKey), r.publicKey), Line(ReplaceAllowedIps, "true")] + r.lines
  }

  function AllRecordLines(peers: seq<Record>): seq<Line>
    decreases |peers|
  {
    if peers == [] then [] else RecordLines(peers[0]) + AllRecordLines(peers[1..])
  }

  const MIDDLE := [FWMARK_LINE, Line(ReplacePeers, "true")]

  lemma {:induction false} DevRuns(u: Uapi, dev: seq<Line>)
    requires !u.inPeer && DevOk(dev)
    ensures UapiRun(u, dev) == Some(u.(device := u.device.(settings := u.device.settings + dev)))
    decreases |dev|
  {
    if dev != [] {
      assert DevLine(dev[0]);
      var u1 := u.(device := u.device.(settings := u.device.settings + [dev[0]]));
      DevRuns(u1, dev[1..]);
      assert u.device.settings + [dev[0]] + dev[1..] == u.device.settings + dev;
    } else {
      assert u.device.settings + [] == u.device.settings;
    }
  }

  function WithLast(u: Uapi, p: Peering): Uapi
    requires u.device.peers != []
  {
    u.(device := u.device.(peers := SetLast(u.device.peers, p)))
  }

  lemma PeerLineStep(u: Uapi, l: Line)
    requires u.inPeer && u.device.peers != [] && PeerLine(l)
    ensures var p := Last(u.device.peers);
      UapiStep(u, l) == Some(WithLast(u, if l.name.AllowedIp? then p.(allowed := p.allowed + [l.value])
                                         else p.(attrs := p.attrs + [l])))
  {
  }

  lemma SetLastTwice(u: Uapi, p: Peering, q: Peering)
    requires u.device.peers != []
    ensures WithLast(WithLast(u, p), q) == WithLast(u, q)
    ensures WithLast(u, Last(u.device.peers)) == u
  {
  }

  lemma {:induction false} PeerLinesRun(u: Uapi, lines: seq<Line>)
    requires u.inPeer && u.device.peers != [] && forall i :: 0 <= i < |lines| ==> PeerLine(lines[i])
    ensures var p := Last(u.device.peers);
      UapiRun(u, lines) == Some(WithLast(u, p.(attrs := p.attrs + AttrsOf(lines), allowed := p.allowed + AllowedOf(lines))))
    decreases |lines|
  {
    var p := Last(u.device.peers);
    if lines == [] {
      assert p.attrs + [] == p.attrs && p.allowed + [] == p.allowed;
      SetLastTwice(u, p, p);
    } else {
      var l, rest := lines[0], lines[1..];
      var p1 := if l.name.AllowedIp? then p.(allowed := p.allowed + [l.value]) else p.(attrs := p.attrs + [l]);
      var u1 := WithLast(u, p1);
      PeerLineStep(u, l);
      PeerLinesRun(u1, rest);
      var a, b := if l.name.AllowedIp? then [] else [l], if l.name.AllowedIp? then [l.value] else [];
      assert p1.attrs == p.attrs + a && p1.allowed == p.allowed + b;
      Associate(p.attrs, a, AttrsOf(rest));
      Associate(p.allowed, b, AllowedOf(rest));
      SetLastTwice(u, p1, p.(attrs := p.attrs + AttrsOf(lines), allowed := p.allowed + AllowedOf(lines)));
    }
  }

  lemma TwoLinesRun(u: Uapi, a: Line, b: Line)
    requires UapiStep(u, a).Some?
    ensures UapiRun(u, [a, b]) == UapiStep(UapiStep(u, a).value, b)
  {
    var u1 := UapiStep(u, a).value;
    assert [a, b][1..] == [b] && [b][1..] == [];
    assert UapiRun(u, [a, b]) == UapiRun(u1, [b]);
  }

  lemma RecordRuns(u: Uapi, r: Record)
    requires RecordOk(r)
    ensures UapiRun(u, RecordLines(r)) == Some(Uapi(u.device.(peers := u.device.peers + [PeeringOf(r)]), true))
  {
    var front := [Line(Of(PublicKey), r.publicKey), Line(ReplaceAllowedIps, "true")];
    var u1 := Uapi(u.device.(peers := u.device.peers + [Peering(r.publicKey, [], [])]), true);
    TwoLinesRun(u, front[0], front[1]);
    SetLastTwice(u1, Last(u1.device.peers), Last(u1.device.peers));
    assert UapiRun(u, front) == Some(u1);
    UapiAppend(u, front, r.lines);
    PeerLinesRun(u1, r.lines);
    assert [] + AttrsOf(r.lines) == AttrsOf(r.lines) && [] + AllowedOf(r.lines) == AllowedOf(r.lines);
    assert SetLast(u1.device.peers, PeeringOf(r)) == u.device.peers + [PeeringOf(r)];
  }

  /** The records, one after another, are the peers they stand for. */
  lemma {:induction false} RecordsRun(u: Uapi, peers: seq<Record>, meant: seq<Peering>)
    requires RecordsOk(peers) && |peers| == |meant| && forall i :: 0 <= i < |peers| ==> PeeringOf(peers[i]) == meant[i]
    ensures var end := UapiRun(u, AllRecordLines(peers));
      end.Some? && end.value.device == u.device.(peers := u.device.peers + meant)
    decreases |peers|
  {
    if peers == [] {
      assert u.device.peers + meant == u.device.peers;
    } else {
      UapiAppend(u, RecordLines(peers[0]), AllRecordLines(peers[1..]));
      RecordRuns(u, peers[0]);
      var u1 := Uapi(u.device.(peers := u.device.peers + [PeeringOf(peers[0])]), true);
      RecordsRun(u1, peers[1..], meant[1..]);
      assert u.device.peers + [meant[0]] + meant[1..] == u.device.peers + meant;
    }
  }

  /** New settings over the old ones, and none of the old peers. */
  function Reconfigured(before: Device, d: Device): Device {
    Device(before.settings + d.settings, d.peers)
  }

  lemma LinesMean(before: Device, dev: seq<Line>, peers: seq<Record>, meant: seq<Peering>)
    requires DevOk(dev) && RecordsOk(peers)
    requires |peers| == |meant| && forall i :: 0 <= i < |peers| ==> PeeringOf(peers[i]) == meant[i]
    ensures var end := UapiRun(Uapi(before, false), dev + MIDDLE + AllRecordLines(peers));
      end.Some? && end.value.device == Reconfigured(before, Device(dev + [FWMARK_LINE], meant))
  {
    var u, own := Uapi(before, false), before.settings + dev;
    UapiAppend(u, dev + MIDDLE, AllRecordLines(peers));
    UapiAppend(u, dev, MIDDLE);
    DevRuns(u, dev);
    TwoLinesRun(Uapi(Device(own, before.peers), false), MIDDLE[0], MIDDLE[1]);
    RecordsRun(Uapi(Device(own + [FWMARK_LINE], []), false), peers, meant);
    assert [] + meant == meant && before.settings + (dev + [FWMARK_LINE]) == own + [FWMARK_LINE];
  }

  lemma TextMeans(before: Device, dev: seq<Line>, peers: seq<Record>, meant: seq<Peering>)
    requires DevOk(dev) && RecordsOk(peers)
    requires |peers| == |meant| && forall i :: 0 <= i < |peers| ==> PeeringOf(peers[i]) == meant[i]
    ensures ReadUapi(before, Render(dev + MIDDLE + AllRecordLines(peers)))
         == Some(Reconfigured(before, Device(dev + [FWMARK_LINE], meant)))
  {
    LinesMean(before, dev, peers, meant);
    RecordsWritable(peers);
    DevWritable(dev);
    TextRoundTrip(dev + MIDDLE + AllRecordLines(peers));
  }

  lemma RestOfRecord(r: Record, i: nat)
    requires RecordOk(r) && 2 <= i < |RecordLines(r)|
    ensures RecordLines(r)[i].name != Of(PublicKey)
  {
    assert PeerLine(r.lines[i - 2]);
  }

  /** Each peer's addresses are cleared before they are given. */
  lemma {:induction false} ClearedFirst(peers: seq<Record>, i: nat)
    requires RecordsOk(peers) && i < |AllRecordLines(peers)| && AllRecordLines(peers)[i].name == Of(PublicKey)
    ensures i + 1 < |AllRecordLines(peers)| && AllRecordLines(peers)[i + 1] == Line(ReplaceAllowedIps, "true")
    decreases |peers|
  {
    var r, rest := RecordLines(peers[0]), AllRecordLines(peers[1..]);
    if 2 <= i < |r| {
      RestOfRecord(peers[0], i);
    } else if i >= |r| {
      ClearedFirst(peers[1..], i - |r|);
    }
  }

  lemma DevWritable(dev: seq<Line>)
    requires DevOk(dev)
    ensures AllWritable(dev) && AllWritable(MIDDLE)
  {
    forall i | 0 <= i < |dev| ensures Writable(dev[i]) {
      assert DevLine(dev[i]);
    }
  }

  lemma {:induction false} RecordsWritable(peers: seq<Record>)
    requires RecordsOk(peers)
    ensures AllWritable(AllRecordLines(peers))
    decreases |peers|
  {
    if peers != [] {
      RecordsWritable(peers[1..]);
      assert RecordOk(peers[0]);
      assert AllWritable(RecordLines(peers[0]));
    }
  }

  method Write(lines: seq<Line>) returns (text: string)
    ensures text == Render(lines)
  {
    text := "";
    for i := |lines| downto 0
      invariant text == Render(lines[i..])
    {
      assert lines[i..][0] == lines[i] && lines[i..][1..] == lines[i + 1..];
      text := LineText(lines[i]) + "\n" + text;
    }
  }

  predicate AllNamed(peers: seq<Record>) {
    forall i :: 0 <= i < |peers| ==> peers[i].publicKey != ""
  }

  /** The peers in order; None when one has no public key. */
  method PeerSection(peers: seq<Record>) returns (lines: Option<seq<Line>>)
    ensures lines.Some? <==> AllNamed(peers)
    ensures lines.Some? ==> lines.value == AllRecordLines(peers)
  {
    var out := [];
    for i := 0 to |peers|
      invariant forall j :: 0 <= j < i ==> peers[j].publicKey != ""
      invariant AllRecordLines(peers) == out + AllRecordLines(peers[i..])
    {
      if peers[i].publicKey == "" {
        return None;
      }
      assert peers[i..][0] == peers[i] && peers[i..][1..] == peers[i + 1..];
      Associate(out, RecordLines(peers[i]), AllRecordLines(peers[i + 1..]));
      out := out + RecordLines(peers[i]);
    }
    lines := Some(out);
  }

  /** Whatever the device was, the text makes it this one: settings added, peers replaced. */
  ghost predicate Configures(text: string, d: Device) {
    forall before: Device :: ReadUapi(before, text) == Some(Reconfigured(before, d))
  }

  /** A file read to its end: what it describes, and what its text will say. */
  lemma FileDescribed(ini: string, dev: seq<Line>, peers: seq<Record>, section: Option<Section>, sawKey: bool)
    requires MeantBy(NOTHING, Items(ini)).Some?
    requires Holds(MeantBy(NOTHING, Items(ini)).value, dev, peers, section, sawKey)
    requires DevOk(dev) && RecordsOk(peers)
    ensures Described(ini).Some? <==> sawKey && AllNamed(peers)
    ensures Described(ini).Some? ==> Configures(Render(dev + MIDDLE + AllRecordLines(peers)), Described(ini).value)
  {
    var device := MeantBy(NOTHING, Items(ini)).value.device;
    assert forall i :: 0 <= i < |peers| ==> peers[i].publicKey == device.peers[i].publicKey;
    assert AllNamed(peers) <==> PeersNamed(device);
    if sawKey && AllNamed(peers) {
      forall before: Device
        ensures ReadUapi(before, Render(dev + MIDDLE + AllRecordLines(peers)))
             == Some(Reconfigured(before, Device(dev + [FWMARK_LINE], device.peers)))
      {
        TextMeans(before, dev, peers, device.peers);
      }
    }
  }

  /**
   The compiler is correct: it succeeds exactly on the INIs that describe a device, and its text
   makes any device that one.
   */
  method ToUAPI(ini: string) returns (text: Option<string>)
    ensures text.Some? <==> Described(ini).Some?
    ensures text.Some? ==> Configures(text.value, Described(ini).value)
  {
    var ok, dev, peers, sawKey, section := ReadIni(ini);
    if !ok {
      return None;
    }
    FileDescribed(ini, dev, peers, section, sawKey);
    if !sawKey {
      return None;
    }
    var lines := PeerSection(peers);
    if lines.None? {
      return None;
    }
    var out := Write(dev + MIDDLE + lines.value);
    text := Some(out);
  }
}
