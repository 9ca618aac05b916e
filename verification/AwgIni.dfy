/**
 The AmneziaWG INI as its readers see it: the allow-list guard of daemon/internal/guard/guard.go,
 and the line reading that ToUAPI (daemon/internal/amneziawg/amneziawg.go) and parseAwgDirectives
 (daemon/internal/ops/amneziawg.go) share. The last part says when they read a line alike.
 */
module AwgIni {
  import opened Common
  import opened Text

  // ---- keys ------------------------------------------------------------------------

  datatype Section = Interface | Peer

  datatype Key =
    | PrivateKey | Address | Dns | Mtu | Table | ListenPort | Jc | Jmin | Jmax
    | S(n: nat) | H(n: nat) | I(n: nat)
    | HeaderProtectionKey | RandomTrailers | ContentPaddingAddition
    | PublicKey | PresharedKey | AllowedIps | Endpoint | PersistentKeepalive

  /** unicode.ToLower, for the characters whose lower case is ASCII. */
  function LowerChar(c: char): char {
    if 'A' <= c <= 'Z' then (c as int + 32) as char
    else if c == 0x212A as char then 'k'
    else if c == 0x130 as char then 'i'
    else c
  }

  function Lower(s: string): (r: string)
    ensures |r| == |s|
  {
    seq(|s|, i requires 0 <= i < |s| => LowerChar(s[i]))
  }

  /** The keys of both protocols. */
  function CommonKey(s: string): Option<Key> {
    if s == "privatekey" then Some(PrivateKey)
    else if s == "address" then Some(Address)
    else if s == "dns" then Some(Dns)
    else if s == "mtu" then Some(Mtu)
    else if s == "table" then Some(Table)
    else if s == "listenport" then Some(ListenPort)
    else None
  }

  function PeerKey(s: string): Option<Key> {
    if s == "publickey" then Some(PublicKey)
    else if s == "presharedkey" then Some(PresharedKey)
    else if s == "allowedips" then Some(AllowedIps)
    else if s == "endpoint" then Some(Endpoint)
    else if s == "persistentkeepalive" then Some(PersistentKeepalive)
    else None
  }

  /** The 3.1 tier. */
  function TierKey(s: string): Option<Key> {
    if s == "headerprotectionkey" then Some(HeaderProtectionKey)
    else if s == "randomtrailers" then Some(RandomTrailers)
    else if s == "contentpaddingaddition" then Some(ContentPaddingAddition)
    else None
  }

  /** AmneziaWG's own. */
  function ObfuscationKey(s: string): Option<Key> {
    if |s| == 2 && s[0] == 's' && '1' <= s[1] <= '4' then Some(S(s[1] as int - '0' as int))
    else if |s| == 2 && s[0] == 'h' && '1' <= s[1] <= '4' then Some(H(s[1] as int - '0' as int))
    else if |s| == 2 && s[0] == 'i' && '1' <= s[1] <= '5' then Some(I(s[1] as int - '0' as int))
    else if s == "jc" then Some(Jc)
    else if s == "jmin" then Some(Jmin)
    else if s == "jmax" then Some(Jmax)
    else TierKey(s)
  }

  function KeyOf(s: string): Option<Key> {
    if CommonKey(s).Some? then CommonKey(s) else if PeerKey(s).Some? then PeerKey(s) else ObfuscationKey(s)
  }

  // ---- reading a line --------------------------------------------------------------

  datatype Item = Blank | Header(section: Option<Section>) | Assign(key: Option<Key>, value: string) | Junk

  /** `key = value`, cut at the first '='. */
  function ReadAssign(text: string): Item {
    var eq := IndexOf(text, '=');
    if eq == |text| then Junk
    else Assign(KeyOf(Lower(Trim(text[..eq]))), Trim(text[eq + 1..]))
  }

  /** Trim, then cut a comment that starts anywhere, then trim again. */
  function Strip(raw: string): string {
    var text := Trim(raw);
    var hash := IndexOf(text, '#');
    if hash < |text| then Trim(text[..hash]) else text
  }

  function Bracket(name: string): string {
    "[" + name + "]"
  }

  /** How the translator and the extractor read a line. */
  function Read(raw: string): Item {
    var text := Strip(raw);
    if text == "" then Blank
    else if text[0] == '[' then
      Header(if Lower(text) == Bracket("interface") then Some(Interface)
             else if Lower(text) == Bracket("peer") then Some(Peer) else None)
    else ReadAssign(text)
  }

  predicate IsComment(line: string) {
    line == "" || line[0] == '#' || line[0] == ';'
  }

  predicate Bracketed(line: string) {
    |line| >= 3 && line[0] == '[' && line[|line| - 1] == ']'
  }

  /** How the guard reads it: comments take whole lines, and a section name may have blanks. */
  function GuardRead(raw: string): Item {
    var line := Trim(raw);
    if IsComment(line) then Blank
    else if Bracketed(line) then
      var name := Lower(Trim(line[1..|line| - 1]));
      Header(if name == "interface" then Some(Interface) else if name == "peer" then Some(Peer) else None)
    else ReadAssign(line)
  }

  // ---- value shapes ----------------------------------------------------------------

  predicate Alnum(c: char) {
    'A' <= c <= 'Z' || 'a' <= c <= 'z' || IsDigit(c)
  }

  predicate Base64Char(c: char) {
    Alnum(c) || c == '+' || c == '/'
  }

  predicate HostChar(c: char) {
    Alnum(c) || c == '.' || c == ':' || c == '_' || c == '-'
  }

  predicate HexChar(c: char) {
    IsDigit(c) || 'a' <= c <= 'f' || 'A' <= c <= 'F'
  }

  predicate Uint(v: string, most: nat) {
    Digits(v) && |v| <= most
  }

  predicate Padded(v: string, pad: nat) {
    pad < |v|
    && (forall i :: 0 <= i < |v| - pad ==> Base64Char(v[i]))
    && (forall i :: |v| - pad <= i < |v| ==> v[i] == '=')
  }

  /** Base64 characters and up to two '='. */
  predicate KeyShape(v: string) {
    Padded(v, 0) || Padded(v, 1) || Padded(v, 2)
  }

  /** What base64.StdEncoding decodes to 32 bytes: 43 characters and one '='. */
  predicate Key32(v: string) {
    |v| == 44 && v[43] == '=' && forall i :: 0 <= i < 43 ==> Base64Char(v[i])
  }

  /** An optional '[', host characters, an optional ']'. */
  predicate HostShape(h: string) {
    var a := if h != "" && h[0] == '[' then 1 else 0;
    var b := if |h| > a && h[|h| - 1] == ']' then |h| - 1 else |h|;
    a < b && forall i :: a <= i < b ==> HostChar(h[i])
  }

  predicate EndpointShape(v: string) {
    exists i :: 0 <= i < |v| && v[i] == ':' && HostShape(v[..i]) && Uint(v[i + 1..], 5)
  }

  predicate CidrShape(v: string) {
    HostShape(v) || exists i :: 0 <= i < |v| && v[i] == '/' && HostShape(v[..i]) && Uint(v[i + 1..], 3)
  }

  predicate ListShape(v: string) {
    var items := Split(v, ',');
    forall i :: 0 <= i < |items| ==> Trim(items[i]) == "" || CidrShape(Trim(items[i]))
  }

  predicate RangeShape(v: string) {
    Uint(v, 5) || exists i :: 0 <= i < |v| && v[i] == '-' && Uint(v[..i], 5) && Uint(v[i + 1..], 5)
  }

  /** Hex digits from an index to the closing '>'. */
  predicate HexUpTo(v: string, lo: nat) {
    lo + 1 < |v| && v[|v| - 1] == '>' && forall i :: lo <= i < |v| - 1 ==> HexChar(v[i])
  }

  /** One to five digits from an index to the closing '>'. */
  predicate CountUpTo(v: string, lo: nat) {
    lo + 1 < |v| <= lo + 6 && v[|v| - 1] == '>' && forall i :: lo <= i < |v| - 1 ==> IsDigit(v[i])
  }

  /** One tag of a signature packet: <b 0xHEX>, <r N>, <rd N>, <rc N> or <t>. */
  predicate Tag(v: string) {
    |v| >= 3 && v[0] == '<'
    && (|| (|v| == 3 && v[1] == 't' && v[2] == '>')
        || (|v| > 5 && v[1] == 'b' && v[2] == ' ' && v[3] == '0' && v[4] == 'x' && HexUpTo(v, 5))
        || (v[1] == 'r' && v[2] == ' ' && CountUpTo(v, 3))
        || (|v| > 4 && v[1] == 'r' && (v[2] == 'd' || v[2] == 'c') && v[3] == ' ' && CountUpTo(v, 4)))
  }

  /** One tag or more; a tag ends at its first '>'. */
  predicate Tags(v: string)
    decreases |v|
  {
    var k := IndexOf(v, '>') + 1;
    k <= |v| && Tag(v[..k]) && (k == |v| || Tags(v[k..]))
  }

  const I_MAX_LENGTH: nat := 4096

  predicate Allowed(s: Section, k: Key) {
    if s.Interface? then
      !k.Table? && !k.PublicKey? && !k.PresharedKey? && !k.AllowedIps? && !k.Endpoint? && !k.PersistentKeepalive?
    else k.PublicKey? || k.PresharedKey? || k.AllowedIps? || k.Endpoint? || k.PersistentKeepalive?
  }

  predicate ValueOk(k: Key, v: string) {
    match k
    case Jc | Jmin | Jmax | S(_) => Uint(v, 5) && Num(v) <= 65535
    case H(_) => Uint(v, 10) && Num(v) <= 4294967295
    case I(_) => |v| <= I_MAX_LENGTH && Tags(v)
    case HeaderProtectionKey => KeyShape(v) && Key32(v)
    case RandomTrailers => v == "on" || v == "off"
    case ContentPaddingAddition => RangeShape(v)
    case Mtu | ListenPort | PersistentKeepalive => Uint(v, 7)
    case PrivateKey | PublicKey | PresharedKey => KeyShape(v)
    case Endpoint => EndpointShape(v)
    case Address | AllowedIps | Dns => ListShape(v)
    case Table => true
  }

  // ---- the guard -------------------------------------------------------------------

  predicate KeyAccepted(section: Option<Section>, key: Option<Key>, value: string) {
    section.Some? && key.Some? && Allowed(section.value, key.value) && ValueOk(key.value, value)
  }

  /** An item in its section: refused, or the section after it. */
  function GuardItem(section: Option<Section>, item: Item): Option<Option<Section>> {
    match item
    case Blank => Some(section)
    case Header(s) => if s.Some? then Some(s) else None
    case Junk => None
    case Assign(key, value) => if KeyAccepted(section, key, value) then Some(section) else None
  }

  predicate Accepts(items: seq<Item>, section: Option<Section>)
    decreases |items|
  {
    items == [] || (var s := GuardItem(section, items[0]); s.Some? && Accepts(items[1..], s.value))
  }

  function GuardItems(config: string): seq<Item> {
    var lines := Split(config, '\n');
    seq(|lines|, i requires 0 <= i < |lines| => GuardRead(lines[i]))
  }

  /** assertIni for AmneziaWG. */
  method AssertAmneziaWgConfig(config: string) returns (ok: bool)
    ensures ok <==> Accepts(GuardItems(config), None)
  {
    var lines := Split(config, '\n');
    var section: Option<Section> := None;
    ghost var items := GuardItems(config);
    for i := 0 to |lines|
      invariant Accepts(items, None) <==> Accepts(items[i..], section)
    {
      var item := GuardRead(lines[i]);
      assert items[i..][0] == item && items[i..][1..] == items[i + 1..];
      if item.Header? {
        if item.section.None? {
          return false;
        }
        section := item.section;
      } else if item.Junk? {
        return false;
      } else if item.Assign? {
        if !KeyAccepted(section, item.key, item.value) {
          return false;
        }
      }
    }
    ok := true;
  }

  // ---- the readers agree -----------------------------------------------------------

  /** No '#': then nothing is cut from it. */
  predicate NoHash(s: string) {
    '#' !in s
  }

  lemma {:induction false} TrimKeeps(s: string, c: char)
    requires c in s && !IsSpace(c)
    ensures c in Trim(s)
  {
    TrimLeftKeeps(s, c);
    TrimRightKeeps(TrimLeft(s), c);
  }

  lemma {:induction false} TrimLeftKeeps(s: string, c: char)
    requires c in s && !IsSpace(c)
    ensures c in TrimLeft(s)
    decreases |s|
  {
    if IsSpace(s[0]) {
      assert s == [s[0]] + s[1..];
      TrimLeftKeeps(s[1..], c);
    }
  }

  lemma {:induction false} TrimRightKeeps(s: string, c: char)
    requires c in s && !IsSpace(c)
    ensures c in TrimRight(s)
    decreases |s|
  {
    if IsSpace(s[|s| - 1]) {
      assert s == s[..|s| - 1] + [s[|s| - 1]];
      TrimRightKeeps(s[..|s| - 1], c);
    }
  }

  /** The characters of a signature packet. */
  predicate TagChars(v: string) {
    forall i :: 0 <= i < |v| ==> Alnum(v[i]) || v[i] == '<' || v[i] == '>' || v[i] == ' '
  }

  lemma {:induction false} TagsChars(v: string)
    requires Tags(v)
    ensures TagChars(v) && v[0] == '<' && v[|v| - 1] == '>'
    decreases |v|
  {
    var k := IndexOf(v, '>') + 1;
    TagHasChars(v[..k]);
    if k < |v| {
      TagsChars(v[k..]);
    }
    assert v == v[..k] + v[k..];
  }

  lemma TagHasChars(v: string)
    requires Tag(v)
    ensures TagChars(v) && v[0] == '<' && v[|v| - 1] == '>'
  {
  }

  /** A character that no value may hold, but for blanks in a list. */
  predicate Alien(c: char) {
    !Alnum(c) && c != '+' && c != '/' && c != '=' && c != '.' && c != ':' && c != '_' && c != '-'
    && c != '<' && c != '>' && c != '[' && c != ']' && c != ',' && c != ' '
  }

  lemma HostWithout(h: string, c: char)
    requires HostShape(h) && Alien(c)
    ensures c !in h
  {
  }

  lemma CidrWithout(v: string, c: char)
    requires CidrShape(v) && Alien(c)
    ensures c !in v
  {
    if HostShape(v) {
      HostWithout(v, c);
    } else {
      var i :| 0 <= i < |v| && v[i] == '/' && HostShape(v[..i]) && Uint(v[i + 1..], 3);
      HostWithout(v[..i], c);
      SplicedWithout(v, i, c);
    }
  }

  lemma SplicedWithout(v: string, i: nat, c: char)
    requires i < |v| && v[i] != c && c !in v[..i] && c !in v[i + 1..]
    ensures c !in v
  {
    assert v == v[..i] + [v[i]] + v[i + 1..];
  }

  lemma ListWithout(v: string, c: char)
    requires ListShape(v) && Alien(c) && !IsSpace(c)
    ensures c !in v
  {
    var items := Split(v, ',');
    JoinSplit(v, ',');
    forall i | 0 <= i < |items| ensures c !in items[i] {
      if c in items[i] {
        TrimKeeps(items[i], c);
        CidrWithout(Trim(items[i]), c);
      }
    }
    JoinWithout(items, c);
  }

  lemma {:induction false} JoinWithout(items: seq<string>, c: char)
    requires c != ',' && forall i :: 0 <= i < |items| ==> c !in items[i]
    ensures c !in Join(items, ',')
    decreases |items|
  {
    if |items| > 1 {
      JoinWithout(items[1..], c);
    }
  }

  predicate HoldsList(k: Key) {
    k.Address? || k.AllowedIps? || k.Dns?
  }

  lemma ScalarWithout(k: Key, v: string, c: char)
    requires !k.Table? && !HoldsList(k) && ValueOk(k, v) && Alien(c)
    ensures c !in v
  {
    match k {
      case I(_) => TagsChars(v);
      case Endpoint =>
        var i :| 0 <= i < |v| && v[i] == ':' && HostShape(v[..i]) && Uint(v[i + 1..], 5);
        HostWithout(v[..i], c);
        SplicedWithout(v, i, c);
      case ContentPaddingAddition =>
        if !Uint(v, 5) {
          var i :| 0 <= i < |v| && v[i] == '-' && Uint(v[..i], 5) && Uint(v[i + 1..], 5);
          SplicedWithout(v, i, c);
        }
      case _ =>
    }
  }

  lemma ValueWithout(k: Key, v: string, c: char)
    requires !k.Table? && ValueOk(k, v) && Alien(c) && !IsSpace(c)
    ensures c !in v
  {
    if HoldsList(k) {
      ListWithout(v, c);
    } else {
      ScalarWithout(k, v, c);
    }
  }

  predicate LettersAndDigits(s: string) {
    s != "" && forall i :: 0 <= i < |s| ==> 'a' <= s[i] <= 'z' || IsDigit(s[i])
  }

  lemma CommonKeyPlain(s: string)
    requires CommonKey(s).Some?
    ensures LettersAndDigits(s)
  {
  }

  lemma PeerKeyPlain(s: string)
    requires PeerKey(s).Some?
    ensures LettersAndDigits(s)
  {
  }

  lemma TierKeyPlain(s: string)
    requires TierKey(s).Some?
    ensures LettersAndDigits(s)
  {
  }

  lemma ObfuscationKeyPlain(s: string)
    requires ObfuscationKey(s).Some?
    ensures LettersAndDigits(s)
  {
    if TierKey(s).Some? {
      TierKeyPlain(s);
    }
  }

  /** A known key is made of letters and digits. */
  lemma KeyPlain(s: string)
    requires KeyOf(s).Some?
    ensures LettersAndDigits(s)
  {
    if CommonKey(s).Some? {
      CommonKeyPlain(s);
    } else if PeerKey(s).Some? {
      PeerKeyPlain(s);
    } else {
      ObfuscationKeyPlain(s);
    }
  }

  lemma LowerWithout(k: string, c: char)
    requires LettersAndDigits(Lower(k)) && !Alnum(c) && LowerChar(c) == c
    ensures k != "" && c !in k
  {
    forall i | 0 <= i < |k| ensures k[i] != c {
      assert Lower(k)[i] == LowerChar(k[i]);
    }
  }

  /** A text that is read as a known key holds nothing but letters, digits and blanks. */
  lemma KeyWithout(text: string, c: char)
    requires KeyOf(Lower(Trim(text))).Some? && !Alnum(c) && !IsSpace(c) && LowerChar(c) == c
    ensures text != "" && c !in text
  {
    KeyPlain(Lower(Trim(text)));
    LowerWithout(Trim(text), c);
    if c in text {
      TrimKeeps(text, c);
    }
  }

  lemma KeyTextPlain(text: string)
    requires KeyOf(Lower(Trim(text))).Some?
    ensures NoHash(text) && text != "" && text[0] != '['
  {
    KeyWithout(text, '#');
    KeyWithout(text, '[');
  }

  lemma AcceptedValue(section: Option<Section>, key: Option<Key>, value: string)
    requires KeyAccepted(section, key, value)
    ensures NoHash(value)
  {
    ValueWithout(key.value, value, '#');
  }

  lemma TrimmedNoHash(s: string)
    requires NoHash(Trim(s))
    ensures NoHash(s)
  {
    if '#' in s {
      TrimKeeps(s, '#');
    }
  }

  lemma CutNoHash(line: string, eq: nat)
    requires 0 < eq < |line| && line[eq] == '=' && line[0] != '['
    requires NoHash(line[..eq]) && NoHash(line[eq + 1..])
    ensures NoHash(line) && line != "" && line[0] != '['
  {
    SplicedWithout(line, eq, '#');
  }

  lemma KeyTextOf(line: string, eq: nat)
    requires eq <= |line| && KeyOf(Lower(Trim(line[..eq]))).Some?
    ensures NoHash(line[..eq]) && eq > 0 && line[0] != '['
  {
    KeyTextPlain(line[..eq]);
  }

  lemma AssignNoHash(line: string)
    requires ReadAssign(line).Assign? && ReadAssign(line).key.Some? && NoHash(ReadAssign(line).value)
    ensures NoHash(line) && line != "" && line[0] != '['
  {
    var eq := IndexOf(line, '=');
    IndexOfIs(line, '=');
    KeyTextOf(line, eq);
    TrimmedNoHash(line[eq + 1..]);
    CutNoHash(line, eq);
  }

  /** A line that the guard takes as key and value holds no comment to cut. */
  lemma AcceptedAssign(section: Option<Section>, line: string)
    requires ReadAssign(line).Assign? && KeyAccepted(section, ReadAssign(line).key, ReadAssign(line).value)
    ensures NoHash(line) && line != "" && line[0] != '['
  {
    AcceptedValue(section, ReadAssign(line).key, ReadAssign(line).value);
    AssignNoHash(line);
  }

  lemma StripPlain(raw: string)
    requires NoHash(Trim(raw))
    ensures Strip(raw) == Trim(raw)
  {
    IndexOfIs(Trim(raw), '#');
  }

  lemma TrimHead(s: string)
    requires s != "" && !IsSpace(s[0])
    ensures Trim(s) != "" && Trim(s)[0] == s[0]
  {
    assert TrimLeft(s) == s;
    TrimRightIs(s);
    TrimKeeps(s, s[0]);
  }

  predicate ExactHeader(line: string) {
    Lower(line) == Bracket("interface") || Lower(line) == Bracket("peer")
  }

  lemma LettersNoSpace(s: string)
    requires forall i :: 0 <= i < |s| ==> 'a' <= LowerChar(s[i]) <= 'z'
    ensures NoSpace(s) && NoHash(s)
  {
  }

  lemma LowerNoHash(s: string)
    requires Lower(s) == "interface" || Lower(s) == "peer"
    ensures NoHash(s) && NoSpace(s)
  {
    forall i | 0 <= i < |s| ensures 'a' <= LowerChar(s[i]) <= 'z' {
      assert LowerChar(s[i]) == Lower(s)[i];
    }
    LettersNoSpace(s);
  }

  lemma BetweenBrackets(line: string)
    requires Bracketed(line)
    ensures Lower(line) == Bracket(Lower(line[1..|line| - 1]))
    ensures NoHash(line[1..|line| - 1]) ==> NoHash(line)
  {
    assert line == [line[0]] + line[1..|line| - 1] + [line[|line| - 1]];
  }

  lemma InsideOf(a: string, b: string)
    requires Bracket(a) == Bracket(b)
    ensures a == b
  {
    assert a == Bracket(a)[1..|a| + 1];
    assert b == Bracket(b)[1..|b| + 1];
  }

  /** A section name without blanks is its own trim. */
  lemma ExactName(line: string, name: string)
    requires Bracketed(line) && (name == "interface" || name == "peer")
    requires Lower(line) == Bracket(name)
    ensures Lower(Trim(line[1..|line| - 1])) == name
  {
    var inner := line[1..|line| - 1];
    BetweenBrackets(line);
    InsideOf(Lower(inner), name);
    LowerNoHash(inner);
  }

  /** A header that both sides know, read the same. */
  lemma AcceptedHeader(line: string)
    requires Bracketed(line)
    requires var name := Lower(Trim(line[1..|line| - 1])); name == "interface" || name == "peer"
    ensures NoHash(line)
    ensures Lower(line) == Bracket("interface") ==> Lower(Trim(line[1..|line| - 1])) == "interface"
    ensures Lower(line) == Bracket("peer") ==> Lower(Trim(line[1..|line| - 1])) == "peer"
  {
    LowerNoHash(Trim(line[1..|line| - 1]));
    TrimmedNoHash(line[1..|line| - 1]);
    BetweenBrackets(line);
    if Lower(line) == Bracket("interface") {
      ExactName(line, "interface");
    } else if Lower(line) == Bracket("peer") {
      ExactName(line, "peer");
    }
  }

  /**
   The mid-line '#' of the translator and extractor changes nothing that the guard let through.
   On a line that the guard accepts, they read what it read, except for a ';' comment (which
   they do not know) and a section header with blanks inside the brackets.
   */
  lemma ReadersAgreeIff(section: Option<Section>, raw: string)
    requires GuardItem(section, GuardRead(raw)).Some?
    ensures var line := Trim(raw);
      Read(raw) == GuardRead(raw)
      <==> !(line != "" && line[0] == ';') && (Bracketed(line) && line[0] == '[' ==> ExactHeader(line))
  {
    var line := Trim(raw);
    IndexOfIs(line, '#');
    if line != "" {
      if line[0] == '#' {
        assert IndexOf(line, '#') == 0;
        assert line[..0] == "";
      } else if line[0] == ';' {
        var hash := IndexOf(line, '#');
        TrimHead(line[..hash]);
      } else if Bracketed(line) {
        AcceptedHeader(line);
      } else {
        AcceptedAssign(section, line);
      }
    }
  }
}
