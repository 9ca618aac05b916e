/**
 What a built AmneziaWG config amounts to, said without its text: which of a node's answers are
 refused, what the device is told, and what the helper does beside it.
 */
module AwgBuilt {
  import opened Common
  import opened Text
  import opened AwgIni
  import opened AwgUapi
  import opened AwgBuilder
  import opened AwgDirectives
  import opened AwgPatterns

  // ---- which answers are refused ---------------------------------------------------

  /** Base64 of 32 bytes, with its padding or without. */
  ghost predicate KeyText(v: string) {
    Matches([Many(KeyClass, 43, Some(43))] + [Many(Equals, 0, Some(2))], v)
  }

  lemma NodeKeyMeans(v: string)
    ensures NodeKey(v) <==> KeyText(v)
  {
    var body, pad := Many(KeyClass, 43, Some(43)), Many(Equals, 0, Some(2));
    if NodeKey(v) {
      assert Padded(v, |v| - 43);
      OnePiece(pad, v[43..]);
      FirstPiece(body, [pad], v[..43], v[43..]);
      assert v == v[..43] + v[43..];
    }
    if Matches([body] + [pad], v) {
      var x, y := AfterFirst(body, [pad], v);
      OnePiece(pad, y);
      assert Padded(v, |y|);
    }
  }

  predicate Within(n: Option<int>, least: int, most: int) {
    n.Some? && least <= n.value <= most
  }

  /** Plain WireGuard's headers, or four of the node's own that are not among plain WireGuard's. */
  predicate HeadersTellApart(a: int, b: int, c: int, d: int) {
    (a == 0 && b == 0 && c == 0 && d == 0)
    || (4 < a && 4 < b && 4 < c && 4 < d && a != b && a != c && a != d && b != c && b != d && c != d)
  }

  ghost predicate SignaturesFit(i: seq<string>) {
    forall k :: 0 <= k < |i| ==> i[k] == "" || (|i[k]| <= 4096 && Repeats(TAGS, i[k]))
  }

  /** What the 3.1 tier adds: room for a nonce of 12 bytes in every prefix, a key, and an MTU. */
  ghost predicate TierFits(e: Entry)
    requires Shaped(e)
  {
    && KeyText(e.headerProtectionKey) && Within(e.mtu, 1000, 1420)
    && Within(e.s[0], 12, 65535) && Within(e.s[1], 12, 65535) && Within(e.s[2], 12, 65535) && Within(e.s[3], 12, 65535)
  }

  predicate Shaped(e: Entry) {
    |e.s| == 4 && |e.h| == 4 && |e.i| == 5
  }

  predicate PaddingsFit(e: Entry)
    requires Shaped(e)
  {
    && Within(e.s[0], 0, 65535) && Within(e.s[1], 0, 65535) && Within(e.s[2], 0, 65535) && Within(e.s[3], 0, 65535)
    && e.s[1].value - e.s[0].value != 56
  }

  predicate HeadersFit(e: Entry)
    requires Shaped(e)
  {
    && Within(e.h[0], 0, 4294967295) && Within(e.h[1], 0, 4294967295)
    && Within(e.h[2], 0, 4294967295) && Within(e.h[3], 0, 4294967295)
    && HeadersTellApart(e.h[0].value, e.h[1].value, e.h[2].value, e.h[3].value)
  }

  lemma SignaturesMean(i: seq<string>)
    ensures SignaturesFit(i) <==> forall k :: 0 <= k < |i| ==> SignatureOk(i[k])
  {
    forall k | 0 <= k < |i| ensures SignatureOk(i[k]) <==> i[k] == "" || (|i[k]| <= 4096 && Repeats(TAGS, i[k])) {
      TagsMean(i[k]);
    }
  }

  lemma HeadersMean(e: Entry)
    requires Shaped(e)
    ensures HeadersFit(e)
       <==> (&& (forall k :: 0 <= k < 4 ==> InRange(e.h[k], 4294967295))
             && ((forall k :: 0 <= k < 4 ==> e.h[k].value == 0) || (AllDistinct(e.h) && forall k :: 0 <= k < 4 ==> e.h[k].value > 4)))
  {
    if HeadersFit(e) && e.h[0].value != 0 {
      assert AllDistinct(e.h);
    }
    if AllDistinct(e.h) {
      assert e.h[0] != e.h[1] && e.h[0] != e.h[2] && e.h[0] != e.h[3];
      assert e.h[1] != e.h[2] && e.h[1] != e.h[3] && e.h[2] != e.h[3];
    }
  }

  lemma PaddingsMean(e: Entry)
    requires Shaped(e)
    ensures PaddingsFit(e) <==> (forall k :: 0 <= k < 4 ==> InRange(e.s[k], 65535)) && e.s[0].value + 56 != e.s[1].value
  {
  }

  /** The answers that a config is built from. */
  lemma SoundMeans(e: Entry)
    ensures Sound(e) <==>
      (&& Shaped(e) && KeyText(e.publicKey) && Within(e.port, 1, 65535)
       && PaddingsFit(e) && HeadersFit(e) && SignaturesFit(e.i)
       && (e.awgVersion == None || e.awgVersion == Some(2) || (e.awgVersion == Some(3) && TierFits(e))))
  {
    SignaturesMean(e.i);
    NodeKeyMeans(e.publicKey);
    NodeKeyMeans(e.headerProtectionKey);
    if Shaped(e) {
      HeadersMean(e);
      PaddingsMean(e);
    }
  }

  /** randInt, for a draw of the runtime. */
  function RandInt(least: int, most: int, draw: real): int {
    (draw * (most - least + 1) as real).Floor + least
  }

  predicate Draw(r: real) {
    0.0 <= r < 1.0
  }

  lemma DrawnWithin(least: int, most: int, r: real)
    requires least <= most && Draw(r)
    ensures least <= RandInt(least, most, r) <= most
  {
    Scaled(r, (most - least + 1) as real);
  }

  lemma Scaled(r: real, width: real)
    requires Draw(r) && width > 0.0
    ensures 0.0 <= r * width < width
  {
  }

  lemma DrawFor(least: int, most: int, n: int) returns (r: real)
    requires least <= n <= most
    ensures Draw(r) && RandInt(least, most, r) == n
  {
    var width, x := (most - least + 1) as real, (n - least) as real;
    r := x / width;
    Fraction(x, width);
  }

  lemma Fraction(x: real, width: real)
    requires 0.0 <= x < width
    ensures 0.0 <= x / width < 1.0 && x / width * width == x
  {
  }

  /** A draw reaches every number of its range and no other. */
  lemma DrawnIff(least: int, most: int, n: int)
    requires least <= most
    ensures (exists r: real :: Draw(r) && RandInt(least, most, r) == n) <==> least <= n <= most
  {
    if r: real :| Draw(r) && RandInt(least, most, r) == n {
      DrawnWithin(least, most, r);
    }
    if least <= n <= most {
      var r := DrawFor(least, most, n);
    }
  }

  /** The junk that a client may draw; the least junk packet is smaller than the largest. */
  lemma JunkMeans(j: Junk)
    ensures Drawn(j) <==>
      (&& (exists r: real :: Draw(r) && RandInt(3, 10, r) == j.jc)
       && (exists r: real :: Draw(r) && RandInt(64, 256, r) == j.jmin)
       && (exists r: real :: Draw(r) && RandInt(512, 1024, r) == j.jmax))
    ensures Drawn(j) ==> j.jmin < j.jmax
  {
    DrawnIff(3, 10, j.jc);
    DrawnIff(64, 256, j.jmin);
    DrawnIff(512, 1024, j.jmax);
  }

  /** The endpoint is the first address that is not empty. */
  lemma {:induction false} FirstHostMeans(addrs: seq<string>)
    ensures FirstHost(addrs) == "" <==> forall i :: 0 <= i < |addrs| ==> addrs[i] == ""
    ensures FirstHost(addrs) != "" ==>
              exists i :: 0 <= i < |addrs| && addrs[i] == FirstHost(addrs) && forall j :: 0 <= j < i ==> addrs[j] == ""
    decreases |addrs|
  {
    if addrs != [] && addrs[0] == "" {
      FirstHostMeans(addrs[1..]);
      assert forall i :: 1 <= i < |addrs| ==> addrs[i] == addrs[1..][i - 1];
      assert forall i :: 0 <= i < |addrs| - 1 ==> addrs[1..][i] == addrs[i + 1];
    }
  }

  // ---- what the device is told -----------------------------------------------------

  /** One of the pairs of [Interface], and where its value comes from. */
  predicate Wanted(e: Entry, ownAddrs: seq<string>, privateKey: string, j: Junk, k: Key, v: string)
    requires Sound(e)
  {
    match k
    case Address => v == Join(ownAddrs, ',')
    case PrivateKey => v == privateKey
    case Dns => v == Join(["10.8.0.1", "1.0.0.1", "1.1.1.1"], ',')
    case Jc => v == Dec(j.jc)
    case Jmin => v == Dec(j.jmin)
    case Jmax => v == Dec(j.jmax)
    case S(n) => 1 <= n <= 4 && v == Dec(e.s[n - 1].value)
    case H(n) => 1 <= n <= 4 && v == Dec(e.h[n - 1].value)
    case I(n) => 1 <= n <= 5 && v == e.i[n - 1] && v != ""
    case Mtu => e.awgVersion == Some(3) && v == Dec(e.mtu.value)
    case HeaderProtectionKey => e.awgVersion == Some(3) && v == e.headerProtectionKey
    case RandomTrailers => e.awgVersion == Some(3) && v == if e.randomTrailers then "on" else "off"
    case ContentPaddingAddition => e.awgVersion == Some(3) && v == "0-32"
    case _ => false
  }

  lemma {:induction false} SignatureIn(i: seq<string>, n: nat, k: Key, v: string)
    ensures Pair(k, v) in SignaturePairs(i, n) <==> k.I? && n <= k.n < n + |i| && i[k.n - n] == v && v != ""
    decreases |i|
  {
    if i != [] {
      var one, rest := if i[0] == "" then [] else [Pair(I(n), i[0])], SignaturePairs(i[1..], n + 1);
      SignatureIn(i[1..], n + 1, k, v);
      InEither(one, rest, Pair(k, v));
      if k.I? && n < k.n < n + |i| {
        assert i[1..][k.n - (n + 1)] == i[k.n - n];
      }
    }
  }

  lemma InEither(a: seq<Pair>, b: seq<Pair>, p: Pair)
    ensures p in a + b <==> p in a || p in b
  {
  }

  predicate OfBase(ownAddrs: seq<string>, privateKey: string, j: Junk, k: Key, v: string) {
    || (k.Address? && v == Join(ownAddrs, ',')) || (k.PrivateKey? && v == privateKey)
    || (k.Dns? && v == Join(DNS_SERVERS, ',')) || (k.Jc? && v == Dec(j.jc)) || (k.Jmin? && v == Dec(j.jmin))
    || (k.Jmax? && v == Dec(j.jmax))
  }

  lemma BaseIn(ownAddrs: seq<string>, privateKey: string, j: Junk, k: Key, v: string)
    ensures Pair(k, v) in BasePairs(ownAddrs, privateKey, j) <==> OfBase(ownAddrs, privateKey, j, k, v)
  {
  }

  predicate OfShape(e: Entry, k: Key, v: string)
    requires Sound(e)
  {
    || (k.S? && 1 <= k.n <= 4 && v == Dec(e.s[k.n - 1].value))
    || (k.H? && 1 <= k.n <= 4 && v == Dec(e.h[k.n - 1].value))
  }

  lemma ShapeIn(e: Entry, k: Key, v: string)
    requires Sound(e)
    ensures Pair(k, v) in ShapePairs(e) <==> OfShape(e, k, v)
  {
    var shape := ShapePairs(e);
    if (k.S? || k.H?) && 1 <= k.n <= 4 {
      assert k.S? ==> shape[k.n - 1] == Pair(k, Dec(e.s[k.n - 1].value));
      assert k.H? ==> shape[k.n + 3] == Pair(k, Dec(e.h[k.n - 1].value));
    }
  }

  predicate OfTier(e: Entry, k: Key, v: string)
    requires Sound(e)
  {
    e.awgVersion == Some(3)
    && (|| (k.Mtu? && v == Dec(e.mtu.value)) || (k.HeaderProtectionKey? && v == e.headerProtectionKey)
        || (k.RandomTrailers? && v == if e.randomTrailers then "on" else "off")
        || (k.ContentPaddingAddition? && v == "0-32"))
  }

  lemma TierIn(e: Entry, k: Key, v: string)
    requires Sound(e)
    ensures Pair(k, v) in TierPairs(e) <==> OfTier(e, k, v)
  {
  }

  lemma WantedParts(e: Entry, ownAddrs: seq<string>, privateKey: string, j: Junk, k: Key, v: string)
    requires Sound(e)
    ensures Wanted(e, ownAddrs, privateKey, j, k, v)
       <==> (|| OfBase(ownAddrs, privateKey, j, k, v) || OfShape(e, k, v)
             || (k.I? && 1 <= k.n <= 5 && e.i[k.n - 1] == v && v != "") || OfTier(e, k, v))
  {
  }

  lemma InOneOfFour(a: seq<Pair>, b: seq<Pair>, c: seq<Pair>, d: seq<Pair>, p: Pair)
    ensures p in a + b + c + d <==> p in a || p in b || p in c || p in d
  {
  }

  lemma InterfaceParts(e: Entry, ownAddrs: seq<string>, privateKey: string, j: Junk, p: Pair)
    requires Sound(e)
    ensures p in InterfacePairs(e, ownAddrs, privateKey, j)
       <==> p in BasePairs(ownAddrs, privateKey, j) || p in ShapePairs(e) || p in SignaturePairs(e.i, 1) || p in TierPairs(e)
  {
    InOneOfFour(BasePairs(ownAddrs, privateKey, j), ShapePairs(e), SignaturePairs(e.i, 1), TierPairs(e), p);
  }

  lemma PairIn(e: Entry, ownAddrs: seq<string>, privateKey: string, j: Junk, k: Key, v: string)
    requires Sound(e)
    ensures Pair(k, v) in InterfacePairs(e, ownAddrs, privateKey, j) <==> Wanted(e, ownAddrs, privateKey, j, k, v)
  {
    InterfaceParts(e, ownAddrs, privateKey, j, Pair(k, v));
    BaseIn(ownAddrs, privateKey, j, k, v);
    ShapeIn(e, k, v);
    SignatureIn(e.i, 1, k, v);
    TierIn(e, k, v);
    WantedParts(e, ownAddrs, privateKey, j, k, v);
  }

  lemma {:induction false} SettingIn(pairs: seq<Pair>, k: Key, out: string)
    requires AllTranslated(Interface, pairs)
    ensures Line(Of(k), out) in SettingsOf(pairs)
       <==> !Skipped(k) && exists v :: Pair(k, v) in pairs && Convertible(k, v) && Translate(k, v) == out
    decreases |pairs|
  {
    if pairs != [] {
      var p, rest := pairs[0], pairs[1..];
      assert Translated(Interface, p);
      SettingIn(rest, k, out);
      assert forall q :: q in pairs <==> q == p || q in rest;
    }
  }

  /** A setting of the device, and where its value comes from. */
  predicate Told(e: Entry, privateKey: string, j: Junk, k: Key, out: string)
    requires Sound(e) && OwnKeysPadded(e, privateKey)
  {
    match k
    case PrivateKey => out == Hex(privateKey)
    case Jc => out == Dec(j.jc)
    case Jmin => out == Dec(j.jmin)
    case Jmax => out == Dec(j.jmax)
    case S(n) => 1 <= n <= 4 && out == Dec(e.s[n - 1].value)
    case H(n) => 1 <= n <= 4 && out == Dec(e.h[n - 1].value)
    case I(n) => 1 <= n <= 5 && out == e.i[n - 1] && out != ""
    case HeaderProtectionKey => e.awgVersion == Some(3) && out == Hex(e.headerProtectionKey)
    case RandomTrailers => e.awgVersion == Some(3) && out == if e.randomTrailers then "true" else "false"
    case ContentPaddingAddition => e.awgVersion == Some(3) && out == "0-32"
    case _ => false
  }

  lemma TrailersLower()
    ensures Lower("on") == "on" && Lower("off") == "off" && "on" != "off"
  {
  }

  lemma ToldIff(e: Entry, ownAddrs: seq<string>, privateKey: string, j: Junk, k: Key, out: string)
    requires Sound(e) && OwnKeysPadded(e, privateKey)
    requires AllTranslated(Interface, InterfacePairs(e, ownAddrs, privateKey, j))
    ensures Line(Of(k), out) in SettingsOf(InterfacePairs(e, ownAddrs, privateKey, j)) <==> Told(e, privateKey, j, k, out)
  {
    var own := InterfacePairs(e, ownAddrs, privateKey, j);
    SettingIn(own, k, out);
    TrailersLower();
    forall v ensures Pair(k, v) in own <==> Wanted(e, ownAddrs, privateKey, j, k, v) {
      PairIn(e, ownAddrs, privateKey, j, k, v);
    }
    if Told(e, privateKey, j, k, out) {
      var v := WantedValue(e, privateKey, k, out);
      ToldIsWanted(e, ownAddrs, privateKey, j, k, out);
      var i :| 0 <= i < |own| && own[i] == Pair(k, v);
      assert Translated(Interface, own[i]);
    }
  }

  lemma ToldIsWanted(e: Entry, ownAddrs: seq<string>, privateKey: string, j: Junk, k: Key, out: string)
    requires Sound(e) && OwnKeysPadded(e, privateKey) && Told(e, privateKey, j, k, out)
    ensures Wanted(e, ownAddrs, privateKey, j, k, WantedValue(e, privateKey, k, out)) && !Skipped(k)
  {
  }

  /** The text that a setting was made of. */
  function WantedValue(e: Entry, privateKey: string, k: Key, out: string): string {
    match k
    case PrivateKey => privateKey
    case HeaderProtectionKey => e.headerProtectionKey
    case RandomTrailers => if e.randomTrailers then "on" else "off"
    case _ => out
  }

  /**
   The device runs on the node's answer: each parameter reaches it under its own name and with the
   node's value, nothing else does but the mark, and its one peer is the node at its endpoint.
   */
  lemma DeviceIsTheAnswer(e: Entry, host: string, ownAddrs: seq<string>, privateKey: string, j: Junk, k: Key, out: string)
    requires Sound(e) && HostShape(host) && Assignable(ownAddrs) && OwnKeysPadded(e, privateKey) && Drawn(j)
    requires Key32(e.publicKey)
    ensures var text := Join(FileLines(e, host, ownAddrs, privateKey, j), '\n');
      && Described(text).Some?
      && (Line(Of(k), out) in Described(text).value.settings <==> Told(e, privateKey, j, k, out))
      && Line(Fwmark, "51820") in Described(text).value.settings
      && Described(text).value.peers
         == [Peering(Hex(e.publicKey),
                     [Line(Of(Endpoint), host + ":" + Dec(e.port.value)), Line(Of(PersistentKeepalive), "15")],
                     ["0.0.0.0/0", "::/0"])]
  {
    BuiltIsTranslatedIff(e, host, ownAddrs, privateKey, j);
    ToldIff(e, ownAddrs, privateKey, j, k, out);
  }

  // ---- what the helper does --------------------------------------------------------

  function ValuesIn(pairs: seq<Pair>, k: Key): seq<string>
    decreases |pairs|
  {
    if pairs == [] then [] else (if pairs[0].key == k then [pairs[0].value] else []) + ValuesIn(pairs[1..], k)
  }

  lemma {:induction false} ValuesAppend(a: seq<Pair>, b: seq<Pair>, k: Key)
    ensures ValuesIn(a + b, k) == ValuesIn(a, k) + ValuesIn(b, k)
    decreases |a|
  {
    if a == [] {
      assert a + b == b;
    } else {
      assert (a + b)[0] == a[0] && (a + b)[1..] == a[1..] + b;
      ValuesAppend(a[1..], b, k);
      Associate(if a[0].key == k then [a[0].value] else [], ValuesIn(a[1..], k), ValuesIn(b, k));
    }
  }

  lemma {:induction false} NoValue(pairs: seq<Pair>, k: Key)
    requires forall i :: 0 <= i < |pairs| ==> pairs[i].key != k
    ensures ValuesIn(pairs, k) == []
    decreases |pairs|
  {
    if pairs != [] {
      NoValue(pairs[1..], k);
    }
  }

  lemma {:induction false} SignaturesOnly(i: seq<string>, n: nat, k: Key)
    requires !k.I?
    ensures ValuesIn(SignaturePairs(i, n), k) == []
    decreases |i|
  {
    if i != [] {
      SignaturesOnly(i[1..], n + 1, k);
      ValuesAppend(if i[0] == "" then [] else [Pair(I(n), i[0])], SignaturePairs(i[1..], n + 1), k);
      NoValue(if i[0] == "" then [] else [Pair(I(n), i[0])], k);
    }
  }

  /** One pair among others. */
  lemma OneValue(pairs: seq<Pair>, n: nat)
    requires n < |pairs| && forall i :: 0 <= i < |pairs| && i != n ==> pairs[i].key != pairs[n].key
    ensures ValuesIn(pairs, pairs[n].key) == [pairs[n].value]
  {
    assert pairs[..n] + [pairs[n]] + pairs[n + 1..] == pairs;
    Between(pairs[..n], pairs[n], pairs[n + 1..]);
  }

  lemma Between(a: seq<Pair>, p: Pair, b: seq<Pair>)
    requires forall i :: 0 <= i < |a| ==> a[i].key != p.key
    requires forall i :: 0 <= i < |b| ==> b[i].key != p.key
    ensures ValuesIn(a + [p] + b, p.key) == [p.value]
  {
    ValuesAppend(a + [p], b, p.key);
    ValuesAppend(a, [p], p.key);
    NoValue(a, p.key);
    NoValue(b, p.key);
    assert [p][1..] == [];
  }

  lemma ShapeHoldsNone(e: Entry, k: Key)
    requires Sound(e) && !k.S? && !k.H?
    ensures ValuesIn(ShapePairs(e), k) == []
  {
    NoValue(ShapePairs(e), k);
  }

  lemma FirstAndLast(a: seq<Pair>, b: seq<Pair>, c: seq<Pair>, d: seq<Pair>, k: Key)
    requires ValuesIn(b, k) == [] && ValuesIn(c, k) == []
    ensures ValuesIn(a + b + c + d, k) == ValuesIn(a, k) + ValuesIn(d, k)
  {
    ValuesAppend(a + b + c, d, k);
    ValuesAppend(a + b, c, k);
    ValuesAppend(a, b, k);
  }

  lemma InterfaceValues(e: Entry, ownAddrs: seq<string>, privateKey: string, j: Junk, k: Key)
    requires Sound(e) && !k.S? && !k.H? && !k.I?
    ensures ValuesIn(InterfacePairs(e, ownAddrs, privateKey, j), k)
         == ValuesIn(BasePairs(ownAddrs, privateKey, j), k) + ValuesIn(TierPairs(e), k)
  {
    ShapeHoldsNone(e, k);
    SignaturesOnly(e.i, 1, k);
    FirstAndLast(BasePairs(ownAddrs, privateKey, j), ShapePairs(e), SignaturePairs(e.i, 1), TierPairs(e), k);
  }

  lemma SixKeys(pairs: seq<Pair>)
    requires |pairs| == 6 && pairs[0].key == Address && pairs[1].key == PrivateKey && pairs[2].key == Dns
    requires pairs[3].key == Jc && pairs[4].key == Jmin && pairs[5].key == Jmax
    ensures ValuesIn(pairs, Address) == [pairs[0].value] && ValuesIn(pairs, Dns) == [pairs[2].value]
    ensures ValuesIn(pairs, Mtu) == []
  {
    OneValue(pairs, 0);
    OneValue(pairs, 2);
    NoValue(pairs, Mtu);
  }

  lemma BaseValues(ownAddrs: seq<string>, privateKey: string, j: Junk)
    ensures var base := BasePairs(ownAddrs, privateKey, j);
      && ValuesIn(base, Address) == [Join(ownAddrs, ',')]
      && ValuesIn(base, Dns) == [Join(DNS_SERVERS, ',')]
      && ValuesIn(base, Mtu) == []
  {
    SixKeys(BasePairs(ownAddrs, privateKey, j));
  }

  lemma TierValues(e: Entry)
    requires Sound(e)
    ensures ValuesIn(TierPairs(e), Address) == [] && ValuesIn(TierPairs(e), Dns) == []
    ensures ValuesIn(TierPairs(e), Mtu) == if Tier3(e) then [Dec(e.mtu.value)] else []
  {
    NoValue(TierPairs(e), Address);
    NoValue(TierPairs(e), Dns);
    if Tier3(e) {
      OneValue(TierPairs(e), 0);
    }
  }

  lemma PeerValues(e: Entry, host: string)
    requires Sound(e)
    ensures ValuesIn(PeerPairs(e, host), AllowedIps) == [Join(ALL_ROUTES, ',')]
    ensures ValuesIn(PeerPairs(e, host), Endpoint) == [host + [':'] + Dec(e.port.value)]
  {
    OneValue(PeerPairs(e, host), 1);
    OneValue(PeerPairs(e, host), 2);
  }

  lemma ValuesHead(section: Option<Section>, item: Item, rest: seq<Item>, s: Section, k: Key)
    ensures var more := ValuesOf(SectionAfter(section, item), rest, s, k);
      ValuesOf(section, [item] + rest, s, k) == if IsPair(section, item, s, k) then [item.value] + more else more
  {
    assert ([item] + rest)[0] == item && ([item] + rest)[1..] == rest;
    ValuesFirst(section, [item] + rest, s, k);
  }

  lemma {:induction false} ValuesOfPairs(at: Section, pairs: seq<Pair>, rest: seq<Item>, s: Section, k: Key)
    ensures ValuesOf(Some(at), PairItems(pairs) + rest, s, k)
         == (if at == s then ValuesIn(pairs, k) else []) + ValuesOf(Some(at), rest, s, k)
    decreases |pairs|
  {
    if pairs == [] {
      assert PairItems(pairs) + rest == rest;
    } else {
      assert PairItems(pairs) + rest == [PairItem(pairs[0])] + (PairItems(pairs[1..]) + rest);
      ValuesHead(Some(at), PairItem(pairs[0]), PairItems(pairs[1..]) + rest, s, k);
      ValuesOfPairs(at, pairs[1..], rest, s, k);
      if at == s {
        Associate(if pairs[0].key == k then [pairs[0].value] else [], ValuesIn(pairs[1..], k), ValuesOf(Some(at), rest, s, k));
      }
    }
  }

  lemma ValuesOfFile(own: seq<Pair>, peer: seq<Pair>, s: Section, k: Key)
    ensures ValuesOf(None, FileItems(own, peer), s, k) == ValuesIn(if s == Interface then own else peer, k)
  {
    var last := PairItems(peer) + [Blank];
    var mid := [Blank] + ([Header(Some(Peer))] + last);
    FileParts(own, peer);
    ValuesHead(None, Header(Some(Interface)), PairItems(own) + mid, s, k);
    ValuesOfPairs(Interface, own, mid, s, k);
    ValuesHead(Some(Interface), Blank, [Header(Some(Peer))] + last, s, k);
    ValuesHead(Some(Interface), Header(Some(Peer)), last, s, k);
    ValuesOfPairs(Peer, peer, [Blank], s, k);
    ValuesHead(Some(Peer), Blank, [], s, k);
    assert [Blank] + [] == [Blank];
  }

  lemma {:induction false} AllChosen(pieces: seq<string>, pass: string -> bool)
    requires forall i :: 0 <= i < |pieces| ==> pass(pieces[i])
    ensures Chosen(pieces, pass) == pieces
    decreases |pieces|
  {
    if pieces != [] {
      AllChosen(pieces[1..], pass);
    }
  }

  lemma {:induction false} NoneChosen(pieces: seq<string>, pass: string -> bool)
    requires forall i :: 0 <= i < |pieces| ==> !pass(pieces[i])
    ensures Chosen(pieces, pass) == []
    decreases |pieces|
  {
    if pieces != [] {
      NoneChosen(pieces[1..], pass);
    }
  }

  lemma OnePassing(v: string, pass: string -> bool)
    ensures Passing([v], pass) == Chosen(Pieces(v), pass)
  {
    PassingFirst(v, [], pass);
    assert [v] + [] == [v];
  }

  lemma ListPieces(items: seq<string>)
    requires items != [] && AllCidrs(items)
    ensures Pieces(Join(items, ',')) == items && forall i :: 0 <= i < |items| ==> items[i] != ""
  {
    SplitCidrs(items);
    PiecesWhole(Join(items, ','), items);
    assert forall i :: 0 <= i < |items| ==> items[i] in items;
  }

  lemma ServersAreAddresses()
    ensures forall i :: 0 <= i < |DNS_SERVERS| ==> AddressLike(DNS_SERVERS[i])
  {
    assert AddressLike("10.8.0.1") && AddressLike("1.0.0.1") && AddressLike("1.1.1.1");
  }

  /** A host without the brackets around it. */
  function Unbracketed(host: string): string {
    if |host| >= 2 && host[0] == '[' && host[|host| - 1] == ']' then host[1..|host| - 1] else host
  }

  lemma DigitsWithout(port: string)
    requires Digits(port)
    ensures ':' !in port && ']' !in port
  {
  }

  lemma EndpointHostMeans(host: string, port: string)
    requires HostShape(host) && Digits(port)
    ensures EndpointHost(host + [':'] + port) == Unbracketed(host) != ""
  {
    var v, n := host + [':'] + port, |host|;
    DigitsWithout(port);
    assert v[..n] == host && v[n] == ':' && v[n + 1..] == port;
    LastIs(v, ':', n);
    if host[0] == '[' && host[n - 1] == ']' && n >= 2 {
      ClosingAt(host, port);
      assert v[1..n - 1] == host[1..n - 1];
    } else if host[0] == '[' {
      NoClosing(host, port);
    }
  }

  lemma ClosingAt(host: string, port: string)
    requires Digits(port) && |host| >= 2 && host[|host| - 1] == ']'
    ensures LastIndexOf(host + [':'] + port, ']') == |host| - 1
  {
    var v, n := host + [':'] + port, |host|;
    DigitsWithout(port);
    assert v[n..] == [':'] + port;
    LastIs(v, ']', n - 1);
  }

  lemma NoClosing(host: string, port: string)
    requires HostShape(host) && Digits(port) && host[0] == '[' && host[|host| - 1] != ']'
    ensures var v := host + [':'] + port; LastIndexOf(v, ']') == |v|
  {
    DigitsWithout(port);
    assert ']' !in host;
  }

  /** What the helper does for a built config. */
  predicate Carries(d: Directives, e: Entry, host: string, ownAddrs: seq<string>)
    requires Sound(e)
  {
    && d.addresses == ownAddrs
    && d.nameservers == ["10.8.0.1", "1.0.0.1", "1.1.1.1"] && d.searches == []
    && d.mtu == (if e.awgVersion == Some(3) then e.mtu.value else 0)
    && d.endpoint == Unbracketed(host)
    && d.hasV4Default && d.hasV6Default
  }

  lemma ListsCarried(d: Directives, e: Entry, ownAddrs: seq<string>, items: seq<Item>)
    requires Listed(d, items) && Assignable(ownAddrs)
    requires ValuesOf(None, items, Interface, Address) == [Join(ownAddrs, ',')]
    requires ValuesOf(None, items, Interface, Dns) == [Join(DNS_SERVERS, ',')]
    ensures d.addresses == ownAddrs && d.nameservers == DNS_SERVERS && d.searches == []
  {
    ListPieces(ownAddrs);
    FixedLists();
    ListPieces(DNS_SERVERS);
    ServersAreAddresses();
    OnePassing(Join(ownAddrs, ','), Given);
    OnePassing(Join(DNS_SERVERS, ','), AddressLike);
    OnePassing(Join(DNS_SERVERS, ','), DomainLike);
    AllChosen(ownAddrs, Given);
    AllChosen(DNS_SERVERS, AddressLike);
    NoneChosen(DNS_SERVERS, DomainLike);
  }

  lemma RestCarried(d: Directives, e: Entry, host: string, items: seq<Item>)
    requires Settled(d, items) && Sound(e) && HostShape(host)
    requires ValuesOf(None, items, Interface, Mtu) == if Tier3(e) then [Dec(e.mtu.value)] else []
    requires ValuesOf(None, items, Peer, Endpoint) == [host + [':'] + Dec(e.port.value)]
    requires ValuesOf(None, items, Peer, AllowedIps) == [Join(ALL_ROUTES, ',')]
    ensures d.mtu == (if Tier3(e) then e.mtu.value else 0) && d.endpoint == Unbracketed(host) != ""
    ensures d.hasV4Default && d.hasV6Default
  {
    if Tier3(e) {
      NumDec(e.mtu.value);
    }
    EndpointHostMeans(host, Dec(e.port.value));
    RoutesPieces();
    var allowed := [Join(ALL_ROUTES, ',')];
    assert ALL_ROUTES[0] in Pieces(allowed[0]) && ALL_ROUTES[1] in Pieces(allowed[0]);
  }

  lemma FileHolds(e: Entry, host: string, ownAddrs: seq<string>, privateKey: string, j: Junk)
    requires Sound(e)
    ensures var items := FileItems(InterfacePairs(e, ownAddrs, privateKey, j), PeerPairs(e, host));
      && ValuesOf(None, items, Interface, Address) == [Join(ownAddrs, ',')]
      && ValuesOf(None, items, Interface, Dns) == [Join(DNS_SERVERS, ',')]
      && ValuesOf(None, items, Interface, Mtu) == (if Tier3(e) then [Dec(e.mtu.value)] else [])
      && ValuesOf(None, items, Peer, Endpoint) == [host + [':'] + Dec(e.port.value)]
      && ValuesOf(None, items, Peer, AllowedIps) == [Join(ALL_ROUTES, ',')]
  {
    var own, peer := InterfacePairs(e, ownAddrs, privateKey, j), PeerPairs(e, host);
    BaseValues(ownAddrs, privateKey, j);
    TierValues(e);
    PeerValues(e, host);
    InterfaceValues(e, ownAddrs, privateKey, j, Address);
    InterfaceValues(e, ownAddrs, privateKey, j, Dns);
    InterfaceValues(e, ownAddrs, privateKey, j, Mtu);
    ValuesOfFile(own, peer, Interface, Address);
    ValuesOfFile(own, peer, Interface, Dns);
    ValuesOfFile(own, peer, Interface, Mtu);
    ValuesOfFile(own, peer, Peer, Endpoint);
    ValuesOfFile(own, peer, Peer, AllowedIps);
  }

  /**
   Beside the device, the helper finds in a built config the addresses that the node assigned, the
   three resolvers, the tier's MTU, the node's host without its brackets, and both default routes.
   */
  lemma BuiltIsDirected(e: Entry, host: string, ownAddrs: seq<string>, privateKey: string, j: Junk)
    requires Sound(e) && HostShape(host) && Assignable(ownAddrs) && OwnKeysPadded(e, privateKey) && Drawn(j)
    ensures var text := Join(FileLines(e, host, ownAddrs, privateKey, j), '\n');
      Directed(text).Some? && Carries(Directed(text).value, e, host, ownAddrs)
  {
    var own, peer := InterfacePairs(e, ownAddrs, privateKey, j), PeerPairs(e, host);
    var lines := FileLines(e, host, ownAddrs, privateKey, j);
    var items := FileItems(own, peer);
    GoodInterface(e, ownAddrs, privateKey, j);
    GoodIsAll(Interface, own);
    PeerWritten(e, host);
    FileReads(own, peer, lines);
    FileHolds(e, host, ownAddrs, privateKey, j);
    var d := ExtractAll(NO_DIRECTIVES, None, items);
    AllListed(items);
    AllSettled(items);
    ListsCarried(d, e, ownAddrs, items);
    RestCarried(d, e, host, items);
    DirectedIs(Join(lines, '\n'), d);
  }
}
