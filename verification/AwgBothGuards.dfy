/**
 What becomes of a built AmneziaWG file at the two guards: the client's, which sees it first, and
 the helper's, which sees it after the session is paid for.
 */
module AwgBothGuards {
  import opened Common
  import opened Text
  import opened AwgIni
  import opened AwgBuilder
  import opened AwgClientGuard
  import AwgPipeline
  import AwgUapi

  /** The client takes the line of a pair in its section. */
  ghost predicate Taken(s: Section, p: Pair) {
    Written(p) && ClientItem(Some(s), ClientRead(PairLine(p))) == Some(Some(s))
  }

  ghost predicate AllTaken(s: Section, pairs: seq<Pair>) {
    forall i :: 0 <= i < |pairs| ==> Taken(s, pairs[i])
  }

  lemma TakenAppend(s: Section, a: seq<Pair>, b: seq<Pair>)
    requires AllTaken(s, a) && AllTaken(s, b)
    ensures AllTaken(s, a + b)
  {
  }

  predicate Ascii(s: string) {
    forall i :: 0 <= i < |s| ==> 32 < s[i] as int < 127
  }

  lemma AsciiIsShared(s: string)
    requires Ascii(s)
    ensures Shared(s)
  {
  }

  lemma NumberedAscii(k: Key)
    requires BuilderKey(k) && (k.S? || k.H? || k.I?)
    ensures Ascii(IniName(k))
  {
  }

  lemma ShortAscii(k: Key)
    requires k.Jc? || k.Jmin? || k.Jmax? || k.Mtu? || k.Dns? || k.Address? || k.Endpoint?
    ensures Ascii(IniName(k))
  {
  }

  lemma KeyAscii(k: Key)
    requires k.PrivateKey? || k.PublicKey? || k.AllowedIps? || k.RandomTrailers?
    ensures Ascii(IniName(k))
  {
  }

  lemma LongAscii(k: Key)
    requires k.PersistentKeepalive? || k.HeaderProtectionKey? || k.ContentPaddingAddition?
    ensures Ascii(IniName(k))
  {
  }

  /** Names are ASCII. */
  lemma NameShared(k: Key)
    requires BuilderKey(k)
    ensures Shared(IniName(k))
  {
    if k.S? || k.H? || k.I? {
      NumberedAscii(k);
    } else if k.PrivateKey? || k.PublicKey? || k.AllowedIps? || k.RandomTrailers? {
      KeyAscii(k);
    } else if k.PersistentKeepalive? || k.HeaderProtectionKey? || k.ContentPaddingAddition? {
      LongAscii(k);
    } else {
      ShortAscii(k);
    }
    AsciiIsShared(IniName(k));
  }

  lemma BuiltLineShared(name: string, v: string)
    requires Shared(name) && Shared(v)
    ensures Shared(BuiltLine(name, v))
  {
  }

  lemma LineShared(p: Pair)
    requires Written(p) && Shared(p.value)
    ensures Shared(PairLine(p)) && JsTrim(PairLine(p)) == PairLine(p) && !Bracketed(PairLine(p))
    ensures ClientRead(PairLine(p)) == PairItem(p)
  {
    NameShared(p.key);
    WordedName(p.key);
    PairReads(p);
    BuiltLineShared(IniName(p.key), p.value);
    var line := PairLine(p);
    LineClean(line, IniName(p.key), p.value);
    FirstOfWord(IniName(p.key));
    SameRead(line);
  }

  lemma FirstOfWord(s: string)
    requires Worded(s)
    ensures s[0] != '['
  {
    assert s[0] !in "=#[;\n";
  }

  /** What the helper admits, the client takes, where no list holds a foreign blank. */
  lemma AdmittedTaken(s: Section, p: Pair)
    requires Written(p) && Admitted(s, p) && (HoldsList(p.key) ==> Shared(p.value))
    ensures Taken(s, p)
  {
    if !HoldsList(p.key) {
      ScalarWithout(p.key, p.value, NEL);
      ScalarWithout(p.key, p.value, BOM);
      ScalarWithout(p.key, p.value, DOTTED_I);
    }
    LineShared(p);
    SameValue(p.key, p.value);
  }

  lemma ListShared(items: seq<string>)
    requires AllCidrs(items)
    ensures Shared(Join(items, ','))
  {
    forall i | 0 <= i < |items| ensures Shared(items[i]) {
      CidrWithout(items[i], NEL);
      CidrWithout(items[i], BOM);
      CidrWithout(items[i], DOTTED_I);
    }
    JoinWithout(items, NEL);
    JoinWithout(items, BOM);
    JoinWithout(items, DOTTED_I);
  }

  lemma PaddedShort(v: string, n: nat)
    requires Padded(v, n) && |v| >= 43 && forall i :: 43 <= i < |v| ==> v[i] == '='
    ensures |v| - n <= 43
  {
    assert |v| - n > 43 ==> Base64Char(v[43]);
  }

  /** The client's guard asks of a header protection key what the builder asks. */
  lemma LooseKeyMeans(v: string)
    ensures LooseKey32(v) <==> NodeKey(v)
  {
    if LooseKey32(v) {
      var n := if Padded(v, 0) then 0 else if Padded(v, 1) then 1 else 2;
      assert Padded(v, n);
      PaddedShort(v, n);
      assert Padded(v, |v| - 43);
    }
  }

  /** However it is padded, a header protection key of 32 bytes passes the client. */
  lemma HeaderKeyTaken(v: string)
    requires NodeKey(v)
    ensures Taken(Interface, Pair(HeaderProtectionKey, v))
  {
    var p := Pair(HeaderProtectionKey, v);
    NodeKeyAdmitted(v);
    forall i | 0 <= i < |v| ensures v[i] != NEL && v[i] != BOM && v[i] != DOTTED_I {
      assert Base64Char(v[i]) || v[i] == '=';
    }
    LineShared(p);
  }

  lemma BaseTaken(ownAddrs: seq<string>, privateKey: string, j: Junk)
    requires Assignable(ownAddrs) && Key32(privateKey) && Drawn(j)
    ensures AllTaken(Interface, BasePairs(ownAddrs, privateKey, j))
  {
    var pairs := BasePairs(ownAddrs, privateKey, j);
    GoodBase(ownAddrs, privateKey, j);
    FixedLists();
    ListShared(ownAddrs);
    ListShared(DNS_SERVERS);
    forall i | 0 <= i < |pairs| ensures Taken(Interface, pairs[i]) {
      assert Good(Interface, pairs[i]);
      AdmittedTaken(Interface, pairs[i]);
    }
  }

  predicate NoLists(pairs: seq<Pair>) {
    forall i :: 0 <= i < |pairs| ==> !HoldsList(pairs[i].key)
  }

  lemma GoodTaken(s: Section, pairs: seq<Pair>)
    requires AllGood(s, pairs) && NoLists(pairs)
    ensures AllTaken(s, pairs)
  {
    forall i | 0 <= i < |pairs| ensures Taken(s, pairs[i]) {
      assert Good(s, pairs[i]);
      AdmittedTaken(s, pairs[i]);
    }
  }

  lemma {:induction false} SignaturesHoldNoLists(i: seq<string>, n: nat)
    ensures NoLists(SignaturePairs(i, n))
    decreases |i|
  {
    if i != [] {
      SignaturesHoldNoLists(i[1..], n + 1);
    }
  }

  lemma TierTaken(e: Entry)
    requires Sound(e)
    ensures AllTaken(Interface, TierPairs(e))
  {
    if Tier3(e) {
      var p := TierPairs(e);
      GoodMtu(e.mtu.value);
      GoodOneTaken(Interface, p[0]);
      HeaderKeyTaken(e.headerProtectionKey);
      TrailersTaken(e.randomTrailers);
      PaddingTaken();
      FourTaken(Interface, p[0], p[1], p[2], p[3]);
    }
  }

  lemma TrailersTaken(on: bool)
    ensures Taken(Interface, Pair(RandomTrailers, if on then "on" else "off"))
  {
    GoodTrailers(on);
    GoodOneTaken(Interface, Pair(RandomTrailers, if on then "on" else "off"));
  }

  lemma PaddingTaken()
    ensures Taken(Interface, Pair(ContentPaddingAddition, "0-32"))
  {
    GoodPadding();
    GoodOneTaken(Interface, Pair(ContentPaddingAddition, "0-32"));
  }

  lemma FourTaken(s: Section, a: Pair, b: Pair, c: Pair, d: Pair)
    requires Taken(s, a) && Taken(s, b) && Taken(s, c) && Taken(s, d)
    ensures AllTaken(s, [a, b, c, d])
  {
  }

  lemma GoodOneTaken(s: Section, p: Pair)
    requires Good(s, p) && !HoldsList(p.key)
    ensures Taken(s, p)
  {
    AdmittedTaken(s, p);
  }

  lemma InterfaceTaken(e: Entry, ownAddrs: seq<string>, privateKey: string, j: Junk)
    requires Sound(e) && Assignable(ownAddrs) && Key32(privateKey) && Drawn(j)
    ensures AllTaken(Interface, InterfacePairs(e, ownAddrs, privateKey, j))
  {
    var a, b, c, d := BasePairs(ownAddrs, privateKey, j), ShapePairs(e), SignaturePairs(e.i, 1), TierPairs(e);
    BaseTaken(ownAddrs, privateKey, j);
    GoodShape(e);
    GoodTaken(Interface, b);
    GoodSignatures(e.i, 1);
    SignaturesHoldNoLists(e.i, 1);
    GoodTaken(Interface, c);
    TierTaken(e);
    TakenAppend(Interface, a, b);
    TakenAppend(Interface, a + b, c);
    TakenAppend(Interface, a + b + c, d);
  }

  lemma PeerTaken(e: Entry, host: string)
    requires Sound(e) && HostShape(host)
    ensures AllTaken(Peer, PeerPairs(e, host))
  {
    var pairs := PeerPairs(e, host);
    PeerWritten(e, host);
    FixedLists();
    ListShared(ALL_ROUTES);
    forall i | 0 <= i < |pairs| ensures Taken(Peer, pairs[i]) {
      AdmittedTaken(Peer, pairs[i]);
    }
  }

  // ---- the file --------------------------------------------------------------------

  lemma ClientStep(line: string, rest: seq<string>, s: Option<Section>, next: Option<Section>)
    requires ClientItem(s, ClientRead(line)) == Some(next)
    ensures ClientAccepts([line] + rest, s) <==> ClientAccepts(rest, next)
  {
    assert ([line] + rest)[1..] == rest;
  }

  lemma {:induction false} ClientPairs(s: Section, pairs: seq<Pair>, rest: seq<string>)
    requires AllTaken(s, pairs)
    ensures ClientAccepts(PairLines(pairs) + rest, Some(s)) <==> ClientAccepts(rest, Some(s))
    decreases |pairs|
  {
    if pairs == [] {
      assert PairLines(pairs) + rest == rest;
    } else {
      assert Taken(s, pairs[0]);
      assert PairLines(pairs) + rest == [PairLine(pairs[0])] + (PairLines(pairs[1..]) + rest);
      ClientStep(PairLine(pairs[0]), PairLines(pairs[1..]) + rest, Some(s), Some(s));
      ClientPairs(s, pairs[1..], rest);
    }
  }

  lemma InterfaceHeaderTaken()
    ensures ClientRead("[Interface]") == Header(Some(Interface))
  {
    assert Lower("[Interface]") == Bracket("interface");
    HeaderTaken("[Interface]", "interface", Interface);
  }

  lemma PeerHeaderTaken()
    ensures ClientRead("[Peer]") == Header(Some(Peer))
  {
    assert Lower("[Peer]") == Bracket("peer");
    HeaderTaken("[Peer]", "peer", Peer);
  }

  lemma HeaderTaken(line: string, name: string, s: Section)
    requires Bracketed(line) && Ascii(line) && Lower(line) == Bracket(name)
    requires (name == "interface" && s == Interface) || (name == "peer" && s == Peer)
    ensures ClientRead(line) == Header(Some(s))
  {
    HeaderReads(line, name, s);
    PlainHeader(line);
  }

  lemma PlainHeader(line: string)
    requires Ascii(line)
    ensures ClientRead(line) == GuardRead(line)
  {
    AsciiIsShared(line);
    SameRead(line);
    forall c | c in Trim(line) ensures 32 < c as int < 127 {
      TrimHolds(line, c);
    }
    if Bracketed(Trim(line)) {
      assert forall i :: 0 <= i < |Inner(Trim(line))| ==> Inner(Trim(line))[i] in Trim(line);
    }
  }

  lemma InParts(head: string, a: seq<string>, blank: string, next: string, b: seq<string>)
    ensures [head] + a + [blank, next] + b + [blank] == [head] + (a + ([blank] + ([next] + (b + [blank]))))
  {
  }

  lemma FileTaken(own: seq<Pair>, peer: seq<Pair>, head: string, blank: string, next: string)
    requires AllTaken(Interface, own) && AllTaken(Peer, peer)
    requires ClientRead(head) == Header(Some(Interface)) && ClientRead(next) == Header(Some(Peer))
    requires ClientRead(blank) == Blank
    ensures ClientAccepts([head] + PairLines(own) + [blank, next] + PairLines(peer) + [blank], None)
  {
    var tail := PairLines(peer) + [blank];
    var mid := [blank] + ([next] + tail);
    InParts(head, PairLines(own), blank, next, PairLines(peer));
    ClientStep(head, PairLines(own) + mid, None, Some(Interface));
    ClientPairs(Interface, own, mid);
    ClientStep(blank, [next] + tail, Some(Interface), Some(Interface));
    ClientStep(next, tail, Some(Interface), Some(Peer));
    ClientPairs(Peer, peer, [blank]);
    ClientStep(blank, [], Some(Peer), Some(Peer));
    assert [blank] + [] == [blank];
  }

  /** An unpadded header protection key is a line of the file that the helper does not take. */
  lemma UnpaddedLine(e: Entry, host: string, ownAddrs: seq<string>, privateKey: string, j: Junk) returns (i: nat)
    requires Sound(e) && Tier3(e) && !Key32(e.headerProtectionKey)
    ensures var lines := FileLines(e, host, ownAddrs, privateKey, j);
      && i < |lines| && !HelperTakes(lines[i])
      && Read(lines[i]) == Assign(Some(HeaderProtectionKey), e.headerProtectionKey)
  {
    var own := InterfacePairs(e, ownAddrs, privateKey, j);
    HeaderKeyAt(BasePairs(ownAddrs, privateKey, j) + ShapePairs(e) + SignaturePairs(e.i, 1), e);
    LineAt(e, host, ownAddrs, privateKey, j, |own| - 3);
    NodeKeyAdmitted(e.headerProtectionKey);
    HelperRefusesKey(e.headerProtectionKey);
    PairReads(Pair(HeaderProtectionKey, e.headerProtectionKey));
    i := |own| - 2;
  }

  lemma HeaderKeyAt(before: seq<Pair>, e: Entry)
    requires Sound(e) && Tier3(e)
    ensures var own := before + TierPairs(e);
      |own| >= 4 && own[|own| - 3] == Pair(HeaderProtectionKey, e.headerProtectionKey)
  {
  }

  lemma LineAt(e: Entry, host: string, ownAddrs: seq<string>, privateKey: string, j: Junk, k: nat)
    requires Sound(e) && k < |InterfacePairs(e, ownAddrs, privateKey, j)|
    ensures var lines := FileLines(e, host, ownAddrs, privateKey, j);
      k + 1 < |lines| && lines[k + 1] == PairLine(InterfacePairs(e, ownAddrs, privateKey, j)[k])
  {
  }

  lemma HelperRefusesKey(v: string)
    requires Neat(v) && !Key32(v)
    ensures !HelperTakes(PairLine(Pair(HeaderProtectionKey, v)))
  {
    WordedName(HeaderProtectionKey);
    HelperRefusesNamed(IniName(HeaderProtectionKey), v);
  }

  lemma HelperRefusesNamed(name: string, v: string)
    requires Worded(name) && KeyOf(Lower(name)) == Some(HeaderProtectionKey) && Neat(v) && !Key32(v)
    ensures !HelperTakes(BuiltLine(name, v))
  {
    LineClean(BuiltLine(name, v), name, v);
    FirstOfWord(name);
    FirstNoComment(name);
    AssignReads(name, v);
  }

  lemma FirstNoComment(s: string)
    requires Worded(s)
    ensures s[0] != '#' && s[0] != ';'
  {
    assert s[0] !in "=#[;\n";
  }

  lemma UnpaddedIsNotTranslated(text: string, i: nat, v: string)
    requires i < |Split(text, '\n')| && !Key32(v)
    requires Read(Split(text, '\n')[i]) == Assign(Some(HeaderProtectionKey), v)
    ensures AwgUapi.Described(text).None?
  {
    var items := AwgUapi.Items(text);
    assert items[i] == Assign(Some(HeaderProtectionKey), v);
    AwgPipeline.OneUntaken(items, AwgUapi.NOTHING, i);
  }

  /**
   A built file at both guards. The client accepts every one; the helper, which comes after the
   payment, accepts it exactly when the header protection key, where there is one, is in standard
   padding (RFC 4648, section 4); and a device comes of it exactly when the node's public key is too.
   */
  lemma BuiltAtBothGuards(e: Entry, host: string, ownAddrs: seq<string>, privateKey: string, j: Junk)
    requires Sound(e) && HostShape(host) && Assignable(ownAddrs) && Key32(privateKey) && Drawn(j)
    ensures var text := Join(FileLines(e, host, ownAddrs, privateKey, j), '\n');
      && ClientAccepts(Split(text, '\n'), None)
      && (Accepts(GuardItems(text), None) <==> (Tier3(e) ==> Key32(e.headerProtectionKey)))
      && (AwgUapi.Described(text).Some? <==> Key32(e.publicKey) && (Tier3(e) ==> Key32(e.headerProtectionKey)))
  {
    var own, peer := InterfacePairs(e, ownAddrs, privateKey, j), PeerPairs(e, host);
    var lines := FileLines(e, host, ownAddrs, privateKey, j);
    InterfaceTaken(e, ownAddrs, privateKey, j);
    PeerTaken(e, host);
    NewlineFree(own, peer, lines);
    SplitJoin(lines, '\n');
    InterfaceHeaderTaken();
    PeerHeaderTaken();
    FileTaken(own, peer, "[Interface]", "", "[Peer]");
    if Tier3(e) && !Key32(e.headerProtectionKey) {
      var i := UnpaddedLine(e, host, ownAddrs, privateKey, j);
      GuardsAgreeIff(Join(lines, '\n'));
      UnpaddedIsNotTranslated(Join(lines, '\n'), i, e.headerProtectionKey);
    } else {
      BuiltIsTranslatedIff(e, host, ownAddrs, privateKey, j);
    }
  }
}
