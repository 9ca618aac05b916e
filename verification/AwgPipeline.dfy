/**
 One AmneziaWG config through the whole helper: which configs that the guard admits the
 translator also takes, and what parseAwgDirectives (daemon/internal/ops/amneziawg.go) extracts
 from them beside the device.
 */
module AwgPipeline {
  import opened Common
  import opened Text
  import opened AwgIni
  import opened AwgUapi

  // ---- admitted and translated -----------------------------------------------------

  /** No ';' comment and no blanks inside a section's brackets. */
  predicate PlainLine(raw: string) {
    var line := Trim(raw);
    !(line != "" && line[0] == ';') && (Bracketed(line) ==> ExactHeader(line))
  }

  predicate AllPlain(lines: seq<string>) {
    forall i :: 0 <= i < |lines| ==> PlainLine(lines[i])
  }

  /** What the translator asks of a value beyond the guard's shapes. */
  predicate Strict(item: Item) {
    item.Assign? && item.key.Some? ==>
      && item.value != ""
      && (KeyValued(item.key.value) ==> Key32(item.value))
      && (item.key.value.AllowedIps? ==> "" !in Pieces(item.value))
  }

  /** How often the keys that must be there are: private keys, and public keys peer by peer. */
  datatype Tally = Tally(section: Option<Section>, privateKeys: nat, publicKeys: seq<nat>)

  function Tallied(t: Tally, item: Item): Tally {
    match item
    case Header(s) => Tally(s, t.privateKeys, if s == Some(Peer) then t.publicKeys + [0] else t.publicKeys)
    case Assign(k, _) =>
      if t.section == Some(Interface) && k == Some(PrivateKey) then t.(privateKeys := t.privateKeys + 1)
      else if t.section == Some(Peer) && k == Some(PublicKey) && t.publicKeys != [] then
        t.(publicKeys := SetLast(t.publicKeys, Last(t.publicKeys) + 1))
      else t
    case _ => t
  }

  function TallyAll(t: Tally, items: seq<Item>): Tally
    decreases |items|
  {
    if items == [] then t else TallyAll(Tallied(t, items[0]), items[1..])
  }

  const NO_TALLY := Tally(None, 0, [])

  predicate OneKeyEach(t: Tally) {
    t.privateKeys > 0 && forall i :: 0 <= i < |t.publicKeys| ==> t.publicKeys[i] == 1
  }

  lemma KeyRanges(s: string)
    requires KeyOf(s).Some?
    ensures KeyOf(s).value.S? ==> 1 <= KeyOf(s).value.n <= 4
    ensures KeyOf(s).value.H? ==> 1 <= KeyOf(s).value.n <= 4
    ensures KeyOf(s).value.I? ==> 1 <= KeyOf(s).value.n <= 5
  {
  }

  /** Where the guard is content, strictness is all the translator adds. */
  lemma AdmittedPair(s: Section, k: Key, v: string)
    requires Allowed(s, k) && ValueOk(k, v)
    requires k.S? || k.H? ==> 1 <= k.n <= 4
    requires k.I? ==> 1 <= k.n <= 5
    ensures Known(s, k)
    ensures v != "" && Convertible(k, v) <==> Strict(Assign(Some(k), v))
  {
    if k.ListenPort? || k.PersistentKeepalive? {
      NumBelow(v);
      TenAt();
      TenMonotone(|v|, 7);
    } else if k.RandomTrailers? {
      assert Lower("on") == "on" && Lower("off") == "off";
    }
  }

  predicate AllStrict(items: seq<Item>) {
    forall i :: 0 <= i < |items| ==> Strict(items[i])
  }

  /** A key as KeyOf gives it. */
  predicate Ranged(item: Item) {
    item.Assign? && item.key.Some? ==>
      var k := item.key.value;
      (k.S? || k.H? ==> 1 <= k.n <= 4) && (k.I? ==> 1 <= k.n <= 5)
  }

  lemma ReadRanged(raw: string)
    ensures Ranged(Read(raw)) && Ranged(GuardRead(raw))
  {
    AssignRanged(Strip(raw));
    AssignRanged(Trim(raw));
  }

  lemma AssignRanged(text: string)
    ensures Ranged(ReadAssign(text))
  {
    var key := Lower(Trim(text[..IndexOf(text, '=')]));
    if KeyOf(key).Some? {
      KeyRanges(key);
    }
  }

  /** A tally never loses a count. */
  lemma {:induction false} TallyGrows(t: Tally, items: seq<Item>, i: nat)
    requires i < |t.publicKeys|
    ensures i < |TallyAll(t, items).publicKeys| && TallyAll(t, items).publicKeys[i] >= t.publicKeys[i]
    decreases |items|
  {
    if items != [] {
      TallyGrows(Tallied(t, items[0]), items[1..], i);
    }
  }

  /** The tally of the lines that a building was made from. */
  predicate Counts(t: Tally, b: Building) {
    && t.section == b.section && |t.publicKeys| == |b.device.peers|
    && (b.section == Some(Peer) ==> b.device.peers != [])
    && (t.privateKeys > 0 <==> SetsPrivateKey(b.device))
    && forall i :: 0 <= i < |t.publicKeys| ==> t.publicKeys[i] == if b.device.peers[i].publicKey != "" then 1 else 0
  }

  lemma SettingsSnoc(d: Device, l: Line)
    ensures SetsPrivateKey(d.(settings := d.settings + [l])) <==> SetsPrivateKey(d) || l.name == Of(PrivateKey)
  {
    var all := d.settings + [l];
    assert all[|d.settings|] == l;
    assert forall i :: 0 <= i < |d.settings| ==> all[i] == d.settings[i];
  }

  lemma TranslateNonempty(k: Key, v: string)
    requires Convertible(k, v) && v != ""
    ensures Translate(k, v) != ""
  {
    if KeyValued(k) {
      assert |Hex(v)| == 64;
    }
  }

  lemma CountsStep(t: Tally, b: Building, item: Item)
    requires Counts(t, b) && Takes(b, item)
    ensures Counts(Tallied(t, item), Meant(b, item))
  {
    if item.Assign? {
      var k, v := item.key.value, item.value;
      TranslateNonempty(k, v);
      if b.section == Some(Interface) && !Skipped(k) {
        SettingsSnoc(b.device, Line(Of(k), Translate(k, v)));
      }
    }
  }

  /** Of the lines that the guard admits, exactly the strict ones with one key each are a device. */
  lemma {:induction false} AdmittedWalk(items: seq<Item>, b: Building, t: Tally)
    requires Accepts(items, b.section) && Counts(t, b)
    requires forall i :: 0 <= i < |items| ==> Ranged(items[i])
    ensures var m := MeantBy(b, items);
      (m.Some? && SetsPrivateKey(m.value.device) && PeersNamed(m.value.device))
      <==> (AllStrict(items) && OneKeyEach(TallyAll(t, items)))
    decreases |items|
  {
    if items != [] {
      var item, rest := items[0], items[1..];
      AllStrictSplit(items);
      TakesIff(item, b, t);
      if Takes(b, item) {
        CountsStep(t, b, item);
        AdmittedWalk(rest, Meant(b, item), Tallied(t, item));
      } else if Strict(item) {
        TallyGrows(Tallied(t, item), rest, |t.publicKeys| - 1);
      }
    }
  }

  lemma AllStrictSplit(items: seq<Item>)
    requires items != []
    ensures AllStrict(items) <==> Strict(items[0]) && AllStrict(items[1..])
  {
    assert forall i :: 0 <= i < |items| - 1 ==> items[1..][i] == items[i + 1];
  }

  /** An admitted line is taken unless it is too loose or names a peer twice. */
  lemma TakesIff(item: Item, b: Building, t: Tally)
    requires GuardItem(b.section, item).Some? && Ranged(item) && Counts(t, b)
    ensures Takes(b, item) ==> Strict(item)
    ensures Takes(b, item) ==> GuardItem(b.section, item).value == Meant(b, item).section
    ensures !Takes(b, item) && Strict(item) ==>
      t.publicKeys != [] && |Tallied(t, item).publicKeys| == |t.publicKeys| && Last(Tallied(t, item).publicKeys) > 1
  {
    if item.Assign? {
      AdmittedPair(b.section.value, item.key.value, item.value);
    }
  }

  lemma {:induction false} AcceptedAt(items: seq<Item>, section: Option<Section>, i: nat) returns (at: Option<Section>)
    requires Accepts(items, section) && i < |items|
    ensures GuardItem(at, items[i]).Some?
    decreases i
  {
    if i == 0 {
      at := section;
    } else {
      at := AcceptedAt(items[1..], GuardItem(section, items[0]).value, i - 1);
    }
  }

  lemma {:induction false} OneUntaken(items: seq<Item>, b: Building, i: nat)
    requires i < |items| && forall c: Building :: !Takes(c, items[i])
    ensures MeantBy(b, items).None?
    decreases i
  {
    if i > 0 && Takes(b, items[0]) {
      OneUntaken(items[1..], Meant(b, items[0]), i - 1);
    }
  }

  /** A text that starts with ';' is no assignment that anyone knows. */
  lemma SemicolonUnknown(text: string)
    requires text != "" && text[0] == ';'
    ensures ReadAssign(text).Junk? || ReadAssign(text).key.None?
  {
    var eq := IndexOf(text, '=');
    if eq < |text| {
      var k := Trim(text[..eq]);
      TrimHead(text[..eq]);
      assert Lower(k)[0] == ';';
      if KeyOf(Lower(k)).Some? {
        KeyPlain(Lower(k));
      }
    }
  }

  lemma SemicolonRead(raw: string)
    requires Trim(raw) != "" && Trim(raw)[0] == ';'
    ensures Read(raw).Junk? || (Read(raw).Assign? && Read(raw).key.None?)
  {
    var line := Trim(raw);
    TrimHead(line[..IndexOf(line, '#')]);
    assert Strip(raw) != "" && Strip(raw)[0] == ';';
    SemicolonUnknown(Strip(raw));
  }

  lemma SpacedHeaderRead(raw: string)
    requires var line := Trim(raw); Bracketed(line) && NoHash(line) && !ExactHeader(line)
    ensures Read(raw) == Header(None)
  {
    StripPlain(raw);
  }

  lemma HeaderNoHash(raw: string)
    requires Bracketed(Trim(raw)) && GuardRead(raw).Header? && GuardRead(raw).section.Some?
    ensures NoHash(Trim(raw))
  {
    AcceptedHeader(Trim(raw));
  }

  /** Every line that the guard admits and that is not plain is refused by the translator. */
  lemma NotPlainUntaken(raw: string, at: Option<Section>, b: Building)
    requires GuardItem(at, GuardRead(raw)).Some? && !PlainLine(raw)
    ensures !Takes(b, Read(raw))
  {
    if Trim(raw) != "" && Trim(raw)[0] == ';' {
      SemicolonRead(raw);
    } else {
      assert GuardRead(raw).Header?;
      HeaderNoHash(raw);
      SpacedHeaderRead(raw);
    }
  }

  /**
   What the guard admits and the translator then does: it is translated exactly when no line is a
   ';' comment or a header with blanks in it, no value is empty, every key is 32 bytes, no
   AllowedIPs entry is empty, and there is a private key and one public key for each peer.
   */
  lemma AdmittedIsTranslatedIff(ini: string)
    requires Accepts(GuardItems(ini), None)
    ensures Described(ini).Some?
       <==> (AllPlain(Split(ini, '\n')) && AllStrict(Items(ini)) && OneKeyEach(TallyAll(NO_TALLY, Items(ini))))
  {
    var lines, items, admitted := Split(ini, '\n'), Items(ini), GuardItems(ini);
    if AllPlain(lines) {
      SameReading(ini);
      forall i | 0 <= i < |items| ensures Ranged(items[i]) {
        ReadRanged(lines[i]);
      }
      AdmittedWalk(items, NOTHING, NO_TALLY);
    } else {
      var i :| 0 <= i < |lines| && !PlainLine(lines[i]);
      var at := AcceptedAt(admitted, None, i);
      forall b: Building ensures !Takes(b, items[i]) {
        NotPlainUntaken(lines[i], at, b);
      }
      OneUntaken(items, NOTHING, i);
    }
  }

  /** A file of one ';' is admitted and not translated. */
  lemma SemicolonIsNotTranslated(ini: string)
    requires ini == [';']
    ensures Accepts(GuardItems(ini), None) && Described(ini).None?
  {
    SplitPieces(ini, '\n');
    assert Trim(ini) == ini && IsComment(ini);
    assert GuardItems(ini) == [Blank] && GuardItems(ini)[1..] == [];
    assert !PlainLine(Split(ini, '\n')[0]);
    AdmittedIsTranslatedIff(ini);
  }

  /** Guard, translator and extractor read an admitted plain config line by line alike. */
  lemma SameReading(ini: string)
    requires Accepts(GuardItems(ini), None) && AllPlain(Split(ini, '\n'))
    ensures Items(ini) == GuardItems(ini)
  {
    var lines := Split(ini, '\n');
    forall i | 0 <= i < |lines| ensures Items(ini)[i] == GuardItems(ini)[i] {
      var at := AcceptedAt(GuardItems(ini), None, i);
      ReadersAgreeIff(at, lines[i]);
    }
  }
}
