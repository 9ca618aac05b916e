/**
 The client's own guard for AmneziaWG files, assertSafeAmneziaWgConfig of src/main/config-guard.ts,
 beside the helper's port of it. The two are meant to accept the same files; JavaScript and Go
 disagree on what a blank, a lower-case letter, a '.' and a base64 key are, and the theorems at the
 end say on exactly which files that matters.
 */
module AwgClientGuard {
  import opened Common
  import opened Text
  import opened AwgIni

  // ---- the strings of JavaScript ---------------------------------------------------

  const NEL := 0x85 as char     // a blank for Go alone
  const BOM := 0xFEFF as char   // a blank for JavaScript alone
  const DOTTED_I := 0x130 as char

  /** What String.prototype.trim removes. */
  predicate JsSpace(c: char) {
    var n := c as int;
    || 9 <= n <= 13 || n == 32 || n == 0xA0 || n == 0x1680 || 0x2000 <= n <= 0x200a
    || n == 0x2028 || n == 0x2029 || n == 0x202f || n == 0x205f || n == 0x3000 || n == 0xFEFF
  }

  function JsTrimLeft(s: string): string {
    if s != [] && JsSpace(s[0]) then JsTrimLeft(s[1..]) else s
  }

  function JsTrimRight(s: string): string {
    if s != [] && JsSpace(s[|s| - 1]) then JsTrimRight(s[..|s| - 1]) else s
  }

  function JsTrim(s: string): string {
    JsTrimRight(JsTrimLeft(s))
  }

  /** toLowerCase, for the characters whose lower case is one ASCII letter. */
  function JsLowerChar(c: char): char {
    if 'A' <= c <= 'Z' then (c as int + 32) as char
    else if c == 0x212A as char then 'k'
    else c
  }

  function JsLower(s: string): (r: string)
    ensures |r| == |s|
  {
    seq(|s|, i requires 0 <= i < |s| => JsLowerChar(s[i]))
  }

  /** A '.' of a JavaScript pattern does not match these. */
  predicate LineTerminator(c: char) {
    c == '\n' || c == '\r' || c == 0x2028 as char || c == 0x2029 as char
  }

  predicate OneLine(s: string) {
    forall i :: 0 <= i < |s| ==> !LineTerminator(s[i])
  }

  lemma OneLineMeans(s: string)
    ensures OneLine(s) <==> '\n' !in s && '\r' !in s && 0x2028 as char !in s && 0x2029 as char !in s
  {
  }

  // ---- the client's guard ----------------------------------------------------------

  function JsReadAssign(line: string): Item {
    var eq := IndexOf(line, '=');
    if eq == |line| then Junk
    else Assign(KeyOf(JsLower(JsTrim(line[..eq]))), JsTrim(line[eq + 1..]))
  }

  function Inner(line: string): string
    requires Bracketed(line)
  {
    line[1..|line| - 1]
  }

  function SectionNamed(name: string): Item {
    Header(if name == "interface" then Some(Interface) else if name == "peer" then Some(Peer) else None)
  }

  function ClientRead(raw: string): Item {
    var line := JsTrim(raw);
    if IsComment(line) then Blank
    else if Bracketed(line) && OneLine(Inner(line)) then SectionNamed(JsLower(JsTrim(Inner(line))))
    else JsReadAssign(line)
  }

  predicate JsListShape(v: string) {
    var items := Split(v, ',');
    forall i :: 0 <= i < |items| ==> JsTrim(items[i]) == "" || CidrShape(JsTrim(items[i]))
  }

  /** Node decodes 43 characters to 32 bytes whatever padding follows. */
  predicate LooseKey32(v: string) {
    KeyShape(v) && |v| >= 43 && (forall i :: 0 <= i < 43 ==> Base64Char(v[i]))
    && (forall i :: 43 <= i < |v| ==> v[i] == '=')
  }

  predicate ClientValueOk(k: Key, v: string) {
    if HoldsList(k) then JsListShape(v)
    else if k.HeaderProtectionKey? then LooseKey32(v)
    else ValueOk(k, v)
  }

  predicate ClientKeyAccepted(section: Option<Section>, key: Option<Key>, value: string) {
    section.Some? && key.Some? && Allowed(section.value, key.value) && ClientValueOk(key.value, value)
  }

  /** An item in its section: refused, or the section after it. */
  function ClientItem(section: Option<Section>, item: Item): Option<Option<Section>> {
    match item
    case Blank => Some(section)
    case Header(s) => if s.Some? then Some(s) else None
    case Junk => None
    case Assign(key, value) => if ClientKeyAccepted(section, key, value) then Some(section) else None
  }

  predicate ClientAccepts(lines: seq<string>, section: Option<Section>)
    decreases |lines|
  {
    lines == [] || (var s := ClientItem(section, ClientRead(lines[0])); s.Some? && ClientAccepts(lines[1..], s.value))
  }

  /** assertSafeAmneziaWgConfig. */
  method AssertSafeAmneziaWgConfig(config: string) returns (ok: bool)
    ensures ok <==> ClientAccepts(Split(config, '\n'), None)
  {
    var lines := Split(config, '\n');
    var section: Option<Section> := None;
    for i := 0 to |lines|
      invariant ClientAccepts(lines, None) <==> ClientAccepts(lines[i..], section)
    {
      var line := JsTrim(lines[i]);
      assert lines[i..][0] == lines[i] && lines[i..][1..] == lines[i + 1..];
      if IsComment(line) {
        continue;
      }
      var item := ClientRead(lines[i]);
      if item.Header? {
        if item.section.None? {
          return false;
        }
        section := item.section;
      } else if item.Junk? || !ClientKeyAccepted(section, item.key, item.value) {
        return false;
      }
    }
    ok := true;
  }

  // ---- trims -----------------------------------------------------------------------

  lemma {:induction false} JsTrimLeftKeeps(s: string, c: char)
    requires c in s && !JsSpace(c)
    ensures c in JsTrimLeft(s)
    decreases |s|
  {
    if JsSpace(s[0]) {
      assert s == [s[0]] + s[1..];
      JsTrimLeftKeeps(s[1..], c);
    }
  }

  lemma {:induction false} JsTrimRightKeeps(s: string, c: char)
    requires c in s && !JsSpace(c)
    ensures c in JsTrimRight(s)
    decreases |s|
  {
    if JsSpace(s[|s| - 1]) {
      assert s == s[..|s| - 1] + [s[|s| - 1]];
      JsTrimRightKeeps(s[..|s| - 1], c);
    }
  }

  lemma JsTrimKeeps(s: string, c: char)
    requires c in s && !JsSpace(c)
    ensures c in JsTrim(s)
  {
    JsTrimLeftKeeps(s, c);
    JsTrimRightKeeps(JsTrimLeft(s), c);
  }

  /** Neither of the two characters that only one side takes for a blank. */
  predicate NoOddBlank(s: string) {
    NEL !in s && BOM !in s
  }

  lemma {:induction false} SameTrimLeft(s: string)
    requires NoOddBlank(s)
    ensures JsTrimLeft(s) == TrimLeft(s) && NoOddBlank(TrimLeft(s))
    decreases |s|
  {
    if s != [] && IsSpace(s[0]) {
      SameTrimLeft(s[1..]);
    }
  }

  lemma {:induction false} SameTrimRight(s: string)
    requires NoOddBlank(s)
    ensures JsTrimRight(s) == TrimRight(s) && NoOddBlank(TrimRight(s))
    decreases |s|
  {
    if s != [] && IsSpace(s[|s| - 1]) {
      SameTrimRight(s[..|s| - 1]);
    }
  }

  lemma SameTrim(s: string)
    requires NoOddBlank(s)
    ensures JsTrim(s) == Trim(s) && NoOddBlank(Trim(s))
  {
    SameTrimLeft(s);
    SameTrimRight(TrimLeft(s));
  }

  /** Where the two trims part at the left end, a side is left with a blank of the other's. */
  lemma {:induction false} LeftEnds(s: string)
    ensures JsTrimLeft(s) == TrimLeft(s) || (JsTrimLeft(s) != "" && JsTrimLeft(s)[0] == NEL)
            || (TrimLeft(s) != "" && TrimLeft(s)[0] == BOM)
    decreases |s|
  {
    if s != [] && IsSpace(s[0]) && JsSpace(s[0]) {
      LeftEnds(s[1..]);
    }
  }

  lemma {:induction false} TrimRightHead(s: string)
    requires s != "" && !IsSpace(s[0])
    ensures TrimRight(s) != "" && TrimRight(s)[0] == s[0]
    decreases |s|
  {
    if IsSpace(s[|s| - 1]) {
      TrimRightHead(s[..|s| - 1]);
    }
  }

  lemma {:induction false} JsTrimRightHead(s: string)
    requires s != "" && !JsSpace(s[0])
    ensures JsTrimRight(s) != "" && JsTrimRight(s)[0] == s[0]
    decreases |s|
  {
    if JsSpace(s[|s| - 1]) {
      JsTrimRightHead(s[..|s| - 1]);
    }
  }

  lemma {:induction false} JsTrimLeftHead(s: string)
    ensures JsTrimLeft(s) != "" ==> !JsSpace(JsTrimLeft(s)[0])
    decreases |s|
  {
    if s != [] && JsSpace(s[0]) {
      JsTrimLeftHead(s[1..]);
    }
  }

  /** A line is a comment to both or to neither, unless it starts with a foreign blank. */
  lemma CommentAlike(raw: string)
    ensures || IsComment(JsTrim(raw)) == IsComment(Trim(raw))
            || (JsTrim(raw) != "" && JsTrim(raw)[0] == NEL)
            || (Trim(raw) != "" && Trim(raw)[0] == BOM)
  {
    LeftEnds(raw);
    TrimLeftIs(raw);
    JsTrimLeftHead(raw);
    if JsTrimLeft(raw) != "" {
      JsTrimRightHead(JsTrimLeft(raw));
    }
    if TrimLeft(raw) != "" {
      TrimRightHead(TrimLeft(raw));
    }
  }

  // ---- lines that a side refuses ---------------------------------------------------

  /** The helper refuses a line that holds a BOM, unless it is a comment. */
  lemma HelperRefusesBom(section: Option<Section>, raw: string)
    requires BOM in Trim(raw) && !IsComment(Trim(raw))
    ensures GuardItem(section, GuardRead(raw)).None?
  {
    var line := Trim(raw);
    if Bracketed(line) {
      assert line == [line[0]] + Inner(line) + [line[|line| - 1]];
      TrimKeeps(Inner(line), BOM);
      LowerKeeps(Trim(Inner(line)), BOM);
    } else if GuardItem(section, ReadAssign(line)).Some? {
      AssignWithoutBom(section, line);
    }
  }

  lemma AssignWithoutBom(section: Option<Section>, line: string)
    requires GuardItem(section, ReadAssign(line)).Some?
    ensures BOM !in line
  {
    AssignWithout(section, line, BOM);
  }

  lemma AssignWithout(section: Option<Section>, line: string, c: char)
    requires GuardItem(section, ReadAssign(line)).Some? && Alien(c) && !IsSpace(c) && LowerChar(c) == c
    ensures c !in line
  {
    var eq := IndexOf(line, '=');
    IndexOfIs(line, '=');
    KeyWithout(line[..eq], c);
    ValueTextWithout(KeyOf(Lower(Trim(line[..eq]))).value, line[eq + 1..], c);
    SplicedWithout(line, eq, c);
  }

  lemma ValueTextWithout(k: Key, text: string, c: char)
    requires !k.Table? && ValueOk(k, Trim(text)) && Alien(c) && !IsSpace(c)
    ensures c !in text
  {
    ValueWithout(k, Trim(text), c);
    if c in text {
      TrimKeeps(text, c);
    }
  }

  lemma LowerKeeps(s: string, c: char)
    requires c in s && LowerChar(c) == c
    ensures c in Lower(s)
  {
    var i :| 0 <= i < |s| && s[i] == c;
    assert Lower(s)[i] == c;
  }

  lemma JsLowerKeeps(s: string, c: char)
    requires c in s && JsLowerChar(c) == c
    ensures c in JsLower(s)
  {
    var i :| 0 <= i < |s| && s[i] == c;
    assert JsLower(s)[i] == c;
  }

  lemma JsKeyWithout(text: string, c: char)
    requires KeyOf(JsLower(JsTrim(text))).Some? && !Alnum(c) && !JsSpace(c) && JsLowerChar(c) == c
    ensures c !in text
  {
    KeyPlain(JsLower(JsTrim(text)));
    if c in text {
      JsTrimKeeps(text, c);
      JsLowerKeeps(JsTrim(text), c);
      assert false;
    }
  }

  lemma JsListWithout(v: string, c: char)
    requires JsListShape(v) && Alien(c) && !JsSpace(c)
    ensures c !in v
  {
    var items := Split(v, ',');
    JoinSplit(v, ',');
    forall i | 0 <= i < |items| ensures c !in items[i] {
      if c in items[i] {
        JsTrimKeeps(items[i], c);
        CidrWithout(JsTrim(items[i]), c);
      }
    }
    JoinWithout(items, c);
  }

  lemma JsValueWithout(k: Key, v: string, c: char)
    requires !k.Table? && ClientValueOk(k, v) && Alien(c) && !JsSpace(c)
    ensures c !in v
  {
    if HoldsList(k) {
      JsListWithout(v, c);
    } else if !k.HeaderProtectionKey? {
      ScalarWithout(k, v, c);
    }
  }

  /** Characters that the client knows neither as blanks nor as letters. */
  predicate Foreign(c: char) {
    c == NEL || c == DOTTED_I
  }

  /** The client refuses a line that holds one, unless it is a comment. */
  lemma ClientRefusesForeign(section: Option<Section>, raw: string, c: char)
    requires Foreign(c) && c in JsTrim(raw) && !IsComment(JsTrim(raw))
    ensures ClientItem(section, ClientRead(raw)).None?
  {
    var line := JsTrim(raw);
    if Bracketed(line) && OneLine(Inner(line)) {
      assert line == [line[0]] + Inner(line) + [line[|line| - 1]];
      JsTrimKeeps(Inner(line), c);
      JsLowerKeeps(JsTrim(Inner(line)), c);
    } else if ClientItem(section, JsReadAssign(line)).Some? {
      JsAssignWithout(section, line, c);
    }
  }

  lemma JsAssignWithout(section: Option<Section>, line: string, c: char)
    requires ClientItem(section, JsReadAssign(line)).Some? && Foreign(c)
    ensures c !in line
  {
    var eq := IndexOf(line, '=');
    IndexOfIs(line, '=');
    JsKeyWithout(line[..eq], c);
    JsValueTextWithout(KeyOf(JsLower(JsTrim(line[..eq]))).value, line[eq + 1..], c);
    SplicedWithout(line, eq, c);
  }

  lemma JsValueTextWithout(k: Key, text: string, c: char)
    requires !k.Table? && ClientValueOk(k, JsTrim(text)) && Alien(c) && !JsSpace(c)
    ensures c !in text
  {
    JsValueWithout(k, JsTrim(text), c);
    if c in text {
      JsTrimKeeps(text, c);
    }
  }

  /** A bracketed line that the client's pattern does not match is refused as an assignment. */
  lemma ClientRefusesBroken(section: Option<Section>, raw: string)
    requires var line := JsTrim(raw); Bracketed(line) && !OneLine(Inner(line)) && !IsComment(line)
    ensures ClientItem(section, ClientRead(raw)).None?
  {
    var line := JsTrim(raw);
    var eq := IndexOf(line, '=');
    IndexOfIs(line, '=');
    assert eq < |line| ==> line[..eq] != "" && line[..eq][0] == '[';
    if eq < |line| && KeyOf(JsLower(JsTrim(line[..eq]))).Some? {
      JsKeyWithout(line[..eq], '[');
    }
  }

  // ---- lines that both read --------------------------------------------------------

  lemma SameLower(s: string)
    requires DOTTED_I !in s
    ensures JsLower(s) == Lower(s)
  {
    forall i | 0 <= i < |s| ensures JsLower(s)[i] == Lower(s)[i] {
      assert s[i] in s;
    }
  }

  /** Neither foreign blanks nor a dotted capital I. */
  predicate Shared(s: string) {
    NoOddBlank(s) && DOTTED_I !in s
  }

  lemma SameText(text: string)
    requires Shared(text)
    ensures JsTrim(text) == Trim(text) && JsLower(JsTrim(text)) == Lower(Trim(text))
  {
    SameTrim(text);
    if DOTTED_I in Trim(text) {
      TrimHolds(text, DOTTED_I);
    }
    SameLower(Trim(text));
  }

  lemma {:induction false} TrimLeftHolds(s: string, c: char)
    ensures c in TrimLeft(s) ==> c in s
    decreases |s|
  {
    if s != [] && IsSpace(s[0]) {
      TrimLeftHolds(s[1..], c);
    }
  }

  lemma {:induction false} TrimRightHolds(s: string, c: char)
    ensures c in TrimRight(s) ==> c in s
    decreases |s|
  {
    if s != [] && IsSpace(s[|s| - 1]) {
      TrimRightHolds(s[..|s| - 1], c);
    }
  }

  lemma TrimHolds(s: string, c: char)
    ensures c in Trim(s) ==> c in s
  {
    TrimLeftHolds(s, c);
    TrimRightHolds(TrimLeft(s), c);
  }

  /** On shared characters the two read a line alike, but for a broken section name. */
  lemma SameRead(raw: string)
    requires Shared(raw)
    ensures JsTrim(raw) == Trim(raw)
    ensures var line := Trim(raw);
      (!IsComment(line) && Bracketed(line) && !OneLine(Inner(line))) || ClientRead(raw) == GuardRead(raw)
  {
    SameTrim(raw);
    var line := Trim(raw);
    TrimHolds(raw, DOTTED_I);
    if Bracketed(line) {
      SameText(Inner(line));
    } else {
      var eq := IndexOf(line, '=');
      SameText(line[..eq]);
      if eq < |line| {
        SameText(line[eq + 1..]);
      }
    }
  }

  lemma SameList(v: string)
    requires NoOddBlank(v)
    ensures JsListShape(v) <==> ListShape(v)
  {
    var items := Split(v, ',');
    JoinSplit(v, ',');
    forall i | 0 <= i < |items| ensures JsTrim(items[i]) == Trim(items[i]) {
      PieceNoOddBlank(items, i);
      SameTrim(items[i]);
    }
  }

  lemma {:induction false} PieceNoOddBlank(items: seq<string>, i: nat)
    requires i < |items| && NoOddBlank(Join(items, ','))
    ensures NoOddBlank(items[i])
    decreases |items|
  {
    if i > 0 {
      assert forall c :: c in Join(items[1..], ',') ==> c in Join(items, ',');
      PieceNoOddBlank(items[1..], i - 1);
    }
  }

  lemma SameValue(k: Key, v: string)
    requires NoOddBlank(v)
    ensures ClientValueOk(k, v) <==> if k.HeaderProtectionKey? then LooseKey32(v) else ValueOk(k, v)
    ensures ValueOk(k, v) ==> ClientValueOk(k, v)
  {
    if HoldsList(k) {
      SameList(v);
    }
  }

  /** The value of a line is made of characters of the line. */
  lemma ValueOfLine(line: string)
    requires NoOddBlank(line) && ReadAssign(line).Assign?
    ensures NoOddBlank(ReadAssign(line).value)
  {
    var value := line[IndexOf(line, '=') + 1..];
    TrimHolds(value, NEL);
    TrimHolds(value, BOM);
  }

  // ---- each side's word on what the other accepts ----------------------------------

  /** A line of the header protection key whose value lacks its one '='. */
  predicate Unpadded(line: string) {
    var item := ReadAssign(line);
    item.Assign? && item.key == Some(HeaderProtectionKey) && !Key32(item.value)
  }

  /** The helper also takes this line: a comment, or no BOM and no unpadded key. */
  predicate HelperTakes(raw: string) {
    var line := Trim(raw);
    IsComment(line) || (BOM !in line && (!Bracketed(line) ==> !Unpadded(line)))
  }

  /** The client also takes this line: a comment, or no foreign character and no broken name. */
  predicate ClientTakes(raw: string) {
    var line := JsTrim(raw);
    IsComment(line) || (NEL !in line && DOTTED_I !in line && (Bracketed(line) ==> OneLine(Inner(line))))
  }

  lemma SharedLine(section: Option<Section>, raw: string)
    requires Shared(raw) && (Bracketed(Trim(raw)) ==> OneLine(Inner(Trim(raw))))
    ensures ClientRead(raw) == GuardRead(raw)
    ensures GuardItem(section, GuardRead(raw)).Some? ==>
            ClientItem(section, ClientRead(raw)) == GuardItem(section, GuardRead(raw))
    ensures ClientItem(section, ClientRead(raw)).Some? ==>
            GuardItem(section, GuardRead(raw)) == if HelperTakes(raw) then ClientItem(section, ClientRead(raw)) else None
  {
    SameRead(raw);
    var line := Trim(raw);
    TrimHolds(raw, NEL);
    TrimHolds(raw, BOM);
    if !IsComment(line) && !Bracketed(line) {
      SharedItem(section, line);
    }
  }

  lemma SharedItem(section: Option<Section>, line: string)
    requires NoOddBlank(line)
    ensures var item := ReadAssign(line);
      && (GuardItem(section, item).Some? ==> ClientItem(section, item) == GuardItem(section, item))
      && (ClientItem(section, item).Some? ==>
          GuardItem(section, item) == if Unpadded(line) then None else ClientItem(section, item))
  {
    if ReadAssign(line).Assign? {
      ValueOfLine(line);
      SameAssign(section, ReadAssign(line).key, ReadAssign(line).value);
    }
  }

  /** A key and a value as the two judge them. */
  lemma SameAssign(section: Option<Section>, key: Option<Key>, value: string)
    requires NoOddBlank(value)
    ensures KeyAccepted(section, key, value) ==> ClientKeyAccepted(section, key, value)
    ensures ClientKeyAccepted(section, key, value) ==>
            (KeyAccepted(section, key, value) <==> !(key == Some(HeaderProtectionKey) && !Key32(value)))
  {
    if key.Some? {
      SameValue(key.value, value);
    }
  }

  /** On a line that the client accepts, the helper does the same exactly when HelperTakes says so. */
  lemma AfterClient(section: Option<Section>, raw: string)
    requires ClientItem(section, ClientRead(raw)).Some?
    ensures GuardItem(section, GuardRead(raw)) == if HelperTakes(raw) then ClientItem(section, ClientRead(raw)) else None
    ensures HelperTakes(raw) ==> GuardRead(raw) == ClientRead(raw)
  {
    CommentAlike(raw);
    var line := JsTrim(raw);
    if line != "" && line[0] == NEL {
      ClientRefusesForeign(section, raw, NEL);
    } else if BOM in Trim(raw) && !IsComment(Trim(raw)) {
      HelperRefusesBom(section, raw);
    } else if !IsComment(line) {
      AcceptedIsShared(section, raw);
      SharedLine(section, raw);
    }
  }

  lemma AcceptedIsShared(section: Option<Section>, raw: string)
    requires ClientItem(section, ClientRead(raw)).Some? && !IsComment(JsTrim(raw)) && BOM !in Trim(raw)
    ensures Shared(raw) && (Bracketed(Trim(raw)) ==> OneLine(Inner(Trim(raw))))
  {
    if BOM in raw {
      TrimKeeps(raw, BOM);
    }
    if c :| c in raw && Foreign(c) {
      JsTrimKeeps(raw, c);
      ClientRefusesForeign(section, raw, c);
    }
    assert Foreign(NEL) && Foreign(DOTTED_I);
    SameTrim(raw);
    if Bracketed(Trim(raw)) && !OneLine(Inner(Trim(raw))) {
      ClientRefusesBroken(section, raw);
    }
  }

  /** And the other way round. */
  lemma AfterHelper(section: Option<Section>, raw: string)
    requires GuardItem(section, GuardRead(raw)).Some?
    ensures ClientItem(section, ClientRead(raw)) == if ClientTakes(raw) then GuardItem(section, GuardRead(raw)) else None
    ensures ClientTakes(raw) ==> ClientRead(raw) == GuardRead(raw)
  {
    CommentAlike(raw);
    var line := JsTrim(raw);
    if Trim(raw) != "" && Trim(raw)[0] == BOM {
      HelperRefusesBom(section, raw);
    } else if !IsComment(line) {
      if c :| c in line && Foreign(c) {
        ClientRefusesForeign(section, raw, c);
      } else if Bracketed(line) && !OneLine(Inner(line)) {
        ClientRefusesBroken(section, raw);
      } else {
        assert Foreign(NEL) && Foreign(DOTTED_I);
        HelperIsShared(section, raw);
        SameTrim(raw);
        SharedLine(section, raw);
      }
    }
  }

  lemma HelperIsShared(section: Option<Section>, raw: string)
    requires GuardItem(section, GuardRead(raw)).Some? && !IsComment(JsTrim(raw)) && !(Trim(raw) != "" && Trim(raw)[0] == BOM)
    requires NEL !in JsTrim(raw) && DOTTED_I !in JsTrim(raw)
    ensures Shared(raw)
  {
    CommentAlike(raw);
    if NEL in raw {
      JsTrimKeeps(raw, NEL);
    }
    if DOTTED_I in raw {
      JsTrimKeeps(raw, DOTTED_I);
    }
    if BOM in raw {
      TrimKeeps(raw, BOM);
      HelperRefusesBom(section, raw);
    }
  }

  // ---- whole files -----------------------------------------------------------------

  function HelperItems(lines: seq<string>): seq<Item> {
    seq(|lines|, i requires 0 <= i < |lines| => GuardRead(lines[i]))
  }

  lemma {:induction false} HelperAfterClient(lines: seq<string>, section: Option<Section>)
    requires ClientAccepts(lines, section)
    ensures Accepts(HelperItems(lines), section) <==> forall i :: 0 <= i < |lines| ==> HelperTakes(lines[i])
    decreases |lines|
  {
    if lines != [] {
      AfterClient(section, lines[0]);
      HelperAfterClient(lines[1..], ClientItem(section, ClientRead(lines[0])).value);
      assert HelperItems(lines)[1..] == HelperItems(lines[1..]);
      assert forall i :: 0 < i < |lines| ==> lines[i] == lines[1..][i - 1];
      assert forall i :: 0 <= i < |lines| - 1 ==> lines[1..][i] == lines[i + 1];
    }
  }

  lemma {:induction false} ClientAfterHelper(lines: seq<string>, section: Option<Section>)
    requires Accepts(HelperItems(lines), section)
    ensures ClientAccepts(lines, section) <==> forall i :: 0 <= i < |lines| ==> ClientTakes(lines[i])
    decreases |lines|
  {
    if lines != [] {
      AfterHelper(section, lines[0]);
      assert HelperItems(lines)[1..] == HelperItems(lines[1..]);
      ClientAfterHelper(lines[1..], GuardItem(section, GuardRead(lines[0])).value);
      assert forall i :: 0 < i < |lines| ==> lines[i] == lines[1..][i - 1];
      assert forall i :: 0 <= i < |lines| - 1 ==> lines[1..][i] == lines[i + 1];
    }
  }

  /**
   The two guards on one file: what the client accepts, the helper accepts exactly when HelperTakes
   every line; what the helper accepts, the client accepts exactly when ClientTakes every line.
   */
  lemma GuardsAgreeIff(config: string)
    ensures var lines := Split(config, '\n');
      var client, helper := ClientAccepts(lines, None), Accepts(GuardItems(config), None);
      && (client ==> (helper <==> forall i :: 0 <= i < |lines| ==> HelperTakes(lines[i])))
      && (helper ==> (client <==> forall i :: 0 <= i < |lines| ==> ClientTakes(lines[i])))
  {
    var lines := Split(config, '\n');
    assert GuardItems(config) == HelperItems(lines);
    if ClientAccepts(lines, None) {
      HelperAfterClient(lines, None);
    }
    if Accepts(GuardItems(config), None) {
      ClientAfterHelper(lines, None);
    }
  }

  // ---- the guards for plain WireGuard ----------------------------------------------

  /** The keys of plain WireGuard; both sides check their values as for AmneziaWG. */
  predicate PlainKey(k: Key) {
    k.PrivateKey? || k.Address? || k.Dns? || k.Mtu? || k.ListenPort?
    || k.PublicKey? || k.PresharedKey? || k.AllowedIps? || k.Endpoint? || k.PersistentKeepalive?
  }

  predicate PlainInterfaceWord(word: string) {
    word == "privatekey" || word == "address" || word == "dns" || word == "mtu" || word == "listenport"
  }

  predicate PlainPeerWord(word: string) {
    || word == "publickey" || word == "presharedkey" || word == "allowedips" || word == "endpoint"
    || word == "persistentkeepalive"
  }

  lemma PlainWordTaken(word: string)
    ensures PlainInterfaceWord(word) ==>
              KeyOf(word).Some? && PlainKey(KeyOf(word).value) && Allowed(Interface, KeyOf(word).value)
    ensures PlainPeerWord(word) ==> KeyOf(word).Some? && PlainKey(KeyOf(word).value) && Allowed(Peer, KeyOf(word).value)
  {
  }

  lemma PlainKeyWord(word: string)
    requires KeyOf(word).Some? && PlainKey(KeyOf(word).value)
    ensures Allowed(Interface, KeyOf(word).value) ==> PlainInterfaceWord(word)
    ensures Allowed(Peer, KeyOf(word).value) ==> PlainPeerWord(word)
  {
  }

  /** The words of plain WireGuard, section by section: exactly these. */
  lemma PlainWords(word: string)
    ensures KeyOf(word).Some? && PlainKey(KeyOf(word).value) && Allowed(Interface, KeyOf(word).value) <==> PlainInterfaceWord(word)
    ensures KeyOf(word).Some? && PlainKey(KeyOf(word).value) && Allowed(Peer, KeyOf(word).value) <==> PlainPeerWord(word)
  {
    PlainWordTaken(word);
    if KeyOf(word).Some? && PlainKey(KeyOf(word).value) {
      PlainKeyWord(word);
    }
  }

  predicate PlainItem(item: Item) {
    item.Assign? && item.key.Some? ==> PlainKey(item.key.value)
  }

  predicate HelperAcceptsPlain(lines: seq<string>, section: Option<Section>)
    decreases |lines|
  {
    lines == []
    || (var item := GuardRead(lines[0]);
        var s := GuardItem(section, item);
        PlainItem(item) && s.Some? && HelperAcceptsPlain(lines[1..], s.value))
  }

  predicate ClientAcceptsPlain(lines: seq<string>, section: Option<Section>)
    decreases |lines|
  {
    lines == []
    || (var item := ClientRead(lines[0]);
        var s := ClientItem(section, item);
        PlainItem(item) && s.Some? && ClientAcceptsPlain(lines[1..], s.value))
  }

  /** AssertWireguardConfig: the scanner with the shorter list of keys. */
  method AssertWireguardConfig(config: string) returns (ok: bool)
    ensures ok <==> HelperAcceptsPlain(Split(config, '\n'), None)
  {
    var lines := Split(config, '\n');
    var section: Option<Section> := None;
    for i := 0 to |lines|
      invariant HelperAcceptsPlain(lines, None) <==> HelperAcceptsPlain(lines[i..], section)
    {
      var item := GuardRead(lines[i]);
      assert lines[i..][0] == lines[i] && lines[i..][1..] == lines[i + 1..];
      var next := GuardItem(section, item);
      if !PlainItem(item) || next.None? {
        return false;
      }
      section := next.value;
    }
    ok := true;
  }

  method AssertSafeWireguardConfig(config: string) returns (ok: bool)
    ensures ok <==> ClientAcceptsPlain(Split(config, '\n'), None)
  {
    var lines := Split(config, '\n');
    var section: Option<Section> := None;
    for i := 0 to |lines|
      invariant ClientAcceptsPlain(lines, None) <==> ClientAcceptsPlain(lines[i..], section)
    {
      var item := ClientRead(lines[i]);
      assert lines[i..][0] == lines[i] && lines[i..][1..] == lines[i + 1..];
      var next := ClientItem(section, item);
      if !PlainItem(item) || next.None? {
        return false;
      }
      section := next.value;
    }
    ok := true;
  }

  lemma FirstAndRest(lines: seq<string>, takes: string -> bool)
    requires lines != []
    ensures (forall i :: 0 <= i < |lines| ==> takes(lines[i]))
       <==> takes(lines[0]) && forall i :: 0 <= i < |lines| - 1 ==> takes(lines[1..][i])
  {
    assert forall i :: 0 < i < |lines| ==> lines[i] == lines[1..][i - 1];
    assert forall i :: 0 <= i < |lines| - 1 ==> lines[1..][i] == lines[i + 1];
  }

  lemma {:induction false} PlainAfterClient(lines: seq<string>, section: Option<Section>)
    requires ClientAcceptsPlain(lines, section)
    ensures HelperAcceptsPlain(lines, section) <==> forall i :: 0 <= i < |lines| ==> HelperTakes(lines[i])
    decreases |lines|
  {
    if lines != [] {
      AfterClient(section, lines[0]);
      PlainAfterClient(lines[1..], ClientItem(section, ClientRead(lines[0])).value);
      FirstAndRest(lines, HelperTakes);
    }
  }

  lemma {:induction false} PlainAfterHelper(lines: seq<string>, section: Option<Section>)
    requires HelperAcceptsPlain(lines, section)
    ensures ClientAcceptsPlain(lines, section) <==> forall i :: 0 <= i < |lines| ==> ClientTakes(lines[i])
    decreases |lines|
  {
    if lines != [] {
      AfterHelper(section, lines[0]);
      PlainAfterHelper(lines[1..], GuardItem(section, GuardRead(lines[0])).value);
      FirstAndRest(lines, ClientTakes);
    }
  }

  /** The two guards for plain WireGuard, on one file. */
  lemma WireguardGuardsAgreeIff(config: string)
    ensures var lines := Split(config, '\n');
      var client, helper := ClientAcceptsPlain(lines, None), HelperAcceptsPlain(lines, None);
      && (client ==> (helper <==> forall i :: 0 <= i < |lines| ==> HelperTakes(lines[i])))
      && (helper ==> (client <==> forall i :: 0 <= i < |lines| ==> ClientTakes(lines[i])))
  {
    var lines := Split(config, '\n');
    if ClientAcceptsPlain(lines, None) {
      PlainAfterClient(lines, None);
    }
    if HelperAcceptsPlain(lines, None) {
      PlainAfterHelper(lines, None);
    }
  }

  // ---- files on which they agree, and one on which they do not ---------------------

  lemma {:induction false} SplitHolds(s: string, sep: char, i: nat, c: char)
    requires i < |Split(s, sep)| && c in Split(s, sep)[i]
    ensures c in s
    decreases |s|
  {
    if s != [] {
      var rest := Split(s[1..], sep);
      if s[0] == sep {
        SplitHolds(s[1..], sep, i - 1, c);
      } else if i > 0 {
        SplitHolds(s[1..], sep, i, c);
      } else if c != s[0] {
        SplitHolds(s[1..], sep, 0, c);
      }
    }
  }

  predicate PlainAscii(s: string) {
    forall i :: 0 <= i < |s| ==> s[i] as int < 128 && s[i] != '\r' && s[i] != '\n'
  }

  lemma AsciiShared(s: string)
    requires forall i :: 0 <= i < |s| ==> s[i] as int < 128 && s[i] != NEL
    ensures Shared(s)
  {
  }

  lemma AsciiLine(raw: string)
    requires PlainAscii(raw) && !Unpadded(Trim(raw))
    ensures HelperTakes(raw) && ClientTakes(raw)
  {
    AsciiShared(raw);
    SameTrim(raw);
    var line := Trim(raw);
    TrimHolds(raw, BOM);
    TrimHolds(raw, NEL);
    TrimHolds(raw, DOTTED_I);
    if Bracketed(line) {
      forall i | 0 <= i < |Inner(line)| ensures !LineTerminator(Inner(line)[i]) {
        TrimHolds(raw, Inner(line)[i]);
        assert Inner(line)[i] == line[i + 1];
      }
    }
  }

  /** On ASCII files without carriage returns, the header protection key is all that can part them. */
  lemma AsciiFilesAgree(config: string)
    requires forall c :: c in config ==> c as int < 128 && c != '\r'
    requires forall raw :: raw in Split(config, '\n') ==> !Unpadded(Trim(raw))
    ensures ClientAccepts(Split(config, '\n'), None) <==> Accepts(GuardItems(config), None)
  {
    GuardsAgreeIff(config);
    var lines := Split(config, '\n');
    SplitPieces(config, '\n');
    forall i | 0 <= i < |lines| ensures HelperTakes(lines[i]) && ClientTakes(lines[i]) {
      forall k | 0 <= k < |lines[i]| ensures lines[i][k] as int < 128 && lines[i][k] != '\r' && lines[i][k] != '\n' {
        SplitHolds(config, '\n', i, lines[i][k]);
        assert lines[i][k] in lines[i];
      }
      assert lines[i] in lines;
      AsciiLine(lines[i]);
    }
  }

  lemma TrimTail(s: string, c: char)
    requires s != "" && !IsSpace(s[0]) && !IsSpace(s[|s| - 1]) && IsSpace(c)
    ensures Trim(s + [c]) == s
  {
    var t := s + [c];
    assert t[0] == s[0] && t[..|t| - 1] == s;
    assert TrimLeft(t) == t && TrimRight(t) == TrimRight(s);
  }

  lemma BrokenPeer(line: string)
    requires line == "[" + ("peer" + ['\r']) + "]"
    ensures Bracketed(line) && Inner(line) == "peer" + ['\r'] && '\n' !in line
    ensures Trim(line) == line && JsTrim(line) == line && !OneLine(Inner(line))
  {
    var inner := "peer" + ['\r'];
    assert line[|line| - 1] == ']' && Inner(line) == inner && inner[4] == '\r';
  }

  /** A file that only the helper accepts: its pattern reads over a carriage return in a section's name. */
  lemma ReturnInBrackets()
    ensures var config := "[" + ("peer" + ['\r']) + "]";
      Accepts(GuardItems(config), None) && !ClientAccepts(Split(config, '\n'), None)
  {
    var config := "[" + ("peer" + ['\r']) + "]";
    BrokenPeer(config);
    SplitPieces(config, '\n');
    TrimTail("peer", '\r');
    assert Lower("peer") == "peer";
    GuardsAgreeIff(config);
    assert GuardItems(config) == [Header(Some(Peer))] && GuardItems(config)[1..] == [];
    assert !ClientTakes(Split(config, '\n')[0]);
  }
}
