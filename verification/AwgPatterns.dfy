/**
 The patterns of daemon/internal/guard/guard.go as patterns: each key word's values are exactly the
 language of its regular expression. And what a key's hex form is: the number that its base64 spells.
 */
module AwgPatterns {
  import opened Common
  import opened Text
  import opened AwgIni
  import opened AwgUapi

  // ---- patterns --------------------------------------------------------------------

  /** A literal text, or characters of a class, so many of them. */
  datatype Piece = Literal(text: string) | Many(charset: char -> bool, least: nat, most: Option<nat>)

  predicate Fits(p: Piece, v: string) {
    match p
    case Literal(text) => v == text
    case Many(charset, least, most) =>
      least <= |v| && (most.Some? ==> |v| <= most.value) && forall i :: 0 <= i < |v| ==> charset(v[i])
  }

  /** The whole text is the pieces one after another. */
  ghost predicate Matches(ps: seq<Piece>, v: string)
    decreases |ps|
  {
    if ps == [] then v == "" else exists k :: 0 <= k <= |v| && Fits(ps[0], v[..k]) && Matches(ps[1..], v[k..])
  }

  /** The body of `^(a|b|…)+$`. */
  ghost predicate Repeats(alternatives: seq<seq<Piece>>, v: string)
    decreases |v|
  {
    exists k :: 0 < k <= |v| && Either(alternatives, v[..k]) && (k == |v| || Repeats(alternatives, v[k..]))
  }

  ghost predicate Either(alternatives: seq<seq<Piece>>, v: string) {
    exists i :: 0 <= i < |alternatives| && Matches(alternatives[i], v)
  }

  lemma OnePiece(p: Piece, v: string)
    ensures Matches([p], v) <==> Fits(p, v)
  {
    assert [p][1..] == [];
    assert v[..|v|] == v && v[|v|..] == "";
  }

  lemma FirstPiece(p: Piece, ps: seq<Piece>, x: string, y: string)
    requires Fits(p, x) && Matches(ps, y)
    ensures Matches([p] + ps, x + y)
  {
    var v, k := x + y, |x|;
    assert ([p] + ps)[1..] == ps && v[..k] == x && v[k..] == y;
  }

  lemma AfterFirst(p: Piece, ps: seq<Piece>, v: string) returns (x: string, y: string)
    requires Matches([p] + ps, v)
    ensures v == x + y && Fits(p, x) && Matches(ps, y)
  {
    var all := [p] + ps;
    assert all[1..] == ps;
    var k :| 0 <= k <= |v| && Fits(all[0], v[..k]) && Matches(all[1..], v[k..]);
    x, y := v[..k], v[k..];
  }

  lemma HeadAndTail(ps: seq<Piece>, qs: seq<Piece>)
    requires ps != []
    ensures [ps[0]] + ps[1..] == ps && [ps[0]] + (ps[1..] + qs) == ps + qs
  {
  }

  lemma {:induction false} Joined(ps: seq<Piece>, qs: seq<Piece>, a: string, b: string)
    requires Matches(ps, a) && Matches(qs, b)
    ensures Matches(ps + qs, a + b)
    decreases |ps|
  {
    if ps == [] {
      assert ps + qs == qs && a + b == b;
    } else {
      HeadAndTail(ps, qs);
      var x, y := AfterFirst(ps[0], ps[1..], a);
      Joined(ps[1..], qs, y, b);
      FirstPiece(ps[0], ps[1..] + qs, x, y + b);
      Associate(x, y, b);
    }
  }

  lemma {:induction false} Parted(ps: seq<Piece>, qs: seq<Piece>, v: string) returns (a: string, b: string)
    requires Matches(ps + qs, v)
    ensures v == a + b && Matches(ps, a) && Matches(qs, b)
    decreases |ps|
  {
    if ps == [] {
      a, b := "", v;
      assert ps + qs == qs;
    } else {
      HeadAndTail(ps, qs);
      var x, y := AfterFirst(ps[0], ps[1..] + qs, v);
      a, b := Parted(ps[1..], qs, y);
      FirstPiece(ps[0], ps[1..], x, a);
      Associate(x, a, b);
      a := x + a;
    }
  }

  lemma ThreePieces(p: Piece, q: Piece, r: Piece, x: string, y: string, z: string)
    requires Fits(p, x) && Fits(q, y) && Fits(r, z)
    ensures Matches([p, q, r], x + y + z)
  {
    OnePiece(r, z);
    FirstPiece(q, [r], y, z);
    FirstPiece(p, [q] + [r], x, y + z);
    assert [p] + ([q] + [r]) == [p, q, r];
    Associate(x, y, z);
  }

  lemma PartedInThree(p: Piece, q: Piece, r: Piece, v: string) returns (x: string, y: string, z: string)
    requires Matches([p, q, r], v)
    ensures v == x + y + z && Fits(p, x) && Fits(q, y) && Fits(r, z)
  {
    assert [p] + ([q] + [r]) == [p, q, r];
    var rest;
    x, rest := AfterFirst(p, [q] + [r], v);
    y, z := AfterFirst(q, [r], rest);
    OnePiece(r, z);
    Associate(x, y, z);
  }

  // ---- the guard's patterns --------------------------------------------------------

  predicate DigitClass(c: char) {
    '0' <= c <= '9'
  }

  predicate HexClass(c: char) {
    '0' <= c <= '9' || 'a' <= c <= 'f' || 'A' <= c <= 'F'
  }

  predicate HostClass(c: char) {
    'A' <= c <= 'Z' || 'a' <= c <= 'z' || '0' <= c <= '9' || c in {'.', ':', '_', '-'}
  }

  predicate KeyClass(c: char) {
    'A' <= c <= 'Z' || 'a' <= c <= 'z' || '0' <= c <= '9' || c in {'+', '/'}
  }

  predicate Equals(c: char) {
    c == '='
  }

  predicate Opening(c: char) {
    c == '['
  }

  predicate Closing(c: char) {
    c == ']'
  }

  /** `\d{1,n}` */
  function Number(most: nat): Piece {
    Many(DigitClass, 1, Some(most))
  }

  /** `\[?[A-Za-z0-9.:_-]+\]?` */
  const HOST := [Many(Opening, 0, Some(1)), Many(HostClass, 1, None), Many(Closing, 0, Some(1))]

  lemma NumberMeans(v: string, most: nat)
    ensures Uint(v, most) <==> Matches([Number(most)], v)
  {
    OnePiece(Number(most), v);
  }

  lemma HostMeans(h: string)
    ensures HostShape(h) <==> Matches(HOST, h)
  {
    if HostShape(h) {
      var a := if h != "" && h[0] == '[' then 1 else 0;
      var b := if |h| > a && h[|h| - 1] == ']' then |h| - 1 else |h|;
      ThreePieces(HOST[0], HOST[1], HOST[2], h[..a], h[a..b], h[b..]);
      assert h == h[..a] + h[a..b] + h[b..];
    }
    if Matches(HOST, h) {
      HostTaken(h);
    }
  }

  lemma HostTaken(h: string)
    requires Matches(HOST, h)
    ensures HostShape(h)
  {
    var x, y, z := PartedInThree(HOST[0], HOST[1], HOST[2], h);
    HostOf(x, y, z);
  }

  lemma HostOf(x: string, y: string, z: string)
    requires Fits(HOST[0], x) && Fits(HOST[1], y) && Fits(HOST[2], z)
    ensures HostShape(x + y + z)
  {
    var h, a, b := x + y + z, |x|, |x| + |y|;
    assert forall i :: a <= i < b ==> h[i] == y[i - a];
    assert HostClass(h[a]) && HostClass(h[b - 1]);
    assert a > 0 ==> h[0] == x[0];
    assert z != "" ==> h[b] == z[0] && |h| == b + 1;
  }

  /** The two patterns meet at a separator. */
  ghost predicate MeetAt(ps: seq<Piece>, c: char, qs: seq<Piece>, v: string, i: int) {
    0 <= i < |v| && v[i] == c && Matches(ps, v[..i]) && Matches(qs, v[i + 1..])
  }

  lemma SeparatorFound(ps: seq<Piece>, c: char, qs: seq<Piece>, v: string) returns (i: nat)
    requires Matches(ps + [Literal([c])] + qs, v)
    ensures MeetAt(ps, c, qs, v, i)
  {
    var sep := Literal([c]);
    assert ps + [sep] + qs == ps + ([sep] + qs);
    var x, rest := Parted(ps, [sep] + qs, v);
    var y, z := AfterFirst(sep, qs, rest);
    i := |x|;
    assert y == [c];
    CutOut(x, c, z);
  }

  lemma CutOut(x: string, c: char, z: string)
    ensures var v := x + ([c] + z); v[..|x|] == x && v[|x|] == c && v[|x| + 1..] == z
  {
  }

  lemma SeparatorPut(ps: seq<Piece>, c: char, qs: seq<Piece>, v: string, i: nat)
    requires MeetAt(ps, c, qs, v, i)
    ensures Matches(ps + [Literal([c])] + qs, v)
  {
    var sep, z := Literal([c]), v[i + 1..];
    FirstPiece(sep, qs, [c], z);
    Joined(ps, [sep] + qs, v[..i], [c] + z);
    assert ps + [sep] + qs == ps + ([sep] + qs);
    assert v == v[..i] + ([c] + z);
  }

  lemma Separated(ps: seq<Piece>, c: char, qs: seq<Piece>, v: string)
    ensures Matches(ps + [Literal([c])] + qs, v) <==> exists i :: MeetAt(ps, c, qs, v, i)
  {
    if Matches(ps + [Literal([c])] + qs, v) {
      var i := SeparatorFound(ps, c, qs, v);
    }
    if i :| MeetAt(ps, c, qs, v, i) {
      SeparatorPut(ps, c, qs, v, i);
    }
  }

  ghost predicate CidrPattern(v: string) {
    Matches(HOST, v) || Matches(HOST + [Literal("/")] + [Number(3)], v)
  }

  lemma EndpointMeans(v: string)
    ensures EndpointShape(v) <==> Matches(HOST + [Literal(":")] + [Number(5)], v)
  {
    Separated(HOST, ':', [Number(5)], v);
    forall i | 0 <= i < |v|
      ensures v[i] == ':' && HostShape(v[..i]) && Uint(v[i + 1..], 5) <==> MeetAt(HOST, ':', [Number(5)], v, i)
    {
      HostMeans(v[..i]);
      NumberMeans(v[i + 1..], 5);
    }
  }

  lemma CidrMeans(v: string)
    ensures CidrShape(v) <==> CidrPattern(v)
  {
    HostMeans(v);
    Separated(HOST, '/', [Number(3)], v);
    forall i | 0 <= i < |v|
      ensures v[i] == '/' && HostShape(v[..i]) && Uint(v[i + 1..], 3) <==> MeetAt(HOST, '/', [Number(3)], v, i)
    {
      HostMeans(v[..i]);
      NumberMeans(v[i + 1..], 3);
    }
  }

  lemma RangeMeans(v: string)
    ensures RangeShape(v) <==> Matches([Number(5)], v) || Matches([Number(5)] + [Literal("-")] + [Number(5)], v)
  {
    NumberMeans(v, 5);
    Separated([Number(5)], '-', [Number(5)], v);
    forall i | 0 <= i < |v|
      ensures v[i] == '-' && Uint(v[..i], 5) && Uint(v[i + 1..], 5) <==> MeetAt([Number(5)], '-', [Number(5)], v, i)
    {
      NumberMeans(v[..i], 5);
      NumberMeans(v[i + 1..], 5);
    }
  }

  /** `[A-Za-z0-9+/]+={0,2}` */
  lemma KeyMeans(v: string)
    ensures KeyShape(v) <==> Matches([Many(KeyClass, 1, None)] + [Many(Equals, 0, Some(2))], v)
  {
    var body, pad := Many(KeyClass, 1, None), Many(Equals, 0, Some(2));
    if KeyShape(v) {
      var n := if Padded(v, 0) then 0 else if Padded(v, 1) then 1 else 2;
      var k := |v| - n;
      assert Padded(v, n);
      OnePiece(pad, v[k..]);
      FirstPiece(body, [pad], v[..k], v[k..]);
      assert v == v[..k] + v[k..];
    }
    if Matches([body] + [pad], v) {
      var x, y := AfterFirst(body, [pad], v);
      OnePiece(pad, y);
      assert Padded(v, |y|);
    }
  }

  // ---- signature packets -----------------------------------------------------------

  const HEX_TAG := [Literal("<b 0x"), Many(HexClass, 1, None), Literal(">")]
  const COUNT_TAG := [Literal("<r "), Number(5), Literal(">")]
  const DIGITS_TAG := [Literal("<rd "), Number(5), Literal(">")]
  const LETTERS_TAG := [Literal("<rc "), Number(5), Literal(">")]
  const TIME_TAG := [Literal("<t>")]

  const TAGS := [HEX_TAG, COUNT_TAG, DIGITS_TAG, LETTERS_TAG, TIME_TAG]

  lemma MiddleOf(x: string, y: string, z: string)
    requires |z| == 1
    ensures var v := x + y + z; |x| < |v| && v[..|x|] == x && v[|x|..|v| - 1] == y && v[|v| - 1] == z[0]
  {
  }

  lemma WrappedIn(before: string, p: Piece, v: string)
    requires Matches([Literal(before), p, Literal(">")], v)
    ensures |before| < |v| && v[..|before|] == before && v[|v| - 1] == '>' && Fits(p, v[|before|..|v| - 1])
  {
    var x, y, z := PartedInThree(Literal(before), p, Literal(">"), v);
    MiddleOf(x, y, z);
  }

  lemma WrapIn(before: string, p: Piece, v: string)
    requires |before| < |v| && v[..|before|] == before && v[|v| - 1] == '>' && Fits(p, v[|before|..|v| - 1])
    ensures Matches([Literal(before), p, Literal(">")], v)
  {
    var n, last := |before|, [v[|v| - 1]];
    ThreePieces(Literal(before), p, Literal(">"), before, v[n..|v| - 1], last);
    assert v == v[..n] + v[n..|v| - 1] + last;
  }

  /** A piece between two literals. */
  lemma Wrapped(before: string, p: Piece, v: string)
    ensures Matches([Literal(before), p, Literal(">")], v)
       <==> |before| < |v| && v[..|before|] == before && v[|v| - 1] == '>' && Fits(p, v[|before|..|v| - 1])
  {
    if Matches([Literal(before), p, Literal(">")], v) {
      WrappedIn(before, p, v);
    } else if |before| < |v| && v[..|before|] == before && v[|v| - 1] == '>' && Fits(p, v[|before|..|v| - 1]) {
      WrapIn(before, p, v);
    }
  }

  lemma StartsWith(v: string, start: string, n: nat)
    requires n == |start| <= |v|
    ensures v[..n] == start <==> forall i :: 0 <= i < n ==> v[i] == start[i]
  {
    assert forall i :: 0 <= i < n ==> v[..n][i] == v[i];
  }

  lemma HexTagMeans(v: string)
    ensures Matches(HEX_TAG, v) <==>
      |v| > 5 && v[0] == '<' && v[1] == 'b' && v[2] == ' ' && v[3] == '0' && v[4] == 'x' && HexUpTo(v, 5)
  {
    var start := "<b 0x";
    Wrapped(start, HEX_TAG[1], v);
    if |v| > 5 {
      StartsWith(v, start, 5);
      assert forall i :: 5 <= i < |v| - 1 ==> v[i] == v[5..|v| - 1][i - 5];
    }
  }

  lemma CountMeans(start: string, v: string)
    requires start != ""
    ensures Matches([Literal(start), Number(5), Literal(">")], v)
       <==> |start| < |v| && v[..|start|] == start && CountUpTo(v, |start|)
  {
    var n := |start|;
    Wrapped(start, Number(5), v);
    if n < |v| {
      assert forall i :: n <= i < |v| - 1 ==> v[i] == v[n..|v| - 1][i - n];
    }
  }

  lemma CountTagsMean(v: string)
    ensures Matches(COUNT_TAG, v) <==> |v| > 3 && v[0] == '<' && v[1] == 'r' && v[2] == ' ' && CountUpTo(v, 3)
    ensures Matches(DIGITS_TAG, v) <==>
      |v| > 4 && v[0] == '<' && v[1] == 'r' && v[2] == 'd' && v[3] == ' ' && CountUpTo(v, 4)
    ensures Matches(LETTERS_TAG, v) <==>
      |v| > 4 && v[0] == '<' && v[1] == 'r' && v[2] == 'c' && v[3] == ' ' && CountUpTo(v, 4)
  {
    var r, d, c := "<r ", "<rd ", "<rc ";
    CountMeans(r, v);
    CountMeans(d, v);
    CountMeans(c, v);
    if |v| > 3 {
      StartsWith(v, r, 3);
    }
    if |v| > 4 {
      StartsWith(v, d, 4);
      StartsWith(v, c, 4);
    }
  }

  lemma TimeTagMeans(v: string)
    ensures Matches(TIME_TAG, v) <==> |v| == 3 && v[0] == '<' && v[1] == 't' && v[2] == '>'
  {
    var t := "<t>";
    OnePiece(Literal(t), v);
    if |v| == 3 {
      StartsWith(v, t, 3);
      assert v[..3] == v;
    }
  }

  lemma EitherTag(v: string)
    ensures Either(TAGS, v) <==>
      (|| Matches(HEX_TAG, v) || Matches(COUNT_TAG, v) || Matches(DIGITS_TAG, v) || Matches(LETTERS_TAG, v)
       || Matches(TIME_TAG, v))
  {
    var tags := TAGS;
    assert tags[0] == HEX_TAG && tags[1] == COUNT_TAG && tags[2] == DIGITS_TAG && tags[3] == LETTERS_TAG
        && tags[4] == TIME_TAG && |tags| == 5;
  }

  lemma TagMeans(v: string)
    ensures Tag(v) <==> Either(TAGS, v)
  {
    EitherTag(v);
    HexTagMeans(v);
    CountTagsMean(v);
    TimeTagMeans(v);
  }

  /** A tag has one '>', at its end. */
  lemma TagEnds(v: string, k: nat)
    requires 0 < k <= |v| && Tag(v[..k])
    ensures IndexOf(v, '>') + 1 == k
  {
    var tag := v[..k];
    assert tag[k - 1] == '>' && forall i :: 0 <= i < k - 1 ==> tag[i] != '>';
    assert v == tag[..k - 1] + ['>'] + v[k..];
    IndexOfFirst(tag[..k - 1], v[k..], '>');
  }

  lemma {:induction false} TagsMean(v: string)
    ensures Tags(v) <==> Repeats(TAGS, v)
    decreases |v|
  {
    var n := IndexOf(v, '>') + 1;
    if Tags(v) {
      TagMeans(v[..n]);
      if n < |v| {
        TagsMean(v[n..]);
      }
    }
    if Repeats(TAGS, v) {
      var k :| 0 < k <= |v| && Either(TAGS, v[..k]) && (k == |v| || Repeats(TAGS, v[k..]));
      TagMeans(v[..k]);
      TagEnds(v, k);
      if k < |v| {
        TagsMean(v[k..]);
      }
    }
  }

  // ---- the value of each key word --------------------------------------------------

  /** What the guard does with `word = value` in a section. */
  predicate Admits(s: Section, word: string, v: string) {
    KeyAccepted(Some(s), KeyOf(word), v)
  }

  /** So many digits at most, and so large a number. */
  ghost predicate Bounded(v: string, width: nat, most: nat) {
    Matches([Many(DigitClass, 1, Some(width))], v) && (OnePiece(Number(width), v); Num(v) <= most)
  }

  lemma SixteenBitWord(word: string)
    requires word == "jc" || word == "jmin" || word == "jmax" || word == "s1" || word == "s2" || word == "s3" || word == "s4"
    ensures KeyOf(word).Some? && var k := KeyOf(word).value; k.Jc? || k.Jmin? || k.Jmax? || k.S?
  {
  }

  lemma SixteenBitKey(k: Key, v: string)
    requires k.Jc? || k.Jmin? || k.Jmax? || k.S?
    ensures KeyAccepted(Some(Interface), Some(k), v) <==> Bounded(v, 5, 65535)
  {
    NumberMeans(v, 5);
    OnePiece(Number(5), v);
  }

  lemma SixteenBits(word: string, v: string)
    requires word == "jc" || word == "jmin" || word == "jmax" || word == "s1" || word == "s2" || word == "s3" || word == "s4"
    ensures Admits(Interface, word, v) <==> Bounded(v, 5, 65535)
  {
    SixteenBitWord(word);
    SixteenBitKey(KeyOf(word).value, v);
  }

  lemma ThirtyTwoBits(word: string, v: string)
    requires word == "h1" || word == "h2" || word == "h3" || word == "h4"
    ensures Admits(Interface, word, v) <==> Bounded(v, 10, 4294967295)
  {
    NumberMeans(v, 10);
    OnePiece(Number(10), v);
  }

  lemma SignatureWord(word: string)
    requires word == "i1" || word == "i2" || word == "i3" || word == "i4" || word == "i5"
    ensures KeyOf(word).Some? && KeyOf(word).value.I?
  {
  }

  lemma Signatures(word: string, v: string)
    requires word == "i1" || word == "i2" || word == "i3" || word == "i4" || word == "i5"
    ensures Admits(Interface, word, v) <==> |v| <= 4096 && Repeats(TAGS, v)
  {
    SignatureWord(word);
    SignatureMeans(KeyOf(word), v);
  }

  lemma SignatureMeans(key: Option<Key>, v: string)
    requires key.Some? && key.value.I?
    ensures KeyAccepted(Some(Interface), key, v) <==> |v| <= 4096 && Repeats(TAGS, v)
  {
    TagsMean(v);
  }

  lemma Numbers(word: string, v: string)
    ensures word == "mtu" || word == "listenport" ==> (Admits(Interface, word, v) <==> Matches([Number(7)], v))
    ensures word == "persistentkeepalive" ==> (Admits(Peer, word, v) <==> Matches([Number(7)], v))
  {
    NumberMeans(v, 7);
  }

  lemma Keys(word: string, v: string)
    ensures word == "privatekey" ==>
      (Admits(Interface, word, v) <==> Matches([Many(KeyClass, 1, None)] + [Many(Equals, 0, Some(2))], v))
    ensures word == "publickey" || word == "presharedkey" ==>
      (Admits(Peer, word, v) <==> Matches([Many(KeyClass, 1, None)] + [Many(Equals, 0, Some(2))], v))
  {
    KeyMeans(v);
  }

  lemma Key32Means(v: string)
    ensures KeyShape(v) && Key32(v) <==> Matches([Many(KeyClass, 43, Some(43))] + [Literal("=")], v)
  {
    var body, pad := Many(KeyClass, 43, Some(43)), Literal("=");
    if Key32(v) {
      assert Padded(v, 1) && v[43..] == "=";
      OnePiece(pad, v[43..]);
      FirstPiece(body, [pad], v[..43], v[43..]);
      assert v == v[..43] + v[43..];
    }
    if Matches([body] + [pad], v) {
      var x, y := AfterFirst(body, [pad], v);
      OnePiece(pad, y);
      assert Padded(v, 1);
    }
  }

  /** What decodes to 32 bytes: 43 characters and one '='. */
  lemma HeaderKeys(word: string, v: string)
    requires word == "headerprotectionkey"
    ensures Admits(Interface, word, v) <==> Matches([Many(KeyClass, 43, Some(43))] + [Literal("=")], v)
  {
    Key32Means(v);
  }

  lemma Trailers(word: string, v: string)
    requires word == "randomtrailers"
    ensures Admits(Interface, word, v) <==> v == "on" || v == "off"
  {
  }

  lemma Paddings(word: string, v: string)
    requires word == "contentpaddingaddition"
    ensures Admits(Interface, word, v) <==> Matches([Number(5)], v) || Matches([Number(5)] + [Literal("-")] + [Number(5)], v)
  {
    RangeMeans(v);
  }

  lemma Endpoints(word: string, v: string)
    requires word == "endpoint"
    ensures Admits(Peer, word, v) <==> Matches(HOST + [Literal(":")] + [Number(5)], v)
  {
    EndpointMeans(v);
  }

  /** Addresses between commas, blanks aside; an empty place is skipped. */
  ghost predicate ListPattern(v: string) {
    forall i :: 0 <= i < |Split(v, ',')| ==> var item := Trim(Split(v, ',')[i]); item == "" || CidrPattern(item)
  }

  lemma ListMeans(v: string)
    ensures ListShape(v) <==> ListPattern(v)
  {
    var items := Split(v, ',');
    forall i | 0 <= i < |items| ensures CidrShape(Trim(items[i])) <==> CidrPattern(Trim(items[i])) {
      CidrMeans(Trim(items[i]));
    }
  }

  lemma ListWord(word: string)
    ensures word == "address" ==> KeyOf(word) == Some(Address)
    ensures word == "dns" ==> KeyOf(word) == Some(Dns)
    ensures word == "allowedips" ==> KeyOf(word) == Some(AllowedIps)
  {
  }

  lemma ListKey(k: Key, v: string)
    ensures k.Address? || k.Dns? ==> (KeyAccepted(Some(Interface), Some(k), v) <==> ListPattern(v))
    ensures k.AllowedIps? ==> (KeyAccepted(Some(Peer), Some(k), v) <==> ListPattern(v))
  {
    ListMeans(v);
  }

  lemma Lists(word: string, v: string)
    requires word == "address" || word == "dns" || word == "allowedips"
    ensures word != "allowedips" ==> (Admits(Interface, word, v) <==> ListPattern(v))
    ensures word == "allowedips" ==> (Admits(Peer, word, v) <==> ListPattern(v))
  {
    ListWord(word);
    ListKey(KeyOf(word).value, v);
  }

  predicate ObfuscationWord(word: string) {
    || word == "jc" || word == "jmin" || word == "jmax" || word == "s1" || word == "s2" || word == "s3" || word == "s4"
    || word == "h1" || word == "h2" || word == "h3" || word == "h4"
    || word == "i1" || word == "i2" || word == "i3" || word == "i4" || word == "i5"
  }

  predicate InterfaceWord(word: string) {
    || word == "privatekey" || word == "address" || word == "dns" || word == "mtu" || word == "listenport"
    || ObfuscationWord(word)
    || word == "headerprotectionkey" || word == "randomtrailers" || word == "contentpaddingaddition"
  }

  predicate PeerWord(word: string) {
    || word == "publickey" || word == "presharedkey" || word == "allowedips" || word == "endpoint"
    || word == "persistentkeepalive"
  }

  lemma KnownWord(word: string)
    requires KeyOf(word).Some?
    ensures Allowed(Interface, KeyOf(word).value) ==> InterfaceWord(word)
    ensures Allowed(Peer, KeyOf(word).value) ==> PeerWord(word)
  {
  }

  /** No other word is admitted. */
  lemma OtherWords(word: string, v: string)
    ensures Admits(Interface, word, v) ==> InterfaceWord(word)
    ensures Admits(Peer, word, v) ==> PeerWord(word)
  {
    if KeyOf(word).Some? {
      KnownWord(word);
    }
  }

  /** The pattern of each word of [Interface]; no other is admitted there. */
  ghost predicate InterfacePattern(word: string, v: string) {
    if word == "jc" || word == "jmin" || word == "jmax" || word == "s1" || word == "s2" || word == "s3" || word == "s4" then
      Bounded(v, 5, 65535)
    else if word == "h1" || word == "h2" || word == "h3" || word == "h4" then Bounded(v, 10, 4294967295)
    else if word == "i1" || word == "i2" || word == "i3" || word == "i4" || word == "i5" then |v| <= 4096 && Repeats(TAGS, v)
    else OwnPattern(word, v)
  }

  ghost predicate OwnPattern(word: string, v: string) {
    if word == "privatekey" then Matches([Many(KeyClass, 1, None)] + [Many(Equals, 0, Some(2))], v)
    else if word == "address" || word == "dns" then ListPattern(v)
    else if word == "mtu" || word == "listenport" then Matches([Number(7)], v)
    else if word == "headerprotectionkey" then Matches([Many(KeyClass, 43, Some(43))] + [Literal("=")], v)
    else if word == "randomtrailers" then v == "on" || v == "off"
    else
      word == "contentpaddingaddition"
      && (Matches([Number(5)], v) || Matches([Number(5)] + [Literal("-")] + [Number(5)], v))
  }

  /** And of each word of [Peer]. */
  ghost predicate PeerPattern(word: string, v: string) {
    if word == "publickey" || word == "presharedkey" then Matches([Many(KeyClass, 1, None)] + [Many(Equals, 0, Some(2))], v)
    else if word == "allowedips" then ListPattern(v)
    else if word == "endpoint" then Matches(HOST + [Literal(":")] + [Number(5)], v)
    else word == "persistentkeepalive" && Matches([Number(7)], v)
  }

  lemma OwnWords(word: string, v: string)
    requires !ObfuscationWord(word)
    ensures Admits(Interface, word, v) <==> OwnPattern(word, v)
  {
    if word == "privatekey" {
      Keys(word, v);
    } else if word == "address" || word == "dns" {
      Lists(word, v);
    } else if word == "mtu" || word == "listenport" {
      Numbers(word, v);
    } else if word == "headerprotectionkey" {
      HeaderKeys(word, v);
    } else if word == "randomtrailers" {
      Trailers(word, v);
    } else if word == "contentpaddingaddition" {
      Paddings(word, v);
    } else {
      OtherWords(word, v);
    }
  }

  lemma PeerWords(word: string, v: string)
    ensures Admits(Peer, word, v) <==> PeerPattern(word, v)
  {
    if word == "publickey" || word == "presharedkey" {
      Keys(word, v);
    } else if word == "allowedips" {
      Lists(word, v);
    } else if word == "endpoint" {
      Endpoints(word, v);
    } else if word == "persistentkeepalive" {
      Numbers(word, v);
    } else {
      OtherWords(word, v);
    }
  }

  /** The guard admits a word with a value in a section exactly by that word's pattern. */
  lemma GuardTable(word: string, v: string)
    ensures Admits(Interface, word, v) <==> InterfacePattern(word, v)
    ensures Admits(Peer, word, v) <==> PeerPattern(word, v)
  {
    PeerWords(word, v);
    if word == "jc" || word == "jmin" || word == "jmax" || word == "s1" || word == "s2" || word == "s3" || word == "s4" {
      SixteenBits(word, v);
    } else if word == "h1" || word == "h2" || word == "h3" || word == "h4" {
      ThirtyTwoBits(word, v);
    } else if word == "i1" || word == "i2" || word == "i3" || word == "i4" || word == "i5" {
      Signatures(word, v);
    } else {
      OwnWords(word, v);
    }
  }

  // ---- the translator's words ------------------------------------------------------

  lemma ObfuscationWordKnown(word: string)
    requires ObfuscationWord(word)
    ensures KeyOf(word).Some? && Known(Interface, KeyOf(word).value)
  {
  }

  lemma TierWordKnown(word: string)
    requires word == "headerprotectionkey" || word == "randomtrailers" || word == "contentpaddingaddition"
    ensures KeyOf(word).Some? && Known(Interface, KeyOf(word).value)
  {
  }

  lemma InterfaceWordKnown(word: string)
    requires InterfaceWord(word) || word == "table"
    ensures KeyOf(word).Some? && Known(Interface, KeyOf(word).value)
  {
    if ObfuscationWord(word) {
      ObfuscationWordKnown(word);
    } else if word == "headerprotectionkey" || word == "randomtrailers" || word == "contentpaddingaddition" {
      TierWordKnown(word);
    }
  }

  lemma PeerWordKnown(word: string)
    requires PeerWord(word)
    ensures KeyOf(word).Some? && Known(Peer, KeyOf(word).value)
  {
  }

  lemma TranslatorsWord(word: string)
    requires KeyOf(word).Some?
    ensures Known(Interface, KeyOf(word).value) ==> InterfaceWord(word) || word == "table"
    ensures Known(Peer, KeyOf(word).value) ==> PeerWord(word)
  {
  }

  lemma TranslatedWords(word: string)
    ensures KeyOf(word).Some? && Known(Interface, KeyOf(word).value) <==> InterfaceWord(word) || word == "table"
    ensures KeyOf(word).Some? && Known(Peer, KeyOf(word).value) <==> PeerWord(word)
  {
    if InterfaceWord(word) || word == "table" {
      InterfaceWordKnown(word);
    }
    if PeerWord(word) {
      PeerWordKnown(word);
    }
    if KeyOf(word).Some? {
      TranslatorsWord(word);
    }
  }

  /** The name that the device knows a word by. */
  function SpelledAs(word: string): string {
    Spell(Of(if KeyOf(word).Some? then KeyOf(word).value else Table))
  }

  lemma LongDeviceNames(word: string)
    ensures word == "privatekey" ==> SpelledAs(word) == "private_key"
    ensures word == "listenport" ==> SpelledAs(word) == "listen_port"
    ensures word == "headerprotectionkey" ==> SpelledAs(word) == "header_protection_key"
    ensures word == "randomtrailers" ==> SpelledAs(word) == "random_trailers"
    ensures word == "contentpaddingaddition" ==> SpelledAs(word) == "content_padding_addition"
  {
  }

  lemma JunkNames(word: string)
    requires word == "jc" || word == "jmin" || word == "jmax"
    ensures SpelledAs(word) == word
  {
  }

  lemma NumberedNames(word: string)
    requires |word| == 2 && IsDigit(word[1]) && InterfaceWord(word)
    ensures SpelledAs(word) == word
  {
    assert word == [word[0], word[1]];
  }

  lemma PeerNamesMean(word: string)
    ensures word == "publickey" ==> SpelledAs(word) == "public_key"
    ensures word == "presharedkey" ==> SpelledAs(word) == "preshared_key"
    ensures word == "endpoint" ==> SpelledAs(word) == "endpoint"
    ensures word == "persistentkeepalive" ==> SpelledAs(word) == "persistent_keepalive_interval"
  {
  }

  /** A word and a value that are translated, and what they become. */
  predicate Becomes(word: string, v: string, out: string) {
    var k := KeyOf(word);
    k.Some? && !Skipped(k.value) && !k.value.AllowedIps? && Convertible(k.value, v) && Translate(k.value, v) == out
  }

  lemma KeyWord(word: string)
    requires word == "privatekey" || word == "publickey" || word == "presharedkey" || word == "headerprotectionkey"
    ensures KeyOf(word).Some? && KeyValued(KeyOf(word).value)
  {
  }

  lemma KeysBecome(word: string, v: string, out: string)
    requires word == "privatekey" || word == "publickey" || word == "presharedkey" || word == "headerprotectionkey"
    ensures Key32(v) <==> Matches([Many(KeyClass, 43, Some(43))] + [Literal("=")], v)
    ensures Becomes(word, v, out) <==> Key32(v) && out == Hex(v)
  {
    KeyWord(word);
    Key32Means(v);
    if Key32(v) {
      assert Padded(v, 1);
    }
  }

  lemma NumericWord(word: string)
    requires NumericName(word)
    ensures KeyOf(word).Some? && Numeric(KeyOf(word).value)
  {
  }

  lemma NumbersBecome(word: string, v: string, out: string)
    requires NumericName(word)
    ensures Becomes(word, v, out) <==> Digits(v) && Num(v) <= 4294967295 && out == v
  {
    NumericWord(word);
    NumericKeyBecomes(KeyOf(word).value, v);
  }

  lemma NumericKeyBecomes(k: Key, v: string)
    requires Numeric(k)
    ensures !Skipped(k) && !k.AllowedIps? && (Convertible(k, v) <==> Digits(v) && Num(v) <= 4294967295)
    ensures Convertible(k, v) ==> Translate(k, v) == v
  {
  }

  lemma TrailersBecome(word: string, v: string, out: string)
    requires word == "randomtrailers"
    ensures Becomes(word, v, out) <==> (Lower(v) == "on" && out == "true") || (Lower(v) == "off" && out == "false")
  {
  }

  lemma PaddingsBecome(word: string, v: string, out: string)
    requires word == "contentpaddingaddition"
    ensures Becomes(word, v, out) <==> RangeShape(v) && out == v
  {
  }

  /** Passed on as they are. */
  lemma OthersBecome(word: string, v: string, out: string)
    requires word == "endpoint" || word == "i1" || word == "i2" || word == "i3" || word == "i4" || word == "i5"
    ensures Becomes(word, v, out) <==> out == v
  {
    if word != "endpoint" {
      SignatureWord(word);
    }
  }

  lemma SkippedWords(word: string)
    requires word == "address" || word == "dns" || word == "mtu" || word == "table"
    ensures KeyOf(word).Some? && Skipped(KeyOf(word).value)
  {
  }

  /** No place between the commas may be empty. */
  lemma AllowedIpsTaken(word: string, v: string)
    requires word == "allowedips"
    ensures KeyOf(word) == Some(AllowedIps) && (Convertible(AllowedIps, v) <==> forall i :: 0 <= i < |Split(v, ',')| ==> Trim(Split(v, ',')[i]) != "")
  {
    if "" in Pieces(v) {
      var i :| 0 <= i < |Pieces(v)| && Pieces(v)[i] == "";
      assert Trim(Split(v, ',')[i]) == "";
    }
  }

  predicate NumericName(word: string) {
    || word == "listenport" || word == "jc" || word == "jmin" || word == "jmax" || word == "persistentkeepalive"
    || word == "s1" || word == "s2" || word == "s3" || word == "s4"
    || word == "h1" || word == "h2" || word == "h3" || word == "h4"
  }

  /** What each word's value becomes; no other word is passed on as one line. */
  ghost predicate Translation(word: string, v: string, out: string) {
    if word == "privatekey" || word == "publickey" || word == "presharedkey" || word == "headerprotectionkey" then
      Matches([Many(KeyClass, 43, Some(43))] + [Literal("=")], v) && (KeysBecome(word, v, out); out == Hex(v))
    else if NumericName(word) then Digits(v) && Num(v) <= 4294967295 && out == v
    else if word == "randomtrailers" then (Lower(v) == "on" && out == "true") || (Lower(v) == "off" && out == "false")
    else if word == "contentpaddingaddition" then
      (Matches([Number(5)], v) || Matches([Number(5)] + [Literal("-")] + [Number(5)], v)) && out == v
    else (word == "endpoint" || word == "i1" || word == "i2" || word == "i3" || word == "i4" || word == "i5") && out == v
  }

  lemma KnownSomewhere(word: string)
    requires KeyOf(word).Some?
    ensures Known(Interface, KeyOf(word).value) || Known(Peer, KeyOf(word).value)
  {
  }

  lemma NothingElseBecomes(word: string, v: string, out: string)
    requires !InterfaceWord(word) && !PeerWord(word)
    ensures !Becomes(word, v, out)
  {
    if KeyOf(word).Some? {
      KnownSomewhere(word);
      TranslatedWords(word);
      assert word == "table";
      SkippedWords(word);
    }
  }

  /** The translator passes a word with its value on exactly so. */
  lemma TranslatorTable(word: string, v: string, out: string)
    ensures Becomes(word, v, out) <==> Translation(word, v, out)
  {
    if word == "privatekey" || word == "publickey" || word == "presharedkey" || word == "headerprotectionkey" {
      KeysBecome(word, v, out);
    } else if NumericName(word) {
      NumbersBecome(word, v, out);
    } else if word == "randomtrailers" {
      TrailersBecome(word, v, out);
    } else if word == "contentpaddingaddition" {
      RangeMeans(v);
      PaddingsBecome(word, v, out);
    } else {
      RestBecomes(word, v, out);
    }
  }

  lemma RestBecomes(word: string, v: string, out: string)
    requires word != "privatekey" && word != "publickey" && word != "presharedkey" && word != "headerprotectionkey"
    requires !NumericName(word) && word != "randomtrailers" && word != "contentpaddingaddition"
    ensures Becomes(word, v, out)
       <==> (word == "endpoint" || word == "i1" || word == "i2" || word == "i3" || word == "i4" || word == "i5") && out == v
  {
    if word == "endpoint" || word == "i1" || word == "i2" || word == "i3" || word == "i4" || word == "i5" {
      OthersBecome(word, v, out);
    } else if word == "address" || word == "dns" || word == "mtu" {
      SkippedWords(word);
    } else if word == "allowedips" {
      AllowedIpsTaken(word, v);
    } else {
      NothingElseBecomes(word, v, out);
    }
  }

  /** The name under which each word's line is written. */
  function NameOfWord(word: string): string {
    if word == "privatekey" then "private_key"
    else if word == "listenport" then "listen_port"
    else if word == "headerprotectionkey" then "header_protection_key"
    else if word == "randomtrailers" then "random_trailers"
    else if word == "contentpaddingaddition" then "content_padding_addition"
    else if word == "publickey" then "public_key"
    else if word == "presharedkey" then "preshared_key"
    else if word == "persistentkeepalive" then "persistent_keepalive_interval"
    else word
  }

  lemma NameTable(word: string)
    requires (InterfaceWord(word) && word != "address" && word != "dns" && word != "mtu")
          || (PeerWord(word) && word != "allowedips")
    ensures SpelledAs(word) == NameOfWord(word)
  {
    if word == "jc" || word == "jmin" || word == "jmax" {
      JunkNames(word);
    } else if ObfuscationWord(word) {
      NumberedNames(word);
    } else if PeerWord(word) {
      PeerNamesMean(word);
    } else {
      LongDeviceNames(word);
    }
  }

  // ---- a key as a number -----------------------------------------------------------

  const UPPER := "ABCDEFGHIJKLMNOPQRSTUVWXYZ"
  const LOWER := "abcdefghijklmnopqrstuvwxyz"
  const TEN_DIGITS := "0123456789"

  lemma UpperAt(n: nat)
    requires n < 26
    ensures |UPPER| == 26 && UPPER[n] as int == 'A' as int + n
  {
    var letters := "ABCDEFGHIJKLMNOPQRSTUVWXYZ";
    assert letters == UPPER && letters[n] as int == 'A' as int + n;
  }

  lemma LowerAt(n: nat)
    requires n < 26
    ensures |LOWER| == 26 && LOWER[n] as int == 'a' as int + n
  {
    var letters := "abcdefghijklmnopqrstuvwxyz";
    assert letters == LOWER && letters[n] as int == 'a' as int + n;
  }

  lemma DigitAt(n: nat)
    requires n < 10
    ensures |TEN_DIGITS| == 10 && TEN_DIGITS[n] as int == '0' as int + n
  {
    var digits := "0123456789";
    assert digits == TEN_DIGITS && digits[n] as int == '0' as int + n;
  }

  /** A character's value is its place in the alphabet of base64. */
  lemma SextetMeans(c: char)
    requires Base64Char(c)
    ensures var n := Sextet(c);
      if n < 26 then |UPPER| == 26 && c == UPPER[n]
      else if n < 52 then |LOWER| == 26 && c == LOWER[n - 26]
      else if n < 62 then |TEN_DIGITS| == 10 && c == TEN_DIGITS[n - 52]
      else c == if n == 62 then '+' else '/'
  {
    var n := Sextet(c);
    if n < 26 {
      UpperAt(n);
      assert c as int == UPPER[n] as int;
    } else if n < 52 {
      LowerAt(n - 26);
      assert c as int == LOWER[n - 26] as int;
    } else if n < 62 {
      DigitAt(n - 52);
      assert c as int == TEN_DIGITS[n - 52] as int;
    }
  }

  function Base64Number(s: string): nat {
    if s == "" then 0 else Base64Number(s[..|s| - 1]) * 64 + Sextet(s[|s| - 1])
  }

  function HexValue(c: char): nat
    requires HexClass(c)
  {
    if c <= '9' then c as int - '0' as int
    else if c <= 'F' then c as int - 'A' as int + 10 else c as int - 'a' as int + 10
  }

  function HexNumber(h: string): nat
    requires forall i :: 0 <= i < |h| ==> HexClass(h[i])
  {
    if h == "" then 0
    else
      assert HexClass(h[|h| - 1]);
      HexNumber(h[..|h| - 1]) * 16 + HexValue(h[|h| - 1])
  }

  lemma HexSnoc(h: string, c: char)
    requires HexClass(c) && forall i :: 0 <= i < |h| ==> HexClass(h[i])
    ensures HexNumber(h + [c]) == HexNumber(h) * 16 + HexValue(c)
  {
    assert (h + [c])[..|h|] == h;
  }

  lemma Base64Snoc(s: string, c: char)
    ensures Base64Number(s + [c]) == Base64Number(s) * 64 + Sextet(c)
  {
    assert (s + [c])[..|s|] == s;
  }

  lemma HexTake(h: string, n: nat)
    requires n < |h| && forall i :: 0 <= i < |h| ==> HexClass(h[i])
    ensures HexNumber(h[..n + 1]) == HexNumber(h[..n]) * 16 + HexValue(h[n])
  {
    HexSnoc(h[..n], h[n]);
    assert h[..n + 1] == h[..n] + [h[n]];
  }

  lemma HexThree(h: string, n: nat, a: nat, b: nat, c: nat)
    requires n + 3 <= |h| && forall i :: 0 <= i < |h| ==> HexClass(h[i])
    requires a < 16 && b < 16 && c < 16 && h[n] == HexDigit(a) && h[n + 1] == HexDigit(b) && h[n + 2] == HexDigit(c)
    ensures HexNumber(h[..n + 3]) == HexNumber(h[..n]) * 4096 + a * 256 + b * 16 + c
  {
    HexTake(h, n);
    HexTake(h, n + 1);
    HexTake(h, n + 2);
  }

  lemma Base64Two(v: string, n: nat)
    requires n + 2 <= |v|
    ensures Base64Number(v[..n + 2]) == Base64Number(v[..n]) * 4096 + Sextet(v[n]) * 64 + Sextet(v[n + 1])
  {
    Base64Snoc(v[..n], v[n]);
    Base64Snoc(v[..n + 1], v[n + 1]);
    assert v[..n + 1] == v[..n] + [v[n]] && v[..n + 2] == v[..n + 1] + [v[n + 1]];
  }

  lemma TwelveBits(x: nat, y: nat)
    requires x < 64 && y < 64
    ensures x / 4 * 256 + (x % 4 * 4 + y / 16) * 16 + y % 16 == x * 64 + y
  {
  }

  /** Two characters of base64 and three hex digits hold the same bits. */
  lemma {:induction false} PrefixSpells(v: string, h: string, j: nat)
    requires Key32(v) && h == Hex(v) && j <= 21
    ensures HexNumber(h[..3 * j]) == Base64Number(v[..2 * j])
  {
    if j > 0 {
      var i := j - 1;
      PrefixSpells(v, h, i);
      NibblesOf(v, i);
      HexThree(h, 3 * i, Nibble(v, 3 * i), Nibble(v, 3 * i + 1), Nibble(v, 3 * i + 2));
      Base64Two(v, 2 * i);
      TwelveBits(Sextet(v[2 * i]), Sextet(v[2 * i + 1]));
    }
  }

  /** The device is given the number that the key spells: 258 bits, of which the last two are dropped. */
  lemma HexSpellsTheKey(v: string)
    requires Key32(v)
    ensures HexNumber(Hex(v)) == Base64Number(v[..43]) / 4
  {
    var h := Hex(v);
    PrefixSpells(v, h, 21);
    assert h[..63] + [h[63]] == h && v[..42] + [v[42]] == v[..43];
    HexSnoc(h[..63], h[63]);
    Base64Snoc(v[..42], v[42]);
    assert h[63] == HexDigit(Nibble(v, 63)) && Nibble(v, 63) == Sextet(v[42]) / 4;
  }
}
