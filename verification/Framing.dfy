/**
 The newline framing of daemon/internal/protocol/protocol.go: bytes arrive in reads of at most
 16 KiB, lines are yielded one by one, and the unterminated rest is capped.
 */
module Framing {
  import opened Common

  type Byte = n: nat | n < 256
  type Bytes = seq<Byte>

  const NEWLINE: Byte := 10
  const MAX_MESSAGE_BYTES: nat := 262144
  const CHUNK_BYTES: nat := 16384

  datatype Read = Line(bytes: Bytes) | TooLarge | Eof | Failed

  /** What comes of the last read that the connection answers. */
  datatype End = CleanEnd | Broken

  /** What the connection has still to deliver: whole reads, and one that brings an error, perhaps with bytes. */
  datatype Source = Source(chunks: seq<Bytes>, last: Bytes, end: End)

  /** The first newline, or the length. */
  function NewlineAt(b: Bytes): (i: nat)
    ensures i <= |b| && NEWLINE !in b[..i] && (i < |b| ==> b[i] == NEWLINE)
    ensures i == |b| <==> NEWLINE !in b
  {
    if b == [] || b[0] == NEWLINE then 0
    else
      assert b == [b[0]] + b[1..];
      1 + NewlineAt(b[1..])
  }

  datatype Next = Next(read: Read, buf: Bytes, src: Source)

  /** The read that brings the error. */
  function AtEnd(buf: Bytes, src: Source): Next {
    var all, spent := buf + src.last, Source([], [], src.end);
    if src.end.Broken? then Next(Failed, all, spent)
    else if |all| > MAX_MESSAGE_BYTES then Next(TooLarge, all, spent)
    else if all != [] then Next(Line(all), [], spent)
    else Next(Eof, [], spent)
  }

  /** One ReadLine, from what is buffered and the reads still to come. */
  function ReadNext(buf: Bytes, src: Source): Next
    decreases |src.chunks|
  {
    var i := NewlineAt(buf);
    if i < |buf| then Next(Line(buf[..i]), buf[i + 1..], src)
    else if |buf| > MAX_MESSAGE_BYTES then Next(TooLarge, buf, src)
    else if src.chunks == [] then AtEnd(buf, src)
    else ReadNext(buf + src.chunks[0], src.(chunks := src.chunks[1..]))
  }

  class Reader {
    var buf: Bytes
    var src: Source

    constructor (src: Source)
      ensures buf == [] && this.src == src
    {
      buf, this.src := [], src;
    }

    method ReadLine() returns (r: Read)
      modifies this
      ensures Next(r, buf, src) == ReadNext(old(buf), old(src))
    {
      while true
        invariant ReadNext(buf, src) == ReadNext(old(buf), old(src))
        decreases |src.chunks|
      {
        var i := NewlineAt(buf);
        if i < |buf| {
          r := Line(buf[..i]);
          buf := buf[i + 1..];
          return;
        }
        if |buf| > MAX_MESSAGE_BYTES {
          return TooLarge;
        }
        if src.chunks == [] {
          buf, src := buf + src.last, src.(last := []);
          if src.end.CleanEnd? {
            if |buf| > MAX_MESSAGE_BYTES {
              return TooLarge;
            }
            if |buf| > 0 {
              r := Line(buf);
              buf := [];
              return;
            }
            return Eof;
          }
          return Failed;
        }
        buf, src := buf + src.chunks[0], src.(chunks := src.chunks[1..]);
      }
    }
  }

  // ---- the stream ------------------------------------------------------------------

  function Flat(chunks: seq<Bytes>): Bytes
    decreases |chunks|
  {
    if chunks == [] then [] else chunks[0] + Flat(chunks[1..])
  }

  /** All bytes that are still to come. */
  function Rest(src: Source): Bytes {
    Flat(src.chunks) + src.last
  }

  predicate Delivered(src: Source) {
    |src.last| <= CHUNK_BYTES && forall i :: 0 <= i < |src.chunks| ==> |src.chunks[i]| <= CHUNK_BYTES
  }

  /** The lines of a stream, without regard to how it arrives; the last need not be terminated. */
  function Lines(stream: Bytes): seq<Bytes>
    decreases |stream|
  {
    var i := NewlineAt(stream);
    if i < |stream| then [stream[..i]] + Lines(stream[i + 1..])
    else if stream != [] then [stream] else []
  }

  /** Those that are. */
  function Terminated(stream: Bytes): seq<Bytes>
    decreases |stream|
  {
    var i := NewlineAt(stream);
    if i < |stream| then [stream[..i]] + Terminated(stream[i + 1..]) else []
  }

  predicate Short(lines: seq<Bytes>) {
    forall i :: 0 <= i < |lines| ==> |lines[i]| <= MAX_MESSAGE_BYTES
  }

  /** Everything a reader yields until it stops, and what it stopped at. */
  function ReadAll(buf: Bytes, src: Source): (seq<Bytes>, Read)
    decreases |buf| + |Rest(src)|
  {
    var n := ReadNext(buf, src);
    Shrinks(buf, src);
    if n.read.Line? then (var (more, stop) := ReadAll(n.buf, n.src); ([n.read.bytes] + more, stop))
    else ([], n.read)
  }

  lemma {:induction false} Shrinks(buf: Bytes, src: Source)
    ensures ReadNext(buf, src).read.Line? ==>
      |ReadNext(buf, src).buf| + |Rest(ReadNext(buf, src).src)| < |buf| + |Rest(src)|
    decreases |src.chunks|
  {
    if NewlineAt(buf) == |buf| && |buf| <= MAX_MESSAGE_BYTES && src.chunks != [] {
      Shrinks(buf + src.chunks[0], src.(chunks := src.chunks[1..]));
    }
  }

  /** Between two calls nothing is lost and nothing is repeated. */
  lemma {:induction false} NothingLost(buf: Bytes, src: Source)
    ensures var n := ReadNext(buf, src);
      var left := n.buf + Rest(n.src);
      match n.read
      case Line(b) => buf + Rest(src) == b + [10] + left || (buf + Rest(src) == b && left == [])
      case TooLarge => buf + Rest(src) == left
      case Eof => buf + Rest(src) == [] == left
      case Failed => buf + Rest(src) == left
    decreases |src.chunks|
  {
    var i := NewlineAt(buf);
    if i < |buf| {
      assert buf == buf[..i] + [NEWLINE] + buf[i + 1..];
      Associate(buf[..i] + [NEWLINE], buf[i + 1..], Rest(src));
    } else if |buf| <= MAX_MESSAGE_BYTES {
      if src.chunks == [] {
        assert Rest(src) == src.last && Flat([]) + [] == [];
      } else {
        var rest := src.(chunks := src.chunks[1..]);
        NothingLost(buf + src.chunks[0], rest);
        Associate(src.chunks[0], Flat(rest.chunks), src.last);
        Associate(buf, src.chunks[0], Rest(rest));
      }
    }
  }

  lemma Associate(a: Bytes, b: Bytes, c: Bytes)
    ensures a + (b + c) == a + b + c
  {
  }

  lemma NewlineIs(s: Bytes, i: nat)
    requires i < |s| && s[i] == NEWLINE && forall k :: 0 <= k < i ==> s[k] != NEWLINE
    ensures NewlineAt(s) == i
  {
    var j := NewlineAt(s);
    assert forall k :: 0 <= k < j ==> s[k] == s[..j][k];
    assert NEWLINE in s;
  }

  /** A newline that is there already is the first of a longer stream. */
  lemma SameNewline(buf: Bytes, more: Bytes)
    requires NEWLINE in buf
    ensures var i := NewlineAt(buf); NewlineAt(buf + more) == i && (buf + more)[..i] == buf[..i]
                                     && (buf + more)[i + 1..] == buf[i + 1..] + more
  {
    var i, s := NewlineAt(buf), buf + more;
    assert forall k :: 0 <= k < i ==> s[k] == buf[..i][k];
    assert s[i] == NEWLINE;
    NewlineIs(s, i);
  }

  /** Without one, all of it comes before the first. */
  lemma NoNewlineYet(buf: Bytes, more: Bytes)
    requires NEWLINE !in buf
    ensures NewlineAt(buf + more) >= |buf|
  {
    var s := buf + more;
    assert forall k :: 0 <= k < |buf| ==> s[k] == buf[k];
  }

  lemma ReadsOn(buf: Bytes, src: Source)
    requires NEWLINE !in buf && |buf| <= MAX_MESSAGE_BYTES && src.chunks != []
    ensures ReadNext(buf, src) == ReadNext(buf + src.chunks[0], src.(chunks := src.chunks[1..]))
  {
  }

  /** One call, when whole reads still bring a newline within the cap. */
  lemma {:induction false} TakesLine(buf: Bytes, src: Source)
    requires var s := buf + Flat(src.chunks); NEWLINE in s && NewlineAt(s) <= MAX_MESSAGE_BYTES
    ensures var s, n := buf + Flat(src.chunks), ReadNext(buf, src);
      && n.read == Line(s[..NewlineAt(s)]) && n.buf + Flat(n.src.chunks) == s[NewlineAt(s) + 1..]
      && n.src.last == src.last && n.src.end == src.end
    decreases |src.chunks|
  {
    assert src.chunks == [] ==> buf + Flat(src.chunks) == buf;
    if NewlineAt(buf) < |buf| {
      SameNewline(buf, Flat(src.chunks));
    } else if src.chunks != [] {
      NoNewlineYet(buf, Flat(src.chunks));
      var more := src.(chunks := src.chunks[1..]);
      Associate(buf, src.chunks[0], Flat(more.chunks));
      ReadsOn(buf, src);
      TakesLine(buf + src.chunks[0], more);
    }
  }

  /** One call, when they do not: it gets to the end. */
  lemma {:induction false} GetsToEnd(buf: Bytes, src: Source)
    requires var s := buf + Flat(src.chunks); NEWLINE !in s && |s| <= MAX_MESSAGE_BYTES
    ensures ReadNext(buf, src) == AtEnd(buf + Flat(src.chunks), src)
    decreases |src.chunks|
  {
    assert forall x :: x in buf ==> x in buf + Flat(src.chunks);
    if src.chunks == [] {
      assert buf + [] == buf;
    } else {
      Associate(buf, src.chunks[0], Flat(src.chunks[1..]));
      GetsToEnd(buf + src.chunks[0], src.(chunks := src.chunks[1..]));
    }
  }

  lemma FirstOfLines(s: Bytes, last: Bytes)
    requires NEWLINE in s
    ensures var i := NewlineAt(s); Lines(s + last) == [s[..i]] + Lines(s[i + 1..] + last)
  {
    SameNewline(s, last);
    LinesStep(s + last);
  }

  lemma LinesStep(s: Bytes)
    requires NEWLINE in s
    ensures var i := NewlineAt(s); Lines(s) == [s[..i]] + Lines(s[i + 1..])
  {
  }

  lemma ShortTail(all: seq<Bytes>, first: Bytes, rest: seq<Bytes>)
    requires Short(all) && all == [first] + rest
    ensures |first| <= MAX_MESSAGE_BYTES && Short(rest)
  {
    assert all[0] == first;
    forall i | 0 <= i < |rest| ensures |rest[i]| <= MAX_MESSAGE_BYTES {
      assert all[i + 1] == rest[i];
    }
  }

  lemma ShortStart(s: Bytes, last: Bytes)
    requires NEWLINE !in s && Short(Lines(s + last))
    ensures |s| <= MAX_MESSAGE_BYTES
    ensures NEWLINE !in last ==> |s + last| <= MAX_MESSAGE_BYTES && Lines(s + last) == if s + last == [] then [] else [s + last]
  {
    NoNewlineYet(s, last);
    if s + last != [] {
      assert |Lines(s + last)[0]| <= MAX_MESSAGE_BYTES;
    }
  }

  /** The end of a stream whose last read brings a newline along with the end. */
  lemma NewlineAtEnd(s: Bytes, src: Source)
    requires NEWLINE !in s && NEWLINE in src.last && src.end.CleanEnd?
    ensures var n := AtEnd(s, src); n.read.TooLarge? || (n.read.Line? && NEWLINE in n.read.bytes)
  {
    assert NEWLINE in s + src.last;
  }

  lemma {:induction false} LinesHoldNoNewline(s: Bytes)
    ensures forall i :: 0 <= i < |Lines(s)| ==> NEWLINE !in Lines(s)[i]
    decreases |s|
  {
    if NewlineAt(s) < |s| {
      LinesHoldNoNewline(s[NewlineAt(s) + 1..]);
    }
  }

  lemma NothingLeft(end: End)
    ensures ReadAll([], Source([], [], end)) == ([], if end.Broken? then Failed else Eof)
  {
    var src := Source([], [], end);
    assert [] + src.last == [];
    assert ReadNext([], src) == AtEnd([], src);
  }

  /**
   Framing does not depend on how the stream is cut: when every line is within the cap, the reader
   yields exactly the lines of the stream and stops at a clean end, if and only if the read that
   reports the end brings no newline with it. A reader that never returns data together with EOF
   brings nothing.
   */
  lemma {:induction false} ChunkingIndependentIff(buf: Bytes, src: Source)
    requires src.end.CleanEnd? && Short(Lines(buf + Flat(src.chunks) + src.last))
    ensures ReadAll(buf, src) == (Lines(buf + Flat(src.chunks) + src.last), Eof) <==> NEWLINE !in src.last
    decreases |buf| + |Rest(src)|
  {
    var s := buf + Flat(src.chunks);
    Shrinks(buf, src);
    if NEWLINE in s {
      var b, n := LineCase(buf, src);
      ChunkingIndependentIff(n.buf, n.src);
      Unshift(b, ReadAll(n.buf, n.src).0, Lines(n.buf + Flat(n.src.chunks) + src.last));
    } else {
      ShortStart(s, src.last);
      GetsToEnd(buf, src);
      NothingLeft(CleanEnd);
      LastIff(buf, s, src);
    }
  }

  /** A call that takes a line, and what it leaves. */
  lemma LineCase(buf: Bytes, src: Source) returns (b: Bytes, n: Next)
    requires NEWLINE in buf + Flat(src.chunks) && Short(Lines(buf + Flat(src.chunks) + src.last))
    ensures n == ReadNext(buf, src) && n.read == Line(b) && n.src.last == src.last && n.src.end == src.end
    ensures var left := n.buf + Flat(n.src.chunks) + src.last;
      Short(Lines(left)) && Lines(buf + Flat(src.chunks) + src.last) == [b] + Lines(left)
    ensures ReadAll(buf, src) == ([b] + ReadAll(n.buf, n.src).0, ReadAll(n.buf, n.src).1)
  {
    var s := buf + Flat(src.chunks);
    var i := NewlineAt(s);
    FirstOfLines(s, src.last);
    ShortTail(Lines(s + src.last), s[..i], Lines(s[i + 1..] + src.last));
    TakesLine(buf, src);
    b, n := s[..i], ReadNext(buf, src);
    ReadsLine(buf, src);
  }

  lemma LastIff(buf: Bytes, s: Bytes, src: Source)
    requires NEWLINE !in s && src.end.CleanEnd? && ReadNext(buf, src) == AtEnd(s, src)
    requires NEWLINE !in src.last ==> |s + src.last| <= MAX_MESSAGE_BYTES
    requires NEWLINE !in src.last ==> Lines(s + src.last) == if s + src.last == [] then [] else [s + src.last]
    ensures ReadAll(buf, src) == (Lines(s + src.last), Eof) <==> NEWLINE !in src.last
  {
    var n := ReadNext(buf, src);
    NothingLeft(CleanEnd);
    if n.read.Line? {
      assert [n.read.bytes] + [] == [n.read.bytes];
      assert ReadAll(buf, src) == ([n.read.bytes], Eof);
    }
    if NEWLINE in src.last {
      NewlineAtEnd(s, src);
      LinesHoldNoNewline(s + src.last);
      if n.read.Line? {
        assert ReadAll(buf, src).0[0] == n.read.bytes;
      }
    }
  }

  lemma Unshift(first: Bytes, a: seq<Bytes>, b: seq<Bytes>)
    ensures [first] + a == [first] + b <==> a == b
  {
    assert ([first] + a)[1..] == a && ([first] + b)[1..] == b;
  }

  /** Two lines that come with the end are yielded as one. */
  lemma EndRunsLinesTogether(x: Byte, y: Byte)
    requires x != NEWLINE && y != NEWLINE
    ensures var last := [x, NEWLINE, y];
      Lines(last) == [[x], [y]] && ReadNext([], Source([], last, CleanEnd)).read == Line(last)
  {
    var last := [x, NEWLINE, y];
    NewlineIs(last, 1);
    LinesStep(last);
    assert last[..1] == [x] && last[2..] == [y] && [] + last == last;
    assert NewlineAt([y]) == 1;
  }

  /** The promise, for a reader that never returns data together with its end. */
  lemma ChunkingIndependent(buf: Bytes, src: Source)
    requires src.end.CleanEnd? && src.last == [] && Short(Lines(buf + Flat(src.chunks)))
    ensures ReadAll(buf, src) == (Lines(buf + Flat(src.chunks)), Eof)
  {
    assert buf + Flat(src.chunks) + [] == buf + Flat(src.chunks);
    ChunkingIndependentIff(buf, src);
  }

  /** A connection that breaks: the lines that were terminated before, whatever the cut, and the error. */
  lemma {:induction false} BrokenYieldsTerminated(buf: Bytes, src: Source)
    requires src.end.Broken? && Short(Lines(buf + Flat(src.chunks)))
    ensures ReadAll(buf, src) == (Terminated(buf + Flat(src.chunks)), Failed)
    decreases |buf| + |Rest(src)|
  {
    var s := buf + Flat(src.chunks);
    Shrinks(buf, src);
    assert s + [] == s;
    if NEWLINE in s {
      var n := TerminatedCase(buf, src);
      BrokenYieldsTerminated(n.buf, n.src);
    } else {
      ShortStart(s, []);
      GetsToEnd(buf, src);
    }
  }

  lemma TerminatedCase(buf: Bytes, src: Source) returns (n: Next)
    requires NEWLINE in buf + Flat(src.chunks) && Short(Lines(buf + Flat(src.chunks)))
    ensures n == ReadNext(buf, src) && n.read.Line? && n.src.end == src.end
    ensures var left := n.buf + Flat(n.src.chunks);
      Short(Lines(left)) && Terminated(buf + Flat(src.chunks)) == [n.read.bytes] + Terminated(left)
    ensures ReadAll(buf, src) == ([n.read.bytes] + ReadAll(n.buf, n.src).0, ReadAll(n.buf, n.src).1)
  {
    TerminatedStep(buf + Flat(src.chunks));
    TakesLine(buf, src);
    n := ReadNext(buf, src);
    ReadsLine(buf, src);
  }

  lemma TerminatedStep(s: Bytes)
    requires NEWLINE in s && Short(Lines(s))
    ensures var i := NewlineAt(s);
      i <= MAX_MESSAGE_BYTES && Short(Lines(s[i + 1..])) && Terminated(s) == [s[..i]] + Terminated(s[i + 1..])
  {
    LinesStep(s);
    ShortTail(Lines(s), s[..NewlineAt(s)], Lines(s[NewlineAt(s) + 1..]));
    TerminatedUnfolds(s);
  }

  lemma TerminatedUnfolds(s: Bytes)
    requires NEWLINE in s
    ensures var i := NewlineAt(s); Terminated(s) == [s[..i]] + Terminated(s[i + 1..])
  {
  }

  lemma ReadsLine(buf: Bytes, src: Source)
    requires ReadNext(buf, src).read.Line?
    ensures var n := ReadNext(buf, src);
      ReadAll(buf, src) == ([n.read.bytes] + ReadAll(n.buf, n.src).0, ReadAll(n.buf, n.src).1)
  {
  }

  /** A buffer as it is between calls. */
  predicate Bounded(buf: Bytes) {
    |buf| <= MAX_MESSAGE_BYTES + CHUNK_BYTES
  }

  /** No line is longer than the cap and one read less its newline, whatever arrives. */
  lemma {:induction false} LineBound(buf: Bytes, src: Source)
    requires Bounded(buf) && Delivered(src)
    ensures var n := ReadNext(buf, src);
      && Bounded(n.buf) && Delivered(n.src)
      && (n.read.Line? ==> |n.read.bytes| <= MAX_MESSAGE_BYTES + CHUNK_BYTES - 1)
    decreases |src.chunks|
  {
    if NewlineAt(buf) == |buf| && |buf| <= MAX_MESSAGE_BYTES && src.chunks != [] {
      LineBound(buf + src.chunks[0], src.(chunks := src.chunks[1..]));
    }
  }

  /** All lines of a whole connection are within that bound. */
  lemma {:induction false} AllLinesBounded(buf: Bytes, src: Source)
    requires Bounded(buf) && Delivered(src)
    ensures forall i :: 0 <= i < |ReadAll(buf, src).0| ==>
      |ReadAll(buf, src).0[i]| <= MAX_MESSAGE_BYTES + CHUNK_BYTES - 1
    decreases |buf| + |Rest(src)|
  {
    LineBound(buf, src);
    Shrinks(buf, src);
    if ReadNext(buf, src).read.Line? {
      AllLinesBounded(ReadNext(buf, src).buf, ReadNext(buf, src).src);
    }
  }

  // ---- above the cap ---------------------------------------------------------------

  /** Read k brings the newline: what is buffered after k reads has one, and before the last had none. */
  predicate BringsNewline(buf: Bytes, chunks: seq<Bytes>, k: nat) {
    k <= |chunks| && NEWLINE in buf + Flat(chunks[..k]) && (k > 0 ==> NEWLINE !in buf + Flat(chunks[..k - 1]))
  }

  lemma FlatPrefix(chunks: seq<Bytes>, k: nat)
    requires 0 < k <= |chunks|
    ensures Flat(chunks[..k]) == chunks[0] + Flat(chunks[1..][..k - 1])
  {
    assert chunks[..k][0] == chunks[0] && chunks[..k][1..] == chunks[1..][..k - 1];
  }

  /** Dropping the first read moves the count by one. */
  lemma BringsLater(buf: Bytes, chunks: seq<Bytes>, k: nat)
    requires k > 0 && BringsNewline(buf, chunks, k) && NEWLINE !in buf
    ensures var b, rest := buf + chunks[0], chunks[1..];
      && BringsNewline(b, rest, k - 1)
      && buf + Flat(chunks[..k]) == b + Flat(rest[..k - 1])
      && (k > 1 ==> buf + Flat(chunks[..k - 1]) == b + Flat(rest[..k - 2]))
  {
    FlatPrefix(chunks, k);
    Associate(buf, chunks[0], Flat(chunks[1..][..k - 1]));
    if k > 1 {
      FlatPrefix(chunks, k - 1);
      Associate(buf, chunks[0], Flat(chunks[1..][..k - 2]));
    }
  }

  lemma FlatStart(buf: Bytes, chunks: seq<Bytes>)
    ensures buf + Flat(chunks[..0]) == buf
  {
    assert chunks[..0] == [];
  }

  /**
   Whatever the lengths: a line comes out if and only if what was buffered before the read that
   brings its newline was within the cap; otherwise the connection is dropped.
   */
  lemma {:induction false} CapDecides(buf: Bytes, src: Source, k: nat)
    requires BringsNewline(buf, src.chunks, k)
    ensures var s := buf + Flat(src.chunks[..k]);
      ReadNext(buf, src).read
      == if k == 0 || |buf + Flat(src.chunks[..k - 1])| <= MAX_MESSAGE_BYTES then Line(s[..NewlineAt(s)]) else TooLarge
    decreases |src.chunks|
  {
    FlatStart(buf, src.chunks);
    if k > 0 {
      assert NEWLINE !in buf by {
        assert forall x :: x in buf ==> x in buf + Flat(src.chunks[..k - 1]);
      }
      if |buf| <= MAX_MESSAGE_BYTES {
        ReadsOn(buf, src);
        BringsLater(buf, src.chunks, k);
        CapDecides(buf + src.chunks[0], src.(chunks := src.chunks[1..]), k - 1);
      }
    }
  }

  /** A way for a stream to arrive. */
  predicate Cut(chunks: seq<Bytes>, stream: Bytes) {
    Flat(chunks) == stream && forall i :: 0 <= i < |chunks| ==> |chunks[i]| <= CHUNK_BYTES
  }

  lemma {:induction false} SomeRead(buf: Bytes, chunks: seq<Bytes>) returns (k: nat)
    requires NEWLINE in buf + Flat(chunks)
    ensures BringsNewline(buf, chunks, k)
    decreases |chunks|
  {
    FlatStart(buf, chunks);
    if NEWLINE in buf {
      k := 0;
    } else {
      assert buf + [] == buf;
      Associate(buf, chunks[0], Flat(chunks[1..]));
      var j := SomeRead(buf + chunks[0], chunks[1..]);
      k := j + 1;
      FlatPrefix(chunks, k);
      Associate(buf, chunks[0], Flat(chunks[1..][..j]));
      if j > 0 {
        FlatPrefix(chunks, j);
        Associate(buf, chunks[0], Flat(chunks[1..][..j - 1]));
      }
    }
  }

  lemma {:induction false} FlatAppend(a: seq<Bytes>, b: seq<Bytes>)
    ensures Flat(a + b) == Flat(a) + Flat(b)
    decreases |a|
  {
    if a == [] {
      assert a + b == b && [] + Flat(b) == Flat(b);
    } else {
      assert (a + b)[0] == a[0] && (a + b)[1..] == a[1..] + b;
      FlatAppend(a[1..], b);
      Associate(a[0], Flat(a[1..]), Flat(b));
    }
  }

  lemma FlatOne(x: Bytes)
    ensures Flat([x]) == x
  {
    var one: seq<Bytes> := [x];
    assert one[1..] == [] && x + Flat([]) == x;
  }

  /** The first newline of the whole is the one that read k brings. */
  lemma FirstOfAll(buf: Bytes, chunks: seq<Bytes>, k: nat)
    requires BringsNewline(buf, chunks, k)
    ensures var s, whole := buf + Flat(chunks[..k]), buf + Flat(chunks);
      && NewlineAt(whole) == NewlineAt(s) && whole[..NewlineAt(whole)] == s[..NewlineAt(s)]
      && (k > 0 ==> |buf + Flat(chunks[..k - 1])| <= NewlineAt(s) < |buf + Flat(chunks[..k - 1])| + |chunks[k - 1]|)
  {
    var s := buf + Flat(chunks[..k]);
    assert chunks == chunks[..k] + chunks[k..];
    FlatAppend(chunks[..k], chunks[k..]);
    Associate(buf, Flat(chunks[..k]), Flat(chunks[k..]));
    SameNewline(s, Flat(chunks[k..]));
    if k > 0 {
      assert chunks[..k] == chunks[..k - 1] + [chunks[k - 1]];
      FlatAppend(chunks[..k - 1], [chunks[k - 1]]);
      FlatOne(chunks[k - 1]);
      Associate(buf, Flat(chunks[..k - 1]), chunks[k - 1]);
      NoNewlineYet(buf + Flat(chunks[..k - 1]), chunks[k - 1]);
    }
  }

  /** However it is cut, a line within the cap passes, and one longer than the cap and 16383 bytes does not. */
  lemma SureVerdicts(buf: Bytes, src: Source)
    requires NEWLINE !in buf && |buf| <= MAX_MESSAGE_BYTES
    requires NEWLINE in buf + Flat(src.chunks) && Cut(src.chunks, Flat(src.chunks))
    ensures var whole := buf + Flat(src.chunks);
      && ReadNext(buf, src).read in {Line(whole[..NewlineAt(whole)]), TooLarge}
      && (NewlineAt(whole) <= MAX_MESSAGE_BYTES ==> ReadNext(buf, src).read.Line?)
      && (NewlineAt(whole) >= MAX_MESSAGE_BYTES + CHUNK_BYTES ==> ReadNext(buf, src).read.TooLarge?)
  {
    var k := SomeRead(buf, src.chunks);
    FlatStart(buf, src.chunks);
    CapDecides(buf, src, k);
    FirstOfAll(buf, src.chunks, k);
  }

  /** Reads of 16 KiB, and what is left. */
  function CutUp(stream: Bytes): (chunks: seq<Bytes>)
    decreases |stream|
  {
    if |stream| <= CHUNK_BYTES then [stream] else [stream[..CHUNK_BYTES]] + CutUp(stream[CHUNK_BYTES..])
  }

  lemma {:induction false} CutUpIsCut(stream: Bytes)
    ensures Cut(CutUp(stream), stream)
    decreases |stream|
  {
    if |stream| <= CHUNK_BYTES {
      FlatOne(stream);
    } else {
      CutUpIsCut(stream[CHUNK_BYTES..]);
      assert stream == stream[..CHUNK_BYTES] + stream[CHUNK_BYTES..];
    }
  }

  lemma CutAppend(a: seq<Bytes>, s: Bytes, b: seq<Bytes>, u: Bytes)
    requires Cut(a, s) && Cut(b, u)
    ensures Cut(a + b, s + u)
  {
    FlatAppend(a, b);
  }

  lemma CutOne(x: Bytes)
    requires |x| <= CHUNK_BYTES
    ensures Cut([x], x)
  {
    FlatOne(x);
  }

  /** Three stretches, the middle one in a single read. */
  lemma CutAround(a: Bytes, x: Bytes, b: Bytes) returns (chunks: seq<Bytes>, k: nat)
    requires |x| <= CHUNK_BYTES
    ensures Cut(chunks, a + x + b) && 0 < k <= |chunks|
    ensures Flat(chunks[..k - 1]) == a && Flat(chunks[..k]) == a + x
  {
    CutUpIsCut(a);
    CutUpIsCut(b);
    CutOne(x);
    CutAppend(CutUp(a), a, [x], x);
    CutAppend(CutUp(a) + [x], a + x, CutUp(b), b);
    chunks, k := CutUp(a) + [x] + CutUp(b), |CutUp(a)| + 1;
    assert chunks[..k] == CutUp(a) + [x] && chunks[..k - 1] == CutUp(a);
  }

  lemma WithoutNewline(s: Bytes, n: nat)
    requires n <= NewlineAt(s)
    ensures n <= |s| && NEWLINE !in s[..n]
  {
    assert forall x :: x in s[..n] ==> x in s[..NewlineAt(s)];
  }

  /** In between, one cut lets the line pass. */
  lemma SomeCutPasses(buf: Bytes, stream: Bytes, last: Bytes, end: End) returns (chunks: seq<Bytes>)
    requires NEWLINE !in buf && |buf| <= MAX_MESSAGE_BYTES && NEWLINE in stream
    requires MAX_MESSAGE_BYTES < NewlineAt(buf + stream) < MAX_MESSAGE_BYTES + CHUNK_BYTES
    ensures Cut(chunks, stream) && ReadNext(buf, Source(chunks, last, end)).read.Line?
  {
    var n, m := NewlineAt(buf + stream), MAX_MESSAGE_BYTES - |buf|;
    var e := n + 1 - |buf|;
    var a, x := stream[..m], stream[m..e];
    var k;
    chunks, k := CutAround(a, x, stream[e..]);
    assert a + x + stream[e..] == stream;
    WithoutNewline(buf + stream, MAX_MESSAGE_BYTES);
    assert (buf + stream)[..MAX_MESSAGE_BYTES] == buf + a;
    Associate(buf, a, x);
    assert buf + (a + x) == (buf + stream)[..n + 1] && (buf + stream)[..n + 1][n] == NEWLINE;
    assert BringsNewline(buf, chunks, k);
    CapDecides(buf, Source(chunks, last, end), k);
  }

  /** And another does not. */
  lemma SomeCutFails(buf: Bytes, stream: Bytes, last: Bytes, end: End) returns (chunks: seq<Bytes>)
    requires NEWLINE !in buf && NEWLINE in stream && NewlineAt(buf + stream) > MAX_MESSAGE_BYTES
    ensures Cut(chunks, stream) && ReadNext(buf, Source(chunks, last, end)).read.TooLarge?
  {
    NoNewlineYet(buf, stream);
    var n := NewlineAt(buf + stream);
    var e := n - |buf|;
    var a, x := stream[..e], stream[e..e + 1];
    var k;
    chunks, k := CutAround(a, x, stream[e + 1..]);
    assert a + x + stream[e + 1..] == stream;
    WithoutNewline(buf + stream, n);
    assert (buf + stream)[..n] == buf + a;
    Associate(buf, a, x);
    assert buf + (a + x) == (buf + stream)[..n + 1] && (buf + stream)[..n + 1][n] == NEWLINE;
    assert BringsNewline(buf, chunks, k);
    CapDecides(buf, Source(chunks, last, end), k);
  }

  /** All ways to cut the rest of a stream give the same first answer. */
  ghost predicate CutsAgree(buf: Bytes, stream: Bytes, last: Bytes, end: End) {
    forall a, b :: Cut(a, stream) && Cut(b, stream) ==>
      ReadNext(buf, Source(a, last, end)).read == ReadNext(buf, Source(b, last, end)).read
  }

  /**
   Exactly when the cut does not matter: with a line begun in the buffer and its newline still to
   come, all cuts into reads of at most 16 KiB agree, if and only if the line is within the cap, or
   longer than the cap and 16383 bytes.
   */
  lemma CutsAgreeIff(buf: Bytes, stream: Bytes, last: Bytes, end: End)
    requires NEWLINE !in buf && |buf| <= MAX_MESSAGE_BYTES && NEWLINE in stream
    ensures var length := NewlineAt(buf + stream);
      CutsAgree(buf, stream, last, end)
      <==> length <= 262144 || length > 262144 + 16383
  {
    var length := NewlineAt(buf + stream);
    assert NEWLINE in buf + stream;
    if MAX_MESSAGE_BYTES < length < MAX_MESSAGE_BYTES + CHUNK_BYTES {
      var a := SomeCutPasses(buf, stream, last, end);
      var b := SomeCutFails(buf, stream, last, end);
      assert Cut(a, stream) && Cut(b, stream);
    } else {
      forall a, b | Cut(a, stream) && Cut(b, stream)
        ensures ReadNext(buf, Source(a, last, end)).read == ReadNext(buf, Source(b, last, end)).read
      {
        SureVerdicts(buf, Source(a, last, end));
        SureVerdicts(buf, Source(b, last, end));
      }
    }
  }

  /**
   Beyond the cap the cut matters: one byte over it, a line passes when its newline comes in the
   same read, and the connection is dropped when it comes in the next.
   */
  lemma CapDependsOnChunks(buf: Bytes, x: Byte)
    requires |buf| == MAX_MESSAGE_BYTES && NEWLINE !in buf && x != NEWLINE
    ensures Flat([[x, NEWLINE]]) == Flat([[x], [NEWLINE]])
    ensures ReadNext(buf, Source([[x, NEWLINE]], [], CleanEnd)).read == Line(buf + [x])
    ensures ReadNext(buf, Source([[x], [NEWLINE]], [], CleanEnd)).read == TooLarge
  {
    assert Flat([[x, NEWLINE]]) == [x, NEWLINE] + Flat([]);
    assert [[x], [NEWLINE]][1..] == [[NEWLINE]];
    assert Flat([[NEWLINE]]) == [NEWLINE] + Flat([]);
    var s := buf + [x, NEWLINE];
    assert [[x, NEWLINE]][1..] == [];
    assert forall j :: 0 <= j < |buf| ==> s[j] == buf[j];
    NewlineIs(s, |buf| + 1);
    assert s[..|buf| + 1] == buf + [x];
    assert NEWLINE !in buf + [x];
  }
}
