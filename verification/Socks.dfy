/**
 The SOCKS5 handshake of src/main/socks-agent.ts (RFC 1928, sections 3, 4 and 6): a byte machine
 fed with whatever pieces the socket delivers, and the encoding of the CONNECT request.
 */
module Socks {
  import opened Common
  import opened Text
  import Ipv4

  type Byte = n: nat | n < 256
  type Bytes = seq<Byte>

  const VERSION: Byte := 5
  const AUTH_NONE: Byte := 0
  const CMD_CONNECT: Byte := 1
  const RSV: Byte := 0
  const ATYP_IPV4: Byte := 1
  const ATYP_DOMAIN: Byte := 3
  const ATYP_IPV6: Byte := 4

  // ---- the request -----------------------------------------------------------------

  /** `utf8` is the host's encoding; None is the thrown error. */
  function EncodeConnect(host: string, port: int, utf8: string -> Bytes): Option<Bytes> {
    if port <= 0 || port > 65535 then None
    else
      var tail := [port / 256, port % 256];
      if Ipv4.IsQuad(host) then Some([VERSION, CMD_CONNECT, RSV, ATYP_IPV4] + Octets(host) + tail)
      else if 1 <= |utf8(host)| <= 255 then Some([VERSION, CMD_CONNECT, RSV, ATYP_DOMAIN, |utf8(host)|] + utf8(host) + tail)
      else None
  }

  function Octets(host: string): Bytes
    requires Ipv4.IsQuad(host)
  {
    var p := Split(host, '.');
    [Num(p[0]), Num(p[1]), Num(p[2]), Num(p[3])]
  }

  datatype Target = Ip(octets: Bytes, port: nat) | Name(name: Bytes, port: nat)

  /** Two bytes, high one first. */
  function Port(high: Byte, low: Byte): nat {
    var h: nat, l: nat := high, low;
    h * 256 + l
  }

  /** A CONNECT request as a server reads it (RFC 1928, section 4): the whole of it, or nothing. */
  function DecodeConnect(b: Bytes): Option<Target> {
    if |b| < 4 || b[0] != 5 || b[1] != 1 || b[2] != 0 then None
    else if b[3] == 1 then
      if |b| == 10 then Some(Ip(b[4..8], Port(b[8], b[9]))) else None
    else if b[3] == 3 && |b| >= 5 then
      var n: nat := b[4];
      if |b| == 7 + n then Some(Name(b[5..5 + n], Port(b[5 + n], b[6 + n]))) else None
    else None
  }

  /** The server reads the host and the port that were asked for. */
  lemma ConnectRoundTrip(host: string, port: int, utf8: string -> Bytes)
    requires EncodeConnect(host, port, utf8).Some?
    ensures DecodeConnect(EncodeConnect(host, port, utf8).value)
         == Some(if Ipv4.IsQuad(host) then Ip(Octets(host), port) else Name(utf8(host), port))
  {
    var b := EncodeConnect(host, port, utf8).value;
    if Ipv4.IsQuad(host) {
      assert b[4..8] == Octets(host);
    } else {
      var n := |utf8(host)|;
      assert b[5..5 + n] == utf8(host);
      assert b[5 + n] == port / 256 && b[6 + n] == port % 256;
    }
  }

  /** Which targets can be asked for: a port from 1 to 65535, and an address or a name of 1 to 255 bytes. */
  lemma EncodesIff(host: string, port: int, utf8: string -> Bytes)
    ensures EncodeConnect(host, port, utf8).Some?
       <==> 1 <= port <= 65535 && (Ipv4.IsQuad(host) || 1 <= |utf8(host)| <= 255)
  {
  }

  // ---- the replies -----------------------------------------------------------------

  /** Of at least two bytes. */
  predicate GreetingOk(b: Bytes)
    requires |b| >= 2
  {
    b[0] == VERSION && b[1] == AUTH_NONE
  }

  datatype Reply = Partial | Refused | Consumed(bytes: nat)

  /** parseConnectReply. */
  function ParseConnectReply(b: Bytes): (r: Reply)
    ensures r.Consumed? ==> 4 < r.bytes <= |b|
  {
    if |b| < 4 then Partial
    else if b[0] != VERSION || b[1] != 0 then Refused
    else if b[3] != ATYP_IPV4 && b[3] != ATYP_IPV6 && b[3] != ATYP_DOMAIN then Refused
    else if b[3] == ATYP_DOMAIN && |b| < 5 then Partial
    else
      var name: nat := if b[3] == ATYP_DOMAIN then b[4] else 0;
      var addr: nat := if b[3] == ATYP_IPV4 then 4 else if b[3] == ATYP_IPV6 then 16 else 1 + name;
      if |b| < 6 + addr then Partial else Consumed(6 + addr)
  }

  // ---- the machine -----------------------------------------------------------------

  datatype Outcome =
    | Waiting
    | Opened(rest: Bytes)   // pushed back for the tunnelled stream
    | BadGreeting
    | BadTarget             // no request can be encoded
    | Rejected
    | Broken(end: End)

  /** The socket's own events, after which nobody listens. */
  datatype End = SocketError | SocketClosed

  /** What the stream so far amounts to, read at one go. */
  datatype Verdict = Verdict(outcome: Outcome, requested: bool)

  function Judge(stream: Bytes, request: Option<Bytes>): Verdict {
    if |stream| < 2 then Verdict(Waiting, false)
    else if !GreetingOk(stream) then Verdict(BadGreeting, false)
    else if request.None? then Verdict(BadTarget, false)
    else
      match ParseConnectReply(stream[2..])
      case Partial => Verdict(Waiting, true)
      case Refused => Verdict(Rejected, true)
      case Consumed(n) => Verdict(Opened(stream[2 + n..]), true)
  }

  /** The socket ends; it matters only while the outcome is open. */
  function Ended(v: Verdict, end: Option<End>): Verdict {
    if v.outcome.Waiting? && end.Some? then v.(outcome := Broken(end.value)) else v
  }

  const GREETING: Bytes := [5, 1, 0]

  class Handshake {
    var greeted: bool
    var buffered: Bytes
    var outcome: Outcome
    var written: seq<Bytes>
    const request: Option<Bytes>

    /** The state after a stream has come in, as far as it was listened to. */
    ghost predicate Heard(stream: Bytes)
      reads this
    {
      && Verdict(outcome, |written| == 2) == Judge(stream, request)
      && written == (if Judge(stream, request).requested && request.Some? then [GREETING, request.value] else [GREETING])
      && (outcome.Waiting? ==> greeted == Judge(stream, request).requested)
      && (outcome.Waiting? ==> buffered == if greeted && |stream| >= 2 then stream[2..] else stream)
    }

    constructor (request: Option<Bytes>)
      ensures this.request == request && Heard([]) && outcome.Waiting?
    {
      greeted, buffered, outcome, written, this.request := false, [], Waiting, [GREETING], request;
    }

    /** A piece arrives; afterwards nobody listens once there is an outcome. */
    method OnData(chunk: Bytes, ghost stream: Bytes)
      requires outcome.Waiting? && Heard(stream)
      modifies this
      ensures Heard(stream + chunk)
    {
      buffered := buffered + chunk;
      ghost var all := stream + chunk;
      if !greeted {
        if |buffered| < 2 {
          return;
        }
        if !GreetingOk(buffered) {
          outcome := BadGreeting;
          return;
        }
        buffered := buffered[2..];
        greeted := true;
        if request.None? {
          outcome := BadTarget;
          return;
        }
        written := written + [request.value];
      }
      assert |all| >= 2 && GreetingOk(all) && buffered == all[2..];
      match ParseConnectReply(buffered) {
        case Partial =>
        case Refused => outcome := Rejected;
        case Consumed(n) =>
          outcome := Opened(buffered[n..]);
          assert all[2..][n..] == all[2 + n..];
      }
    }
  }

  function Flat(chunks: seq<Bytes>): Bytes
    decreases |chunks|
  {
    if chunks == [] then [] else chunks[0] + Flat(chunks[1..])
  }

  /** The machine on a sequence of pieces and perhaps an end: it stops listening at the first outcome. */
  datatype Feed = Feed(verdict: Verdict, left: seq<Bytes>)

  function FeedAll(stream: Bytes, chunks: seq<Bytes>, end: Option<End>, request: Option<Bytes>): Feed
    decreases |chunks|
  {
    if !Judge(stream, request).outcome.Waiting? then Feed(Judge(stream, request), chunks)
    else if chunks == [] then Feed(Ended(Judge(stream, request), end), [])
    else FeedAll(stream + chunks[0], chunks[1..], end, request)
  }

  method Socks5Connect(chunks: seq<Bytes>, end: Option<End>, request: Option<Bytes>)
    returns (outcome: Outcome, written: seq<Bytes>, left: seq<Bytes>)
    ensures var f := FeedAll([], chunks, end, request);
      && outcome == f.verdict.outcome && left == f.left
      && written == if f.verdict.requested && request.Some? then [[5, 1, 0], request.value] else [[5, 1, 0]]
  {
    var h := new Handshake(request);
    ghost var stream: Bytes := [];
    var i := 0;
    while i < |chunks| && h.outcome.Waiting?
      invariant i <= |chunks| && h.request == request && h.Heard(stream)
      invariant FeedAll([], chunks, end, request) == FeedAll(stream, chunks[i..], end, request)
    {
      assert chunks[i..][0] == chunks[i] && chunks[i..][1..] == chunks[i + 1..];
      h.OnData(chunks[i], stream);
      stream := stream + chunks[i];
      i := i + 1;
    }
    outcome, written, left := h.outcome, h.written, chunks[i..];
    if outcome.Waiting? && end.Some? {
      outcome := Broken(end.value);
    }
  }

  // ---- the server's bytes ----------------------------------------------------------

  /** A whole reply that grants the request, of any address type (RFC 1928, section 6). */
  predicate IsGrant(b: Bytes) {
    && |b| >= 7 && b[0] == 5 && b[1] == 0
    && ((b[3] == 1 && |b| == 10) || (b[3] == 4 && |b| == 22) || (b[3] == 3 && (var n: nat := b[4]; |b| == 7 + n)))
  }

  /** Behind the choice of a method stands a whole grant, of n bytes. */
  predicate GrantAt(stream: Bytes, n: nat) {
    n + 2 <= |stream| && IsGrant(stream[2..2 + n])
  }

  /** The server chose no authentication. */
  predicate NoAuth(stream: Bytes) {
    |stream| >= 2 && stream[0] == 5 && stream[1] == 0
  }

  /**
   What the machine makes of the server's bytes: open exactly behind a choice of no authentication and a
   whole grant; refused at another choice, at an answer that is no grant, and at an address type that
   does not exist; and otherwise it waits for more.
   */
  lemma JudgeMeans(stream: Bytes, request: Option<Bytes>)
    ensures var v := Judge(stream, request);
      && (v.outcome.Opened? <==>
            request.Some? && NoAuth(stream)
            && exists n: nat :: GrantAt(stream, n) && v.outcome == Opened(stream[2 + n..]))
      && (forall n: nat :: GrantAt(stream, n) && NoAuth(stream) && request.Some? ==> v.outcome == Opened(stream[2 + n..]))
      && (v.outcome.BadGreeting? <==> |stream| >= 2 && !NoAuth(stream))
      && (v.outcome.BadTarget? <==> NoAuth(stream) && request.None?)
      && (v.outcome.Rejected? <==>
            request.Some? && NoAuth(stream) && |stream| >= 6
            && (stream[2] != 5 || stream[3] != 0 || (stream[5] != 1 && stream[5] != 3 && stream[5] != 4)))
      && !v.outcome.Broken?
      && (v.requested <==> NoAuth(stream) && request.Some?)
  {
    if NoAuth(stream) && request.Some? {
      var b := stream[2..];
      var r := ParseConnectReply(b);
      if r.Consumed? {
        assert b[..r.bytes] == stream[2..2 + r.bytes];
        GrantIs(b, r.bytes);
        assert GrantAt(stream, r.bytes);
      }
      forall n: nat | GrantAt(stream, n) ensures r == Consumed(n) {
        assert b[..n] == stream[2..2 + n];
        GrantParses(b, n);
      }
    }
  }

  lemma GrantIs(b: Bytes, n: nat)
    requires ParseConnectReply(b) == Consumed(n)
    ensures n <= |b| && IsGrant(b[..n])
  {
  }

  lemma GrantParses(b: Bytes, n: nat)
    requires n <= |b| && IsGrant(b[..n])
    ensures ParseConnectReply(b) == Consumed(n)
  {
    var g := b[..n];
    assert g[0] == b[0] && g[1] == b[1] && g[3] == b[3] && g[4] == b[4];
  }

  // ---- chunking --------------------------------------------------------------------

  /** More bytes change nothing that was decided; they are all the tunnelled stream's. */
  lemma VerdictStays(stream: Bytes, more: Bytes, request: Option<Bytes>)
    requires !Judge(stream, request).outcome.Waiting?
    ensures var v, v' := Judge(stream, request), Judge(stream + more, request);
      v' == if v.outcome.Opened? then v.(outcome := Opened(v.outcome.rest + more)) else v
  {
    if GreetingOk(stream) && request.Some? {
      assert (stream + more)[2..] == stream[2..] + more;
      var r := ParseConnectReply(stream[2..]);
      assert ParseConnectReply(stream[2..] + more) == r;
      if r.Consumed? {
        assert (stream + more)[2 + r.bytes..] == stream[2 + r.bytes..] + more;
      }
    }
  }

  /**
   The handshake does not depend on how the server's bytes are cut: the outcome is that of the whole
   stream at once, or the socket's end where the stream leaves it open; and what is pushed back,
   followed by the pieces not yet read, is exactly the stream after the reply.
   */
  lemma {:induction false} ChunkingIndependent(stream: Bytes, chunks: seq<Bytes>, end: Option<End>, request: Option<Bytes>)
    ensures var f, whole := FeedAll(stream, chunks, end, request), Ended(Judge(stream + Flat(chunks), request), end);
      && f.verdict.requested == whole.requested
      && (if f.verdict.outcome.Opened? then whole.outcome == Opened(f.verdict.outcome.rest + Flat(f.left))
          else whole.outcome == f.verdict.outcome)
    decreases |chunks|
  {
    if !Judge(stream, request).outcome.Waiting? {
      VerdictStays(stream, Flat(chunks), request);
    } else if chunks == [] {
      assert stream + [] == stream;
    } else {
      ChunkingIndependent(stream + chunks[0], chunks[1..], end, request);
      assert stream + chunks[0] + Flat(chunks[1..]) == stream + Flat(chunks);
    }
  }

  /** The request is written only after a reply that chose no authentication. */
  lemma RequestOnlyAfterNoAuth(stream: Bytes, chunks: seq<Bytes>, end: Option<End>, request: Option<Bytes>)
    requires FeedAll(stream, chunks, end, request).verdict.requested
    ensures var all := stream + Flat(chunks); |all| >= 2 && all[0] == 5 && all[1] == 0 && request.Some?
  {
    ChunkingIndependent(stream, chunks, end, request);
  }
}
