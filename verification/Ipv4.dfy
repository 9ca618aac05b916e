/** Addresses and prefixes, as numbers and as text, shared by the packet filter and the routing table. */
module Ipv4 {
  import opened Common
  import opened Text

  type Address = nat

  function Pow2(n: nat): (p: nat)
    ensures p > 0
  {
    if n == 0 then 1 else 2 * Pow2(n - 1)
  }

  /** base/len over an address space of the given width. */
  datatype Net = Net(base: Address, len: nat)

  /** The first len bits agree. */
  predicate Covers(width: nat, net: Net, a: Address) {
    net.len <= width && a / Pow2(width - net.len) == net.base / Pow2(width - net.len)
  }

  predicate Aligned(width: nat, net: Net) {
    net.len <= width && net.base % Pow2(width - net.len) == 0
  }

  function Quad(a: nat, b: nat, c: nat, d: nat): Address {
    ((a * 256 + b) * 256 + c) * 256 + d
  }

  lemma {:induction false} PowSum(a: nat, b: nat)
    ensures Pow2(a + b) == Pow2(a) * Pow2(b)
    decreases a
  {
    if a > 0 {
      PowSum(a - 1, b);
    }
  }

  lemma MulSpread(x: nat, y: nat, z: nat)
    ensures x * (y + z) == x * y + x * z
  {
  }

  lemma MulMono(x: nat, y: nat, z: nat)
    requires y <= z
    ensures x * y <= x * z
  {
  }

  lemma QuotientIs(a: nat, m: nat, q: nat, r: nat)
    requires m > 0 && a == m * q + r && r < m
    ensures a / m == q
  {
    if a / m < q {
      MulMono(m, a / m + 1, q);
      MulSpread(m, a / m, 1);
    } else if a / m > q {
      MulMono(m, q + 1, a / m);
      MulSpread(m, q, 1);
    }
  }

  // ---- addresses as text -----------------------------------------------------------

  predicate Octet(s: string, most: nat) {
    Digits(s) && |s| <= most
  }

  predicate IsQuad(s: string) {
    var p := Split(s, '.');
    |p| == 4 && forall i :: 0 <= i < 4 ==> Octet(p[i], 3) && Num(p[i]) <= 255
  }

  /** guard.IsIPv4, with the address it stands for. */
  function ParseIPv4(s: string): (r: Option<Address>)
    ensures r.Some? ==> r.value < Pow2(32)
  {
    Pow32();
    var p := Split(s, '.');
    if IsQuad(s) then Some(Quad(Num(p[0]), Num(p[1]), Num(p[2]), Num(p[3]))) else None
  }

  predicate Zeros(s: string) {
    forall i :: 0 <= i < |s| ==> s[i] == '0'
  }

  lemma {:induction false} NumZeroIff(s: string)
    requires forall i :: 0 <= i < |s| ==> IsDigit(s[i])
    ensures Num(s) == 0 <==> Zeros(s)
    decreases |s|
  {
    if s != [] {
      NumZeroIff(s[..|s| - 1]);
      assert s == s[..|s| - 1] + [s[|s| - 1]];
    }
  }

  predicate AllZeros(parts: seq<string>) {
    forall i :: 0 <= i < |parts| ==> Zeros(parts[i])
  }

  /** An accepted text stands for the address zero exactly when every piece of it is zeros. */
  lemma ZeroTextIff(s: string)
    requires IsQuad(s)
    ensures ParseIPv4(s) == Some(0) <==> AllZeros(Split(s, '.'))
  {
    var p := Split(s, '.');
    forall i | 0 <= i < 4 ensures Num(p[i]) == 0 <==> Zeros(p[i]) {
      NumZeroIff(p[i]);
    }
    assert AllZeros(p) <==> Zeros(p[0]) && Zeros(p[1]) && Zeros(p[2]) && Zeros(p[3]);
    QuadZeroIff(Num(p[0]), Num(p[1]), Num(p[2]), Num(p[3]));
  }

  lemma QuadZeroIff(a: nat, b: nat, c: nat, d: nat)
    ensures Quad(a, b, c, d) == 0 <==> a == 0 && b == 0 && c == 0 && d == 0
  {
  }

  /** As a number is usually written: no zero in front of other digits. */
  predicate Canonical(s: string) {
    s == "0" || (s != "" && s[0] != '0')
  }

  predicate AllCanonical(parts: seq<string>) {
    forall i :: 0 <= i < |parts| ==> Canonical(parts[i])
  }

  /** Without such zeros there is only one way to write it. */
  lemma CanonicalZero(s: string)
    requires IsQuad(s) && ParseIPv4(s) == Some(0) && AllCanonical(Split(s, '.'))
    ensures s == FourTimes("0")
  {
    ZeroTextIff(s);
    CanonicalZeros(Split(s, '.'), "0");
    JoinSplit(s, '.');
  }

  function FourTimes(x: string): string {
    x + "." + x + "." + x + "." + x
  }

  lemma CanonicalZeros(p: seq<string>, zero: string)
    requires |p| == 4 && AllZeros(p) && AllCanonical(p) && zero == "0"
    ensures Join(p, '.') == FourTimes(zero)
  {
    forall i | 0 <= i < 4 ensures p[i] == zero {
      CanonicalPiece(p[i]);
    }
    JoinFour(p, zero);
  }

  lemma CanonicalPiece(s: string)
    requires Zeros(s) && Canonical(s)
    ensures s == "0"
  {
  }

  lemma FourZeros()
    ensures FourTimes("0") == "0.0.0.0"
  {
  }

  lemma JoinFour(p: seq<string>, x: string)
    requires |p| == 4 && forall i :: 0 <= i < 4 ==> p[i] == x
    ensures Join(p, '.') == FourTimes(x)
  {
    var q, r, s := p[1..], p[1..][1..], p[1..][1..][1..];
    assert |q| == 3 && |r| == 2 && |s| == 1 && q[0] == r[0] == s[0] == x;
    assert Join(s, '.') == x && Join(r, '.') == x + ['.'] + Join(s, '.') && Join(q, '.') == x + ['.'] + Join(r, '.');
  }

  lemma Pow32()
    ensures Pow2(32) == 0x1_0000_0000 && Pow2(31) == 0x8000_0000
  {
    assert Pow2(8) == 256;
    PowSum(8, 8);
    PowSum(16, 16);
  }

  /** The text after the trim, as a prefix. */
  function ParseCidr(s: string): (r: Option<Net>)
    ensures r.Some? ==> r.value.base < Pow2(32)
  {
    var p := Split(s, '/');
    if |p| == 2 && IsQuad(p[0]) && Octet(p[1], 2) && Num(p[1]) <= 32
    then Some(Net(ParseIPv4(p[0]).value, Num(p[1]))) else None
  }
}
