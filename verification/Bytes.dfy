/** Fixed-width unsigned integers in bytes. A value too large for its width loses its high part, as a Go conversion does. */
module Bytes {

  newtype byte = x: int | 0 <= x < 256

  type Buf = seq<byte>

  function Pow256(w: nat): (r: nat)
    ensures r > 0
  {
    if w == 0 then 1 else 256 * Pow256(w - 1)
  }

  /** Least significant byte first. */
  function Le(v: nat, w: nat): (r: Buf)
    ensures |r| == w
  {
    if w == 0 then [] else [(v % 256) as byte] + Le(v / 256, w - 1)
  }

  function FromLe(s: Buf): nat {
    if s == [] then 0 else s[0] as nat + 256 * FromLe(s[1..])
  }

  /** Most significant byte first. */
  function Be(v: nat, w: nat): (r: Buf)
    ensures |r| == w
  {
    if w == 0 then [] else Be(v / 256, w - 1) + [(v % 256) as byte]
  }

  function FromBe(s: Buf): nat {
    if s == [] then 0 else 256 * FromBe(s[..|s| - 1]) + s[|s| - 1] as nat
  }

  lemma {:induction false} LeRoundTrip(v: nat, w: nat)
    ensures FromLe(Le(v, w)) <= v && (v < Pow256(w) <==> FromLe(Le(v, w)) == v)
    ensures FromLe(Le(v, w)) < Pow256(w)
    decreases w
  {
    if w > 0 {
      LeRoundTrip(v / 256, w - 1);
      assert Le(v, w)[1..] == Le(v / 256, w - 1);
    }
  }

  lemma {:induction false} BeRoundTrip(v: nat, w: nat)
    ensures FromBe(Be(v, w)) <= v && (v < Pow256(w) <==> FromBe(Be(v, w)) == v)
    ensures FromBe(Be(v, w)) < Pow256(w)
    decreases w
  {
    if w > 0 {
      BeRoundTrip(v / 256, w - 1);
      assert Be(v, w)[..w - 1] == Be(v / 256, w - 1);
    }
  }

  const TWO_16 := 65536
  const TWO_32 := 4294967296
  const TWO_63 := 9223372036854775808
  const TWO_64 := 18446744073709551616

  lemma Widths()
    ensures Pow256(2) == TWO_16 && Pow256(4) == TWO_32 && Pow256(8) == TWO_64
  {
    assert Pow256(1) == 256 && Pow256(2) == 65536 && Pow256(3) == 16777216 && Pow256(4) == TWO_32;
    assert Pow256(5) == 256 * TWO_32 && Pow256(6) == 65536 * TWO_32 && Pow256(7) == 16777216 * TWO_32;
  }

  lemma Front(a: Buf, b: Buf)
    ensures (a + b)[..|a|] == a && (a + b)[|a|..] == b
  {
  }

  /** A cut behind the first part goes through the second. */
  lemma CutFront(a: Buf, b: Buf, k: nat)
    requires |a| <= k <= |a + b|
    ensures (a + b)[..k] == a + b[..k - |a|]
    ensures (a + b)[..k][..|a|] == a && (a + b)[..k][|a|..] == b[..k - |a|]
  {
  }
}
