/** Little-endian integers in byte buffers, as the program's pointer reads and writes see them. */
module Bytes {

  type byte = b: int | 0 <= b < 256

  function Pow256(k: nat): (p: nat)
    ensures p >= 1
  {
    if k == 0 then 1 else 256 * Pow256(k - 1)
  }

  /** The `k` low bytes of `n`, least significant first (`to_le_bytes`). */
  function Le(n: nat, k: nat): (s: seq<byte>)
    ensures |s| == k
    decreases k, n
  {
    if k == 0 then [] else [n % 256] + Le(n / 256, k - 1)
  }

  /** The number a little-endian byte string spells (`from_le_bytes`). */
  function FromLe(s: seq<byte>): (n: nat)
    ensures n < Pow256(|s|)
  {
    if s == [] then 0 else s[0] + 256 * FromLe(s[1..])
  }

  lemma {:induction false} LeRoundTrip(n: nat, k: nat)
    requires n < Pow256(k)
    ensures FromLe(Le(n, k)) == n
    decreases k, n
  {
    if k > 0 {
      LeRoundTrip(n / 256, k - 1);
      assert Le(n, k)[1..] == Le(n / 256, k - 1);
    }
  }

  lemma {:induction false} FromLeRoundTrip(s: seq<byte>)
    ensures Le(FromLe(s), |s|) == s
  {
    if s != [] {
      FromLeRoundTrip(s[1..]);
      assert FromLe(s) / 256 == FromLe(s[1..]) && FromLe(s) % 256 == s[0];
      assert s == [s[0]] + s[1..];
    }
  }

  /** Overwrite `|s|` bytes of `d` starting at offset `i` (a pointer write). */
  function Splice(d: seq<byte>, i: nat, s: seq<byte>): (r: seq<byte>)
    requires i + |s| <= |d|
    ensures |r| == |d|
    ensures r[i..i + |s|] == s
  {
    d[..i] + s + d[i + |s|..]
  }

  /** A write leaves every disjoint field of the buffer as it was. */
  lemma SpliceFrame(d: seq<byte>, i: nat, s: seq<byte>, j: nat, k: nat)
    requires i + |s| <= |d| && j <= k <= |d|
    requires k <= i || i + |s| <= j
    ensures Splice(d, i, s)[j..k] == d[j..k]
  {
    var r := Splice(d, i, s);
    assert forall m | j <= m < k :: r[m] == d[m];
    assert forall m | 0 <= m < k - j :: r[j..k][m] == d[j..k][m];
  }

  lemma {:induction false} Pow256Add(a: nat, b: nat)
    ensures Pow256(a + b) == Pow256(a) * Pow256(b)
  {
    if a > 0 {
      Pow256Add(a - 1, b);
    }
  }

  /** Capacities of the field widths in use. */
  lemma Widths()
    ensures Pow256(1) == 0x100 && Pow256(2) == 0x1_0000 && Pow256(4) == 0x1_0000_0000
    ensures Pow256(8) == 0x1_0000_0000_0000_0000
    ensures Pow256(32) == 0x10000000000000000000000000000000000000000000000000000000000000000
  {
    Pow256Add(8, 8);
    Pow256Add(16, 16);
  }
}
