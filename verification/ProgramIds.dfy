/** The program ids and the mint that the sources write out byte by byte. */
module ProgramIds {
  import opened Bytes
  import opened Types
  import Flip

  /** Eight little-endian bytes. */
  function Word(s: seq<byte>): nat
    requires |s| == 8
  {
    s[0] as int + 0x100 * (s[1] as int) + 0x1_0000 * (s[2] as int) + 0x100_0000 * (s[3] as int)
    + 0x1_0000_0000 * (s[4] as int + 0x100 * (s[5] as int) + 0x1_0000 * (s[6] as int) + 0x100_0000 * (s[7] as int))
  }

  lemma One(s: seq<byte>)
    requires s != []
    ensures FromLe(s) == s[0] + 256 * FromLe(s[1..])
  {
  }

  lemma Eight(s: seq<byte>, t: seq<byte>)
    requires |s| == 8
    ensures FromLe(s + t) == Word(s) + 0x1_0000_0000_0000_0000 * FromLe(t)
  {
    hide FromLe;
    var a := s + t;
    forall i | 0 <= i < 8 ensures FromLe(a[i..]) == s[i] + 256 * FromLe(a[i + 1..]) {
      One(a[i..]);
      assert a[i..][1..] == a[i + 1..];
    }
    assert a[0..] == a && a[8..] == t;
  }

  lemma Four(a: seq<byte>, b: seq<byte>, c: seq<byte>, d: seq<byte>)
    requires |a| == |b| == |c| == |d| == 8
    ensures FromLe(a + b + c + d)
            == Word(a) + 0x1_0000_0000_0000_0000 * (Word(b) + 0x1_0000_0000_0000_0000
               * (Word(c) + 0x1_0000_0000_0000_0000 * Word(d)))
  {
    hide FromLe, Word;
    Joined(a, b, c, d);
    Eight(a, b + (c + d));
    Eight(b, c + d);
    Eight(c, d + []);
    Eight(d, []);
    Nothing();
  }

  lemma Joined(a: seq<byte>, b: seq<byte>, c: seq<byte>, d: seq<byte>)
    ensures a + b + c + d == a + (b + (c + d)) && d + [] == d
  {
  }

  lemma Nothing()
    ensures FromLe([]) == 0
  {
  }

  lemma VaultProgram()
    ensures FromLe([0x8c, 0x4a, 0x75, 0xd5, 0xd6, 0x63, 0xca, 0x33]
                   + [0x5e, 0x25, 0xdb, 0xba, 0x06, 0x9f, 0x22, 0x80]
                   + [0xdc, 0x92, 0x04, 0xda, 0xbf, 0xc7, 0x8c, 0x86]
                   + [0xe9, 0x76, 0x8b, 0xae, 0xfe, 0xd3, 0x73, 0xcc]) == ID
  {
    Four([0x8c, 0x4a, 0x75, 0xd5, 0xd6, 0x63, 0xca, 0x33], [0x5e, 0x25, 0xdb, 0xba, 0x06, 0x9f, 0x22, 0x80],
         [0xdc, 0x92, 0x04, 0xda, 0xbf, 0xc7, 0x8c, 0x86], [0xe9, 0x76, 0x8b, 0xae, 0xfe, 0xd3, 0x73, 0xcc]);
  }

  lemma FlipProgram()
    ensures FromLe([154, 109, 182, 97, 43, 39, 204, 209] + [34, 198, 224, 61, 28, 185, 127, 84]
                   + [153, 147, 152, 236, 206, 158, 19, 170] + [199, 74, 20, 157, 59, 174, 70, 116])
            == Flip.FLIP_ID
  {
    Four([154, 109, 182, 97, 43, 39, 204, 209], [34, 198, 224, 61, 28, 185, 127, 84],
         [153, 147, 152, 236, 206, 158, 19, 170], [199, 74, 20, 157, 59, 174, 70, 116]);
  }

  lemma UsdcMint()
    ensures FromLe([233, 40, 57, 85, 9, 101, 255, 212] + [214, 74, 202, 175, 70, 212, 93, 247]
                   + [49, 142, 91, 79, 87, 201, 12, 72] + [125, 96, 98, 93, 130, 155, 131, 123])
            == Flip.USDC_MINT
  {
    Four([233, 40, 57, 85, 9, 101, 255, 212], [214, 74, 202, 175, 70, 212, 93, 247],
         [49, 142, 91, 79, 87, 201, 12, 72], [125, 96, 98, 93, 130, 155, 131, 123]);
  }
}
