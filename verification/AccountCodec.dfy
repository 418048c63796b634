/** The TypeScript account codec (sdk/ts/src/codex.ts), told from its struct codecs, against the on-chain
    layout and the Rust SDK's decoder. */
module AccountCodec {
  import opened Bytes
  import opened Types
  import opened Layout
  import opened Codec

  /** A decoded account as a TypeScript caller holds it: plain numbers, of any size. */
  datatype Account = Account(discriminator: int, bump: int, ataCount: int, delegateExpires: int,
                             owner: Address, appAddress: Address, delegate: Address)

  function Of(r: VaultRecord): Account {
    Account(r.discriminator, r.bump, r.ataCount, r.delegateExpires, r.owner, r.app, r.delegate)
  }

  /** The struct's fields in the order both codecs list them, and how many bytes each takes. */
  function Fields(a: Account): seq<int> {
    [a.discriminator, a.bump, a.ataCount, a.delegateExpires, a.owner, a.appAddress, a.delegate]
  }

  const WIDTHS: seq<nat> := [1, 1, 2, 4, 32, 32, 32]

  /** `getStructEncoder`: each field in turn; a number that does not fit its width throws. */
  function StructBytes(fields: seq<int>, widths: seq<nat>): Option<seq<byte>>
    requires |fields| == |widths|
  {
    if fields == [] then Some([])
    else if !(0 <= fields[0] < Pow256(widths[0])) then None
    else
      match StructBytes(fields[1..], widths[1..])
      case None => None
      case Some(rest) => Some(NumberBytes(fields[0], widths[0]) + rest)
  }

  /** `getStructDecoder`: each field from where the last one ended; too few bytes throw. */
  function StructFields(d: seq<byte>, offset: nat, widths: seq<nat>): (r: Option<seq<nat>>)
    decreases |widths|
    ensures r.Some? ==> |r.value| == |widths| && forall i :: 0 <= i < |widths| ==> r.value[i] < Pow256(widths[i])
  {
    if widths == [] then Some([])
    else if offset + widths[0] > |d| then None
    else
      match StructFields(d, offset + widths[0], widths[1..])
      case None => None
      case Some(rest) => Some([FromLe(d[offset..offset + widths[0]])] + rest)
  }

  /** `getUserVaultAccountEncoder`. */
  function TsEncode(a: Account): Option<seq<byte>> { StructBytes(Fields(a), WIDTHS) }

  /** `decodeUserVaultAccountData`: no check of the discriminator, and bytes past the struct are not read. */
  function TsDecode(d: seq<byte>): Option<Account> {
    Widths();
    match StructFields(d, 0, WIDTHS)
    case None => None
    case Some(f) => Some(Account(f[0], f[1], f[2], f[3], f[4], f[5], f[6]))
  }

  /** The struct's bytes for fields that fit. */
  function Joined(fields: seq<nat>, widths: seq<nat>): seq<byte>
    requires |fields| == |widths|
  {
    if fields == [] then [] else Le(fields[0], widths[0]) + Joined(fields[1..], widths[1..])
  }

  lemma {:induction false} StructBytesAreJoined(fields: seq<int>, widths: seq<nat>)
    requires |fields| == |widths|
    ensures StructBytes(fields, widths).Some?
            <==> forall i :: 0 <= i < |fields| ==> 0 <= fields[i] < Pow256(widths[i])
    ensures StructBytes(fields, widths).Some? ==>
              && (forall i :: 0 <= i < |fields| ==> fields[i] >= 0)
              && StructBytes(fields, widths) == Some(Joined(fields, widths))
  {
    if fields != [] {
      StructBytesAreJoined(fields[1..], widths[1..]);
      assert forall i :: 1 <= i < |fields| ==> fields[i] == fields[1..][i - 1] && widths[i] == widths[1..][i - 1];
      if 0 <= fields[0] {
        NumberBytesAreLe(fields[0], widths[0]);
      }
    }
  }

  /** A buffer that has two parts from `o` on has each where it belongs. */
  lemma Parts(d: seq<byte>, o: nat, a: seq<byte>, b: seq<byte>)
    requires o + |a + b| <= |d| && d[o..o + |a + b|] == a + b
    ensures d[o..o + |a|] == a && d[o + |a|..o + |a| + |b|] == b
  {
    assert d[o..o + |a|] == d[o..o + |a + b|][..|a|];
    assert d[o + |a|..o + |a| + |b|] == d[o..o + |a + b|][|a|..];
  }

  lemma {:induction false} FieldsOfJoined(d: seq<byte>, o: nat, fields: seq<nat>, widths: seq<nat>)
    requires |fields| == |widths| && forall i :: 0 <= i < |fields| ==> fields[i] < Pow256(widths[i])
    requires o + |Joined(fields, widths)| <= |d| && d[o..o + |Joined(fields, widths)|] == Joined(fields, widths)
    ensures StructFields(d, o, widths) == Some(fields)
    decreases |fields|
  {
    hide Le;
    hide FromLe;
    hide Pow256;
    if fields != [] {
      var first, rest := Le(fields[0], widths[0]), Joined(fields[1..], widths[1..]);
      assert Joined(fields, widths) == first + rest;
      Parts(d, o, first, rest);
      LeRoundTrip(fields[0], widths[0]);
      FieldsOfJoined(d, o + widths[0], fields[1..], widths[1..]);
      assert fields == [fields[0]] + fields[1..];
    } else {
      assert fields == [] == widths;
    }
  }

  function Sum(widths: seq<nat>): nat { if widths == [] then 0 else widths[0] + Sum(widths[1..]) }

  lemma {:induction false} FieldsFit(d: seq<byte>, o: nat, widths: seq<nat>)
    requires StructFields(d, o, widths).Some? && o <= |d|
    ensures o + Sum(widths) <= |d|
    decreases |widths|
  {
    if widths != [] {
      FieldsFit(d, o + widths[0], widths[1..]);
    }
  }

  lemma Regroup(h: byte, b: byte, c: seq<byte>, e: seq<byte>, o: seq<byte>, a: seq<byte>, g: seq<byte>)
    ensures [h] + ([b] + (c + (e + (o + (a + g))))) == [h, b] + c + e + o + a + g
  {
  }

  lemma LeOfByte(b: byte)
    ensures Le(b, 1) == [b]
  {
    OneByte(b);
    NumberBytesAreLe(b, 1);
  }

  lemma JoinedFrom(fields: seq<nat>, widths: seq<nat>, k: nat)
    requires k < |fields| == |widths|
    ensures Joined(fields[k..], widths[k..]) == Le(fields[k], widths[k]) + Joined(fields[k + 1..], widths[k + 1..])
  {
    assert fields[k..][1..] == fields[k + 1..] && widths[k..][1..] == widths[k + 1..];
  }

  lemma JoinedIsImage(r: VaultRecord)
    ensures Joined(Fields(Of(r)), WIDTHS) == Image(r)
  {
    LeOfByte(r.discriminator);
    LeOfByte(r.bump);
    var f: seq<nat>, w := Fields(Of(r)), WIDTHS;
    assert Joined(f[7..], w[7..]) == [];
    hide Joined;
    hide Le;
    JoinedFrom(f, w, 6);
    JoinedFrom(f, w, 5);
    JoinedFrom(f, w, 4);
    JoinedFrom(f, w, 3);
    JoinedFrom(f, w, 2);
    JoinedFrom(f, w, 1);
    JoinedFrom(f, w, 0);
    assert f[0..] == f && w[0..] == w;
    assert Le(f[6], w[6]) + [] == Le(f[6], w[6]);
    Regroup(r.discriminator, r.bump, Le(f[2], w[2]), Le(f[3], w[3]), Le(f[4], w[4]), Le(f[5], w[5]), Le(f[6], w[6]));
  }

  /** Both TypeScript directions against the program's layout and the Rust SDK's decoder, which in addition
      refuses other lengths and discriminators. */
  lemma TsAccountsAgree(a: Account, r: VaultRecord, d: seq<byte>)
    ensures TsEncode(Of(r)) == Some(Image(r))
    ensures TsEncode(a).Some? <==> exists r :: a == Of(r)
    ensures TsDecode(d) == if |d| < LEN then None else Some(Of(RecordAt(d[..LEN])))
    ensures |d| == LEN ==> TsEncode(TsDecode(d).value) == Some(d)
    ensures SdkUnpack(d).Decoded? ==> TsDecode(d) == Some(Of(SdkUnpack(d).record))
    ensures TsDecode(d).Some? && SdkUnpack(d).Refused?
            <==> |d| > LEN || (|d| == LEN && d[0] != USER_VAULT_DISCRIMINATOR)
  {
    EncodeIs(r);
    EncodeAccepts(a);
    DecodeIs(d);
    if |d| == LEN {
      assert d[..LEN] == d;
      EncodeIs(RecordAt(d));
      ImageOfRead(d);
    }
  }

  lemma EncodeIs(r: VaultRecord)
    ensures TsEncode(Of(r)) == Some(Image(r))
  {
    hide StructBytes;
    hide Joined;
    hide Image;
    Widths();
    StructBytesAreJoined(Fields(Of(r)), WIDTHS);
    JoinedIsImage(r);
  }

  lemma EncodeAccepts(a: Account)
    ensures TsEncode(a).Some? <==> exists r :: a == Of(r)
  {
    Widths();
    StructBytesAreJoined(Fields(a), WIDTHS);
    var f := Fields(a);
    if TsEncode(a).Some? {
      assert 0 <= f[0] < 256 && 0 <= f[1] < 256 && 0 <= f[2] < 0x1_0000 && 0 <= f[3] < 0x1_0000_0000;
      assert a == Of(VaultRecord(f[0], f[1], f[2], f[3], a.owner, a.appAddress, a.delegate));
    }
    if r :| a == Of(r) {
      EncodeIs(r);
    }
  }

  lemma DecodeIs(d: seq<byte>)
    ensures TsDecode(d) == if |d| < LEN then None else Some(Of(RecordAt(d[..LEN])))
  {
    if |d| < LEN {
      ShortFails(d);
    } else {
      StructIs(d, RecordAt(d[..LEN]));
    }
  }

  lemma ShortFails(d: seq<byte>)
    requires |d| < LEN
    ensures StructFields(d, 0, WIDTHS) == None
  {
    assert Sum(WIDTHS) == LEN;
    hide StructFields;
    if StructFields(d, 0, WIDTHS).Some? {
      FieldsFit(d, 0, WIDTHS);
    }
  }

  lemma StructIs(d: seq<byte>, r: VaultRecord)
    requires |d| >= LEN && r == RecordAt(d[..LEN])
    ensures StructFields(d, 0, WIDTHS) == Some(Fields(Of(r)))
  {
    hide StructFields;
    hide Joined;
    hide Image;
    hide RecordAt;
    Widths();
    ImageOfRead(d[..LEN]);
    JoinedIsImage(r);
    FieldsOfJoined(d, 0, Fields(Of(r)), WIDTHS);
  }
}
