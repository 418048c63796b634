/** The 104-byte vault account (program/src/state.rs, sdk/rust/src/state.rs): raw-offset reads and
    writes against the typed record. */
module Layout {
  import opened Bytes
  import opened Types

  const LEN: nat := 104
  const USER_VAULT_DISCRIMINATOR: byte := 1

  const BUMP_OFFSET: nat := 1
  const ATA_COUNT_OFFSET: nat := 2
  const EXPIRES_OFFSET: nat := 4
  const OWNER_OFFSET: nat := 8
  const APP_OFFSET: nat := 40
  const DELEGATE_OFFSET: nat := 72

  datatype VaultRecord = VaultRecord(
    discriminator: byte, bump: byte, ataCount: u16, delegateExpires: u32,
    owner: Address, app: Address, delegate: Address)

  /** What 104 zero bytes say. */
  const BLANK: VaultRecord := VaultRecord(0, 0, 0, 0, 0, 0, 0)

  /** The record a program-owned buffer holds, read field by field at the fixed offsets. */
  function RecordAt(d: seq<byte>): VaultRecord
    requires |d| == LEN
  {
    VaultRecord(d[0], d[BUMP_OFFSET], U16At(d, ATA_COUNT_OFFSET), U32At(d, EXPIRES_OFFSET),
                AddressAt(d, OWNER_OFFSET), AddressAt(d, APP_OFFSET), AddressAt(d, DELEGATE_OFFSET))
  }

  /** The in-memory image of the `repr(C)` struct. */
  function Image(r: VaultRecord): (d: seq<byte>)
    ensures |d| == LEN
  {
    [r.discriminator, r.bump] + Le(r.ataCount, 2) + Le(r.delegateExpires, 4)
    + Le(r.owner, 32) + Le(r.app, 32) + Le(r.delegate, 32)
  }

  /** `UserVaultAccount::pack`. */
  method Pack(r: VaultRecord, dst: array<byte>) returns (res: Result<()>)
    modifies dst
    ensures res == if dst.Length == LEN then Ok(()) else Err(InvalidAccountData)
    ensures dst[..] == if dst.Length == LEN then Image(r) else old(dst[..])
  {
    if dst.Length != LEN {
      return Err(InvalidAccountData);
    }
    var image := Image(r);
    forall i | 0 <= i < LEN {
      dst[i] := image[i];
    }
    return Ok(());
  }

  /** `UserVaultAccount::unpack` on chain: copies the first 104 bytes, checks the discriminator. */
  function Unpack(src: seq<byte>): Result<VaultRecord>
    requires |src| >= LEN
  {
    var r := RecordAt(src[..LEN]);
    if r.discriminator != USER_VAULT_DISCRIMINATOR then Err(InvalidAccountData) else Ok(r)
  }

  datatype SdkError = WrongAccountDataLen(got: nat) | InvalidDiscriminator(found: byte)
  datatype SdkResult = Decoded(record: VaultRecord) | Refused(error: SdkError)

  /** `UserVaultAccount::unpack` in the Rust SDK, with its moving cursor. */
  function SdkUnpack(data: seq<byte>): SdkResult {
    if |data| != LEN then Refused(WrongAccountDataLen(|data|))
    else if data[0] != USER_VAULT_DISCRIMINATOR then Refused(InvalidDiscriminator(data[0]))
    else
      var bump := data[1];
      var ataCount := U16At(data, 2);
      var expires := U32At(data, 4);
      var o := 8;
      var owner := AddressAt(data, o);
      var o := o + 32;
      var app := AddressAt(data, o);
      var o := o + 32;
      Decoded(VaultRecord(data[0], bump, ataCount, expires, owner, app, AddressAt(data, o)))
  }

  lemma Sections(h: seq<byte>, c: seq<byte>, e: seq<byte>, o: seq<byte>, a: seq<byte>, g: seq<byte>)
    requires |h| == 2 && |c| == 2 && |e| == 4 && |o| == 32 && |a| == 32 && |g| == 32
    ensures var d := h + c + e + o + a + g;
            && d[..2] == h && d[2..4] == c && d[4..8] == e
            && d[8..40] == o && d[40..72] == a && d[72..104] == g
  {
  }

  /** Packing then reading gives the record back. */
  lemma ReadImage(r: VaultRecord)
    ensures RecordAt(Image(r)) == r
  {
    Widths();
    Sections([r.discriminator, r.bump], Le(r.ataCount, 2), Le(r.delegateExpires, 4),
             Le(r.owner, 32), Le(r.app, 32), Le(r.delegate, 32));
    LeRoundTrip(r.ataCount, 2);
    LeRoundTrip(r.delegateExpires, 4);
    LeRoundTrip(r.owner, 32);
    LeRoundTrip(r.app, 32);
    LeRoundTrip(r.delegate, 32);
    assert Image(r)[..2][0] == r.discriminator && Image(r)[..2][1] == r.bump;
  }

  /** Reading then packing gives the bytes back: the record determines all 104 of them. */
  lemma ImageOfRead(d: seq<byte>)
    requires |d| == LEN
    ensures Image(RecordAt(d)) == d
  {
    FromLeRoundTrip(d[2..4]);
    FromLeRoundTrip(d[4..8]);
    FromLeRoundTrip(d[8..40]);
    FromLeRoundTrip(d[40..72]);
    FromLeRoundTrip(d[72..104]);
    assert d == [d[0], d[1]] + d[2..4] + d[4..8] + d[8..40] + d[40..72] + d[72..104];
  }

  /** On-chain `unpack` inverts `pack` exactly on discriminator-1 records, and the SDK decoder accepts
      the same 104-byte buffers with the same fields. */
  lemma DecodersAgree(r: VaultRecord, d: seq<byte>)
    requires |d| == LEN
    ensures Unpack(Image(r)) == if r.discriminator == 1 then Ok(r) else Err(InvalidAccountData)
    ensures Unpack(d).Ok? <==> SdkUnpack(d).Decoded?
    ensures Unpack(d).Ok? ==> SdkUnpack(d).record == Unpack(d).value && Image(Unpack(d).value) == d
    ensures !Unpack(d).Ok? ==> SdkUnpack(d) == Refused(InvalidDiscriminator(d[0]))
  {
    ReadImage(r);
    ImageOfRead(d);
    assert d[..LEN] == d && Image(r)[..LEN] == Image(r);
  }

  /** A write at a fixed offset is one record update: every field it does not cover keeps its bytes. */
  lemma WriteIsUpdate(d: seq<byte>, i: nat, s: seq<byte>)
    requires |d| == LEN && i + |s| <= LEN
    ensures var r, r' := RecordAt(d), RecordAt(Splice(d, i, s));
            && (i > 0 ==> r'.discriminator == r.discriminator)
            && (i >= 2 || i + |s| <= 1 ==> r'.bump == r.bump)
            && (i >= 4 || i + |s| <= 2 ==> r'.ataCount == r.ataCount)
            && (i >= 8 || i + |s| <= 4 ==> r'.delegateExpires == r.delegateExpires)
            && (i >= 40 || i + |s| <= 8 ==> r'.owner == r.owner)
            && (i >= 72 || i + |s| <= 40 ==> r'.app == r.app)
            && (i >= 104 || i + |s| <= 72 ==> r'.delegate == r.delegate)
  {
    if i >= 4 || i + |s| <= 2 { SpliceFrame(d, i, s, 2, 4); }
    if i >= 8 || i + |s| <= 4 { SpliceFrame(d, i, s, 4, 8); }
    if i >= 40 || i + |s| <= 8 { SpliceFrame(d, i, s, 8, 40); }
    if i >= 72 || i + |s| <= 40 { SpliceFrame(d, i, s, 40, 72); }
    if i >= 104 || i + |s| <= 72 { SpliceFrame(d, i, s, 72, 104); }
  }

  /** The count write of deposit and close-ATA. */
  lemma WriteAtaCount(d: seq<byte>, n: u16)
    requires |d| == LEN
    ensures RecordAt(Splice(d, ATA_COUNT_OFFSET, Le(n, 2))) == RecordAt(d).(ataCount := n)
  {
    Widths();
    LeRoundTrip(n, 2);
    WriteIsUpdate(d, ATA_COUNT_OFFSET, Le(n, 2));
  }

  /** The expiry write of create and update. */
  lemma WriteExpires(d: seq<byte>, n: u32)
    requires |d| == LEN
    ensures RecordAt(Splice(d, EXPIRES_OFFSET, Le(n, 4))) == RecordAt(d).(delegateExpires := n)
  {
    Widths();
    LeRoundTrip(n, 4);
    WriteIsUpdate(d, EXPIRES_OFFSET, Le(n, 4));
  }

  /** The three 32-byte copies, by the offset they go to. */
  lemma WriteAddress(d: seq<byte>, i: nat, a: Address)
    requires |d| == LEN && (i == OWNER_OFFSET || i == APP_OFFSET || i == DELEGATE_OFFSET)
    ensures RecordAt(Splice(d, i, Le(a, 32))) ==
            if i == OWNER_OFFSET then RecordAt(d).(owner := a)
            else if i == APP_OFFSET then RecordAt(d).(app := a)
            else RecordAt(d).(delegate := a)
  {
    Widths();
    LeRoundTrip(a, 32);
    WriteIsUpdate(d, i, Le(a, 32));
  }

  /** The discriminator and bump writes of create. */
  lemma WriteHeader(d: seq<byte>, i: nat, b: byte)
    requires |d| == LEN && i < 2
    ensures RecordAt(Splice(d, i, [b])) ==
            if i == 0 then RecordAt(d).(discriminator := b) else RecordAt(d).(bump := b)
  {
    WriteIsUpdate(d, i, [b]);
    assert i == 1 ==> Splice(d, i, [b])[0] == d[0];
    assert Splice(d, i, [b])[i] == b;
  }

  /** A freshly allocated buffer reads as the blank record. */
  lemma {:induction false} ZeroBytes(k: nat)
    ensures FromLe(seq<byte>(k, _ => 0)) == 0
  {
    if k > 0 {
      ZeroBytes(k - 1);
      assert seq<byte>(k, _ => 0)[1..] == seq<byte>(k - 1, _ => 0);
    }
  }

  lemma ZeroesAreBlank()
    ensures RecordAt(seq(LEN, _ => 0)) == BLANK
  {
    var d: seq<byte> := seq(LEN, _ => 0);
    assert d[2..4] == seq(2, _ => 0) && d[4..8] == seq(4, _ => 0);
    assert d[8..40] == seq(32, _ => 0) && d[40..72] == seq(32, _ => 0) && d[72..104] == seq(32, _ => 0);
    ZeroBytes(2);
    ZeroBytes(4);
    ZeroBytes(32);
  }
}
