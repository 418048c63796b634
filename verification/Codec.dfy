/** Instruction data: the SDKs' encoders (sdk/rust/src/instructions.rs, sdk/ts/src/codex.ts) against the
    program's dispatch and parsers. */
module Codec {
  import opened Bytes
  import opened Types
  import opened Ledger
  import opened VaultProgram

  /** An instruction value as an SDK caller writes it. TypeScript amounts are unbounded integers. */
  datatype VaultIx =
    | CreateVault(expires: int)
    | Deposit(amount: int)
    | UpdateDelegate(expires: int)
    | Withdraw(amount: int)
    | WithdrawNative(amount: int)
    | CallApp(inner: seq<byte>)
    | Cpi(native: int, amount: int)
    | CpiNative(native: int)
    | CloseAta
    | CloseVault

  function KindOf(ix: VaultIx): byte {
    match ix
    case CreateVault(_) => 0 case Deposit(_) => 1 case UpdateDelegate(_) => 2 case Withdraw(_) => 3
    case WithdrawNative(_) => 4 case CallApp(_) => 5 case Cpi(_, _) => 6 case CpiNative(_) => 7
    case CloseAta => 8 case CloseVault => 9
  }

  /** The fields fit the widths the Rust builders take them in. */
  predicate InRange(ix: VaultIx) {
    match ix
    case CreateVault(e) => 0 <= e <= U32_MAX
    case UpdateDelegate(e) => 0 <= e <= U32_MAX
    case Deposit(n) => 0 <= n <= U64_MAX
    case Withdraw(n) => 0 <= n <= U64_MAX
    case WithdrawNative(n) => 0 <= n <= U64_MAX
    case CpiNative(n) => 0 <= n <= U64_MAX
    case Cpi(n, m) => 0 <= n <= U64_MAX && 0 <= m <= U64_MAX
    case _ => true
  }

  function Payload(ix: VaultIx): seq<byte>
    requires InRange(ix)
  {
    match ix
    case CreateVault(e) => Le(e, 4)
    case UpdateDelegate(e) => Le(e, 4)
    case Deposit(n) => Le(n, 8)
    case Withdraw(n) => Le(n, 8)
    case WithdrawNative(n) => Le(n, 8)
    case CallApp(inner) => inner
    case Cpi(n, m) => Le(n, 8) + Le(m, 8)
    case CpiNative(n) => Le(n, 8)
    case _ => []
  }

  function Encode(ix: VaultIx): seq<byte>
    requires InRange(ix)
  {
    [KindOf(ix)] + Payload(ix)
  }

  /** `require_positive_amount` and `require_cpi_entry_amounts`. */
  predicate RefusedAmount(ix: VaultIx) {
    match ix
    case Deposit(n) => n == 0
    case Withdraw(n) => n == 0
    case WithdrawNative(n) => n == 0
    case CpiNative(n) => n == 0
    case Cpi(n, m) => n == 0 && m == 0
    case _ => false
  }

  /** The Rust builders' data, or the refusal `InvalidAmount`. */
  function RustData(ix: VaultIx): Option<seq<byte>>
    requires InRange(ix)
  {
    if RefusedAmount(ix) then None else Some(Encode(ix))
  }

  /** The Rust builders' data as they push it. */
  method BuildData(ix: VaultIx) returns (r: Option<seq<byte>>)
    requires InRange(ix)
    ensures r == RustData(ix)
  {
    if RefusedAmount(ix) {
      return None;
    }
    var data: seq<byte> := [KindOf(ix)];
    match ix {
      case CreateVault(expires) => data := data + Le(expires, 4);
      case UpdateDelegate(expires) => data := data + Le(expires, 4);
      case Deposit(amount) => data := data + Le(amount, 8);
      case Withdraw(amount) => data := data + Le(amount, 8);
      case WithdrawNative(amount) => data := data + Le(amount, 8);
      case CallApp(inner) => data := data + inner;
      case Cpi(native, amount) =>
        data := data + Le(native, 8);
        data := data + Le(amount, 8);
      case CpiNative(native) => data := data + Le(native, 8);
      case CloseAta =>
      case CloseVault =>
    }
    assert data == [KindOf(ix)] + Payload(ix);
    return Some(data);
  }

  function AssertU64Amount(n: int): bool { !(n <= 0) && !(n > U64_MAX) }

  function AssertU32Expires(n: int): bool { !(n < 0 || n > U32_MAX) }

  function AssertCpiEntryAmounts(n: int, m: int): bool {
    !(n < 0 || m < 0) && !(n == 0 && m == 0) && !(n > U64_MAX || m > U64_MAX)
  }

  // ----- The TypeScript encoder, told from its codecs -----

  /** The union's variants, in the order the encoder lists them; a variant's index is its first byte. */
  const VARIANTS: seq<string> := [
    "createUserVault", "depositUserVault", "updateUserVaultDelegate", "withdrawUserVault", "withdrawUserVaultNative",
    "appIx", "cpiEntry", "cpiEntryNative", "closeVaultAta", "closeUserVault"]

  /** The `kind` of a decoded instruction. */
  function KindString(ix: VaultIx): string {
    match ix
    case CreateVault(_) => "createUserVault"
    case Deposit(_) => "depositUserVault"
    case UpdateDelegate(_) => "updateUserVaultDelegate"
    case Withdraw(_) => "withdrawUserVault"
    case WithdrawNative(_) => "withdrawUserVaultNative"
    case CallApp(_) => "appIx"
    case Cpi(_, _) => "cpiEntry"
    case CpiNative(_) => "cpiEntryNative"
    case CloseAta => "closeVaultAta"
    case CloseVault => "closeUserVault"
  }

  function IndexOf(s: seq<string>, x: string): (k: nat)
    ensures k <= |s| && (k < |s| ==> s[k] == x) && forall i :: 0 <= i < k ==> s[i] != x
  {
    if s == [] || s[0] == x then 0 else 1 + IndexOf(s[1..], x)
  }

  /** `getU8Encoder`, `getU32Encoder`, `getU64Encoder`: each byte is cut out of the number at its own place. */
  function NumberBytes(n: nat, width: nat): (s: seq<byte>)
    ensures |s| == width
  {
    seq(width, i requires 0 <= i < width => (n / Pow256(i)) % 256)
  }

  /** `getStructEncoder` of the variant's fields, in order. */
  function FieldBytes(ix: VaultIx): seq<byte>
    requires InRange(ix)
  {
    match ix
    case CreateVault(delegateExpires) => NumberBytes(delegateExpires, 4)
    case UpdateDelegate(delegateExpires) => NumberBytes(delegateExpires, 4)
    case Deposit(amount) => NumberBytes(amount, 8)
    case Withdraw(amount) => NumberBytes(amount, 8)
    case WithdrawNative(amount) => NumberBytes(amount, 8)
    case CallApp(inner) => inner
    case Cpi(amountNative, amount) => NumberBytes(amountNative, 8) + NumberBytes(amount, 8)
    case CpiNative(amountNative) => NumberBytes(amountNative, 8)
    case _ => []
  }

  /** `getVaultInstructionDataEncoder`: the union index, then the fields. */
  function UnionBytes(ix: VaultIx): seq<byte>
    requires InRange(ix)
  {
    NumberBytes(IndexOf(VARIANTS, KindString(ix)), 1) + FieldBytes(ix)
  }

  /** The TypeScript builders' data, or a thrown range error. */
  function TsData(ix: VaultIx): Option<seq<byte>> {
    var admitted := match ix
      case CreateVault(e) => AssertU32Expires(e)
      case UpdateDelegate(e) => AssertU32Expires(e)
      case Deposit(n) => AssertU64Amount(n)
      case Withdraw(n) => AssertU64Amount(n)
      case WithdrawNative(n) => AssertU64Amount(n)
      case CpiNative(n) => AssertU64Amount(n)
      case Cpi(n, m) => AssertCpiEntryAmounts(n, m)
      case _ => true;
    if admitted then Some(UnionBytes(ix)) else None
  }

  /** What dispatch and the handlers' parsers and zero checks make of instruction data. */
  function Decode(b: seq<byte>): Result<VaultIx> {
    if b == [] then Err(InvalidInstructionData)
    else
      var d := b[1..];
      var ix :- match b[0]
        case 0 => (var e :- ParseU32(d); Ok(CreateVault(e)))
        case 1 => (var n :- ParseU64(d); Ok(Deposit(n)))
        case 2 => (var e :- ParseU32(d); Ok(UpdateDelegate(e)))
        case 3 => (var n :- ParseU64(d); Ok(Withdraw(n)))
        case 4 => (var n :- ParseU64(d); Ok(WithdrawNative(n)))
        case 5 => Ok(CallApp(d))
        case 6 => (var p :- ParseTwoU64(d); Ok(Cpi(p.0, p.1)))
        case 7 => (var n :- ParseU64(d); Ok(CpiNative(n)))
        case 8 => Ok(CloseAta)
        case 9 => Ok(CloseVault)
        case _ => Err(InvalidInstructionData);
      if RefusedAmount(ix) then Err(InvalidInstructionData) else Ok(ix)
  }

  lemma ParseU32Inverts(n: u32, d: seq<byte>)
    ensures ParseU32(Le(n, 4)) == Ok(n)
    ensures ParseU32(d).Ok? ==> Le(ParseU32(d).value, 4) == d
  {
    Widths();
    LeRoundTrip(n, 4);
    assert Le(n, 4)[0..4] == Le(n, 4);
    if |d| == 4 {
      assert d[0..4] == d;
      FromLeRoundTrip(d);
    }
  }

  lemma ParseU64Inverts(n: u64, d: seq<byte>)
    ensures ParseU64(Le(n, 8)) == Ok(n)
    ensures ParseU64(d).Ok? ==> Le(ParseU64(d).value, 8) == d
  {
    Widths();
    LeRoundTrip(n, 8);
    assert Le(n, 8)[0..8] == Le(n, 8);
    if |d| == 8 {
      assert d[0..8] == d;
      FromLeRoundTrip(d);
    }
  }

  lemma Halves(a: seq<byte>, b: seq<byte>, d: seq<byte>)
    requires |a| == 8 && |b| == 8
    ensures (a + b)[0..8] == a && (a + b)[8..16] == b
    ensures |d| == 16 ==> d[0..8] + d[8..16] == d
  {
  }

  lemma ParseTwoU64Inverts(n: u64, m: u64, d: seq<byte>)
    ensures ParseTwoU64(Le(n, 8) + Le(m, 8)) == Ok((n, m))
    ensures ParseTwoU64(d).Ok? ==> Le(ParseTwoU64(d).value.0, 8) + Le(ParseTwoU64(d).value.1, 8) == d
  {
    Widths();
    LeRoundTrip(n, 8);
    LeRoundTrip(m, 8);
    Halves(Le(n, 8), Le(m, 8), d);
    if |d| == 16 {
      FromLeRoundTrip(d[0..8]);
      FromLeRoundTrip(d[8..16]);
    }
  }

  /** Dispatch and the handler's parser recover kind and fields from every encoding the SDK emits, and
      the handlers refuse exactly the amounts the SDK refuses. */
  lemma DecodeEncode(ix: VaultIx)
    requires InRange(ix)
    ensures Decode(Encode(ix)) == if RefusedAmount(ix) then Err(InvalidInstructionData) else Ok(ix)
    ensures RustData(ix).None? <==> Decode(Encode(ix)).Err?
  {
    hide ParseU32;
    hide ParseU64;
    hide ParseTwoU64;
    assert Encode(ix)[1..] == Payload(ix);
    match ix
    case CreateVault(e) => ParseU32Inverts(e, []);
    case UpdateDelegate(e) => ParseU32Inverts(e, []);
    case Cpi(n, m) => ParseTwoU64Inverts(n, m, []);
    case Deposit(n) => ParseU64Inverts(n, []);
    case Withdraw(n) => ParseU64Inverts(n, []);
    case WithdrawNative(n) => ParseU64Inverts(n, []);
    case CpiNative(n) => ParseU64Inverts(n, []);
    case _ =>
  }

  /** Accepted data is canonical: it is the encoding of what it decodes to, except that the two closes
      ignore whatever follows their first byte. */
  lemma EncodeDecode(b: seq<byte>)
    requires Decode(b).Ok?
    ensures InRange(Decode(b).value)
    ensures Encode(Decode(b).value) == if b[0] in {8, 9} then b[..1] else b
  {
    hide ParseU32;
    hide ParseU64;
    hide ParseTwoU64;
    var d := b[1..];
    ParseU32Inverts(0, d);
    ParseU64Inverts(0, d);
    ParseTwoU64Inverts(0, 0, d);
    assert b == [b[0]] + d && b[..1] == [b[0]] + [];
  }

  lemma DivideTwice(n: nat, p: nat)
    requires p > 0
    ensures (n / 256) / p == n / (256 * p)
  {
    var q, r := (n / 256) / p, (n / 256) % p;
    assert n == 256 * (q * p + r) + n % 256;
    assert 256 * (q * p + r) == q * (256 * p) + 256 * r;
    Quotient(n, 256 * p, q, 256 * r + n % 256);
  }

  lemma Quotient(n: nat, d: nat, q: nat, r: nat)
    requires n == q * d + r && r < d
    ensures n / d == q
  {
    var q', r' := n / d, n % d;
    assert n == q' * d + r';
    if q < q' {
      Times(q + 1, q', d);
    } else if q' < q {
      Times(q' + 1, q, d);
    }
  }

  lemma Times(a: nat, b: nat, d: nat)
    requires a <= b
    ensures a * d <= b * d
  {
  }

  /** Cutting each byte out at its place is dividing by 256 time after time. */
  lemma {:induction false} NumberBytesAreLe(n: nat, width: nat)
    ensures NumberBytes(n, width) == Le(n, width)
    decreases width, n
  {
    if width > 0 {
      NumberBytesAreLe(n / 256, width - 1);
      forall i | 0 <= i < width ensures NumberBytes(n, width)[i] == Le(n, width)[i] {
        if i > 0 {
          DivideTwice(n, Pow256(i - 1));
          assert Le(n, width)[i] == NumberBytes(n / 256, width - 1)[i - 1];
        }
      }
    }
  }

  lemma FieldsAgree(ix: VaultIx)
    requires InRange(ix)
    ensures FieldBytes(ix) == Payload(ix)
  {
    match ix
    case CreateVault(e) => NumberBytesAreLe(e, 4);
    case UpdateDelegate(e) => NumberBytesAreLe(e, 4);
    case Cpi(n, m) =>
      NumberBytesAreLe(n, 8);
      NumberBytesAreLe(m, 8);
    case Deposit(n) => NumberBytesAreLe(n, 8);
    case Withdraw(n) => NumberBytesAreLe(n, 8);
    case WithdrawNative(n) => NumberBytesAreLe(n, 8);
    case CpiNative(n) => NumberBytesAreLe(n, 8);
    case _ =>
  }

  /** The order of the variants is the program's numbering. */
  lemma IndexIsKind(ix: VaultIx)
    ensures IndexOf(VARIANTS, KindString(ix)) == KindOf(ix)
  {
    var k := KindOf(ix);
    assert VARIANTS[k] == KindString(ix);
    forall i | 0 <= i < |VARIANTS| && i != k ensures VARIANTS[i] != KindString(ix) {
      VariantsDiffer(i, k);
    }
  }

  lemma VariantsDiffer(i: nat, j: nat)
    requires i < |VARIANTS| && j < |VARIANTS| && i != j
    ensures VARIANTS[i] != VARIANTS[j]
  {
    assert |VARIANTS[2]| == |VARIANTS[4]| == 23 && VARIANTS[2][0] != VARIANTS[4][0];
    assert |VARIANTS[7]| == |VARIANTS[9]| == 14 && VARIANTS[7][1] != VARIANTS[9][1];
  }

  lemma OneByte(b: byte)
    ensures NumberBytes(b, 1) == [b]
  {
    assert Pow256(0) == 1;
  }

  lemma UnionIsEncode(ix: VaultIx)
    requires InRange(ix)
    ensures UnionBytes(ix) == Encode(ix)
  {
    hide FieldBytes;
    hide Payload;
    hide IndexOf;
    hide KindString;
    hide NumberBytes;
    FieldsAgree(ix);
    IndexIsKind(ix);
    OneByte(KindOf(ix));
  }

  /** The two SDKs emit the same bytes for every instruction both accept, and refuse the same amounts;
      TypeScript also refuses what does not fit the widths. */
  lemma SdksAgree(ix: VaultIx)
    ensures TsData(ix) == if InRange(ix) then RustData(ix) else None
  {
    hide UnionBytes;
    hide Encode;
    if InRange(ix) {
      UnionIsEncode(ix);
    }
  }

  /** The program's effect depends on the data only through what it decodes to, and undecodable data
      never succeeds. */
  lemma ProcessFactors(env: Env, ctx: Ctx, l: Ledger, slots: seq<Address>, b: seq<byte>, c: seq<byte>)
    ensures Process(env, ctx, l, slots, b).Ok? ==> Decode(b).Ok?
    ensures Decode(b).Ok? && Decode(b) == Decode(c)
            ==> Process(env, ctx, l, slots, b) == Process(env, ctx, l, slots, c)
  {
    if Decode(b).Ok? && Decode(b) == Decode(c) {
      EncodeDecode(b);
      EncodeDecode(c);
      assert b[0] == Encode(Decode(b).value)[0] == c[0];
    }
  }
}
