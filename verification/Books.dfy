/** What each primitive, each instruction and each event does to the ledger's sums: lamports, tokens
    of a mint, open accounts under an authority, and the counts vaults keep of them. */
module Books {
  import opened Bytes
  import opened Types
  import opened Layout
  import opened Ledger
  import opened VaultProgram
  import opened Runs

  /** Open token accounts under `x` that the vault at `x` does not count. */
  ghost function Uncounted(l: Ledger, x: Address): int {
    Total(l, OpenUnder(x)) - Count(l, x)
  }

  // ----- Primitives -----

  /** Moving lamports keeps their sum exactly when source and destination differ; onto itself, an
      account gains what it sent. */
  lemma TransferLamportsTotal(l: Ledger, src: Address, dst: Address, n: u64, w: Weight)
    requires TransferLamports(l, src, dst, n).Ok?
    ensures var l' := TransferLamports(l, src, dst, n).value;
            if src != dst then
              && Total(l', w) == Total(l, w)
              && Get(l', src).lamports == Get(l, src).lamports - n
              && Get(l', dst).lamports == Get(l, dst).lamports + n
            else
              && Total(l', w) == Total(l, w) + (if w.Lamports? then n else 0)
              && Get(l', src).lamports == Get(l, src).lamports + n
  {
    var l' := TransferLamports(l, src, dst, n).value;
    var x := Get(l, src).(lamports := Get(l, src).lamports - n);
    var y := Get(l[src := x], dst).(lamports := Get(l, dst).lamports + n);
    TotalPut(l, src, x, w);
    TotalPut(l[src := x], dst, y, w);
  }

  lemma CloseProgramAccountTotal(l: Ledger, a: Address, to: Address, w: Weight)
    requires CloseProgramAccount(l, a, to).Ok? && a != to && IsVault(l, a)
    ensures Total(CloseProgramAccount(l, a, to).value, w) == Total(l, w)
  {
    var y := Get(l, to).(lamports := Get(l, to).lamports + Get(l, a).lamports);
    TotalPut2(l, to, y, a, EMPTY, w);
  }

  lemma CreateAccountTotal(l: Ledger, from: Address, s: bool, to: Address, t: bool, n: u64, v: VaultRecord, w: Weight)
    requires CreateAccount(l, from, s, to, t, n, Vault(v)).Ok?
    ensures Total(CreateAccount(l, from, s, to, t, n, Vault(v)).value, w) == Total(l, w)
  {
    TotalPut2(l, from, Get(l, from).(lamports := Get(l, from).lamports - n), to, Account(n, Vault(v)), w);
  }

  lemma CreateAtaTotal(env: Env, l: Ledger, from: Address, s: bool, ata: Address, wallet: Address,
                       program: Address, mint: Address, system: Address, w: Weight)
    requires CreateAta(env, l, from, s, ata, wallet, program, mint, system).Ok?
    ensures Total(CreateAta(env, l, from, s, ata, wallet, program, mint, system).value, w) ==
            Total(l, w) + if w == OpenUnder(wallet) then 1 else 0
  {
    var payer, target := Get(l, from), Get(l, ata);
    var need: u64 := if target.lamports >= env.tokenRent then 0 else env.tokenRent - target.lamports;
    TotalPut2(l, from, payer.(lamports := payer.lamports - need),
              ata, Account(target.lamports + need, Token(TokenRecord(program, mint, wallet, 0))), w);
  }

  /** A transfer moves tokens between holders and nothing else. */
  lemma TransferTotal(l: Ledger, p: Address, src: Address, dst: Address, auth: Address, s: bool, n: u64, w: Weight)
    requires Transfer(l, p, src, dst, auth, s, n).Ok?
    ensures var l' := Transfer(l, p, src, dst, auth, s, n).value;
            Total(l', w) == Total(l, w)
              - (if w == HeldBy(auth, Get(l, src).body.t.mint) then n else 0)
              + (if w == HeldBy(Get(l, dst).body.t.authority, Get(l, src).body.t.mint) then n else 0)
  {
    if src != dst {
      var x, y := Get(l, src), Get(l, dst);
      TotalPut2(l, src, x.(body := Token(x.body.t.(amount := x.body.t.amount - n))),
                dst, y.(body := Token(y.body.t.(amount := y.body.t.amount + n))), w);
    }
  }

  lemma CloseTokenTotal(l: Ledger, p: Address, a: Address, dst: Address, auth: Address, s: bool, w: Weight)
    requires CloseToken(l, p, a, dst, auth, s).Ok?
    ensures Total(CloseToken(l, p, a, dst, auth, s).value, w) ==
            Total(l, w) - if w == OpenUnder(auth) then 1 else 0
  {
    var d := Get(l, dst);
    TotalPut2(l, dst, d.(lamports := d.lamports + Get(l, a).lamports), a, EMPTY, w);
  }

  lemma SetRecordTotal(l: Ledger, a: Address, v: VaultRecord, w: Weight)
    requires IsVault(l, a)
    ensures Total(SetRecord(l, a, v), w) == Total(l, w)
  {
    TotalPut(l, a, Get(l, a).(body := Vault(v)), w);
  }

  // ----- Instructions -----

  predicate Conserved(w: Weight) { !w.HeldBy? && !w.OpenUnder? }

  /** Signers as the runtime admits them. */
  ghost predicate Signers(env: Env, ctx: Ctx) { forall s :: s in ctx.signers ==> MaySign(env, None, s) }

  lemma OpenVaultAtaBooks(env: Env, l: Ledger, owner: Address, vault: Address, ata: Address, program: Address,
                          mint: Address, system: Address, w: Weight, x: Address)
    requires IsVault(l, vault)
    requires OpenVaultAta(env, l, owner, vault, ata, program, mint, system, Get(l, vault).body.v).Ok?
    ensures var l' := OpenVaultAta(env, l, owner, vault, ata, program, mint, system, Get(l, vault).body.v).value;
            && (Conserved(w) ==> Total(l', w) == Total(l, w))
            && Uncounted(l', x) == Uncounted(l, x)
  {
    var v := Get(l, vault).body.v;
    var l1 := CreateAta(env, l, owner, true, ata, vault, program, mint, system).value;
    CreateAtaTotal(env, l, owner, true, ata, vault, program, mint, system, w);
    CreateAtaTotal(env, l, owner, true, ata, vault, program, mint, system, OpenUnder(x));
    SetRecordTotal(l1, vault, v.(ataCount := v.ataCount + 1), w);
    SetRecordTotal(l1, vault, v.(ataCount := v.ataCount + 1), OpenUnder(x));
  }

  lemma TransferBooks(l: Ledger, p: Address, src: Address, dst: Address, auth: Address, s: bool, n: u64, w: Weight,
                      x: Address)
    requires Transfer(l, p, src, dst, auth, s, n).Ok?
    ensures var l' := Transfer(l, p, src, dst, auth, s, n).value;
            && (Conserved(w) ==> Total(l', w) == Total(l, w))
            && Uncounted(l', x) == Uncounted(l, x)
  {
    TransferTotal(l, p, src, dst, auth, s, n, w);
    TransferTotal(l, p, src, dst, auth, s, n, OpenUnder(x));
  }

  lemma DepositBooks(env: Env, ctx: Ctx, l: Ledger, slots: seq<Address>, data: seq<byte>, w: Weight, x: Address)
    requires DepositUserVault(env, ctx, l, slots, data).Ok?
    ensures var l' := DepositUserVault(env, ctx, l, slots, data).value;
            && (Conserved(w) ==> Total(l', w) == Total(l, w))
            && Uncounted(l', x) == Uncounted(l, x)
  {
    var owner, vault, ata, program := slots[0], slots[1], slots[2], slots[7];
    var mint, system := slots[5], slots[6];
    if VaultAtaExists(l, ata, program, vault, mint).value {
      TransferBooks(l, program, slots[4], ata, owner, true, ParseU64(data).value, w, x);
    } else {
      var l1 := OpenVaultAta(env, l, owner, vault, ata, program, mint, system, Get(l, vault).body.v).value;
      OpenVaultAtaBooks(env, l, owner, vault, ata, program, mint, system, w, x);
      TransferBooks(l1, program, slots[4], ata, owner, true, ParseU64(data).value, w, x);
    }
  }

  lemma WithdrawBooks(env: Env, ctx: Ctx, l: Ledger, slots: seq<Address>, data: seq<byte>, w: Weight, x: Address)
    requires WithdrawUserVault(env, ctx, l, slots, data).Ok?
    ensures var l' := WithdrawUserVault(env, ctx, l, slots, data).value;
            && (Conserved(w) ==> Total(l', w) == Total(l, w))
            && Uncounted(l', x) == Uncounted(l, x)
  {
    var amount := ParseU64(data).value;
    TransferBooks(l, slots[6], slots[2], slots[4], slots[1], true, amount, w, x);
  }

  lemma CpiEntryBooks(env: Env, ctx: Ctx, l: Ledger, slots: seq<Address>, data: seq<byte>, w: Weight, x: Address)
    requires CpiEntry(env, ctx, l, slots, data).Ok?
    ensures |slots| == 11 && |data| == 16
    ensures var l' := CpiEntry(env, ctx, l, slots, data).value;
            && (w.TokensOf? ==> Total(l', w) == Total(l, w))
            && (w.Lamports? ==>
                  Total(l', w) == Total(l, w) + if slots[2] == slots[5] then ParseTwoU64(data).value.0 else 0)
            && Uncounted(l', x) == Uncounted(l, x)
  {
    hide TransferLamports;
    var (native, amount) := ParseTwoU64(data).value;
    var l1 := if native > 0 then TransferLamports(l, slots[2], slots[5], native).value else l;
    if native > 0 {
      NativeBooks(l, slots[2], slots[5], native, w, x);
    }
    if amount > 0 {
      TransferBooks(l1, slots[8], slots[3], slots[6], slots[2], true, amount, w, x);
    }
  }

  lemma CloseVaultAtaBooks(env: Env, ctx: Ctx, l: Ledger, slots: seq<Address>, w: Weight, x: Address)
    requires CloseVaultAta(env, ctx, l, slots).Ok?
    ensures var l' := CloseVaultAta(env, ctx, l, slots).value;
            && (Conserved(w) ==> Total(l', w) == Total(l, w))
            && Uncounted(l', x) == Uncounted(l, x)
  {
    var v := LoadVault(l, slots[1]).value;
    var l1 := CloseToken(l, slots[6], slots[3], slots[4], slots[1], true).value;
    CloseTokenTotal(l, slots[6], slots[3], slots[4], slots[1], true, w);
    CloseTokenTotal(l, slots[6], slots[3], slots[4], slots[1], true, OpenUnder(x));
    SetRecordTotal(l1, slots[1], v.(ataCount := v.ataCount - 1), w);
    SetRecordTotal(l1, slots[1], v.(ataCount := v.ataCount - 1), OpenUnder(x));
  }

  lemma CreateBooks(env: Env, ctx: Ctx, l: Ledger, slots: seq<Address>, data: seq<byte>, w: Weight, x: Address)
    requires CreateUserVault(env, ctx, l, slots, data).Ok?
    ensures var l' := CreateUserVault(env, ctx, l, slots, data).value;
            && (Conserved(w) ==> Total(l', w) == Total(l, w))
            && Uncounted(l', x) == Uncounted(l, x)
  {
    var pda := FindPda(env, slots[0], slots[2]).value;
    var v := VaultRecord(USER_VAULT_DISCRIMINATOR, pda.1, 0, ParseU32(data).value, slots[0], slots[2], slots[3]);
    CreateAccountTotal(l, slots[0], true, slots[1], true, RentMinimum(env, slots[4], LEN).value, v, w);
    CreateAccountTotal(l, slots[0], true, slots[1], true, RentMinimum(env, slots[4], LEN).value, v, OpenUnder(x));
  }

  lemma UpdateBooks(ctx: Ctx, l: Ledger, slots: seq<Address>, data: seq<byte>, w: Weight, x: Address)
    requires UpdateUserVaultDelegate(ctx, l, slots, data).Ok?
    ensures var l' := UpdateUserVaultDelegate(ctx, l, slots, data).value;
            Total(l', w) == Total(l, w) && Uncounted(l', x) == Uncounted(l, x)
  {
    var v := LoadVault(l, slots[1]).value.(delegate := slots[3], delegateExpires := ParseU32(data).value);
    SetRecordTotal(l, slots[1], v, w);
    SetRecordTotal(l, slots[1], v, OpenUnder(x));
  }

  /** The two native spends. An account other than the vault receives exactly what the vault loses;
      if the destination is the vault itself, lamports appear. */
  lemma NativeBooks(l: Ledger, vault: Address, dst: Address, n: u64, w: Weight, x: Address)
    requires TransferLamports(l, vault, dst, n).Ok?
    ensures var l' := TransferLamports(l, vault, dst, n).value;
            && (Conserved(w) ==>
                  Total(l', w) == Total(l, w) + if w.Lamports? && vault == dst then n else 0)
            && Uncounted(l', x) == Uncounted(l, x)
  {
    TransferLamportsTotal(l, vault, dst, n, w);
    TransferLamportsTotal(l, vault, dst, n, OpenUnder(x));
  }

  lemma CloseUserVaultBooks(env: Env, ctx: Ctx, l: Ledger, slots: seq<Address>, w: Weight, x: Address)
    requires Fits(env, l) && Signers(env, ctx) && CloseUserVault(ctx, l, slots).Ok?
    ensures var l' := CloseUserVault(ctx, l, slots).value;
            Total(l', w) == Total(l, w) && Uncounted(l', x) == Uncounted(l, x)
  {
    FitVault(env, l, slots[1], ctx.signers);
    CloseProgramAccountTotal(l, slots[1], slots[0], w);
    CloseProgramAccountTotal(l, slots[1], slots[0], OpenUnder(x));
  }

  /** Lamports a processed instruction would make out of nothing: its native amount, if it spends to
      the vault itself. */
  function Minted(slots: seq<Address>, ix: seq<byte>): nat {
    if |ix| == 17 && ix[0] == 6 && |slots| == 11 && slots[2] == slots[5] then ParseTwoU64(ix[1..]).value.0
    else if |ix| == 9 && ix[0] == 7 && |slots| == 7 && slots[2] == slots[4] then ParseU64(ix[1..]).value
    else 0
  }

  lemma WithdrawNativeBooks(env: Env, ctx: Ctx, l: Ledger, slots: seq<Address>, data: seq<byte>, w: Weight, x: Address)
    requires Fits(env, l) && Signers(env, ctx) && WithdrawUserVaultNative(ctx, l, slots, data).Ok?
    ensures var l' := WithdrawUserVaultNative(ctx, l, slots, data).value;
            (Conserved(w) ==> Total(l', w) == Total(l, w)) && Uncounted(l', x) == Uncounted(l, x)
  {
    FitVault(env, l, slots[1], ctx.signers);
    NativeBooks(l, slots[1], slots[0], ParseU64(data).value, w, x);
  }

  lemma CpiEntryNativeBooks(ctx: Ctx, l: Ledger, slots: seq<Address>, data: seq<byte>, w: Weight, x: Address)
    requires CpiEntryNative(ctx, l, slots, data).Ok?
    ensures |slots| == 7 && |data| == 8
    ensures var l' := CpiEntryNative(ctx, l, slots, data).value;
            && (Conserved(w) && !w.Lamports? ==> Total(l', w) == Total(l, w))
            && (w.Lamports? ==> Total(l', w) == Total(l, w) + if slots[2] == slots[4] then ParseU64(data).value else 0)
            && Uncounted(l', x) == Uncounted(l, x)
  {
    NativeBooks(l, slots[2], slots[4], ParseU64(data).value, w, x);
  }

  /** Every instruction that succeeds keeps each mint's total and, per authority, open minus counted
      accounts; it keeps total lamports exactly unless it spends to the vault itself. */
  lemma ProcessBooks(env: Env, ctx: Ctx, l: Ledger, slots: seq<Address>, ix: seq<byte>, w: Weight, x: Address)
    requires Fits(env, l) && Signers(env, ctx) && Process(env, ctx, l, slots, ix).Ok?
    ensures var l' := Process(env, ctx, l, slots, ix).value;
            && (Conserved(w) ==> Total(l', w) == Total(l, w) + if w.Lamports? then Minted(slots, ix) else 0)
            && Uncounted(l', x) == Uncounted(l, x)
  {
    hide CreateUserVault;
    hide DepositUserVault;
    hide UpdateUserVaultDelegate;
    hide WithdrawUserVault;
    hide WithdrawUserVaultNative;
    hide CpiEntry;
    hide CpiEntryNative;
    hide CloseVaultAta;
    hide CloseUserVault;
    var data := ix[1..];
    match ix[0]
    case 0 => CreateBooks(env, ctx, l, slots, data, w, x);
    case 1 => DepositBooks(env, ctx, l, slots, data, w, x);
    case 2 => UpdateBooks(ctx, l, slots, data, w, x);
    case 3 => WithdrawBooks(env, ctx, l, slots, data, w, x);
    case 4 => WithdrawNativeBooks(env, ctx, l, slots, data, w, x);
    case 6 => CpiEntryBooks(env, ctx, l, slots, data, w, x);
    case 7 => CpiEntryNativeBooks(ctx, l, slots, data, w, x);
    case 8 => CloseVaultAtaBooks(env, ctx, l, slots, w, x);
    case 9 => CloseUserVaultBooks(env, ctx, l, slots, w, x);
    case _ =>
  }
}
