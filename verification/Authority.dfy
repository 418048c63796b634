/** Nothing is taken from a vault, and none of its data changes, without its owner's signature or, in time,
    its delegate's. */
module Authority {
  import opened Bytes
  import opened Types
  import opened Layout
  import opened Ledger
  import opened VaultProgram
  import opened Runs
  import opened Books
  import opened Invariants
  import opened Isolation
  import opened DelegateWindow

  /** The owner signed and named the vault's own owner and app. */
  ghost predicate OwnerSigned(ctx: Ctx, l: Ledger, slots: seq<Address>) {
    |slots| > 2 && IsVault(l, slots[1]) && slots[0] == Get(l, slots[1]).body.v.owner && slots[0] in ctx.signers
  }

  lemma DepositAuthority(env: Env, ctx: Ctx, l: Ledger, slots: seq<Address>, data: seq<byte>)
    requires DepositUserVault(env, ctx, l, slots, data).Ok?
    ensures OwnerSigned(ctx, l, slots)
  {
    hide OpenVaultAta;
    hide TransferChecked;
  }

  lemma WithdrawAuthority(env: Env, ctx: Ctx, l: Ledger, slots: seq<Address>, data: seq<byte>)
    requires WithdrawUserVault(env, ctx, l, slots, data).Ok?
    ensures OwnerSigned(ctx, l, slots)
  {
    hide TransferChecked;
  }

  lemma OwnerAuthority(env: Env, ctx: Ctx, l: Ledger, slots: seq<Address>, data: seq<byte>)
    ensures UpdateUserVaultDelegate(ctx, l, slots, data).Ok? ==> OwnerSigned(ctx, l, slots)
    ensures WithdrawUserVaultNative(ctx, l, slots, data).Ok? ==> OwnerSigned(ctx, l, slots)
    ensures CloseVaultAta(env, ctx, l, slots).Ok? ==> OwnerSigned(ctx, l, slots)
    ensures CloseUserVault(ctx, l, slots).Ok? ==> OwnerSigned(ctx, l, slots)
  {
    hide TransferLamports;
    hide CloseToken;
    hide CloseProgramAccount;
  }

  lemma CreateNeedsNoVault(env: Env, ctx: Ctx, l: Ledger, slots: seq<Address>, data: seq<byte>)
    requires CreateUserVault(env, ctx, l, slots, data).Ok?
    ensures |slots| == 6 && !IsVault(l, slots[1])
  {
    hide CreateAccount;
  }

  /** Every instruction on an existing vault carries the owner's signature or the delegate's, in time. */
  lemma ProcessAuthority(env: Env, ctx: Ctx, l: Ledger, slots: seq<Address>, ix: seq<byte>)
    requires Process(env, ctx, l, slots, ix).Ok?
    ensures ix != [] && VaultSlot(ix[0]) < |slots|
    ensures IsVault(l, slots[VaultSlot(ix[0])]) ==>
              if ix[0] in {5, 6, 7} then Passed(ctx, l, slots, if ix[0] == 5 then slots[3] else ctx.top)
              else OwnerSigned(ctx, l, slots)
  {
    SlotsSuffice(env, ctx, l, slots, ix);
    var data := ix[1..];
    hide CreateUserVault;
    hide DepositUserVault;
    hide UpdateUserVaultDelegate;
    hide WithdrawUserVault;
    hide WithdrawUserVaultNative;
    hide AppIx;
    hide CpiEntry;
    hide CpiEntryNative;
    hide CloseVaultAta;
    hide CloseUserVault;
    match ix[0]
    case 0 => CreateNeedsNoVault(env, ctx, l, slots, data);
    case 1 => DepositAuthority(env, ctx, l, slots, data);
    case 3 => WithdrawAuthority(env, ctx, l, slots, data);
    case 5 => DelegatedProcess(env, ctx, l, slots, ix);
    case 6 => DelegatedProcess(env, ctx, l, slots, ix);
    case 7 => DelegatedProcess(env, ctx, l, slots, ix);
    case _ => OwnerAuthority(env, ctx, l, slots, data);
  }

  /** The event could act for the vault: it is a call its owner signed, or one its delegate signed in time. */
  ghost predicate MayAct(w: World, e: Event, v: VaultRecord) {
    e.Call? && (v.owner in e.signers || (v.delegate in e.signers && 1 <= w.now <= v.delegateExpires))
  }

  lemma CommittedOnVault(env: Env, w: World, e: Event, a: Address)
    requires IsVault(w.l, a) && Commits(env, w, e) && VaultOf(e) == Some(a)
    ensures MayAct(w, e, Get(w.l, a).body.v)
  {
    hide Process;
    ProcessAuthority(env, CtxOf(w, e), w.l, e.slots, e.ix);
  }

  /** An event that could not act for a funded vault leaves its data, its lamports and all its balances. */
  lemma StrangersTakeNothing(env: Env, w: World, e: Event, a: Address)
    requires IsVault(w.l, a) && IsVaultPda(env, a) && Get(w.l, a).lamports > 0
    requires !MayAct(w, e, Get(w.l, a).body.v)
    ensures Untouched(w.l, Next(env, w, e).l, a)
  {
    hide Exec;
    if Commits(env, w, e) && VaultOf(e) == Some(a) {
      CommittedOnVault(env, w, e, a);
    } else {
      NextIsolates(env, w, e, a);
    }
  }

  /** Each event of the run, at its time, could not act for the vault. */
  ghost predicate StrangersOnly(env: Env, w: World, es: seq<Event>, v: VaultRecord)
    decreases |es|
  {
    es == [] || (!MayAct(w, es[0], v) && StrangersOnly(env, Next(env, w, es[0]), es[1..], v))
  }

  /** Over any run in which neither the owner nor, in time, the delegate signs, a funded vault keeps its data,
      and loses no lamports, no token account and no balance. */
  lemma {:induction false} OnlyOwnerOrDelegate(env: Env, w: World, es: seq<Event>, a: Address)
    requires IsVault(w.l, a) && IsVaultPda(env, a) && Get(w.l, a).lamports > 0
    requires StrangersOnly(env, w, es, Get(w.l, a).body.v)
    ensures Untouched(w.l, Run(env, w, es).l, a)
    decreases |es|
  {
    hide Exec;
    hide MayAct;
    if es != [] {
      StrangersTakeNothing(env, w, es[0], a);
      OnlyOwnerOrDelegate(env, Next(env, w, es[0]), es[1..], a);
    }
  }

  // ----- Where the owner's instructions send things -----

  /** A withdrawal takes the amount from what the vault holds of the mint and adds it to what the owner holds. */
  lemma WithdrawPaysTheOwner(env: Env, ctx: Ctx, l: Ledger, slots: seq<Address>, data: seq<byte>)
    requires Fits(env, l) && Signers(env, ctx) && WithdrawUserVault(env, ctx, l, slots, data).Ok?
    ensures |slots| == 7 && ParseU64(data).Ok?
    ensures var l', n := WithdrawUserVault(env, ctx, l, slots, data).value, ParseU64(data).value;
            && Total(l', HeldBy(slots[1], slots[5])) == Total(l, HeldBy(slots[1], slots[5])) - n
            && Total(l', HeldBy(slots[0], slots[5])) == Total(l, HeldBy(slots[0], slots[5])) + n
  {
    var n := ParseU64(data).value;
    FitVault(env, l, slots[1], ctx.signers);
    TransferTotal(l, slots[6], slots[2], slots[4], slots[1], true, n, HeldBy(slots[1], slots[5]));
    TransferTotal(l, slots[6], slots[2], slots[4], slots[1], true, n, HeldBy(slots[0], slots[5]));
  }

  /** A native withdrawal moves exactly its amount to the owner, a close everything. */
  lemma LamportsPayTheOwner(env: Env, ctx: Ctx, l: Ledger, slots: seq<Address>, data: seq<byte>)
    requires Fits(env, l) && Signers(env, ctx) && |slots| == 3
    ensures WithdrawUserVaultNative(ctx, l, slots, data).Ok? ==>
              var l', n := WithdrawUserVaultNative(ctx, l, slots, data).value, U64At(data, 0);
              && Get(l', slots[1]) == Get(l, slots[1]).(lamports := Get(l, slots[1]).lamports - n)
              && Get(l', slots[0]) == Get(l, slots[0]).(lamports := Get(l, slots[0]).lamports + n)
    ensures CloseUserVault(ctx, l, slots).Ok? ==>
              var l' := CloseUserVault(ctx, l, slots).value;
              && Get(l', slots[1]) == EMPTY && Count(l, slots[1]) == 0
              && Get(l', slots[0])
                 == Get(l, slots[0]).(lamports := Get(l, slots[0]).lamports + Get(l, slots[1]).lamports)
  {
    if slots[0] in ctx.signers && IsVault(l, slots[1]) && Get(l, slots[1]).body.v.owner == slots[0] {
      FitVault(env, l, slots[1], ctx.signers);
    }
  }
}
