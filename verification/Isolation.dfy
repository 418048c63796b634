/** One vault's events leave every other vault alone. */
module Isolation {
  import opened Bytes
  import opened Types
  import opened Layout
  import opened Ledger
  import opened VaultProgram
  import opened Runs
  import opened Books
  import opened Invariants

  /** From `l` to `l'` the account at `u` keeps its data and loses no lamports, and every token account
      it controls stays open under it, of the same mint, with no smaller balance. */
  ghost predicate Untouched(l: Ledger, l': Ledger, u: Address) {
    && Get(l', u).body == Get(l, u).body
    && Get(l', u).lamports >= Get(l, u).lamports
    && forall t :: Controls(l, u, t) ==>
         && Controls(l', u, t)
         && Get(l', t).body.t.mint == Get(l, t).body.t.mint
         && Get(l', t).body.t.amount >= Get(l, t).body.t.amount
  }

  lemma TransferIsolates(l: Ledger, p: Address, src: Address, dst: Address, auth: Address, s: bool, n: u64, u: Address)
    requires IsVault(l, u) && auth != u && Transfer(l, p, src, dst, auth, s, n).Ok?
    ensures Untouched(l, Transfer(l, p, src, dst, auth, s, n).value, u)
  {
  }

  lemma TransferLamportsIsolates(l: Ledger, src: Address, dst: Address, n: u64, u: Address)
    requires src != u && TransferLamports(l, src, dst, n).Ok?
    ensures Untouched(l, TransferLamports(l, src, dst, n).value, u)
  {
  }

  lemma CloseTokenIsolates(l: Ledger, p: Address, a: Address, dst: Address, auth: Address, s: bool, u: Address)
    requires IsVault(l, u) && auth != u && CloseToken(l, p, a, dst, auth, s).Ok?
    ensures Untouched(l, CloseToken(l, p, a, dst, auth, s).value, u)
  {
  }

  lemma OpenVaultAtaIsolates(env: Env, l: Ledger, owner: Address, vault: Address, ata: Address, program: Address,
                             mint: Address, system: Address, v: VaultRecord, u: Address)
    requires IsVault(l, u) && IsVault(l, vault) && u != vault
    requires OpenVaultAta(env, l, owner, vault, ata, program, mint, system, v).Ok?
    ensures Untouched(l, OpenVaultAta(env, l, owner, vault, ata, program, mint, system, v).value, u)
  {
  }

  lemma DepositIsolates(env: Env, ctx: Ctx, l: Ledger, slots: seq<Address>, data: seq<byte>, u: Address)
    requires IsVault(l, u) && u !in ctx.signers && DepositUserVault(env, ctx, l, slots, data).Ok? && u != slots[1]
    ensures Untouched(l, DepositUserVault(env, ctx, l, slots, data).value, u)
  {
    var owner, vault, ata, program := slots[0], slots[1], slots[2], slots[7];
    var mint, system := slots[5], slots[6];
    var l1 := l;
    if !VaultAtaExists(l, ata, program, vault, mint).value {
      OpenVaultAtaIsolates(env, l, owner, vault, ata, program, mint, system, Get(l, vault).body.v, u);
      l1 := OpenVaultAta(env, l, owner, vault, ata, program, mint, system, Get(l, vault).body.v).value;
    }
    TransferIsolates(l1, program, slots[4], ata, owner, true, ParseU64(data).value, u);
  }

  lemma CpiEntryIsolates(env: Env, ctx: Ctx, l: Ledger, slots: seq<Address>, data: seq<byte>, u: Address)
    requires IsVault(l, u) && CpiEntry(env, ctx, l, slots, data).Ok? && u != slots[2]
    ensures Untouched(l, CpiEntry(env, ctx, l, slots, data).value, u)
  {
    var (native, amount) := ParseTwoU64(data).value;
    var l1 := if native > 0 then TransferLamports(l, slots[2], slots[5], native).value else l;
    if native > 0 {
      TransferLamportsIsolates(l, slots[2], slots[5], native, u);
    }
    if amount > 0 {
      TransferIsolates(l1, slots[8], slots[3], slots[6], slots[2], true, amount, u);
    }
  }

  lemma CloseVaultAtaIsolates(env: Env, ctx: Ctx, l: Ledger, slots: seq<Address>, u: Address)
    requires IsVault(l, u) && CloseVaultAta(env, ctx, l, slots).Ok? && u != slots[1]
    ensures Untouched(l, CloseVaultAta(env, ctx, l, slots).value, u)
  {
    CloseTokenIsolates(l, slots[6], slots[3], slots[4], slots[1], true, u);
  }

  lemma CreateIsolates(env: Env, ctx: Ctx, l: Ledger, slots: seq<Address>, data: seq<byte>, u: Address)
    requires IsVault(l, u) && CreateUserVault(env, ctx, l, slots, data).Ok? && u != slots[1]
    ensures Untouched(l, CreateUserVault(env, ctx, l, slots, data).value, u)
  {
  }

  lemma UpdateIsolates(ctx: Ctx, l: Ledger, slots: seq<Address>, data: seq<byte>, u: Address)
    requires UpdateUserVaultDelegate(ctx, l, slots, data).Ok? && u != slots[1]
    ensures Untouched(l, UpdateUserVaultDelegate(ctx, l, slots, data).value, u)
  {
  }

  lemma WithdrawIsolates(env: Env, ctx: Ctx, l: Ledger, slots: seq<Address>, data: seq<byte>, u: Address)
    requires IsVault(l, u) && WithdrawUserVault(env, ctx, l, slots, data).Ok? && u != slots[1]
    ensures Untouched(l, WithdrawUserVault(env, ctx, l, slots, data).value, u)
  {
    TransferIsolates(l, slots[6], slots[2], slots[4], slots[1], true, ParseU64(data).value, u);
  }

  lemma WithdrawNativeIsolates(ctx: Ctx, l: Ledger, slots: seq<Address>, data: seq<byte>, u: Address)
    requires WithdrawUserVaultNative(ctx, l, slots, data).Ok? && u != slots[1]
    ensures Untouched(l, WithdrawUserVaultNative(ctx, l, slots, data).value, u)
  {
    TransferLamportsIsolates(l, slots[1], slots[0], ParseU64(data).value, u);
  }

  lemma CpiEntryNativeIsolates(ctx: Ctx, l: Ledger, slots: seq<Address>, data: seq<byte>, u: Address)
    requires CpiEntryNative(ctx, l, slots, data).Ok? && u != slots[2]
    ensures Untouched(l, CpiEntryNative(ctx, l, slots, data).value, u)
  {
    TransferLamportsIsolates(l, slots[2], slots[4], ParseU64(data).value, u);
  }

  lemma CloseUserVaultIsolates(ctx: Ctx, l: Ledger, slots: seq<Address>, u: Address)
    requires IsVault(l, u) && CloseUserVault(ctx, l, slots).Ok? && u != slots[1]
    ensures Untouched(l, CloseUserVault(ctx, l, slots).value, u)
  {
  }

  /** A successful instruction on one vault leaves any other as it was, whoever owns either. */
  lemma ProcessIsolates(env: Env, ctx: Ctx, l: Ledger, slots: seq<Address>, ix: seq<byte>, u: Address)
    requires IsVault(l, u) && u !in ctx.signers
    requires Process(env, ctx, l, slots, ix).Ok?
    requires VaultSlot(ix[0]) < |slots| && u != slots[VaultSlot(ix[0])]
    ensures Untouched(l, Process(env, ctx, l, slots, ix).value, u)
  {
    hide CreateUserVault;
    hide DepositUserVault;
    hide UpdateUserVaultDelegate;
    hide WithdrawUserVault;
    hide WithdrawUserVaultNative;
    hide CpiEntry;
    hide CpiEntryNative;
    hide CloseVaultAta;
    hide CloseUserVault;
    var data := ix[1..];
    match ix[0]
    case 0 => CreateIsolates(env, ctx, l, slots, data, u);
    case 1 => DepositIsolates(env, ctx, l, slots, data, u);
    case 2 => UpdateIsolates(ctx, l, slots, data, u);
    case 3 => WithdrawIsolates(env, ctx, l, slots, data, u);
    case 4 => WithdrawNativeIsolates(ctx, l, slots, data, u);
    case 6 => CpiEntryIsolates(env, ctx, l, slots, data, u);
    case 7 => CpiEntryNativeIsolates(ctx, l, slots, data, u);
    case 8 => CloseVaultAtaIsolates(env, ctx, l, slots, u);
    case 9 => CloseUserVaultIsolates(ctx, l, slots, u);
    case _ =>
  }

  /** So does anything another program may do, with or without another vault's signature. */
  lemma ApplyIsolates(env: Env, vault: Option<Address>, l: Ledger, op: Op, u: Address)
    requires IsVault(l, u) && IsVaultPda(env, u) && vault != Some(u) && Apply(env, vault, l, op).Ok?
    ensures Untouched(l, Apply(env, vault, l, op).value, u)
  {
    match op
    case Send(p, src, dst, auth, n) => TransferIsolates(l, p, src, dst, auth, true, n, u);
    case Shut(p, a, dst, auth) => CloseTokenIsolates(l, p, a, dst, auth, true, u);
    case Pay(from, to, n) => TransferLamportsIsolates(l, from, to, n, u);
    case _ =>
  }

  lemma {:induction false} ApplyAllIsolates(env: Env, vault: Option<Address>, l: Ledger, ops: seq<Op>, u: Address)
    requires IsVault(l, u) && IsVaultPda(env, u) && vault != Some(u) && ApplyAll(env, vault, l, ops).Ok?
    ensures Untouched(l, ApplyAll(env, vault, l, ops).value, u)
    decreases |ops|
  {
    if ops != [] {
      ApplyIsolates(env, vault, l, ops[0], u);
      ApplyAllIsolates(env, vault, Apply(env, vault, l, ops[0]).value, ops[1..], u);
    }
  }

  lemma CallIsolates(env: Env, w: World, e: Event, u: Address)
    requires IsVault(w.l, u) && IsVaultPda(env, u) && VaultOf(e) != Some(u)
    requires e.Call? && Exec(env, w, e).Ok?
    ensures Untouched(w.l, Exec(env, w, e).value.l, u)
  {
    SlotsSuffice(env, CtxOf(w, e), w.l, e.slots, e.ix);
    ProcessIsolates(env, CtxOf(w, e), w.l, e.slots, e.ix, u);
    if IsAppIx(e.ix) {
      ApplyAllIsolates(env, Some(e.slots[2]), w.l, e.ops, u);
    }
  }

  lemma NextIsolates(env: Env, w: World, e: Event, u: Address)
    requires IsVault(w.l, u) && IsVaultPda(env, u) && Get(w.l, u).lamports > 0
    requires !(Commits(env, w, e) && VaultOf(e) == Some(u))
    ensures Untouched(w.l, Next(env, w, e).l, u)
  {
    hide Process;
    hide Apply;
    if Commits(env, w, e) {
      match e
      case Call(signers, top, slots, ix, ops) => CallIsolates(env, w, e, u);
      case Outside(op) => ApplyIsolates(env, None, w.l, op, u);
      case _ =>
    }
  }

  /** No event of the run commits on `u`; rejected ones may name it. */
  ghost predicate NoneOn(env: Env, w: World, es: seq<Event>, u: Address)
    decreases |es|
  {
    es == [] || (!(Commits(env, w, es[0]) && VaultOf(es[0]) == Some(u)) && NoneOn(env, Next(env, w, es[0]), es[1..], u))
  }

  /** Over any run in which no event commits on it, a funded vault keeps every byte of its data, and its
      lamports and the balance of every token account it controls never fall. */
  lemma {:induction false} RunIsolates(env: Env, w: World, es: seq<Event>, u: Address)
    requires IsVault(w.l, u) && IsVaultPda(env, u) && Get(w.l, u).lamports > 0
    requires NoneOn(env, w, es, u)
    ensures Untouched(w.l, Run(env, w, es).l, u)
    decreases |es|
  {
    hide Exec;
    if es != [] {
      NextIsolates(env, w, es[0], u);
      RunIsolates(env, Next(env, w, es[0]), es[1..], u);
    }
  }
}
