/** Running balances of token accounts, told from the instructions alone. */
module Balances {
  import opened Bytes
  import opened Types
  import opened Layout
  import opened Ledger
  import opened VaultProgram
  import opened Runs
  import opened Books
  import opened Invariants

  /** `n` tokens from `src` to `dst`, as seen by `t`. */
  function Moved(src: Address, dst: Address, n: int, t: Address): int {
    (if dst == t then n else 0) - (if src == t then n else 0)
  }

  function OpFlow(op: Op, t: Address): int {
    match op
    case Send(_, src, dst, _, n) => Moved(src, dst, n, t)
    case _ => 0
  }

  function OpsFlow(ops: seq<Op>, t: Address): int
    decreases |ops|
  {
    if ops == [] then 0 else OpFlow(ops[0], t) + OpsFlow(ops[1..], t)
  }

  /** The token movement a vault instruction's own data and slots announce. */
  function CallFlow(slots: seq<Address>, ix: seq<byte>, t: Address): int {
    if |ix| == 9 && ix[0] == 1 && |slots| == 9 then Moved(slots[4], slots[2], U64At(ix, 1), t)
    else if |ix| == 9 && ix[0] == 3 && |slots| == 7 then Moved(slots[2], slots[4], U64At(ix, 1), t)
    else if |ix| == 17 && ix[0] == 6 && |slots| == 11 then Moved(slots[3], slots[6], U64At(ix, 9), t)
    else 0
  }

  /** What an event, if it commits, adds to token account `t`. */
  function Flow(e: Event, t: Address): int {
    match e
    case Call(_, _, slots, ix, ops) => CallFlow(slots, ix, t) + OpsFlow(ops, t)
    case Outside(op) => OpFlow(op, t)
    case _ => 0
  }

  lemma TransferMoves(l: Ledger, p: Address, src: Address, dst: Address, auth: Address, s: bool, n: u64, t: Address)
    requires Transfer(l, p, src, dst, auth, s, n).Ok?
    ensures Amount(Transfer(l, p, src, dst, auth, s, n).value, t) == Amount(l, t) + Moved(src, dst, n, t)
  {
  }

  lemma DepositMoves(env: Env, ctx: Ctx, l: Ledger, slots: seq<Address>, data: seq<byte>, t: Address)
    requires DepositUserVault(env, ctx, l, slots, data).Ok?
    ensures |slots| == 9 && |data| == 8
    ensures Amount(DepositUserVault(env, ctx, l, slots, data).value, t)
            == Amount(l, t) + Moved(slots[4], slots[2], ParseU64(data).value, t)
  {
    var owner, vault, ata, program := slots[0], slots[1], slots[2], slots[7];
    var mint, system := slots[5], slots[6];
    var l1 := l;
    if !VaultAtaExists(l, ata, program, vault, mint).value {
      l1 := OpenVaultAta(env, l, owner, vault, ata, program, mint, system, Get(l, vault).body.v).value;
      assert Amount(l1, t) == Amount(l, t);
    }
    TransferMoves(l1, program, slots[4], ata, owner, true, ParseU64(data).value, t);
  }

  lemma CpiEntryMoves(env: Env, ctx: Ctx, l: Ledger, slots: seq<Address>, data: seq<byte>, t: Address)
    requires CpiEntry(env, ctx, l, slots, data).Ok?
    ensures |slots| == 11 && |data| == 16
    ensures Amount(CpiEntry(env, ctx, l, slots, data).value, t)
            == Amount(l, t) + Moved(slots[3], slots[6], ParseTwoU64(data).value.1, t)
  {
    var (native, amount) := ParseTwoU64(data).value;
    var l1 := if native > 0 then TransferLamports(l, slots[2], slots[5], native).value else l;
    assert Amount(l1, t) == Amount(l, t);
    if amount > 0 {
      TransferMoves(l1, slots[8], slots[3], slots[6], slots[2], true, amount, t);
    }
  }

  lemma CreateMoves(env: Env, ctx: Ctx, l: Ledger, slots: seq<Address>, data: seq<byte>, t: Address)
    requires CreateUserVault(env, ctx, l, slots, data).Ok?
    ensures Amount(CreateUserVault(env, ctx, l, slots, data).value, t) == Amount(l, t)
  {
  }

  lemma CloseMoves(env: Env, ctx: Ctx, l: Ledger, slots: seq<Address>, t: Address)
    ensures CloseVaultAta(env, ctx, l, slots).Ok? ==>
              Amount(CloseVaultAta(env, ctx, l, slots).value, t) == Amount(l, t)
    ensures CloseUserVault(ctx, l, slots).Ok? ==> Amount(CloseUserVault(ctx, l, slots).value, t) == Amount(l, t)
  {
  }

  lemma WithdrawMoves(env: Env, ctx: Ctx, l: Ledger, slots: seq<Address>, data: seq<byte>, t: Address)
    requires WithdrawUserVault(env, ctx, l, slots, data).Ok?
    ensures |slots| == 7 && |data| == 8
    ensures Amount(WithdrawUserVault(env, ctx, l, slots, data).value, t)
            == Amount(l, t) + Moved(slots[2], slots[4], ParseU64(data).value, t)
  {
    TransferMoves(l, slots[6], slots[2], slots[4], slots[1], true, ParseU64(data).value, t);
  }

  lemma NativeMoves(ctx: Ctx, l: Ledger, slots: seq<Address>, data: seq<byte>, t: Address)
    ensures WithdrawUserVaultNative(ctx, l, slots, data).Ok? ==>
              Amount(WithdrawUserVaultNative(ctx, l, slots, data).value, t) == Amount(l, t)
    ensures CpiEntryNative(ctx, l, slots, data).Ok? ==>
              Amount(CpiEntryNative(ctx, l, slots, data).value, t) == Amount(l, t)
  {
  }

  lemma UpdateMoves(ctx: Ctx, l: Ledger, slots: seq<Address>, data: seq<byte>, t: Address)
    requires UpdateUserVaultDelegate(ctx, l, slots, data).Ok?
    ensures Amount(UpdateUserVaultDelegate(ctx, l, slots, data).value, t) == Amount(l, t)
  {
  }

  /** The amounts in the data, after the first byte as in it. */
  lemma DataShifts(ix: seq<byte>)
    ensures |ix| == 9 ==> U64At(ix[1..], 0) == U64At(ix, 1)
    ensures |ix| == 17 ==> U64At(ix[1..], 8) == U64At(ix, 9)
  {
    if |ix| == 9 {
      assert ix[1..][0..8] == ix[1..9];
    }
    if |ix| == 17 {
      assert ix[1..][8..16] == ix[9..17];
    }
  }

  lemma ProcessMoves(env: Env, ctx: Ctx, l: Ledger, slots: seq<Address>, ix: seq<byte>, t: Address)
    requires Process(env, ctx, l, slots, ix).Ok?
    ensures Amount(Process(env, ctx, l, slots, ix).value, t) == Amount(l, t) + CallFlow(slots, ix, t)
  {
    hide CreateUserVault;
    hide DepositUserVault;
    hide UpdateUserVaultDelegate;
    hide WithdrawUserVault;
    hide WithdrawUserVaultNative;
    hide CpiEntry;
    hide CpiEntryNative;
    hide CloseVaultAta;
    hide CloseUserVault;
    hide U64At;
    var data := ix[1..];
    DataShifts(ix);
    match ix[0]
    case 0 => CreateMoves(env, ctx, l, slots, data, t);
    case 1 => DepositMoves(env, ctx, l, slots, data, t);
    case 2 => UpdateMoves(ctx, l, slots, data, t);
    case 3 => WithdrawMoves(env, ctx, l, slots, data, t);
    case 4 => NativeMoves(ctx, l, slots, data, t);
    case 6 => CpiEntryMoves(env, ctx, l, slots, data, t);
    case 7 => NativeMoves(ctx, l, slots, data, t);
    case 8 => CloseMoves(env, ctx, l, slots, t);
    case 9 => CloseMoves(env, ctx, l, slots, t);
    case _ =>
  }

  lemma ApplyMoves(env: Env, vault: Option<Address>, l: Ledger, op: Op, t: Address)
    requires Apply(env, vault, l, op).Ok?
    ensures Amount(Apply(env, vault, l, op).value, t) == Amount(l, t) + OpFlow(op, t)
  {
  }

  lemma {:induction false} ApplyAllMoves(env: Env, vault: Option<Address>, l: Ledger, ops: seq<Op>, t: Address)
    requires ApplyAll(env, vault, l, ops).Ok?
    ensures Amount(ApplyAll(env, vault, l, ops).value, t) == Amount(l, t) + OpsFlow(ops, t)
    decreases |ops|
  {
    if ops != [] {
      ApplyMoves(env, vault, l, ops[0], t);
      ApplyAllMoves(env, vault, Apply(env, vault, l, ops[0]).value, ops[1..], t);
    }
  }

  lemma NextMoves(env: Env, w: World, e: Event, t: Address)
    ensures Amount(Next(env, w, e).l, t) == Amount(w.l, t) + if Commits(env, w, e) then Flow(e, t) else 0
  {
    hide Process;
    hide Apply;
    hide CallFlow;
    hide OpFlow;
    if Commits(env, w, e) {
      match e
      case Call(signers, top, slots, ix, ops) =>
        ProcessMoves(env, CtxOf(w, e), w.l, slots, ix, t);
        if IsAppIx(ix) {
          SlotsSuffice(env, CtxOf(w, e), w.l, slots, ix);
          ApplyAllMoves(env, Some(slots[2]), Process(env, CtxOf(w, e), w.l, slots, ix).value, ops, t);
        }
      case Outside(op) => ApplyMoves(env, None, w.l, op, t);
      case _ =>
    }
  }

  /** The committed flow into `t` over a run, by the kind of event that caused it. */
  ghost function FlowIn(env: Env, w: World, es: seq<Event>, t: Address, kind: int): int
    decreases |es|
  {
    if es == [] then 0
    else (if Commits(env, w, es[0]) && Kind(es[0]) == kind then Flow(es[0], t) else 0)
         + FlowIn(env, Next(env, w, es[0]), es[1..], t, kind)
  }

  /** Over every run, every token account's balance is what it was plus deposits, withdrawals, CpiEntry
      spends, AppIx movement and outside transfers, each with its sign, and nothing else. */
  lemma {:induction false} RunningBalance(env: Env, w: World, es: seq<Event>, t: Address)
    ensures Amount(Run(env, w, es).l, t) == Amount(w.l, t)
              + FlowIn(env, w, es, t, 1) + FlowIn(env, w, es, t, 3) + FlowIn(env, w, es, t, 6)
              + FlowIn(env, w, es, t, 5) + FlowIn(env, w, es, t, -1)
    decreases |es|
  {
    if es != [] {
      NextMoves(env, w, es[0], t);
      assert Kind(es[0]) !in {1, 3, 5, 6, -1} && Commits(env, w, es[0]) ==> Flow(es[0], t) == 0;
      RunningBalance(env, Next(env, w, es[0]), es[1..], t);
    }
  }

  lemma DepositSource(env: Env, ctx: Ctx, l: Ledger, slots: seq<Address>, data: seq<byte>, v: Address, t: Address)
    requires Signers(env, ctx) && IsVaultPda(env, v) && Controls(l, v, t)
    requires DepositUserVault(env, ctx, l, slots, data).Ok?
    ensures slots[4] != t
  {
  }

  lemma WithdrawDestination(env: Env, ctx: Ctx, l: Ledger, slots: seq<Address>, data: seq<byte>, v: Address, t: Address)
    requires Signers(env, ctx) && IsVaultPda(env, v) && Controls(l, v, t)
    requires WithdrawUserVault(env, ctx, l, slots, data).Ok?
    ensures slots[4] != t
  {
  }

  lemma CallSigns(env: Env, ctx: Ctx, l: Ledger, slots: seq<Address>, ix: seq<byte>, v: Address, t: Address)
    requires Signers(env, ctx) && IsVaultPda(env, v) && Controls(l, v, t) && Process(env, ctx, l, slots, ix).Ok?
    ensures ix[0] == 1 ==> CallFlow(slots, ix, t) >= 0
    ensures ix[0] == 3 ==> CallFlow(slots, ix, t) <= 0
  {
    hide CreateUserVault;
    hide DepositUserVault;
    hide UpdateUserVaultDelegate;
    hide WithdrawUserVault;
    hide WithdrawUserVaultNative;
    hide CpiEntry;
    hide CpiEntryNative;
    hide CloseVaultAta;
    hide CloseUserVault;
    if ix[0] == 1 {
      DepositSource(env, ctx, l, slots, ix[1..], v, t);
    } else if ix[0] == 3 {
      WithdrawDestination(env, ctx, l, slots, ix[1..], v, t);
    }
  }

  /** For an account a vault controls, deposits and outside transfers only add, withdrawals only take. */
  lemma FlowSigns(env: Env, w: World, e: Event, v: Address, t: Address)
    requires IsVaultPda(env, v) && Controls(w.l, v, t) && Commits(env, w, e)
    ensures Kind(e) == 1 || e.Outside? ==> Flow(e, t) >= 0
    ensures Kind(e) == 3 ==> Flow(e, t) <= 0
  {
    hide Process;
    hide CallFlow;
    if e.Call? {
      CallSigns(env, CtxOf(w, e), w.l, e.slots, e.ix, v, t);
    }
  }

  /** The ledger is ready for a withdrawal of `n` from the vault's account back to the owner's. */
  predicate ReadyBack(env: Env, l: Ledger, slots: seq<Address>, n: u64)
    requires |slots| == 7
  {
    var owner, vault, ata, app := slots[0], slots[1], slots[2], slots[3];
    var dest, mint, program := slots[4], slots[5], slots[6];
    && IsVault(l, vault) && IsMint(l, program, mint)
    && (var v := Get(l, vault).body.v;
        v.owner == owner && v.app == app && env.createPda(owner, app, v.bump) == Some(vault))
    && IsToken(l, ata) && IsToken(l, dest)
    && (var s, d := Get(l, ata).body.t, Get(l, dest).body.t;
        && s.program == program == d.program && s.mint == mint == d.mint
        && s.authority == vault && d.authority == owner
        && n <= s.amount && (ata != dest ==> d.amount + n <= U64_MAX))
  }

  lemma WithdrawSucceeds(env: Env, ctx: Ctx, l: Ledger, slots: seq<Address>, data: seq<byte>)
    requires |slots| == 7 && slots[0] in ctx.signers && ParseU64(data).Ok? && ParseU64(data).value > 0
    requires ReadyBack(env, l, slots, ParseU64(data).value)
    ensures WithdrawUserVault(env, ctx, l, slots, data).Ok?
  {
  }

  function BackSlots(slots: seq<Address>): seq<Address>
    requires |slots| == 9
  {
    [slots[0], slots[1], slots[2], slots[3], slots[4], slots[5], slots[7]]
  }

  lemma OpenPrepares(env: Env, l: Ledger, owner: Address, vault: Address, ata: Address, program: Address,
                     mint: Address, system: Address, v: VaultRecord, source: Address, n: u64, decimals: byte)
    requires IsVault(l, vault) && Get(l, vault).body.v == v && v.owner == owner
    requires env.createPda(owner, v.app, v.bump) == Some(vault)
    requires OpenVaultAta(env, l, owner, vault, ata, program, mint, system, v).Ok?
    requires var l1 := OpenVaultAta(env, l, owner, vault, ata, program, mint, system, v).value;
             TransferChecked(l1, program, mint, source, ata, owner, true, n, decimals).Ok?
    ensures var l1 := OpenVaultAta(env, l, owner, vault, ata, program, mint, system, v).value;
            ReadyBack(env, TransferChecked(l1, program, mint, source, ata, owner, true, n, decimals).value,
                      [owner, vault, ata, v.app, source, mint, program], n)
  {
  }

  lemma KnownPrepares(env: Env, l: Ledger, owner: Address, vault: Address, ata: Address, program: Address,
                      mint: Address, v: VaultRecord, source: Address, n: u64, decimals: byte)
    requires IsVault(l, vault) && Get(l, vault).body.v == v && v.owner == owner
    requires env.createPda(owner, v.app, v.bump) == Some(vault)
    requires VaultAtaExists(l, ata, program, vault, mint) == Ok(true)
    requires TransferChecked(l, program, mint, source, ata, owner, true, n, decimals).Ok?
    ensures ReadyBack(env, TransferChecked(l, program, mint, source, ata, owner, true, n, decimals).value,
                      [owner, vault, ata, v.app, source, mint, program], n)
  {
  }

  lemma DepositPrepares(env: Env, ctx: Ctx, l: Ledger, slots: seq<Address>, data: seq<byte>)
    requires Inv(env, l) && Signers(env, ctx) && DepositUserVault(env, ctx, l, slots, data).Ok?
    ensures |slots| == 9 && slots[0] in ctx.signers && ParseU64(data).Ok? && ParseU64(data).value > 0
    ensures ReadyBack(env, DepositUserVault(env, ctx, l, slots, data).value, BackSlots(slots), ParseU64(data).value)
  {
    hide ReadyBack;
    hide OpenVaultAta;
    hide TransferChecked;
    FitVault(env, l, slots[1], ctx.signers);
    var v, n, decimals := Get(l, slots[1]).body.v, ParseU64(data).value, ReadMintDecimals(l, slots[5]).value;
    if VaultAtaExists(l, slots[2], slots[7], slots[1], slots[5]).value {
      KnownPrepares(env, l, slots[0], slots[1], slots[2], slots[7], slots[5], v, slots[4], n, decimals);
    } else {
      OpenPrepares(env, l, slots[0], slots[1], slots[2], slots[7], slots[5], slots[6], v, slots[4], n, decimals);
    }
  }

  /** A deposit followed by a withdrawal of the same amount to the source puts both balances back. */
  lemma DepositThenWithdraw(env: Env, ctx: Ctx, l: Ledger, slots: seq<Address>, data: seq<byte>)
    requires Inv(env, l) && Signers(env, ctx) && DepositUserVault(env, ctx, l, slots, data).Ok?
    ensures |slots| == 9
    ensures var l1 := DepositUserVault(env, ctx, l, slots, data).value;
            && WithdrawUserVault(env, ctx, l1, BackSlots(slots), data).Ok?
            && var l2 := WithdrawUserVault(env, ctx, l1, BackSlots(slots), data).value;
               && Amount(l2, slots[2]) == Amount(l, slots[2])
               && Amount(l2, slots[4]) == Amount(l, slots[4])
  {
    hide DepositUserVault;
    hide WithdrawUserVault;
    var l1 := DepositUserVault(env, ctx, l, slots, data).value;
    DepositPrepares(env, ctx, l, slots, data);
    WithdrawSucceeds(env, ctx, l1, BackSlots(slots), data);
    forall t: Address | t == slots[2] || t == slots[4]
      ensures Amount(WithdrawUserVault(env, ctx, l1, BackSlots(slots), data).value, t) == Amount(l, t)
    {
      DepositMoves(env, ctx, l, slots, data, t);
      WithdrawMoves(env, ctx, l1, BackSlots(slots), data, t);
    }
  }
}
