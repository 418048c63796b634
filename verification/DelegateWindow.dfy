/** Who may spend for a vault, and when, over whole runs. The reference is the history of grants: what
    the latest committed Create or Update of that vault said. */
module DelegateWindow {
  import opened Bytes
  import opened Types
  import opened Layout
  import opened Ledger
  import opened VaultProgram
  import opened Runs
  import opened Books
  import opened Invariants

  datatype Grant = Grant(grantor: Address, app: Address, delegate: Address, expires: u32)

  /** The grant a stored record stands for; a zeroed account stands for none. */
  function Stored(l: Ledger, a: Address): Option<Grant> {
    match Get(l, a).body
    case Vault(v) => if v == BLANK then None else Some(Grant(v.owner, v.app, v.delegate, v.delegateExpires))
    case _ => None
  }

  predicate IsGrant(e: Event, a: Address) {
    e.Call? && VaultOf(e) == Some(a) && ((e.ix[0] == 0 && |e.slots| == 6) || (e.ix[0] == 2 && |e.slots| == 4))
    && |e.ix| == 5
  }

  predicate IsDelegated(e: Event, a: Address) { VaultOf(e) == Some(a) && Kind(e) in {5, 6, 7} }

  /** The grant in force at `a` after `e`, told from the event alone. */
  ghost function GrantAfter(env: Env, w: World, e: Event, a: Address, g: Option<Grant>): Option<Grant> {
    if !Commits(env, w, e) then g
    else if IsGrant(e, a) then Some(Grant(e.slots[0], e.slots[2], e.slots[3], U32At(e.ix, 1)))
    else if (VaultOf(e) == Some(a) && Kind(e) == 9) || e == Reap(a) then None
    else g
  }

  ghost function LatestGrant(env: Env, w: World, es: seq<Event>, a: Address, g: Option<Grant>): Option<Grant>
    decreases |es|
  {
    if es == [] then g
    else LatestGrant(env, Next(env, w, es[0]), es[1..], a, GrantAfter(env, w, es[0], a, g))
  }

  // ----- Stored grants change only by grants -----

  lemma TransferStored(l: Ledger, p: Address, src: Address, dst: Address, auth: Address, s: bool, n: u64, a: Address)
    requires Transfer(l, p, src, dst, auth, s, n).Ok?
    ensures Stored(Transfer(l, p, src, dst, auth, s, n).value, a) == Stored(l, a)
  {
  }

  lemma DepositStored(env: Env, ctx: Ctx, l: Ledger, slots: seq<Address>, data: seq<byte>, a: Address)
    requires DepositUserVault(env, ctx, l, slots, data).Ok?
    requires IsVault(l, slots[1]) && Get(l, slots[1]).body.v.discriminator == 1
    ensures Stored(DepositUserVault(env, ctx, l, slots, data).value, a) == Stored(l, a)
  {
    var owner, vault, ata, program := slots[0], slots[1], slots[2], slots[7];
    var mint, system := slots[5], slots[6];
    var l1 := l;
    if !VaultAtaExists(l, ata, program, vault, mint).value {
      l1 := OpenVaultAta(env, l, owner, vault, ata, program, mint, system, Get(l, vault).body.v).value;
      assert Stored(l1, a) == Stored(l, a);
    }
    TransferStored(l1, program, slots[4], ata, owner, true, ParseU64(data).value, a);
  }

  lemma CpiEntryStored(env: Env, ctx: Ctx, l: Ledger, slots: seq<Address>, data: seq<byte>, a: Address)
    requires CpiEntry(env, ctx, l, slots, data).Ok?
    ensures Stored(CpiEntry(env, ctx, l, slots, data).value, a) == Stored(l, a)
  {
    var (native, amount) := ParseTwoU64(data).value;
    var l1 := if native > 0 then TransferLamports(l, slots[2], slots[5], native).value else l;
    if amount > 0 {
      TransferStored(l1, slots[8], slots[3], slots[6], slots[2], true, amount, a);
    }
  }

  lemma CreateStored(env: Env, ctx: Ctx, l: Ledger, slots: seq<Address>, data: seq<byte>, a: Address)
    requires CreateUserVault(env, ctx, l, slots, data).Ok?
    ensures Stored(CreateUserVault(env, ctx, l, slots, data).value, a) ==
            if slots[1] == a then Some(Grant(slots[0], slots[2], slots[3], ParseU32(data).value)) else Stored(l, a)
  {
  }

  lemma UpdateStored(env: Env, ctx: Ctx, l: Ledger, slots: seq<Address>, data: seq<byte>, a: Address)
    requires Fits(env, l) && Signers(env, ctx) && UpdateUserVaultDelegate(ctx, l, slots, data).Ok?
    ensures Stored(UpdateUserVaultDelegate(ctx, l, slots, data).value, a) ==
            if slots[1] == a then Some(Grant(slots[0], slots[2], slots[3], ParseU32(data).value)) else Stored(l, a)
  {
    FitVault(env, l, slots[1], ctx.signers);
  }

  lemma CloseVaultAtaStored(env: Env, ctx: Ctx, l: Ledger, slots: seq<Address>, a: Address)
    requires Fits(env, l) && Signers(env, ctx) && CloseVaultAta(env, ctx, l, slots).Ok?
    ensures Stored(CloseVaultAta(env, ctx, l, slots).value, a) == Stored(l, a)
  {
    FitVault(env, l, slots[1], ctx.signers);
  }

  lemma NativeStored(l: Ledger, src: Address, dst: Address, n: u64, a: Address)
    requires TransferLamports(l, src, dst, n).Ok?
    ensures Stored(TransferLamports(l, src, dst, n).value, a) == Stored(l, a)
  {
  }

  lemma CloseUserVaultStored(env: Env, ctx: Ctx, l: Ledger, slots: seq<Address>, a: Address)
    requires Fits(env, l) && Signers(env, ctx) && CloseUserVault(ctx, l, slots).Ok?
    ensures Stored(CloseUserVault(ctx, l, slots).value, a) == if slots[1] == a then None else Stored(l, a)
  {
  }

  lemma DepositKeepsStored(env: Env, ctx: Ctx, l: Ledger, slots: seq<Address>, data: seq<byte>, a: Address)
    requires Fits(env, l) && Signers(env, ctx) && DepositUserVault(env, ctx, l, slots, data).Ok?
    ensures Stored(DepositUserVault(env, ctx, l, slots, data).value, a) == Stored(l, a)
  {
    FitVault(env, l, slots[1], ctx.signers);
    DepositStored(env, ctx, l, slots, data, a);
  }

  lemma WithdrawStored(env: Env, ctx: Ctx, l: Ledger, slots: seq<Address>, data: seq<byte>, a: Address)
    requires WithdrawUserVault(env, ctx, l, slots, data).Ok?
    ensures Stored(WithdrawUserVault(env, ctx, l, slots, data).value, a) == Stored(l, a)
  {
    TransferStored(l, slots[6], slots[2], slots[4], slots[1], true, ParseU64(data).value, a);
  }

  lemma WithdrawNativeStored(ctx: Ctx, l: Ledger, slots: seq<Address>, data: seq<byte>, a: Address)
    requires WithdrawUserVaultNative(ctx, l, slots, data).Ok?
    ensures Stored(WithdrawUserVaultNative(ctx, l, slots, data).value, a) == Stored(l, a)
  {
    NativeStored(l, slots[1], slots[0], ParseU64(data).value, a);
  }

  lemma CpiEntryNativeStored(ctx: Ctx, l: Ledger, slots: seq<Address>, data: seq<byte>, a: Address)
    requires CpiEntryNative(ctx, l, slots, data).Ok?
    ensures Stored(CpiEntryNative(ctx, l, slots, data).value, a) == Stored(l, a)
  {
    NativeStored(l, slots[2], slots[4], ParseU64(data).value, a);
  }

  lemma ProcessStored(env: Env, ctx: Ctx, l: Ledger, slots: seq<Address>, ix: seq<byte>, a: Address)
    requires Fits(env, l) && Signers(env, ctx) && Process(env, ctx, l, slots, ix).Ok?
    requires VaultSlot(ix[0]) < |slots| && (ix[0] in {0, 2} ==> |slots| >= 4 && |ix| == 5)
    ensures Stored(Process(env, ctx, l, slots, ix).value, a) ==
              if slots[VaultSlot(ix[0])] == a && ix[0] in {0, 2} then
                Some(Grant(slots[0], slots[2], slots[3], ParseU32(ix[1..]).value))
              else if slots[VaultSlot(ix[0])] == a && ix[0] == 9 then None
              else Stored(l, a)
  {
    hide CreateUserVault;
    hide DepositUserVault;
    hide UpdateUserVaultDelegate;
    hide WithdrawUserVault;
    hide WithdrawUserVaultNative;
    hide CpiEntry;
    hide CpiEntryNative;
    hide CloseVaultAta;
    hide CloseUserVault;
    var data := ix[1..];
    match ix[0]
    case 0 => CreateStored(env, ctx, l, slots, data, a);
    case 1 => DepositKeepsStored(env, ctx, l, slots, data, a);
    case 2 => UpdateStored(env, ctx, l, slots, data, a);
    case 3 => WithdrawStored(env, ctx, l, slots, data, a);
    case 4 => WithdrawNativeStored(ctx, l, slots, data, a);
    case 6 => CpiEntryStored(env, ctx, l, slots, data, a);
    case 7 => CpiEntryNativeStored(ctx, l, slots, data, a);
    case 8 => CloseVaultAtaStored(env, ctx, l, slots, a);
    case 9 => CloseUserVaultStored(env, ctx, l, slots, a);
    case _ =>
  }

  lemma ApplyStored(env: Env, vault: Option<Address>, l: Ledger, op: Op, a: Address)
    requires Apply(env, vault, l, op).Ok?
    ensures Stored(Apply(env, vault, l, op).value, a) == Stored(l, a)
  {
  }

  lemma {:induction false} ApplyAllStored(env: Env, vault: Option<Address>, l: Ledger, ops: seq<Op>, a: Address)
    requires ApplyAll(env, vault, l, ops).Ok?
    ensures Stored(ApplyAll(env, vault, l, ops).value, a) == Stored(l, a)
    decreases |ops|
  {
    if ops != [] {
      ApplyStored(env, vault, l, ops[0], a);
      ApplyAllStored(env, vault, Apply(env, vault, l, ops[0]).value, ops[1..], a);
    }
  }

  /** What an instruction's data says of the grant at its vault. */
  function GrantBy(slots: seq<Address>, ix: seq<byte>, a: Address, g: Option<Grant>): Option<Grant> {
    if ix == [] || VaultSlot(ix[0]) >= |slots| || slots[VaultSlot(ix[0])] != a then g
    else if ix[0] in {0, 2} && |slots| >= 4 && |ix| == 5 then Some(Grant(slots[0], slots[2], slots[3], U32At(ix, 1)))
    else if ix[0] == 9 then None
    else g
  }

  lemma ProcessGrants(env: Env, ctx: Ctx, l: Ledger, slots: seq<Address>, ix: seq<byte>, a: Address)
    requires Fits(env, l) && Signers(env, ctx) && Process(env, ctx, l, slots, ix).Ok?
    ensures Stored(Process(env, ctx, l, slots, ix).value, a) == GrantBy(slots, ix, a, Stored(l, a))
  {
    hide Process;
    SlotsSuffice(env, ctx, l, slots, ix);
    ProcessStored(env, ctx, l, slots, ix, a);
    if ix[0] in {0, 2} {
      assert ix[1..][0..4] == ix[1..5];
    }
  }

  lemma CallStored(env: Env, w: World, e: Event, a: Address)
    requires Fits(env, w.l) && e.Call? && Exec(env, w, e).Ok?
    ensures e.ix != [] && VaultSlot(e.ix[0]) < |e.slots|
    ensures e.ix[0] == 0 ==> |e.slots| == 6 && |e.ix| == 5
    ensures e.ix[0] == 2 ==> |e.slots| == 4 && |e.ix| == 5
    ensures Stored(Exec(env, w, e).value.l, a) == GrantBy(e.slots, e.ix, a, Stored(w.l, a))
  {
    hide Process;
    SlotsSuffice(env, CtxOf(w, e), w.l, e.slots, e.ix);
    var l1 := Process(env, CtxOf(w, e), w.l, e.slots, e.ix).value;
    ProcessGrants(env, CtxOf(w, e), w.l, e.slots, e.ix, a);
    if IsAppIx(e.ix) {
      ApplyAllStored(env, Some(e.slots[2]), l1, e.ops, a);
    }
  }

  lemma OtherStored(env: Env, w: World, e: Event, a: Address)
    requires !e.Call? && Exec(env, w, e).Ok?
    ensures Stored(Exec(env, w, e).value.l, a) == if e == Reap(a) then None else Stored(w.l, a)
  {
    if e.Outside? {
      ApplyStored(env, None, w.l, e.op, a);
    }
  }

  lemma NextStored(env: Env, w: World, e: Event, a: Address)
    requires Fits(env, w.l)
    ensures Stored(Next(env, w, e).l, a) == GrantAfter(env, w, e, a, Stored(w.l, a))
  {
    hide Process;
    hide Apply;
    if Exec(env, w, e).Ok? {
      if e.Call? {
        CallStored(env, w, e, a);
      } else {
        OtherStored(env, w, e, a);
      }
    }
  }

  /** The stored grant is the latest granted one. */
  lemma {:induction false} StoredIsLatest(env: Env, w: World, es: seq<Event>, a: Address)
    requires Inv(env, w.l)
    ensures Stored(Run(env, w, es).l, a) == LatestGrant(env, w, es, a, Stored(w.l, a))
    decreases |es|
  {
    if es != [] {
      NextStored(env, w, es[0], a);
      assert Run(env, w, es[..1]) == Next(env, w, es[0]);
      RunInvariant(env, w, es[..1]);
      StoredIsLatest(env, Next(env, w, es[0]), es[1..], a);
    }
  }

  lemma GenesisLatest(env: Env, w: World, es: seq<Event>, a: Address)
    requires Genesis(w.l)
    ensures Fits(env, Run(env, w, es).l) && Stored(Run(env, w, es).l, a) == LatestGrant(env, w, es, a, None)
  {
    assert !IsVault(w.l, a);
    RunInvariant(env, w, es);
    StoredIsLatest(env, w, es, a);
  }

  /** What each delegated handler demands of the record at its vault slot. */
  ghost predicate Passed(ctx: Ctx, l: Ledger, slots: seq<Address>, app: Address) {
    && |slots| >= 5 && IsVault(l, slots[2])
    && var v := Get(l, slots[2]).body.v;
       && slots[0] == v.delegate && slots[0] in ctx.signers && slots[1] == v.owner && app == v.app
       && 1 <= ctx.now <= v.delegateExpires
  }

  /** Exactly when AppIx's checks pass. */
  lemma AppIxPasses(ctx: Ctx, l: Ledger, slots: seq<Address>)
    ensures AppIx(ctx, l, slots).Ok? <==>
              5 <= |slots| <= 5 + MAX_STATIC_CPI_ACCOUNTS && Passed(ctx, l, slots, slots[3]) && slots[4] == CLOCK_ID
  {
  }

  /** The two transfers a CpiEntry asks for, lamports first. */
  function Spend(env: Env, ctx: Ctx, l: Ledger, slots: seq<Address>, native: u64, amount: u64): Result<Ledger>
    requires |slots| == 11 && IsVault(l, slots[2])
  {
    var l1 :- if native > 0 then TransferLamports(l, slots[2], slots[5], native) else Ok(l);
    if amount == 0 then Ok(l1)
    else
      var signs := SeedsSign(env, ctx.signers, slots[1], slots[4], Get(l, slots[2]).body.v.bump, slots[2]);
      var decimals :- ReadMintDecimals(l1, slots[7]);
      TransferChecked(l1, slots[8], slots[7], slots[3], slots[6], slots[2], signs, amount, decimals)
  }

  /** Exactly when a CpiEntry passes, and what it then leaves. */
  lemma CpiEntryPasses(env: Env, ctx: Ctx, l: Ledger, slots: seq<Address>, data: seq<byte>)
    ensures CpiEntry(env, ctx, l, slots, data).Ok? <==>
              && ParseTwoU64(data).Ok? && (ParseTwoU64(data).value.0 > 0 || ParseTwoU64(data).value.1 > 0)
              && |slots| == 11 && slots[9] == INSTRUCTIONS_ID && slots[10] == CLOCK_ID && slots[4] == ctx.top
              && Passed(ctx, l, slots, ctx.top)
              && Spend(env, ctx, l, slots, ParseTwoU64(data).value.0, ParseTwoU64(data).value.1).Ok?
    ensures CpiEntry(env, ctx, l, slots, data).Ok? ==>
              CpiEntry(env, ctx, l, slots, data)
              == Spend(env, ctx, l, slots, ParseTwoU64(data).value.0, ParseTwoU64(data).value.1)
  {
    hide TransferLamports;
    hide TransferChecked;
    hide ReadMintDecimals;
    hide SeedsSign;
  }

  /** Exactly when a native spend passes. */
  lemma CpiEntryNativePasses(ctx: Ctx, l: Ledger, slots: seq<Address>, data: seq<byte>)
    ensures CpiEntryNative(ctx, l, slots, data).Ok? <==>
              && ParseU64(data).Ok? && ParseU64(data).value > 0 && |slots| == 7
              && slots[5] == INSTRUCTIONS_ID && slots[6] == CLOCK_ID && slots[3] == ctx.top
              && Passed(ctx, l, slots, ctx.top) && TransferLamports(l, slots[2], slots[4], ParseU64(data).value).Ok?
  {
    hide TransferLamports;
  }

  lemma DelegatedProcess(env: Env, ctx: Ctx, l: Ledger, slots: seq<Address>, ix: seq<byte>)
    requires Process(env, ctx, l, slots, ix).Ok? && ix[0] in {5, 6, 7}
    ensures |slots| >= 5 && Passed(ctx, l, slots, if ix[0] == 5 then slots[3] else ctx.top)
  {
    hide AppIx;
    hide CpiEntry;
    hide CpiEntryNative;
    match ix[0]
    case 5 => AppIxPasses(ctx, l, slots);
    case 6 => CpiEntryPasses(env, ctx, l, slots, ix[1..]);
    case 7 => CpiEntryNativePasses(ctx, l, slots, ix[1..]);
  }

  /** What a committed delegated spend passed. */
  lemma DelegatedPasses(env: Env, w: World, e: Event, a: Address)
    requires Fits(env, w.l) && IsDelegated(e, a) && Commits(env, w, e)
    ensures Stored(w.l, a).Some? && |e.slots| >= 5
    ensures var g := Stored(w.l, a).value;
            && e.slots[0] == g.delegate && g.delegate in e.signers && e.slots[1] == g.grantor
            && 1 <= w.now <= g.expires
            && (if Kind(e) == 5 then e.slots[3] else e.top) == g.app
  {
    hide Process;
    DelegatedProcess(env, CtxOf(w, e), w.l, e.slots, e.ix);
    FitVault(env, w.l, a, e.signers);
  }

  /** After any run from genesis, a delegated instruction commits only if it is signed by the delegate that
      the vault's latest committed Create or Update named, no later than the expiry it set (so at a time that
      fits u32), for that owner, and on behalf of the granted app: AppIx calls it, the two CPI entries run
      under its top-level call. */
  lemma DelegateWindow(env: Env, w: World, es: seq<Event>, e: Event, a: Address)
    requires Genesis(w.l) && IsDelegated(e, a) && Commits(env, Run(env, w, es), e)
    ensures |e.slots| >= 5
    ensures var g := LatestGrant(env, w, es, a, None);
            && g.Some? && e.slots[0] == g.value.delegate && g.value.delegate in e.signers
            && e.slots[1] == g.value.grantor
            && 1 <= Run(env, w, es).now <= g.value.expires <= U32_MAX
            && (if Kind(e) == 5 then e.slots[3] else e.top) == g.value.app
  {
    hide Exec;
    GenesisLatest(env, w, es, a);
    DelegatedPasses(env, Run(env, w, es), e, a);
  }

  /** A grant is always the owner's: the vault it concerns derives from a key that signed. */
  lemma GrantsAreTheOwners(env: Env, w: World, e: Event, a: Address)
    requires Fits(env, w.l) && IsGrant(e, a) && Commits(env, w, e)
    ensures e.slots[0] in e.signers
    ensures FindPda(env, e.slots[0], e.slots[2]).Ok? && FindPda(env, e.slots[0], e.slots[2]).value.0 == a
  {
    if e.ix[0] == 2 {
      FitVault(env, w.l, a, e.signers);
    }
  }

  /** `k` cannot spend from the vault at `a`: it is not the delegate, or its time is over. */
  ghost predicate Spent(w: World, a: Address, k: Address) {
    var g := Stored(w.l, a);
    g.Some? && g.value.delegate == k ==> w.now > g.value.expires
  }

  /** No committed Create or Update of the run names `k` at `a`; rejected ones may. */
  ghost predicate NeverNamed(env: Env, w: World, es: seq<Event>, a: Address, k: Address)
    decreases |es|
  {
    es == [] || (!(Commits(env, w, es[0]) && IsGrant(es[0], a) && es[0].slots[3] == k)
                 && NeverNamed(env, Next(env, w, es[0]), es[1..], a, k))
  }

  /** A key that was rotated out or has expired never commits a delegated instruction on that vault again, in
      any run, whatever it or others submit, until a Create or Update of the owner commits that names it. */
  lemma {:induction false} SpentKeysStaySpent(env: Env, w: World, es: seq<Event>, e: Event, a: Address, k: Address)
    requires Inv(env, w.l) && Spent(w, a, k)
    requires NeverNamed(env, w, es, a, k)
    requires IsDelegated(e, a) && e.slots[0] == k
    ensures Spent(Run(env, w, es), a, k) && !Commits(env, Run(env, w, es), e)
    decreases |es|
  {
    if es == [] {
      if Commits(env, w, e) {
        DelegatedPasses(env, w, e, a);
      }
    } else {
      NextStored(env, w, es[0], a);
      assert Run(env, w, es[..1]) == Next(env, w, es[0]);
      RunInvariant(env, w, es[..1]);
      SpentKeysStaySpent(env, Next(env, w, es[0]), es[1..], e, a, k);
    }
  }
}
