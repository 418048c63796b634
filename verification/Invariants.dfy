/** The reachable-state invariant is kept by every event, so it holds after every run. */
module Invariants {
  import opened Bytes
  import opened Types
  import opened Layout
  import opened Ledger
  import opened VaultProgram
  import opened Runs
  import opened Books

  ghost predicate Shape(env: Env, l: Ledger) { Fits(env, l) && MintsStand(l) }

  // ----- Shape, primitive by primitive -----

  /** What may replace the account at `a`: a record that fits, a token account of a standing mint, or
      anything that is neither; and never something else in place of a mint. */
  ghost predicate MayHold(env: Env, l: Ledger, a: Address, x: Account) {
    && (x.body.Vault? ==> RecordFits(env, a, x.body.v))
    && (x.body.Token? ==> IsMint(l, x.body.t.program, x.body.t.mint))
    && (IsMint(l, ProgramOf(Get(l, a).body), a) ==> x.body == Get(l, a).body)
  }

  lemma PutShape(env: Env, l: Ledger, a: Address, x: Account)
    requires Shape(env, l) && MayHold(env, l, a, x)
    ensures Shape(env, l[a := x])
  {
    var l' := l[a := x];
    forall b | IsVault(l', b) ensures RecordFits(env, b, Get(l', b).body.v) {
      assert b != a ==> IsVault(l, b);
    }
    forall b | IsToken(l', b) ensures IsMint(l', Get(l', b).body.t.program, Get(l', b).body.t.mint) {
      assert b != a ==> IsToken(l, b);
      assert IsMint(l, Get(l', b).body.t.program, Get(l', b).body.t.mint);
    }
  }

  /** Lamports do not matter to the shape, and may be moved first. */
  lemma PutShape2(env: Env, l: Ledger, a: Address, n: u64, b: Address, y: Account)
    requires Shape(env, l) && MayHold(env, l, b, y)
    ensures Shape(env, l[a := Get(l, a).(lamports := n)][b := y])
  {
    var x := Get(l, a).(lamports := n);
    if IsVault(l, a) {}
    if IsToken(l, a) {}
    PutShape(env, l, a, x);
    PutShape(env, l[a := x], b, y);
  }

  lemma TransferShape(env: Env, l: Ledger, p: Address, src: Address, dst: Address, auth: Address, s: bool, n: u64)
    requires Shape(env, l) && Transfer(l, p, src, dst, auth, s, n).Ok?
    ensures Shape(env, Transfer(l, p, src, dst, auth, s, n).value)
  {
    if src != dst {
      var x, y := Get(l, src), Get(l, dst);
      var x' := x.(body := Token(x.body.t.(amount := x.body.t.amount - n)));
      PutShape(env, l, src, x');
      PutShape(env, l[src := x'], dst, y.(body := Token(y.body.t.(amount := y.body.t.amount + n))));
    }
  }

  lemma TransferLamportsShape(env: Env, l: Ledger, src: Address, dst: Address, n: u64)
    requires Shape(env, l) && TransferLamports(l, src, dst, n).Ok?
    ensures Shape(env, TransferLamports(l, src, dst, n).value)
  {
    var x := Get(l, src).(lamports := Get(l, src).lamports - n);
    if IsVault(l, src) || IsToken(l, src) {}
    if IsVault(l, dst) || IsToken(l, dst) {}
    PutShape2(env, l, src, x.lamports, dst,
              Get(l[src := x], dst).(lamports := Get(l, dst).lamports + n));
  }

  lemma CloseTokenShape(env: Env, l: Ledger, p: Address, a: Address, dst: Address, auth: Address, s: bool)
    requires Shape(env, l) && CloseToken(l, p, a, dst, auth, s).Ok?
    ensures Shape(env, CloseToken(l, p, a, dst, auth, s).value)
  {
    PutShape2(env, l, dst, Get(l, dst).lamports + Get(l, a).lamports, a, EMPTY);
  }

  lemma CreateAtaShape(env: Env, l: Ledger, from: Address, s: bool, ata: Address, wallet: Address,
                       program: Address, mint: Address, system: Address)
    requires Shape(env, l) && CreateAta(env, l, from, s, ata, wallet, program, mint, system).Ok?
    ensures Shape(env, CreateAta(env, l, from, s, ata, wallet, program, mint, system).value)
  {
    var l' := CreateAta(env, l, from, s, ata, wallet, program, mint, system).value;
    PutShape2(env, l, from, Get(l', from).lamports, ata, Get(l', ata));
  }

  lemma SetRecordShape(env: Env, l: Ledger, a: Address, v: VaultRecord)
    requires Shape(env, l) && IsVault(l, a) && RecordFits(env, a, v)
    ensures Shape(env, SetRecord(l, a, v))
  {
    PutShape(env, l, a, Get(l, a).(body := Vault(v)));
  }

  lemma CreateShape(env: Env, ctx: Ctx, l: Ledger, slots: seq<Address>, data: seq<byte>)
    requires Shape(env, l) && CreateUserVault(env, ctx, l, slots, data).Ok?
    ensures Shape(env, CreateUserVault(env, ctx, l, slots, data).value)
  {
    var l' := CreateUserVault(env, ctx, l, slots, data).value;
    PutShape2(env, l, slots[0], Get(l', slots[0]).lamports, slots[1], Get(l', slots[1]));
  }

  lemma CloseUserVaultShape(env: Env, ctx: Ctx, l: Ledger, slots: seq<Address>)
    requires Shape(env, l) && CloseUserVault(ctx, l, slots).Ok?
    ensures Shape(env, CloseUserVault(ctx, l, slots).value)
  {
    PutShape2(env, l, slots[0], Get(l, slots[0]).lamports + Get(l, slots[1]).lamports, slots[1], EMPTY);
  }

  lemma DepositShape(env: Env, ctx: Ctx, l: Ledger, slots: seq<Address>, data: seq<byte>)
    requires Shape(env, l) && Signers(env, ctx) && DepositUserVault(env, ctx, l, slots, data).Ok?
    ensures Shape(env, DepositUserVault(env, ctx, l, slots, data).value)
  {
    var owner, vault, ata, program := slots[0], slots[1], slots[2], slots[7];
    var mint, system := slots[5], slots[6];
    var n := ParseU64(data).value;
    if VaultAtaExists(l, ata, program, vault, mint).value {
      TransferShape(env, l, program, slots[4], ata, owner, true, n);
    } else {
      FitVault(env, l, vault, ctx.signers);
      var v := Get(l, vault).body.v;
      var l1 := CreateAta(env, l, owner, true, ata, vault, program, mint, system).value;
      CreateAtaShape(env, l, owner, true, ata, vault, program, mint, system);
      SetRecordShape(env, l1, vault, v.(ataCount := v.ataCount + 1));
      TransferShape(env, SetRecord(l1, vault, v.(ataCount := v.ataCount + 1)), program, slots[4], ata, owner, true, n);
    }
  }

  lemma CpiEntryShape(env: Env, ctx: Ctx, l: Ledger, slots: seq<Address>, data: seq<byte>)
    requires Shape(env, l) && CpiEntry(env, ctx, l, slots, data).Ok?
    ensures Shape(env, CpiEntry(env, ctx, l, slots, data).value)
  {
    var (native, amount) := ParseTwoU64(data).value;
    var l1 := if native > 0 then TransferLamports(l, slots[2], slots[5], native).value else l;
    if native > 0 {
      TransferLamportsShape(env, l, slots[2], slots[5], native);
    }
    if amount > 0 {
      TransferShape(env, l1, slots[8], slots[3], slots[6], slots[2], true, amount);
    }
  }

  lemma CloseVaultAtaShape(env: Env, ctx: Ctx, l: Ledger, slots: seq<Address>)
    requires Shape(env, l) && Signers(env, ctx) && CloseVaultAta(env, ctx, l, slots).Ok?
    ensures Shape(env, CloseVaultAta(env, ctx, l, slots).value)
  {
    FitVault(env, l, slots[1], ctx.signers);
    var v := Get(l, slots[1]).body.v;
    var l1 := CloseToken(l, slots[6], slots[3], slots[4], slots[1], true).value;
    CloseTokenShape(env, l, slots[6], slots[3], slots[4], slots[1], true);
    SetRecordShape(env, l1, slots[1], v.(ataCount := v.ataCount - 1));
  }

  lemma UpdateShape(env: Env, ctx: Ctx, l: Ledger, slots: seq<Address>, data: seq<byte>)
    requires Shape(env, l) && Signers(env, ctx) && UpdateUserVaultDelegate(ctx, l, slots, data).Ok?
    ensures Shape(env, UpdateUserVaultDelegate(ctx, l, slots, data).value)
  {
    FitVault(env, l, slots[1], ctx.signers);
    SetRecordShape(env, l, slots[1],
                   Get(l, slots[1]).body.v.(delegate := slots[3], delegateExpires := ParseU32(data).value));
  }

  lemma WithdrawShape(env: Env, ctx: Ctx, l: Ledger, slots: seq<Address>, data: seq<byte>)
    requires Shape(env, l) && WithdrawUserVault(env, ctx, l, slots, data).Ok?
    ensures Shape(env, WithdrawUserVault(env, ctx, l, slots, data).value)
  {
    hide Shape;
    TransferShape(env, l, slots[6], slots[2], slots[4], slots[1], true, ParseU64(data).value);
  }

  lemma WithdrawNativeShape(env: Env, ctx: Ctx, l: Ledger, slots: seq<Address>, data: seq<byte>)
    requires Shape(env, l) && WithdrawUserVaultNative(ctx, l, slots, data).Ok?
    ensures Shape(env, WithdrawUserVaultNative(ctx, l, slots, data).value)
  {
    hide Shape;
    TransferLamportsShape(env, l, slots[1], slots[0], ParseU64(data).value);
  }

  lemma CpiEntryNativeShape(env: Env, ctx: Ctx, l: Ledger, slots: seq<Address>, data: seq<byte>)
    requires Shape(env, l) && CpiEntryNative(ctx, l, slots, data).Ok?
    ensures Shape(env, CpiEntryNative(ctx, l, slots, data).value)
  {
    hide Shape;
    TransferLamportsShape(env, l, slots[2], slots[4], ParseU64(data).value);
  }

  lemma ProcessShape(env: Env, ctx: Ctx, l: Ledger, slots: seq<Address>, ix: seq<byte>)
    requires Shape(env, l) && Signers(env, ctx) && Process(env, ctx, l, slots, ix).Ok?
    ensures Shape(env, Process(env, ctx, l, slots, ix).value)
  {
    hide Shape;
    hide Signers;
    hide CreateUserVault;
    hide DepositUserVault;
    hide UpdateUserVaultDelegate;
    hide WithdrawUserVault;
    hide WithdrawUserVaultNative;
    hide CpiEntry;
    hide CpiEntryNative;
    hide CloseVaultAta;
    hide CloseUserVault;
    var data := ix[1..];
    match ix[0]
    case 0 => CreateShape(env, ctx, l, slots, data);
    case 1 => DepositShape(env, ctx, l, slots, data);
    case 2 => UpdateShape(env, ctx, l, slots, data);
    case 3 => WithdrawShape(env, ctx, l, slots, data);
    case 4 => WithdrawNativeShape(env, ctx, l, slots, data);
    case 6 => CpiEntryShape(env, ctx, l, slots, data);
    case 7 => CpiEntryNativeShape(env, ctx, l, slots, data);
    case 8 => CloseVaultAtaShape(env, ctx, l, slots);
    case 9 => CloseUserVaultShape(env, ctx, l, slots);
    case _ =>
  }

  // ----- Acts of other programs -----

  /** Token accounts an act puts under `x`, and takes from it. */
  function Entered(op: Op, x: Address): nat {
    match op
    case Open(_, _, _, authority) => if authority == x then 1 else 0
    case Reassign(_, _, _, successor) => if successor == x then 1 else 0
    case _ => 0
  }

  function Left(op: Op, x: Address): nat {
    match op
    case Shut(_, _, _, authority) => if authority == x then 1 else 0
    case Reassign(_, _, authority, _) => if authority == x then 1 else 0
    case _ => 0
  }

  lemma ApplyShape(env: Env, vault: Option<Address>, l: Ledger, op: Op)
    requires Shape(env, l) && Apply(env, vault, l, op).Ok?
    ensures Shape(env, Apply(env, vault, l, op).value)
  {
    match op
    case Send(p, src, dst, auth, n) => TransferShape(env, l, p, src, dst, auth, true, n);
    case Shut(p, a, dst, auth) => CloseTokenShape(env, l, p, a, dst, auth, true);
    case Pay(from, to, n) => TransferLamportsShape(env, l, from, to, n);
    case Reassign(_, a, _, _) =>
      assert IsToken(l, a);
      PutShape(env, l, a, Get(Apply(env, vault, l, op).value, a));
    case _ =>
      PutShape(env, l, Consenting(op), Get(Apply(env, vault, l, op).value, Consenting(op)));
  }

  /** An act that rewrites one account of equal lamports. */
  lemma RewriteBooks(l: Ledger, a: Address, body: Body, w: Weight, x: Address)
    requires !IsVault(l, a) && !body.Vault?
    ensures var l' := l[a := Get(l, a).(body := body)];
            && Total(l', w) == Total(l, w) - W(w, Get(l, a)) + W(w, Get(l, a).(body := body))
            && Uncounted(l', x)
               == Uncounted(l, x) - W(OpenUnder(x), Get(l, a)) + W(OpenUnder(x), Get(l, a).(body := body))
  {
    TotalPut(l, a, Get(l, a).(body := body), w);
    TotalPut(l, a, Get(l, a).(body := body), OpenUnder(x));
  }

  lemma AllocateBooks(env: Env, vault: Option<Address>, l: Ledger, op: Op, w: Weight, x: Address)
    requires op.Allocate? && Apply(env, vault, l, op).Ok?
    ensures var l' := Apply(env, vault, l, op).value;
            (Conserved(w) ==> Total(l', w) == Total(l, w)) && Uncounted(l', x) == Uncounted(l, x)
  {
    var a := op.authority;
    var body := Get(Apply(env, vault, l, op).value, a).body;
    TotalPut(l, a, Get(l, a).(body := body), w);
    TotalPut(l, a, Get(l, a).(body := body), OpenUnder(x));
  }

  lemma ApplyBooks(env: Env, vault: Option<Address>, l: Ledger, op: Op, w: Weight, x: Address)
    requires Apply(env, vault, l, op).Ok?
    ensures var l' := Apply(env, vault, l, op).value;
            && (Conserved(w) ==> Total(l', w) == Total(l, w))
            && Uncounted(l', x) == Uncounted(l, x) + Entered(op, x) - Left(op, x)
  {
    hide Transfer;
    hide TransferLamports;
    hide MaySign;
    match op
    case Send(p, src, dst, auth, n) => TransferBooks(l, p, src, dst, auth, true, n, w, x);
    case Open(a, p, m, auth) => RewriteBooks(l, a, Token(TokenRecord(p, m, auth, 0)), w, x);
    case Shut(p, a, dst, auth) =>
      CloseTokenTotal(l, p, a, dst, auth, true, w);
      CloseTokenTotal(l, p, a, dst, auth, true, OpenUnder(x));
    case Reassign(p, a, auth, to) => RewriteBooks(l, a, Token(Get(l, a).body.t.(authority := to)), w, x);
    case Pay(from, to, n) => NativeBooks(l, from, to, n, w, x);
    case Allocate(a, p, len, raw) => AllocateBooks(env, vault, l, op, w, x);
  }

  function EnteredAll(ops: seq<Op>, x: Address): nat
    decreases |ops|
  {
    if ops == [] then 0 else Entered(ops[0], x) + EnteredAll(ops[1..], x)
  }

  function LeftAll(ops: seq<Op>, x: Address): nat
    decreases |ops|
  {
    if ops == [] then 0 else Left(ops[0], x) + LeftAll(ops[1..], x)
  }

  lemma {:induction false} ApplyAllKeeps(env: Env, vault: Option<Address>, l: Ledger, ops: seq<Op>, w: Weight,
                                         x: Address)
    requires Shape(env, l) && ApplyAll(env, vault, l, ops).Ok?
    ensures var l' := ApplyAll(env, vault, l, ops).value;
            && Shape(env, l')
            && (Conserved(w) ==> Total(l', w) == Total(l, w))
            && Uncounted(l', x) == Uncounted(l, x) + EnteredAll(ops, x) - LeftAll(ops, x)
    decreases |ops|
  {
    if ops != [] {
      ApplyShape(env, vault, l, ops[0]);
      ApplyBooks(env, vault, l, ops[0], w, x);
      ApplyAllKeeps(env, vault, Apply(env, vault, l, ops[0]).value, ops[1..], w, x);
    }
  }

  // ----- Events and runs -----

  /** Token accounts put under `x` other than by a vault instruction. */
  function Opened(e: Event, x: Address): nat {
    match e
    case Call(_, _, _, _, ops) => EnteredAll(ops, x)
    case Outside(op) => Entered(op, x)
    case _ => 0
  }

  /** Token accounts taken from `x` other than by a vault instruction. */
  function Taken(e: Event, x: Address): nat {
    match e
    case Call(_, _, _, _, ops) => LeftAll(ops, x)
    case Outside(op) => Left(op, x)
    case _ => 0
  }

  /** The count that disappears when the runtime removes the vault at `x`. */
  function Forgotten(w: World, e: Event, x: Address): nat {
    if e == Reap(x) then Count(w.l, x) else 0
  }

  /** One event: the invariant is kept, lamports and each mint's tokens are conserved, and the open
      accounts a vault does not count change only by what others open, take or make it forget. */
  lemma NextKeeps(env: Env, w: World, e: Event, k: Weight, x: Address)
    requires Fits(env, w.l) && MintsStand(w.l)
    ensures var w' := Next(env, w, e);
            && Shape(env, w'.l)
            && (Conserved(k) ==> Total(w'.l, k) == Total(w.l, k))
            && Uncounted(w'.l, x) == Uncounted(w.l, x) +
               if Commits(env, w, e) then Opened(e, x) - Taken(e, x) + Forgotten(w, e, x) else 0
  {
    if Commits(env, w, e) {
      match e
      case Call(signers, top, slots, ix, ops) =>
        var ctx := CtxOf(w, e);
        ProcessShape(env, ctx, w.l, slots, ix);
        ProcessBooks(env, ctx, w.l, slots, ix, k, x);
        var l1 := Process(env, ctx, w.l, slots, ix).value;
        if IsAppIx(ix) {
          ApplyAllKeeps(env, Some(slots[2]), l1, ops, k, x);
        }
      case Outside(op) =>
        ApplyShape(env, None, w.l, op);
        ApplyBooks(env, None, w.l, op, k, x);
      case Tick(_) =>
      case Reap(a) =>
        PutShape(env, w.l, a, EMPTY);
        TotalPut(w.l, a, EMPTY, k);
        TotalPut(w.l, a, EMPTY, OpenUnder(x));
    }
  }

  /** Running sums of the three outside causes. */
  ghost function OpenedIn(env: Env, w: World, es: seq<Event>, x: Address): nat
    decreases |es|
  {
    if es == [] then 0
    else (if Commits(env, w, es[0]) then Opened(es[0], x) else 0) + OpenedIn(env, Next(env, w, es[0]), es[1..], x)
  }

  ghost function TakenIn(env: Env, w: World, es: seq<Event>, x: Address): nat
    decreases |es|
  {
    if es == [] then 0
    else (if Commits(env, w, es[0]) then Taken(es[0], x) else 0) + TakenIn(env, Next(env, w, es[0]), es[1..], x)
  }

  ghost function ForgottenIn(env: Env, w: World, es: seq<Event>, x: Address): nat
    decreases |es|
  {
    if es == [] then 0
    else (if Commits(env, w, es[0]) then Forgotten(w, es[0], x) else 0)
         + ForgottenIn(env, Next(env, w, es[0]), es[1..], x)
  }

  /** Every run keeps the invariant and total lamports and each mint's total. */
  lemma {:induction false} RunInvariant(env: Env, w: World, es: seq<Event>)
    requires Inv(env, w.l)
    ensures Inv(env, Run(env, w, es).l)
    ensures Total(Run(env, w, es).l, Lamports) == Total(w.l, Lamports)
    ensures forall m :: Total(Run(env, w, es).l, TokensOf(m)) == Total(w.l, TokensOf(m))
    decreases |es|
  {
    if es != [] {
      var w' := Next(env, w, es[0]);
      NextKeeps(env, w, es[0], Lamports, 0);
      forall m ensures Total(w'.l, TokensOf(m)) == Total(w.l, TokensOf(m)) {
        NextKeeps(env, w, es[0], TokensOf(m), 0);
      }
      RunInvariant(env, w', es[1..]);
    }
  }

  /** From a genesis ledger, after any run: every program-owned 104-byte account that a signer can use
      has discriminator 1 and sits at the address its stored owner and app derive, with the stored
      bump, and seeds from owner, app and that bump sign for it and for nothing else. */
  lemma StoredSeedsSign(env: Env, w: World, es: seq<Event>, a: Address, signers: set<Address>)
    requires Genesis(w.l) && IsVault(Run(env, w, es).l, a)
    requires forall s :: s in signers ==> MaySign(env, None, s)
    ensures var v := Get(Run(env, w, es).l, a).body.v;
            && (v == BLANK || v.discriminator == 1)
            && (v == BLANK <==> !IsVaultPda(env, a))
            && (v != BLANK ==> FindPda(env, v.owner, v.app) == Ok((a, v.bump)))
            && (v != BLANK ==> forall b :: env.createPda(v.owner, v.app, v.bump) == Some(b) <==> b == a)
            && (v.owner in signers || v.delegate in signers ==> v != BLANK && a !in signers)
  {
    RunInvariant(env, w, es);
  }

  /** Exact accounting in an open world, for every run from every state that satisfies the invariant. */
  lemma {:induction false} AtaCountAccounting(env: Env, w: World, es: seq<Event>, x: Address)
    requires Inv(env, w.l)
    ensures Uncounted(Run(env, w, es).l, x) + TakenIn(env, w, es, x)
            == Uncounted(w.l, x) + OpenedIn(env, w, es, x) + ForgottenIn(env, w, es, x)
    decreases |es|
  {
    if es != [] {
      NextKeeps(env, w, es[0], Lamports, x);
      RunInvariant(env, w, es[..1]);
      assert Run(env, w, es[..1]) == Next(env, w, es[0]);
      AtaCountAccounting(env, Next(env, w, es[0]), es[1..], x);
    }
  }

  /** From genesis, a vault's count is the number of its open accounts exactly when what others took makes
      up for what they opened and for what the runtime made it forget. */
  lemma CountIsExact(env: Env, w: World, es: seq<Event>, x: Address)
    requires Genesis(w.l) && Total(w.l, OpenUnder(x)) == 0
    ensures var l' := Run(env, w, es).l;
            Total(l', OpenUnder(x)) == Count(l', x)
            <==> TakenIn(env, w, es, x) == OpenedIn(env, w, es, x) + ForgottenIn(env, w, es, x)
  {
    AtaCountAccounting(env, w, es, x);
  }

  /** In the closed world, where others open and take nothing and no vault is left without lamports,
      closing a vault strands no token account. */
  lemma ClosedWorldClose(env: Env, w: World, es: seq<Event>, e: Event, x: Address)
    requires Genesis(w.l) && Total(w.l, OpenUnder(x)) == 0
    requires OpenedIn(env, w, es, x) == 0 && TakenIn(env, w, es, x) == 0 && ForgottenIn(env, w, es, x) == 0
    requires Commits(env, Run(env, w, es), e) && Kind(e) == 9 && VaultOf(e) == Some(x)
    ensures Total(Run(env, w, es).l, OpenUnder(x)) == 0
    ensures Total(Next(env, Run(env, w, es), e).l, OpenUnder(x)) == 0 && !IsVault(Next(env, Run(env, w, es), e).l, x)
  {
    CountIsExact(env, w, es, x);
    RunInvariant(env, w, es);
    NextKeeps(env, Run(env, w, es), e, Lamports, x);
    CloseNeedsNone(env, Run(env, w, es), e, x);
  }

  lemma CloseNeedsNone(env: Env, w: World, e: Event, x: Address)
    requires Commits(env, w, e) && Kind(e) == 9 && VaultOf(e) == Some(x)
    ensures Count(w.l, x) == 0 && e.ops == []
    ensures !IsVault(Next(env, w, e).l, x)
  {
  }

  /** A successful instruction other than AppIx commits exactly when its native amount does not go to
      the vault it comes from; then total lamports stay, and otherwise they would grow by that amount. */
  lemma CommitsUnlessSelfSpend(env: Env, w: World, e: Event)
    requires Fits(env, w.l) && e.Call? && Authorised(env, e) && !IsAppIx(e.ix)
    requires Process(env, CtxOf(w, e), w.l, e.slots, e.ix).Ok?
    ensures Commits(env, w, e) <==> Minted(e.slots, e.ix) == 0
    ensures Total(Process(env, CtxOf(w, e), w.l, e.slots, e.ix).value, Lamports)
            == Total(w.l, Lamports) + Minted(e.slots, e.ix)
  {
    ProcessBooks(env, CtxOf(w, e), w.l, e.slots, e.ix, Lamports, 0);
  }
}
