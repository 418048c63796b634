/** Flips as events of a run: what holds over every run holds of the flip demo. */
module FlipRuns {
  import opened Bytes
  import opened Types
  import opened Ledger
  import opened VaultProgram
  import opened Runs
  import opened Books
  import opened Codec
  import opened Flip
  import AppIxLoop
  import Plan

  /** The stake as the token program's act, signed by the config's seeds on a win and by the vault on a loss. */
  function StakeOp(t: Table, vaultAta: Address, poolAta: Address, vault: Address, amount: u64, betOdd: bool): Op {
    if Win(t.slot, betOdd) then Send(SPL_TOKEN_ID, poolAta, vaultAta, t.config, amount)
    else Send(SPL_TOKEN_ID, vaultAta, poolAta, vault, amount)
  }

  /** As many accounts as a flip that commits has. */
  predicate Shaped(f: Try) {
    match f case ByAppIx(_, _, v, _, _) => |v| == 11 case ByCpi(_, _, s, _, _) => |s| == 13
  }

  /** The event of a flip: AppIx with the stake as the app's act, a bare transfer on a top-level win, or the
      vault program's CpiEntry in the flip's transaction on a top-level loss. */
  function FlipEvent(f: Try): Event
    requires Shaped(f)
  {
    match f
    case ByAppIx(t, ctx, v, amount, betOdd) =>
      Call(ctx.signers, ctx.top, Flip.Addresses(v), [5] + FlipData(1, amount, betOdd),
           [StakeOp(t, v[5].address, v[6].address, v[8].address, amount, betOdd)])
    case ByCpi(t, ctx, s, amount, betOdd) =>
      if Win(t.slot, betOdd) then Outside(StakeOp(t, s[4], s[7], s[3], amount, betOdd))
      else Call(ctx.signers, ctx.top, s[1..12], Encode(Cpi(0, amount)), [])
  }

  /** The runtime would run the flip: its signers may sign, a view signs only as the transaction does, the
      flip program's config is no vault and not the all-zero key, and neither is the vault passed. */
  ghost predicate Staged(env: Env, f: Try) {
    && (forall s :: s in f.ctx.signers ==> MaySign(env, None, s))
    && f.t.config != SYSTEM_ID && !IsVaultPda(env, f.t.config)
    && (f.ByAppIx? ==>
          && (forall x :: x in f.views && x.isSigner ==> x.address in f.ctx.signers)
          && (Shaped(f) ==> f.views[2].address != SYSTEM_ID))
  }

  lemma StakeApplies(env: Env, vault: Option<Address>, t: Table, l: Ledger, vaultAta: Address, poolAta: Address,
                     v: Address, amount: u64, betOdd: bool)
    requires Stake(t, l, vaultAta, poolAta, v, amount, betOdd).Ok?
    requires MaySign(env, vault, if Win(t.slot, betOdd) then t.config else v)
    ensures Apply(env, vault, l, StakeOp(t, vaultAta, poolAta, v, amount, betOdd))
            == Stake(t, l, vaultAta, poolAta, v, amount, betOdd)
  {
    hide Transfer;
  }

  lemma StakeKeepsLamports(t: Table, l: Ledger, vaultAta: Address, poolAta: Address, v: Address, amount: u64,
                          betOdd: bool)
    requires Stake(t, l, vaultAta, poolAta, v, amount, betOdd).Ok?
    ensures Total(Stake(t, l, vaultAta, poolAta, v, amount, betOdd).value, Lamports) == Total(l, Lamports)
  {
    if Win(t.slot, betOdd) {
      TransferTotal(l, SPL_TOKEN_ID, poolAta, vaultAta, t.config, true, amount, Lamports);
    } else {
      TransferTotal(l, SPL_TOKEN_ID, vaultAta, poolAta, v, true, amount, Lamports);
    }
  }

  /** Whoever signs the inner instruction signed the transaction, or is the vault passed. */
  lemma InnerSigner(env: Env, l: Ledger, f: Try)
    requires f.ByAppIx? && Shaped(f) && Staged(env, f) && Attempt(env, l, f).Done? && !Win(f.t.slot, f.betOdd)
    ensures MaySign(env, Some(f.views[2].address), f.views[8].address)
  {
    hide FlipUnderAppIx;
    var vault := Flip.Addresses(f.views)[2];
    var metas := AppIxLoop.Metas(f.views[5..], vault);
    AppIxLoop.OnlyTheVaultGainsRights(f.views[5..], vault, 3);
    LossIsSigned(f.t, f.ctx, l, f.views, f.amount, f.betOdd);
    var m :| m in metas && m.address == f.views[8].address && m.isSigner;
    var i :| 0 <= i < |metas| && metas[i] == m;
    AppIxLoop.OnlyTheVaultGainsRights(f.views[5..], vault, i);
    assert f.views[5..][i] in f.views;
  }

  /** A lost inner flip that succeeds was signed for the vault. */
  lemma LossIsSigned(t: Table, ctx: Ctx, l: Ledger, views: seq<AppIxLoop.View>, amount: u64, betOdd: bool)
    requires |views| == 11 && FlipUnderAppIx(t, l, ctx, views, FlipData(1, amount, betOdd)).Done?
    requires !Win(t.slot, betOdd)
    ensures Signs(AppIxLoop.Metas(views[5..], Flip.Addresses(views)[2]), views[8].address)
  {
    var metas := AppIxLoop.Metas(views[5..], Flip.Addresses(views)[2]);
    AppIxLoop.OnlyTheVaultGainsRights(views[5..], Flip.Addresses(views)[2], 3);
    UnsignedLossFails(t, l, MetaAddresses(metas), amount, betOdd);
  }

  lemma UnsignedLossFails(t: Table, l: Ledger, slots: seq<Address>, amount: u64, betOdd: bool)
    requires !Win(t.slot, betOdd)
    ensures FlipFromAppIx(t, l, false, slots, FlipData(1, amount, betOdd)[1..]).Failed?
  {
    FlipDataRoundTrip(1, amount, betOdd);
  }

  /** An accepted AppIx and one act of the app that keeps lamports make one event. */
  lemma OneActEvent(env: Env, w: World, e: Event, vault: Address, l1: Ledger)
    requires e.Call? && e.ix != [] && e.ix[0] == 5 && |e.slots| > 2 && e.slots[2] == vault && |e.ops| == 1
    requires forall s :: s in e.signers ==> MaySign(env, None, s)
    requires AppIx(CtxOf(w, e), w.l, e.slots) == Ok(w.l) && Apply(env, Some(vault), w.l, e.ops[0]) == Ok(l1)
    requires Total(l1, Lamports) == Total(w.l, Lamports)
    ensures Exec(env, w, e) == Ok(w.(l := l1))
  {
    hide AppIx;
    hide Apply;
    assert e.ops[1..] == [];
    assert ApplyAll(env, Some(vault), w.l, e.ops) == Ok(l1);
  }

  lemma AppIxFlipIsAnEvent(env: Env, w: World, f: Try)
    requires f.ByAppIx? && Shaped(f) && Staged(env, f) && f.ctx.now == w.now && Attempt(env, w.l, f).Done?
    ensures Exec(env, w, FlipEvent(f)) == Ok(w.(l := Attempt(env, w.l, f).value))
  {
    hide Exec;
    hide Apply;
    hide AppIx;
    hide Stake;
    hide FlipUnderAppIx;
    var v, e := f.views, FlipEvent(f);
    AppIxRoute(f.t, w.l, f.ctx, v, f.amount, f.betOdd);
    if !Win(f.t.slot, f.betOdd) {
      InnerSigner(env, w.l, f);
    }
    StakeApplies(env, Some(v[2].address), f.t, w.l, v[5].address, v[6].address, v[8].address, f.amount, f.betOdd);
    StakeKeepsLamports(f.t, w.l, v[5].address, v[6].address, v[8].address, f.amount, f.betOdd);
    FlipPassesAppIx(f.t, w.l, f.ctx, v, f.amount, f.betOdd);
    assert CtxOf(w, e) == f.ctx;
    OneActEvent(env, w, e, v[2].address, Attempt(env, w.l, f).value);
  }

  lemma FlipPassesAppIx(t: Table, l: Ledger, ctx: Ctx, views: seq<AppIxLoop.View>, amount: u64, betOdd: bool)
    requires FlipUnderAppIx(t, l, ctx, views, FlipData(1, amount, betOdd)).Done?
    ensures AppIx(ctx, l, Flip.Addresses(views)) == Ok(l)
  {
  }

  lemma CpiFlipIsAnEvent(env: Env, w: World, f: Try)
    requires f.ByCpi? && Shaped(f) && Staged(env, f) && f.ctx.now == w.now && Attempt(env, w.l, f).Done?
    ensures Exec(env, w, FlipEvent(f)) == Ok(w.(l := Attempt(env, w.l, f).value))
  {
    hide Process;
    hide FlipViaCpi;
    hide Stake;
    hide Apply;
    var s, e := f.slots, FlipEvent(f);
    CpiRoute(env, f.t, w.l, f.ctx, s, f.amount, f.betOdd);
    StakeKeepsLamports(f.t, w.l, s[4], s[7], s[3], f.amount, f.betOdd);
    if Win(f.t.slot, f.betOdd) {
      StakeApplies(env, None, f.t, w.l, s[4], s[7], s[3], f.amount, f.betOdd);
    } else {
      LossIsCpiEntry(env, f.t, w.l, f.ctx, s, f.amount, f.betOdd);
      assert CtxOf(w, e) == f.ctx;
      assert e.ix[0] == 6;
    }
  }

  lemma LossIsCpiEntry(env: Env, t: Table, l: Ledger, ctx: Ctx, slots: seq<Address>, amount: u64, betOdd: bool)
    requires FlipViaCpi(env, t, l, ctx, slots, FlipData(2, amount, betOdd)[1..]).Done? && !Win(t.slot, betOdd)
    ensures |slots| == 13
    ensures Process(env, ctx, l, slots[1..12], Encode(Cpi(0, amount)))
            == Ok(FlipViaCpi(env, t, l, ctx, slots, FlipData(2, amount, betOdd)[1..]).value)
  {
    hide Process;
    FlipDataRoundTrip(2, amount, betOdd);
  }

  lemma AttemptShape(env: Env, l: Ledger, f: Try)
    requires Attempt(env, l, f).Done?
    ensures Shaped(f)
  {
    match f
    case ByAppIx(t, ctx, views, amount, betOdd) => AppIxRoute(t, l, ctx, views, amount, betOdd);
    case ByCpi(t, ctx, slots, amount, betOdd) => CpiRoute(env, t, l, ctx, slots, amount, betOdd);
  }

  // ----- A session of flips -----

  /** Each flip can be run, no earlier than the one before it. */
  ghost predicate Timed(env: Env, now: int, fs: seq<Try>)
    decreases |fs|
  {
    fs == [] || (now <= fs[0].ctx.now && Staged(env, fs[0]) && Timed(env, fs[0].ctx.now, fs[1..]))
  }

  /** The clock moves to each flip's time, and the flip follows if it succeeds. */
  function TimedEvents(env: Env, l: Ledger, fs: seq<Try>): seq<Event>
    decreases |fs|
  {
    if fs == [] then []
    else
      [Tick(fs[0].ctx.now)] +
      match Attempt(env, l, fs[0])
      case Failed(_) => TimedEvents(env, l, fs[1..])
      case Done(l1) =>
        AttemptShape(env, l, fs[0]);
        [FlipEvent(fs[0])] + TimedEvents(env, l1, fs[1..])
  }

  lemma FlipIsAnEvent(env: Env, w: World, f: Try)
    requires Shaped(f) && Staged(env, f) && f.ctx.now == w.now && Attempt(env, w.l, f).Done?
    ensures Exec(env, w, FlipEvent(f)) == Ok(w.(l := Attempt(env, w.l, f).value))
  {
    hide *;
    match f
    case ByAppIx(_, _, _, _, _) => AppIxFlipIsAnEvent(env, w, f);
    case ByCpi(_, _, _, _, _) => CpiFlipIsAnEvent(env, w, f);
  }

  /** One committed event in front of a run of them. */
  lemma CommitsFirst(env: Env, w: World, e: Event, es: seq<Event>, w1: World)
    requires Exec(env, w, e) == Ok(w1) && Plan.AllCommit(env, w1, es)
    ensures Plan.AllCommit(env, w, [e] + es) && Run(env, w, [e] + es) == Run(env, w1, es)
  {
    hide Exec;
    assert ([e] + es)[1..] == es;
  }

  /** Any session of flips by either route, at times that do not go back, is a run in which every event
      commits: it ends at the last flip's time with the ledger the flips leave. */
  lemma {:induction false} FlipsAreARun(env: Env, w: World, fs: seq<Try>)
    requires Timed(env, w.now, fs)
    ensures var es := TimedEvents(env, w.l, fs);
            && Plan.AllCommit(env, w, es)
            && Run(env, w, es)
               == World(Play(env, w.l, fs), if fs == [] then w.now else fs[|fs| - 1].ctx.now)
    decreases |fs|
  {
    hide Attempt;
    if fs != [] {
      var f, rest := fs[0], fs[1..];
      var w0 := w.(now := f.ctx.now);
      assert Exec(env, w, Tick(f.ctx.now)) == Ok(w0);
      hide Exec;
      match Attempt(env, w.l, f) {
        case Failed(_) =>
          FlipsAreARun(env, w0, rest);
          CommitsFirst(env, w, Tick(f.ctx.now), TimedEvents(env, w.l, rest), w0);
        case Done(l1) =>
          AttemptShape(env, w.l, f);
          FlipIsAnEvent(env, w0, f);
          var w1, es := w0.(l := l1), TimedEvents(env, l1, rest);
          FlipsAreARun(env, w1, rest);
          CommitsFirst(env, w0, FlipEvent(f), es, w1);
          CommitsFirst(env, w, Tick(f.ctx.now), [FlipEvent(f)] + es, w0);
      }
    }
  }
}
