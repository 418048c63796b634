/** What a flip refuses and what it moves, by either route, told from the slot's parity, the bet and the ledger. */
module FlipOutcomes {
  import opened Bytes
  import opened Types
  import opened Ledger
  import opened VaultProgram
  import opened Flip
  import opened Outcomes
  import Codec
  import AppIxLoop

  function First(applies: bool, e: FlipError, otherwise: Option<FlipError>): Option<FlipError> {
    if applies then Some(e) else otherwise
  }

  /** The amount of nine bytes of amount and bet; 0 if there are not nine. */
  function StakeOf(data: seq<byte>): u64 { if |data| == 9 then U64At(data, 0) else 0 }

  predicate BetOdd(data: seq<byte>) { |data| == 9 && data[8] != 0 }

  predicate HasToken(l: Ledger, a: Address, program: Address) { IsToken(l, a) && Get(l, a).body.t.program == program }

  function MintOf(l: Ledger, a: Address): Address { if IsToken(l, a) then Get(l, a).body.t.mint else SYSTEM_ID }

  /** The table is open, the two accounts are the vault's and the table's in USDC, and the clock is the clock. */
  function TableCauses(t: Table, l: Ledger, vaultAta: Address, poolAta: Address, config: Address, vault: Address,
                       clock: Address, otherwise: Option<FlipError>): Option<FlipError> {
    First(config != t.config, ConfigPdaMismatch,
    First(t.configData == [], NotInitialized,
    First(t.configData != [] && t.configData[0] == 0, Inactive,
    First(!HasToken(l, vaultAta, SPL_TOKEN_ID), TokenOwnerMismatch,
    First(MintOf(l, vaultAta) != USDC_MINT, WrongMint,
    First(!HasToken(l, poolAta, SPL_TOKEN_ID), TokenOwnerMismatch,
    First(MintOf(l, poolAta) != USDC_MINT, WrongMint,
    First(!Controls(l, vault, vaultAta) || !Controls(l, config, poolAta), TokenOwnerMismatch,
    First(clock != CLOCK_ID, InvalidClock, otherwise)))))))))
  }

  /** The loser has the stake, and the winner has room for it. */
  predicate Covered(l: Ledger, src: Address, dst: Address, n: u64) {
    n <= Amount(l, src) && (src == dst || Amount(l, dst) + n <= U64_MAX)
  }

  function FromAppIxCauses(t: Table, l: Ledger, signs: bool, slots: seq<Address>, data: seq<byte>): Option<FlipError> {
    var vaultAta, poolAta, config, vault := At(slots, 0), At(slots, 1), At(slots, 2), At(slots, 3);
    First(StakeOf(data) == 0, BadData,
    First(|slots| != 6, NotEnoughKeys,
    First(At(slots, 4) != SPL_TOKEN_ID, InvalidTokenProgram,
    TableCauses(t, l, vaultAta, poolAta, config, vault, At(slots, 5),
    if (t.slot % 2 == 1) == BetOdd(data) then
      First(!Covered(l, poolAta, vaultAta, StakeOf(data)), Called(CpiFailed), None)
    else First(!signs || !Covered(l, vaultAta, poolAta, StakeOf(data)), Called(CpiFailed), None)))))
  }

  /** A loss is the vault program's to refuse. */
  function ViaCpiCauses(env: Env, t: Table, l: Ledger, ctx: Ctx, slots: seq<Address>, data: seq<byte>)
    : Option<FlipError>
  {
    var delegate, vault, vaultAta, app, poolAta := At(slots, 1), At(slots, 3), At(slots, 4), At(slots, 5), At(slots, 7);
    var mint, program, clock, config := At(slots, 8), At(slots, 9), At(slots, 11), At(slots, 12);
    First(StakeOf(data) == 0, BadData,
    First(|slots| != 13, NotEnoughKeys,
    First(At(slots, 0) != ID, VaultProgramMismatch,
    First(delegate !in ctx.signers, NoSignature,
    First(program != SPL_TOKEN_ID, InvalidTokenProgram,
    First(ProgramOf(Get(l, mint).body) != SPL_TOKEN_ID || mint != USDC_MINT, WrongMint,
    First(app != FLIP_ID, AppAddressMismatch,
    TableCauses(t, l, vaultAta, poolAta, config, vault, clock,
    if (t.slot % 2 == 1) == BetOdd(data) then
      First(!Covered(l, poolAta, vaultAta, StakeOf(data)), Called(CpiFailed), None)
    else if |slots| == 13 then
      match CpiEntryCauses(env, ctx, l, slots[1..12], Le(0, 8) + Le(StakeOf(data), 8))
      case Some(e) => Some(Called(e))
      case None => None
    else None))))))))
  }

  predicate Replies(r: Outcome<Ledger>, cause: Option<FlipError>) {
    match cause case Some(e) => r == Failed(e) case None => r.Done?
  }

  /** The stake goes from pool to vault if the slot is as odd or even as was bet, and else from vault to pool. */
  ghost predicate Settled(t: Table, l: Ledger, l': Ledger, vaultAta: Address, poolAta: Address, n: u64, betOdd: bool) {
    if (t.slot % 2 == 1) == betOdd then Moves(l, l', SYSTEM_ID, SYSTEM_ID, 0, poolAta, vaultAta, n)
    else Moves(l, l', SYSTEM_ID, SYSTEM_ID, 0, vaultAta, poolAta, n)
  }

  /** The checks of both routes, one after the other. */
  function TableChecks(t: Table, l: Ledger, vaultAta: Address, poolAta: Address, config: Address, vault: Address,
                       clock: Address): Outcome<()> {
    var _ :- CheckConfig(t, config);
    var _ :- VerifyVaultPoolAtas(l, vaultAta, poolAta, SPL_TOKEN_ID, vault, config);
    Check(clock == CLOCK_ID, InvalidClock)
  }

  lemma TableOutcome(t: Table, l: Ledger, vaultAta: Address, poolAta: Address, config: Address, vault: Address,
                     clock: Address, o: Option<FlipError>)
    ensures TableCauses(t, l, vaultAta, poolAta, config, vault, clock, o)
            == match TableChecks(t, l, vaultAta, poolAta, config, vault, clock)
               case Done(_) => o
               case Failed(e) => Some(e)
    ensures TableChecks(t, l, vaultAta, poolAta, config, vault, clock).Done? ==>
              && IsAccount(l, vaultAta, SPL_TOKEN_ID, USDC_MINT, vault)
              && IsAccount(l, poolAta, SPL_TOKEN_ID, USDC_MINT, config)
  {
  }

  lemma StakeOutcome(l: Ledger, src: Address, dst: Address, authority: Address, other: Address, signs: bool, n: u64)
    requires IsAccount(l, src, SPL_TOKEN_ID, USDC_MINT, authority)
    requires IsAccount(l, dst, SPL_TOKEN_ID, USDC_MINT, other)
    ensures var r := Transfer(l, SPL_TOKEN_ID, src, dst, authority, signs, n);
            && Answers(r, When(!signs || !Covered(l, src, dst, n), CpiFailed, None))
            && (r.Ok? ==> Moves(l, r.value, SYSTEM_ID, SYSTEM_ID, 0, src, dst, n))
  {
  }

  lemma FromAppIxOutcome(t: Table, l: Ledger, signs: bool, slots: seq<Address>, data: seq<byte>)
    ensures Replies(FlipFromAppIx(t, l, signs, slots, data), FromAppIxCauses(t, l, signs, slots, data))
    ensures FlipFromAppIx(t, l, signs, slots, data).Done? ==>
              |slots| == 6 && Settled(t, l, FlipFromAppIx(t, l, signs, slots, data).value, slots[0], slots[1],
                                      StakeOf(data), BetOdd(data))
  {
    hide Transfer, Moves, Covered, IsAccount, TableCauses, CheckConfig, VerifyVaultPoolAtas;
    if |slots| == 6 {
      var vaultAta, poolAta, config, vault := slots[0], slots[1], slots[2], slots[3];
      forall o ensures TableCauses(t, l, vaultAta, poolAta, config, vault, slots[5], o)
                       == match TableChecks(t, l, vaultAta, poolAta, config, vault, slots[5])
                          case Done(_) => o
                          case Failed(e) => Some(e)
      {
        TableOutcome(t, l, vaultAta, poolAta, config, vault, slots[5], o);
      }
      if TableChecks(t, l, vaultAta, poolAta, config, vault, slots[5]).Done? {
        TableOutcome(t, l, vaultAta, poolAta, config, vault, slots[5], None);
        StakeOutcome(l, poolAta, vaultAta, config, vault, true, StakeOf(data));
        StakeOutcome(l, vaultAta, poolAta, vault, config, signs, StakeOf(data));
      }
    }
  }

  /** Loss by CPI: the vault program's answer, and on success its move. */
  lemma LossOutcome(env: Env, ctx: Ctx, l: Ledger, inner: seq<Address>, n: u64)
    requires |inner| == 11 && n > 0
    ensures Answers(Process(env, ctx, l, inner, Codec.Encode(Codec.Cpi(0, n))),
                    CpiEntryCauses(env, ctx, l, inner, Le(0, 8) + Le(n, 8)))
    ensures Process(env, ctx, l, inner, Codec.Encode(Codec.Cpi(0, n))).Ok? ==>
              Moves(l, Process(env, ctx, l, inner, Codec.Encode(Codec.Cpi(0, n))).value, SYSTEM_ID, SYSTEM_ID, 0,
                    inner[3], inner[6], n)
  {
    hide CpiEntry, CpiEntryCauses, Moves;
    var ix, data := Codec.Encode(Codec.Cpi(0, n)), Le(0, 8) + Le(n, 8);
    assert ix[0] == 6 && ix[1..] == data;
    Codec.ParseTwoU64Inverts(0, n, []);
    assert Half(data, 0) == 0 && Half(data, 1) == n;
    CpiEntryOutcome(env, ctx, l, inner, data);
    if r :| CpiEntry(env, ctx, l, inner, data) == Ok(r) {
      AnyPayer(l, r, inner[2], inner[5], inner[3], inner[6], n);
    }
  }

  lemma AnyPayer(l: Ledger, l': Ledger, payer: Address, payee: Address, src: Address, dst: Address, n: u64)
    requires Moves(l, l', payer, payee, 0, src, dst, n)
    ensures Moves(l, l', SYSTEM_ID, SYSTEM_ID, 0, src, dst, n)
  {
  }

  lemma ViaCpiOutcome(env: Env, t: Table, l: Ledger, ctx: Ctx, slots: seq<Address>, data: seq<byte>)
    ensures Replies(FlipViaCpi(env, t, l, ctx, slots, data), ViaCpiCauses(env, t, l, ctx, slots, data))
    ensures FlipViaCpi(env, t, l, ctx, slots, data).Done? ==>
              |slots| == 13 && Settled(t, l, FlipViaCpi(env, t, l, ctx, slots, data).value, slots[4], slots[7],
                                       StakeOf(data), BetOdd(data))
  {
    hide Transfer, Moves, Covered, IsAccount, TableCauses, CheckConfig, VerifyVaultPoolAtas;
    hide Process, CpiEntryCauses, Le;
    if |slots| == 13 && StakeOf(data) > 0 {
      var vaultAta, poolAta, config, vault, clock := slots[4], slots[7], slots[12], slots[3], slots[11];
      forall o ensures TableCauses(t, l, vaultAta, poolAta, config, vault, clock, o)
                       == match TableChecks(t, l, vaultAta, poolAta, config, vault, clock)
                          case Done(_) => o
                          case Failed(e) => Some(e)
      {
        TableOutcome(t, l, vaultAta, poolAta, config, vault, clock, o);
      }
      LossOutcome(env, ctx, l, slots[1..12], StakeOf(data));
      if TableChecks(t, l, vaultAta, poolAta, config, vault, clock).Done? {
        TableOutcome(t, l, vaultAta, poolAta, config, vault, clock, None);
        StakeOutcome(l, poolAta, vaultAta, config, vault, true, StakeOf(data));
      }
    }
  }

  /** The vault passed signs under AppIx, and so does every inner account that came as a signer. */
  predicate InnerSigns(views: seq<AppIxLoop.View>, a: Address)
    requires |views| >= 5
  {
    exists x :: x in views[5..] && x.address == a && (x.isSigner || a == views[2].address)
  }

  /** AppIx refuses first, and then the flip it calls. */
  function UnderAppIxCauses(t: Table, l: Ledger, ctx: Ctx, views: seq<AppIxLoop.View>, data: seq<byte>)
    : Option<FlipError>
  {
    var slots := Flip.Addresses(views);
    match AppIxCauses(ctx, l, slots)
    case Some(e) => Some(Called(e))
    case None =>
      if |views| < 5 then None
      else
        First(slots[3] != FLIP_ID || data == [] || data[0] != 1, BadData,
              FromAppIxCauses(t, l, |views| > 8 && InnerSigns(views, views[8].address), slots[5..],
                              if data == [] then [] else data[1..]))
  }

  lemma InnerAccounts(views: seq<AppIxLoop.View>)
    requires |views| >= 5
    ensures var metas := AppIxLoop.Metas(views[5..], views[2].address);
            && MetaAddresses(metas) == Flip.Addresses(views)[5..]
            && forall a :: Signs(metas, a) <==> InnerSigns(views, a)
  {
    var inner, vault := views[5..], views[2].address;
    var metas := AppIxLoop.Metas(inner, vault);
    forall i | 0 <= i < |inner|
      ensures metas[i].address == inner[i].address
      ensures metas[i].isSigner <==> inner[i].isSigner || inner[i].address == vault
    {
      AppIxLoop.OnlyTheVaultGainsRights(inner, vault, i);
    }
    forall a ensures Signs(metas, a) <==> InnerSigns(views, a) {
      if Signs(metas, a) {
        var m :| m in metas && m.address == a && m.isSigner;
        var i :| 0 <= i < |metas| && metas[i] == m;
        assert inner[i] in inner;
      }
      if InnerSigns(views, a) {
        var x :| x in inner && x.address == a && (x.isSigner || a == vault);
        var i :| 0 <= i < |inner| && inner[i] == x;
        assert metas[i] in metas;
      }
    }
  }

  lemma UnderAppIxOutcome(t: Table, l: Ledger, ctx: Ctx, views: seq<AppIxLoop.View>, data: seq<byte>)
    ensures Replies(FlipUnderAppIx(t, l, ctx, views, data), UnderAppIxCauses(t, l, ctx, views, data))
    ensures FlipUnderAppIx(t, l, ctx, views, data).Done? ==>
              && |views| == 11 && data != []
              && Settled(t, l, FlipUnderAppIx(t, l, ctx, views, data).value, views[5].address, views[6].address,
                         StakeOf(data[1..]), BetOdd(data[1..]))
  {
    hide AppIx, AppIxCauses, FlipFromAppIx, FromAppIxCauses, Settled, Signs, InnerSigns;
    var slots := Flip.Addresses(views);
    AppIxOutcome(ctx, l, slots);
    if AppIx(ctx, l, slots).Ok? {
      assert |slots| >= 5 by {
        AppIxNeedsFive(ctx, l, slots);
      }
      InnerAccounts(views);
      if data != [] {
        var metas := AppIxLoop.Metas(views[5..], views[2].address);
        FromAppIxOutcome(t, l, |metas| > 3 && Signs(metas, metas[3].address), slots[5..], data[1..]);
      }
    }
  }

  lemma AppIxNeedsFive(ctx: Ctx, l: Ledger, slots: seq<Address>)
    requires AppIx(ctx, l, slots).Ok?
    ensures |slots| >= 5
  {
  }
}
