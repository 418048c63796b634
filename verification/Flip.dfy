/** The flip demo's two routes over the same vault and pool: as AppIx's inner instruction, and as a
    top-level instruction that calls CpiEntry on a loss (flip_demo/program). */
module Flip {
  import opened Bytes
  import opened Types
  import opened Layout
  import opened Ledger
  import opened VaultProgram
  import opened Codec
  import AppIxLoop

  const FLIP_ID: Address := 0x7446ae3b9d144ac7aa139eceec989399547fb91c3de0c622d1cc272b61b66d9a
  const USDC_MINT: Address := 0x7b839b825d62607d480cc9574f5b8e31f75dd446afca4ad6d4ff6509553928e9

  datatype FlipError =
    | BadData | NotEnoughKeys | NoSignature | InvalidTokenProgram | ConfigPdaMismatch | NotInitialized
    | Inactive | TokenOwnerMismatch | WrongMint | InvalidClock | VaultProgramMismatch | AppAddressMismatch
    | Called(error: Error)

  datatype Outcome<+T> = Done(value: T) | Failed(reason: FlipError) {
    predicate IsFailure() { Failed? }
    function PropagateFailure<U>(): Outcome<U>
      requires Failed?
    {
      Failed(reason)
    }
    function Extract(): T
      requires Done?
    {
      value
    }
  }

  function Check(c: bool, e: FlipError): Outcome<()> { if c then Done(()) else Failed(e) }

  function Lift(r: Result<Ledger>): Outcome<Ledger> {
    match r case Ok(l) => Done(l) case Err(e) => Failed(Called(e))
  }

  /** The config PDA, the bytes of its account, and the slot the clock shows. */
  datatype Table = Table(config: Address, configData: seq<byte>, slot: nat)

  // ----- Instruction data -----

  /** `encodeFlipData` in the page: ten bytes, filled in place. */
  method EncodeFlipData(disc: byte, amount: u64, betOdd: bool) returns (out: array<byte>)
    ensures fresh(out) && out[..] == FlipData(disc, amount, betOdd)
  {
    out := new byte[10](_ => 0);
    out[0] := disc;
    var le := Le(amount, 8);
    forall i | 0 <= i < 8 {
      out[1 + i] := le[i];
    }
    out[9] := if betOdd then 1 else 0;
    assert out[..] == [disc] + le + [if betOdd then 1 else 0];
  }

  function FlipData(disc: byte, amount: u64, betOdd: bool): seq<byte> {
    [disc] + Le(amount, 8) + [if betOdd then 1 else 0]
  }

  function ParseFlipAmountOdd(data: seq<byte>): Outcome<(u64, bool)> {
    if |data| != 9 then Failed(BadData) else Done((U64At(data, 0), data[8] != 0))
  }

  lemma DataSections(disc: byte, le: seq<byte>, bet: byte)
    requires |le| == 8
    ensures var d := ([disc] + le + [bet])[1..]; |d| == 9 && d[0..8] == le && d[8] == bet
  {
  }

  /** The program reads back the amount and the bet the page wrote. */
  lemma FlipDataRoundTrip(disc: byte, amount: u64, betOdd: bool)
    ensures ParseFlipAmountOdd(FlipData(disc, amount, betOdd)[1..]) == Done((amount, betOdd))
  {
    hide Le;
    hide FromLe;
    Widths();
    LeRoundTrip(amount, 8);
    DataSections(disc, Le(amount, 8), if betOdd then 1 else 0);
  }

  /** The 17-byte CpiEntry payload, filled in place. */
  method FillCpiEntry(amount: u64) returns (buf: array<byte>)
    ensures fresh(buf) && buf[..] == Encode(Cpi(0, amount))
  {
    buf := new byte[17](_ => 0);
    buf[0] := 6;
    var zero, le := Le(0, 8), Le(amount, 8);
    forall i | 0 <= i < 8 {
      buf[1 + i] := zero[i];
    }
    forall i | 0 <= i < 8 {
      buf[9 + i] := le[i];
    }
    assert buf[..] == [6] + (zero + le);
  }

  // ----- The two routes -----

  function VerifyTokenSide(l: Ledger, a: Address, program: Address): Outcome<TokenRecord> {
    match Get(l, a).body
    case Token(t) =>
      var _ :- Check(t.program == program, TokenOwnerMismatch);
      var _ :- Check(t.mint == USDC_MINT, WrongMint);
      Done(t)
    case _ => Failed(TokenOwnerMismatch)
  }

  function VerifyVaultPoolAtas(l: Ledger, vaultAta: Address, poolAta: Address, program: Address,
                               vault: Address, config: Address): Outcome<()> {
    var _ :- Check(program == SPL_TOKEN_ID, InvalidTokenProgram);
    var v :- VerifyTokenSide(l, vaultAta, program);
    var p :- VerifyTokenSide(l, poolAta, program);
    var _ :- Check(v.authority == vault, TokenOwnerMismatch);
    Check(p.authority == config, TokenOwnerMismatch)
  }

  function CheckConfig(t: Table, config: Address): Outcome<()> {
    var _ :- Check(config == t.config, ConfigPdaMismatch);
    var _ :- Check(|t.configData| >= 1, NotInitialized);
    Check(t.configData[0] != 0, Inactive)
  }

  predicate Win(slot: nat, betOdd: bool) {
    var outcomeOdd := slot % 2 == 1;
    (outcomeOdd && betOdd) || (!outcomeOdd && !betOdd)
  }

  /** `flip_from_app_ix`: accounts vault ATA, pool ATA, config, vault, token program, clock. `signs` says
      whether its caller passed the vault as a signer. */
  function FlipFromAppIx(t: Table, l: Ledger, signs: bool, slots: seq<Address>, data: seq<byte>): Outcome<Ledger> {
    var bet :- ParseFlipAmountOdd(data);
    var (amount, betOdd) := bet;
    var _ :- Check(amount != 0, BadData);
    var _ :- Check(|slots| == 6, NotEnoughKeys);
    var vaultAta, poolAta, config, vault, program, clock := slots[0], slots[1], slots[2], slots[3], slots[4], slots[5];
    var _ :- Check(program == SPL_TOKEN_ID, InvalidTokenProgram);
    var _ :- CheckConfig(t, config);
    var _ :- VerifyVaultPoolAtas(l, vaultAta, poolAta, program, vault, config);
    var _ :- Check(clock == CLOCK_ID, InvalidClock);
    if Win(t.slot, betOdd) then Lift(Transfer(l, SPL_TOKEN_ID, poolAta, vaultAta, config, true, amount))
    else Lift(Transfer(l, SPL_TOKEN_ID, vaultAta, poolAta, vault, signs, amount))
  }

  /** `flip_via_cpi`: the vault program, CpiEntry's eleven accounts, the config. */
  function FlipViaCpi(env: Env, t: Table, l: Ledger, ctx: Ctx, slots: seq<Address>, data: seq<byte>): Outcome<Ledger> {
    var bet :- ParseFlipAmountOdd(data);
    var (amount, betOdd) := bet;
    var _ :- Check(amount != 0, BadData);
    var _ :- Check(|slots| == 13, NotEnoughKeys);
    var inner, config := slots[1..12], slots[12];
    var delegate, vault, vaultAta, app, poolAta := inner[0], inner[2], inner[3], inner[4], inner[6];
    var mint, program, clock := inner[7], inner[8], inner[10];
    var _ :- Check(slots[0] == ID, VaultProgramMismatch);
    var _ :- Check(delegate in ctx.signers, NoSignature);
    var _ :- Check(program == SPL_TOKEN_ID, InvalidTokenProgram);
    var _ :- Check(ProgramOf(Get(l, mint).body) == program && mint == USDC_MINT, WrongMint);
    var _ :- Check(app == FLIP_ID, AppAddressMismatch);
    var _ :- CheckConfig(t, config);
    var _ :- VerifyVaultPoolAtas(l, vaultAta, poolAta, program, vault, config);
    var _ :- Check(clock == CLOCK_ID, InvalidClock);
    if Win(t.slot, betOdd) then Lift(Transfer(l, SPL_TOKEN_ID, poolAta, vaultAta, config, true, amount))
    else Lift(Process(env, ctx, l, inner, Encode(Cpi(0, amount))))
  }

  function Addresses(views: seq<AppIxLoop.View>): seq<Address> { Map(views, (v: AppIxLoop.View) => v.address) }

  function MetaAddresses(metas: seq<AppIxLoop.Meta>): seq<Address> { Map(metas, (m: AppIxLoop.Meta) => m.address) }

  predicate Signs(metas: seq<AppIxLoop.Meta>, a: Address) {
    exists m :: m in metas && m.address == a && m.isSigner
  }

  /** AppIx into the flip program: the vault handler's checks, then the app with the metas the fused loop
      builds, so the vault is a signer wherever it appears. The app gets the data after AppIx's own byte. */
  function FlipUnderAppIx(t: Table, l: Ledger, ctx: Ctx, views: seq<AppIxLoop.View>, inner: seq<byte>)
    : Outcome<Ledger>
  {
    var slots := Addresses(views);
    var l1 :- Lift(AppIx(ctx, l, slots));
    var metas := AppIxLoop.Metas(views[5..], slots[2]);
    var _ :- Check(slots[3] == FLIP_ID && inner != [] && inner[0] == 1, BadData);
    FlipFromAppIx(t, l1, |metas| > 3 && Signs(metas, metas[3].address), MetaAddresses(metas), inner[1..])
  }

  // ----- Agreement -----

  /** What a flip of `amount` on these accounts does, told from the slot's parity and the bet. */
  function Stake(t: Table, l: Ledger, vaultAta: Address, poolAta: Address, vault: Address, amount: u64, betOdd: bool)
    : Result<Ledger>
  {
    if Win(t.slot, betOdd) then Transfer(l, SPL_TOKEN_ID, poolAta, vaultAta, t.config, true, amount)
    else Transfer(l, SPL_TOKEN_ID, vaultAta, poolAta, vault, true, amount)
  }

  /** The inner instruction's accounts agree on their sides before any stake moves. */
  lemma FromAppIxIsStake(t: Table, l: Ledger, signs: bool, slots: seq<Address>, amount: u64, betOdd: bool)
    requires FlipFromAppIx(t, l, signs, slots, FlipData(1, amount, betOdd)[1..]).Done?
    ensures |slots| == 6 && slots[2] == t.config
    ensures VerifyVaultPoolAtas(l, slots[0], slots[1], slots[4], slots[3], t.config).Done?
    ensures Stake(t, l, slots[0], slots[1], slots[3], amount, betOdd)
            == Ok(FlipFromAppIx(t, l, signs, slots, FlipData(1, amount, betOdd)[1..]).value)
  {
    FlipDataRoundTrip(1, amount, betOdd);
  }

  lemma AppIxRoute(t: Table, l: Ledger, ctx: Ctx, views: seq<AppIxLoop.View>, amount: u64, betOdd: bool)
    requires FlipUnderAppIx(t, l, ctx, views, FlipData(1, amount, betOdd)).Done?
    ensures |views| == 11
    ensures VerifyVaultPoolAtas(l, views[5].address, views[6].address, views[9].address, views[8].address,
                                t.config).Done?
    ensures Stake(t, l, views[5].address, views[6].address, views[8].address, amount, betOdd)
            == Ok(FlipUnderAppIx(t, l, ctx, views, FlipData(1, amount, betOdd)).value)
  {
    hide FlipFromAppIx;
    hide Stake;
    hide CheckDelegate;
    hide VerifyVaultPoolAtas;
    var metas := AppIxLoop.Metas(views[5..], Addresses(views)[2]);
    var slots := MetaAddresses(metas);
    forall i | 0 <= i < |metas| ensures slots[i] == views[5 + i].address {
      AppIxLoop.OnlyTheVaultGainsRights(views[5..], Addresses(views)[2], i);
    }
    FromAppIxIsStake(t, l, |metas| > 3 && Signs(metas, metas[3].address), slots, amount, betOdd);
  }

  lemma TokenOnlyEntry(env: Env, ctx: Ctx, l: Ledger, slots: seq<Address>, data: seq<byte>, amount: u64)
    requires amount != 0 && ParseTwoU64(data) == Ok((0, amount)) && CpiEntry(env, ctx, l, slots, data).Ok?
    ensures |slots| == 11
    ensures CpiEntry(env, ctx, l, slots, data) == Transfer(l, slots[8], slots[3], slots[6], slots[2], true, amount)
  {
  }

  lemma CpiEntryIsTransfer(env: Env, ctx: Ctx, l: Ledger, slots: seq<Address>, amount: u64)
    requires amount != 0 && Process(env, ctx, l, slots, Encode(Cpi(0, amount))).Ok?
    ensures |slots| == 11
    ensures Process(env, ctx, l, slots, Encode(Cpi(0, amount)))
            == Transfer(l, slots[8], slots[3], slots[6], slots[2], true, amount)
  {
    hide CpiEntry;
    hide Transfer;
    var ix := Encode(Cpi(0, amount));
    assert ix[0] == 6 && ix[1..] == Le(0, 8) + Le(amount, 8);
    ParseTwoU64Inverts(0, amount, []);
    TokenOnlyEntry(env, ctx, l, slots, ix[1..], amount);
  }

  lemma CpiRoute(env: Env, t: Table, l: Ledger, ctx: Ctx, slots: seq<Address>, amount: u64, betOdd: bool)
    requires FlipViaCpi(env, t, l, ctx, slots, FlipData(2, amount, betOdd)[1..]).Done?
    ensures |slots| == 13
    ensures VerifyVaultPoolAtas(l, slots[4], slots[7], slots[9], slots[3], t.config).Done?
    ensures Stake(t, l, slots[4], slots[7], slots[3], amount, betOdd)
            == Ok(FlipViaCpi(env, t, l, ctx, slots, FlipData(2, amount, betOdd)[1..]).value)
  {
    hide Process;
    hide Transfer;
    FlipDataRoundTrip(2, amount, betOdd);
    if !Win(t.slot, betOdd) {
      CpiEntryIsTransfer(env, ctx, l, slots[1..12], amount);
    }
  }

  /** If both routes commit from the same ledger, for the same vault and pool accounts, amount, bet and slot,
      they leave the same ledger. */
  lemma RoutesAgree(env: Env, t: Table, l: Ledger, ctx: Ctx, ctx': Ctx, views: seq<AppIxLoop.View>,
                    slots: seq<Address>, amount: u64, betOdd: bool)
    requires |views| == 11 && |slots| == 13
    requires views[5].address == slots[4] && views[6].address == slots[7] && views[8].address == slots[3]
    requires FlipUnderAppIx(t, l, ctx, views, FlipData(1, amount, betOdd)).Done?
    requires FlipViaCpi(env, t, l, ctx', slots, FlipData(2, amount, betOdd)[1..]).Done?
    ensures FlipUnderAppIx(t, l, ctx, views, FlipData(1, amount, betOdd))
            == FlipViaCpi(env, t, l, ctx', slots, FlipData(2, amount, betOdd)[1..])
  {
    AppIxRoute(t, l, ctx, views, amount, betOdd);
    CpiRoute(env, t, l, ctx', slots, amount, betOdd);
  }

  // ----- Many flips -----

  /** One flip by either route, with what its caller passes. */
  datatype Try =
    | ByAppIx(t: Table, ctx: Ctx, views: seq<AppIxLoop.View>, amount: u64, betOdd: bool)
    | ByCpi(t: Table, ctx: Ctx, slots: seq<Address>, amount: u64, betOdd: bool)

  /** The flip is between these two accounts, under these two authorities. */
  predicate Between(f: Try, vaultAta: Address, poolAta: Address, vault: Address, config: Address) {
    f.t.config == config &&
    match f
    case ByAppIx(_, _, v, _, _) =>
      |v| == 11 && v[5].address == vaultAta && v[6].address == poolAta && v[8].address == vault
    case ByCpi(_, _, s, _, _) => |s| == 13 && s[4] == vaultAta && s[7] == poolAta && s[3] == vault
  }

  function Attempt(env: Env, l: Ledger, f: Try): Outcome<Ledger> {
    match f
    case ByAppIx(t, ctx, views, amount, betOdd) =>
      FlipUnderAppIx(t, l, ctx, views, FlipData(1, amount, betOdd))
    case ByCpi(t, ctx, slots, amount, betOdd) =>
      FlipViaCpi(env, t, l, ctx, slots, FlipData(2, amount, betOdd)[1..])
  }

  function Play(env: Env, l: Ledger, fs: seq<Try>): Ledger
    decreases |fs|
  {
    if fs == [] then l
    else match Attempt(env, l, fs[0]) case Done(l1) => Play(env, l1, fs[1..]) case Failed(_) => Play(env, l, fs[1..])
  }

  /** What the vault gains: the stake if the slot is as odd or even as was bet, else its loss. */
  function Change(f: Try): int {
    if (f.t.slot % 2 == 1) == f.betOdd then f.amount as int else -(f.amount as int)
  }

  /** The signed sum of the stakes of the flips that commit. */
  function Winnings(env: Env, l: Ledger, fs: seq<Try>): int
    decreases |fs|
  {
    if fs == [] then 0
    else match Attempt(env, l, fs[0])
      case Done(l1) => Change(fs[0]) + Winnings(env, l1, fs[1..])
      case Failed(_) => Winnings(env, l, fs[1..])
  }

  lemma StakeMoves(t: Table, l: Ledger, vaultAta: Address, poolAta: Address, vault: Address, amount: u64, betOdd: bool)
    requires vault != t.config && VerifyVaultPoolAtas(l, vaultAta, poolAta, SPL_TOKEN_ID, vault, t.config).Done?
    requires Stake(t, l, vaultAta, poolAta, vault, amount, betOdd).Ok?
    ensures var l1, n := Stake(t, l, vaultAta, poolAta, vault, amount, betOdd).value,
                         if Win(t.slot, betOdd) then amount as int else -(amount as int);
            && Amount(l1, vaultAta) == Amount(l, vaultAta) + n
            && Amount(l1, poolAta) == Amount(l, poolAta) - n
  {
  }

  lemma OneFlip(env: Env, l: Ledger, f: Try, vaultAta: Address, poolAta: Address, vault: Address, config: Address)
    requires Between(f, vaultAta, poolAta, vault, config) && vault != config && Attempt(env, l, f).Done?
    ensures Amount(Attempt(env, l, f).value, vaultAta) == Amount(l, vaultAta) + Change(f)
    ensures Amount(Attempt(env, l, f).value, poolAta) == Amount(l, poolAta) - Change(f)
  {
    match f {
      case ByAppIx(t, ctx, views, amount, betOdd) => AppIxRoute(t, l, ctx, views, amount, betOdd);
      case ByCpi(t, ctx, slots, amount, betOdd) => CpiRoute(env, t, l, ctx, slots, amount, betOdd);
    }
    StakeMoves(f.t, l, vaultAta, poolAta, vault, f.amount, f.betOdd);
  }

  /** Over any sequence of flips by either route, the vault's balance changes by the signed sum of the
      committed stakes, the pool's by its negation, and neither goes below zero. */
  lemma {:induction false} FlipsAddUp(env: Env, l: Ledger, fs: seq<Try>, vaultAta: Address, poolAta: Address,
                                      vault: Address, config: Address)
    requires vault != config && forall f :: f in fs ==> Between(f, vaultAta, poolAta, vault, config)
    ensures Amount(Play(env, l, fs), vaultAta) == Amount(l, vaultAta) + Winnings(env, l, fs) >= 0
    ensures Amount(Play(env, l, fs), poolAta) == Amount(l, poolAta) - Winnings(env, l, fs) >= 0
    decreases |fs|
  {
    if fs != [] {
      assert fs[0] in fs;
      match Attempt(env, l, fs[0])
      case Done(l1) =>
        OneFlip(env, l, fs[0], vaultAta, poolAta, vault, config);
        FlipsAddUp(env, l1, fs[1..], vaultAta, poolAta, vault, config);
      case Failed(_) =>
        FlipsAddUp(env, l, fs[1..], vaultAta, poolAta, vault, config);
    }
  }
}
