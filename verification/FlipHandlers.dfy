/** The flip program's two routes as it runs them (flip_demo/program/src/instructions), over account objects,
    each against its typed specification. */
module FlipHandlers {
  import opened Bytes
  import opened Types
  import opened Ledger
  import opened Accounts
  import opened Runtime
  import opened Flip
  import Codec
  import Handlers
  import VaultProgram

  /** The config account and the clock, wherever they are passed, show this table. */
  ghost predicate Shows(bank: Bank, t: Table)
    reads bank.cells.Values
  {
    && (t.config in bank.cells ==> bank.cells[t.config].data == t.configData)
    && (CLOCK_ID in bank.cells ==>
          var d := bank.cells[CLOCK_ID].data; |d| >= 8 && U64At(d, 0) == t.slot)
  }

  ghost predicate Agrees(bank: Bank, r: Outcome<()>, s: Outcome<Ledger>)
    reads bank.cells.Values
  {
    match s
    case Done(l) => r == Done(()) && bank.View() == l
    case Failed(e) => r == Failed(e)
  }

  function Outcomes(r: Result<()>): Outcome<()> {
    match r case Ok(_) => Done(()) case Err(e) => Failed(Called(e))
  }

  // ----- helpers.rs -----

  function CheckTokenSide(c: AccountView, program: Address): Outcome<()>
    reads c
  {
    if c.owner != program then Failed(TokenOwnerMismatch)
    else if |c.data| < TOKEN_ACCT_LEN then Failed(TokenOwnerMismatch)
    else if c.data[TOKEN_ACCT_STATE_OFFSET] == 0 then Failed(TokenOwnerMismatch)
    else if AddressAt(c.data, TOKEN_ACCT_MINT_OFFSET) != USDC_MINT then Failed(WrongMint)
    else Done(())
  }

  lemma TokenSideReads(l: Ledger, c: AccountView)
    requires Get(l, c.address) == c.Abs()
    ensures match VerifyTokenSide(l, c.address, SPL_TOKEN_ID)
            case Done(t) =>
              && CheckTokenSide(c, SPL_TOKEN_ID) == Done(()) && |c.data| >= TOKEN_ACCT_LEN
              && t.authority == AddressAt(c.data, TOKEN_ACCT_OWNER_OFFSET)
            case Failed(e) => CheckTokenSide(c, SPL_TOKEN_ID) == Failed(e)
  {
    hide AddressAt;
    hide U64At;
  }

  /** One loop over the two accounts, then their two authorities. */
  method VerifyBothAtas(bank: Bank, vaultAta: AccountView, poolAta: AccountView, program: AccountView,
                        vault: Address, config: Address) returns (r: Outcome<()>)
    requires bank.Wired() && bank.Has(vaultAta) && bank.Has(poolAta)
    ensures r == VerifyVaultPoolAtas(bank.View(), vaultAta.address, poolAta.address, program.address, vault, config)
  {
    hide BodyOf;
    hide CheckTokenSide;
    bank.Sees(vaultAta);
    bank.Sees(poolAta);
    TokenSideReads(bank.View(), vaultAta);
    TokenSideReads(bank.View(), poolAta);
    if program.address != SPL_TOKEN_ID {
      return Failed(InvalidTokenProgram);
    }
    var sides := [vaultAta, poolAta];
    for i := 0 to 2
      invariant i > 0 ==> CheckTokenSide(vaultAta, SPL_TOKEN_ID).Done?
      invariant i > 1 ==> CheckTokenSide(poolAta, SPL_TOKEN_ID).Done?
    {
      var side := CheckTokenSide(sides[i], program.address);
      if side.Failed? {
        return Failed(side.reason);
      }
    }
    if AddressAt(vaultAta.data, TOKEN_ACCT_OWNER_OFFSET) != vault {
      return Failed(TokenOwnerMismatch);
    }
    if AddressAt(poolAta.data, TOKEN_ACCT_OWNER_OFFSET) != config {
      return Failed(TokenOwnerMismatch);
    }
    return Done(());
  }

  method CheckConfigAccount(bank: Bank, expected: Address, config: AccountView, ghost t: Table) returns (r: Outcome<()>)
    requires bank.Wired() && bank.Has(config) && Shows(bank, t) && expected == t.config
    ensures r == CheckConfig(t, config.address)
  {
    if config.address != expected {
      return Failed(ConfigPdaMismatch);
    }
    if |config.data| < 1 {
      return Failed(NotInitialized);
    }
    if config.data[0] == 0 {
      return Failed(Inactive);
    }
    return Done(());
  }

  method ReadSlot(bank: Bank, clock: AccountView, ghost t: Table) returns (r: Outcome<nat>)
    requires bank.Wired() && bank.Has(clock) && Shows(bank, t)
    ensures r == if clock.address == CLOCK_ID then Done(t.slot) else Failed(InvalidClock)
  {
    if clock.address != CLOCK_ID {
      return Failed(InvalidClock);
    }
    return Done(U64At(clock.data, 0));
  }

  // ----- The two routes -----

  /** The stake moves by a token transfer: the config's seeds sign for the pool, the vault signs if its caller
      passed it as a signer. */
  method FlipFromAppIx(bank: Bank, expectedConfig: Address, accounts: seq<AccountView>, data: seq<byte>, ghost t: Table)
    returns (r: Outcome<()>)
    requires Handlers.Ready(bank, accounts) && Shows(bank, t) && expectedConfig == t.config
    modifies bank.cells.Values
    ensures Agrees(bank, r, Flip.FlipFromAppIx(t, old(bank.View()), |accounts| == 6 && accounts[3].isSigner,
                                               Handlers.Addresses(accounts), data))
  {
    hide BodyOf;
    hide VerifyVaultPoolAtas;
    hide CheckConfig;
    hide Transfer;
    var bet :- ParseFlipAmountOdd(data);
    var (amount, betOdd) := bet;
    if amount == 0 {
      return Failed(BadData);
    }
    if |accounts| != 6 {
      return Failed(NotEnoughKeys);
    }
    var vaultAta, poolAta, configPda, vaultPda := accounts[0], accounts[1], accounts[2], accounts[3];
    var tokenProgram, clockSysvar := accounts[4], accounts[5];
    if tokenProgram.address != SPL_TOKEN_ID {
      return Failed(InvalidTokenProgram);
    }
    var _ :- CheckConfigAccount(bank, expectedConfig, configPda, t);
    var _ :- VerifyBothAtas(bank, vaultAta, poolAta, tokenProgram, vaultPda.address, configPda.address);
    var slot :- ReadSlot(bank, clockSysvar, t);
    var moved: Result<()>;
    if Win(slot, betOdd) {
      moved := bank.Transfer(SPL_TOKEN_ID, poolAta, vaultAta, configPda.address, true, amount);
    } else {
      moved := bank.Transfer(SPL_TOKEN_ID, vaultAta, poolAta, vaultPda.address, vaultPda.isSigner, amount);
    }
    return Outcomes(moved);
  }

  /** On a loss the program fills the vault program's seventeen bytes and calls it. */
  method FlipViaCpi(bank: Bank, expectedConfig: Address, accounts: seq<AccountView>, data: seq<byte>, ghost t: Table)
    returns (r: Outcome<()>)
    requires Handlers.Ready(bank, accounts) && Shows(bank, t) && expectedConfig == t.config
    modifies bank.cells.Values
    ensures Agrees(bank, r, Flip.FlipViaCpi(bank.env, t, old(bank.View()), bank.ctx, Handlers.Addresses(accounts),
                                            data))
  {
    hide BodyOf;
    hide VerifyVaultPoolAtas;
    hide CheckConfig;
    hide Transfer;
    hide VaultProgram.Process;
    hide Codec.Encode;
    var bet :- ParseFlipAmountOdd(data);
    var (amount, betOdd) := bet;
    if amount == 0 {
      return Failed(BadData);
    }
    if |accounts| != 13 {
      return Failed(NotEnoughKeys);
    }
    var vaultProgram, inner, configPda := accounts[0], accounts[1..12], accounts[12];
    var delegate, userVaultPda, userVaultAta, appAddress := inner[0], inner[2], inner[3], inner[4];
    var poolAta, mint, tokenProgram, clockSysvar := inner[6], inner[7], inner[8], inner[10];
    bank.Sees(delegate);
    bank.Sees(mint);
    assert Handlers.Addresses(inner) == Handlers.Addresses(accounts)[1..12];
    if vaultProgram.address != ID {
      return Failed(VaultProgramMismatch);
    }
    if !delegate.isSigner {
      return Failed(NoSignature);
    }
    if tokenProgram.address != SPL_TOKEN_ID {
      return Failed(InvalidTokenProgram);
    }
    OwnerReads(mint);
    if mint.owner != tokenProgram.address || mint.address != USDC_MINT {
      return Failed(WrongMint);
    }
    if appAddress.address != FLIP_ID {
      return Failed(AppAddressMismatch);
    }
    var _ :- CheckConfigAccount(bank, expectedConfig, configPda, t);
    var _ :- VerifyBothAtas(bank, userVaultAta, poolAta, tokenProgram, userVaultPda.address, configPda.address);
    var slot :- ReadSlot(bank, clockSysvar, t);
    var moved: Result<()>;
    if Win(slot, betOdd) {
      moved := bank.Transfer(SPL_TOKEN_ID, poolAta, userVaultAta, configPda.address, true, amount);
    } else {
      var buf := FillCpiEntry(amount);
      var call: Option<Handlers.AppCall>;
      moved, call := Handlers.ProcessInstruction(bank, inner, buf[..]);
    }
    return Outcomes(moved);
  }

  lemma OwnerReads(c: AccountView)
    ensures ProgramOf(c.Abs().body) == c.owner
  {
  }
}
