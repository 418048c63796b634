/** The program's helpers on raw accounts (program/src/helpers): pointer reads, checks and the two lamport
    moves, each against what it means on the typed ledger. */
module Helpers {
  import opened Bytes
  import opened Types
  import opened Layout
  import opened Ledger
  import opened Accounts
  import opened Runtime
  import Spec = VaultProgram
  import Sysvar = InstructionsSysvar

  // ----- vault.rs -----

  function RequireSigner(c: AccountView): Result<()> { if !c.isSigner then Err(NotSigner) else Ok(()) }

  function AssertUserVaultIsOwnedByProgramAndCorrectLength(c: AccountView): (r: Result<()>)
    reads c
    ensures r.Ok? <==> c.Abs().body.Vault?
    ensures r.Ok? ==> c.owner == ID && |c.data| == LEN && c.Abs().body.v == RecordAt(c.data)
    ensures r == Err(UserVaultNotFound) <==> ProgramOf(c.Abs().body) != ID
    ensures r.Err? ==> r.error in {UserVaultNotFound, InvalidUserVaultAccountLength}
  {
    if c.owner != ID then Err(UserVaultNotFound)
    else if |c.data| != LEN then Err(InvalidUserVaultAccountLength)
    else Ok(())
  }

  function VerifyVaultOwnerAppReturnBump(c: AccountView, owner: Address, app: Address): (r: Result<byte>)
    requires |c.data| == LEN
    reads c
    ensures r == Spec.CheckOwnerApp(RecordAt(c.data), owner, app)
  {
    if owner != AddressAt(c.data, 8) then Err(UserVaultOwnerMismatch)
    else if app != AddressAt(c.data, 40) then Err(UserVaultAppAddressMismatch)
    else Ok(c.data[1])
  }

  function VerifyVaultOwnerAndAppAddress(c: AccountView, owner: Address, app: Address): (r: Result<()>)
    requires |c.data| == LEN
    reads c
    ensures r.Ok? <==> Spec.CheckOwnerApp(RecordAt(c.data), owner, app).Ok?
    ensures r.Err? ==> r.error == Spec.CheckOwnerApp(RecordAt(c.data), owner, app).error
  {
    if owner != AddressAt(c.data, 8) then Err(UserVaultOwnerMismatch)
    else if app != AddressAt(c.data, 40) then Err(UserVaultAppAddressMismatch)
    else Ok(())
  }

  /** Empty, System-owned, no lamports. */
  function AssertPdaUninitialized(c: AccountView): (r: Result<()>)
    reads c
    ensures var x := c.Abs();
            r == if x.body.Blob? && x.body.program == SYSTEM_ID && x.body.len == 0 && x.lamports == 0
                 then Ok(()) else Err(UserVaultAlreadyExists)
  {
    if c.owner != SYSTEM_ID then Err(UserVaultAlreadyExists)
    else if |c.data| != 0 || c.lamports != 0 then Err(UserVaultAlreadyExists)
    else Ok(())
  }

  function GetVaultAtaCount(c: AccountView): (n: u16)
    requires |c.data| == LEN
    reads c
    ensures n == RecordAt(c.data).ataCount
  {
    U16At(c.data, 2)
  }

  // ----- sysvar.rs -----

  /** The clock account, wherever it is passed, holds the runtime's bytes. */
  ghost predicate ClockShows(clock: AccountView, now: int)
    reads clock
  {
    clock.address == CLOCK_ID ==> |clock.data| >= 40 && I64At(clock.data, 32) == now
  }

  function RequireDelegateNotExpired(expires: u32, clock: AccountView, ghost now: int): (r: Result<()>)
    requires ClockShows(clock, now)
    reads clock
    ensures r == Spec.CheckNotExpired(expires, clock.address, now)
  {
    if clock.address != CLOCK_ID then Err(InvalidClockAccount)
    else
      var t :- Spec.UnixTimestampToU32(I64At(clock.data, 32));
      if t > expires then Err(ExpiredDelegate) else Ok(())
  }

  function VerifyDelegateAuthorityReturnBump(c: AccountView, owner: Address, app: Address, delegate: Address,
                                             clock: AccountView, ghost now: int): (r: Result<byte>)
    requires |c.data| == LEN && ClockShows(clock, now)
    reads c, clock
    ensures r == Spec.CheckDelegate(RecordAt(c.data), owner, app, delegate, clock.address, now)
  {
    if owner != AddressAt(c.data, 8) then Err(UserVaultOwnerMismatch)
    else if app != AddressAt(c.data, 40) then Err(UserVaultAppAddressMismatch)
    else if delegate != AddressAt(c.data, 72) then Err(InvalidUserVaultDelegate)
    else
      var _ :- RequireDelegateNotExpired(U32At(c.data, 4), clock, now);
      Ok(c.data[1])
  }

  function RentMinimumBalanceFromSysvar(rent: AccountView, len: nat, ghost env: Env): (r: Result<u64>)
    requires rent.address == RENT_ID ==> |rent.data| >= 8 && U64At(rent.data, 0) == env.rentPerByte
    reads rent
    ensures r == Spec.RentMinimum(env, rent.address, len)
  {
    if rent.address != RENT_ID then Err(InvalidRentAccount)
    else Ok((U64At(rent.data, 0) * (len + 128)) % 0x1_0000_0000_0000_0000)
  }

  lemma ClockIsTheRuntimes(bank: Bank, clock: AccountView)
    requires bank.Wired() && bank.Sysvars() && bank.Has(clock)
    ensures ClockShows(clock, bank.ctx.now)
  {
  }

  /** The pointer walk stays in the sysvar's bytes and decides as the transaction says. */
  method TopLevelIsApp(bank: Bank, sysvar: AccountView, app: AccountView) returns (r: Result<()>)
    requires bank.Wired() && bank.Sysvars() && bank.Has(sysvar)
    ensures r == Spec.CheckTopLevel(bank.ctx, sysvar.address, app.address)
  {
    if sysvar.address == INSTRUCTIONS_ID {
      Sysvar.ReaderInvertsSerializer(bank.instructions, bank.current, app.address);
    }
    r := Sysvar.RequireTopLevelInstructionIsApp(sysvar.address, sysvar.data, app.address).value;
  }

  // ----- token.rs -----

  predicate HasTokenBase(c: AccountView, program: AccountView)
    reads c
  {
    c.owner == program.address && |c.data| >= TOKEN_ACCT_LEN
  }

  function VaultAtaExists(c: AccountView, program: AccountView, wallet: Address, mint: Address): Result<bool>
    reads c
  {
    if !HasTokenBase(c, program) then Ok(false)
    else if c.data[TOKEN_ACCT_STATE_OFFSET] == 0 then Ok(false)
    else if AddressAt(c.data, TOKEN_ACCT_MINT_OFFSET) != mint then Err(MintMismatch)
    else if AddressAt(c.data, TOKEN_ACCT_OWNER_OFFSET) != wallet then Err(InvalidAta)
    else Ok(true)
  }

  function VerifyTokenAccountOwnerMint(c: AccountView, program: AccountView, owner: Address, mint: Address): Result<()>
    reads c
  {
    if !HasTokenBase(c, program) then Err(InvalidAta)
    else if AddressAt(c.data, TOKEN_ACCT_MINT_OFFSET) != mint then Err(MintMismatch)
    else if AddressAt(c.data, TOKEN_ACCT_OWNER_OFFSET) != owner then Err(InvalidAta)
    else if c.data[TOKEN_ACCT_STATE_OFFSET] == 0 then Err(InvalidAta)
    else Ok(())
  }

  function ReadTokenAccountBalanceForClose(c: AccountView, program: AccountView): Result<u64>
    reads c
  {
    if !HasTokenBase(c, program) then Err(InvalidAta)
    else if c.data[TOKEN_ACCT_STATE_OFFSET] == 0 then Err(InvalidAta)
    else Ok(U64At(c.data, TOKEN_ACCT_AMOUNT_OFFSET))
  }

  function ReadMintDecimals(c: AccountView): Result<byte>
    reads c
  {
    if |c.data| < SPL_MINT_BASE_LEN then Err(InvalidAta) else Ok(c.data[MINT_BASE_DECIMALS_OFFSET])
  }

  /** The token checks on raw bytes decide as on the typed ledger, whatever the program account. */
  lemma AtaExistsReads(l: Ledger, c: AccountView, program: AccountView, wallet: Address, mint: Address)
    requires Get(l, c.address) == c.Abs()
    ensures VaultAtaExists(c, program, wallet, mint) == Spec.VaultAtaExists(l, c.address, program.address, wallet, mint)
  {
    hide RecordAt;
    hide AddressAt;
    hide U64At;
  }

  lemma TokenAccountReads(l: Ledger, c: AccountView, program: AccountView, owner: Address, mint: Address)
    requires Get(l, c.address) == c.Abs()
    ensures VerifyTokenAccountOwnerMint(c, program, owner, mint)
            == Spec.VerifyTokenAccount(l, c.address, program.address, owner, mint)
  {
    hide RecordAt;
    hide AddressAt;
    hide U64At;
  }

  lemma BalanceReads(l: Ledger, c: AccountView, program: AccountView)
    requires Get(l, c.address) == c.Abs()
    ensures ReadTokenAccountBalanceForClose(c, program) == Spec.BalanceForClose(l, c.address, program.address)
  {
    hide RecordAt;
    hide AddressAt;
    hide U64At;
  }

  /** The decimals byte is the mint's where the account may be one, and the same accounts are too short. */
  lemma MintReads(l: Ledger, c: AccountView)
    requires Get(l, c.address) == c.Abs()
    ensures ReadMintDecimals(c).Ok? <==> Spec.ReadMintDecimals(l, c.address).Ok?
    ensures ReadMintDecimals(c).Err? ==> ReadMintDecimals(c) == Spec.ReadMintDecimals(l, c.address)
    ensures c.Abs().body.Blob? ==> ReadMintDecimals(c) == Spec.ReadMintDecimals(l, c.address)
  {
  }

  /** So the token program's verdict does not depend on which of the two decimals it is given. */
  lemma DecimalsDoNotMatter(l: Ledger, c: AccountView, program: Address, source: Address, destination: Address,
                            authority: Address, signs: bool, amount: u64)
    requires Get(l, c.address) == c.Abs() && ReadMintDecimals(c).Ok?
    ensures Spec.ReadMintDecimals(l, c.address).Ok?
    ensures TransferChecked(l, program, c.address, source, destination, authority, signs, amount,
                            ReadMintDecimals(c).value)
            == TransferChecked(l, program, c.address, source, destination, authority, signs, amount,
                               Spec.ReadMintDecimals(l, c.address).value)
  {
    MintReads(l, c);
  }

  // ----- util.rs -----

  /** Both balances are read, both new ones checked, and only then is either set. */
  method TransferLamportsFromUserVaultPda(bank: Bank, source: AccountView, destination: AccountView, lamports: u64)
    returns (r: Result<()>)
    requires bank.Wired() && bank.Has(source) && bank.Has(destination)
    modifies source, destination
    ensures bank.Agrees(r, TransferLamports(old(bank.View()), source.address, destination.address, lamports))
    ensures r.Err? ==> bank.View() == old(bank.View())
  {
    hide BodyOf;
    var srcBal, dstBal := source.lamports, destination.lamports;
    if lamports > srcBal {
      return Err(InsufficientFunds);
    }
    if dstBal + lamports > U64_MAX {
      return Err(ArithmeticOverflow);
    }
    bank.SetLamports(source, srcBal - lamports);
    bank.SetLamports(destination, dstBal + lamports);
    return Ok(());
  }

  /** `set_lamports(0)`, then `close`. */
  method Retire(bank: Bank, account: AccountView)
    requires bank.Wired() && bank.Has(account)
    modifies account
    ensures bank.View() == old(bank.View())[account.address := EMPTY]
  {
    hide BodyOf;
    UnusedReads([]);
    account.lamports := 0;
    account.Close();
    bank.Others(account);
  }

  method CloseProgramAccountLamportsTo(bank: Bank, account: AccountView, recipient: AccountView) returns (r: Result<()>)
    requires bank.Wired() && bank.Has(account) && bank.Has(recipient)
    modifies account, recipient
    ensures bank.Agrees(r, CloseProgramAccount(old(bank.View()), account.address, recipient.address))
    ensures r.Err? ==> bank.View() == old(bank.View())
  {
    hide BodyOf;
    var rentLamports := account.lamports;
    if recipient.lamports + rentLamports > U64_MAX {
      return Err(ArithmeticOverflow);
    }
    bank.SetLamports(recipient, recipient.lamports + rentLamports);
    Retire(bank, account);
    return Ok(());
  }

  // ----- Writes into the vault's bytes -----

  /** Deposit's and close-ATA's write of the count. */
  method WriteVaultAtaCount(bank: Bank, vault: AccountView, n: u16)
    requires bank.Wired() && bank.Has(vault) && vault.owner == ID && |vault.data| == LEN
    modifies vault`data
    ensures bank.View() == Spec.SetRecord(old(bank.View()), vault.address, old(RecordAt(vault.data)).(ataCount := n))
  {
    hide BodyOf;
    hide RecordAt;
    WriteAtaCount(vault.data, n);
    WriteVault(vault.data, ATA_COUNT_OFFSET, Le(n, 2));
    bank.Sees(vault);
    vault.Write(ATA_COUNT_OFFSET, Le(n, 2));
    bank.Others(vault);
  }

  lemma DelegateWrites(d: seq<byte>, delegate: Address, expires: u32)
    requires |d| == LEN
    ensures RecordAt(Splice(Splice(d, DELEGATE_OFFSET, Le(delegate, 32)), EXPIRES_OFFSET, Le(expires, 4)))
            == RecordAt(d).(delegate := delegate, delegateExpires := expires)
  {
    WriteAddress(d, DELEGATE_OFFSET, delegate);
    WriteExpires(Splice(d, DELEGATE_OFFSET, Le(delegate, 32)), expires);
  }

  /** Update's two writes. */
  method WriteVaultDelegate(bank: Bank, vault: AccountView, delegate: Address, expires: u32)
    requires bank.Wired() && bank.Has(vault) && vault.owner == ID && |vault.data| == LEN
    modifies vault`data
    ensures bank.View() == Spec.SetRecord(old(bank.View()), vault.address,
                                          old(RecordAt(vault.data)).(delegate := delegate, delegateExpires := expires))
  {
    hide BodyOf;
    hide RecordAt;
    DelegateWrites(vault.data, delegate, expires);
    bank.Sees(vault);
    WriteVault(Splice(vault.data, DELEGATE_OFFSET, Le(delegate, 32)), EXPIRES_OFFSET, Le(expires, 4));
    vault.Write(DELEGATE_OFFSET, Le(delegate, 32));
    vault.Write(EXPIRES_OFFSET, Le(expires, 4));
    bank.Others(vault);
  }

  /** The bytes create leaves, write by write. */
  function Initialised(bump: byte, expires: u32, owner: Address, app: Address, delegate: Address): (d: seq<byte>)
    ensures |d| == LEN
  {
    var d0: seq<byte> := seq(LEN, _ => 0);
    var d1 := Splice(Splice(d0, 0, [USER_VAULT_DISCRIMINATOR]), BUMP_OFFSET, [bump]);
    var d2 := Splice(Splice(d1, ATA_COUNT_OFFSET, Le(0, 2)), EXPIRES_OFFSET, Le(expires, 4));
    Splice(Splice(Splice(d2, OWNER_OFFSET, Le(owner, 32)), APP_OFFSET, Le(app, 32)), DELEGATE_OFFSET, Le(delegate, 32))
  }

  lemma InitialisedReads(bump: byte, expires: u32, owner: Address, app: Address, delegate: Address)
    ensures RecordAt(Initialised(bump, expires, owner, app, delegate))
            == VaultRecord(USER_VAULT_DISCRIMINATOR, bump, 0, expires, owner, app, delegate)
  {
    var d0: seq<byte> := seq(LEN, _ => 0);
    ZeroesAreBlank();
    WriteHeader(d0, 0, USER_VAULT_DISCRIMINATOR);
    var d1 := Splice(d0, 0, [USER_VAULT_DISCRIMINATOR]);
    WriteHeader(d1, BUMP_OFFSET, bump);
    var d2 := Splice(d1, BUMP_OFFSET, [bump]);
    WriteAtaCount(d2, 0);
    var d3 := Splice(d2, ATA_COUNT_OFFSET, Le(0, 2));
    WriteExpires(d3, expires);
    var d4 := Splice(d3, EXPIRES_OFFSET, Le(expires, 4));
    WriteAddress(d4, OWNER_OFFSET, owner);
    var d5 := Splice(d4, OWNER_OFFSET, Le(owner, 32));
    WriteAddress(d5, APP_OFFSET, app);
    WriteAddress(Splice(d5, APP_OFFSET, Le(app, 32)), DELEGATE_OFFSET, delegate);
  }

  /** Create's seven writes. */
  method InitialiseVault(bank: Bank, vault: AccountView, bump: byte, expires: u32, owner: Address, app: Address,
                         delegate: Address)
    requires bank.Wired() && bank.Has(vault) && vault.owner == ID && vault.data == seq(LEN, _ => 0)
    modifies vault`data
    ensures bank.View() == old(bank.View())[vault.address := Account(vault.lamports,
              Vault(VaultRecord(USER_VAULT_DISCRIMINATOR, bump, 0, expires, owner, app, delegate)))]
  {
    hide BodyOf;
    hide RecordAt;
    InitialisedReads(bump, expires, owner, app, delegate);
    VaultReads(Initialised(bump, expires, owner, app, delegate));
    vault.Write(0, [USER_VAULT_DISCRIMINATOR]);
    vault.Write(BUMP_OFFSET, [bump]);
    vault.Write(ATA_COUNT_OFFSET, Le(0, 2));
    vault.Write(EXPIRES_OFFSET, Le(expires, 4));
    vault.Write(OWNER_OFFSET, Le(owner, 32));
    vault.Write(APP_OFFSET, Le(app, 32));
    vault.Write(DELEGATE_OFFSET, Le(delegate, 32));
    assert vault.data == Initialised(bump, expires, owner, app, delegate);
    bank.Others(vault);
  }

  /** The System call of create. */
  method CreateVaultAccount(bank: Bank, owner: AccountView, vault: AccountView, lamports: u64, seeds: Seeds)
    returns (r: Result<()>)
    requires bank.Wired() && bank.Has(owner) && bank.Has(vault)
    modifies owner, vault
    ensures bank.Agrees(r, CreateAccount(old(bank.View()), owner.address, owner.isSigner, vault.address,
                                         bank.Signs(vault, Some(seeds)), lamports, Vault(BLANK)))
    ensures r.Ok? ==> vault.owner == ID && vault.data == seq(LEN, _ => 0) && vault.lamports == lamports
  {
    hide BodyOf;
    hide RecordAt;
    ZeroesAreBlank();
    VaultReads(seq(LEN, _ => 0));
    r := bank.CreateAccount(owner, vault, lamports, LEN, ID, Some(seeds));
  }

  /** Decimals read from the mint, then the token program's transfer. */
  method TransferAtMintDecimals(bank: Bank, program: AccountView, mint: AccountView, from: AccountView, to: AccountView,
                                authority: AccountView, amount: u64, seeds: Seeds) returns (r: Result<()>)
    requires bank.Wired() && bank.Has(mint) && bank.Has(from) && bank.Has(to)
    modifies from, to
    ensures bank.Agrees(r, SpecTransfer(old(bank.View()), program.address, mint.address, from.address, to.address,
                                        authority.address, bank.Signs(authority, Some(seeds)), amount))
  {
    hide BodyOf;
    bank.Sees(mint);
    MintReads(bank.View(), mint);
    var decimals :- ReadMintDecimals(mint);
    DecimalsDoNotMatter(bank.View(), mint, program.address, from.address, to.address, authority.address,
                        bank.Signs(authority, Some(seeds)), amount);
    r := bank.TransferChecked(program, mint, from, to, authority, amount, Some(seeds), decimals);
  }

  function SpecTransfer(l: Ledger, program: Address, mint: Address, from: Address, to: Address, authority: Address,
                        signs: bool, amount: u64): Result<Ledger> {
    var decimals :- Spec.ReadMintDecimals(l, mint);
    TransferChecked(l, program, mint, from, to, authority, signs, amount, decimals)
  }
}
