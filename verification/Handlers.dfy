/** The ten handlers as the program runs them (program/src/instructions): checks with early returns, pointer
    writes and calls, over account objects that several slots may share. Each returns the result or the error
    of its typed specification and, on success, leaves every account as that says; after an error the
    runtime rolls the accounts back. */
module Handlers {
  import opened Bytes
  import opened Types
  import opened Layout
  import opened Ledger
  import opened Accounts
  import opened Runtime
  import opened Helpers
  import Spec = VaultProgram
  import Loop = AppIxLoop
  import Runs
  import Books

  function Addresses(accounts: seq<AccountView>): seq<Address> { Map(accounts, (c: AccountView) => c.address) }

  /** The runtime has set up the transaction's accounts, and passes some of them. */
  ghost predicate Ready(bank: Bank, accounts: seq<AccountView>)
    reads bank.cells.Values
  {
    bank.Wired() && bank.Sysvars() && forall i :: 0 <= i < |accounts| ==> bank.Has(accounts[i])
  }

  method CreateUserVault(bank: Bank, accounts: seq<AccountView>, data: seq<byte>) returns (r: Result<()>)
    requires Ready(bank, accounts)
    modifies bank.cells.Values
    ensures bank.Agrees(r, Spec.CreateUserVault(bank.env, bank.ctx, old(bank.View()), Addresses(accounts), data))
  {
    hide BodyOf;
    hide RecordAt;
    hide FindPda;
    hide RentMinimumBalanceFromSysvar;
    hide Spec.RentMinimum;
    hide AssertPdaUninitialized;
    if |accounts| != 6 {
      return Err(NotEnoughAccountKeys);
    }
    var owner, userVaultPda, appAddress := accounts[0], accounts[1], accounts[2];
    var delegateAccount, rentSysvar, systemProgram := accounts[3], accounts[4], accounts[5];
    bank.Sees(owner);
    bank.Sees(userVaultPda);
    var _ :- RequireSigner(owner);
    if systemProgram.address != SYSTEM_ID {
      return Err(IncorrectProgramId);
    }
    var expected :- FindPda(bank.env, owner.address, appAddress.address);
    var (expectedPda, bump) := expected;
    if userVaultPda.address != expectedPda {
      return Err(UserVaultPdaMismatch);
    }
    var _ :- AssertPdaUninitialized(userVaultPda);
    var expires :- Spec.ParseU32(data);
    var lamports :- RentMinimumBalanceFromSysvar(rentSysvar, LEN, bank.env);
    var _ :- CreateVaultAccount(bank, owner, userVaultPda, lamports, Seeds(owner.address, appAddress.address, bump));
    InitialiseVault(bank, userVaultPda, bump, expires, owner.address, appAddress.address, delegateAccount.address);
    return Ok(());
  }

  method DepositUserVault(bank: Bank, accounts: seq<AccountView>, data: seq<byte>) returns (r: Result<()>)
    requires Ready(bank, accounts)
    modifies bank.cells.Values
    ensures bank.Agrees(r, Spec.DepositUserVault(bank.env, bank.ctx, old(bank.View()), Addresses(accounts), data))
  {
    hide BodyOf;
    hide RecordAt;
    var amount :- Spec.ParseU64(data);
    if amount == 0 {
      return Err(InvalidInstructionData);
    }
    if |accounts| != 9 {
      return Err(NotEnoughAccountKeys);
    }
    var owner, userVaultPda, userVaultAta, appAddress := accounts[0], accounts[1], accounts[2], accounts[3];
    var sourceAta, mint, systemProgram := accounts[4], accounts[5], accounts[6];
    var tokenProgram, ataProgram := accounts[7], accounts[8];
    bank.Sees(owner);
    bank.Sees(userVaultPda);
    bank.Sees(userVaultAta);
    bank.Sees(mint);
    ghost var l := bank.View();
    var _ :- RequireSigner(owner);
    if ataProgram.address != ATA_PROGRAM_ID {
      return Err(IncorrectProgramId);
    }
    var _ :- AssertUserVaultIsOwnedByProgramAndCorrectLength(userVaultPda);
    var _ :- VerifyVaultOwnerAndAppAddress(userVaultPda, owner.address, appAddress.address);
    MintReads(l, mint);
    var decimals :- ReadMintDecimals(mint);
    AtaExistsReads(l, userVaultAta, tokenProgram, userVaultPda.address, mint.address);
    var ataExists :- VaultAtaExists(userVaultAta, tokenProgram, userVaultPda.address, mint.address);
    if ataExists {
      DecimalsDoNotMatter(l, mint, tokenProgram.address, sourceAta.address, userVaultAta.address, owner.address, true,
                          amount);
    } else {
      var _ :- OpenVaultAta(bank, owner, userVaultPda, userVaultAta, mint, systemProgram, tokenProgram);
    }
    r := bank.TransferChecked(tokenProgram, mint, sourceAta, userVaultAta, owner, amount, None, decimals);
  }

  /** First deposit of a mint: create the account, then count it. */
  method OpenVaultAta(bank: Bank, owner: AccountView, vault: AccountView, ata: AccountView, mint: AccountView,
                      system: AccountView, program: AccountView) returns (r: Result<()>)
    requires bank.Wired() && bank.Has(owner) && bank.Has(vault) && bank.Has(ata) && bank.Has(mint)
    requires owner.isSigner && vault.owner == ID && |vault.data| == LEN
    modifies bank.cells.Values
    ensures bank.Agrees(r, Spec.OpenVaultAta(bank.env, old(bank.View()), owner.address, vault.address, ata.address,
                                             program.address, mint.address, system.address,
                                             old(RecordAt(vault.data))))
    ensures r.Ok? ==> old(mint.Abs().body).Blob?
  {
    hide BodyOf;
    hide RecordAt;
    VaultReads(vault.data);
    bank.Sees(owner);
    bank.Sees(vault);
    bank.Sees(ata);
    bank.Sees(mint);
    var _ :- bank.CreateAta(owner, ata, vault, mint, program, system);
    var count := GetVaultAtaCount(vault);
    if count == 0xffff {
      return Err(ArithmeticOverflow);
    }
    WriteVaultAtaCount(bank, vault, count + 1);
    return Ok(());
  }

  method UpdateUserVaultDelegate(bank: Bank, accounts: seq<AccountView>, data: seq<byte>) returns (r: Result<()>)
    requires Ready(bank, accounts)
    modifies bank.cells.Values
    ensures bank.Agrees(r, Spec.UpdateUserVaultDelegate(bank.ctx, old(bank.View()), Addresses(accounts), data))
  {
    hide BodyOf;
    hide RecordAt;
    if |accounts| != 4 {
      return Err(NotEnoughAccountKeys);
    }
    var owner, userVaultPda, appAddress, delegateAccount := accounts[0], accounts[1], accounts[2], accounts[3];
    bank.Sees(owner);
    bank.Sees(userVaultPda);
    var _ :- RequireSigner(owner);
    var expires :- Spec.ParseU32(data);
    var _ :- AssertUserVaultIsOwnedByProgramAndCorrectLength(userVaultPda);
    var _ :- VerifyVaultOwnerAndAppAddress(userVaultPda, owner.address, appAddress.address);
    WriteVaultDelegate(bank, userVaultPda, delegateAccount.address, expires);
    return Ok(());
  }

  method WithdrawUserVault(bank: Bank, accounts: seq<AccountView>, data: seq<byte>) returns (r: Result<()>)
    requires Ready(bank, accounts)
    modifies bank.cells.Values
    ensures bank.Agrees(r, Spec.WithdrawUserVault(bank.env, bank.ctx, old(bank.View()), Addresses(accounts), data))
  {
    hide BodyOf;
    hide RecordAt;
    var amount :- Spec.ParseU64(data);
    if amount == 0 {
      return Err(InvalidInstructionData);
    }
    if |accounts| != 7 {
      return Err(NotEnoughAccountKeys);
    }
    var owner, userVaultPda, userVaultAta, appAddress := accounts[0], accounts[1], accounts[2], accounts[3];
    var destAta, mint, tokenProgram := accounts[4], accounts[5], accounts[6];
    bank.Sees(owner);
    bank.Sees(userVaultPda);
    bank.Sees(destAta);
    ghost var l := bank.View();
    var _ :- RequireSigner(owner);
    var _ :- AssertUserVaultIsOwnedByProgramAndCorrectLength(userVaultPda);
    TokenAccountReads(l, destAta, tokenProgram, owner.address, mint.address);
    var _ :- VerifyTokenAccountOwnerMint(destAta, tokenProgram, owner.address, mint.address);
    var vaultBump :- VerifyVaultOwnerAppReturnBump(userVaultPda, owner.address, appAddress.address);
    var seeds := Seeds(owner.address, appAddress.address, vaultBump);
    r := TransferAtMintDecimals(bank, tokenProgram, mint, userVaultAta, destAta, userVaultPda, amount, seeds);
  }

  method WithdrawUserVaultNative(bank: Bank, accounts: seq<AccountView>, data: seq<byte>) returns (r: Result<()>)
    requires Ready(bank, accounts)
    modifies bank.cells.Values
    ensures bank.Agrees(r, Spec.WithdrawUserVaultNative(bank.ctx, old(bank.View()), Addresses(accounts), data))
  {
    hide BodyOf;
    hide RecordAt;
    var amount :- Spec.ParseU64(data);
    if amount == 0 {
      return Err(InvalidInstructionData);
    }
    if |accounts| != 3 {
      return Err(NotEnoughAccountKeys);
    }
    var owner, userVaultPda, appAddress := accounts[0], accounts[1], accounts[2];
    bank.Sees(owner);
    bank.Sees(userVaultPda);
    var _ :- RequireSigner(owner);
    var _ :- AssertUserVaultIsOwnedByProgramAndCorrectLength(userVaultPda);
    var _ :- VerifyVaultOwnerAndAppAddress(userVaultPda, owner.address, appAddress.address);
    r := TransferLamportsFromUserVaultPda(bank, userVaultPda, owner, amount);
  }

  /** The instruction AppIx hands to the app. */
  datatype AppCall = AppCall(program: Address, metas: seq<Loop.Meta>, rows: seq<Loop.CpiAccount>, data: seq<byte>,
                             seeds: Seeds)

  function Views(accounts: seq<AccountView>): seq<Loop.View> {
    Map(accounts, (c: AccountView) => Loop.View(c.address, c.isSigner, c.isWritable))
  }

  /** The call an accepted AppIx makes: the app passed, the fused metas and rows of the inner accounts, its own
      data, and the seeds that derive the vault passed. */
  ghost function CallOf(l: Ledger, accounts: seq<AccountView>, data: seq<byte>): AppCall
    requires |accounts| >= 5 && IsVault(l, accounts[2].address)
  {
    AppCall(accounts[3].address, Loop.Metas(Views(accounts[5..]), accounts[2].address), Loop.Rows(Views(accounts[5..])),
            data, Seeds(accounts[1].address, accounts[3].address, Get(l, accounts[2].address).body.v.bump))
  }

  /** The call, told from the vault's record and the accounts passed: the app the vault stores gets the data, the
      inner accounts in order, each as it came but that the vault may sign and be written, and the signature of
      the stored owner, app and bump. */
  ghost predicate CallsTheApp(l: Ledger, accounts: seq<AccountView>, data: seq<byte>, call: AppCall) {
    && |accounts| >= 5 && IsVault(l, accounts[2].address)
    && var v, inner := Get(l, accounts[2].address).body.v, accounts[5..];
       && call.program == v.app && call.data == data && call.seeds == Seeds(v.owner, v.app, v.bump)
       && |call.metas| == |inner| == |call.rows|
       && forall i :: 0 <= i < |inner| ==>
            var a, m := inner[i], call.metas[i];
            && m.address == a.address && call.rows[i].account == Loop.View(a.address, a.isSigner, a.isWritable)
            && (m.isSigner <==> a.isSigner || a.address == accounts[2].address)
            && (m.isWritable <==> a.isWritable || a.address == accounts[2].address)
  }

  lemma AcceptedCall(ctx: Spec.Ctx, l: Ledger, accounts: seq<AccountView>, data: seq<byte>)
    requires Spec.AppIx(ctx, l, Addresses(accounts)).Ok?
    ensures |accounts| >= 5 && IsVault(l, accounts[2].address)
    ensures CallsTheApp(l, accounts, data, CallOf(l, accounts, data))
  {
    var inner, vault := Views(accounts[5..]), accounts[2].address;
    forall i | 0 <= i < |inner|
      ensures var m, a := Loop.Metas(inner, vault)[i], inner[i];
              && m.address == a.address && Loop.Rows(inner)[i].account == a
              && (m.isSigner <==> a.isSigner || a.address == vault)
              && (m.isWritable <==> a.isWritable || a.address == vault)
    {
      Loop.OnlyTheVaultGainsRights(inner, vault, i);
      Loop.RowsAreTheAccounts(inner, i);
    }
  }

  /** In every state that instructions reach, the seeds of the call derive the vault passed. */
  lemma CallSigns(env: Env, ctx: Spec.Ctx, l: Ledger, accounts: seq<AccountView>, data: seq<byte>)
    requires Runs.Fits(env, l) && Books.Signers(env, ctx) && Spec.AppIx(ctx, l, Addresses(accounts)).Ok?
    ensures |accounts| >= 5 && IsVault(l, accounts[2].address)
    ensures var seeds := CallOf(l, accounts, data).seeds;
            env.createPda(seeds.owner, seeds.app, seeds.bump) == Some(accounts[2].address)
  {
    Runs.FitVault(env, l, accounts[2].address, ctx.signers);
  }

  /** Changes no account itself; what the app then does with its metas is the runtime's affair. The seeds it
      signs with are those that derive the vault it passed. */
  method AppIx(bank: Bank, accounts: seq<AccountView>, data: seq<byte>)
    returns (r: Result<()>, call: Option<AppCall>)
    requires Ready(bank, accounts)
    ensures bank.Agrees(r, Spec.AppIx(bank.ctx, bank.View(), Addresses(accounts)))
    ensures r.Ok? <==> call.Some?
    ensures r.Ok? ==> |accounts| >= 5 && IsVault(bank.View(), accounts[2].address)
    ensures r.Ok? ==> call == Some(CallOf(bank.View(), accounts, data))
    ensures r.Ok? ==> CallsTheApp(bank.View(), accounts, data, call.value)
  {
    hide BodyOf;
    hide RecordAt;
    hide VerifyDelegateAuthorityReturnBump;
    hide Loop.Metas;
    hide Loop.Rows;
    hide CallsTheApp;
    call := None;
    if Spec.AppIx(bank.ctx, bank.View(), Addresses(accounts)).Ok? {
      AcceptedCall(bank.ctx, bank.View(), accounts, data);
    }
    if |accounts| < 5 {
      return Err(NotEnoughAccountKeys), None;
    }
    var delegate, owner, userVaultPda, appAddress := accounts[0], accounts[1], accounts[2], accounts[3];
    var clockSysvar, innerAccounts := accounts[4], accounts[5..];
    bank.Sees(delegate);
    bank.Sees(userVaultPda);
    var _ :- RequireSigner(delegate);
    var _ :- AssertUserVaultIsOwnedByProgramAndCorrectLength(userVaultPda);
    ClockIsTheRuntimes(bank, clockSysvar);
    var bump :- VerifyDelegateAuthorityReturnBump(userVaultPda, owner.address, appAddress.address, delegate.address,
                                                  clockSysvar, bank.ctx.now);
    if |innerAccounts| > Spec.MAX_STATIC_CPI_ACCOUNTS {
      return Err(InvalidArgument), None;
    }
    var metas := new Option<Loop.Meta>[Spec.MAX_STATIC_CPI_ACCOUNTS](_ => None);
    var ixMetas, rows := Loop.InvokeAppIxFused(Views(innerAccounts), userVaultPda.address, metas);
    var seeds := Seeds(owner.address, appAddress.address, bump);
    return Ok(()), Some(AppCall(appAddress.address, ixMetas, rows, data, seeds));
  }

  method CpiEntry(bank: Bank, accounts: seq<AccountView>, data: seq<byte>) returns (r: Result<()>)
    requires Ready(bank, accounts)
    modifies bank.cells.Values
    ensures bank.Agrees(r, Spec.CpiEntry(bank.env, bank.ctx, old(bank.View()), Addresses(accounts), data))
  {
    hide BodyOf;
    hide RecordAt;
    hide VerifyDelegateAuthorityReturnBump;
    hide Spec.CheckDelegate;
    hide Spec.CheckTopLevel;
    var amounts :- Spec.ParseTwoU64(data);
    var (amountNative, amount) := amounts;
    if amount == 0 && amountNative == 0 {
      return Err(InvalidInstructionData);
    }
    if |accounts| != 11 {
      return Err(NotEnoughAccountKeys);
    }
    var delegate, owner, userVaultPda, userVaultAta := accounts[0], accounts[1], accounts[2], accounts[3];
    var appAddress, lamportsDest, destAta := accounts[4], accounts[5], accounts[6];
    var mint, tokenProgram, instructionsSysvar, clockSysvar := accounts[7], accounts[8], accounts[9], accounts[10];
    bank.Sees(delegate);
    bank.Sees(userVaultPda);
    var _ :- TopLevelIsApp(bank, instructionsSysvar, appAddress);
    var _ :- RequireSigner(delegate);
    var _ :- AssertUserVaultIsOwnedByProgramAndCorrectLength(userVaultPda);
    ClockIsTheRuntimes(bank, clockSysvar);
    var vaultBump :- VerifyDelegateAuthorityReturnBump(userVaultPda, owner.address, appAddress.address,
                                                       delegate.address, clockSysvar, bank.ctx.now);
    r := Spend(bank, userVaultPda, userVaultAta, lamportsDest, destAta, mint, tokenProgram, amountNative, amount,
               Seeds(owner.address, appAddress.address, vaultBump));
  }

  /** The two optional halves of CpiEntry. */
  method Spend(bank: Bank, vault: AccountView, ata: AccountView, lamportsDest: AccountView, destAta: AccountView,
               mint: AccountView, program: AccountView, amountNative: u64, amount: u64, seeds: Seeds)
    returns (r: Result<()>)
    requires bank.Wired() && bank.Has(vault) && bank.Has(ata) && bank.Has(lamportsDest) && bank.Has(destAta)
    requires bank.Has(mint)
    modifies bank.cells.Values
    ensures bank.Agrees(r, SpecSpend(old(bank.View()), vault.address, ata.address, lamportsDest.address,
                                     destAta.address, mint.address, program.address,
                                     bank.Signs(vault, Some(seeds)), amountNative, amount))
  {
    hide BodyOf;
    if amountNative > 0 {
      var _ :- TransferLamportsFromUserVaultPda(bank, vault, lamportsDest, amountNative);
    }
    if amount > 0 {
      var _ :- TransferAtMintDecimals(bank, program, mint, ata, destAta, vault, amount, seeds);
    }
    return Ok(());
  }

  function SpecSpend(l: Ledger, vault: Address, ata: Address, lamportsDest: Address, destAta: Address, mint: Address,
                     program: Address, signs: bool, amountNative: u64, amount: u64): Result<Ledger> {
    var l1 :- if amountNative > 0 then TransferLamports(l, vault, lamportsDest, amountNative) else Ok(l);
    if amount > 0 then SpecTransfer(l1, program, mint, ata, destAta, vault, signs, amount) else Ok(l1)
  }

  method CpiEntryNative(bank: Bank, accounts: seq<AccountView>, data: seq<byte>) returns (r: Result<()>)
    requires Ready(bank, accounts)
    modifies bank.cells.Values
    ensures bank.Agrees(r, Spec.CpiEntryNative(bank.ctx, old(bank.View()), Addresses(accounts), data))
  {
    hide BodyOf;
    hide RecordAt;
    hide VerifyDelegateAuthorityReturnBump;
    hide Spec.CheckDelegate;
    hide Spec.CheckTopLevel;
    var amountNative :- Spec.ParseU64(data);
    if amountNative == 0 {
      return Err(InvalidInstructionData);
    }
    if |accounts| != 7 {
      return Err(NotEnoughAccountKeys);
    }
    var delegate, owner, userVaultPda, appAddress := accounts[0], accounts[1], accounts[2], accounts[3];
    var lamportsDest, instructionsSysvar, clockSysvar := accounts[4], accounts[5], accounts[6];
    bank.Sees(delegate);
    bank.Sees(userVaultPda);
    var _ :- TopLevelIsApp(bank, instructionsSysvar, appAddress);
    var _ :- RequireSigner(delegate);
    var _ :- AssertUserVaultIsOwnedByProgramAndCorrectLength(userVaultPda);
    ClockIsTheRuntimes(bank, clockSysvar);
    var _ :- VerifyDelegateAuthorityReturnBump(userVaultPda, owner.address, appAddress.address, delegate.address,
                                               clockSysvar, bank.ctx.now);
    r := TransferLamportsFromUserVaultPda(bank, userVaultPda, lamportsDest, amountNative);
  }

  method CloseVaultAta(bank: Bank, accounts: seq<AccountView>) returns (r: Result<()>)
    requires Ready(bank, accounts)
    modifies bank.cells.Values
    ensures bank.Agrees(r, Spec.CloseVaultAta(bank.env, bank.ctx, old(bank.View()), Addresses(accounts)))
  {
    hide BodyOf;
    hide RecordAt;
    hide VerifyVaultOwnerAppReturnBump;
    hide ReadTokenAccountBalanceForClose;
    if |accounts| != 7 {
      return Err(NotEnoughAccountKeys);
    }
    var owner, userVaultPda, appAddress, userVaultAta := accounts[0], accounts[1], accounts[2], accounts[3];
    var destination, tokenProgram := accounts[4], accounts[6];
    bank.Sees(owner);
    bank.Sees(userVaultPda);
    bank.Sees(userVaultAta);
    ghost var l := bank.View();
    var _ :- RequireSigner(owner);
    var _ :- AssertUserVaultIsOwnedByProgramAndCorrectLength(userVaultPda);
    var vaultBump :- VerifyVaultOwnerAppReturnBump(userVaultPda, owner.address, appAddress.address);
    var ataCount := GetVaultAtaCount(userVaultPda);
    if ataCount == 0 {
      return Err(UserVaultAtaCountZero);
    }
    BalanceReads(l, userVaultAta, tokenProgram);
    var balance :- ReadTokenAccountBalanceForClose(userVaultAta, tokenProgram);
    if balance != 0 {
      return Err(UserVaultAtaNotEmpty);
    }
    r := ShutVaultAta(bank, userVaultPda, userVaultAta, destination, tokenProgram,
                      Seeds(owner.address, appAddress.address, vaultBump));
  }

  /** Close the empty account, then count it out. */
  method ShutVaultAta(bank: Bank, vault: AccountView, ata: AccountView, destination: AccountView,
                      program: AccountView, seeds: Seeds) returns (r: Result<()>)
    requires bank.Wired() && bank.Has(vault) && bank.Has(ata) && bank.Has(destination)
    requires vault.owner == ID && |vault.data| == LEN && RecordAt(vault.data).ataCount > 0
    modifies bank.cells.Values
    ensures bank.Agrees(r, SpecShut(old(bank.View()), vault.address, ata.address, destination.address, program.address,
                                    bank.Signs(vault, Some(seeds)), old(RecordAt(vault.data))))
  {
    hide BodyOf;
    hide RecordAt;
    hide CloseToken;
    VaultReads(vault.data);
    bank.Sees(vault);
    ShutKeepsVault(bank.View(), vault.address, ata.address, destination.address, program.address,
                   bank.Signs(vault, Some(seeds)));
    var ataCount := GetVaultAtaCount(vault);
    var _ :- bank.CloseAccount(program, ata, destination, vault, Some(seeds));
    assert vault.owner == ID && vault.data == old(vault.data);
    WriteVaultAtaCount(bank, vault, ataCount - 1);
    return Ok(());
  }

  lemma ShutKeepsVault(l: Ledger, vault: Address, ata: Address, destination: Address, program: Address, signs: bool)
    requires IsVault(l, vault)
    ensures CloseToken(l, program, ata, destination, vault, signs).Ok? ==> vault != ata
  {
  }

  function SpecShut(l: Ledger, vault: Address, ata: Address, destination: Address, program: Address, signs: bool,
                    v: VaultRecord): Result<Ledger>
    requires v.ataCount > 0
  {
    var l1 :- CloseToken(l, program, ata, destination, vault, signs);
    Ok(Spec.SetRecord(l1, vault, v.(ataCount := v.ataCount - 1)))
  }

  method CloseUserVault(bank: Bank, accounts: seq<AccountView>) returns (r: Result<()>)
    requires Ready(bank, accounts)
    modifies bank.cells.Values
    ensures bank.Agrees(r, Spec.CloseUserVault(bank.ctx, old(bank.View()), Addresses(accounts)))
  {
    hide BodyOf;
    hide RecordAt;
    if |accounts| != 3 {
      return Err(NotEnoughAccountKeys);
    }
    var owner, userVaultPda, appAddress := accounts[0], accounts[1], accounts[2];
    bank.Sees(owner);
    bank.Sees(userVaultPda);
    var _ :- RequireSigner(owner);
    var _ :- AssertUserVaultIsOwnedByProgramAndCorrectLength(userVaultPda);
    var _ :- VerifyVaultOwnerAndAppAddress(userVaultPda, owner.address, appAddress.address);
    if GetVaultAtaCount(userVaultPda) != 0 {
      return Err(UserVaultHasOpenAtas);
    }
    r := CloseProgramAccountLamportsTo(bank, userVaultPda, owner);
  }

  /** `process_instruction` and `dispatch`. */
  method ProcessInstruction(bank: Bank, accounts: seq<AccountView>, ix: seq<byte>)
    returns (r: Result<()>, call: Option<AppCall>)
    requires Ready(bank, accounts)
    modifies bank.cells.Values
    ensures bank.Agrees(r, Spec.Process(bank.env, bank.ctx, old(bank.View()), Addresses(accounts), ix))
    ensures call.Some? <==> r.Ok? && ix != [] && ix[0] == 5
    ensures call.Some? ==> |accounts| >= 5 && IsVault(old(bank.View()), accounts[2].address)
    ensures call.Some? ==> call == Some(CallOf(old(bank.View()), accounts, ix[1..]))
    ensures call.Some? ==> CallsTheApp(old(bank.View()), accounts, ix[1..], call.value)
  {
    call := None;
    if ix == [] {
      return Err(InvalidInstructionData), None;
    }
    var data := ix[1..];
    match ix[0]
    case 0 => r := CreateUserVault(bank, accounts, data);
    case 1 => r := DepositUserVault(bank, accounts, data);
    case 2 => r := UpdateUserVaultDelegate(bank, accounts, data);
    case 3 => r := WithdrawUserVault(bank, accounts, data);
    case 4 => r := WithdrawUserVaultNative(bank, accounts, data);
    case 5 => r, call := AppIx(bank, accounts, data);
    case 6 => r := CpiEntry(bank, accounts, data);
    case 7 => r := CpiEntryNative(bank, accounts, data);
    case 8 => r := CloseVaultAta(bank, accounts);
    case 9 => r := CloseUserVault(bank, accounts);
    case _ => r := Err(InvalidInstructionData);
  }
}
