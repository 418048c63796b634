/** What each of the ten instructions does to the typed ledger, check by check and error by error
    (program/src/instructions). `slots` are the addresses of the accounts passed, in order. */
module VaultProgram {
  import opened Bytes
  import opened Types
  import opened Layout
  import opened Ledger

  /** What an instruction sees of its transaction: who signed, the clock, and the program id of the
      top-level instruction now running. */
  datatype Ctx = Ctx(signers: set<Address>, now: int, top: Address)

  const MAX_STATIC_CPI_ACCOUNTS: nat := 64

  // ----- Parsers (helpers/util.rs) -----

  function ParseU64(data: seq<byte>): Result<u64> {
    if |data| != 8 then Err(InvalidInstructionData) else Ok(U64At(data, 0))
  }

  function ParseTwoU64(data: seq<byte>): Result<(u64, u64)> {
    if |data| != 16 then Err(InvalidInstructionData) else Ok((U64At(data, 0), U64At(data, 8)))
  }

  function ParseU32(data: seq<byte>): Result<u32> {
    if |data| != 4 then Err(InvalidInstructionData) else Ok(U32At(data, 0))
  }

  // ----- Vault checks (helpers/vault.rs, helpers/sysvar.rs) -----

  function LoadVault(l: Ledger, a: Address): Result<VaultRecord> {
    match Get(l, a).body
    case Vault(v) => Ok(v)
    case b => Err(if ProgramOf(b) == ID then InvalidUserVaultAccountLength else UserVaultNotFound)
  }

  /** Owner and app checks; the stored bump. */
  function CheckOwnerApp(v: VaultRecord, owner: Address, app: Address): Result<byte> {
    var _ :- Require(owner == v.owner, UserVaultOwnerMismatch);
    var _ :- Require(app == v.app, UserVaultAppAddressMismatch);
    Ok(v.bump)
  }

  function UnixTimestampToU32(ts: int): Result<u32> {
    if ts <= 0 || ts > U32_MAX then Err(InvalidUnixTimestamp) else Ok(ts)
  }

  function CheckNotExpired(expires: u32, clock: Address, now: int): Result<()> {
    var _ :- Require(clock == CLOCK_ID, InvalidClockAccount);
    var t :- UnixTimestampToU32(now);
    Require(t <= expires, ExpiredDelegate)
  }

  function CheckDelegate(v: VaultRecord, owner: Address, app: Address, delegate: Address,
                         clock: Address, now: int): Result<byte> {
    var bump :- CheckOwnerApp(v, owner, app);
    var _ :- Require(delegate == v.delegate, InvalidUserVaultDelegate);
    var _ :- CheckNotExpired(v.delegateExpires, clock, now);
    Ok(bump)
  }

  function CheckTopLevel(ctx: Ctx, sysvar: Address, app: Address): Result<()> {
    var _ :- Require(sysvar == INSTRUCTIONS_ID, UnsupportedSysvar);
    Require(ctx.top == app, UnauthorizedCpiCaller)
  }

  /** Rent multiplication as compiled for release: it wraps at 64 bits. */
  function RentMinimum(env: Env, rent: Address, len: nat): Result<u64> {
    var _ :- Require(rent == RENT_ID, InvalidRentAccount);
    Ok((env.rentPerByte * (len + 128)) % 0x1_0000_0000_0000_0000)
  }

  // ----- Token checks (helpers/token.rs) -----

  /** Byte 44, where a mint keeps its decimals; what it is in other accounts does not matter, because
      the token program then refuses the transfer. */
  function ReadMintDecimals(l: Ledger, mint: Address): Result<byte> {
    match Get(l, mint).body
    case Blob(_, len, raw) => if len < 82 then Err(InvalidAta) else Ok(raw.decimals)
    case _ => Ok(0)
  }

  /** What the raw token reads find in an account of the given program, if it is long enough. */
  function TokenBase(l: Ledger, a: Address, program: Address): Option<Raw> {
    match Get(l, a).body
    case Token(t) => if t.program == program then Some(Raw(t.mint, t.authority, t.amount, 1, 0)) else None
    case Blob(p, len, raw) => if p == program && len >= 165 then Some(raw) else None
    case Vault(_) => None
  }

  function VaultAtaExists(l: Ledger, a: Address, program: Address, wallet: Address, mint: Address): Result<bool> {
    match TokenBase(l, a, program)
    case None => Ok(false)
    case Some(t) =>
      if t.state == 0 then Ok(false)
      else
        var _ :- Require(t.mint == mint, MintMismatch);
        var _ :- Require(t.wallet == wallet, InvalidAta);
        Ok(true)
  }

  function VerifyTokenAccount(l: Ledger, a: Address, program: Address, owner: Address, mint: Address): Result<()> {
    match TokenBase(l, a, program)
    case None => Err(InvalidAta)
    case Some(t) =>
      var _ :- Require(t.mint == mint, MintMismatch);
      var _ :- Require(t.wallet == owner, InvalidAta);
      Require(t.state != 0, InvalidAta)
  }

  function BalanceForClose(l: Ledger, a: Address, program: Address): Result<u64> {
    match TokenBase(l, a, program)
    case None => Err(InvalidAta)
    case Some(t) =>
      var _ :- Require(t.state != 0, InvalidAta);
      Ok(t.amount)
  }

  // ----- Handlers -----

  function CreateUserVault(env: Env, ctx: Ctx, l: Ledger, slots: seq<Address>, data: seq<byte>): Result<Ledger> {
    var _ :- Require(|slots| == 6, NotEnoughAccountKeys);
    var owner, vault, app, delegate, rent, system := slots[0], slots[1], slots[2], slots[3], slots[4], slots[5];
    var _ :- Require(owner in ctx.signers, NotSigner);
    var _ :- Require(system == SYSTEM_ID, IncorrectProgramId);
    var pda :- FindPda(env, owner, app);
    var _ :- Require(vault == pda.0, UserVaultPdaMismatch);
    var target := Get(l, vault);
    var _ :- Require(target.body.Blob? && target.body.program == SYSTEM_ID, UserVaultAlreadyExists);
    var _ :- Require(target.body.len == 0 && target.lamports == 0, UserVaultAlreadyExists);
    var expires :- ParseU32(data);
    var lamports :- RentMinimum(env, rent, LEN);
    CreateAccount(l, owner, true, vault, SeedsSign(env, ctx.signers, owner, app, pda.1, vault), lamports,
                  Vault(VaultRecord(USER_VAULT_DISCRIMINATOR, pda.1, 0, expires, owner, app, delegate)))
  }

  function DepositUserVault(env: Env, ctx: Ctx, l: Ledger, slots: seq<Address>, data: seq<byte>): Result<Ledger> {
    var amount :- ParseU64(data);
    var _ :- Require(amount != 0, InvalidInstructionData);
    var _ :- Require(|slots| == 9, NotEnoughAccountKeys);
    var owner, vault, ata, app, source := slots[0], slots[1], slots[2], slots[3], slots[4];
    var mint, system, program, ataProgram := slots[5], slots[6], slots[7], slots[8];
    var _ :- Require(owner in ctx.signers, NotSigner);
    var _ :- Require(ataProgram == ATA_PROGRAM_ID, IncorrectProgramId);
    var v :- LoadVault(l, vault);
    var _ :- CheckOwnerApp(v, owner, app);
    var decimals :- ReadMintDecimals(l, mint);
    var present :- VaultAtaExists(l, ata, program, vault, mint);
    var l1 :- if present then Ok(l) else OpenVaultAta(env, l, owner, vault, ata, program, mint, system, v);
    TransferChecked(l1, program, mint, source, ata, owner, true, amount, decimals)
  }

  /** First deposit of a mint: create the vault's token account and count it. */
  function OpenVaultAta(env: Env, l: Ledger, owner: Address, vault: Address, ata: Address, program: Address,
                        mint: Address, system: Address, v: VaultRecord): Result<Ledger> {
    var l1 :- CreateAta(env, l, owner, true, ata, vault, program, mint, system);
    var _ :- Require(v.ataCount < 0xffff, ArithmeticOverflow);
    Ok(SetRecord(l1, vault, v.(ataCount := v.ataCount + 1)))
  }

  /** Overwrite the record an account holds. */
  function SetRecord(l: Ledger, a: Address, v: VaultRecord): Ledger {
    l[a := Get(l, a).(body := Vault(v))]
  }

  function UpdateUserVaultDelegate(ctx: Ctx, l: Ledger, slots: seq<Address>, data: seq<byte>): Result<Ledger> {
    var _ :- Require(|slots| == 4, NotEnoughAccountKeys);
    var owner, vault, app, delegate := slots[0], slots[1], slots[2], slots[3];
    var _ :- Require(owner in ctx.signers, NotSigner);
    var expires :- ParseU32(data);
    var v :- LoadVault(l, vault);
    var _ :- CheckOwnerApp(v, owner, app);
    Ok(SetRecord(l, vault, v.(delegate := delegate, delegateExpires := expires)))
  }

  function WithdrawUserVault(env: Env, ctx: Ctx, l: Ledger, slots: seq<Address>, data: seq<byte>): Result<Ledger> {
    var amount :- ParseU64(data);
    var _ :- Require(amount != 0, InvalidInstructionData);
    var _ :- Require(|slots| == 7, NotEnoughAccountKeys);
    var owner, vault, ata, app := slots[0], slots[1], slots[2], slots[3];
    var dest, mint, program := slots[4], slots[5], slots[6];
    var _ :- Require(owner in ctx.signers, NotSigner);
    var v :- LoadVault(l, vault);
    var _ :- VerifyTokenAccount(l, dest, program, owner, mint);
    var bump :- CheckOwnerApp(v, owner, app);
    var decimals :- ReadMintDecimals(l, mint);
    TransferChecked(l, program, mint, ata, dest, vault, SeedsSign(env, ctx.signers, owner, app, bump, vault),
                    amount, decimals)
  }

  function WithdrawUserVaultNative(ctx: Ctx, l: Ledger, slots: seq<Address>, data: seq<byte>): Result<Ledger> {
    var amount :- ParseU64(data);
    var _ :- Require(amount != 0, InvalidInstructionData);
    var _ :- Require(|slots| == 3, NotEnoughAccountKeys);
    var owner, vault, app := slots[0], slots[1], slots[2];
    var _ :- Require(owner in ctx.signers, NotSigner);
    var v :- LoadVault(l, vault);
    var _ :- CheckOwnerApp(v, owner, app);
    TransferLamports(l, vault, owner, amount)
  }

  /** The checks of `AppIx` before it calls the app; they change nothing. */
  function AppIx(ctx: Ctx, l: Ledger, slots: seq<Address>): Result<Ledger> {
    var _ :- Require(|slots| >= 5, NotEnoughAccountKeys);
    var delegate, owner, vault, app, clock := slots[0], slots[1], slots[2], slots[3], slots[4];
    var _ :- Require(delegate in ctx.signers, NotSigner);
    var v :- LoadVault(l, vault);
    var _ :- CheckDelegate(v, owner, app, delegate, clock, ctx.now);
    var _ :- Require(|slots| - 5 <= MAX_STATIC_CPI_ACCOUNTS, InvalidArgument);
    Ok(l)
  }

  function CpiEntry(env: Env, ctx: Ctx, l: Ledger, slots: seq<Address>, data: seq<byte>): Result<Ledger> {
    var amounts :- ParseTwoU64(data);
    var (native, amount) := amounts;
    var _ :- Require(amount != 0 || native != 0, InvalidInstructionData);
    var _ :- Require(|slots| == 11, NotEnoughAccountKeys);
    var delegate, owner, vault, ata, app := slots[0], slots[1], slots[2], slots[3], slots[4];
    var lamportsDest, dest, mint, program := slots[5], slots[6], slots[7], slots[8];
    var _ :- CheckTopLevel(ctx, slots[9], app);
    var _ :- Require(delegate in ctx.signers, NotSigner);
    var v :- LoadVault(l, vault);
    var bump :- CheckDelegate(v, owner, app, delegate, slots[10], ctx.now);
    var l1 :- if native > 0 then TransferLamports(l, vault, lamportsDest, native) else Ok(l);
    if amount > 0 then
      var decimals :- ReadMintDecimals(l1, mint);
      TransferChecked(l1, program, mint, ata, dest, vault, SeedsSign(env, ctx.signers, owner, app, bump, vault),
                      amount, decimals)
    else Ok(l1)
  }

  function CpiEntryNative(ctx: Ctx, l: Ledger, slots: seq<Address>, data: seq<byte>): Result<Ledger> {
    var native :- ParseU64(data);
    var _ :- Require(native != 0, InvalidInstructionData);
    var _ :- Require(|slots| == 7, NotEnoughAccountKeys);
    var delegate, owner, vault, app, lamportsDest := slots[0], slots[1], slots[2], slots[3], slots[4];
    var _ :- CheckTopLevel(ctx, slots[5], app);
    var _ :- Require(delegate in ctx.signers, NotSigner);
    var v :- LoadVault(l, vault);
    var _ :- CheckDelegate(v, owner, app, delegate, slots[6], ctx.now);
    TransferLamports(l, vault, lamportsDest, native)
  }

  function CloseVaultAta(env: Env, ctx: Ctx, l: Ledger, slots: seq<Address>): Result<Ledger> {
    var _ :- Require(|slots| == 7, NotEnoughAccountKeys);
    var owner, vault, app, ata := slots[0], slots[1], slots[2], slots[3];
    var destination, program := slots[4], slots[6];
    var _ :- Require(owner in ctx.signers, NotSigner);
    var v :- LoadVault(l, vault);
    var bump :- CheckOwnerApp(v, owner, app);
    var _ :- Require(v.ataCount != 0, UserVaultAtaCountZero);
    var balance :- BalanceForClose(l, ata, program);
    var _ :- Require(balance == 0, UserVaultAtaNotEmpty);
    var l1 :- CloseToken(l, program, ata, destination, vault,
                         SeedsSign(env, ctx.signers, owner, app, bump, vault));
    Ok(SetRecord(l1, vault, v.(ataCount := v.ataCount - 1)))
  }

  function CloseUserVault(ctx: Ctx, l: Ledger, slots: seq<Address>): Result<Ledger> {
    var _ :- Require(|slots| == 3, NotEnoughAccountKeys);
    var owner, vault, app := slots[0], slots[1], slots[2];
    var _ :- Require(owner in ctx.signers, NotSigner);
    var v :- LoadVault(l, vault);
    var _ :- CheckOwnerApp(v, owner, app);
    var _ :- Require(v.ataCount == 0, UserVaultHasOpenAtas);
    CloseProgramAccount(l, vault, owner)
  }

  /** `process_instruction`: the first byte routes, the rest is the handler's data. */
  function Process(env: Env, ctx: Ctx, l: Ledger, slots: seq<Address>, ix: seq<byte>): Result<Ledger> {
    if ix == [] then Err(InvalidInstructionData)
    else
      var data := ix[1..];
      match ix[0]
      case 0 => CreateUserVault(env, ctx, l, slots, data)
      case 1 => DepositUserVault(env, ctx, l, slots, data)
      case 2 => UpdateUserVaultDelegate(ctx, l, slots, data)
      case 3 => WithdrawUserVault(env, ctx, l, slots, data)
      case 4 => WithdrawUserVaultNative(ctx, l, slots, data)
      case 5 => AppIx(ctx, l, slots)
      case 6 => CpiEntry(env, ctx, l, slots, data)
      case 7 => CpiEntryNative(ctx, l, slots, data)
      case 8 => CloseVaultAta(env, ctx, l, slots)
      case 9 => CloseUserVault(ctx, l, slots)
      case _ => Err(InvalidInstructionData)
  }

  /** Where each instruction takes its vault. */
  function VaultSlot(kind: byte): nat {
    if kind == 5 || kind == 6 || kind == 7 then 2 else 1
  }
}
