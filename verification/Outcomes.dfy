/** What each of the ten instructions refuses, with which error when several would do, and what it changes when
    it refuses nothing: a table of causes and a relation between ledgers for each, told from slots, data and
    ledger alone. The program meets all of them. */
module Outcomes {
  import opened Bytes
  import opened Types
  import opened Layout
  import opened Ledger
  import opened VaultProgram
  import opened Runs
  import DelegateWindow
  import Decimal

  // ----- What the tables speak of -----

  /** A slot, where it is passed. */
  function At(slots: seq<Address>, i: nat): Address { if i < |slots| then slots[i] else SYSTEM_ID }

  function Rec(l: Ledger, a: Address): VaultRecord { if IsVault(l, a) then Get(l, a).body.v else BLANK }

  /** The amount that is all of the data; 0 if it is anything else. */
  function Whole(data: seq<byte>): u64 { if |data| == 8 then U64At(data, 0) else 0 }

  /** The first or the second of two amounts. */
  function Half(data: seq<byte>, i: nat): u64
    requires i < 2
  {
    if |data| == 16 then U64At(data, 8 * i) else 0
  }

  function Expiry(data: seq<byte>): u32 { if |data| == 4 then U32At(data, 0) else 0 }

  /** The first cause that applies. */
  function When(applies: bool, e: Error, otherwise: Option<Error>): Option<Error> {
    if applies then Some(e) else otherwise
  }

  /** An account that could pay for another: a System wallet without data. */
  predicate IsWallet(l: Ledger, a: Address) {
    var b := Get(l, a).body;
    b.Blob? && b.program == SYSTEM_ID && b.len == 0
  }

  /** The program signs for the vault with the owner, the app and the bump it stores. */
  predicate VaultSigns(env: Env, ctx: Ctx, l: Ledger, owner: Address, app: Address, vault: Address) {
    vault in ctx.signers || env.createPda(owner, app, Rec(l, vault).bump) == Some(vault)
  }

  predicate IsAccount(l: Ledger, a: Address, program: Address, mint: Address, authority: Address) {
    Controls(l, authority, a) && Get(l, a).body.t.program == program && Get(l, a).body.t.mint == mint
  }

  predicate HoldsMint(l: Ledger, a: Address, program: Address, mint: Address) {
    IsToken(l, a) && Get(l, a).body.t.program == program && Get(l, a).body.t.mint == mint
  }

  /** The token program would move the amount. */
  predicate Movable(l: Ledger, program: Address, mint: Address, src: Address, dst: Address, authority: Address,
                    n: u64) {
    && IsMint(l, program, mint) && IsAccount(l, src, program, mint, authority) && HoldsMint(l, dst, program, mint)
    && n <= Amount(l, src) && (src == dst || Amount(l, dst) + n <= U64_MAX)
  }

  predicate ShortMint(l: Ledger, mint: Address) { Get(l, mint).body.Blob? && Get(l, mint).body.len < 82 }

  /** Long enough, and of that program, for raw token reads. */
  predicate Readable(l: Ledger, a: Address, program: Address) {
    match Get(l, a).body
    case Token(t) => t.program == program
    case Blob(p, len, _) => p == program && len >= 165
    case Vault(_) => false
  }

  /** What they find: an open account's mint, authority and amount with a state that is not 0. */
  function Found(l: Ledger, a: Address): Raw {
    match Get(l, a).body
    case Token(t) => Raw(t.mint, t.authority, t.amount, 1, 0)
    case Blob(_, _, raw) => raw
    case Vault(_) => Raw(0, 0, 0, 0, 0)
  }

  // ----- What may change -----

  function Gained(a: Address, src: Address, dst: Address, n: int): int {
    if a == dst then n else if a == src then -n else 0
  }

  predicate SameButAmount(b: Body, b': Body) {
    match b case Token(t) => b'.Token? && b' == Token(t.(amount := b'.t.amount)) case _ => b' == b
  }

  /** Lamports go from `payer` to `payee` and tokens from `src` to `dst`, and nothing else changes. A payer that
      is its own payee ends with more; a token account that pays itself does not. */
  ghost predicate Moves(l: Ledger, l': Ledger, payer: Address, payee: Address, lamports: u64,
                        src: Address, dst: Address, tokens: u64) {
    forall a: Address ::
      && Get(l', a).lamports == Get(l, a).lamports + Gained(a, payer, payee, lamports)
      && Amount(l', a) == Amount(l, a) + (if src == dst then 0 else Gained(a, src, dst, tokens))
      && SameButAmount(Get(l, a).body, Get(l', a).body)
  }

  ghost predicate OnlyChanges(l: Ledger, l': Ledger, some: set<Address>) {
    forall a: Address :: a !in some ==> Get(l', a) == Get(l, a)
  }

  // ----- Causes that instructions share -----

  function VaultCauses(l: Ledger, vault: Address, otherwise: Option<Error>): Option<Error> {
    When(ProgramOf(Get(l, vault).body) != ID, UserVaultNotFound,
    When(!IsVault(l, vault), InvalidUserVaultAccountLength, otherwise))
  }

  function OwnerCauses(l: Ledger, vault: Address, owner: Address, app: Address, otherwise: Option<Error>)
    : Option<Error>
  {
    When(owner != Rec(l, vault).owner, UserVaultOwnerMismatch,
    When(app != Rec(l, vault).app, UserVaultAppAddressMismatch, otherwise))
  }

  /** What keeps a delegate from spending. */
  function DelegateCauses(ctx: Ctx, l: Ledger, delegate: Address, owner: Address, vault: Address, app: Address,
                          clock: Address, otherwise: Option<Error>): Option<Error> {
    When(delegate !in ctx.signers, NotSigner,
    VaultCauses(l, vault,
    OwnerCauses(l, vault, owner, app,
    When(delegate != Rec(l, vault).delegate, InvalidUserVaultDelegate,
    When(clock != CLOCK_ID, InvalidClockAccount,
    When(ctx.now < 1 || ctx.now > 0xffff_ffff, InvalidUnixTimestamp,
    When(ctx.now > Rec(l, vault).delegateExpires, ExpiredDelegate, otherwise)))))))
  }

  function LamportCauses(l: Ledger, payer: Address, payee: Address, n: u64, otherwise: Option<Error>): Option<Error> {
    When(n > Get(l, payer).lamports, InsufficientFunds,
    When(Get(l, payee).lamports + n > 0xffff_ffff_ffff_ffff, ArithmeticOverflow, otherwise))
  }

  // ----- The tables -----

  /** The rent a vault of 104 bytes and its 128 bytes of overhead need, at 64 bits. */
  function VaultRent(env: Env): u64 { (env.rentPerByte * 232) % 0x1_0000_0000_0000_0000 }

  function CreateCauses(env: Env, ctx: Ctx, l: Ledger, slots: seq<Address>, data: seq<byte>): Option<Error> {
    var owner, vault, app, rent, system := At(slots, 0), At(slots, 1), At(slots, 2), At(slots, 4), At(slots, 5);
    var pda := FindPda(env, owner, app);
    When(|slots| != 6, NotEnoughAccountKeys,
    When(owner !in ctx.signers, NotSigner,
    When(system != SYSTEM_ID, IncorrectProgramId,
    When(pda.Err?, NoViableBump,
    When(pda.Ok? && vault != pda.value.0, UserVaultPdaMismatch,
    When(!IsWallet(l, vault) || Get(l, vault).lamports > 0, UserVaultAlreadyExists,
    When(|data| != 4, InvalidInstructionData,
    When(rent != RENT_ID, InvalidRentAccount,
    When(owner == vault || !IsWallet(l, owner) || Get(l, owner).lamports < VaultRent(env), CpiFailed, None)))))))))
  }

  /** The owner pays the rent, and the vault says who it is for, counting nothing. */
  ghost predicate Created(env: Env, l: Ledger, l': Ledger, slots: seq<Address>, data: seq<byte>)
    requires |slots| == 6
  {
    var owner, vault, app, delegate := slots[0], slots[1], slots[2], slots[3];
    && OnlyChanges(l, l', {owner, vault})
    && Get(l', owner).lamports == Get(l, owner).lamports - VaultRent(env) && Get(l', owner).body == Get(l, owner).body
    && Get(l', vault).lamports == VaultRent(env) && IsVault(l', vault)
    && FindPda(env, owner, app).Ok?
    && Rec(l', vault) == VaultRecord(1, FindPda(env, owner, app).value.1, 0, Expiry(data), owner, app, delegate)
  }

  /** Nothing to deposit to yet: the account is opened first. */
  predicate Opens(l: Ledger, slots: seq<Address>) {
    !Readable(l, At(slots, 2), At(slots, 7)) || Found(l, At(slots, 2)).state == 0
  }

  /** What a new token account still needs of its rent. */
  function Need(env: Env, l: Ledger, ata: Address): nat {
    if Get(l, ata).lamports >= env.tokenRent then 0 else env.tokenRent - Get(l, ata).lamports
  }

  /** The associated-token program would open the account. */
  predicate Openable(env: Env, l: Ledger, owner: Address, vault: Address, ata: Address, mint: Address, system: Address,
                     program: Address) {
    && system == SYSTEM_ID && ata == env.ata(vault, program, mint) && ata != owner && IsWallet(l, ata)
    && IsMint(l, program, mint) && IsWallet(l, owner) && Need(env, l, ata) <= Get(l, owner).lamports
  }

  function DepositCauses(env: Env, ctx: Ctx, l: Ledger, slots: seq<Address>, data: seq<byte>): Option<Error> {
    var owner, vault, ata, app, source := At(slots, 0), At(slots, 1), At(slots, 2), At(slots, 3), At(slots, 4);
    var mint, system, program, n := At(slots, 5), At(slots, 6), At(slots, 7), Whole(data);
    When(n == 0, InvalidInstructionData,
    When(|slots| != 9, NotEnoughAccountKeys,
    When(owner !in ctx.signers, NotSigner,
    When(At(slots, 8) != ATA_PROGRAM_ID, IncorrectProgramId,
    VaultCauses(l, vault,
    OwnerCauses(l, vault, owner, app,
    When(ShortMint(l, mint), InvalidAta,
    if Opens(l, slots) then
      When(!Openable(env, l, owner, vault, ata, mint, system, program), CpiFailed,
      When(Rec(l, vault).ataCount == 0xffff, ArithmeticOverflow,
      When(!IsAccount(l, source, program, mint, owner) || Amount(l, source) < n, CpiFailed, None)))
    else
      When(Found(l, ata).mint != mint, MintMismatch,
      When(Found(l, ata).wallet != vault, InvalidAta,
      When(!Movable(l, program, mint, source, ata, owner, n), CpiFailed, None))))))))))
  }

  ghost predicate Deposited(env: Env, l: Ledger, l': Ledger, slots: seq<Address>, data: seq<byte>)
    requires |slots| == 9
  {
    var owner, vault, ata, source, mint, program := slots[0], slots[1], slots[2], slots[4], slots[5], slots[7];
    if Opens(l, slots) then
      && OnlyChanges(l, l', {owner, vault, ata, source})
      && owner != source && owner != vault && owner != ata && vault != ata && vault != source && ata != source
      && Get(l', owner).lamports == Get(l, owner).lamports - Need(env, l, ata)
      && Get(l', owner).body == Get(l, owner).body
      && Get(l', vault).lamports == Get(l, vault).lamports && IsVault(l', vault)
      && Count(l', vault) == Count(l, vault) + 1
      && Rec(l', vault) == Rec(l, vault).(ataCount := Count(l', vault))
      && Get(l', ata).lamports == Get(l, ata).lamports + Need(env, l, ata)
      && IsAccount(l', ata, program, mint, vault) && Amount(l', ata) == Whole(data)
      && Get(l', source).lamports == Get(l, source).lamports && Amount(l', source) == Amount(l, source) - Whole(data)
      && SameButAmount(Get(l, source).body, Get(l', source).body)
    else Moves(l, l', owner, vault, 0, source, ata, Whole(data))
  }

  function UpdateCauses(ctx: Ctx, l: Ledger, slots: seq<Address>, data: seq<byte>): Option<Error> {
    When(|slots| != 4, NotEnoughAccountKeys,
    When(At(slots, 0) !in ctx.signers, NotSigner,
    When(|data| != 4, InvalidInstructionData,
    VaultCauses(l, At(slots, 1),
    OwnerCauses(l, At(slots, 1), At(slots, 0), At(slots, 2), None)))))
  }

  ghost predicate Updated(l: Ledger, l': Ledger, slots: seq<Address>, data: seq<byte>)
    requires |slots| == 4
  {
    && OnlyChanges(l, l', {slots[1]})
    && Get(l', slots[1]).lamports == Get(l, slots[1]).lamports && IsVault(l', slots[1])
    && Rec(l', slots[1]) == Rec(l, slots[1]).(delegate := slots[3], delegateExpires := Expiry(data))
  }

  function DestinationCauses(l: Ledger, dest: Address, program: Address, owner: Address, mint: Address,
                             otherwise: Option<Error>): Option<Error> {
    When(!Readable(l, dest, program), InvalidAta,
    When(Found(l, dest).mint != mint, MintMismatch,
    When(Found(l, dest).wallet != owner || Found(l, dest).state == 0, InvalidAta, otherwise)))
  }

  function WithdrawCauses(env: Env, ctx: Ctx, l: Ledger, slots: seq<Address>, data: seq<byte>): Option<Error> {
    var owner, vault, ata, app := At(slots, 0), At(slots, 1), At(slots, 2), At(slots, 3);
    var dest, mint, program, n := At(slots, 4), At(slots, 5), At(slots, 6), Whole(data);
    When(n == 0, InvalidInstructionData,
    When(|slots| != 7, NotEnoughAccountKeys,
    When(owner !in ctx.signers, NotSigner,
    VaultCauses(l, vault,
    DestinationCauses(l, dest, program, owner, mint,
    OwnerCauses(l, vault, owner, app,
    When(ShortMint(l, mint), InvalidAta,
    When(!VaultSigns(env, ctx, l, owner, app, vault) || !Movable(l, program, mint, ata, dest, vault, n), CpiFailed,
         None))))))))
  }

  function WithdrawNativeCauses(ctx: Ctx, l: Ledger, slots: seq<Address>, data: seq<byte>): Option<Error> {
    var owner, vault, app, n := At(slots, 0), At(slots, 1), At(slots, 2), Whole(data);
    When(n == 0, InvalidInstructionData,
    When(|slots| != 3, NotEnoughAccountKeys,
    When(owner !in ctx.signers, NotSigner,
    VaultCauses(l, vault,
    OwnerCauses(l, vault, owner, app,
    LamportCauses(l, vault, owner, n, None))))))
  }

  /** Five accounts of its own and at most 64 of the app's. */
  function AppIxCauses(ctx: Ctx, l: Ledger, slots: seq<Address>): Option<Error> {
    When(|slots| < 5, NotEnoughAccountKeys,
    DelegateCauses(ctx, l, At(slots, 0), At(slots, 1), At(slots, 2), At(slots, 3), At(slots, 4),
    When(|slots| > 69, InvalidArgument, None)))
  }

  /** What can still refuse a CpiEntry whose delegate may spend. */
  function SpendCauses(env: Env, ctx: Ctx, l: Ledger, slots: seq<Address>, native: u64, n: u64): Option<Error>
    requires |slots| == 11
  {
    var owner, vault, ata, app, payee := slots[1], slots[2], slots[3], slots[4], slots[5];
    var dest, mint, program, tokens := slots[6], slots[7], slots[8], n > 0;
    LamportCauses(l, vault, payee, native,
    When(tokens && ShortMint(l, mint), InvalidAta,
    When(tokens && !(VaultSigns(env, ctx, l, owner, app, vault) && Movable(l, program, mint, ata, dest, vault, n)),
         CpiFailed, None)))
  }

  function CpiEntryCauses(env: Env, ctx: Ctx, l: Ledger, slots: seq<Address>, data: seq<byte>): Option<Error> {
    var delegate, owner, vault, app := At(slots, 0), At(slots, 1), At(slots, 2), At(slots, 4);
    var native, n := Half(data, 0), Half(data, 1);
    When(native == 0 && n == 0, InvalidInstructionData,
    When(|slots| != 11, NotEnoughAccountKeys,
    When(At(slots, 9) != INSTRUCTIONS_ID, UnsupportedSysvar,
    When(app != ctx.top, UnauthorizedCpiCaller,
    DelegateCauses(ctx, l, delegate, owner, vault, app, At(slots, 10),
    if |slots| == 11 then SpendCauses(env, ctx, l, slots, native, n) else None)))))
  }

  function CpiEntryNativeCauses(ctx: Ctx, l: Ledger, slots: seq<Address>, data: seq<byte>): Option<Error> {
    var delegate, owner, vault, app, payee := At(slots, 0), At(slots, 1), At(slots, 2), At(slots, 3), At(slots, 4);
    When(Whole(data) == 0, InvalidInstructionData,
    When(|slots| != 7, NotEnoughAccountKeys,
    When(At(slots, 5) != INSTRUCTIONS_ID, UnsupportedSysvar,
    When(app != ctx.top, UnauthorizedCpiCaller,
    DelegateCauses(ctx, l, delegate, owner, vault, app, At(slots, 6),
    LamportCauses(l, vault, payee, Whole(data), None))))))
  }

  /** The token program would close the account. */
  predicate Closable(l: Ledger, program: Address, ata: Address, dest: Address, authority: Address) {
    && IsTokenProgram(program) && Controls(l, authority, ata) && Get(l, ata).body.t.program == program
    && ata != dest && Get(l, dest).lamports + Get(l, ata).lamports <= U64_MAX
  }

  function CloseAtaCauses(env: Env, ctx: Ctx, l: Ledger, slots: seq<Address>): Option<Error> {
    var owner, vault, app, ata := At(slots, 0), At(slots, 1), At(slots, 2), At(slots, 3);
    var dest, program := At(slots, 4), At(slots, 6);
    When(|slots| != 7, NotEnoughAccountKeys,
    When(owner !in ctx.signers, NotSigner,
    VaultCauses(l, vault,
    OwnerCauses(l, vault, owner, app,
    When(Rec(l, vault).ataCount == 0, UserVaultAtaCountZero,
    When(!Readable(l, ata, program) || Found(l, ata).state == 0, InvalidAta,
    When(Found(l, ata).amount > 0, UserVaultAtaNotEmpty,
    When(!VaultSigns(env, ctx, l, owner, app, vault) || !Closable(l, program, ata, dest, vault), CpiFailed,
         None))))))))
  }

  /** The account is gone, its lamports are where slot 4 says, and the vault counts one fewer. */
  ghost predicate ClosedAta(l: Ledger, l': Ledger, slots: seq<Address>)
    requires |slots| == 7
  {
    var vault, ata, dest := slots[1], slots[3], slots[4];
    && OnlyChanges(l, l', {vault, ata, dest}) && Get(l', ata) == EMPTY && ata != vault && ata != dest
    && Get(l', dest).lamports == Get(l, dest).lamports + Get(l, ata).lamports
    && (dest != vault ==> Get(l', vault).lamports == Get(l, vault).lamports && Get(l', dest).body == Get(l, dest).body)
    && IsVault(l', vault) && Count(l', vault) == Count(l, vault) - 1
    && Rec(l', vault) == Rec(l, vault).(ataCount := Count(l', vault))
  }

  function CloseVaultCauses(ctx: Ctx, l: Ledger, slots: seq<Address>): Option<Error> {
    var owner, vault, app := At(slots, 0), At(slots, 1), At(slots, 2);
    When(|slots| != 3, NotEnoughAccountKeys,
    When(owner !in ctx.signers, NotSigner,
    VaultCauses(l, vault,
    OwnerCauses(l, vault, owner, app,
    When(Rec(l, vault).ataCount > 0, UserVaultHasOpenAtas,
    When(Get(l, owner).lamports + Get(l, vault).lamports > U64_MAX, ArithmeticOverflow, None))))))
  }

  ghost predicate ClosedVault(l: Ledger, l': Ledger, slots: seq<Address>)
    requires |slots| == 3
  {
    var owner, vault := slots[0], slots[1];
    && OnlyChanges(l, l', {owner, vault}) && Get(l', vault) == EMPTY
    && (owner != vault ==> Get(l', owner).lamports == Get(l, owner).lamports + Get(l, vault).lamports
                           && Get(l', owner).body == Get(l, owner).body)
  }

  // ----- The handlers meet their tables -----

  /** The result is the error of the first cause, or success if there is none. */
  predicate Answers(r: Result<Ledger>, cause: Option<Error>) {
    match cause case Some(e) => r == Err(e) case None => r.Ok?
  }

  lemma CreateOutcome(env: Env, ctx: Ctx, l: Ledger, slots: seq<Address>, data: seq<byte>)
    ensures Answers(CreateUserVault(env, ctx, l, slots, data), CreateCauses(env, ctx, l, slots, data))
    ensures CreateUserVault(env, ctx, l, slots, data).Ok? ==>
              |slots| == 6 && Created(env, l, CreateUserVault(env, ctx, l, slots, data).value, slots, data)
  {
  }

  lemma TransferOutcome(l: Ledger, program: Address, mint: Address, src: Address, dst: Address, authority: Address,
                        signs: bool, n: u64, payer: Address, payee: Address)
    requires ReadMintDecimals(l, mint).Ok?
    ensures var r := TransferChecked(l, program, mint, src, dst, authority, signs, n, ReadMintDecimals(l, mint).value);
            && Answers(r, When(!signs || !Movable(l, program, mint, src, dst, authority, n), CpiFailed, None))
            && (r.Ok? ==> Moves(l, r.value, payer, payee, 0, src, dst, n))
  {
  }

  lemma ShortMints(l: Ledger, mint: Address)
    ensures match ReadMintDecimals(l, mint)
            case Ok(_) => !ShortMint(l, mint)
            case Err(e) => ShortMint(l, mint) && e == InvalidAta
  {
  }

  lemma LamportsOutcome(l: Ledger, payer: Address, payee: Address, n: u64, src: Address, dst: Address)
    ensures var r := TransferLamports(l, payer, payee, n);
            && Answers(r, LamportCauses(l, payer, payee, n, None))
            && (r.Ok? ==> Moves(l, r.value, payer, payee, n, src, dst, 0))
  {
  }

  lemma OpenOutcome(env: Env, l: Ledger, slots: seq<Address>)
    requires |slots| == 9 && IsVault(l, slots[1])
    ensures var r := OpenVaultAta(env, l, slots[0], slots[1], slots[2], slots[7], slots[5], slots[6], Rec(l, slots[1]));
            && Answers(r, When(!Openable(env, l, slots[0], slots[1], slots[2], slots[5], slots[6], slots[7]), CpiFailed,
                          When(Rec(l, slots[1]).ataCount == 0xffff, ArithmeticOverflow, None)))
            && (r.Ok? ==> Opened(env, l, r.value, slots[0], slots[1], slots[2], slots[7], slots[5]))
  {
  }

  /** The owner funds an empty account under the vault, which counts it. */
  ghost predicate Opened(env: Env, l: Ledger, l': Ledger, owner: Address, vault: Address, ata: Address,
                         program: Address, mint: Address) {
    && IsVault(l, vault) && IsWallet(l, owner) && IsWallet(l, ata) && owner != ata
    && OnlyChanges(l, l', {owner, vault, ata})
    && Get(l', owner).lamports == Get(l, owner).lamports - Need(env, l, ata)
    && Get(l', owner).body == Get(l, owner).body
    && Get(l', vault).lamports == Get(l, vault).lamports && IsVault(l', vault)
    && Count(l', vault) == Count(l, vault) + 1
    && Rec(l', vault) == Rec(l, vault).(ataCount := Count(l', vault))
    && Get(l', ata).lamports == Get(l, ata).lamports + Need(env, l, ata)
    && Get(l', ata).body == Token(TokenRecord(program, mint, vault, 0))
    && IsMint(l, program, mint) && Get(l', mint).body == Get(l, mint).body
  }

  /** The first tokens that arrive in a new account. */
  lemma FirstTokens(env: Env, l: Ledger, l1: Ledger, slots: seq<Address>, data: seq<byte>)
    requires |slots| == 9 && Opened(env, l, l1, slots[0], slots[1], slots[2], slots[7], slots[5])
    requires Whole(data) > 0 && ReadMintDecimals(l, slots[5]).Ok? && Opens(l, slots)
    ensures var r := TransferChecked(l1, slots[7], slots[5], slots[4], slots[2], slots[0], true, Whole(data),
                                     ReadMintDecimals(l, slots[5]).value);
            && Answers(r, When(!IsAccount(l, slots[4], slots[7], slots[5], slots[0])
                               || Amount(l, slots[4]) < Whole(data), CpiFailed, None))
            && (r.Ok? ==> Deposited(env, l, r.value, slots, data))
  {
    hide TransferChecked;
    var owner, vault, ata, source := slots[0], slots[1], slots[2], slots[4];
    TransferOutcome(l1, slots[7], slots[5], source, ata, owner, true, Whole(data), owner, vault);
    var r := TransferChecked(l1, slots[7], slots[5], source, ata, owner, true, Whole(data),
                             ReadMintDecimals(l, slots[5]).value);
    if r.Ok? {
      MovesTwo(l1, r.value, owner, vault, source, ata, Whole(data));
    }
  }

  lemma MovesTwo(l: Ledger, l': Ledger, payer: Address, payee: Address, src: Address, dst: Address, n: u64)
    requires Moves(l, l', payer, payee, 0, src, dst, n) && src != dst
    ensures OnlyChanges(l, l', {src, dst})
    ensures Get(l', src).lamports == Get(l, src).lamports && Amount(l', src) == Amount(l, src) - n
    ensures Get(l', dst).lamports == Get(l, dst).lamports && Amount(l', dst) == Amount(l, dst) + n
    ensures SameButAmount(Get(l, src).body, Get(l', src).body) && SameButAmount(Get(l, dst).body, Get(l', dst).body)
  {
    forall a: Address | a !in {src, dst} ensures Get(l', a) == Get(l, a) {
      assert Amount(l', a) == Amount(l, a);
    }
  }

  lemma DepositOpens(env: Env, ctx: Ctx, l: Ledger, slots: seq<Address>, data: seq<byte>)
    requires |slots| == 9 && Opens(l, slots)
    ensures Answers(DepositUserVault(env, ctx, l, slots, data), DepositCauses(env, ctx, l, slots, data))
    ensures DepositUserVault(env, ctx, l, slots, data).Ok? ==>
              Deposited(env, l, DepositUserVault(env, ctx, l, slots, data).value, slots, data)
  {
    hide OpenVaultAta;
    hide TransferChecked;
    hide Openable;
    hide Deposited;
    hide Opened;
    hide IsAccount;
    if IsVault(l, slots[1]) {
      OpenOutcome(env, l, slots);
      var r := OpenVaultAta(env, l, slots[0], slots[1], slots[2], slots[7], slots[5], slots[6], Rec(l, slots[1]));
      if r.Ok? && Whole(data) > 0 && ReadMintDecimals(l, slots[5]).Ok? {
        FirstTokens(env, l, r.value, slots, data);
      }
    }
  }

  lemma DepositFinds(env: Env, ctx: Ctx, l: Ledger, slots: seq<Address>, data: seq<byte>)
    requires |slots| == 9 && !Opens(l, slots)
    ensures Answers(DepositUserVault(env, ctx, l, slots, data), DepositCauses(env, ctx, l, slots, data))
    ensures DepositUserVault(env, ctx, l, slots, data).Ok? ==>
              Deposited(env, l, DepositUserVault(env, ctx, l, slots, data).value, slots, data)
  {
    hide OpenVaultAta;
    hide TransferChecked;
    hide Openable;
    hide Movable;
    hide Moves;
    if ReadMintDecimals(l, slots[5]).Ok? {
      TransferOutcome(l, slots[7], slots[5], slots[4], slots[2], slots[0], true, Whole(data), slots[0], slots[1]);
    }
  }

  lemma DepositOutcome(env: Env, ctx: Ctx, l: Ledger, slots: seq<Address>, data: seq<byte>)
    ensures Answers(DepositUserVault(env, ctx, l, slots, data), DepositCauses(env, ctx, l, slots, data))
    ensures DepositUserVault(env, ctx, l, slots, data).Ok? ==>
              |slots| == 9 && Deposited(env, l, DepositUserVault(env, ctx, l, slots, data).value, slots, data)
  {
    hide OpenVaultAta;
    hide TransferChecked;
    hide Deposited;
    hide Opens;
    if |slots| == 9 {
      if Opens(l, slots) {
        DepositOpens(env, ctx, l, slots, data);
      } else {
        DepositFinds(env, ctx, l, slots, data);
      }
    }
  }

  lemma UpdateOutcome(ctx: Ctx, l: Ledger, slots: seq<Address>, data: seq<byte>)
    ensures Answers(UpdateUserVaultDelegate(ctx, l, slots, data), UpdateCauses(ctx, l, slots, data))
    ensures UpdateUserVaultDelegate(ctx, l, slots, data).Ok? ==>
              |slots| == 4 && Updated(l, UpdateUserVaultDelegate(ctx, l, slots, data).value, slots, data)
  {
  }

  lemma DestinationOutcome(l: Ledger, dest: Address, program: Address, owner: Address, mint: Address, o: Option<Error>)
    ensures match VerifyTokenAccount(l, dest, program, owner, mint)
            case Ok(_) => DestinationCauses(l, dest, program, owner, mint, o) == o
            case Err(e) => DestinationCauses(l, dest, program, owner, mint, o) == Some(e)
  {
  }

  lemma WithdrawOutcome(env: Env, ctx: Ctx, l: Ledger, slots: seq<Address>, data: seq<byte>)
    ensures Answers(WithdrawUserVault(env, ctx, l, slots, data), WithdrawCauses(env, ctx, l, slots, data))
    ensures WithdrawUserVault(env, ctx, l, slots, data).Ok? ==>
              |slots| == 7 && Moves(l, WithdrawUserVault(env, ctx, l, slots, data).value, slots[1], slots[0], 0,
                                    slots[2], slots[4], Whole(data))
  {
    hide TransferChecked, Movable, Moves, ReadMintDecimals, ShortMint, VerifyTokenAccount, DestinationCauses;
    if |slots| == 7 {
      var bump := Rec(l, slots[1]).bump;
      forall o ensures match VerifyTokenAccount(l, slots[4], slots[6], slots[0], slots[5])
            case Ok(_) => DestinationCauses(l, slots[4], slots[6], slots[0], slots[5], o) == o
            case Err(e) => DestinationCauses(l, slots[4], slots[6], slots[0], slots[5], o) == Some(e)
      {
        DestinationOutcome(l, slots[4], slots[6], slots[0], slots[5], o);
      }
      ShortMints(l, slots[5]);
      if ReadMintDecimals(l, slots[5]).Ok? {
        TransferOutcome(l, slots[6], slots[5], slots[2], slots[4], slots[1],
                        SeedsSign(env, ctx.signers, slots[0], slots[3], bump, slots[1]), Whole(data),
                        slots[1], slots[0]);
      }
    }
  }

  lemma WithdrawNativeOutcome(ctx: Ctx, l: Ledger, slots: seq<Address>, data: seq<byte>)
    ensures Answers(WithdrawUserVaultNative(ctx, l, slots, data), WithdrawNativeCauses(ctx, l, slots, data))
    ensures WithdrawUserVaultNative(ctx, l, slots, data).Ok? ==>
              |slots| == 3 && Moves(l, WithdrawUserVaultNative(ctx, l, slots, data).value, slots[1], slots[0],
                                    Whole(data), slots[1], slots[0], 0)
  {
    hide TransferLamports, LamportCauses, Moves;
    if |slots| == 3 {
      LamportsOutcome(l, slots[1], slots[0], Whole(data), slots[1], slots[0]);
    }
  }

  /** What the delegated handlers check of the delegate, one after the other. */
  function DelegateChecks(ctx: Ctx, l: Ledger, delegate: Address, owner: Address, vault: Address, app: Address,
                          clock: Address): Result<byte> {
    var _ :- Require(delegate in ctx.signers, NotSigner);
    var v :- LoadVault(l, vault);
    CheckDelegate(v, owner, app, delegate, clock, ctx.now)
  }

  lemma DelegateOutcome(ctx: Ctx, l: Ledger, delegate: Address, owner: Address, vault: Address, app: Address,
                        clock: Address, o: Option<Error>)
    ensures DelegateCauses(ctx, l, delegate, owner, vault, app, clock, o)
            == match DelegateChecks(ctx, l, delegate, owner, vault, app, clock) case Ok(_) => o case Err(e) => Some(e)
    ensures DelegateChecks(ctx, l, delegate, owner, vault, app, clock).Ok? ==> IsVault(l, vault)
    ensures DelegateChecks(ctx, l, delegate, owner, vault, app, clock).Ok? ==>
              DelegateChecks(ctx, l, delegate, owner, vault, app, clock) == Ok(Rec(l, vault).bump)
  {
  }

  lemma AppIxOutcome(ctx: Ctx, l: Ledger, slots: seq<Address>)
    ensures Answers(AppIx(ctx, l, slots), AppIxCauses(ctx, l, slots))
    ensures AppIx(ctx, l, slots).Ok? ==> AppIx(ctx, l, slots).value == l
  {
  }

  /** Moving lamports keeps what the token part of a spend looks at. */
  lemma LamportsKeepBodies(l: Ledger, l1: Ledger, a: Address, b: Address, n: u64, program: Address, mint: Address,
                           src: Address, dst: Address, authority: Address, tokens: u64)
    requires Moves(l, l1, a, b, n, src, src, 0)
    ensures Movable(l1, program, mint, src, dst, authority, tokens)
            == Movable(l, program, mint, src, dst, authority, tokens)
    ensures ReadMintDecimals(l1, mint) == ReadMintDecimals(l, mint)
  {
    forall x: Address ensures Get(l1, x).body == Get(l, x).body {
      assert Amount(l1, x) == Amount(l, x);
    }
  }

  lemma BothMoves(l: Ledger, l1: Ledger, l2: Ledger, payer: Address, payee: Address, native: u64,
                  src: Address, dst: Address, tokens: u64)
    requires Moves(l, l1, payer, payee, native, src, src, 0) && Moves(l1, l2, payer, payee, 0, src, dst, tokens)
    ensures Moves(l, l2, payer, payee, native, src, dst, tokens)
  {
  }

  lemma NothingMoves(l: Ledger, payer: Address, payee: Address, src: Address, dst: Address)
    ensures Moves(l, l, payer, payee, 0, src, dst, 0)
  {
  }

  lemma SpendOutcome(env: Env, ctx: Ctx, l: Ledger, slots: seq<Address>, native: u64, n: u64)
    requires |slots| == 11 && IsVault(l, slots[2])
    ensures var r := DelegateWindow.Spend(env, ctx, l, slots, native, n);
            && Answers(r, SpendCauses(env, ctx, l, slots, native, n))
            && (r.Ok? ==> Moves(l, r.value, slots[2], slots[5], native, slots[3], slots[6], n))
  {
    hide TransferLamports;
    hide TransferChecked;
    hide Movable;
    hide Moves;
    hide ReadMintDecimals;
    var src, dst, mint := slots[3], slots[6], slots[7];
    LamportsOutcome(l, slots[2], slots[5], native, src, src);
    NothingMoves(l, slots[2], slots[5], src, src);
    var r1 := if native > 0 then TransferLamports(l, slots[2], slots[5], native) else Ok(l);
    if r1.Ok? {
      var l1 := r1.value;
      LamportsKeepBodies(l, l1, slots[2], slots[5], native, slots[8], mint, src, dst, slots[2], n);
      ShortMints(l, mint);
      if n > 0 && ReadMintDecimals(l1, mint).Ok? {
        var signs := SeedsSign(env, ctx.signers, slots[1], slots[4], Get(l, slots[2]).body.v.bump, slots[2]);
        TransferOutcome(l1, slots[8], mint, src, dst, slots[2], signs, n, slots[2], slots[5]);
        var r2 := TransferChecked(l1, slots[8], mint, src, dst, slots[2], signs, n, ReadMintDecimals(l1, mint).value);
        if r2.Ok? {
          BothMoves(l, l1, r2.value, slots[2], slots[5], native, src, dst, n);
        }
      }
      if n == 0 {
        NoTokens(l, l1, slots[2], slots[5], native, src, dst);
      }
    }
  }

  lemma NoTokens(l: Ledger, l1: Ledger, payer: Address, payee: Address, native: u64, src: Address, dst: Address)
    requires Moves(l, l1, payer, payee, native, src, src, 0)
    ensures Moves(l, l1, payer, payee, native, src, dst, 0)
  {
  }

  lemma CpiEntryOutcome(env: Env, ctx: Ctx, l: Ledger, slots: seq<Address>, data: seq<byte>)
    ensures Answers(CpiEntry(env, ctx, l, slots, data), CpiEntryCauses(env, ctx, l, slots, data))
    ensures CpiEntry(env, ctx, l, slots, data).Ok? ==>
              |slots| == 11 && Moves(l, CpiEntry(env, ctx, l, slots, data).value, slots[2], slots[5], Half(data, 0),
                                     slots[3], slots[6], Half(data, 1))
  {
    hide TransferLamports;
    hide TransferChecked;
    hide Movable;
    hide Moves;
    hide ReadMintDecimals;
    hide LamportCauses;
    hide VaultSigns;
    hide ShortMint;
    if |slots| == 11 && IsVault(l, slots[2]) {
      SpendOutcome(env, ctx, l, slots, Half(data, 0), Half(data, 1));
    }
  }

  lemma CpiEntryNativeOutcome(ctx: Ctx, l: Ledger, slots: seq<Address>, data: seq<byte>)
    ensures Answers(CpiEntryNative(ctx, l, slots, data), CpiEntryNativeCauses(ctx, l, slots, data))
    ensures CpiEntryNative(ctx, l, slots, data).Ok? ==>
              |slots| == 7 && Moves(l, CpiEntryNative(ctx, l, slots, data).value, slots[2], slots[4], Whole(data),
                                    slots[2], slots[4], 0)
  {
    hide TransferLamports, LamportCauses, Moves, DelegateCauses, LoadVault, CheckDelegate;
    if |slots| == 7 {
      DelegateOutcome(ctx, l, slots[0], slots[1], slots[2], slots[3], slots[6],
                      LamportCauses(l, slots[2], slots[4], Whole(data), None));
      LamportsOutcome(l, slots[2], slots[4], Whole(data), slots[2], slots[4]);
    }
  }

  lemma CloseAtaOutcome(env: Env, ctx: Ctx, l: Ledger, slots: seq<Address>)
    ensures Answers(CloseVaultAta(env, ctx, l, slots), CloseAtaCauses(env, ctx, l, slots))
    ensures CloseVaultAta(env, ctx, l, slots).Ok? ==>
              |slots| == 7 && ClosedAta(l, CloseVaultAta(env, ctx, l, slots).value, slots)
  {
  }

  lemma CloseVaultOutcome(ctx: Ctx, l: Ledger, slots: seq<Address>)
    ensures Answers(CloseUserVault(ctx, l, slots), CloseVaultCauses(ctx, l, slots))
    ensures CloseUserVault(ctx, l, slots).Ok? ==>
              |slots| == 3 && ClosedVault(l, CloseUserVault(ctx, l, slots).value, slots)
  {
  }

  // ----- The program -----

  function Causes(env: Env, ctx: Ctx, l: Ledger, slots: seq<Address>, ix: seq<byte>): Option<Error> {
    if ix == [] then Some(InvalidInstructionData)
    else
      var data := ix[1..];
      match ix[0]
      case 0 => CreateCauses(env, ctx, l, slots, data)
      case 1 => DepositCauses(env, ctx, l, slots, data)
      case 2 => UpdateCauses(ctx, l, slots, data)
      case 3 => WithdrawCauses(env, ctx, l, slots, data)
      case 4 => WithdrawNativeCauses(ctx, l, slots, data)
      case 5 => AppIxCauses(ctx, l, slots)
      case 6 => CpiEntryCauses(env, ctx, l, slots, data)
      case 7 => CpiEntryNativeCauses(ctx, l, slots, data)
      case 8 => CloseAtaCauses(env, ctx, l, slots)
      case 9 => CloseVaultCauses(ctx, l, slots)
      case _ => Some(InvalidInstructionData)
  }

  /** What an accepted instruction changes. */
  ghost predicate Effect(env: Env, l: Ledger, l': Ledger, slots: seq<Address>, ix: seq<byte>) {
    && ix != []
    && var data := ix[1..];
       match ix[0]
       case 0 => |slots| == 6 && Created(env, l, l', slots, data)
       case 1 => |slots| == 9 && Deposited(env, l, l', slots, data)
       case 2 => |slots| == 4 && Updated(l, l', slots, data)
       case 3 => |slots| == 7 && Moves(l, l', slots[1], slots[0], 0, slots[2], slots[4], Whole(data))
       case 4 => |slots| == 3 && Moves(l, l', slots[1], slots[0], Whole(data), slots[1], slots[0], 0)
       case 5 => l' == l
       case 6 =>
         |slots| == 11 && Moves(l, l', slots[2], slots[5], Half(data, 0), slots[3], slots[6], Half(data, 1))
       case 7 => |slots| == 7 && Moves(l, l', slots[2], slots[4], Whole(data), slots[2], slots[4], 0)
       case 8 => |slots| == 7 && ClosedAta(l, l', slots)
       case 9 => |slots| == 3 && ClosedVault(l, l', slots)
       case _ => false
  }

  /** Every instruction answers with the first cause in its table, and without one changes exactly what its
      relation says. */
  lemma ProcessOutcome(env: Env, ctx: Ctx, l: Ledger, slots: seq<Address>, ix: seq<byte>)
    ensures Answers(Process(env, ctx, l, slots, ix), Causes(env, ctx, l, slots, ix))
    ensures Process(env, ctx, l, slots, ix).Ok? ==>
              Effect(env, l, Process(env, ctx, l, slots, ix).value, slots, ix)
  {
    hide CreateUserVault, DepositUserVault, UpdateUserVaultDelegate, WithdrawUserVault, WithdrawUserVaultNative;
    hide AppIx, CpiEntry, CpiEntryNative, CloseVaultAta, CloseUserVault;
    hide CreateCauses, DepositCauses, UpdateCauses, WithdrawCauses, WithdrawNativeCauses;
    hide AppIxCauses, CpiEntryCauses, CpiEntryNativeCauses, CloseAtaCauses, CloseVaultCauses;
    hide Created, Deposited, Updated, Moves, ClosedAta, ClosedVault;
    if ix != [] {
      var data := ix[1..];
      match ix[0]
      case 0 => CreateOutcome(env, ctx, l, slots, data);
      case 1 => DepositOutcome(env, ctx, l, slots, data);
      case 2 => UpdateOutcome(ctx, l, slots, data);
      case 3 => WithdrawOutcome(env, ctx, l, slots, data);
      case 4 => WithdrawNativeOutcome(ctx, l, slots, data);
      case 5 => AppIxOutcome(ctx, l, slots);
      case 6 => CpiEntryOutcome(env, ctx, l, slots, data);
      case 7 => CpiEntryNativeOutcome(ctx, l, slots, data);
      case 8 => CloseAtaOutcome(env, ctx, l, slots);
      case 9 => CloseVaultOutcome(ctx, l, slots);
      case _ =>
    }
  }

  /** At the cluster's rate a vault costs what the page takes off its balance. */
  lemma VaultRentIsThePages(env: Env)
    requires env.rentPerByte == 6960
    ensures RentMinimum(env, RENT_ID, LEN) == Ok(Decimal.VAULT_PDA_RENT_LAMPORTS) && VaultRent(env) == 1614720
  {
  }

  // ----- Other programs -----

  /** When an act of another program goes through, whoever asks: its consenting account signs, and its own
      accounts allow it. */
  ghost predicate Admits(env: Env, vault: Option<Address>, l: Ledger, op: Op) {
    match op
    case Send(program, src, dst, authority, n) =>
      && MaySign(env, vault, authority) && IsTokenProgram(program)
      && Controls(l, authority, src) && Get(l, src).body.t.program == program
      && HoldsMint(l, dst, program, Get(l, src).body.t.mint)
      && n <= Amount(l, src) && (src == dst || Amount(l, dst) + n <= U64_MAX)
    case Open(a, program, mint, _) =>
      MaySign(env, vault, a) && IsForeign(l, a) && !IsVaultPda(env, a) && IsMint(l, program, mint)
    case Shut(program, a, dest, authority) =>
      MaySign(env, vault, authority) && Closable(l, program, a, dest, authority) && Amount(l, a) == 0
    case Reassign(program, a, authority, _) =>
      && MaySign(env, vault, authority) && IsTokenProgram(program) && Controls(l, authority, a)
      && Get(l, a).body.t.program == program
    case Pay(from, to, n) =>
      && MaySign(env, vault, from) && IsForeign(l, from) && from != to
      && n <= Get(l, from).lamports && Get(l, to).lamports + n <= U64_MAX
    case Allocate(a, _, _, _) => MaySign(env, vault, a) && IsForeign(l, a) && !IsVaultPda(env, a)
  }

  /** And what it then changes. */
  ghost predicate Acted(l: Ledger, l': Ledger, op: Op) {
    match op
    case Send(_, src, dst, _, n) => Moves(l, l', SYSTEM_ID, SYSTEM_ID, 0, src, dst, n)
    case Open(a, program, mint, authority) =>
      && OnlyChanges(l, l', {a}) && Get(l', a).lamports == Get(l, a).lamports
      && Get(l', a).body == Token(TokenRecord(program, mint, authority, 0))
    case Shut(_, a, dest, _) =>
      && OnlyChanges(l, l', {a, dest}) && Get(l', a) == EMPTY && Get(l', dest).body == Get(l, dest).body
      && Get(l', dest).lamports == Get(l, dest).lamports + Get(l, a).lamports
    case Reassign(_, a, _, successor) =>
      && OnlyChanges(l, l', {a}) && Get(l', a).lamports == Get(l, a).lamports && IsToken(l, a)
      && Get(l', a).body == Token(Get(l, a).body.t.(authority := successor))
    case Pay(from, to, n) => Moves(l, l', from, to, n, from, to, 0)
    case Allocate(a, program, len, raw) =>
      && OnlyChanges(l, l', {a}) && Get(l', a).lamports == Get(l, a).lamports
      && Get(l', a).body == if program == ID && len == 104 then Vault(BLANK) else Blob(program, len, raw)
  }

  lemma SendOutcome(l: Ledger, program: Address, src: Address, dst: Address, authority: Address, n: u64)
    ensures var r := Transfer(l, program, src, dst, authority, true, n);
            && (r.Ok? <==>
                  && IsTokenProgram(program) && Controls(l, authority, src) && Get(l, src).body.t.program == program
                  && HoldsMint(l, dst, program, Get(l, src).body.t.mint)
                  && n <= Amount(l, src) && (src == dst || Amount(l, dst) + n <= U64_MAX))
            && (r.Ok? ==> Moves(l, r.value, SYSTEM_ID, SYSTEM_ID, 0, src, dst, n))
  {
  }

  lemma ApplyOutcome(env: Env, vault: Option<Address>, l: Ledger, op: Op)
    ensures Apply(env, vault, l, op).Ok? <==> Admits(env, vault, l, op)
    ensures Apply(env, vault, l, op).Ok? ==> Acted(l, Apply(env, vault, l, op).value, op)
  {
    hide MaySign, IsVaultPda, IsForeign, Transfer, TransferLamports, Moves;
    match op
    case Send(program, src, dst, authority, n) => SendOutcome(l, program, src, dst, authority, n);
    case Pay(from, to, n) => LamportsOutcome(l, from, to, n, from, to);
    case _ =>
  }
}
