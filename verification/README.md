# Delegated vaults: a verified model

A vault is an account at an address derived from an owner and an app. It holds lamports, and token accounts
are opened under its authority. The owner funds it, names a delegate until an expiry, withdraws and closes;
the delegate spends from it through the app. This project models the on-chain program, its SDKs, the demo
page's batch planner and the flip demo, and proves what the design depends on over whole runs.

## How it is built

| layer | files |
|---|---|
| bytes and types | `Bytes`, `Types`, `ProgramIds`, `Layout` (the 104-byte account) |
| typed ledger and called programs, by contract | `Ledger` |
| the ten instructions on the typed ledger, error by error | `VaultProgram` |
| the program on account objects: raw bytes, pointer writes, early returns, slots that may be one account | `Accounts`, `Runtime`, `Helpers`, `Handlers` |
| runs: instructions, other programs' acts, the clock, removal of accounts without lamports | `Runs` |
| what each instruction and flip refuses and changes, as tables | `Outcomes`, `FlipOutcomes` |
| results over runs | `Books`, `Invariants`, `Isolation`, `DelegateWindow`, `Authority`, `Balances`, `Plan`, `OwnerExit`, `Witnesses` |
| data formats | `Codec`, `AccountCodec`, `InstructionsSysvar`, `AppIxLoop`, `Decimal` |
| the demo page | `Gates`, `Planner`, `PlannerSoundness` |
| the flip demo | `Flip`, `FlipHandlers`, `FlipRuns` |

Every handler is a method over mutable account objects whose `ensures` equates its result or error, and on
success all accounts it leaves, with a function of the ledger before; after an error the runtime rolls back. The run-level theorems are about those functions.

A run is any sequence of events. What the runtime refuses, or what fails, changes nothing, so theorems about
runs hold for every sequence. Outsiders may open, send, close and reassign token accounts, pay lamports to
anything and allocate accounts; under AppIx the app may do the same with the vault as a signer.

## What is assumed of the runtime

- A failed instruction rolls back, and one that changes total lamports does not commit.
- Only the owner program changes an account's data or debits it; nobody holds a key for a derived address, and
  a vault signs only under AppIx (vault, app, vault re-entrancy is refused) or by its seeds.
- `find_program_address` returns the largest bump in 255..1 that gives an address. Injectivity of the derivation is not
  assumed; the invariant makes it unnecessary.
- SPL Token and Token-2022 without extensions behave as `Ledger` states, and `Outcomes.ApplyOutcome` says exactly when
  what any other program asks goes through and what it then changes. A call to any other program id in the
  token-program slot fails.
- In a starting ledger there is no vault account, each token account's mint stands, and lamports and each
  mint's tokens sum to at most u64::MAX.
- The clock and instructions sysvars hold the runtime's bytes; the clock does not go back.

## What came out

- `ata_count` is not the number of open accounts: `CountIsNotOpenAccounts` gives a two-step run after which one
  account is open and none counted. `AtaCountAccounting` is the exact equation, with what others open, what the
  app takes, and the count forgotten when a vault drained to zero lamports is removed; `CountIsExact` says exactly
  when the two numbers agree.
- Program-owned 104-byte accounts need not carry discriminator 1: anyone may allocate a zeroed one
  (`OwnedNeedNotBeInitialised`). In every reachable state each is a vault at the address its own fields derive,
  or zeroed at an address that is no vault's (`StoredSeedsSign`), and no signer passes a check on a zeroed one.
- When source and destination of a native spend are one account, the second balance write wins and the account
  ends with more (`SelfSpendMakesLamports`). `CommitsUnlessSelfSpend`: such an instruction never commits, and
  every other that succeeds does.
- The owner can leave alone if and only if no more accounts are open under the vault than it counts
  (`ExitExactly`). With an exact count the vault is closed; if its app closed some, so that it counts more, it is
  drained by a native withdrawal and removed by the runtime. With more open than counted, one account stays in
  every run in which no AppIx on the vault commits, whoever signs (`ExitNeedsTheCount`); the run of
  `CountIsNotOpenAccounts` ends in such a state.
- A comment in `program/tests/cpi_entry.rs:167` says that moving lamports and tokens in one CpiEntry is rejected as
  unbalanced; the handler has no such check. Statements about it say what holds if it commits.

## Model

| member | source | states |
|---|---|---|
| Layout.Pack | program/src/state.rs:28-40 | pack refuses any buffer that is not 104 bytes and otherwise leaves exactly the record's image |
| Layout.ReadImage | program/src/state.rs:11-22 | reading the packed image field by field at the fixed offsets gives every field back |
| Layout.ImageOfRead | program/src/state.rs:43-57 | the seven fields determine all 104 bytes |
| Layout.DecodersAgree | sdk/rust/src/state.rs:27-90 | on-chain unpack inverts pack exactly on discriminator 1; the SDK decoder accepts the same 104-byte buffers with the same fields |
| AccountCodec.TsAccountsAgree | sdk/ts/src/codex.ts:193-216 | the TypeScript encoder emits the packed image and takes exactly the records' numbers; its decoder reads every buffer of at least 104 bytes as the program's layout does, so it differs from the Rust SDK's exactly on longer buffers and other discriminators |
| Layout.WriteIsUpdate | program/src/instructions/create_user_vault.rs:96-108 | a write at any offset keeps every field it does not cover |
| Layout.WriteAtaCount | program/src/instructions/deposit_user_vault.rs:94-99 | the two bytes written at offset 2 are one update of ata_count |
| Layout.WriteExpires | program/src/instructions/update_user_vault_delegate.rs:49 | the four bytes written at offset 4 are one update of the expiry |
| Layout.WriteAddress | program/src/instructions/create_user_vault.rs:104-106 | the copies to 8, 40 and 72 update owner, app and delegate, and nothing else |
| Layout.WriteHeader | program/src/instructions/create_user_vault.rs:100-101 | the first two byte writes update discriminator and bump |
| ProgramIds.VaultProgram | program/src/constants.rs:7-10 | the program's id is the listed bytes |
| ProgramIds.FlipProgram | flip_demo/program/src/constants.rs:4-6 | so is the flip program's |
| ProgramIds.UsdcMint | flip_demo/program/src/constants.rs:16-18 | and the flip demo's mint |
| Ledger.FindPda | program/src/helpers/vault.rs:20-23 | the address of the largest bump from 255 down to 1 that derives one, or an error exactly when none of these does |
| Helpers.AssertUserVaultIsOwnedByProgramAndCorrectLength | program/src/helpers/vault.rs:26-36 | passes exactly on accounts that are typed vaults; the error tells a foreign owner from a wrong length |
| Helpers.VerifyVaultOwnerAndAppAddress | program/src/helpers/vault.rs:39-54 | the raw comparisons decide as owner and app of the typed record |
| Helpers.VerifyVaultOwnerAppReturnBump | program/src/helpers/vault.rs:58-77 | the same, returning the stored bump |
| Helpers.VerifyDelegateAuthorityReturnBump | program/src/helpers/vault.rs:81-109 | owner, app, delegate and expiry are checked in that order against the typed record and the runtime's clock |
| Helpers.AssertPdaUninitialized | program/src/helpers/vault.rs:113-123 | passes exactly on System-owned, empty, lamport-free accounts |
| Helpers.GetVaultAtaCount | program/src/helpers/vault.rs:157-159 | the two bytes at offset 2 are the record's count |
| Helpers.AtaExistsReads | program/src/helpers/vault.rs:126-149 | the raw check decides, error for error, as on the typed ledger, for any program account |
| Helpers.RequireDelegateNotExpired | program/src/helpers/sysvar.rs:58-66 | needs the clock account and a time in 1..=u32::MAX that is at most the expiry |
| Helpers.RentMinimumBalanceFromSysvar | program/src/helpers/sysvar.rs:88-94 | rate times (length + 128), wrapping at 64 bits, from the rent account alone |
| Helpers.TopLevelIsApp | program/src/helpers/sysvar.rs:22-45 | on the runtime's sysvar bytes every read is in bounds and the check passes iff the running top-level program is the app |
| Helpers.TokenAccountReads | program/src/helpers/token.rs:51-73 | program, length, mint, owner and state are decided as on the typed ledger, in the code's order |
| Accounts.PackedTokenReads | program/src/helpers/token.rs:12-16 | of a token account as SPL packs it in 165 bytes, the offsets read its own mint, owner, amount and state, whatever the rest says |
| Accounts.PackedMintReads | program/src/helpers/token.rs:18-20 | and of an 82-byte mint its decimals |
| Helpers.BalanceReads | program/src/helpers/token.rs:77-89 | the balance read before a close is the typed balance, with the same errors |
| Helpers.MintReads | program/src/helpers/token.rs:93-100 | the decimals byte is the mint's wherever the account may be a mint, and the same accounts are too short |
| Helpers.TransferAtMintDecimals | program/src/helpers/token.rs:103-124 | decimals read, then TransferChecked: both balances move in place, or the call fails |
| Helpers.TransferLamportsFromUserVaultPda | program/src/helpers/util.rs:20-39 | both balances are read before either is set, also when they are one account; an error leaves every account as it was |
| Helpers.CloseProgramAccountLamportsTo | program/src/helpers/util.rs:42-60 | the recipient gains the whole balance and the account is emptied; an error leaves every account as it was |
| Helpers.WriteVaultAtaCount | program/src/instructions/close_vault_ata.rs:78-83 | the in-place count write is one record update in the ledger |
| Helpers.WriteVaultDelegate | program/src/instructions/update_user_vault_delegate.rs:40-51 | the two in-place writes replace delegate and expiry in the ledger and nothing else |
| Helpers.InitialiseVault | program/src/instructions/create_user_vault.rs:96-108 | the seven writes turn a zeroed account into exactly the new vault's record |
| Runtime.Bank.CreateAccount | program/src/instructions/create_user_vault.rs:83-94 | the System call on account objects does what the typed ledger says |
| Runtime.Bank.CreateAta | program/src/instructions/deposit_user_vault.rs:75-87 | with the System program passed, only the derived, unused address becomes an empty token account under the vault, funded by the owner |
| Runtime.Bank.TransferChecked | program/src/helpers/token.rs:103-124 | the token program's in-place balance writes are the typed transfer, a self-transfer changing nothing |
| Runtime.Bank.CloseAccount | program/src/helpers/token.rs:127-145 | an empty account of the authority closes to another account; otherwise the call fails |
| Handlers.CreateUserVault | program/src/instructions/create_user_vault.rs:36-111 | result or error, and on success every account, agree with the typed specification |
| Handlers.DepositUserVault | program/src/instructions/deposit_user_vault.rs:32-118 | the same, through account creation, counting and transfer |
| Handlers.OpenVaultAta | program/src/instructions/deposit_user_vault.rs:74-100 | creation comes before the overflow check on the count, and both happen or neither |
| Handlers.UpdateUserVaultDelegate | program/src/instructions/update_user_vault_delegate.rs:19-54 | result or error, and on success every account, agree with the typed specification |
| Handlers.WithdrawUserVault | program/src/instructions/withdraw_user_vault.rs:32-91 | result or error, and on success every account, agree with the typed specification |
| Handlers.WithdrawUserVaultNative | program/src/instructions/withdraw_user_vault_native.rs:23-54 | result or error, and on success every account, agree with the typed specification |
| Handlers.AppIx | program/src/instructions/app_ix.rs:76-132 | changes no account; exactly when all checks pass it calls the app the vault stores, with its own data, the stored owner, app and bump as seeds, and the inner accounts in order, each as it came but that the vault may sign and be written |
| Handlers.AcceptedCall | program/src/instructions/app_ix.rs:93-129 | whenever the typed checks pass, the call's program, data, seeds, metas and rows are those of the vault's record and the accounts passed |
| Handlers.CallSigns | program/src/instructions/app_ix.rs:106-112 | in every reachable state those seeds derive the vault passed |
| Handlers.CpiEntry | program/src/instructions/cpi_entry.rs:39-118 | result or error, and on success every account, agree with the typed specification, whatever slots coincide |
| Handlers.CpiEntryNative | program/src/instructions/cpi_entry_native.rs:28-70 | result or error, and on success every account, agree with the typed specification, whatever slots coincide |
| Handlers.CloseVaultAta | program/src/instructions/close_vault_ata.rs:33-86 | result or error, and on success every account, agree with the typed specification |
| Handlers.CloseUserVault | program/src/instructions/close_user_vault.rs:22-43 | result or error, and on success every account, agree with the typed specification |
| Handlers.ProcessInstruction | program/src/instructions/mod.rs:37-54 | the first byte routes to the handler of that kind; exactly an accepted AppIx calls out, and it makes the same call |
| Outcomes.ProcessOutcome | program/src/instructions/mod.rs:37-54 | every instruction answers with the first cause in its table, so succeeds exactly when none applies, and then changes exactly what its relation says |
| Outcomes.CreateOutcome | program/src/instructions/create_user_vault.rs:36-111 | the nine causes; else the owner pays 232 times the rate and the vault holds owner, app, delegate, expiry, bump and count 0 |
| Outcomes.VaultRentIsThePages | demo/src/main.ts:50-51 | at 6960 lamports a byte that rent is what the page takes off a vault's balance |
| Outcomes.DepositOutcome | program/src/instructions/deposit_user_vault.rs:32-118 | the causes for a present and an absent account; with an absent one every count below 65535 is accepted and grows by one, the new account is the vault's and holds the amount; with a present one only the amount moves |
| Outcomes.UpdateOutcome | program/src/instructions/update_user_vault_delegate.rs:19-54 | succeeds exactly for the vault's owner and app with four bytes of data; only delegate and expiry change |
| Outcomes.WithdrawOutcome | program/src/instructions/withdraw_user_vault.rs:32-91 | the causes in order, destination before owner; else exactly the amount moves |
| Outcomes.WithdrawNativeOutcome | program/src/instructions/withdraw_user_vault_native.rs:23-54 | the causes; else exactly the announced lamports move from vault to owner |
| Outcomes.AppIxOutcome | program/src/instructions/app_ix.rs:76-132 | the causes, the last more than 64 inner accounts |
| Outcomes.CpiEntryOutcome | program/src/instructions/cpi_entry.rs:39-118 | the causes; else the two announced amounts move, lamports to slot 5 and tokens to slot 6, and nothing else changes |
| Outcomes.CpiEntryNativeOutcome | program/src/instructions/cpi_entry_native.rs:28-70 | the causes; else exactly the announced lamports move from the vault to slot 4 |
| Outcomes.CloseAtaOutcome | program/src/instructions/close_vault_ata.rs:33-86 | the causes; else the account is gone, its lamports are where slot 4 says and the vault counts one fewer |
| Outcomes.CloseVaultOutcome | program/src/instructions/close_user_vault.rs:22-43 | succeeds exactly for the vault's owner and app at count 0; the vault is gone and its lamports are the owner's |
| InstructionsSysvar.SerializeInstructions | program/src/helpers/sysvar.rs:31-38 | appending instructions and patching a zeroed offset table gives the format the reader walks |
| InstructionsSysvar.ReaderInvertsSerializer | program/src/helpers/sysvar.rs:22-45 | for every transaction whose current instruction starts at a u16 offset, all reads stay inside and the check passes iff that instruction's program is the app |
| Books.TransferLamportsTotal | program/src/helpers/util.rs:20-39 | between distinct accounts the sum is kept; onto itself an account gains what it sent |
| Books.NativeBooks | program/src/instructions/cpi_entry_native.rs:64-67 | a native spend keeps every sum but lamports spent to the vault itself |
| Books.ProcessBooks | program/src/instructions/mod.rs:37-54 | every instruction keeps each mint's total, open minus counted accounts per authority, and lamports up to a self-spend |
| Invariants.NextKeeps | program/src/instructions/deposit_user_vault.rs:72-100 | one event keeps the invariant, both totals, and moves open minus counted only by outside causes |
| Invariants.RunInvariant | program/src/lib.rs:15-25 | every run keeps the invariant, total lamports and each mint's total |
| Invariants.StoredSeedsSign | program/src/helpers/vault.rs:58-77 | in every reachable state owner, app and the stored bump derive exactly the account passed, so handlers need not re-derive |
| Invariants.AtaCountAccounting | program/src/instructions/close_vault_ata.rs:52-83 | over every run: open + taken by others = counted + opened by others + forgotten, also across close and re-create |
| Invariants.CountIsExact | program/src/instructions/deposit_user_vault.rs:89-99 | the stored count is the number of open accounts iff what others took equals what they opened plus what was forgotten |
| Invariants.ClosedWorldClose | program/src/instructions/close_user_vault.rs:37-42 | without outside causes, a committed close leaves no vault and strands no token account |
| Invariants.CommitsUnlessSelfSpend | program/src/helpers/util.rs:20-39 | a successful instruction commits iff it spends no lamports to the vault itself |
| Isolation.ProcessIsolates | program/src/instructions/cpi_entry.rs:67-115 | an instruction on one vault changes no byte of another and lowers none of its balances |
| Isolation.ApplyIsolates | program/src/instructions/app_ix.rs:119-129 | nor does anything an app does with another vault's signature |
| Isolation.RunIsolates | program/src/helpers/vault.rs:39-109 | the same over every run in which nothing commits on the vault, whatever is rejected, for all owners and apps |
| DelegateWindow.AppIxPasses | program/src/instructions/app_ix.rs:77-114 | AppIx's checks pass iff the stored delegate signed in time, with at most 64 inner accounts |
| DelegateWindow.CpiEntryNativePasses | program/src/instructions/cpi_entry_native.rs:28-70 | exactly when a native spend succeeds |
| DelegateWindow.CpiEntryPasses | program/src/instructions/cpi_entry.rs:39-118 | exactly when a spend succeeds: amounts, sysvars, the stored delegate in time under the granted app, and both transfers; and that it then leaves what those transfers do |
| DelegateWindow.StoredIsLatest | program/src/instructions/update_user_vault_delegate.rs:40-51 | after any run the stored delegate and expiry are those of the latest committed create or update |
| DelegateWindow.DelegateWindow | program/src/helpers/vault.rs:81-109 | every committed delegated instruction is signed by the latest granted delegate, for that owner, at a time in 1..=its expiry; AppIx calls the granted app and the CPI entries run under it |
| DelegateWindow.GrantsAreTheOwners | program/src/instructions/create_user_vault.rs:49-60 | only the signer a vault's address derives from ever sets its delegate |
| DelegateWindow.SpentKeysStaySpent | program/src/helpers/sysvar.rs:58-66 | a key rotated out or expired never commits on that vault again, whatever is submitted, until a create or update that names it commits |
| Authority.ProcessAuthority | program/src/instructions/mod.rs:37-54 | every instruction on an existing vault carries its owner's signature or, in time, its delegate's |
| Authority.OnlyOwnerOrDelegate | program/src/helpers/vault.rs:39-109 | over any run in which neither signs, a funded vault keeps every byte and loses no lamports, token account or balance |
| Authority.WithdrawPaysTheOwner | program/src/instructions/withdraw_user_vault.rs:57-88 | what the vault held of the mint falls, and what the owner holds rises, by exactly the amount |
| Authority.LamportsPayTheOwner | program/src/instructions/withdraw_user_vault_native.rs:42-53 | native withdrawals and closes pay exactly the vault's loss to the owner |
| Balances.ProcessMoves | program/src/helpers/token.rs:103-124 | every token balance changes by what the instruction's data announces and no more |
| Balances.RunningBalance | program/src/instructions/deposit_user_vault.rs:102-115 | over every run a balance is its start plus signed deposits, withdrawals, CpiEntry spends, AppIx and outside movement |
| Balances.FlowSigns | program/src/instructions/withdraw_user_vault.rs:75-88 | for a vault's account deposits and outside transfers only add, withdrawals only take |
| Balances.DepositThenWithdraw | program/src/instructions/withdraw_user_vault.rs:55-90 | after any deposit the same amount can be withdrawn to its source, and both balances are back |
| Codec.BuildData | sdk/rust/src/instructions.rs:28-411 | the pushed bytes are the encoding; zero amounts are refused |
| Codec.DecodeEncode | program/src/instructions/mod.rs:37-54 | dispatch and parsers recover kind and fields from every encoding; handlers refuse exactly the amounts the SDK refuses |
| Codec.EncodeDecode | program/src/helpers/util.rs:62-90 | accepted data is the encoding of its decoding, but for bytes after the two closes |
| Codec.SdksAgree | sdk/ts/src/codex.ts:42-137 | the TypeScript union encoder, told from its own codecs, emits the Rust builders' bytes and refusals; TypeScript also refuses what does not fit |
| Codec.ProcessFactors | program/src/instructions/mod.rs:37-54 | the program's effect depends on the data only through what it decodes to |
| AppIxLoop.InvokeAppIxFused | program/src/instructions/app_ix.rs:41-73 | slots below n of both buffers hold the two maps of the inner accounts, no other slot is written, and only those are used |
| AppIxLoop.OnlyTheVaultGainsRights | program/src/instructions/app_ix.rs:54-62 | order and addresses match, and the vault is the only account given a right it did not come with |
| AppIxLoop.BufferSuffices | program/src/instructions/app_ix.rs:77-114 | inner accounts matter to the checks only by number: the loop is reached exactly with as many as the buffers hold |
| Plan.SoundPlanCommits | program/src/instructions/close_vault_ata.rs:47-85 | every instruction of a sound clean-up plan commits |
| Plan.SoundPlanReturns | program/src/instructions/close_user_vault.rs:32-42 | what it closes is gone, with its lamports and withdrawn tokens with the owner |
| OwnerExit.OwnerCanExit | program/src/instructions/withdraw_user_vault.rs:55-90 | if no more than it counts are open, the owner's steps alone all commit and leave nothing, whatever delegate, expiry or clock: 2k+1 with an exact count of k, one more to drain a vault that counts more |
| OwnerExit.DepositorsCanExit | program/src/instructions/deposit_user_vault.rs:72-100 | so it is after every run in which the vault's accounts all came from deposits, whatever its app closed |
| OwnerExit.ExitReturnsEverything | program/src/instructions/close_user_vault.rs:32-42 | every lamport of vault and accounts, and every token, is then the owner's, in any token accounts the owner has |
| OwnerExit.ExitNeedsTheCount | program/src/instructions/close_vault_ata.rs:52-56 | with more open than counted, no run in which no AppIx on the vault commits leaves nothing, whoever signs |
| OwnerExit.ExitExactly | program/src/instructions/withdraw_user_vault_native.rs:44-51 | over all owner-signed instructions but AppIx, and the removal of a drained vault, exit is possible iff open accounts do not exceed the count |
| Witnesses.CountIsNotOpenAccounts | program/src/instructions/deposit_user_vault.rs:72-100 | a concrete run from a starting ledger after which one account is open under a vault that counts none, and the owner cannot exit |
| Witnesses.OwnedNeedNotBeInitialised | program/src/helpers/vault.rs:26-36 | a concrete event after which an account of the program's ownership and length carries discriminator 0 |
| Witnesses.SelfSpendMakesLamports | program/src/instructions/cpi_entry_native.rs:64-67 | a concrete spend to the vault itself that the handler accepts, that makes lamports, and that does not commit |
| Gates.ReadResults.SyncWithdrawPartnerCloseAta | demo/src/main.ts:893-910 | the in-place update of the partner box is the machine's step on the boxes' states |
| Gates.ReadResults.RefreshCloseVaultForVault | demo/src/main.ts:912-939 | the same for a vault's close box |
| Gates.ReadResults.SyncAllReadResultsBatchGates | demo/src/main.ts:941-951 | the same for the pass after rendering |
| Gates.ReadResults.OnReadResultsBatchChange | demo/src/main.ts:953-971 | the same for a change event |
| Gates.ReadResults.Use | demo/src/main.ts:941-971 | the pass after rendering and then any clicks leave the boxes as the machine says |
| Gates.ToggleKeeps | demo/src/main.ts:953-971 | a click keeps every gate: close-account enabled iff its withdrawal is ticked, close-vault iff count 0 or all accounts' closes ready, none ticked while disabled |
| Gates.TogglesKeep | demo/src/main.ts:893-971 | so does any sequence of clicks |
| Gates.ToggleTicks | demo/src/main.ts:953-971 | a click on a disabled box does nothing; on an enabled one it flips that box, ticks no other, and unticks another only as it disables it |
| Gates.TickedWereClicked | demo/src/main.ts:893-971 | a box newly ticked after any clicks was itself clicked |
| Gates.SyncAllEstablishes | demo/src/main.ts:941-951 | the pass after rendering establishes every gate from any ticks |
| Gates.SyncAllFollows | demo/src/main.ts:941-951 | the pass after rendering ticks nothing, and unticks nothing that stays enabled |
| Gates.CanTickVault | demo/src/main.ts:912-971 | on a page with nothing ticked, some clicks tick the close of any vault that counts no accounts or has close boxes for them |
| Planner.DedupByKey | demo/src/main.ts:670-673 | the keyed map in insertion order is the fold it is specified by |
| Planner.DedupMeans | demo/src/main.ts:670-674 | one spec per key is kept, the last one chosen |
| Planner.DedupKeepsPlaces | demo/src/main.ts:670-674 | and a spec chosen again keeps the place its key first had |
| Planner.KeyInjective | demo/src/main.ts:597-599 | equal keys mean equal kind, vault, app, account, mint and amount text |
| Planner.SortMeans | demo/src/main.ts:601-610 | the sort permutes and puts withdrawals before account closes before vault closes, whatever the host's order |
| Planner.SortOrders | demo/src/main.ts:601-610 | and, if the host orders addresses, each kind in the order of its vaults |
| Planner.SortIsStable | demo/src/main.ts:601-610 | specs of one kind and vault keep the order they were chosen in |
| Planner.BuildMeans | demo/src/main.ts:612-655 | a spec builds exactly when it has mint, account and a positive amount that fits, as its kind needs; the item is of its vault, app, account, mint, program and amount |
| Planner.RunMeans | demo/src/main.ts:657-682 | another owner's vault is refused; otherwise the page sends exactly when every kept spec can be built, one item each in sorted order, and each item asks for what its spec says |
| Planner.OnRunSelectedReadActions | demo/src/main.ts:657-682 | collecting, dedup, sort, owner check and building give exactly the specified items or error |
| PlannerSoundness.PageGates | demo/src/main.ts:1063-1142 | on the rendered page the gates hold after any clicks |
| PlannerSoundness.PageTicks | demo/src/main.ts:941-971 | every box ticked on the page was itself clicked |
| PlannerSoundness.UsePage | demo/src/main.ts:657-682 | run on the rendered boxes, the page's handlers hand the wallet exactly the plan that `PlannerMeetsProgram` and `TickedVaultIsGone` are about |
| PlannerSoundness.SelectionIsSound | demo/src/main.ts:657-682 | for a table that matches the ledger, every selection the gates allow is a sound plan |
| PlannerSoundness.PlannerMeetsProgram | demo/src/main.ts:597-682 | so the transaction the page sends commits in full over any number of vaults, and the owner gets what it withdraws and closes |
| PlannerSoundness.NothingUnasked | demo/src/main.ts:657-682 | each instruction the page sends is built from a box that is ticked and was clicked, and every ticked box has its instruction |
| PlannerSoundness.TickedVaultIsGone | demo/src/main.ts:1120-1133 | a ticked vault close leaves no vault and no token account under it; what the plan takes from it is exactly all its lamports, those of its accounts and all its tokens, and the owner has at least that much more |
| PlannerSoundness.PageCanEmpty | demo/src/main.ts:1063-1142 | for every vault listed truly there are clicks whose transaction commits in full, closes the vault and all its accounts, and leaves all they held with the owner |
| Decimal.ParsePrinted | flip_demo/ui/src/main.ts:577-589 | for every amount and decimals, parsing the printed amount gives it back |
| Decimal.PrintIsCanonical | demo/src/main.ts:54-63 | a printed amount has no leading zero, a point only if it is not whole, and then a fraction that does not end in zero |
| Decimal.Units | demo/src/main.ts:52 | one SOL is 10^9 lamports, one USDC 10^6 units |
| Decimal.SolDisplaysRoundTrip | demo/src/main.ts:54-63 | the lamport display parses back at 9 decimals, the vault display to the balance above the rent or 0 |
| Decimal.ScaledIsFloor | demo/src/main.ts:167-187 | the parsed amount is the floor of the written number times 10^decimals |
| Decimal.ParsingIsMonotone | demo/src/main.ts:167-187 | a larger written number never parses to less |
| Decimal.Accepted | demo/src/main.ts:167-187 | which strings the two parsers accept, and which of the page's first two errors the others get |
| Decimal.OuterSpaces | demo/src/main.ts:168 | outer spaces change no parse, and are all that trimming takes |
| Decimal.PrefillPasses | flip_demo/ui/src/main.ts:689-699 | a field left empty stakes exactly 1% of an unchanged pool if that is anything, and otherwise nothing; a filled one is left alone |
| Decimal.StakesAreBounded | flip_demo/ui/src/main.ts:852-860 | a parsed stake is sent iff it is positive and a hundred of it fit in the pool; what does not parse, is too much or is zero gets its own error |
| Flip.EncodeFlipData | flip_demo/ui/src/main.ts:651-658 | the ten bytes filled in place are discriminator, amount and bet |
| Flip.FlipDataRoundTrip | flip_demo/program/src/helpers.rs:141-148 | the program reads back the amount and bet the page wrote |
| Flip.FillCpiEntry | flip_demo/program/src/instructions/flip_via_cpi.rs:154-157 | the seventeen bytes filled in place are the SDK's encoding of a token-only CpiEntry |
| FlipHandlers.VerifyBothAtas | flip_demo/program/src/helpers.rs:55-96 | the loop over both accounts decides, error for error, as on the typed ledger |
| FlipHandlers.FlipFromAppIx | flip_demo/program/src/instructions/flip_from_app_ix.rs:31-100 | result or error, and on success every account, agree with the typed route |
| FlipHandlers.FlipViaCpi | flip_demo/program/src/instructions/flip_via_cpi.rs:36-172 | the same, through the vault program's own handler on a loss |
| Flip.AppIxRoute | flip_demo/program/src/instructions/flip_from_app_ix.rs:74-97 | under AppIx a flip that commits is one stake between vault and pool, by the slot's parity |
| Flip.CpiRoute | flip_demo/program/src/instructions/flip_via_cpi.rs:107-169 | the top-level route that commits is the same stake |
| FlipOutcomes.FromAppIxOutcome | flip_demo/program/src/instructions/flip_from_app_ix.rs:31-100 | a flip answers with the first cause in its table; if none applies, exactly the stake moves, to the vault if the slot is as odd or even as was bet and else to the pool |
| FlipOutcomes.UnderAppIxOutcome | flip_demo/program/src/instructions/flip_from_app_ix.rs:31-100 | the same under AppIx, whose own causes come first and under which the vault passed is a signer |
| FlipOutcomes.ViaCpiOutcome | flip_demo/program/src/instructions/flip_via_cpi.rs:36-172 | the same for the top-level route, where CpiEntry's causes decide a loss |
| Flip.RoutesAgree | flip_demo/program/src/instructions/flip_via_cpi.rs:107-169 | if both routes commit for the same accounts, amount, bet and slot they leave the same ledger |
| Flip.FlipsAddUp | flip_demo/program/src/instructions/flip_from_app_ix.rs:74-97 | over any flips by either route the vault changes by the stakes of the committed ones, gained where parity and bet agree and else lost, the pool by the negation, neither below zero |
| FlipRuns.FlipsAreARun | flip_demo/program/src/instructions/flip_via_cpi.rs:115-169 | any session of flips by either route, whether they succeed or not, at times that do not go back, is a run of committed events that ends in the ledger the flips leave, so everything proved of runs holds of it |

## Left out

- Runtime.Bank.TransferChecked: frozen accounts, SPL delegates (next line), multisig, wrapped SOL and Token-2022 extensions are not modelled; wrapped SOL and extensions such as transfer fees would void conservation, `Books.ProcessBooks` and what builds on it.
- Authority.OnlyOwnerOrDelegate: an SPL delegate that the app approves under AppIx, with the vault's signature, is not modelled; it can spend from the vault's token account after the window, so this result, `Isolation.RunIsolates` and `Balances.FlowSigns` hold for runs without such approvals (sums are kept all the same).
- Runtime.Bank.CloseAccount: a token account's separate close authority is not modelled, because accounts made by deposit carry none; an account someone else opened under a vault could carry one and be closed by it.
- Runtime.Bank.CreateAta: checks that a mint is a live account of the token program by owner and length only.
- Handlers.CpiEntry: calls into a token-program slot that is no token program always fail here.
- Handlers.CreateUserVault: the runtime's rent-state rules (a new account below the rent minimum) are not modelled.
- Codec.SdksAgree: account metas are left out; the two SDKs differ in the vault's writable flag for CpiEntry, and TypeScript's type checks on bigint have no counterpart.
- Planner.OnRunSelectedReadActions: of several failing instructions the first in order is reported; the page may surface another, because it builds them concurrently.
- PlannerSoundness.PlannerMeetsProgram: transaction size and compute limits are not modelled.
- Minting, burning and allocation of mints by other programs; token totals are conserved because nothing here mints.
- Removal of accounts other than vaults when they reach zero lamports.
- Borrow-state failures, writable flags and compute units; a program that writes a read-only account fails in the runtime.
- Wallet connection, RPC, DOM, logging, simulation and sending; `sdk/ts/src/readers.ts`, scripts and reports.
- The flip demo's `init` and the `test_program` forwarders.
