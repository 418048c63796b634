/** Concrete runs in which the properties one would expect first are false: the count is not the number of
    open accounts, a program-owned account need not be initialised, a spend may name the vault as its own
    destination, and an owner may be unable to leave. */
module Witnesses {
  import opened Bytes
  import opened Types
  import opened Layout
  import opened Ledger
  import opened VaultProgram
  import opened Runs
  import opened Books
  import opened Invariants
  import opened Codec
  import opened OwnerExit

  const OWNER: Address := 10
  const APP: Address := 20
  const VAULT: Address := 30
  const DELEGATE: Address := 40
  const MINT: Address := 50
  const STRANGER: Address := 60

  const NO_RAW: Raw := Raw(0, 0, 0, 0, 0)
  const RECORD: VaultRecord := VaultRecord(1, 255, 0, U32_MAX, OWNER, APP, DELEGATE)

  /** One vault address; rent of one lamport a byte. */
  function Chain(): Env {
    Env((o: Address, a: Address, b: byte) => if o == OWNER && a == APP && b == 255 then Some(VAULT) else None,
        (w: Address, p: Address, m: Address) => m, 1, 0)
  }

  /** An owner and a stranger with some lamports, and a mint. */
  function Start(): Ledger {
    map[][OWNER := Account(1000, UNUSED)][MINT := Account(1, Blob(SPL_TOKEN_ID, 82, NO_RAW))]
         [STRANGER := Account(1, UNUSED)]
  }

  function Created(): Ledger {
    Start()[OWNER := Account(768, UNUSED)][VAULT := Account(232, Vault(RECORD))]
  }

  const CREATE: Event :=
    Call({OWNER}, ID, [OWNER, VAULT, APP, DELEGATE, RENT_ID, SYSTEM_ID], Encode(CreateVault(U32_MAX)), [])
  /** A stranger's own account becomes a token account under the vault. */
  const OPEN: Event := Outside(Open(STRANGER, SPL_TOKEN_ID, MINT, VAULT))
  /** A stranger's own account becomes a zeroed, program-owned account of a vault's length. */
  const ALLOCATE: Event := Outside(Allocate(STRANGER, ID, LEN, NO_RAW))
  /** The delegate spends five lamports from the vault to the vault. */
  const SELF_SPEND: Event :=
    Call({DELEGATE}, APP, [DELEGATE, OWNER, VAULT, APP, VAULT, INSTRUCTIONS_ID, CLOCK_ID], Encode(CpiNative(5)), [])

  lemma OnlyVaultDerives(a: Address)
    ensures IsVaultPda(Chain(), a) <==> a == VAULT
  {
    assert Chain().createPda(OWNER, APP, 255) == Some(VAULT);
  }

  lemma StartTotal(w: Weight)
    ensures Total(Start(), w) == if w.Lamports? then 1002 else 0
  {
    var l0: Ledger := map[];
    TotalPut(l0, OWNER, Account(1000, UNUSED), w);
    TotalPut(l0[OWNER := Account(1000, UNUSED)], MINT, Account(1, Blob(SPL_TOKEN_ID, 82, NO_RAW)), w);
    TotalPut(l0[OWNER := Account(1000, UNUSED)][MINT := Account(1, Blob(SPL_TOKEN_ID, 82, NO_RAW))],
             STRANGER, Account(1, UNUSED), w);
  }

  lemma StartIsGenesis()
    ensures Genesis(Start()) && Total(Start(), OpenUnder(VAULT)) == 0
  {
    StartTotal(Lamports);
    StartTotal(OpenUnder(VAULT));
    forall m ensures Total(Start(), TokensOf(m)) <= U64_MAX {
      StartTotal(TokensOf(m));
    }
  }

  lemma CreateHandler(ctx: Ctx)
    requires ctx.signers == {OWNER}
    ensures CreateUserVault(Chain(), ctx, Start(), CREATE.slots, Le(U32_MAX, 4)) == Ok(Created())
  {
    ParseU32Inverts(U32_MAX, []);
    assert FindPda(Chain(), OWNER, APP) == Ok((VAULT, 255));
  }

  lemma CreateCommits()
    ensures Exec(Chain(), World(Start(), 1), CREATE) == Ok(World(Created(), 1))
  {
    hide CreateUserVault;
    var w := World(Start(), 1);
    StartIsGenesis();
    OnlyVaultDerives(OWNER);
    assert CREATE.ix[0] == 0 && CREATE.ix[1..] == Le(U32_MAX, 4);
    CreateHandler(CtxOf(w, CREATE));
    CommitsUnlessSelfSpend(Chain(), w, CREATE);
  }

  lemma CreatedWorld()
    ensures Run(Chain(), World(Start(), 1), [CREATE]) == World(Created(), 1)
    ensures Inv(Chain(), Created()) && Total(Created(), OpenUnder(VAULT)) == 0 && IsVault(Created(), VAULT)
  {
    hide Exec;
    StartIsGenesis();
    CreateCommits();
    assert [CREATE][1..] == [];
    RunInvariant(Chain(), World(Start(), 1), [CREATE]);
    TotalPut(Start(), OWNER, Account(768, UNUSED), OpenUnder(VAULT));
    TotalPut(Start()[OWNER := Account(768, UNUSED)], VAULT, Account(232, Vault(RECORD)), OpenUnder(VAULT));
  }

  function Opened(): Ledger {
    Created()[STRANGER := Account(1, Token(TokenRecord(SPL_TOKEN_ID, MINT, VAULT, 0)))]
  }

  lemma OpenCommits()
    ensures Exec(Chain(), World(Created(), 1), OPEN) == Ok(World(Opened(), 1))
  {
    OnlyVaultDerives(STRANGER);
  }

  /** Two committed events after which one account is open under a vault that counts none, and which no run
      without the app can leave empty: the owner cannot exit. */
  lemma CountIsNotOpenAccounts()
    ensures Genesis(Start())
    ensures var w := Run(Chain(), World(Start(), 1), [CREATE, OPEN]);
            && IsVault(w.l, VAULT) && Count(w.l, VAULT) == 0 && Total(w.l, OpenUnder(VAULT)) == 1
            && forall es :: OwnersRun(es, OWNER, VAULT) ==> !Exited(Run(Chain(), w, es).l, VAULT)
  {
    hide Exec;
    var env, w1, w2 := Chain(), World(Created(), 1), World(Opened(), 1);
    StartIsGenesis();
    CreatedWorld();
    OpenCommits();
    RunConcat(env, World(Start(), 1), [CREATE], [OPEN]);
    assert [CREATE] + [OPEN] == [CREATE, OPEN];
    assert [OPEN][1..] == [];
    assert Run(env, w1, [OPEN]) == w2;
    RunInvariant(env, w1, [OPEN]);
    TotalPut(Created(), STRANGER, Account(1, Token(TokenRecord(SPL_TOKEN_ID, MINT, VAULT, 0))), OpenUnder(VAULT));
    OnlyVaultDerives(VAULT);
    forall es | OwnersRun(es, OWNER, VAULT) ensures !Exited(Run(env, w2, es).l, VAULT) {
      OwnersRunHasNoAppIx(env, w2, es, OWNER, VAULT);
      if Exited(Run(env, w2, es).l, VAULT) {
        ExitNeedsTheCount(env, w2, VAULT, es);
      }
    }
  }

  /** One committed event after which a program-owned 104-byte account carries discriminator 0. */
  lemma OwnedNeedNotBeInitialised()
    ensures Genesis(Start())
    ensures var w := Next(Chain(), World(Start(), 1), ALLOCATE);
            IsVault(w.l, STRANGER) && Get(w.l, STRANGER).body.v == BLANK && BLANK.discriminator == 0
  {
    StartIsGenesis();
    OnlyVaultDerives(STRANGER);
  }

  lemma SelfSpendHandler(ctx: Ctx)
    requires ctx.signers == {DELEGATE} && ctx.top == APP && ctx.now == 1
    ensures CpiEntryNative(ctx, Created(), SELF_SPEND.slots, Le(5, 8))
            == Ok(Created()[VAULT := Account(227, Vault(RECORD))][VAULT := Account(237, Vault(RECORD))])
  {
    ParseU64Inverts(5, []);
  }

  function Spent(): Ledger {
    Created()[VAULT := Account(227, Vault(RECORD))][VAULT := Account(237, Vault(RECORD))]
  }

  lemma SelfSpendProcess(w: World)
    requires w == World(Created(), 1)
    ensures Process(Chain(), CtxOf(w, SELF_SPEND), w.l, SELF_SPEND.slots, SELF_SPEND.ix) == Ok(Spent())
  {
    hide CpiEntryNative;
    assert SELF_SPEND.ix[0] == 7 && SELF_SPEND.ix[1..] == Le(5, 8);
    SelfSpendHandler(CtxOf(w, SELF_SPEND));
  }

  lemma SelfSpendMints()
    ensures Minted(SELF_SPEND.slots, SELF_SPEND.ix) == 5 && !IsAppIx(SELF_SPEND.ix)
  {
    assert SELF_SPEND.ix[0] == 7 && SELF_SPEND.ix[1..] == Le(5, 8);
    ParseU64Inverts(5, []);
  }

  /** A self-spend of five lamports that its handler accepts, leaving five more than there were, and that
      does not commit. */
  lemma SelfSpendMakesLamports()
    ensures Genesis(Start())
    ensures var w := Run(Chain(), World(Start(), 1), [CREATE]);
            var r := Process(Chain(), CtxOf(w, SELF_SPEND), w.l, SELF_SPEND.slots, SELF_SPEND.ix);
            && r.Ok? && Get(r.value, VAULT).lamports == Get(w.l, VAULT).lamports + 5
            && Total(r.value, Lamports) == Total(w.l, Lamports) + 5
            && !Commits(Chain(), w, SELF_SPEND)
  {
    hide Process;
    hide Exec;
    var w := World(Created(), 1);
    StartIsGenesis();
    CreatedWorld();
    OnlyVaultDerives(DELEGATE);
    SelfSpendProcess(w);
    SelfSpendMints();
    CommitsUnlessSelfSpend(Chain(), w, SELF_SPEND);
  }
}
