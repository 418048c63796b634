/** The typed ledger: what each account's owner program and bytes say, and the System, SPL token and
    associated-token programs the vault program calls, by contract. */
module Ledger {
  import opened Bytes
  import opened Types
  import opened Layout

  /** An initialised SPL token account. */
  datatype TokenRecord = TokenRecord(program: Address, mint: Address, authority: Address, amount: u64)

  /** What raw reads at the token and mint offsets find, zero past the end of the data. */
  datatype Raw = Raw(mint: Address, wallet: Address, amount: u64, state: byte, decimals: byte)

  /** A program-owned 104-byte account, an initialised token account, or anything else: its owner
      program, its length and its raw fields. */
  datatype Body =
    | Vault(v: VaultRecord)
    | Token(t: TokenRecord)
    | Blob(program: Address, len: nat, raw: Raw)

  datatype Account = Account(lamports: u64, body: Body)

  type Ledger = map<Address, Account>

  const UNUSED: Body := Blob(SYSTEM_ID, 0, Raw(0, 0, 0, 0, 0))
  const EMPTY: Account := Account(0, UNUSED)

  function Get(l: Ledger, a: Address): Account { if a in l then l[a] else EMPTY }

  function ProgramOf(b: Body): Address {
    match b
    case Vault(_) => ID
    case Token(t) => t.program
    case Blob(p, _, _) => p
  }

  predicate IsVault(l: Ledger, a: Address) { Get(l, a).body.Vault? }

  predicate IsToken(l: Ledger, a: Address) { Get(l, a).body.Token? }

  /** `a` is an open token account that only `authority` can spend from. */
  predicate Controls(l: Ledger, authority: Address, a: Address) {
    IsToken(l, a) && Get(l, a).body.t.authority == authority
  }

  function Amount(l: Ledger, a: Address): u64 { if IsToken(l, a) then Get(l, a).body.t.amount else 0 }

  /** The count a vault stores, 0 where there is no vault. */
  function Count(l: Ledger, a: Address): u16 { if IsVault(l, a) then Get(l, a).body.v.ataCount else 0 }

  // ----- Address derivation -----

  /** The parts of the chain the program does not compute: `create_program_address` on the seeds
      ["vault", owner, app, bump], the associated token address of (wallet, token program, mint), the
      rent sysvar's rate, and the lamports a token account needs. */
  datatype Env = Env(
    createPda: (Address, Address, byte) -> Option<Address>,
    ata: (Address, Address, Address) -> Address,
    rentPerByte: u64,
    tokenRent: u64)

  /** `find_program_address`: the largest bump from 255 down to 1 that gives an address; 0 is not tried. */
  function FindPda(env: Env, owner: Address, app: Address, bump: byte := 255): (r: Result<(Address, byte)>)
    requires bump >= 1
    ensures r.Ok? ==> env.createPda(owner, app, r.value.1) == Some(r.value.0) && 1 <= r.value.1 <= bump
    ensures r.Ok? ==> forall b: byte :: r.value.1 < b <= bump ==> env.createPda(owner, app, b) == None
    ensures r.Err? ==> r.error == NoViableBump
    ensures r.Err? <==> forall b: byte :: 1 <= b <= bump ==> env.createPda(owner, app, b) == None
    decreases bump
  {
    match env.createPda(owner, app, bump)
    case Some(a) => Ok((a, bump))
    case None => if bump == 1 then Err(NoViableBump) else FindPda(env, owner, app, bump - 1)
  }

  /** `a` is a program-derived address of the vault program: no key signs for it. */
  ghost predicate IsVaultPda(env: Env, a: Address) {
    exists owner: Address, app: Address, bump: byte :: env.createPda(owner, app, bump) == Some(a)
  }

  /** An account may act as signer in a CPI if it signed the transaction or the seeds derive it. */
  predicate SeedsSign(env: Env, signers: set<Address>, owner: Address, app: Address, bump: byte, a: Address) {
    a in signers || env.createPda(owner, app, bump) == Some(a)
  }

  // ----- Lamport helpers (program/src/helpers/util.rs) -----

  /** Both balances are read before either is set, so when source and destination are one account the
      second write wins. */
  function TransferLamports(l: Ledger, source: Address, destination: Address, lamports: u64): Result<Ledger> {
    var src, dst := Get(l, source).lamports, Get(l, destination).lamports;
    if lamports > src then Err(InsufficientFunds)
    else if dst + lamports > U64_MAX then Err(ArithmeticOverflow)
    else
      var l1 := l[source := Get(l, source).(lamports := src - lamports)];
      Ok(l1[destination := Get(l1, destination).(lamports := dst + lamports)])
  }

  function CloseProgramAccount(l: Ledger, account: Address, recipient: Address): Result<Ledger> {
    var rent := Get(l, account).lamports;
    var dst := Get(l, recipient).lamports;
    if dst + rent > U64_MAX then Err(ArithmeticOverflow)
    else Ok(l[recipient := Get(l, recipient).(lamports := dst + rent)][account := EMPTY])
  }

  // ----- Called programs, by contract -----

  /** System `CreateAccount`: a signing, data-free System wallet funds an unused address. */
  function CreateAccount(l: Ledger, from: Address, fromSigns: bool, to: Address, toSigns: bool,
                         lamports: u64, body: Body): Result<Ledger> {
    var payer, target := Get(l, from), Get(l, to);
    if fromSigns && toSigns && from != to
       && payer.body.Blob? && payer.body.program == SYSTEM_ID && payer.body.len == 0
       && target.body.Blob? && target.body.program == SYSTEM_ID && target.body.len == 0
       && target.lamports == 0 && lamports <= payer.lamports
    then Ok(l[from := payer.(lamports := payer.lamports - lamports)][to := Account(lamports, body)])
    else Err(CpiFailed)
  }

  /** A mint the token program would accept. */
  predicate IsMint(l: Ledger, program: Address, mint: Address) {
    var b := Get(l, mint).body;
    IsTokenProgram(program) && b.Blob? && b.program == program && b.len >= 82
  }

  /** Associated-token `Create`: only the derived address, only if unused; the funder tops it up. It calls the
      System program, which must be the account passed for it. */
  function CreateAta(env: Env, l: Ledger, funder: Address, funderSigns: bool, ata: Address,
                     wallet: Address, program: Address, mint: Address, system: Address): Result<Ledger> {
    var payer, target := Get(l, funder), Get(l, ata);
    var need: u64 := if target.lamports >= env.tokenRent then 0 else env.tokenRent - target.lamports;
    if funderSigns && funder != ata && ata == env.ata(wallet, program, mint) && IsMint(l, program, mint)
       && system == SYSTEM_ID
       && payer.body.Blob? && payer.body.program == SYSTEM_ID && payer.body.len == 0
       && target.body.Blob? && target.body.program == SYSTEM_ID && target.body.len == 0
       && need <= payer.lamports
    then Ok(l[funder := payer.(lamports := payer.lamports - need)]
             [ata := Account(target.lamports + need, Token(TokenRecord(program, mint, wallet, 0)))])
    else Err(CpiFailed)
  }

  /** SPL `Transfer`. A transfer of an account to itself changes nothing. */
  function Transfer(l: Ledger, program: Address, source: Address, destination: Address,
                    authority: Address, signs: bool, amount: u64): Result<Ledger> {
    if IsTokenProgram(program) && IsToken(l, source) && IsToken(l, destination) then
      var s, d := Get(l, source), Get(l, destination);
      if s.body.t.program == program && d.body.t.program == program && s.body.t.mint == d.body.t.mint
         && signs && s.body.t.authority == authority && amount <= s.body.t.amount
      then
        if source == destination then Ok(l)
        else if d.body.t.amount + amount > U64_MAX then Err(CpiFailed)
        else Ok(l[source := s.(body := Token(s.body.t.(amount := s.body.t.amount - amount)))]
                 [destination := d.(body := Token(d.body.t.(amount := d.body.t.amount + amount)))])
      else Err(CpiFailed)
    else Err(CpiFailed)
  }

  /** SPL `TransferChecked`: also the mint and its decimals must be the source's. */
  function TransferChecked(l: Ledger, program: Address, mint: Address, source: Address, destination: Address,
                           authority: Address, signs: bool, amount: u64, decimals: byte): Result<Ledger> {
    if IsMint(l, program, mint) && Get(l, mint).body.raw.decimals == decimals
       && IsToken(l, source) && Get(l, source).body.t.mint == mint
    then Transfer(l, program, source, destination, authority, signs, amount)
    else Err(CpiFailed)
  }

  /** SPL `CloseAccount` on an empty token account. */
  function CloseToken(l: Ledger, program: Address, account: Address, destination: Address,
                      authority: Address, signs: bool): Result<Ledger> {
    var x, d := Get(l, account), Get(l, destination);
    if IsTokenProgram(program) && x.body.Token? && x.body.t.program == program && signs
       && x.body.t.authority == authority && x.body.t.amount == 0 && account != destination
       && d.lamports + x.lamports <= U64_MAX
    then Ok(l[destination := d.(lamports := d.lamports + x.lamports)][account := EMPTY])
    else Err(CpiFailed)
  }

  // ----- Sums over the ledger -----

  datatype Weight =
    | Lamports
    | TokensOf(mint: Address)
    | OpenUnder(authority: Address)
    | HeldBy(wallet: Address, m: Address)

  function W(w: Weight, x: Account): nat {
    match w
    case Lamports => x.lamports
    case TokensOf(m) => if x.body.Token? && x.body.t.mint == m then x.body.t.amount else 0
    case OpenUnder(v) => if x.body.Token? && x.body.t.authority == v then 1 else 0
    case HeldBy(o, m) =>
      if x.body.Token? && x.body.t.authority == o && x.body.t.mint == m then x.body.t.amount else 0
  }

  ghost function Total(l: Ledger, w: Weight): nat {
    if l == map[] then 0
    else
      var a :| a in l;
      W(w, l[a]) + Total(l - {a}, w)
  }

  lemma {:induction false} TotalSplit(l: Ledger, a: Address, w: Weight)
    requires a in l
    ensures Total(l, w) == W(w, l[a]) + Total(l - {a}, w)
    decreases |l|
  {
    var b :| b in l && Total(l, w) == W(w, l[b]) + Total(l - {b}, w);
    if b != a {
      assert |l - {b}| < |l| by { assert l == (l - {b})[b := l[b]]; }
      assert |l - {a}| < |l| by { assert l == (l - {a})[a := l[a]]; }
      TotalSplit(l - {b}, a, w);
      TotalSplit(l - {a}, b, w);
      assert l - {b} - {a} == l - {a} - {b};
    }
  }

  /** Setting one account moves a sum by that account's difference. */
  lemma TotalPut(l: Ledger, a: Address, x: Account, w: Weight)
    ensures Total(l[a := x], w) == Total(l, w) - W(w, Get(l, a)) + W(w, x)
  {
    TotalSplit(l[a := x], a, w);
    assert l[a := x] - {a} == l - {a};
    if a in l {
      TotalSplit(l, a, w);
    } else {
      assert l - {a} == l;
    }
  }

  lemma TotalPut2(l: Ledger, a: Address, x: Account, b: Address, y: Account, w: Weight)
    requires a != b
    ensures Total(l[a := x][b := y], w) ==
            Total(l, w) - W(w, Get(l, a)) + W(w, x) - W(w, Get(l, b)) + W(w, y)
  {
    TotalPut(l, a, x, w);
    TotalPut(l[a := x], b, y, w);
  }

  /** A sum dominates any two of its terms. */
  lemma TotalDominates(l: Ledger, a: Address, b: Address, w: Weight)
    requires a != b
    ensures W(w, Get(l, a)) + W(w, Get(l, b)) <= Total(l, w)
  {
    if a in l {
      TotalSplit(l, a, w);
      if b in l {
        TotalSplit(l - {a}, b, w);
      }
    } else if b in l {
      TotalSplit(l, b, w);
    }
  }
}
