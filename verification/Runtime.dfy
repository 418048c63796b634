/** The accounts of one transaction, their typed view, and the called programs acting on their bytes. Two
    instruction slots may name the same account object. */
module Runtime {
  import opened Bytes
  import opened Types
  import opened Layout
  import opened Ledger
  import opened Accounts
  import L = Ledger
  import Spec = VaultProgram
  import Sysvar = InstructionsSysvar

  /** Owner, app and bump of the vault a CPI signs for. */
  datatype Seeds = Seeds(owner: Address, app: Address, bump: byte)

  /** A token account with another balance. */
  function WithAmount(x: Account, n: u64): Account
    requires x.body.Token?
  {
    x.(body := Token(x.body.t.(amount := n)))
  }

  class Bank {
    const env: Env
    const ctx: Spec.Ctx
    const cells: map<Address, AccountView>
    /** The transaction's instructions and the index of the one running, as the sysvar shows them. */
    ghost const instructions: seq<Sysvar.Instr>
    ghost const current: nat

    constructor (env: Env, ctx: Spec.Ctx, cells: map<Address, AccountView>,
                 ghost instructions: seq<Sysvar.Instr>, ghost current: nat)
      ensures this.env == env && this.ctx == ctx && this.cells == cells
      ensures this.instructions == instructions && this.current == current
    {
      this.env, this.ctx, this.cells := env, ctx, cells;
      this.instructions, this.current := instructions, current;
    }

    /** Each account is filed under its own address, and signs as the transaction says. */
    ghost predicate Wired() {
      forall a :: a in cells ==> cells[a].address == a && (cells[a].isSigner <==> a in ctx.signers)
    }

    ghost predicate Has(c: AccountView) { c.address in cells && cells[c.address] == c }

    /** Where the sysvars are among the accounts, their bytes are the runtime's. */
    ghost predicate Sysvars()
      reads cells.Values
    {
      && (CLOCK_ID in cells ==>
            var d := cells[CLOCK_ID].data; |d| >= 40 && I64At(d, 32) == ctx.now)
      && (RENT_ID in cells ==>
            var d := cells[RENT_ID].data; |d| >= 8 && U64At(d, 0) == env.rentPerByte)
      && (INSTRUCTIONS_ID in cells ==>
            && Sysvar.FitsFormat(instructions, current)
            && cells[INSTRUCTIONS_ID].data == Sysvar.Serialize(instructions, current)
            && instructions[current].program == ctx.top)
    }

    ghost function View(): Ledger
      reads cells.Values
    {
      map a | a in cells :: cells[a].Abs()
    }

    /** A method's result and the accounts it leaves, against the typed specification. */
    ghost predicate Agrees(r: Result<()>, s: Result<Ledger>)
      reads cells.Values
    {
      match s
      case Ok(l) => r == Ok(()) && View() == l
      case Err(e) => r == Err(e)
    }

    lemma Sees(c: AccountView)
      requires Wired() && Has(c)
      ensures Get(View(), c.address) == c.Abs() && (c.isSigner <==> c.address in ctx.signers)
    {
    }

    // ----- Writes -----

    /** A change to one account is one update of the view. */
    twostate lemma Others(c: AccountView)
      requires Wired() && Has(c)
      requires forall a :: a in cells && cells[a] != c ==> cells[a].Abs() == old(cells[a].Abs())
      ensures View() == old(View())[c.address := c.Abs()]
    {
    }

    method SetLamports(c: AccountView, n: u64)
      requires Wired() && Has(c)
      modifies c`lamports
      ensures c.lamports == n
      ensures View() == old(View())[c.address := old(c.Abs()).(lamports := n)]
    {
      c.lamports := n;
      Others(c);
    }

    /** A called program replaces an account's lamports, owner and bytes. */
    method Assign(c: AccountView, lamports: u64, owner: Address, data: seq<byte>)
      requires Wired() && Has(c)
      modifies c
      ensures c.lamports == lamports && c.owner == owner && c.data == data
      ensures View() == old(View())[c.address := Account(lamports, BodyOf(owner, data))]
    {
      c.lamports, c.owner, c.data := lamports, owner, data;
      Others(c);
    }

    // ----- Called programs -----

    predicate Signs(c: AccountView, seeds: Option<Seeds>) {
      c.isSigner ||
      (seeds.Some? && env.createPda(seeds.value.owner, seeds.value.app, seeds.value.bump) == Some(c.address))
    }

    method CreateAccount(from: AccountView, to: AccountView, lamports: u64, space: nat, owner: Address,
                         seeds: Option<Seeds>) returns (r: Result<()>)
      requires Wired() && Has(from) && Has(to)
      modifies from, to
      ensures Agrees(r, L.CreateAccount(old(View()), from.address, from.isSigner, to.address, Signs(to, seeds),
                                            lamports, BodyOf(owner, seq(space, _ => 0))))
      ensures r.Ok? ==> to.owner == owner && to.data == seq(space, _ => 0) && to.lamports == lamports
    {
      hide BodyOf;
      var payer, target := from.Abs(), to.Abs();
      if !(from.isSigner && Signs(to, seeds) && from != to
           && payer.body.Blob? && payer.body.program == SYSTEM_ID && payer.body.len == 0
           && target.body.Blob? && target.body.program == SYSTEM_ID && target.body.len == 0
           && target.lamports == 0 && lamports <= payer.lamports) {
        return Err(CpiFailed);
      }
      SetLamports(from, from.lamports - lamports);
      Assign(to, lamports, owner, seq(space, _ => 0));
      return Ok(());
    }

    /** The new token account, topped up by its funder. */
    method OpenToken(funder: AccountView, account: AccountView, need: u64, program: Address, mint: Address,
                     wallet: Address)
      requires Wired() && Has(funder) && Has(account) && funder != account && IsTokenProgram(program)
      requires need <= funder.lamports && account.lamports + need <= U64_MAX
      modifies funder, account
      ensures View() == old(View())[funder.address := old(funder.Abs()).(lamports := old(funder.lamports) - need)]
                        [account.address := Account(old(account.lamports) + need,
                                                    Token(TokenRecord(program, mint, wallet, 0)))]
    {
      hide BodyOf;
      hide TokenImage;
      TokenImageReads(program, mint, wallet);
      SetLamports(funder, funder.lamports - need);
      Assign(account, account.lamports + need, program, TokenImage(mint, wallet));
    }

    method CreateAta(funder: AccountView, account: AccountView, wallet: AccountView, mint: AccountView,
                     program: AccountView, system: AccountView) returns (r: Result<()>)
      requires Wired() && Has(funder) && Has(account) && Has(mint)
      modifies funder, account
      ensures Agrees(r, L.CreateAta(env, old(View()), funder.address, funder.isSigner, account.address,
                                        wallet.address, program.address, mint.address, system.address))
    {
      hide BodyOf;
      var payer, target, m := funder.Abs(), account.Abs(), mint.Abs();
      var need: u64 := if target.lamports >= env.tokenRent then 0 else env.tokenRent - target.lamports;
      if !(funder.isSigner && funder != account && system.address == SYSTEM_ID
           && account.address == env.ata(wallet.address, program.address, mint.address)
           && IsTokenProgram(program.address) && m.body.Blob? && m.body.program == program.address && m.body.len >= 82
           && payer.body.Blob? && payer.body.program == SYSTEM_ID && payer.body.len == 0
           && target.body.Blob? && target.body.program == SYSTEM_ID && target.body.len == 0
           && need <= payer.lamports) {
        return Err(CpiFailed);
      }
      OpenToken(funder, account, need, program.address, mint.address, wallet.address);
      return Ok(());
    }

    /** The token program sets the balance of one account. */
    method SetAmount(c: AccountView, n: u64)
      requires Wired() && Has(c) && c.Abs().body.Token?
      modifies c`data
      ensures View() == old(View())[c.address := WithAmount(old(c.Abs()), n)]
      ensures c.Abs() == WithAmount(old(c.Abs()), n)
    {
      hide BodyOf;
      WriteAmount(c.owner, c.data, n);
      c.Write(TOKEN_ACCT_AMOUNT_OFFSET, Le(n, 8));
      Others(c);
    }

    method MoveTokens(from: AccountView, to: AccountView, amount: u64)
      requires Wired() && Has(from) && Has(to) && from != to
      requires from.Abs().body.Token? && to.Abs().body.Token?
      requires amount <= from.Abs().body.t.amount && to.Abs().body.t.amount + amount <= U64_MAX
      modifies from, to
      ensures View() == old(View())
          [from.address := WithAmount(old(from.Abs()), old(from.Abs()).body.t.amount - amount)]
          [to.address := WithAmount(old(to.Abs()), old(to.Abs()).body.t.amount + amount)]
    {
      hide BodyOf;
      SetAmount(from, from.Abs().body.t.amount - amount);
      SetAmount(to, to.Abs().body.t.amount + amount);
    }

    /** SPL `Transfer`. */
    method Transfer(program: Address, from: AccountView, to: AccountView, authority: Address, signs: bool, amount: u64)
      returns (r: Result<()>)
      requires Wired() && Has(from) && Has(to)
      modifies from, to
      ensures Agrees(r, L.Transfer(old(View()), program, from.address, to.address, authority, signs, amount))
    {
      hide BodyOf;
      var s, d := from.Abs().body, to.Abs().body;
      if !(IsTokenProgram(program) && s.Token? && d.Token?) {
        return Err(CpiFailed);
      }
      if !(s.t.program == program && d.t.program == program && s.t.mint == d.t.mint
           && signs && s.t.authority == authority && amount <= s.t.amount) {
        return Err(CpiFailed);
      }
      if from != to {
        if d.t.amount + amount > U64_MAX {
          return Err(CpiFailed);
        }
        MoveTokens(from, to, amount);
      }
      return Ok(());
    }

    method TransferChecked(program: AccountView, mint: AccountView, from: AccountView, to: AccountView,
                           authority: AccountView, amount: u64, seeds: Option<Seeds>, decimals: byte)
      returns (r: Result<()>)
      requires Wired() && Has(mint) && Has(from) && Has(to)
      modifies from, to
      ensures Agrees(r, L.TransferChecked(old(View()), program.address, mint.address, from.address, to.address,
                                          authority.address, Signs(authority, seeds), amount, decimals))
    {
      hide BodyOf;
      hide L.Transfer;
      var m, s := mint.Abs().body, from.Abs().body;
      if !(IsTokenProgram(program.address) && m.Blob? && m.program == program.address && m.len >= 82
           && m.raw.decimals == decimals && s.Token? && s.t.mint == mint.address) {
        return Err(CpiFailed);
      }
      r := Transfer(program.address, from, to, authority.address, Signs(authority, seeds), amount);
    }

    method CloseAccount(program: AccountView, account: AccountView, destination: AccountView,
                        authority: AccountView, seeds: Option<Seeds>) returns (r: Result<()>)
      requires Wired() && Has(account) && Has(destination)
      modifies account, destination
      ensures Agrees(r, CloseToken(old(View()), program.address, account.address, destination.address,
                                   authority.address, Signs(authority, seeds)))
      ensures r.Ok? ==> destination.owner == old(destination.owner) && destination.data == old(destination.data)
    {
      hide BodyOf;
      UnusedReads([]);
      var x, d := account.Abs(), destination.Abs();
      ghost var l := View();
      if !(IsTokenProgram(program.address) && x.body.Token? && x.body.t.program == program.address
           && Signs(authority, seeds) && x.body.t.authority == authority.address && x.body.t.amount == 0
           && account != destination && d.lamports + x.lamports <= U64_MAX) {
        return Err(CpiFailed);
      }
      SetLamports(destination, destination.lamports + account.lamports);
      assert View() == l[destination.address := d.(lamports := d.lamports + x.lamports)];
      Assign(account, 0, SYSTEM_ID, []);
      return Ok(());
    }
  }
}
