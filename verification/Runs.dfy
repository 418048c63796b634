/** Runs of the whole system: vault instructions, what apps and outsiders do, the clock, and the
    runtime's removal of a vault without lamports. Every event sequence is a run: what the runtime
    refuses, or what fails, changes nothing. */
module Runs {
  import opened Bytes
  import opened Types
  import opened Layout
  import opened Ledger
  import opened VaultProgram

  /** One act of a program other than the vault program. */
  datatype Op =
    | Send(program: Address, source: Address, destination: Address, authority: Address, amount: u64)
    | Open(account: Address, program: Address, mint: Address, authority: Address)
    | Shut(program: Address, account: Address, destination: Address, authority: Address)
    | Reassign(program: Address, account: Address, authority: Address, successor: Address)
    | Pay(authority: Address, destination: Address, lamports: u64)
    | Allocate(authority: Address, program: Address, len: nat, raw: Raw)

  datatype Event =
    | Call(signers: set<Address>, top: Address, slots: seq<Address>, ix: seq<byte>, ops: seq<Op>)
    | Outside(op: Op)
    | Tick(time: int)
    | Reap(vault: Address)

  datatype World = World(l: Ledger, now: int)

  // ----- What the runtime lets each party do -----

  /** Nobody signs for a vault address, except that under AppIx the vault in use is a signer. The
      System program's own (all-zero) address never signs. */
  ghost predicate MaySign(env: Env, vault: Option<Address>, a: Address) {
    a != SYSTEM_ID && (IsVaultPda(env, a) ==> vault == Some(a))
  }

  /** The account whose key, or whose owner program, consents to the act. */
  function Consenting(op: Op): Address {
    match op
    case Open(account, _, _, _) => account
    case _ => op.authority
  }

  /** A wallet or other account that neither the vault program nor a token program owns. */
  predicate IsForeign(l: Ledger, a: Address) {
    var b := Get(l, a).body;
    b.Blob? && b.program != ID && !IsTokenProgram(b.program)
  }

  ghost function Apply(env: Env, vault: Option<Address>, l: Ledger, op: Op): Result<Ledger> {
    var _ :- Require(MaySign(env, vault, Consenting(op)), CpiFailed);
    match op
    case Send(program, source, destination, authority, amount) =>
      Transfer(l, program, source, destination, authority, true, amount)
    case Open(a, program, mint, authority) =>
      var _ :- Require(IsForeign(l, a) && !IsVaultPda(env, a) && IsMint(l, program, mint), CpiFailed);
      Ok(l[a := Get(l, a).(body := Token(TokenRecord(program, mint, authority, 0)))])
    case Shut(program, a, destination, authority) =>
      CloseToken(l, program, a, destination, authority, true)
    case Reassign(program, a, authority, successor) =>
      var _ :- Require(IsTokenProgram(program) && Controls(l, authority, a)
                       && Get(l, a).body.t.program == program, CpiFailed);
      Ok(l[a := Get(l, a).(body := Token(Get(l, a).body.t.(authority := successor)))])
    case Pay(from, to, lamports) =>
      var _ :- Require(IsForeign(l, from) && from != to, CpiFailed);
      TransferLamports(l, from, to, lamports)
    case Allocate(a, program, len, raw) =>
      var _ :- Require(IsForeign(l, a) && !IsVaultPda(env, a), CpiFailed);
      var body := if program == ID && len == LEN then Vault(BLANK) else Blob(program, len, raw);
      Ok(l[a := Get(l, a).(body := body)])
  }

  ghost function ApplyAll(env: Env, vault: Option<Address>, l: Ledger, ops: seq<Op>): Result<Ledger>
    decreases |ops|
  {
    if ops == [] then Ok(l)
    else
      var l1 :- Apply(env, vault, l, ops[0]);
      ApplyAll(env, vault, l1, ops[1..])
  }

  predicate IsAppIx(ix: seq<byte>) { ix != [] && ix[0] == 5 }

  ghost predicate Authorised(env: Env, e: Event) {
    e.Call? ==> (forall s :: s in e.signers ==> MaySign(env, None, s)) && (!IsAppIx(e.ix) ==> e.ops == [])
  }

  function CtxOf(w: World, e: Event): Ctx
    requires e.Call?
  {
    Ctx(e.signers, w.now, e.top)
  }

  /** One event, if it commits. An instruction commits only if it leaves total lamports as they were. */
  ghost function Exec(env: Env, w: World, e: Event): Result<World> {
    match e
    case Call(signers, top, slots, ix, ops) =>
      var _ :- Require(Authorised(env, e), CpiFailed);
      var l1 :- Process(env, CtxOf(w, e), w.l, slots, ix);
      var l2 :- if IsAppIx(ix) then ApplyAll(env, Some(slots[2]), l1, ops) else Ok(l1);
      var _ :- Require(Total(l2, Lamports) == Total(w.l, Lamports), Unbalanced);
      Ok(w.(l := l2))
    case Outside(op) =>
      var l1 :- Apply(env, None, w.l, op);
      Ok(w.(l := l1))
    case Tick(time) =>
      var _ :- Require(w.now <= time, InvalidArgument);
      Ok(w.(now := time))
    case Reap(a) =>
      var _ :- Require(IsVault(w.l, a) && Get(w.l, a).lamports == 0, InvalidArgument);
      Ok(w.(l := w.l[a := EMPTY]))
  }

  ghost predicate Commits(env: Env, w: World, e: Event) { Exec(env, w, e).Ok? }

  /** A failed event rolls back. */
  ghost function Next(env: Env, w: World, e: Event): World {
    if Commits(env, w, e) then Exec(env, w, e).value else w
  }

  ghost function Run(env: Env, w: World, es: seq<Event>): World
    decreases |es|
  {
    if es == [] then w else Run(env, Next(env, w, es[0]), es[1..])
  }

  lemma {:induction false} RunConcat(env: Env, w: World, es: seq<Event>, fs: seq<Event>)
    ensures Run(env, w, es + fs) == Run(env, Run(env, w, es), fs)
    decreases |es|
  {
    if es == [] {
      assert es + fs == fs;
    } else {
      assert (es + fs)[1..] == es[1..] + fs;
      RunConcat(env, Next(env, w, es[0]), es[1..], fs);
    }
  }

  /** The vault a committed call works on. */
  function VaultOf(e: Event): Option<Address> {
    if e.Call? && e.ix != [] && VaultSlot(e.ix[0]) < |e.slots| then Some(e.slots[VaultSlot(e.ix[0])]) else None
  }

  function Kind(e: Event): int { if e.Call? && e.ix != [] then e.ix[0] else -1 }

  /** What an instruction that succeeds was passed: enough slots for its vault, and the data it parses. */
  lemma SlotsSuffice(env: Env, ctx: Ctx, l: Ledger, slots: seq<Address>, ix: seq<byte>)
    requires Process(env, ctx, l, slots, ix).Ok?
    ensures ix != [] && VaultSlot(ix[0]) < |slots|
    ensures ix[0] == 0 ==> |slots| == 6 && |ix| == 5
    ensures ix[0] == 2 ==> |slots| == 4 && |ix| == 5
  {
  }

  // ----- The reachable-state invariant -----

  /** A program-owned 104-byte account is either a vault at the address its own fields derive, or a
      zeroed account an outsider allocated where no vault can be. */
  ghost predicate RecordFits(env: Env, a: Address, v: VaultRecord) {
    (v == BLANK && !IsVaultPda(env, a)) ||
    (v.discriminator == USER_VAULT_DISCRIMINATOR && FindPda(env, v.owner, v.app) == Ok((a, v.bump)))
  }

  ghost predicate Fits(env: Env, l: Ledger) {
    forall a :: IsVault(l, a) ==> RecordFits(env, a, Get(l, a).body.v)
  }

  ghost predicate MintsStand(l: Ledger) {
    forall a :: IsToken(l, a) ==> IsMint(l, Get(l, a).body.t.program, Get(l, a).body.t.mint)
  }

  ghost predicate Bounded(l: Ledger) {
    Total(l, Lamports) <= U64_MAX && forall m :: Total(l, TokensOf(m)) <= U64_MAX
  }

  ghost predicate Inv(env: Env, l: Ledger) { Fits(env, l) && MintsStand(l) && Bounded(l) }

  /** A ledger before the vault program's first instruction. */
  ghost predicate Genesis(l: Ledger) {
    (forall a :: !IsVault(l, a)) && MintsStand(l) && Bounded(l)
  }

  /** A signer's own vault is not itself: no signer's address is a vault. */
  lemma FitVault(env: Env, l: Ledger, a: Address, signers: set<Address>)
    requires Fits(env, l) && IsVault(l, a)
    requires forall s :: s in signers ==> MaySign(env, None, s)
    requires Get(l, a).body.v.owner in signers || Get(l, a).body.v.delegate in signers
    ensures a !in signers && IsVaultPda(env, a)
    ensures var v := Get(l, a).body.v; env.createPda(v.owner, v.app, v.bump) == Some(a) && v.discriminator == 1
  {
  }
}
