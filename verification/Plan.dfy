/** Owner-signed clean-up plans: withdrawals, then token-account closes, then vault closes. A plan that
    is sound for the ledger runs to completion, and its result is what the owner gets back. */
module Plan {
  import opened Bytes
  import opened Types
  import opened Layout
  import opened Ledger
  import opened VaultProgram
  import opened Runs
  import opened Books
  import opened Invariants
  import opened Codec

  datatype Item =
    | TakeOut(vault: Address, app: Address, ata: Address, mint: Address, program: Address, amount: u64,
              dest: Address)
    | ShutAta(vault: Address, app: Address, ata: Address, mint: Address, program: Address)
    | ShutVault(vault: Address, app: Address)

  function Rank(i: Item): nat {
    match i case TakeOut(_, _, _, _, _, _, _) => 0 case ShutAta(_, _, _, _, _) => 1 case ShutVault(_, _) => 2
  }

  /** The instruction the SDK builds for an item, signed by the owner; withdrawals go to the account the item
      names and closed accounts' lamports to the owner. */
  function EventOf(owner: Address, i: Item): Event {
    match i
    case TakeOut(v, app, ata, mint, program, amount, dest) =>
      Call({owner}, ID, [owner, v, ata, app, dest, mint, program],
           Encode(Withdraw(amount)), [])
    case ShutAta(v, app, ata, mint, program) =>
      Call({owner}, ID, [owner, v, app, ata, owner, mint, program], Encode(CloseAta), [])
    case ShutVault(v, app) =>
      Call({owner}, ID, [owner, v, app], Encode(CloseVault), [])
  }

  function Events(owner: Address, items: seq<Item>): (es: seq<Event>)
    ensures |es| == |items|
    ensures forall k :: 0 <= k < |items| ==> es[k] == EventOf(owner, items[k])
  {
    if items == [] then [] else [EventOf(owner, items[0])] + Events(owner, items[1..])
  }

  ghost predicate AllCommit(env: Env, w: World, es: seq<Event>)
    decreases |es|
  {
    es == [] || (Commits(env, w, es[0]) && AllCommit(env, Next(env, w, es[0]), es[1..]))
  }

  // ----- Soundness of a plan for a ledger -----

  function Shuts(items: seq<Item>, v: Address): nat {
    if items == [] then 0
    else (if items[0].ShutAta? && items[0].vault == v then 1 else 0) + Shuts(items[1..], v)
  }

  predicate Sorted(items: seq<Item>) {
    forall j, k :: 0 <= j < k < |items| ==> Rank(items[j]) <= Rank(items[k])
  }

  /** Nothing twice, and no account withdrawn from twice. */
  predicate Distinct(items: seq<Item>) {
    forall j, k :: 0 <= j < k < |items| ==> Differ(items[j], items[k])
  }

  predicate Differ(i: Item, j: Item) { i != j && !(i.TakeOut? && j.TakeOut? && i.ata == j.ata) }

  ghost predicate TakesOut(items: seq<Item>, ata: Address) {
    exists i :: i in items && i.TakeOut? && i.ata == ata
  }

  /** The item names the owner's vault and, for a token account, what the ledger says of it. */
  predicate Names(l: Ledger, owner: Address, i: Item) {
    && IsVault(l, i.vault) && Get(l, i.vault).body.v.owner == owner && Get(l, i.vault).body.v.app == i.app
    && (!i.ShutVault? ==>
          && Controls(l, i.vault, i.ata)
          && Get(l, i.ata).body.t.mint == i.mint && Get(l, i.ata).body.t.program == i.program)
  }

  /** `d` is a token account of this mint that the owner spends from, associated or not. */
  predicate OwnersAccount(l: Ledger, owner: Address, program: Address, mint: Address, d: Address) {
    Controls(l, owner, d) && Get(l, d).body.t.mint == mint && Get(l, d).body.t.program == program
  }

  ghost predicate ItemSound(l: Ledger, owner: Address, items: seq<Item>, i: Item) {
    && Names(l, owner, i)
    && match i
       case TakeOut(_, _, ata, mint, program, amount, dest) =>
         amount == Get(l, ata).body.t.amount > 0 && OwnersAccount(l, owner, program, mint, dest)
       case ShutAta(v, _, ata, _, _) =>
         (Amount(l, ata) == 0 || TakesOut(items, ata)) && Shuts(items, v) <= Count(l, v) && ata != owner
       case ShutVault(v, _) => Shuts(items, v) == Count(l, v)
  }

  /** Ranks in order, nothing twice, every funded close preceded by its withdrawal, every vault close by
      as many account closes as the vault counts. */
  ghost predicate Sound(env: Env, l: Ledger, owner: Address, items: seq<Item>) {
    && Inv(env, l) && MaySign(env, None, owner)
    && Sorted(items) && Distinct(items)
    && forall i :: i in items ==> ItemSound(l, owner, items, i)
  }

  // ----- What a plan returns -----

  /** Lamports held by the accounts a plan closes. */
  function Gain(l: Ledger, items: seq<Item>): nat {
    if items == [] then 0
    else GainOf(l, items[0]) + Gain(l, items[1..])
  }

  /** The part of it that one vault and its accounts held. */
  function GainFrom(l: Ledger, items: seq<Item>, v: Address): nat {
    if items == [] then 0
    else (if items[0].vault == v then GainOf(l, items[0]) else 0) + GainFrom(l, items[1..], v)
  }

  function GainOf(l: Ledger, i: Item): nat {
    match i
    case TakeOut(_, _, _, _, _, _, _) => 0
    case ShutAta(_, _, ata, _, _) => Get(l, ata).lamports
    case ShutVault(v, _) => Get(l, v).lamports
  }

  /** Tokens of mint `m` a plan withdraws, in all and from one vault. */
  function Withdrawn(items: seq<Item>, m: Address): nat {
    if items == [] then 0
    else (if items[0].TakeOut? && items[0].mint == m then items[0].amount else 0) + Withdrawn(items[1..], m)
  }

  function WithdrawnFrom(items: seq<Item>, v: Address, m: Address): nat {
    if items == [] then 0
    else (if items[0].TakeOut? && items[0].mint == m && items[0].vault == v then items[0].amount else 0)
         + WithdrawnFrom(items[1..], v, m)
  }

  function Closed(i: Item): Option<Address> {
    match i
    case TakeOut(_, _, _, _, _, _, _) => None
    case ShutAta(_, _, ata, _, _) => Some(ata)
    case ShutVault(v, _) => Some(v)
  }

  // ----- One item -----

  lemma TakeOutHandler(env: Env, ctx: Ctx, l: Ledger, owner: Address, i: Item)
    requires Inv(env, l) && Names(l, owner, i) && i.TakeOut? && ctx.signers == {owner} && MaySign(env, None, owner)
    requires i.amount == Get(l, i.ata).body.t.amount > 0 && OwnersAccount(l, owner, i.program, i.mint, i.dest)
    ensures var dest := i.dest;
            && WithdrawUserVault(env, ctx, l, [owner, i.vault, i.ata, i.app, dest, i.mint, i.program], Le(i.amount, 8))
               == Transfer(l, i.program, i.ata, dest, i.vault, true, i.amount)
            && Transfer(l, i.program, i.ata, dest, i.vault, true, i.amount).Ok?
  {
    var dest := i.dest;
    ParseU64Inverts(i.amount, []);
    FitVault(env, l, i.vault, {owner});
    assert IsToken(l, i.ata) && IsToken(l, dest);
    TotalDominates(l, i.ata, dest, TokensOf(i.mint));
  }

  lemma TakeOutCommits(env: Env, w: World, owner: Address, items: seq<Item>)
    requires Sound(env, w.l, owner, items) && items != [] && items[0].TakeOut?
    ensures Process(env, CtxOf(w, EventOf(owner, items[0])), w.l, EventOf(owner, items[0]).slots,
                    EventOf(owner, items[0]).ix)
            == Transfer(w.l, items[0].program, items[0].ata, items[0].dest,
                        items[0].vault, true, items[0].amount)
    ensures Transfer(w.l, items[0].program, items[0].ata, items[0].dest,
                     items[0].vault, true, items[0].amount).Ok?
  {
    hide WithdrawUserVault;
    hide Transfer;
    var i := items[0];
    var e := EventOf(owner, i);
    assert ItemSound(w.l, owner, items, i);
    assert e.ix[1..] == Le(i.amount, 8);
    TakeOutHandler(env, CtxOf(w, e), w.l, owner, i);
  }

  lemma ShutAtaHandler(env: Env, ctx: Ctx, l: Ledger, owner: Address, i: Item)
    requires Inv(env, l) && Names(l, owner, i) && i.ShutAta? && ctx.signers == {owner} && MaySign(env, None, owner)
    requires Amount(l, i.ata) == 0 && Count(l, i.vault) > 0 && i.ata != owner
    ensures CloseToken(l, i.program, i.ata, owner, i.vault, true).Ok?
    ensures CloseVaultAta(env, ctx, l, [owner, i.vault, i.app, i.ata, owner, i.mint, i.program])
            == Ok(SetRecord(CloseToken(l, i.program, i.ata, owner, i.vault, true).value, i.vault,
                            Get(l, i.vault).body.v.(ataCount := Count(l, i.vault) - 1)))
  {
    hide FindPda;
    FitVault(env, l, i.vault, {owner});
    assert IsToken(l, i.ata);
    TotalDominates(l, i.ata, owner, Lamports);
  }

  lemma ShutAtaCommits(env: Env, w: World, owner: Address, items: seq<Item>)
    requires Sound(env, w.l, owner, items) && items != [] && items[0].ShutAta?
    ensures CloseToken(w.l, items[0].program, items[0].ata, owner, items[0].vault, true).Ok?
    ensures Count(w.l, items[0].vault) > 0
    ensures Process(env, CtxOf(w, EventOf(owner, items[0])), w.l, EventOf(owner, items[0]).slots,
                    EventOf(owner, items[0]).ix)
            == Ok(SetRecord(CloseToken(w.l, items[0].program, items[0].ata, owner, items[0].vault, true).value,
                            items[0].vault,
                            Get(w.l, items[0].vault).body.v.(ataCount := Count(w.l, items[0].vault) - 1)))
  {
    hide CloseVaultAta;
    hide CloseToken;
    var i := items[0];
    assert ItemSound(w.l, owner, items, i);
    NothingTakenOut(items, i.ata);
    ShutAtaHandler(env, CtxOf(w, EventOf(owner, i)), w.l, owner, i);
  }

  /** Past the withdrawals, none is left. */
  lemma NothingTakenOut(items: seq<Item>, ata: Address)
    requires Sorted(items) && items != [] && Rank(items[0]) >= 1
    ensures !TakesOut(items, ata)
  {
  }

  lemma ShutVaultHandler(env: Env, ctx: Ctx, l: Ledger, owner: Address, i: Item)
    requires Inv(env, l) && Names(l, owner, i) && i.ShutVault? && ctx.signers == {owner} && MaySign(env, None, owner)
    requires Count(l, i.vault) == 0
    ensures CloseProgramAccount(l, i.vault, owner).Ok? && i.vault != owner
    ensures CloseUserVault(ctx, l, [owner, i.vault, i.app]) == CloseProgramAccount(l, i.vault, owner)
  {
    FitVault(env, l, i.vault, {owner});
    TotalDominates(l, i.vault, owner, Lamports);
  }

  lemma ShutVaultCommits(env: Env, w: World, owner: Address, items: seq<Item>)
    requires Sound(env, w.l, owner, items) && items != [] && items[0].ShutVault?
    ensures CloseProgramAccount(w.l, items[0].vault, owner).Ok? && items[0].vault != owner
    ensures Process(env, CtxOf(w, EventOf(owner, items[0])), w.l, EventOf(owner, items[0]).slots,
                    EventOf(owner, items[0]).ix)
            == CloseProgramAccount(w.l, items[0].vault, owner)
  {
    hide CloseUserVault;
    hide CloseProgramAccount;
    var i := items[0];
    assert ItemSound(w.l, owner, items, i);
    NoShutsLeft(items, i.vault);
    ShutVaultHandler(env, CtxOf(w, EventOf(owner, i)), w.l, owner, i);
  }

  lemma {:induction false} NoShutsLeft(items: seq<Item>, v: Address)
    requires forall k :: 0 <= k < |items| ==> Rank(items[k]) == 2
    ensures Shuts(items, v) == 0
  {
    if items != [] {
      NoShutsLeft(items[1..], v);
    }
  }

  // ----- The rest of a sound plan is sound for the ledger its first item leaves -----

  /** A withdrawal empties one account into another and changes nothing else. */
  ghost predicate TookOut(l: Ledger, l': Ledger, i: Item)
    requires i.TakeOut? && IsToken(l, i.ata) && IsToken(l, i.dest)
  {
    && i.ata != i.dest
    && (forall a: Address :: a != i.ata && a != i.dest ==> Get(l', a) == Get(l, a))
    && Get(l', i.ata) == Get(l, i.ata).(body := Token(Get(l, i.ata).body.t.(amount := 0)))
    && IsToken(l', i.dest)
    && Get(l', i.dest) == Get(l, i.dest).(body := Token(Get(l, i.dest).body.t.(amount := Amount(l', i.dest))))
  }

  lemma TakeOutEffect(l: Ledger, owner: Address, i: Item, l': Ledger)
    requires i.TakeOut? && i.vault != owner && Controls(l, i.vault, i.ata) && Controls(l, owner, i.dest)
    requires i.amount == Amount(l, i.ata)
    requires Transfer(l, i.program, i.ata, i.dest, i.vault, true, i.amount) == Ok(l')
    ensures TookOut(l, l', i)
  {
  }

  /** Closing an account frees it, pays the owner and counts it out. */
  ghost predicate DidShut(l: Ledger, l': Ledger, owner: Address, i: Item)
    requires i.ShutAta? && IsVault(l, i.vault) && Count(l, i.vault) > 0
  {
    && (forall a: Address :: a != i.ata && a != owner && a != i.vault ==> Get(l', a) == Get(l, a))
    && Get(l', i.ata) == EMPTY && i.ata != owner
    && Get(l', owner).body == Get(l, owner).body
    && Get(l', owner).lamports == Get(l, owner).lamports + Get(l, i.ata).lamports
    && Get(l', i.vault)
       == Get(l, i.vault).(body := Vault(Get(l, i.vault).body.v.(ataCount := Count(l, i.vault) - 1)))
  }

  lemma ShutAtaEffect(l: Ledger, owner: Address, i: Item, l': Ledger)
    requires i.ShutAta? && IsVault(l, i.vault) && i.vault != owner && i.ata != owner
    requires CloseToken(l, i.program, i.ata, owner, i.vault, true).Ok? && Count(l, i.vault) > 0
    requires l' == SetRecord(CloseToken(l, i.program, i.ata, owner, i.vault, true).value, i.vault,
                             Get(l, i.vault).body.v.(ataCount := Count(l, i.vault) - 1))
    ensures DidShut(l, l', owner, i)
  {
  }

  /** What a plan's first item says of each later one. */
  lemma HeadAndLater(env: Env, l: Ledger, owner: Address, items: seq<Item>, j: Item)
    requires Sound(env, l, owner, items) && items != [] && j in items[1..]
    ensures ItemSound(l, owner, items, items[0]) && ItemSound(l, owner, items, j)
    ensures Differ(items[0], j) && Rank(items[0]) <= Rank(j)
    ensures items[0].vault != owner && j.vault != owner
  {
    assert items[0] in items && j in items;
    FitVault(env, l, items[0].vault, {owner});
    FitVault(env, l, j.vault, {owner});
    var k :| 0 <= k < |items[1..]| && items[1..][k] == j;
    assert items[k + 1] == j;
  }

  lemma TailTake(l: Ledger, l': Ledger, owner: Address, items: seq<Item>, j: Item)
    requires items != [] && items[0].TakeOut? && j.TakeOut? && Differ(items[0], j)
    requires items[0].vault != owner && j.vault != owner
    requires ItemSound(l, owner, items, items[0]) && ItemSound(l, owner, items, j)
    requires IsToken(l, items[0].ata) && IsToken(l, items[0].dest) && TookOut(l, l', items[0])
    ensures ItemSound(l', owner, items[1..], j)
  {
  }

  lemma TailShutAfterTake(l: Ledger, l': Ledger, owner: Address, items: seq<Item>, j: Item)
    requires items != [] && items[0].TakeOut? && j.ShutAta?
    requires items[0].vault != owner && j.vault != owner
    requires ItemSound(l, owner, items, items[0]) && ItemSound(l, owner, items, j)
    requires IsToken(l, items[0].ata) && IsToken(l, items[0].dest) && TookOut(l, l', items[0])
    ensures ItemSound(l', owner, items[1..], j) && GainOf(l', j) == GainOf(l, j)
  {
    if Amount(l', j.ata) != 0 {
      var k :| k in items && k.TakeOut? && k.ata == j.ata;
      assert k in items[1..];
    }
  }

  lemma TailVaultAfterTake(l: Ledger, l': Ledger, owner: Address, items: seq<Item>, j: Item)
    requires items != [] && items[0].TakeOut? && j.ShutVault?
    requires ItemSound(l, owner, items, items[0]) && ItemSound(l, owner, items, j)
    requires IsToken(l, items[0].ata) && IsToken(l, items[0].dest) && TookOut(l, l', items[0])
    ensures ItemSound(l', owner, items[1..], j) && GainOf(l', j) == GainOf(l, j)
  {
  }

  lemma TailAfterTakeOut(env: Env, l: Ledger, owner: Address, items: seq<Item>, j: Item, l': Ledger)
    requires Sound(env, l, owner, items) && items != [] && items[0].TakeOut? && j in items[1..]
    requires IsToken(l, items[0].ata) && IsToken(l, items[0].dest) && TookOut(l, l', items[0])
    ensures ItemSound(l', owner, items[1..], j) && GainOf(l', j) == GainOf(l, j)
  {
    hide TookOut;
    hide ItemSound;
    HeadAndLater(env, l, owner, items, j);
    match j
    case TakeOut(_, _, _, _, _, _, _) => TailTake(l, l', owner, items, j);
    case ShutAta(_, _, _, _, _) => TailShutAfterTake(l, l', owner, items, j);
    case ShutVault(_, _) => TailVaultAfterTake(l, l', owner, items, j);
  }

  lemma TailShut(l: Ledger, l': Ledger, owner: Address, items: seq<Item>, j: Item)
    requires items != [] && items[0].ShutAta? && j.ShutAta? && Differ(items[0], j)
    requires items[0].vault != owner && j.vault != owner
    requires ItemSound(l, owner, items, items[0]) && ItemSound(l, owner, items, j)
    requires !TakesOut(items, j.ata)
    requires Count(l, items[0].vault) > 0 && DidShut(l, l', owner, items[0])
    ensures ItemSound(l', owner, items[1..], j) && GainOf(l', j) == GainOf(l, j)
  {
  }

  lemma TailVaultAfterShut(l: Ledger, l': Ledger, owner: Address, items: seq<Item>, j: Item)
    requires items != [] && items[0].ShutAta? && j.ShutVault?
    requires items[0].vault != owner && j.vault != owner
    requires ItemSound(l, owner, items, items[0]) && ItemSound(l, owner, items, j)
    requires Count(l, items[0].vault) > 0 && DidShut(l, l', owner, items[0])
    ensures ItemSound(l', owner, items[1..], j) && GainOf(l', j) == GainOf(l, j)
  {
  }

  lemma TailAfterShutAta(env: Env, l: Ledger, owner: Address, items: seq<Item>, j: Item, l': Ledger)
    requires Sound(env, l, owner, items) && items != [] && items[0].ShutAta? && j in items[1..]
    requires IsVault(l, items[0].vault) && Count(l, items[0].vault) > 0 && DidShut(l, l', owner, items[0])
    ensures ItemSound(l', owner, items[1..], j) && GainOf(l', j) == GainOf(l, j)
  {
    hide DidShut;
    hide ItemSound;
    HeadAndLater(env, l, owner, items, j);
    if j.ShutAta? {
      NothingTakenOut(items, j.ata);
      TailShut(l, l', owner, items, j);
    } else {
      TailVaultAfterShut(l, l', owner, items, j);
    }
  }

  lemma TailAfterShutVault(env: Env, l: Ledger, owner: Address, items: seq<Item>, j: Item)
    requires Sound(env, l, owner, items) && items != [] && items[0].ShutVault? && j in items[1..]
    requires CloseProgramAccount(l, items[0].vault, owner).Ok? && items[0].vault != owner
    ensures ItemSound(CloseProgramAccount(l, items[0].vault, owner).value, owner, items[1..], j)
    ensures GainOf(CloseProgramAccount(l, items[0].vault, owner).value, j) == GainOf(l, j)
  {
    HeadAndLater(env, l, owner, items, j);
  }

  lemma {:induction false} GainSame(l: Ledger, l': Ledger, items: seq<Item>)
    requires forall i :: i in items ==> GainOf(l', i) == GainOf(l, i)
    ensures Gain(l', items) == Gain(l, items)
  {
    if items != [] {
      GainSame(l, l', items[1..]);
    }
  }

  /** The ledger an item leaves. */
  function After(l: Ledger, owner: Address, i: Item): Result<Ledger> {
    match i
    case TakeOut(v, _, ata, mint, program, amount, dest) => Transfer(l, program, ata, dest, v, true, amount)
    case ShutAta(v, _, ata, _, program) =>
      var l1 :- CloseToken(l, program, ata, owner, v, true);
      var _ :- Require(IsVault(l, v) && Count(l, v) > 0, UserVaultAtaCountZero);
      Ok(SetRecord(l1, v, Get(l, v).body.v.(ataCount := Count(l, v) - 1)))
    case ShutVault(v, _) => CloseProgramAccount(l, v, owner)
  }

  /** What the first item of a sound plan does to balances. */
  ghost predicate Did(l: Ledger, l': Ledger, owner: Address, items: seq<Item>, m: Address, x: Address)
    requires items != []
  {
    var i := items[0];
    var n := if i.TakeOut? && i.mint == m then i.amount else 0;
    && Get(l', owner).lamports == Get(l, owner).lamports + GainOf(l, i)
    && Gain(l', items[1..]) == Gain(l, items[1..])
    && Total(l', Lamports) == Total(l, Lamports)
    && Total(l', HeldBy(owner, m)) == Total(l, HeldBy(owner, m)) + n
    && (x != owner ==> Total(l', HeldBy(x, m)) == Total(l, HeldBy(x, m)) - if i.vault == x then n else 0)
    && (forall a :: a != owner && Get(l, a) == EMPTY ==> Get(l', a) == EMPTY)
    && (Closed(i).Some? ==> Closed(i).value != owner && Get(l', Closed(i).value) == EMPTY)
  }

  lemma TakeOutTotals(l: Ledger, owner: Address, i: Item, l': Ledger, k: Weight)
    requires i.TakeOut? && Controls(l, owner, i.dest) && IsToken(l, i.ata) && Get(l, i.ata).body.t.mint == i.mint
    requires Transfer(l, i.program, i.ata, i.dest, i.vault, true, i.amount) == Ok(l')
    ensures Total(l', k) == Total(l, k) - (if k == HeldBy(i.vault, i.mint) then i.amount else 0)
                            + (if k == HeldBy(owner, i.mint) then i.amount else 0)
  {
    TransferTotal(l, i.program, i.ata, i.dest, i.vault, true, i.amount, k);
  }

  lemma TakeOutStep(env: Env, l: Ledger, owner: Address, items: seq<Item>, m: Address, x: Address)
    requires Sound(env, l, owner, items) && items != [] && items[0].TakeOut?
    requires After(l, owner, items[0]).Ok?
    ensures var l' := After(l, owner, items[0]).value;
            && Did(l, l', owner, items, m, x)
            && forall j :: j in items[1..] ==> ItemSound(l', owner, items[1..], j)
  {
    hide Transfer;
    var i, l' := items[0], After(l, owner, items[0]).value;
    assert ItemSound(l, owner, items, i);
    FitVault(env, l, i.vault, {owner});
    TakeOutEffect(l, owner, i, l');
    TakeOutTotals(l, owner, i, l', Lamports);
    TakeOutTotals(l, owner, i, l', HeldBy(owner, m));
    TakeOutTotals(l, owner, i, l', HeldBy(x, m));
    forall j | j in items[1..] ensures ItemSound(l', owner, items[1..], j) && GainOf(l', j) == GainOf(l, j) {
      TailAfterTakeOut(env, l, owner, items, j, l');
    }
    GainSame(l, l', items[1..]);
  }

  lemma ShutAtaTotals(l: Ledger, owner: Address, i: Item, l': Ledger, k: Weight)
    requires i.ShutAta? && IsVault(l, i.vault) && (k.Lamports? || k.HeldBy?)
    requires CloseToken(l, i.program, i.ata, owner, i.vault, true).Ok? && Count(l, i.vault) > 0
    requires l' == SetRecord(CloseToken(l, i.program, i.ata, owner, i.vault, true).value, i.vault,
                             Get(l, i.vault).body.v.(ataCount := Count(l, i.vault) - 1))
    ensures Total(l', k) == Total(l, k)
  {
    var l1 := CloseToken(l, i.program, i.ata, owner, i.vault, true).value;
    CloseTokenTotal(l, i.program, i.ata, owner, i.vault, true, k);
    SetRecordTotal(l1, i.vault, Get(l, i.vault).body.v.(ataCount := Count(l, i.vault) - 1), k);
  }

  lemma ShutAtaStep(env: Env, l: Ledger, owner: Address, items: seq<Item>, m: Address, x: Address)
    requires Sound(env, l, owner, items) && items != [] && items[0].ShutAta?
    requires After(l, owner, items[0]).Ok?
    ensures var l' := After(l, owner, items[0]).value;
            && Did(l, l', owner, items, m, x)
            && forall j :: j in items[1..] ==> ItemSound(l', owner, items[1..], j)
  {
    hide CloseToken;
    hide SetRecord;
    var i, l' := items[0], After(l, owner, items[0]).value;
    assert ItemSound(l, owner, items, i);
    FitVault(env, l, i.vault, {owner});
    ShutAtaEffect(l, owner, i, l');
    ShutAtaTotals(l, owner, i, l', Lamports);
    ShutAtaTotals(l, owner, i, l', HeldBy(owner, m));
    ShutAtaTotals(l, owner, i, l', HeldBy(x, m));
    forall j | j in items[1..] ensures ItemSound(l', owner, items[1..], j) && GainOf(l', j) == GainOf(l, j) {
      TailAfterShutAta(env, l, owner, items, j, l');
    }
    GainSame(l, l', items[1..]);
  }

  lemma ShutVaultStep(env: Env, l: Ledger, owner: Address, items: seq<Item>, m: Address, x: Address)
    requires Sound(env, l, owner, items) && items != [] && items[0].ShutVault? && items[0].vault != owner
    requires After(l, owner, items[0]).Ok?
    ensures var l' := After(l, owner, items[0]).value;
            && Did(l, l', owner, items, m, x)
            && forall j :: j in items[1..] ==> ItemSound(l', owner, items[1..], j)
  {
    var i := items[0];
    assert ItemSound(l, owner, items, i);
    var l' := CloseProgramAccount(l, i.vault, owner).value;
    forall k: Weight | k == Lamports || k == HeldBy(owner, m) || k == HeldBy(x, m)
      ensures Total(l', k) == Total(l, k)
    {
      CloseProgramAccountTotal(l, i.vault, owner, k);
    }
    forall j | j in items[1..] ensures ItemSound(l', owner, items[1..], j) && GainOf(l', j) == GainOf(l, j) {
      TailAfterShutVault(env, l, owner, items, j);
    }
    GainSame(l, l', items[1..]);
  }

  lemma ItemCommits(env: Env, w: World, owner: Address, items: seq<Item>)
    requires Sound(env, w.l, owner, items) && items != []
    ensures var i := items[0];
            && (i.ShutVault? ==> i.vault != owner)
            && After(w.l, owner, i).Ok?
            && Exec(env, w, EventOf(owner, i)) == Ok(w.(l := After(w.l, owner, i).value))
  {
    hide Process;
    hide Transfer;
    hide CloseToken;
    hide SetRecord;
    hide CloseProgramAccount;
    var i := items[0];
    assert ItemSound(w.l, owner, items, i);
    match i
    case TakeOut(_, _, _, _, _, _, _) =>
      TakeOutCommits(env, w, owner, items);
      TransferTotal(w.l, i.program, i.ata, i.dest, i.vault, true, i.amount, Lamports);
    case ShutAta(_, _, _, _, _) =>
      ShutAtaCommits(env, w, owner, items);
      ShutAtaTotals(w.l, owner, i, After(w.l, owner, i).value, Lamports);
    case ShutVault(_, _) =>
      ShutVaultCommits(env, w, owner, items);
      CloseProgramAccountTotal(w.l, i.vault, owner, Lamports);
  }

  lemma TakeOutShape(env: Env, l: Ledger, owner: Address, i: Item)
    requires Shape(env, l) && i.TakeOut? && After(l, owner, i).Ok?
    ensures Shape(env, After(l, owner, i).value)
  {
    TransferShape(env, l, i.program, i.ata, i.dest, i.vault, true, i.amount);
  }

  lemma ShutAtaShape(env: Env, l: Ledger, owner: Address, i: Item)
    requires Shape(env, l) && i.ShutAta? && After(l, owner, i).Ok?
    requires IsVault(l, i.vault) && Get(l, i.vault).body.v.discriminator == 1
    ensures Shape(env, After(l, owner, i).value)
  {
    var l1 := CloseToken(l, i.program, i.ata, owner, i.vault, true).value;
    CloseTokenShape(env, l, i.program, i.ata, owner, i.vault, true);
    SetRecordShape(env, l1, i.vault, Get(l, i.vault).body.v.(ataCount := Count(l, i.vault) - 1));
  }

  lemma ShutVaultShape(env: Env, l: Ledger, owner: Address, i: Item)
    requires Shape(env, l) && i.ShutVault? && i.vault != owner && After(l, owner, i).Ok?
    requires IsVault(l, i.vault)
    ensures Shape(env, After(l, owner, i).value)
  {
    PutShape2(env, l, owner, Get(After(l, owner, i).value, owner).lamports, i.vault, EMPTY);
  }

  lemma AfterInv(env: Env, l: Ledger, owner: Address, items: seq<Item>)
    requires Sound(env, l, owner, items) && items != [] && After(l, owner, items[0]).Ok?
    requires items[0].ShutVault? ==> items[0].vault != owner
    ensures Inv(env, After(l, owner, items[0]).value)
  {
    hide After;
    var i := items[0];
    var l' := After(l, owner, i).value;
    assert ItemSound(l, owner, items, i);
    FitVault(env, l, i.vault, {owner});
    match i {
      case TakeOut(_, _, _, _, _, _, _) => TakeOutShape(env, l, owner, i);
      case ShutAta(_, _, _, _, _) => ShutAtaShape(env, l, owner, i);
      case ShutVault(_, _) => ShutVaultShape(env, l, owner, i);
    }
    AfterTotals(env, l, owner, items, Lamports);
    forall m ensures Total(l', TokensOf(m)) <= U64_MAX {
      AfterTotals(env, l, owner, items, TokensOf(m));
    }
  }

  lemma AfterTotals(env: Env, l: Ledger, owner: Address, items: seq<Item>, k: Weight)
    requires Sound(env, l, owner, items) && items != [] && After(l, owner, items[0]).Ok? && Conserved(k)
    requires items[0].ShutVault? ==> items[0].vault != owner
    ensures Total(After(l, owner, items[0]).value, k) == Total(l, k)
  {
    var i := items[0];
    assert ItemSound(l, owner, items, i);
    match i
    case TakeOut(_, _, _, _, _, _, _) =>
      TransferTotal(l, i.program, i.ata, i.dest, i.vault, true, i.amount, k);
    case ShutAta(_, _, _, _, _) =>
      CloseTokenTotal(l, i.program, i.ata, owner, i.vault, true, k);
      SetRecordTotal(CloseToken(l, i.program, i.ata, owner, i.vault, true).value, i.vault,
                     Get(l, i.vault).body.v.(ataCount := Count(l, i.vault) - 1), k);
    case ShutVault(_, _) =>
      CloseProgramAccountTotal(l, i.vault, owner, k);
  }

  /** The first item of a sound plan: its effect, and a sound rest. */
  lemma ItemStep(env: Env, l: Ledger, owner: Address, items: seq<Item>, m: Address, x: Address)
    requires Sound(env, l, owner, items) && items != [] && After(l, owner, items[0]).Ok?
    requires items[0].ShutVault? ==> items[0].vault != owner
    ensures Did(l, After(l, owner, items[0]).value, owner, items, m, x)
    ensures Sound(env, After(l, owner, items[0]).value, owner, items[1..])
  {
    match items[0] {
      case TakeOut(_, _, _, _, _, _, _) => TakeOutStep(env, l, owner, items, m, x);
      case ShutAta(_, _, _, _, _) => ShutAtaStep(env, l, owner, items, m, x);
      case ShutVault(_, _) => ShutVaultStep(env, l, owner, items, m, x);
    }
    AfterInv(env, l, owner, items);
  }

  // ----- The whole plan -----

  function PlanEnd(l: Ledger, owner: Address, items: seq<Item>): Ledger
    decreases |items|
  {
    if items == [] || After(l, owner, items[0]).Err? then l
    else PlanEnd(After(l, owner, items[0]).value, owner, items[1..])
  }

  /** Every instruction of a sound plan commits. */
  lemma {:induction false} SoundPlanCommits(env: Env, w: World, owner: Address, items: seq<Item>)
    requires Sound(env, w.l, owner, items)
    ensures AllCommit(env, w, Events(owner, items))
    ensures Run(env, w, Events(owner, items)) == w.(l := PlanEnd(w.l, owner, items))
    decreases |items|
  {
    if items != [] {
      var es := Events(owner, items);
      ItemCommits(env, w, owner, items);
      var w1 := w.(l := After(w.l, owner, items[0]).value);
      ItemStep(env, w.l, owner, items, 0, 0);
      SoundPlanCommits(env, w1, owner, items[1..]);
      assert es[1..] == Events(owner, items[1..]) && es[0] == EventOf(owner, items[0]);
      assert Next(env, w, es[0]) == w1;
    }
  }

  /** What a sound plan closes is gone with all its lamports paid to the owner, and the owner's holdings of
      each mint grow by what it withdraws, out of the vaults'. */
  lemma {:induction false} SoundPlanReturns(env: Env, w: World, owner: Address, items: seq<Item>, m: Address,
                                            x: Address)
    requires Sound(env, w.l, owner, items)
    ensures var l' := PlanEnd(w.l, owner, items);
            && Get(l', owner).lamports == Get(w.l, owner).lamports + Gain(w.l, items)
            && Total(l', HeldBy(owner, m)) == Total(w.l, HeldBy(owner, m)) + Withdrawn(items, m)
            && (x != owner ==> Total(l', HeldBy(x, m)) == Total(w.l, HeldBy(x, m)) - WithdrawnFrom(items, x, m))
            && (forall a :: a != owner && Get(w.l, a) == EMPTY ==> Get(l', a) == EMPTY)
            && (forall i :: i in items && Closed(i).Some? ==> Get(l', Closed(i).value) == EMPTY)
    decreases |items|
  {
    if items != [] {
      ItemCommits(env, w, owner, items);
      var w1 := w.(l := After(w.l, owner, items[0]).value);
      ItemStep(env, w.l, owner, items, m, x);
      SoundPlanReturns(env, w1, owner, items[1..], m, x);
      var l' := PlanEnd(w.l, owner, items);
      forall i | i in items && Closed(i).Some? ensures Get(l', Closed(i).value) == EMPTY {
        assert i == items[0] || i in items[1..];
      }
    }
  }

  /** What an item of a sound plan leaves of a vault it does not close. */
  lemma AfterKeepsVault(env: Env, l: Ledger, owner: Address, items: seq<Item>, x: Address)
    requires Sound(env, l, owner, items) && items != [] && After(l, owner, items[0]).Ok?
    requires IsVault(l, x) && x != owner && !(items[0].ShutVault? && items[0].vault == x)
    ensures var l' := After(l, owner, items[0]).value;
            && IsVault(l', x)
            && Get(l', x) == Get(l, x).(body := Vault(Get(l, x).body.v.(ataCount := Count(l', x))))
            && Count(l', x) == Count(l, x) - if items[0].ShutAta? && items[0].vault == x then 1 else 0
  {
    var i, l' := items[0], After(l, owner, items[0]).value;
    assert ItemSound(l, owner, items, i);
    FitVault(env, l, i.vault, {owner});
    match i
    case TakeOut(_, _, _, _, _, _, _) => TakeOutEffect(l, owner, i, l');
    case ShutAta(_, _, _, _, _) => ShutAtaEffect(l, owner, i, l');
    case ShutVault(_, _) =>
  }

  /** A vault the plan does not close keeps its lamports and its record, but for the accounts counted out. */
  lemma {:induction false} SoundPlanKeeps(env: Env, w: World, owner: Address, items: seq<Item>, x: Address)
    requires Sound(env, w.l, owner, items) && IsVault(w.l, x) && x != owner
    requires forall i :: i in items ==> !(i.ShutVault? && i.vault == x)
    ensures var l' := PlanEnd(w.l, owner, items);
            && IsVault(l', x)
            && Get(l', x) == Get(w.l, x).(body := Vault(Get(w.l, x).body.v.(ataCount := Count(l', x))))
            && Count(l', x) == Count(w.l, x) - Shuts(items, x)
    decreases |items|
  {
    if items != [] {
      hide Exec;
      ItemCommits(env, w, owner, items);
      ItemStep(env, w.l, owner, items, 0, 0);
      AfterKeepsVault(env, w.l, owner, items, x);
      SoundPlanKeeps(env, w.(l := After(w.l, owner, items[0]).value), owner, items[1..], x);
    }
  }

  lemma {:induction false} AllCommitConcat(env: Env, w: World, es: seq<Event>, fs: seq<Event>)
    requires AllCommit(env, w, es) && AllCommit(env, Run(env, w, es), fs)
    ensures AllCommit(env, w, es + fs)
    decreases |es|
  {
    hide Exec;
    if es == [] {
      assert es + fs == fs;
    } else {
      assert (es + fs)[1..] == es[1..] + fs;
      AllCommitConcat(env, Next(env, w, es[0]), es[1..], fs);
    }
  }
}
