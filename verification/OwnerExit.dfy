/** The owner can take everything out of a vault, alone, if and only if no more token accounts are open under
    it than it counts. With an exact count the vault is closed; with fewer open it is drained, and the runtime
    removes it; with more open one of them always stays. */
module OwnerExit {
  import opened Bytes
  import opened Types
  import opened Layout
  import opened Ledger
  import opened VaultProgram
  import opened Runs
  import opened Books
  import opened Invariants
  import opened Codec
  import opened Plan

  /** The token accounts open under `v`, each once. */
  ghost function Listing(l: Ledger, v: Address): seq<Address> {
    if l == map[] then []
    else
      var a :| a in l;
      (if W(OpenUnder(v), l[a]) == 1 then [a] else []) + Listing(l - {a}, v)
  }

  lemma {:induction false} ListingIsComplete(l: Ledger, v: Address)
    ensures forall t :: t in Listing(l, v) <==> Controls(l, v, t)
    ensures forall j, k :: 0 <= j < k < |Listing(l, v)| ==> Listing(l, v)[j] != Listing(l, v)[k]
    ensures |Listing(l, v)| == Total(l, OpenUnder(v))
    decreases |l|
  {
    if l != map[] {
      var a :| a in l && Listing(l, v) == (if W(OpenUnder(v), l[a]) == 1 then [a] else []) + Listing(l - {a}, v);
      assert |l - {a}| < |l| by { assert l == (l - {a})[a := l[a]]; }
      ListingIsComplete(l - {a}, v);
      TotalSplit(l, a, OpenUnder(v));
      assert !Controls(l - {a}, v, a) && a !in Listing(l - {a}, v);
      forall t: Address ensures t in Listing(l, v) <==> Controls(l, v, t) {
        assert t != a ==> Get(l - {a}, t) == Get(l, t);
        assert t in Listing(l - {a}, v) <==> Controls(l - {a}, v, t);
      }
    }
  }

  /** The owner has some token account of this mint. */
  ghost predicate HasAccount(l: Ledger, owner: Address, program: Address, mint: Address) {
    exists d: Address :: OwnersAccount(l, owner, program, mint, d)
  }

  /** Any one of them. */
  ghost function AccountOf(l: Ledger, owner: Address, program: Address, mint: Address): (d: Address)
    ensures HasAccount(l, owner, program, mint) ==> OwnersAccount(l, owner, program, mint, d)
  {
    if HasAccount(l, owner, program, mint) then
      var d: Address :| OwnersAccount(l, owner, program, mint, d);
      d
    else SYSTEM_ID
  }

  /** What the ledger says of one of the vault's token accounts. */
  ghost function OutOf(l: Ledger, v: Address, t: Address): Item
    requires IsVault(l, v) && IsToken(l, t)
  {
    var r, o := Get(l, t).body.t, Get(l, v).body.v;
    TakeOut(v, o.app, t, r.mint, r.program, r.amount, AccountOf(l, o.owner, r.program, r.mint))
  }

  function ShutOf(l: Ledger, v: Address, t: Address): Item
    requires IsVault(l, v) && IsToken(l, t)
  {
    var r := Get(l, t).body.t;
    ShutAta(v, Get(l, v).body.v.app, t, r.mint, r.program)
  }

  ghost predicate AllTokens(l: Ledger, ts: seq<Address>) { forall t :: t in ts ==> IsToken(l, t) }

  ghost function Outs(l: Ledger, v: Address, ts: seq<Address>): (r: seq<Item>)
    requires IsVault(l, v) && AllTokens(l, ts)
    ensures |r| <= |ts|
    ensures forall i :: i in r ==> i.TakeOut? && i.ata in ts && i.amount > 0 && i == OutOf(l, v, i.ata)
    ensures forall t :: t in ts && Amount(l, t) > 0 ==> OutOf(l, v, t) in r
  {
    if ts == [] then []
    else
      var rest := Outs(l, v, ts[1..]);
      if Amount(l, ts[0]) > 0 then [OutOf(l, v, ts[0])] + rest else rest
  }

  function ShutAll(l: Ledger, v: Address, ts: seq<Address>): (r: seq<Item>)
    requires IsVault(l, v) && AllTokens(l, ts)
    ensures |r| == |ts| && forall k :: 0 <= k < |ts| ==> r[k] == ShutOf(l, v, ts[k])
  {
    if ts == [] then [] else [ShutOf(l, v, ts[0])] + ShutAll(l, v, ts[1..])
  }

  /** Withdraw what is there and close every account. */
  ghost function Leave(l: Ledger, v: Address): seq<Item>
    requires IsVault(l, v)
  {
    ListingIsComplete(l, v);
    Outs(l, v, Listing(l, v)) + ShutAll(l, v, Listing(l, v))
  }

  /** Then close the vault. */
  ghost function ExitPlan(l: Ledger, v: Address): seq<Item>
    requires IsVault(l, v)
  {
    Leave(l, v) + [ShutVault(v, Get(l, v).body.v.app)]
  }

  /** Or withdraw its lamports, if any, and let the runtime remove it. */
  function Drain(l: Ledger, v: Address): seq<Event>
    requires IsVault(l, v)
  {
    var r, n := Get(l, v).body.v, Get(l, v).lamports;
    (if n > 0 then [Call({r.owner}, ID, [r.owner, v, r.app], Encode(WithdrawNative(n)), [])] else []) + [Reap(v)]
  }

  ghost function ExitEvents(l: Ledger, v: Address): seq<Event>
    requires IsVault(l, v)
  {
    var owner := Get(l, v).body.v.owner;
    if Uncounted(l, v) == 0 then Events(owner, ExitPlan(l, v)) else Events(owner, Leave(l, v)) + Drain(l, v)
  }

  // ----- The exit plan is sound -----

  lemma {:induction false} OutsDistinct(l: Ledger, v: Address, ts: seq<Address>)
    requires IsVault(l, v) && AllTokens(l, ts)
    requires forall j, k :: 0 <= j < k < |ts| ==> ts[j] != ts[k]
    ensures Distinct(Outs(l, v, ts))
  {
    if ts != [] {
      OutsDistinct(l, v, ts[1..]);
      assert forall i :: i in Outs(l, v, ts[1..]) ==> i.ata in ts[1..];
      assert ts[0] !in ts[1..];
    }
  }

  lemma {:induction false} ShutsConcat(a: seq<Item>, b: seq<Item>, v: Address)
    ensures Shuts(a + b, v) == Shuts(a, v) + Shuts(b, v)
  {
    if a == [] {
      assert a + b == b;
    } else {
      ShutsConcat(a[1..], b, v);
      assert (a + b)[1..] == a[1..] + b;
    }
  }

  lemma {:induction false} ShutsOfOuts(a: seq<Item>, v: Address)
    requires forall i :: i in a ==> i.TakeOut?
    ensures Shuts(a, v) == 0
  {
    if a != [] {
      assert a[0] in a;
      ShutsOfOuts(a[1..], v);
    }
  }

  lemma {:induction false} ShutsOfAll(a: seq<Item>, v: Address)
    requires forall i :: i in a ==> i.ShutAta? && i.vault == v
    ensures Shuts(a, v) == |a|
  {
    if a != [] {
      assert a[0] in a;
      ShutsOfAll(a[1..], v);
    }
  }

  /** The owner has a token account, associated or not, for every funded account of the vault. */
  ghost predicate OwnerReady(l: Ledger, v: Address) {
    IsVault(l, v) && forall t :: Controls(l, v, t) && Amount(l, t) > 0 ==>
      HasAccount(l, Get(l, v).body.v.owner, Get(l, t).body.t.program, Get(l, t).body.t.mint)
  }

  /** Distinct lists of the ranks in order make one sorted, distinct list. */
  lemma InRankOrder(a: seq<Item>, b: seq<Item>)
    requires Distinct(a) && Distinct(b) && Sorted(a) && Sorted(b)
    requires forall i, j :: i in a && j in b ==> Rank(i) < Rank(j)
    ensures Sorted(a + b) && Distinct(a + b)
  {
    forall j, k | 0 <= j < k < |a + b|
      ensures Rank((a + b)[j]) <= Rank((a + b)[k]) && Differ((a + b)[j], (a + b)[k])
    {
      if j < |a| <= k {
        assert a[j] in a && b[k - |a|] in b;
      }
    }
  }

  lemma SameRank(a: seq<Item>, r: nat)
    requires forall i :: i in a ==> Rank(i) == r
    ensures Sorted(a)
  {
    forall k | 0 <= k < |a| ensures Rank(a[k]) == r {
      assert a[k] in a;
    }
  }

  lemma ShutAllIs(l: Ledger, v: Address, ts: seq<Address>)
    requires IsVault(l, v) && AllTokens(l, ts)
    requires forall j, k :: 0 <= j < k < |ts| ==> ts[j] != ts[k]
    ensures Distinct(ShutAll(l, v, ts))
    ensures forall i :: i in ShutAll(l, v, ts) ==> i.ShutAta? && i.ata in ts && i == ShutOf(l, v, i.ata)
    ensures Shuts(ShutAll(l, v, ts), v) == |ts|
  {
    var shuts := ShutAll(l, v, ts);
    forall j, k | 0 <= j < k < |shuts| ensures Differ(shuts[j], shuts[k]) {
      assert ts[j] != ts[k];
    }
    forall i | i in shuts ensures i.ShutAta? && i.ata in ts && i == ShutOf(l, v, i.ata) {
      var k :| 0 <= k < |shuts| && i == shuts[k];
      assert i == ShutOf(l, v, ts[k]);
    }
    ShutsOfAll(shuts, v);
  }

  /** The vault may be left by its owner: the owner's key exists, is not itself one of the vault's token
      accounts, and there is somewhere for the tokens to go. */
  ghost predicate MayExit(env: Env, l: Ledger, v: Address) {
    && Inv(env, l) && IsVault(l, v) && OwnerReady(l, v)
    && MaySign(env, None, Get(l, v).body.v.owner) && !Controls(l, v, Get(l, v).body.v.owner)
  }

  lemma LeaveMembers(l: Ledger, v: Address)
    requires IsVault(l, v)
    ensures forall i :: i in Leave(l, v) ==>
              && !i.ShutVault? && Controls(l, v, i.ata)
              && (i.TakeOut? ==> i == OutOf(l, v, i.ata) && i.amount > 0)
              && (i.ShutAta? ==> i == ShutOf(l, v, i.ata))
    ensures forall t :: Controls(l, v, t) ==> ShutOf(l, v, t) in Leave(l, v)
    ensures forall t :: Controls(l, v, t) && Amount(l, t) > 0 ==> OutOf(l, v, t) in Leave(l, v)
  {
    hide OutOf;
    hide ShutOf;
    hide Listing;
    ListingIsComplete(l, v);
    var ts := Listing(l, v);
    var outs, shuts := Outs(l, v, ts), ShutAll(l, v, ts);
    ShutAllIs(l, v, ts);
    forall t | Controls(l, v, t) ensures ShutOf(l, v, t) in shuts {
      var k :| 0 <= k < |ts| && ts[k] == t;
      assert shuts[k] in shuts;
    }
  }

  lemma LeaveShape(l: Ledger, v: Address)
    requires IsVault(l, v)
    ensures Sorted(Leave(l, v)) && Distinct(Leave(l, v)) && Shuts(Leave(l, v), v) == Total(l, OpenUnder(v))
    ensures |Leave(l, v)| <= 2 * Total(l, OpenUnder(v))
  {
    hide OutOf;
    hide ShutOf;
    hide Listing;
    ListingIsComplete(l, v);
    var ts := Listing(l, v);
    var outs, shuts := Outs(l, v, ts), ShutAll(l, v, ts);
    ShutAllIs(l, v, ts);
    OutsDistinct(l, v, ts);
    SameRank(outs, 0);
    SameRank(shuts, 1);
    InRankOrder(outs, shuts);
    ShutsConcat(outs, shuts, v);
    ShutsOfOuts(outs, v);
  }

  lemma LeaveIs(l: Ledger, v: Address)
    requires IsVault(l, v)
    ensures Sorted(Leave(l, v)) && Distinct(Leave(l, v)) && Shuts(Leave(l, v), v) == Total(l, OpenUnder(v))
    ensures |Leave(l, v)| <= 2 * Total(l, OpenUnder(v))
    ensures forall i :: i in Leave(l, v) ==>
              && !i.ShutVault? && i.vault == v && Controls(l, v, i.ata)
              && (i.TakeOut? ==> i == OutOf(l, v, i.ata) && i.amount > 0)
              && (i.ShutAta? ==> i == ShutOf(l, v, i.ata))
    ensures forall t :: Controls(l, v, t) ==> ShutOf(l, v, t) in Leave(l, v)
    ensures forall t :: Controls(l, v, t) && Amount(l, t) > 0 ==> OutOf(l, v, t) in Leave(l, v)
  {
    hide Leave;
    LeaveMembers(l, v);
    LeaveShape(l, v);
  }

  /** An item of the plan is sound within any list of items that has the plan's own. */
  lemma LeaveItemSound(l: Ledger, v: Address, items: seq<Item>, i: Item)
    requires IsVault(l, v) && OwnerReady(l, v) && !Controls(l, v, Get(l, v).body.v.owner)
    requires Uncounted(l, v) <= 0 && i in Leave(l, v)
    requires (forall j :: j in Leave(l, v) ==> j in items) && Shuts(items, v) == Total(l, OpenUnder(v))
    ensures ItemSound(l, Get(l, v).body.v.owner, items, i)
  {
    hide Leave;
    LeaveIs(l, v);
    if i.ShutAta? && Amount(l, i.ata) > 0 {
      assert OutOf(l, v, i.ata) in items;
      assert TakesOut(items, i.ata);
    }
  }

  lemma LeaveSound(env: Env, l: Ledger, v: Address)
    requires MayExit(env, l, v) && Uncounted(l, v) <= 0
    ensures Sound(env, l, Get(l, v).body.v.owner, Leave(l, v))
  {
    hide Leave;
    LeaveIs(l, v);
    forall i | i in Leave(l, v) ensures ItemSound(l, Get(l, v).body.v.owner, Leave(l, v), i) {
      LeaveItemSound(l, v, Leave(l, v), i);
    }
  }

  lemma ExitPlanSound(env: Env, l: Ledger, v: Address)
    requires MayExit(env, l, v) && Uncounted(l, v) == 0
    ensures Sound(env, l, Get(l, v).body.v.owner, ExitPlan(l, v))
    ensures |ExitPlan(l, v)| <= 2 * Count(l, v) + 1
  {
    hide Leave;
    var last, items := ShutVault(v, Get(l, v).body.v.app), ExitPlan(l, v);
    LeaveIs(l, v);
    SameRank([last], 2);
    InRankOrder(Leave(l, v), [last]);
    ShutsConcat(Leave(l, v), [last], v);
    assert Shuts([last], v) == 0 by {
      assert [last][1..] == [];
    }
    forall i | i in items ensures ItemSound(l, Get(l, v).body.v.owner, items, i) {
      if i != last {
        LeaveItemSound(l, v, items, i);
      }
    }
  }

  // ----- What the owner gets -----

  lemma {:induction false} HoldsNothing(l: Ledger, v: Address, m: Address)
    requires forall t :: !Controls(l, v, t)
    ensures Total(l, HeldBy(v, m)) == 0 && Total(l, OpenUnder(v)) == 0
    decreases |l|
  {
    if l != map[] {
      var a :| a in l;
      TotalSplit(l, a, HeldBy(v, m));
      TotalSplit(l, a, OpenUnder(v));
      assert !Controls(l, v, a);
      assert |l - {a}| < |l| by { assert l == (l - {a})[a := l[a]]; }
      forall t: Address ensures !Controls(l - {a}, v, t) {
        assert !Controls(l, v, t);
        assert t != a ==> Get(l - {a}, t) == Get(l, t);
      }
      HoldsNothing(l - {a}, v, m);
    }
  }

  lemma {:induction false} AllFromOneVault(items: seq<Item>, v: Address, m: Address)
    requires forall i :: i in items ==> i.vault == v
    ensures Withdrawn(items, m) == WithdrawnFrom(items, v, m)
  {
    if items != [] {
      assert items[0] in items;
      AllFromOneVault(items[1..], v, m);
    }
  }

  // ----- Which runs can lower open minus counted -----

  /** No AppIx commits on `v`. */
  ghost predicate NoAppIxOn(env: Env, w: World, es: seq<Event>, v: Address)
    decreases |es|
  {
    es == [] || (!(Commits(env, w, es[0]) && Kind(es[0]) == 5 && VaultOf(es[0]) == Some(v))
                 && NoAppIxOn(env, Next(env, w, es[0]), es[1..], v))
  }

  lemma ActTakesNone(env: Env, vault: Option<Address>, l: Ledger, op: Op, v: Address)
    requires IsVaultPda(env, v) && vault != Some(v) && Apply(env, vault, l, op).Ok?
    ensures Left(op, v) == 0
  {
  }

  lemma {:induction false} ActsTakeNone(env: Env, vault: Option<Address>, l: Ledger, ops: seq<Op>, v: Address)
    requires IsVaultPda(env, v) && vault != Some(v) && ApplyAll(env, vault, l, ops).Ok?
    ensures LeftAll(ops, v) == 0
    decreases |ops|
  {
    hide Apply;
    if ops != [] {
      ActTakesNone(env, vault, l, ops[0], v);
      ActsTakeNone(env, vault, Apply(env, vault, l, ops[0]).value, ops[1..], v);
    }
  }

  lemma EventTakesNone(env: Env, w: World, e: Event, v: Address)
    requires IsVaultPda(env, v) && Commits(env, w, e) && !(Kind(e) == 5 && VaultOf(e) == Some(v))
    ensures Taken(e, v) == 0
  {
    hide Process;
    hide Apply;
    match e
    case Call(signers, top, slots, ix, ops) =>
      SlotsSuffice(env, CtxOf(w, e), w.l, slots, ix);
      if IsAppIx(ix) {
        ActsTakeNone(env, Some(slots[2]), Process(env, CtxOf(w, e), w.l, slots, ix).value, ops, v);
      }
    case Outside(op) => ActTakesNone(env, None, w.l, op, v);
    case _ =>
  }

  lemma {:induction false} NothingTaken(env: Env, w: World, es: seq<Event>, v: Address)
    requires IsVaultPda(env, v) && NoAppIxOn(env, w, es, v)
    ensures TakenIn(env, w, es, v) == 0
    decreases |es|
  {
    hide Exec;
    if es != [] {
      if Commits(env, w, es[0]) {
        EventTakesNone(env, w, es[0], v);
      }
      NothingTaken(env, Next(env, w, es[0]), es[1..], v);
    }
  }

  /** Nothing is left under the vault's authority, and no vault. */
  ghost predicate Exited(l: Ledger, v: Address) {
    !IsVault(l, v) && forall t: Address :: !Controls(l, v, t)
  }

  /** Without its app, nobody can empty a vault that counts fewer accounts than are open under it: in every
      run in which no AppIx on it commits, whoever signs, open minus counted does not fall. */
  lemma ExitNeedsTheCount(env: Env, w: World, v: Address, es: seq<Event>)
    requires Inv(env, w.l) && IsVaultPda(env, v) && NoAppIxOn(env, w, es, v)
    requires Exited(Run(env, w, es).l, v)
    ensures Total(w.l, OpenUnder(v)) <= Count(w.l, v)
  {
    hide Exec;
    NothingTaken(env, w, es, v);
    AtaCountAccounting(env, w, es, v);
    HoldsNothing(Run(env, w, es).l, v, 0);
  }

  // ----- The owner's own runs -----

  /** Vault instructions that the owner signs, other than AppIx, and the removal of the emptied vault. */
  ghost predicate OwnersRun(es: seq<Event>, owner: Address, v: Address) {
    forall e :: e in es ==> e == Reap(v) || (e.Call? && e.signers == {owner} && !IsAppIx(e.ix))
  }

  lemma {:induction false} OwnersRunHasNoAppIx(env: Env, w: World, es: seq<Event>, owner: Address, v: Address)
    requires OwnersRun(es, owner, v)
    ensures NoAppIxOn(env, w, es, v)
    decreases |es|
  {
    hide Exec;
    if es != [] {
      assert es[0] in es;
      assert forall e :: e in es[1..] ==> e in es;
      OwnersRunHasNoAppIx(env, Next(env, w, es[0]), es[1..], owner, v);
    }
  }

  /** The withdraw, close-account and close-vault instructions of a vault's owner. */
  ghost predicate OwnersOwn(es: seq<Event>, owner: Address) {
    forall e :: e in es ==> e.Call? && e.signers == {owner} && Kind(e) in {3, 8, 9}
  }

  lemma EventIsTheOwners(owner: Address, i: Item)
    ensures var e := EventOf(owner, i); e.Call? && e.signers == {owner} && Kind(e) in {3, 8, 9}
  {
  }

  lemma PlansAreTheOwners(owner: Address, items: seq<Item>, v: Address)
    ensures OwnersOwn(Events(owner, items), owner) && OwnersRun(Events(owner, items), owner, v)
  {
    hide EventOf;
    var es := Events(owner, items);
    forall e | e in es ensures e.Call? && e.signers == {owner} && Kind(e) in {3, 8, 9} {
      var k :| 0 <= k < |es| && e == es[k];
      EventIsTheOwners(owner, items[k]);
    }
  }

  /** They are no outside causes, so they leave open minus counted alone. */
  lemma {:induction false} NoOutsideCauses(env: Env, w: World, es: seq<Event>, x: Address)
    requires forall e :: e in es ==> e.Call? && !IsAppIx(e.ix)
    ensures OpenedIn(env, w, es, x) == 0 && TakenIn(env, w, es, x) == 0 && ForgottenIn(env, w, es, x) == 0
    decreases |es|
  {
    if es != [] {
      assert es[0] in es;
      assert Commits(env, w, es[0]) ==> es[0].ops == [];
      NoOutsideCauses(env, Next(env, w, es[0]), es[1..], x);
    }
  }

  lemma CommittedOwnersEventsKeepCount(env: Env, w: World, es: seq<Event>, owner: Address, v: Address)
    requires Inv(env, w.l) && OwnersOwn(es, owner)
    ensures Uncounted(Run(env, w, es).l, v) == Uncounted(w.l, v)
  {
    NoOutsideCauses(env, w, es, v);
    AtaCountAccounting(env, w, es, v);
  }

  lemma NoneOpen(l: Ledger, v: Address)
    requires Total(l, OpenUnder(v)) == 0
    ensures forall t: Address :: !Controls(l, v, t)
  {
    forall t: Address ensures !Controls(l, v, t) {
      if Controls(l, v, t) {
        TotalSplit(l, t, OpenUnder(v));
      }
    }
  }

  // ----- The two ways out -----

  function LamportsOf(l: Ledger, ts: seq<Address>): nat {
    if ts == [] then 0 else Get(l, ts[0]).lamports + LamportsOf(l, ts[1..])
  }

  /** The lamports of a vault and of every token account open under it. */
  ghost function Holdings(l: Ledger, v: Address): nat { Get(l, v).lamports + LamportsOf(l, Listing(l, v)) }

  lemma {:induction false} OutsGainNothing(l: Ledger, items: seq<Item>)
    requires forall i :: i in items ==> i.TakeOut?
    ensures Gain(l, items) == 0
  {
    if items != [] {
      assert items[0] in items;
      OutsGainNothing(l, items[1..]);
    }
  }

  lemma {:induction false} ShutAllGains(l: Ledger, v: Address, ts: seq<Address>)
    requires IsVault(l, v) && AllTokens(l, ts)
    ensures Gain(l, ShutAll(l, v, ts)) == LamportsOf(l, ts)
  {
    if ts != [] {
      ShutAllGains(l, v, ts[1..]);
      assert ShutAll(l, v, ts)[1..] == ShutAll(l, v, ts[1..]);
    }
  }

  lemma ExitGains(l: Ledger, v: Address)
    requires IsVault(l, v)
    ensures Gain(l, Leave(l, v)) + Get(l, v).lamports == Holdings(l, v) == Gain(l, ExitPlan(l, v))
  {
    ListingIsComplete(l, v);
    var ts, last := Listing(l, v), ShutVault(v, Get(l, v).body.v.app);
    OutsGainNothing(l, Outs(l, v, ts));
    ShutAllGains(l, v, ts);
    GainConcat(l, Outs(l, v, ts), ShutAll(l, v, ts));
    GainConcat(l, Leave(l, v), [last]);
    assert [last][1..] == [];
  }

  /** What the end of an exit holds, whichever way it went. */
  ghost predicate TookAll(l: Ledger, l': Ledger, v: Address, owner: Address, m: Address)
    requires IsVault(l, v)
  {
    && Get(l', v) == EMPTY
    && (forall t: Address :: Controls(l, v, t) ==> Get(l', t) == EMPTY)
    && (forall t: Address :: !Controls(l', v, t))
    && Get(l', owner).lamports == Get(l, owner).lamports + Holdings(l, v)
    && Total(l', HeldBy(owner, m)) == Total(l, HeldBy(owner, m)) + Total(l, HeldBy(v, m))
  }

  lemma {:induction false} GainConcat(l: Ledger, a: seq<Item>, b: seq<Item>)
    ensures Gain(l, a + b) == Gain(l, a) + Gain(l, b)
  {
    if a == [] {
      assert a + b == b;
    } else {
      GainConcat(l, a[1..], b);
      assert (a + b)[1..] == a[1..] + b;
    }
  }

  lemma ExitPlanMembers(l: Ledger, v: Address)
    requires IsVault(l, v)
    ensures forall i :: i in ExitPlan(l, v) ==> i.vault == v
    ensures ShutVault(v, Get(l, v).body.v.app) in ExitPlan(l, v)
    ensures forall t :: Controls(l, v, t) ==> ShutOf(l, v, t) in ExitPlan(l, v)
  {
    hide Leave;
    LeaveIs(l, v);
  }

  lemma CloseTakesAll(env: Env, w: World, v: Address, m: Address)
    requires MayExit(env, w.l, v) && Uncounted(w.l, v) == 0
    ensures var owner := Get(w.l, v).body.v.owner;
            var es := Events(owner, ExitPlan(w.l, v));
            && AllCommit(env, w, es) && TookAll(w.l, Run(env, w, es).l, v, owner, m)
  {
    hide EventOf;
    hide OwnersOwn;
    hide OwnersRun;
    hide OwnerReady;
    hide ExitPlan;
    hide Exec;
    hide Sound;
    hide Run, AllCommit, Gain, Withdrawn, WithdrawnFrom, PlanEnd, Events, Total, Holdings, Listing, Leave, HasAccount;
    var owner, items := Get(w.l, v).body.v.owner, ExitPlan(w.l, v);
    ExitPlanSound(env, w.l, v);
    ExitPlanMembers(w.l, v);
    SoundPlanCommits(env, w, owner, items);
    SoundPlanReturns(env, w, owner, items, m, v);
    var l' := PlanEnd(w.l, owner, items);
    assert Closed(ShutVault(v, Get(w.l, v).body.v.app)) == Some(v);
    forall t: Address | Controls(w.l, v, t) ensures Get(l', t) == EMPTY {
      assert Closed(ShutOf(w.l, v, t)) == Some(t);
    }
    PlansAreTheOwners(owner, items, v);
    CommittedOwnersEventsKeepCount(env, w, Events(owner, items), owner, v);
    NoneOpen(l', v);
    HoldsNothing(l', v, m);
    AllFromOneVault(items, v, m);
    ExitGains(w.l, v);
    FitVault(env, w.l, v, {owner});
  }

  lemma DrainNative(env: Env, w: World, v: Address)
    requires Inv(env, w.l) && IsVault(w.l, v) && MaySign(env, None, Get(w.l, v).body.v.owner)
    requires Get(w.l, v).lamports > 0
    ensures var owner, e := Get(w.l, v).body.v.owner, Drain(w.l, v)[0];
            && owner != v && TransferLamports(w.l, v, owner, Get(w.l, v).lamports).Ok?
            && Exec(env, w, e) == Ok(w.(l := TransferLamports(w.l, v, owner, Get(w.l, v).lamports).value))
  {
    var r, n, e := Get(w.l, v).body.v, Get(w.l, v).lamports, Drain(w.l, v)[0];
    FitVault(env, w.l, v, {r.owner});
    TotalDominates(w.l, v, r.owner, Lamports);
    ParseU64Inverts(n, []);
    assert e.ix[0] == 4 && e.ix[1..] == Le(n, 8);
    DrainHandler(CtxOf(w, e), w.l, v, e.slots, e.ix[1..]);
    hide WithdrawUserVaultNative;
    hide TransferLamports;
    TransferLamportsTotal(w.l, v, r.owner, n, Lamports);
  }

  lemma DrainHandler(ctx: Ctx, l: Ledger, v: Address, slots: seq<Address>, data: seq<byte>)
    requires IsVault(l, v) && slots == [Get(l, v).body.v.owner, v, Get(l, v).body.v.app]
    requires slots[0] in ctx.signers && ParseU64(data).Ok? && ParseU64(data).value > 0
    ensures WithdrawUserVaultNative(ctx, l, slots, data) == TransferLamports(l, v, slots[0], ParseU64(data).value)
  {
  }

  /** Draining commits, empties the vault's account and pays the owner its lamports; nothing else changes. */
  lemma DrainDoes(env: Env, w: World, v: Address, k: Weight)
    requires Inv(env, w.l) && IsVault(w.l, v) && MaySign(env, None, Get(w.l, v).body.v.owner)
    ensures var owner, l' := Get(w.l, v).body.v.owner, Run(env, w, Drain(w.l, v)).l;
            && AllCommit(env, w, Drain(w.l, v))
            && Get(l', v) == EMPTY && owner != v
            && Get(l', owner).body == Get(w.l, owner).body
            && Get(l', owner).lamports == Get(w.l, owner).lamports + Get(w.l, v).lamports
            && (forall a: Address :: a != v && a != owner ==> Get(l', a) == Get(w.l, a))
            && Total(l', k) == Total(w.l, k)
  {
    var owner, n, es := Get(w.l, v).body.v.owner, Get(w.l, v).lamports, Drain(w.l, v);
    FitVault(env, w.l, v, {owner});
    if n > 0 {
      DrainNative(env, w, v);
      var l1 := TransferLamports(w.l, v, owner, n).value;
      var w1 := w.(l := l1);
      TransferLamportsTotal(w.l, v, owner, n, k);
      hide Process;
      assert es[1..] == [Reap(v)] && Next(env, w, es[0]) == w1;
      ReapDoes(env, w1, v, k);
    } else {
      hide Process;
      assert es == [Reap(v)];
      ReapDoes(env, w, v, k);
    }
  }

  lemma ReapDoes(env: Env, w: World, v: Address, k: Weight)
    requires IsVault(w.l, v) && Get(w.l, v).lamports == 0
    ensures AllCommit(env, w, [Reap(v)]) && Run(env, w, [Reap(v)]) == w.(l := w.l[v := EMPTY])
    ensures Total(w.l[v := EMPTY], k) == Total(w.l, k)
  {
    hide Process;
    assert [Reap(v)][1..] == [];
    assert Exec(env, w, Reap(v)) == Ok(w.(l := w.l[v := EMPTY]));
    TotalPut(w.l, v, EMPTY, k);
  }

  lemma LeaveTakesAccounts(env: Env, w: World, v: Address, m: Address)
    requires MayExit(env, w.l, v) && Uncounted(w.l, v) <= 0
    ensures var owner := Get(w.l, v).body.v.owner;
            var es := Events(owner, Leave(w.l, v));
            var l' := Run(env, w, es).l;
            && AllCommit(env, w, es) && Inv(env, l')
            && IsVault(l', v) && Get(l', v).body.v.owner == owner && Get(l', v).lamports == Get(w.l, v).lamports
            && (forall t: Address :: Controls(w.l, v, t) ==> Get(l', t) == EMPTY)
            && (forall t: Address :: !Controls(l', v, t)) && Total(l', OpenUnder(v)) == 0
            && Get(l', owner).lamports == Get(w.l, owner).lamports + Gain(w.l, Leave(w.l, v))
            && Total(l', HeldBy(owner, m)) == Total(w.l, HeldBy(owner, m)) + Total(w.l, HeldBy(v, m))
  {
    hide Leave;
    hide Exec;
    var owner, items := Get(w.l, v).body.v.owner, Leave(w.l, v);
    LeaveIs(w.l, v);
    LeaveSound(env, w.l, v);
    FitVault(env, w.l, v, {owner});
    SoundPlanCommits(env, w, owner, items);
    SoundPlanReturns(env, w, owner, items, m, v);
    SoundPlanKeeps(env, w, owner, items, v);
    RunInvariant(env, w, Events(owner, items));
    var l' := PlanEnd(w.l, owner, items);
    forall t: Address | Controls(w.l, v, t) ensures Get(l', t) == EMPTY {
      assert Closed(ShutOf(w.l, v, t)) == Some(t);
    }
    PlansAreTheOwners(owner, items, v);
    CommittedOwnersEventsKeepCount(env, w, Events(owner, items), owner, v);
    NoneOpen(l', v);
    HoldsNothing(l', v, m);
    AllFromOneVault(items, v, m);
  }

  lemma DrainTakesAll(env: Env, w: World, v: Address, m: Address)
    requires MayExit(env, w.l, v) && Uncounted(w.l, v) <= 0
    ensures var owner := Get(w.l, v).body.v.owner;
            var es := Events(owner, Leave(w.l, v)) + Drain(w.l, v);
            && AllCommit(env, w, es) && TookAll(w.l, Run(env, w, es).l, v, owner, m)
  {
    hide Leave;
    hide Exec;
    var owner, items := Get(w.l, v).body.v.owner, Leave(w.l, v);
    var es := Events(owner, items);
    var w1 := Run(env, w, es);
    LeaveTakesAccounts(env, w, v, m);
    assert Get(w1.l, v).body.v.app == Get(w.l, v).body.v.app by {
      LeaveKeepsApp(env, w, v);
    }
    assert Drain(w1.l, v) == Drain(w.l, v);
    DrainDoes(env, w1, v, HeldBy(owner, m));
    DrainDoes(env, w1, v, OpenUnder(v));
    RunConcat(env, w, es, Drain(w.l, v));
    AllCommitConcat(env, w, es, Drain(w.l, v));
    ExitGains(w.l, v);
    var l' := Run(env, w1, Drain(w.l, v)).l;
    NoneOpen(l', v);
    forall t: Address | Controls(w.l, v, t) ensures Get(l', t) == EMPTY {
      assert t != owner && t != v;
    }
  }

  lemma LeaveKeepsApp(env: Env, w: World, v: Address)
    requires MayExit(env, w.l, v) && Uncounted(w.l, v) <= 0
    ensures var l' := Run(env, w, Events(Get(w.l, v).body.v.owner, Leave(w.l, v))).l;
            IsVault(l', v) && Get(l', v).body.v.app == Get(w.l, v).body.v.app
  {
    hide Leave;
    hide Exec;
    var owner, items := Get(w.l, v).body.v.owner, Leave(w.l, v);
    LeaveIs(w.l, v);
    LeaveSound(env, w.l, v);
    FitVault(env, w.l, v, {owner});
    SoundPlanCommits(env, w, owner, items);
    SoundPlanKeeps(env, w, owner, items, v);
  }

  // ----- The theorems -----

  lemma DrainIsTheOwners(l: Ledger, v: Address)
    requires IsVault(l, v)
    ensures OwnersRun(Drain(l, v), Get(l, v).body.v.owner, v) && |Drain(l, v)| <= 2
  {
    var r, n := Get(l, v).body.v, Get(l, v).lamports;
    if n > 0 {
      assert Encode(WithdrawNative(n))[0] == 4;
    }
  }

  lemma OwnersRunConcat(es: seq<Event>, fs: seq<Event>, owner: Address, v: Address)
    requires OwnersRun(es, owner, v) && OwnersRun(fs, owner, v)
    ensures OwnersRun(es + fs, owner, v)
  {
  }

  lemma ExitEventsAreTheOwners(l: Ledger, v: Address)
    requires IsVault(l, v) && Uncounted(l, v) <= 0
    ensures OwnersRun(ExitEvents(l, v), Get(l, v).body.v.owner, v)
    ensures |ExitEvents(l, v)| <= 2 * Total(l, OpenUnder(v)) + 2
    ensures Uncounted(l, v) == 0 ==>
              |ExitEvents(l, v)| <= 2 * Count(l, v) + 1 && OwnersOwn(ExitEvents(l, v), Get(l, v).body.v.owner)
  {
    hide Leave;
    hide Drain;
    hide OwnersRun;
    hide OwnersOwn;
    var owner := Get(l, v).body.v.owner;
    LeaveIs(l, v);
    PlansAreTheOwners(owner, ExitPlan(l, v), v);
    PlansAreTheOwners(owner, Leave(l, v), v);
    DrainIsTheOwners(l, v);
    OwnersRunConcat(Events(owner, Leave(l, v)), Drain(l, v), owner, v);
  }

  /** Whatever the delegate, the expiry and the clock: if no more accounts are open under the vault than it
      counts, the owner's at most 2k+1 withdraw, close-account and close-vault instructions (2k+2 steps, the
      last the vault's removal, if it counts more) all commit, and leave nothing. */
  lemma OwnerCanExit(env: Env, w: World, v: Address)
    requires MayExit(env, w.l, v) && Total(w.l, OpenUnder(v)) <= Count(w.l, v)
    ensures var owner, es := Get(w.l, v).body.v.owner, ExitEvents(w.l, v);
            && |es| <= 2 * Total(w.l, OpenUnder(v)) + 2
            && (Uncounted(w.l, v) == 0 ==> |es| <= 2 * Count(w.l, v) + 1 && OwnersOwn(es, owner))
            && OwnersRun(es, owner, v) && AllCommit(env, w, es) && Exited(Run(env, w, es).l, v)
  {
    hide Exec;
    hide Leave;
    ExitEventsAreTheOwners(w.l, v);
    ExitReturnsEverything(env, w, v, 0);
  }

  /** What the exit returns: every lamport of the vault and of its accounts, and every token they held. */
  lemma ExitReturnsEverything(env: Env, w: World, v: Address, m: Address)
    requires MayExit(env, w.l, v) && Total(w.l, OpenUnder(v)) <= Count(w.l, v)
    ensures AllCommit(env, w, ExitEvents(w.l, v))
    ensures TookAll(w.l, Run(env, w, ExitEvents(w.l, v)).l, v, Get(w.l, v).body.v.owner, m)
  {
    hide Exec;
    hide Leave;
    if Uncounted(w.l, v) == 0 {
      CloseTakesAll(env, w, v, m);
    } else {
      DrainTakesAll(env, w, v, m);
    }
  }

  /** The exact condition: some run of the owner's own instructions other than AppIx, with the removal of the
      vault if it is drained, leaves nothing, if and only if no more accounts are open than counted. */
  lemma ExitExactly(env: Env, w: World, v: Address)
    requires MayExit(env, w.l, v)
    ensures (exists es :: OwnersRun(es, Get(w.l, v).body.v.owner, v) && Exited(Run(env, w, es).l, v))
            <==> Total(w.l, OpenUnder(v)) <= Count(w.l, v)
  {
    hide Exec;
    hide ExitEvents;
    var owner := Get(w.l, v).body.v.owner;
    FitVault(env, w.l, v, {owner});
    if Total(w.l, OpenUnder(v)) <= Count(w.l, v) {
      OwnerCanExit(env, w, v);
    }
    forall es | OwnersRun(es, owner, v) && Exited(Run(env, w, es).l, v)
      ensures Total(w.l, OpenUnder(v)) <= Count(w.l, v)
    {
      OwnersRunHasNoAppIx(env, w, es, owner, v);
      ExitNeedsTheCount(env, w, v, es);
    }
  }

  /** From a starting ledger and after any run in which every account under the vault came from a deposit:
      whatever the app closed, whatever delegate, expiry and clock, the owner can leave. */
  lemma DepositorsCanExit(env: Env, w: World, es: seq<Event>, v: Address)
    requires Genesis(w.l) && Total(w.l, OpenUnder(v)) == 0
    requires OpenedIn(env, w, es, v) == 0 && ForgottenIn(env, w, es, v) == 0
    requires IsVault(Run(env, w, es).l, v) && OwnerReady(Run(env, w, es).l, v)
    requires MaySign(env, None, Get(Run(env, w, es).l, v).body.v.owner)
    requires !Controls(Run(env, w, es).l, v, Get(Run(env, w, es).l, v).body.v.owner)
    ensures var w' := Run(env, w, es);
            var fs := ExitEvents(w'.l, v);
            && |fs| <= 2 * Total(w'.l, OpenUnder(v)) + 2
            && OwnersRun(fs, Get(w'.l, v).body.v.owner, v) && AllCommit(env, w', fs)
            && Exited(Run(env, w', fs).l, v)
  {
    hide Exec;
    hide ExitEvents;
    AtaCountAccounting(env, w, es, v);
    RunInvariant(env, w, es);
    OwnerCanExit(env, Run(env, w, es), v);
  }
}
