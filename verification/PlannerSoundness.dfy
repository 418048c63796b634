/** What the page plans, the program accepts: for a table that matches the ledger, every selection the
    gates allow is a sound plan. */
module PlannerSoundness {
  import opened Types
  import opened Ledger
  import opened Runs
  import opened Books
  import opened Decimal
  import opened Gates
  import opened Planner
  import Plan
  import OwnerExit

  // ----- What the renderer puts on the page -----

  predicate Listed(t: TokenRow) { t.mint.Some? && t.amount != "" && AllDigits(t.amount) }

  /** The box is one of those rendered for this token row. */
  predicate FromToken(h: Host, v: VaultRow, t: TokenRow, x: Input) {
    Listed(t) &&
    if Value(t.amount) > 0 then x.data == WithdrawBox(h, v, t).data || x.data == GatedCloseBox(h, v, t).data
    else x.data == FreeCloseBox(v, t).data
  }

  ghost predicate FromRow(h: Host, v: VaultRow, x: Input) {
    x.data == VaultBox(v).data || exists t :: t in v.tokens && FromToken(h, v, t, x)
  }

  ghost predicate FromSome(h: Host, owner: Address, rows: seq<VaultRow>, x: Input) {
    exists v :: v in rows && v.owner == owner && FromRow(h, v, x)
  }

  /** The boxes are those of some of these rows, all of one owner. */
  ghost predicate FromRows(h: Host, owner: Address, rows: seq<VaultRow>, s: seq<Input>) {
    forall x :: x in s ==> FromSome(h, owner, rows, x)
  }

  function Slot(x: Spec): (BatchKind, Address, Option<Address>) { (x.kind, x.vault, x.ata) }

  predicate DistinctSlots(s: seq<Input>) {
    forall i, j :: 0 <= i < j < |s| ==> Slot(s[i].data.spec) != Slot(s[j].data.spec)
  }

  predicate DistinctRows(rows: seq<VaultRow>) {
    && (forall i, j :: 0 <= i < j < |rows| ==> rows[i].address != rows[j].address)
    && (forall i :: 0 <= i < |rows| ==> DistinctTokens(rows[i].tokens))
  }

  predicate DistinctTokens(ts: seq<TokenRow>) {
    forall i, j :: 0 <= i < j < |ts| ==> ts[i].ata != ts[j].ata
  }

  lemma SlotsConcat(a: seq<Input>, b: seq<Input>)
    requires DistinctSlots(a) && DistinctSlots(b)
    requires forall x, y :: x in a && y in b ==> Slot(x.data.spec) != Slot(y.data.spec)
    ensures DistinctSlots(a + b)
  {
    forall i, j | 0 <= i < j < |a + b| ensures Slot((a + b)[i].data.spec) != Slot((a + b)[j].data.spec) {
      if i < |a| <= j {
        assert a[i] in a && b[j - |a|] in b;
      }
    }
  }

  lemma {:induction false} TokensBoxesFrom(h: Host, v: VaultRow, ts: seq<TokenRow>, x: Input)
    requires x in TokensBoxes(h, v, ts)
    ensures exists t :: t in ts && FromToken(h, v, t, x)
  {
    if x in TokenBoxes(h, v, ts[0]) {
      assert ts[0] in ts && FromToken(h, v, ts[0], x);
    } else {
      TokensBoxesFrom(h, v, ts[1..], x);
      var t :| t in ts[1..] && FromToken(h, v, t, x);
      assert t in ts;
    }
  }

  lemma FromTokenAta(h: Host, v: VaultRow, t: TokenRow, x: Input)
    requires FromToken(h, v, t, x)
    ensures x.data.spec.ata == Some(t.ata) && x.data.spec.vault == v.address && x.data.spec.kind != CloseVault
  {
  }

  lemma TokenBoxesAre(h: Host, v: VaultRow, t: TokenRow)
    ensures var s := TokenBoxes(h, v, t);
            && DistinctSlots(s) && (forall x :: x in s ==> FromToken(h, v, t, x))
            && (Listed(t) && Value(t.amount) > 0 ==> WithdrawBox(h, v, t) in s)
  {
  }

  lemma {:induction false} TokensBoxesAre(h: Host, v: VaultRow, ts: seq<TokenRow>)
    requires DistinctTokens(ts)
    ensures var s := TokensBoxes(h, v, ts);
            && DistinctSlots(s)
            && (forall t :: t in ts && Listed(t) && Value(t.amount) > 0 ==> WithdrawBox(h, v, t) in s)
  {
    hide FromToken;
    hide TokenBoxes;
    hide WithdrawBox;
    if ts != [] {
      var a, b := TokenBoxes(h, v, ts[0]), TokensBoxes(h, v, ts[1..]);
      TokensBoxesAre(h, v, ts[1..]);
      TokenBoxesAre(h, v, ts[0]);
      forall x, y | x in a && y in b ensures Slot(x.data.spec) != Slot(y.data.spec) {
        TokensBoxesFrom(h, v, ts[1..], y);
        var t :| t in ts[1..] && FromToken(h, v, t, y);
        FromTokenAta(h, v, ts[0], x);
        FromTokenAta(h, v, t, y);
        assert t.ata != ts[0].ata;
      }
      SlotsConcat(a, b);
    }
  }

  lemma RowBoxesAre(h: Host, owner: Address, v: VaultRow)
    requires DistinctTokens(v.tokens) && v.owner == owner
    ensures var s := RowBoxes(h, Some(owner), v);
            && DistinctSlots(s)
            && (forall x :: x in s ==> FromRow(h, v, x) && x.data.spec.vault == v.address)
            && (forall t :: t in v.tokens && Listed(t) && Value(t.amount) > 0 ==> WithdrawBox(h, v, t) in s)
  {
    hide FromToken;
    hide WithdrawBox;
    var a, b := TokensBoxes(h, v, v.tokens), [VaultBox(v)];
    TokensBoxesAre(h, v, v.tokens);
    forall x | x in a ensures FromRow(h, v, x) && x.data.spec.vault == v.address && x.data.spec.kind != CloseVault {
      TokensBoxesFrom(h, v, v.tokens, x);
      var t :| t in v.tokens && FromToken(h, v, t, x);
      FromTokenAta(h, v, t, x);
    }
    SlotsConcat(a, b);
  }

  lemma {:induction false} RenderFrom(h: Host, owner: Address, rows: seq<VaultRow>, x: Input)
    requires DistinctRows(rows) && x in Render(h, Some(owner), rows)
    ensures FromSome(h, owner, rows, x)
  {
    var v := rows[0];
    if x in RowBoxes(h, Some(owner), v) {
      RowBoxesAre(h, owner, v);
      assert v in rows && FromRow(h, v, x);
    } else {
      RenderFrom(h, owner, rows[1..], x);
      var u :| u in rows[1..] && u.owner == owner && FromRow(h, u, x);
      assert u in rows;
    }
  }

  lemma FromRowSlot(h: Host, v: VaultRow, x: Input)
    requires FromRow(h, v, x)
    ensures x.data.spec.vault == v.address
  {
  }

  lemma {:induction false} RenderSlots(h: Host, owner: Address, rows: seq<VaultRow>)
    requires DistinctRows(rows)
    ensures DistinctSlots(Render(h, Some(owner), rows))
  {
    if rows != [] {
      var v := rows[0];
      var a, b := RowBoxes(h, Some(owner), v), Render(h, Some(owner), rows[1..]);
      RenderSlots(h, owner, rows[1..]);
      if v.owner == owner {
        RowBoxesAre(h, owner, v);
        forall x, y | x in a && y in b ensures Slot(x.data.spec) != Slot(y.data.spec) {
          RenderFrom(h, owner, rows[1..], y);
          var u :| u in rows[1..] && u.owner == owner && FromRow(h, u, y);
          FromRowSlot(h, u, y);
          assert u.address != v.address;
        }
        SlotsConcat(a, b);
      } else {
        assert a + b == b;
      }
    }
  }

  lemma {:induction false} RenderWithdraws(h: Host, owner: Address, rows: seq<VaultRow>, v: VaultRow, t: TokenRow)
    requires DistinctRows(rows) && v in rows && v.owner == owner && t in v.tokens && Listed(t) && Value(t.amount) > 0
    ensures WithdrawBox(h, v, t) in Render(h, Some(owner), rows)
  {
    if v == rows[0] {
      RowBoxesAre(h, owner, v);
    } else {
      RenderWithdraws(h, owner, rows[1..], v, t);
    }
  }

  // ----- The rendered page is well-formed -----

  lemma PairIdInjective(h: Host, v: Address, a: Address, w: Address, b: Address)
    requires Legal(h) && AtaPairId(h, v, a) == AtaPairId(h, w, b)
    ensures v == w && a == b
  {
    var x, y := h.show(v), h.show(w);
    var l, r := AtaPairId(h, v, a), AtaPairId(h, w, b);
    assert l[|x|] == '_' && r[|y|] == '_';
    assert forall i :: 0 <= i < |x| ==> l[i] == x[i] && l[i] != '_';
    assert forall i :: 0 <= i < |y| ==> r[i] == y[i] && r[i] != '_';
    assert |x| == |y|;
    assert x == l[..|x|] && y == r[..|y|];
    assert h.show(a) == l[|x| + 2..] && h.show(b) == r[|y| + 2..];
  }

  /** A paired box carries the pair id of its own vault and account; a gated one closes an account. */
  lemma PairsAreOwn(h: Host, owner: Address, rows: seq<VaultRow>, x: Input)
    requires FromSome(h, owner, rows, x)
    ensures x.data.pair.Some? ==>
              x.data.spec.ata.Some? && x.data.pair.value == AtaPairId(h, x.data.spec.vault, x.data.spec.ata.value)
    ensures x.data.requiresWithdraw ==> x.data.spec.kind == CloseAta && x.data.pair.Some?
    ensures x.data.spec.kind == Withdraw ==> x.data.pair.Some?
    ensures x.data.spec.kind == CloseVault ==> x.data.spec.ata.None?
  {
  }

  lemma RenderWellFormed(h: Host, owner: Address, rows: seq<VaultRow>)
    requires Legal(h) && DistinctRows(rows)
    ensures var s := Render(h, Some(owner), rows); WellFormed(s) && Paired(s) && UngatedFine(s)
  {
    var s := Render(h, Some(owner), rows);
    RenderSlots(h, owner, rows);
    forall i | 0 <= i < |s| ensures FromSome(h, owner, rows, s[i]) {
      RenderFrom(h, owner, rows, s[i]);
    }
    forall i, j | 0 <= i < |s| && 0 <= j < |s| && s[i].data.pair.Some? && s[i].data.pair == s[j].data.pair
      ensures s[i].data.spec.vault == s[j].data.spec.vault && (s[i].data.spec.kind == s[j].data.spec.kind ==> i == j)
    {
      SamePair(h, owner, rows, s, i, j);
    }
    forall i, j | 0 <= i < j < |s| && s[i].data.spec.kind == CloseVault == s[j].data.spec.kind
      ensures s[i].data.spec.vault != s[j].data.spec.vault
    {
      PairsAreOwn(h, owner, rows, s[i]);
      PairsAreOwn(h, owner, rows, s[j]);
    }
    forall i | 0 <= i < |s| && s[i].data.requiresWithdraw
      ensures s[i].data.spec.kind == CloseAta && s[i].data.pair.Some?
      ensures exists j :: 0 <= j < |s| && s[j].data.spec.kind == Withdraw && s[j].data.pair == s[i].data.pair
    {
      PairsAreOwn(h, owner, rows, s[i]);
      GatedHasPartner(h, owner, rows, s[i]);
    }
    forall i | 0 <= i < |s| ensures s[i].data.spec.kind == Withdraw ==> s[i].data.pair.Some? {
      PairsAreOwn(h, owner, rows, s[i]);
    }
    RenderUnticked(h, Some(owner), rows);
  }

  lemma SamePair(h: Host, owner: Address, rows: seq<VaultRow>, s: seq<Input>, i: nat, j: nat)
    requires Legal(h) && DistinctSlots(s) && i < |s| && j < |s|
    requires FromSome(h, owner, rows, s[i]) && FromSome(h, owner, rows, s[j])
    requires s[i].data.pair.Some? && s[i].data.pair == s[j].data.pair
    ensures s[i].data.spec.vault == s[j].data.spec.vault && s[i].data.spec.ata == s[j].data.spec.ata
    ensures s[i].data.spec.kind == s[j].data.spec.kind ==> i == j
  {
    PairsAreOwn(h, owner, rows, s[i]);
    PairsAreOwn(h, owner, rows, s[j]);
    PairIdInjective(h, s[i].data.spec.vault, s[i].data.spec.ata.value, s[j].data.spec.vault, s[j].data.spec.ata.value);
  }

  lemma GatedHasPartner(h: Host, owner: Address, rows: seq<VaultRow>, x: Input)
    requires DistinctRows(rows) && FromSome(h, owner, rows, x) && x.data.requiresWithdraw
    ensures exists y :: y in Render(h, Some(owner), rows) && y.data.spec.kind == Withdraw && y.data.pair == x.data.pair
  {
    var v :| v in rows && v.owner == owner && FromRow(h, v, x);
    var t :| t in v.tokens && FromToken(h, v, t, x);
    RenderWithdraws(h, owner, rows, v, t);
    assert WithdrawBox(h, v, t).data.pair == x.data.pair;
  }

  lemma {:induction false} RenderUnticked(h: Host, connected: Option<Address>, rows: seq<VaultRow>)
    ensures forall x :: x in Render(h, connected, rows) ==> !x.checked
  {
    if rows != [] {
      RenderUnticked(h, connected, rows[1..]);
      TokensUnticked(h, rows[0], rows[0].tokens);
    }
  }

  lemma {:induction false} TokensUnticked(h: Host, v: VaultRow, ts: seq<TokenRow>)
    ensures forall x :: x in TokensBoxes(h, v, ts) ==> !x.checked
  {
    if ts != [] {
      TokensUnticked(h, v, ts[1..]);
    }
  }

  /** The page after rendering, its first pass and any clicks. */
  function Page(h: Host, owner: Address, rows: seq<VaultRow>, clicks: seq<nat>): seq<Input>
    requires InBounds(clicks, |Render(h, Some(owner), rows)|)
  {
    Toggles(SyncAll(Render(h, Some(owner), rows)), clicks)
  }

  /** From the rendered boxes to what the wallet is handed, as the page's own handlers run. */
  method UsePage(h: Host, owner: Address, rows: seq<VaultRow>, results: ReadResults, clicks: seq<nat>)
    returns (r: Outcome)
    requires results.Valid() && results.States() == Render(h, Some(owner), rows)
    requires InBounds(clicks, |Render(h, Some(owner), rows)|)
    modifies results.boxes
    ensures results.States() == Page(h, owner, rows, clicks)
    ensures r == RunSelected(h, owner, Selected(Page(h, owner, rows, clicks)))
  {
    hide RunSelected;
    results.Use(clicks);
    r := OnRunSelectedReadActions(h, owner, results);
  }

  /** Whatever the rows and the clicks, the gates hold on the page. */
  lemma PageGates(h: Host, owner: Address, rows: seq<VaultRow>, clicks: seq<nat>)
    requires Legal(h) && DistinctRows(rows) && InBounds(clicks, |Render(h, Some(owner), rows)|)
    ensures var s := Page(h, owner, rows, clicks);
            && SameData(Render(h, Some(owner), rows), s)
            && WellFormed(s) && GatesHold(s) && DistinctSlots(s) && FromRows(h, owner, rows, s)
  {
    var r, s := Render(h, Some(owner), rows), Page(h, owner, rows, clicks);
    RenderWellFormed(h, owner, rows);
    SyncAllEstablishes(r);
    var r1 := SyncAll(r);
    SameDataWellFormed(r, r1);
    assert Paired(r1) by {
      forall i | 0 <= i < |r| ensures r1[i].data == r[i].data {
      }
    }
    TogglesKeep(r1, clicks);
    assert SameData(r, s) by {
      forall i | 0 <= i < |r| ensures s[i].data == r[i].data {
        assert r1[i].data == r[i].data;
      }
    }
    SameDataWellFormed(r, s);
    RenderSlots(h, owner, rows);
    SameDataSlots(r, s);
    forall x | x in s ensures FromSome(h, owner, rows, x) {
      var i :| 0 <= i < |s| && s[i] == x;
      RenderFrom(h, owner, rows, r[i]);
      SameDataFrom(h, owner, rows, r[i], x);
    }
  }

  /** Every box that is ticked on the page was itself clicked. */
  lemma PageTicks(h: Host, owner: Address, rows: seq<VaultRow>, clicks: seq<nat>, j: nat)
    requires InBounds(clicks, |Render(h, Some(owner), rows)|) && j < |Page(h, owner, rows, clicks)|
    ensures Page(h, owner, rows, clicks)[j].checked ==> j in clicks
  {
    var r := Render(h, Some(owner), rows);
    RenderUnticked(h, Some(owner), rows);
    assert r[j] in r;
    SyncAllTicks(r, j);
    TickedWereClicked(SyncAll(r), clicks, j);
  }

  lemma SameDataSlots(s: seq<Input>, t: seq<Input>)
    requires SameData(s, t) && DistinctSlots(s)
    ensures DistinctSlots(t)
  {
    forall i, j | 0 <= i < j < |t| ensures Slot(t[i].data.spec) != Slot(t[j].data.spec) {
      assert s[i].data == t[i].data && s[j].data == t[j].data;
    }
  }

  lemma SameDataFrom(h: Host, owner: Address, rows: seq<VaultRow>, x: Input, y: Input)
    requires FromSome(h, owner, rows, x) && x.data == y.data
    ensures FromSome(h, owner, rows, y)
  {
    var v :| v in rows && v.owner == owner && FromRow(h, v, x);
    if x.data != VaultBox(v).data {
      var t :| t in v.tokens && FromToken(h, v, t, x);
      assert FromToken(h, v, t, y);
    }
    assert FromRow(h, v, y);
  }

  // ----- The table and the ledger -----

  predicate TokenAccurate(l: Ledger, vault: Address, t: TokenRow) {
    && Controls(l, vault, t.ata) && Listed(t)
    && var r := Get(l, t.ata).body.t;
       t.mint == Some(r.mint) && Value(t.amount) == r.amount && TokenProgramForKind(t.tp) == r.program
  }

  /** The row shows the vault and exactly the token accounts open under it, its count is their number, and
      the owner has an account for each funded mint. */
  ghost predicate RowAccurate(h: Host, l: Ledger, v: VaultRow) {
    && IsVault(l, v.address)
    && (var r := Get(l, v.address).body.v; r.owner == v.owner && r.app == v.app && r.ataCount == v.ataCount)
    && |v.tokens| == v.ataCount
    && (forall t :: t in v.tokens ==> TokenAccurate(l, v.address, t))
    && (forall t :: t in v.tokens && Positive(t.amount) ==> OwnerHas(h, l, v.owner, t))
    && (forall a: Address :: Controls(l, v.address, a) ==> exists t :: t in v.tokens && t.ata == a)
  }

  predicate OwnerHas(h: Host, l: Ledger, owner: Address, t: TokenRow) {
    t.mint.Some? && Plan.OwnersAccount(l, owner, TokenProgramForKind(t.tp), t.mint.value,
                                          h.ata(owner, TokenProgramForKind(t.tp), t.mint.value))
  }

  /** The owner's wallet is not itself a token account of one of its listed vaults. */
  ghost predicate PlainWallet(l: Ledger, owner: Address, rows: seq<VaultRow>) {
    forall v :: v in rows && v.owner == owner ==> !Controls(l, v.address, owner)
  }

  ghost predicate Accurate(h: Host, l: Ledger, owner: Address, rows: seq<VaultRow>) {
    DistinctRows(rows) && forall v :: v in rows && v.owner == owner ==> RowAccurate(h, l, v)
  }

  // ----- Counting close-account boxes -----

  function CountAtas(specs: seq<Spec>, v: Address): nat {
    if specs == [] then 0
    else (if specs[0].kind == CloseAta && specs[0].vault == v then 1 else 0) + CountAtas(specs[1..], v)
  }

  function AtaBoxes(s: seq<Input>, v: Address): nat {
    if s == [] then 0 else (if Selects(CloseAtaOfVault(v), s[0]) then 1 else 0) + AtaBoxes(s[1..], v)
  }

  lemma {:induction false} TickedAreBoxes(s: seq<Input>, v: Address)
    ensures CountAtas(Selected(s), v) <= AtaBoxes(s, v)
    ensures AllReady(s, v) ==> CountAtas(Selected(s), v) == AtaBoxes(s, v)
  {
    if s != [] {
      TickedAreBoxes(s[1..], v);
      assert AllReady(s, v) ==> AllReady(s[1..], v);
      if s[0].checked {
        assert Selected(s)[1..] == Selected(s[1..]);
      } else {
        assert Selected(s) == Selected(s[1..]);
      }
    }
  }

  lemma {:induction false} AtaBoxesSame(s: seq<Input>, t: seq<Input>, v: Address)
    requires SameData(s, t)
    ensures AtaBoxes(s, v) == AtaBoxes(t, v)
  {
    if s != [] {
      AtaBoxesSame(s[1..], t[1..], v);
    }
  }

  lemma {:induction false} AtaBoxesConcat(s: seq<Input>, t: seq<Input>, v: Address)
    ensures AtaBoxes(s + t, v) == AtaBoxes(s, v) + AtaBoxes(t, v)
  {
    if s == [] {
      assert s + t == t;
    } else {
      AtaBoxesConcat(s[1..], t, v);
      assert (s + t)[1..] == s[1..] + t;
    }
  }

  lemma {:induction false} TokensBoxesCount(h: Host, v: VaultRow, ts: seq<TokenRow>, a: Address)
    requires v.address == a ==> forall t :: t in ts ==> Listed(t)
    ensures AtaBoxes(TokensBoxes(h, v, ts), a) == if v.address == a then |ts| else 0
  {
    if ts != [] {
      TokensBoxesCount(h, v, ts[1..], a);
      TokenBoxesCount(h, v, ts[0], a);
      AtaBoxesConcat(TokenBoxes(h, v, ts[0]), TokensBoxes(h, v, ts[1..]), a);
    }
  }

  lemma TokenBoxesCount(h: Host, v: VaultRow, t: TokenRow, a: Address)
    ensures AtaBoxes(TokenBoxes(h, v, t), a) == if v.address == a && Listed(t) then 1 else 0
  {
    var w, g, f := WithdrawBox(h, v, t), GatedCloseBox(h, v, t), FreeCloseBox(v, t);
    assert [w, g][1..] == [g] && [g][1..] == [] && [f][1..] == [];
    assert AtaBoxes([w, g], a) == AtaBoxes([g], a) == AtaBoxes([f], a) == if v.address == a then 1 else 0;
  }

  lemma {:induction false} RenderCount(h: Host, owner: Address, rows: seq<VaultRow>, v: VaultRow)
    requires DistinctRows(rows) && v in rows && v.owner == owner && forall t :: t in v.tokens ==> Listed(t)
    ensures AtaBoxes(Render(h, Some(owner), rows), v.address) == |v.tokens|
  {
    var row := rows[0];
    RowCount(h, owner, row, v.address);
    AtaBoxesConcat(RowBoxes(h, Some(owner), row), Render(h, Some(owner), rows[1..]), v.address);
    if v == row {
      RenderCountNone(h, owner, rows[1..], v.address);
    } else {
      RenderCount(h, owner, rows[1..], v);
    }
  }

  lemma RowCount(h: Host, owner: Address, v: VaultRow, a: Address)
    requires v.address == a ==> forall t :: t in v.tokens ==> Listed(t)
    ensures AtaBoxes(RowBoxes(h, Some(owner), v), a) == if v.address == a && v.owner == owner then |v.tokens| else 0
  {
    TokensBoxesCount(h, v, v.tokens, a);
    AtaBoxesConcat(TokensBoxes(h, v, v.tokens), [VaultBox(v)], a);
    assert AtaBoxes([VaultBox(v)], a) == 0;
  }

  lemma {:induction false} RenderCountNone(h: Host, owner: Address, rows: seq<VaultRow>, a: Address)
    requires forall i :: 0 <= i < |rows| ==> rows[i].address != a
    ensures AtaBoxes(Render(h, Some(owner), rows), a) == 0
  {
    if rows != [] {
      RowCount(h, owner, rows[0], a);
      AtaBoxesConcat(RowBoxes(h, Some(owner), rows[0]), Render(h, Some(owner), rows[1..]), a);
      RenderCountNone(h, owner, rows[1..], a);
    }
  }

  // ----- From ticked boxes to items -----

  ghost predicate Ticked(s: seq<Input>, sp: Spec) {
    exists i :: 0 <= i < |s| && s[i].checked && s[i].data.spec == sp
  }

  predicate SlotsOnce(specs: seq<Spec>) {
    forall i, j :: 0 <= i < j < |specs| ==> Slot(specs[i]) != Slot(specs[j])
  }

  lemma {:induction false} SelectedAre(s: seq<Input>)
    requires DistinctSlots(s)
    ensures forall sp :: sp in Selected(s) <==> Ticked(s, sp)
    ensures SlotsOnce(Selected(s))
  {
    if s != [] {
      SelectedAre(s[1..]);
      forall sp ensures sp in Selected(s) <==> Ticked(s, sp) {
        if Ticked(s[1..], sp) {
          var i :| 0 <= i < |s[1..]| && s[1..][i].checked && s[1..][i].data.spec == sp;
          assert s[i + 1].data.spec == sp;
        }
        if Ticked(s, sp) && !(s[0].checked && s[0].data.spec == sp) {
          var i :| 0 <= i < |s| && s[i].checked && s[i].data.spec == sp;
          assert s[1..][i - 1].data.spec == sp;
        }
      }
      var rest := Selected(s[1..]);
      forall j | 0 <= j < |rest| ensures Slot(s[0].data.spec) != Slot(rest[j]) {
        assert rest[j] in rest;
        var i :| 0 <= i < |s[1..]| && s[1..][i].checked && s[1..][i].data.spec == rest[j];
        assert s[i + 1].data.spec == rest[j];
      }
    }
  }

  lemma {:induction false} DedupDistinct(key: Spec -> string, raw: seq<Spec>)
    requires DistinctKeys(key, raw)
    ensures Dedup(key, raw) == raw
  {
    if raw != [] {
      DedupDistinct(key, raw[..|raw| - 1]);
      MapSetMiss(key, raw[..|raw| - 1], raw[|raw| - 1]);
    }
  }

  lemma KeysTellSlots(h: Host, s: Spec, t: Spec)
    requires Legal(h) && Keys(h)(s) == Keys(h)(t)
    ensures Slot(s) == Slot(t)
  {
    KeyInjective(h, s, t);
  }

  lemma {:induction false} SelectedNone(s: seq<Input>)
    ensures Selected(s) == [] <==> forall i :: 0 <= i < |s| ==> !s[i].checked
  {
    if s != [] {
      SelectedNone(s[1..]);
      if forall i :: 0 <= i < |s[1..]| ==> !s[1..][i].checked {
        assert forall i :: 1 <= i < |s| ==> s[i] == s[1..][i - 1];
      }
    }
  }

  /** Specs of different slots have different keys, so dedup keeps them all, in order. */
  lemma DedupIdle(h: Host, raw: seq<Spec>)
    requires Legal(h) && SlotsOnce(raw)
    ensures Dedup(Keys(h), raw) == raw
  {
    var key := Keys(h);
    forall i, j | 0 <= i < j < |raw| ensures key(raw[i]) != key(raw[j]) {
      if key(raw[i]) == key(raw[j]) {
        KeysTellSlots(h, raw[i], raw[j]);
      }
    }
    DedupDistinct(key, raw);
  }

  lemma {:induction false} InsertCount(h: Host, x: Spec, s: seq<Spec>, v: Address)
    ensures CountAtas(Insert(h, x, s), v) == CountAtas([x], v) + CountAtas(s, v)
  {
    if s == [] || !NotAfter(h, s[0], x) {
      assert ([x] + s)[1..] == s && [x][1..] == [];
    } else {
      InsertCount(h, x, s[1..], v);
      assert ([s[0]] + Insert(h, x, s[1..]))[1..] == Insert(h, x, s[1..]);
    }
  }

  lemma {:induction false} CountSnoc(s: seq<Spec>, x: Spec, v: Address)
    ensures CountAtas(s + [x], v) == CountAtas(s, v) + CountAtas([x], v)
  {
    if s == [] {
      assert s + [x] == [x];
    } else {
      CountSnoc(s[1..], x, v);
      assert (s + [x])[1..] == s[1..] + [x];
    }
  }

  lemma {:induction false} SortCount(h: Host, items: seq<Spec>, v: Address)
    ensures CountAtas(SortBatchSpecs(h, items), v) == CountAtas(items, v)
  {
    if items != [] {
      var init, x := items[..|items| - 1], items[|items| - 1];
      SortCount(h, init, v);
      InsertCount(h, x, SortBatchSpecs(h, init), v);
      CountSnoc(init, x, v);
      assert items == init + [x];
    }
  }

  lemma {:induction false} InsertSlots(h: Host, x: Spec, s: seq<Spec>)
    requires SlotsOnce(s) && forall y :: y in s ==> Slot(y) != Slot(x)
    ensures SlotsOnce(Insert(h, x, s))
  {
    if s != [] && NotAfter(h, s[0], x) {
      InsertSlots(h, x, s[1..]);
      InsertMembers(h, x, s[1..]);
      var r := Insert(h, x, s[1..]);
      forall j | 0 <= j < |r| ensures Slot(s[0]) != Slot(r[j]) {
        assert r[j] in r;
      }
    }
  }

  lemma {:induction false} SortSlots(h: Host, items: seq<Spec>)
    requires SlotsOnce(items)
    ensures SlotsOnce(SortBatchSpecs(h, items))
    ensures forall y :: y in SortBatchSpecs(h, items) <==> y in items
  {
    if items != [] {
      var init, x := items[..|items| - 1], items[|items| - 1];
      SortSlots(h, init);
      InsertSlots(h, x, SortBatchSpecs(h, init));
      InsertMembers(h, x, SortBatchSpecs(h, init));
      assert items == init + [x];
    }
  }

  ghost predicate AllBuild(h: Host, owner: Address, specs: seq<Spec>) {
    forall sp :: sp in specs ==> InstructionFromBatchSpec(h, owner, sp).Built?
  }

  lemma {:induction false} BuildAllIs(h: Host, owner: Address, specs: seq<Spec>)
    requires AllBuild(h, owner, specs)
    ensures BuildAll(h, owner, specs).Sent? && |BuildAll(h, owner, specs).items| == |specs|
    ensures forall k :: 0 <= k < |specs| ==>
              InstructionFromBatchSpec(h, owner, specs[k]) == Built(BuildAll(h, owner, specs).items[k])
    ensures forall v :: Plan.Shuts(BuildAll(h, owner, specs).items, v) == CountAtas(specs, v)
  {
    if specs != [] {
      assert specs[0] in specs;
      BuildAllIs(h, owner, specs[1..]);
      var items := BuildAll(h, owner, specs).items;
      assert items[1..] == BuildAll(h, owner, specs[1..]).items;
    }
  }

  // ----- Gate-respecting selections are sound plans -----

  /** The row and, unless it closes a vault, the token row that a ticked spec came from. */
  lemma TickedFrom(h: Host, l: Ledger, owner: Address, rows: seq<VaultRow>, x: Input)
    returns (v: VaultRow, t: Option<TokenRow>)
    requires Accurate(h, l, owner, rows) && FromSome(h, owner, rows, x)
    ensures v in rows && v.owner == owner && RowAccurate(h, l, v) && x.data.spec.vault == v.address
    ensures t.None? ==> x.data == VaultBox(v).data
    ensures t.Some? ==> t.value in v.tokens && FromToken(h, v, t.value, x) && TokenAccurate(l, v.address, t.value)
  {
    v :| v in rows && v.owner == owner && FromRow(h, v, x);
    t := None;
    if x.data != VaultBox(v).data {
      var u :| u in v.tokens && FromToken(h, v, u, x);
      t := Some(u);
    }
  }

  /** The spec becomes an item that says what the ledger says. */
  ghost predicate BuildsTruly(h: Host, l: Ledger, owner: Address, x: Input) {
    var sp := x.data.spec;
    && sp.owner == owner && InstructionFromBatchSpec(h, owner, sp).Built?
    && var i := InstructionFromBatchSpec(h, owner, sp).item;
       && i.vault == sp.vault && Plan.Rank(i) == KindRank(sp.kind) && Plan.Names(l, owner, i)
       && (sp.kind != CloseVault ==> sp.ata == Some(i.ata))
       && (i.TakeOut? ==> i.amount == Get(l, i.ata).body.t.amount > 0
                          && Plan.OwnersAccount(l, owner, i.program, i.mint, i.dest))
       && (i.ShutAta? && !x.data.requiresWithdraw ==> Amount(l, i.ata) == 0)
  }

  lemma WithdrawBuilds(h: Host, l: Ledger, v: VaultRow, t: TokenRow, x: Input)
    requires Legal(h) && IsVault(l, v.address) && TokenAccurate(l, v.address, t) && Value(t.amount) > 0
    requires Get(l, v.address).body.v.owner == v.owner && Get(l, v.address).body.v.app == v.app
    requires OwnerHas(h, l, v.owner, t) && x.data == WithdrawBox(h, v, t).data
    ensures BuildsTruly(h, l, v.owner, x)
  {
  }

  lemma CloseBuilds(h: Host, l: Ledger, v: VaultRow, t: TokenRow, x: Input)
    requires IsVault(l, v.address) && TokenAccurate(l, v.address, t)
    requires Get(l, v.address).body.v.owner == v.owner && Get(l, v.address).body.v.app == v.app
    requires x.data == GatedCloseBox(h, v, t).data || (Value(t.amount) == 0 && x.data == FreeCloseBox(v, t).data)
    ensures BuildsTruly(h, l, v.owner, x)
  {
  }

  lemma SpecBuilds(h: Host, l: Ledger, owner: Address, rows: seq<VaultRow>, x: Input)
    requires Legal(h) && Accurate(h, l, owner, rows) && FromSome(h, owner, rows, x)
    ensures BuildsTruly(h, l, owner, x)
  {
    var v, t := TickedFrom(h, l, owner, rows, x);
    if t.Some? {
      if x.data == WithdrawBox(h, v, t.value).data {
        assert Positive(t.value.amount);
        WithdrawBuilds(h, l, v, t.value, x);
      } else {
        CloseBuilds(h, l, v, t.value, x);
      }
    }
  }

  /** The close-account boxes ticked for a vault are no more than it counts; all of them, if all are ready. */
  lemma TickedCount(h: Host, l: Ledger, owner: Address, rows: seq<VaultRow>, s: seq<Input>, v: VaultRow)
    requires Accurate(h, l, owner, rows) && v in rows && v.owner == owner
    requires SameData(Render(h, Some(owner), rows), s)
    ensures CountAtas(Selected(s), v.address) <= Count(l, v.address) == v.ataCount
    ensures AllReady(s, v.address) ==> CountAtas(Selected(s), v.address) == Count(l, v.address)
  {
    assert RowAccurate(h, l, v);
    forall t | t in v.tokens ensures Listed(t) {
      assert TokenAccurate(l, v.address, t);
    }
    RenderCount(h, owner, rows, v);
    AtaBoxesSame(Render(h, Some(owner), rows), s, v.address);
    TickedAreBoxes(s, v.address);
  }

  /** The page a selection is made on. */
  ghost predicate OnPage(h: Host, l: Ledger, owner: Address, rows: seq<VaultRow>, s: seq<Input>) {
    && Legal(h) && Accurate(h, l, owner, rows)
    && SameData(Render(h, Some(owner), rows), s)
    && WellFormed(s) && GatesHold(s) && DistinctSlots(s) && FromRows(h, owner, rows, s)
  }

  /** The sorted specs, and the items they become. */
  lemma SelectionBuilds(h: Host, l: Ledger, owner: Address, rows: seq<VaultRow>, s: seq<Input>)
    requires OnPage(h, l, owner, rows, s) && Selected(s) != []
    ensures var sorted := SortBatchSpecs(h, Selected(s));
            && AllBuild(h, owner, sorted) && RunSelected(h, owner, Selected(s)) == BuildAll(h, owner, sorted)
            && SlotsOnce(sorted) && RankSorted(sorted) && |sorted| > 0
            && (forall sp :: sp in sorted <==> Ticked(s, sp))
            && (forall v :: CountAtas(sorted, v) == CountAtas(Selected(s), v))
  {
    var sorted := SortBatchSpecs(h, Selected(s));
    SelectedAre(s);
    DedupIdle(h, Selected(s));
    SortMeans(h, Selected(s));
    SortSlots(h, Selected(s));
    forall v ensures CountAtas(sorted, v) == CountAtas(Selected(s), v) {
      SortCount(h, Selected(s), v);
    }
    forall sp | sp in sorted ensures InstructionFromBatchSpec(h, owner, sp).Built? && sp.owner == owner {
      var i :| 0 <= i < |s| && s[i].checked && s[i].data.spec == sp;
      assert s[i] in s;
      SpecBuilds(h, l, owner, rows, s[i]);
    }
    forall i | 0 <= i < |sorted| ensures sorted[i].owner == owner {
      assert sorted[i] in sorted;
    }
    assert |sorted| > 0 by {
      assert Selected(s)[0] in sorted;
    }
  }

  /** The items of a selection: one per ticked box, in rank order, as many closes per vault as ticked. */
  ghost predicate ItemsOf(h: Host, owner: Address, s: seq<Input>, items: seq<Item>) {
    && (forall i :: i in items ==> exists k :: 0 <= k < |s| && Makes(h, owner, s[k], i))
    && AllMade(h, owner, s, items)
    && (forall v :: Plan.Shuts(items, v) == CountAtas(Selected(s), v))
  }

  ghost predicate AllMade(h: Host, owner: Address, s: seq<Input>, items: seq<Item>) {
    forall k :: 0 <= k < |s| && s[k].checked ==> exists i :: i in items && Makes(h, owner, s[k], i)
  }

  predicate Makes(h: Host, owner: Address, x: Input, i: Item) {
    x.checked && InstructionFromBatchSpec(h, owner, x.data.spec) == Built(i)
  }

  lemma SelectionItems(h: Host, l: Ledger, owner: Address, rows: seq<VaultRow>, s: seq<Input>)
    requires OnPage(h, l, owner, rows, s) && Selected(s) != []
    ensures RunSelected(h, owner, Selected(s)).Sent?
    ensures var items := RunSelected(h, owner, Selected(s)).items;
            ItemsOf(h, owner, s, items) && Plan.Sorted(items) && Plan.Distinct(items)
  {
    SelectionBuilds(h, l, owner, rows, s);
    var sorted := SortBatchSpecs(h, Selected(s));
    BuildAllIs(h, owner, sorted);
    var items := BuildAll(h, owner, sorted).items;
    forall i | i in items ensures exists k :: 0 <= k < |s| && Makes(h, owner, s[k], i) {
      var j :| 0 <= j < |items| && items[j] == i;
      assert sorted[j] in sorted;
      var k :| 0 <= k < |s| && s[k].checked && s[k].data.spec == sorted[j];
      assert Makes(h, owner, s[k], i);
    }
    forall k | 0 <= k < |s| && s[k].checked ensures exists i :: i in items && Makes(h, owner, s[k], i) {
      assert Ticked(s, s[k].data.spec);
      var j :| 0 <= j < |sorted| && sorted[j] == s[k].data.spec;
      assert Makes(h, owner, s[k], items[j]);
    }
    ItemsInOrder(h, l, owner, rows, s, sorted, items);
  }

  lemma ItemsInOrder(h: Host, l: Ledger, owner: Address, rows: seq<VaultRow>, s: seq<Input>,
                     sorted: seq<Spec>, items: seq<Item>)
    requires OnPage(h, l, owner, rows, s) && SlotsOnce(sorted) && RankSorted(sorted)
    requires forall sp :: sp in sorted <==> Ticked(s, sp)
    requires |items| == |sorted|
    requires forall k :: 0 <= k < |sorted| ==> InstructionFromBatchSpec(h, owner, sorted[k]) == Built(items[k])
    ensures Plan.Sorted(items) && Plan.Distinct(items)
  {
    forall j | 0 <= j < |items|
      ensures Plan.Rank(items[j]) == KindRank(sorted[j].kind) && items[j].vault == sorted[j].vault
              && (!items[j].ShutVault? ==> Controls(l, items[j].vault, items[j].ata))
              && (if sorted[j].kind == CloseVault then sorted[j].ata == None else sorted[j].ata == Some(items[j].ata))
    {
      assert sorted[j] in sorted;
      var k :| 0 <= k < |s| && s[k].checked && s[k].data.spec == sorted[j];
      assert s[k] in s;
      SpecBuilds(h, l, owner, rows, s[k]);
      PairsAreOwn(h, owner, rows, s[k]);
    }
    forall j, k | 0 <= j < k < |items| ensures Plan.Differ(items[j], items[k]) {
      assert Slot(sorted[j]) != Slot(sorted[k]);
    }
  }

  /** The ticked withdrawal a ticked gated box waited for. */
  lemma GateOpened(s: seq<Input>, k: nat) returns (j: nat)
    requires AtaGates(s) && k < |s| && s[k].checked && s[k].data.requiresWithdraw && s[k].data.spec.kind == CloseAta
    ensures j < |s| && s[j].data.spec.kind == Withdraw && s[j].data.pair == s[k].data.pair && s[j].checked
  {
    assert AtaGate(s, s[k]);
    j :| 0 <= j < |s| && s[j].data.spec.kind == Withdraw && s[j].data.pair == s[k].data.pair && s[j].checked;
  }

  lemma SameAta(h: Host, owner: Address, rows: seq<VaultRow>, x: Input, y: Input)
    requires Legal(h) && FromSome(h, owner, rows, x) && FromSome(h, owner, rows, y)
    requires x.data.pair.Some? && x.data.pair == y.data.pair
    ensures x.data.spec.ata == y.data.spec.ata
  {
    PairsAreOwn(h, owner, rows, x);
    PairsAreOwn(h, owner, rows, y);
    PairIdInjective(h, x.data.spec.vault, x.data.spec.ata.value, y.data.spec.vault, y.data.spec.ata.value);
  }

  lemma TicksWithdrawal(h: Host, l: Ledger, owner: Address, rows: seq<VaultRow>, s: seq<Input>,
                        items: seq<Item>, j: nat)
    requires Legal(h) && Accurate(h, l, owner, rows) && AllMade(h, owner, s, items)
    requires j < |s| && FromSome(h, owner, rows, s[j]) && s[j].checked && s[j].data.spec.kind == Withdraw
    ensures s[j].data.spec.ata.Some? && Plan.TakesOut(items, s[j].data.spec.ata.value)
  {
    SpecBuilds(h, l, owner, rows, s[j]);
    var i :| i in items && Makes(h, owner, s[j], i);
    assert i.TakeOut?;
  }

  /** A ticked gated close comes with its withdrawal in the plan. */
  lemma GatedIsPreceded(h: Host, l: Ledger, owner: Address, rows: seq<VaultRow>, s: seq<Input>,
                        items: seq<Item>, k: nat)
    requires OnPage(h, l, owner, rows, s) && AllMade(h, owner, s, items)
    requires k < |s| && s[k].checked && s[k].data.requiresWithdraw
    ensures s[k].data.spec.ata.Some? && Plan.TakesOut(items, s[k].data.spec.ata.value)
  {
    assert s[k] in s;
    PairsAreOwn(h, owner, rows, s[k]);
    var j := GateOpened(s, k);
    assert s[j] in s;
    SameAta(h, owner, rows, s[k], s[j]);
    TicksWithdrawal(h, l, owner, rows, s, items, j);
  }

  /** A ticked vault close comes with as many account closes as the vault counts. */
  lemma VaultIsEmptied(h: Host, l: Ledger, owner: Address, rows: seq<VaultRow>, s: seq<Input>, k: nat)
    requires OnPage(h, l, owner, rows, s)
    requires k < |s| && s[k].checked && s[k].data.spec.kind == CloseVault
    ensures CountAtas(Selected(s), s[k].data.spec.vault) == Count(l, s[k].data.spec.vault)
  {
    assert s[k] in s && VaultGate(s, s[k]);
    hide RowAccurate;
    hide Accurate;
    hide Render;
    var v, t := TickedFrom(h, l, owner, rows, s[k]);
    TickedCount(h, l, owner, rows, s, v);
    assert VaultReady(s, s[k]);
  }

  lemma VaultIsNotOverdrawn(h: Host, l: Ledger, owner: Address, rows: seq<VaultRow>, s: seq<Input>, k: nat)
    requires OnPage(h, l, owner, rows, s) && k < |s|
    ensures CountAtas(Selected(s), s[k].data.spec.vault) <= Count(l, s[k].data.spec.vault)
  {
    assert s[k] in s;
    var v, t := TickedFrom(h, l, owner, rows, s[k]);
    TickedCount(h, l, owner, rows, s, v);
  }

  lemma NotTheWallet(h: Host, l: Ledger, owner: Address, rows: seq<VaultRow>, x: Input, ata: Address)
    requires Accurate(h, l, owner, rows) && FromSome(h, owner, rows, x) && PlainWallet(l, owner, rows)
    requires Controls(l, x.data.spec.vault, ata)
    ensures ata != owner
  {
    var v, t := TickedFrom(h, l, owner, rows, x);
  }

  lemma MadeItemIsSound(h: Host, l: Ledger, owner: Address, rows: seq<VaultRow>, s: seq<Input>,
                        items: seq<Item>, i: Item, k: nat)
    requires OnPage(h, l, owner, rows, s) && AllMade(h, owner, s, items) && k < |s| && Makes(h, owner, s[k], i)
    requires Plan.Shuts(items, i.vault) == CountAtas(Selected(s), i.vault) && PlainWallet(l, owner, rows)
    ensures Plan.ItemSound(l, owner, items, i)
  {
    assert s[k] in s;
    SpecBuilds(h, l, owner, rows, s[k]);
    hide OnPage;
    hide InstructionFromBatchSpec;
    hide PlainWallet;
    if i.ShutAta? {
      NotTheWallet(h, l, owner, rows, s[k], i.ata);
      VaultIsNotOverdrawn(h, l, owner, rows, s, k);
      if s[k].data.requiresWithdraw {
        GatedIsPreceded(h, l, owner, rows, s, items, k);
      }
    }
    if i.ShutVault? {
      VaultIsEmptied(h, l, owner, rows, s, k);
    }
  }

  lemma SelectionItemSound(h: Host, l: Ledger, owner: Address, rows: seq<VaultRow>, s: seq<Input>,
                           items: seq<Item>, i: Item)
    requires OnPage(h, l, owner, rows, s) && ItemsOf(h, owner, s, items) && i in items && PlainWallet(l, owner, rows)
    ensures Plan.ItemSound(l, owner, items, i)
  {
    hide OnPage;
    hide AllMade;
    hide PlainWallet;
    hide Makes;
    hide Plan.ItemSound;
    var k :| 0 <= k < |s| && Makes(h, owner, s[k], i);
    MadeItemIsSound(h, l, owner, rows, s, items, i, k);
  }

  /** For a table that matches the ledger, every non-empty selection on a page whose gates hold becomes a
      sound plan. */
  lemma SelectionIsSound(h: Host, env: Env, l: Ledger, owner: Address, rows: seq<VaultRow>, s: seq<Input>)
    requires OnPage(h, l, owner, rows, s) && Selected(s) != []
    requires Inv(env, l) && MaySign(env, None, owner) && PlainWallet(l, owner, rows)
    ensures RunSelected(h, owner, Selected(s)).Sent?
    ensures ItemsOf(h, owner, s, RunSelected(h, owner, Selected(s)).items)
    ensures Plan.Sound(env, l, owner, RunSelected(h, owner, Selected(s)).items)
  {
    SelectionItems(h, l, owner, rows, s);
    var items := RunSelected(h, owner, Selected(s)).items;
    forall i | i in items ensures Plan.ItemSound(l, owner, items, i) {
      SelectionItemSound(h, l, owner, rows, s, items, i);
    }
  }

  /** Over any number of vaults and any clicks: what the page sends commits in full, and leaves the owner
      the tokens it withdrew and the lamports of all it closed. */
  lemma PlannerMeetsProgram(h: Host, env: Env, w: World, owner: Address, rows: seq<VaultRow>, clicks: seq<nat>,
                            m: Address)
    requires Legal(h) && Inv(env, w.l) && MaySign(env, None, owner) && PlainWallet(w.l, owner, rows)
    requires Accurate(h, w.l, owner, rows) && InBounds(clicks, |Render(h, Some(owner), rows)|)
    ensures var s := Page(h, owner, rows, clicks);
            var r := RunSelected(h, owner, Selected(s));
            && (r == NothingSelected <==> forall i :: 0 <= i < |s| ==> !s[i].checked)
            && (r != NothingSelected ==>
                  && r.Sent?
                  && var es := Plan.Events(owner, r.items);
                     && Plan.AllCommit(env, w, es)
                     && Get(Run(env, w, es).l, owner).lamports == Get(w.l, owner).lamports + Plan.Gain(w.l, r.items)
                     && Total(Run(env, w, es).l, HeldBy(owner, m))
                        == Total(w.l, HeldBy(owner, m)) + Plan.Withdrawn(r.items, m))
  {
    hide Page;
    hide OnPage;
    hide Accurate;
    hide Plan.Sound;
    hide Exec;
    var s := Page(h, owner, rows, clicks);
    PageIsOnPage(h, w.l, owner, rows, clicks);
    SelectedNone(s);
    if Selected(s) != [] {
      SelectionIsSound(h, env, w.l, owner, rows, s);
      var items := RunSelected(h, owner, Selected(s)).items;
      Plan.SoundPlanCommits(env, w, owner, items);
      Plan.SoundPlanReturns(env, w, owner, items, m, 0);
    }
  }

  /** The plan asks for nothing that was not clicked: each of its items is built from a box that is ticked and
      was clicked, and every ticked box has its item. */
  lemma NothingUnasked(h: Host, env: Env, l: Ledger, owner: Address, rows: seq<VaultRow>, clicks: seq<nat>)
    requires Legal(h) && Inv(env, l) && MaySign(env, None, owner) && PlainWallet(l, owner, rows)
    requires Accurate(h, l, owner, rows) && InBounds(clicks, |Render(h, Some(owner), rows)|)
    ensures var s := Page(h, owner, rows, clicks);
            var r := RunSelected(h, owner, Selected(s));
            r != NothingSelected ==>
              && r.Sent?
              && (forall i :: i in r.items ==> exists k :: k in clicks && k < |s| && Makes(h, owner, s[k], i))
              && AllMade(h, owner, s, r.items)
  {
    hide Page, OnPage, Accurate, Plan.Sound, AllMade, Makes, RunSelected;
    var s := Page(h, owner, rows, clicks);
    PageIsOnPage(h, l, owner, rows, clicks);
    SelectedNone(s);
    NothingToRun(h, owner, s);
    if Selected(s) != [] {
      SelectionIsSound(h, env, l, owner, rows, s);
      var items := RunSelected(h, owner, Selected(s)).items;
      forall i | i in items ensures exists k :: k in clicks && k < |s| && Makes(h, owner, s[k], i) {
        var k :| 0 <= k < |s| && Makes(h, owner, s[k], i);
        MadeWasTicked(h, owner, s[k], i);
        PageTicks(h, owner, rows, clicks, k);
      }
    }
  }

  lemma NothingToRun(h: Host, owner: Address, s: seq<Input>)
    ensures Selected(s) == [] ==> RunSelected(h, owner, Selected(s)) == NothingSelected
  {
  }

  lemma MadeWasTicked(h: Host, owner: Address, x: Input, i: Item)
    requires Makes(h, owner, x, i)
    ensures x.checked
  {
  }

  // ----- A ticked vault close -----

  function Atas(ts: seq<TokenRow>): (r: seq<Address>)
    ensures |r| == |ts| && forall i :: 0 <= i < |r| ==> r[i] == ts[i].ata
  {
    if ts == [] then [] else [ts[0].ata] + Atas(ts[1..])
  }

  function Elements(a: seq<Address>): set<Address> { set x | x in a }

  lemma {:induction false} DistinctCard(a: seq<Address>)
    requires forall i, j :: 0 <= i < j < |a| ==> a[i] != a[j]
    ensures |Elements(a)| == |a|
  {
    if a != [] {
      DistinctCard(a[1..]);
      assert a[0] !in Elements(a[1..]);
      assert Elements(a) == {a[0]} + Elements(a[1..]);
    } else {
      assert Elements(a) == {};
    }
  }

  lemma SameMembersSameLength(a: seq<Address>, b: seq<Address>)
    requires forall i, j :: 0 <= i < j < |a| ==> a[i] != a[j]
    requires forall i, j :: 0 <= i < j < |b| ==> b[i] != b[j]
    requires forall x :: x in a <==> x in b
    ensures |a| == |b|
  {
    DistinctCard(a);
    DistinctCard(b);
    assert Elements(a) == Elements(b);
  }

  /** As many different members, all of them the other's: all the other's. */
  lemma SameLengthSameMembers(a: seq<Address>, b: seq<Address>)
    requires forall i, j :: 0 <= i < j < |a| ==> a[i] != a[j]
    requires forall i, j :: 0 <= i < j < |b| ==> b[i] != b[j]
    requires (forall x :: x in a ==> x in b) && |a| >= |b|
    ensures forall x :: x in b ==> x in a
  {
    DistinctCard(a);
    DistinctCard(b);
    forall x | x in b ensures x in a {
      if x !in a {
        SubsetCard(Elements(a), Elements(b) - {x});
      }
    }
  }

  lemma {:induction false} SubsetCard(a: set<Address>, b: set<Address>)
    requires a <= b
    ensures |a| <= |b|
  {
    if a != {} {
      var x :| x in a;
      SubsetCard(a - {x}, b - {x});
    }
  }

  lemma {:induction false} LamportsSplit(l: Ledger, a: seq<Address>, b: seq<Address>)
    ensures OwnerExit.LamportsOf(l, a + b) == OwnerExit.LamportsOf(l, a) + OwnerExit.LamportsOf(l, b)
  {
    if a == [] {
      assert a + b == b;
    } else {
      LamportsSplit(l, a[1..], b);
      assert (a + b)[1..] == a[1..] + b;
    }
  }

  /** Taking out one member of a list without repetition. */
  lemma TakeOne(l: Ledger, b: seq<Address>, k: nat) returns (rest: seq<Address>)
    requires k < |b| && forall i, j :: 0 <= i < j < |b| ==> b[i] != b[j]
    ensures forall i, j :: 0 <= i < j < |rest| ==> rest[i] != rest[j]
    ensures forall x :: x in rest <==> x in b && x != b[k]
    ensures OwnerExit.LamportsOf(l, b) == Get(l, b[k]).lamports + OwnerExit.LamportsOf(l, rest)
  {
    rest := b[..k] + b[k + 1..];
    assert b == b[..k] + ([b[k]] + b[k + 1..]);
    LamportsSplit(l, b[..k], [b[k]] + b[k + 1..]);
    LamportsSplit(l, b[..k], b[k + 1..]);
    forall x | x in b && x != b[k] ensures x in rest {
      var i :| 0 <= i < |b| && b[i] == x;
      assert i < k ==> rest[i] == x;
      assert i > k ==> rest[i - 1] == x;
    }
  }

  lemma {:induction false} SameMembersSameLamports(l: Ledger, a: seq<Address>, b: seq<Address>)
    requires forall i, j :: 0 <= i < j < |a| ==> a[i] != a[j]
    requires forall i, j :: 0 <= i < j < |b| ==> b[i] != b[j]
    requires forall x :: x in a <==> x in b
    ensures OwnerExit.LamportsOf(l, a) == OwnerExit.LamportsOf(l, b)
    decreases |a|
  {
    if a == [] {
      SameMembersSameLength(a, b);
    } else {
      assert a[0] in b;
      var k :| 0 <= k < |b| && b[k] == a[0];
      var rest := TakeOne(l, b, k);
      assert forall x :: x in a <==> x == a[0] || x in a[1..];
      SameMembersSameLamports(l, a[1..], rest);
    }
  }

  lemma AccurateControls(l: Ledger, vault: Address, t: TokenRow)
    requires TokenAccurate(l, vault, t)
    ensures Controls(l, vault, t.ata)
  {
  }

  /** An accurate row counts exactly the accounts open under its vault. */
  lemma RowCountsAll(h: Host, l: Ledger, v: VaultRow)
    requires RowAccurate(h, l, v) && DistinctTokens(v.tokens)
    ensures Uncounted(l, v.address) == 0
  {
    hide TokenAccurate;
    var a := Atas(v.tokens);
    OwnerExit.ListingIsComplete(l, v.address);
    forall x ensures x in a <==> x in OwnerExit.Listing(l, v.address) {
      if x in a {
        var i :| 0 <= i < |a| && a[i] == x;
        AccurateControls(l, v.address, v.tokens[i]);
      }
      if Controls(l, v.address, x) {
        var t :| t in v.tokens && t.ata == x;
        var i :| 0 <= i < |v.tokens| && v.tokens[i] == t;
        assert a[i] == x;
      }
    }
    SameMembersSameLength(a, OwnerExit.Listing(l, v.address));
  }

  /** What a plan closes of one vault: accounts and the vault itself, in order. */
  function Closes(items: seq<Item>, v: Address): seq<Address> {
    if items == [] then []
    else
      (if items[0].vault == v && Plan.Closed(items[0]).Some? then [Plan.Closed(items[0]).value] else [])
      + Closes(items[1..], v)
  }

  lemma {:induction false} ClosesMembers(items: seq<Item>, v: Address, x: Address)
    ensures x in Closes(items, v) <==> exists i :: i in items && i.vault == v && Plan.Closed(i) == Some(x)
  {
    hide Plan.Closed;
    if items != [] {
      ClosesMembers(items[1..], v, x);
    }
  }

  lemma {:induction false} ClosesLength(items: seq<Item>, v: Address, app: Address)
    ensures |Closes(items, v)| >= Plan.Shuts(items, v) + if Plan.ShutVault(v, app) in items then 1 else 0
  {
    if items != [] {
      ClosesLength(items[1..], v, app);
    }
  }

  lemma {:induction false} ClosesGain(l: Ledger, items: seq<Item>, v: Address)
    ensures OwnerExit.LamportsOf(l, Closes(items, v)) == Plan.GainFrom(l, items, v) <= Plan.Gain(l, items)
  {
    if items != [] {
      ClosesGain(l, items[1..], v);
      var rest := Closes(items[1..], v);
      if items[0].vault == v && Plan.Closed(items[0]).Some? {
        var first := [Plan.Closed(items[0]).value];
        LamportsSplit(l, first, rest);
        assert OwnerExit.LamportsOf(l, first) == Plan.GainOf(l, items[0]) by {
          assert first[1..] == [];
        }
      } else {
        assert Closes(items, v) == rest;
      }
    }
  }

  /** Different items named by one ledger close different accounts. */
  lemma CloseApart(l: Ledger, owner: Address, i: Item, j: Item)
    requires Plan.Names(l, owner, i) && Plan.Names(l, owner, j) && i.vault == j.vault && i != j
    ensures Plan.Closed(i).Some? ==> Plan.Closed(i) != Plan.Closed(j)
  {
  }

  lemma HeadApart(l: Ledger, owner: Address, items: seq<Item>, v: Address, j: Item)
    requires Plan.Distinct(items) && forall i :: i in items ==> Plan.Names(l, owner, i)
    requires items != [] && j in items[1..] && items[0].vault == v == j.vault && Plan.Closed(items[0]).Some?
    ensures Plan.Closed(items[0]) != Plan.Closed(j)
  {
    hide Plan.Names;
    var k :| 0 <= k < |items[1..]| && items[1..][k] == j;
    assert Plan.Differ(items[0], items[k + 1]);
    CloseApart(l, owner, items[0], j);
  }

  lemma {:induction false} ClosesDistinct(l: Ledger, owner: Address, items: seq<Item>, v: Address)
    requires Plan.Distinct(items) && forall i :: i in items ==> Plan.Names(l, owner, i)
    ensures forall j, k :: 0 <= j < k < |Closes(items, v)| ==> Closes(items, v)[j] != Closes(items, v)[k]
  {
    hide Plan.Names;
    hide Plan.Differ;
    hide Plan.Closed;
    if items != [] {
      ClosesDistinct(l, owner, items[1..], v);
      if items[0].vault == v && Plan.Closed(items[0]).Some? {
        ClosesMembers(items[1..], v, Plan.Closed(items[0]).value);
        forall j | j in items[1..] && j.vault == v ensures Plan.Closed(items[0]) != Plan.Closed(j) {
          HeadApart(l, owner, items, v, j);
        }
      }
    }
  }

  /** The vault and the accounts open under it. */
  ghost function Estate(l: Ledger, v: Address): seq<Address> { [v] + OwnerExit.Listing(l, v) }

  lemma EstateIs(l: Ledger, v: Address)
    requires IsVault(l, v)
    ensures forall i, j :: 0 <= i < j < |Estate(l, v)| ==> Estate(l, v)[i] != Estate(l, v)[j]
    ensures forall x :: x in Estate(l, v) <==> x == v || Controls(l, v, x)
    ensures |Estate(l, v)| == 1 + Total(l, OpenUnder(v))
    ensures OwnerExit.LamportsOf(l, Estate(l, v)) == OwnerExit.Holdings(l, v)
  {
    hide OwnerExit.Listing;
    OwnerExit.ListingIsComplete(l, v);
    assert v !in OwnerExit.Listing(l, v);
    assert Estate(l, v)[1..] == OwnerExit.Listing(l, v);
  }

  lemma ClosesWithin(l: Ledger, owner: Address, items: seq<Item>, v: Address, x: Address)
    requires (forall i :: i in items ==> Plan.Names(l, owner, i)) && x in Closes(items, v)
    ensures x == v || Controls(l, v, x)
  {
    ClosesMembers(items, v, x);
    var i :| i in items && i.vault == v && Plan.Closed(i) == Some(x);
  }

  /** With as many account closes as the vault counts, and the vault's own, the plan closes all of it. */
  lemma ClosesAll(l: Ledger, owner: Address, items: seq<Item>, v: Address, app: Address)
    requires Plan.Distinct(items) && forall i :: i in items ==> Plan.Names(l, owner, i)
    requires Plan.ShutVault(v, app) in items && IsVault(l, v)
    requires Plan.Shuts(items, v) == Count(l, v) && Uncounted(l, v) == 0
    ensures forall t :: t in Estate(l, v) ==> t in Closes(items, v)
    ensures Plan.GainFrom(l, items, v) == OwnerExit.Holdings(l, v) <= Plan.Gain(l, items)
  {
    hide Plan.Names;
    hide Plan.Distinct;
    hide Closes;
    hide Estate;
    EstateIs(l, v);
    ClosesLength(items, v, app);
    ClosesGain(l, items, v);
    ClosesDistinct(l, owner, items, v);
    forall x | x in Closes(items, v) ensures x in Estate(l, v) {
      ClosesWithin(l, owner, items, v, x);
    }
    SameLengthSameMembers(Closes(items, v), Estate(l, v));
    SameMembersSameLamports(l, Closes(items, v), Estate(l, v));
  }

  /** A sound plan that closes a vault with an exact count closes that vault and every account under it, so
      that its gain from the vault is all their lamports. */
  lemma ClosesEverything(env: Env, l: Ledger, owner: Address, items: seq<Item>, v: Address, app: Address)
    requires Plan.Sound(env, l, owner, items) && Plan.ShutVault(v, app) in items && Uncounted(l, v) == 0
    ensures forall t: Address :: Controls(l, v, t) ==>
              exists i :: i in items && i.vault == v && Plan.Closed(i) == Some(t)
    ensures Plan.GainFrom(l, items, v) == OwnerExit.Holdings(l, v) <= Plan.Gain(l, items)
  {
    hide Closes;
    hide Estate;
    hide Plan.Names;
    forall i | i in items ensures Plan.Names(l, owner, i) {
      assert Plan.ItemSound(l, owner, items, i);
    }
    assert IsVault(l, v) by {
      ShutNames(l, owner, items, v, app);
    }
    ClosesAll(l, owner, items, v, app);
    EstateIs(l, v);
    forall t: Address | Controls(l, v, t)
      ensures exists i :: i in items && i.vault == v && Plan.Closed(i) == Some(t)
    {
      ClosesMembers(items, v, t);
    }
  }

  lemma ShutNames(l: Ledger, owner: Address, items: seq<Item>, v: Address, app: Address)
    requires Plan.ItemSound(l, owner, items, Plan.ShutVault(v, app))
    ensures IsVault(l, v) && Get(l, v).body.v.owner == owner
  {
  }

  lemma {:induction false} FromOneIsPart(items: seq<Item>, v: Address, m: Address)
    ensures Plan.WithdrawnFrom(items, v, m) <= Plan.Withdrawn(items, m)
  {
    if items != [] {
      FromOneIsPart(items[1..], v, m);
    }
  }

  /** The vault at `v` and every account under it are gone, and what they held is the owner's: its lamports
      and its tokens of mint `m` are a part of what the plan returns. */
  ghost predicate PaidOut(l: Ledger, l': Ledger, owner: Address, items: seq<Item>, v: Address, m: Address) {
    && Get(l', v) == EMPTY && OwnerExit.Exited(l', v)
    && (forall t: Address :: Controls(l, v, t) ==> Get(l', t) == EMPTY)
    && Plan.GainFrom(l, items, v) == OwnerExit.Holdings(l, v)
    && Plan.WithdrawnFrom(items, v, m) == Total(l, HeldBy(v, m))
    && Get(l', owner).lamports >= Get(l, owner).lamports + OwnerExit.Holdings(l, v)
    && Total(l', HeldBy(owner, m)) >= Total(l, HeldBy(owner, m)) + Total(l, HeldBy(v, m))
  }

  /** A sound plan that closes an accurately listed vault pays all of it out. */
  lemma ClosedVaultIsGone(h: Host, env: Env, w: World, owner: Address, items: seq<Item>, v: VaultRow, m: Address)
    requires Plan.Sound(env, w.l, owner, items) && RowAccurate(h, w.l, v) && DistinctTokens(v.tokens)
    requires Plan.ShutVault(v.address, v.app) in items
    ensures PaidOut(w.l, Run(env, w, Plan.Events(owner, items)).l, owner, items, v.address, m)
  {
    Plan.SoundPlanCommits(env, w, owner, items);
    Plan.SoundPlanReturns(env, w, owner, items, m, v.address);
    assert Plan.Closed(Plan.ShutVault(v.address, v.app)) == Some(v.address);
    RowCountsAll(h, w.l, v);
    OwnerExit.PlansAreTheOwners(owner, items, v.address);
    OwnerExit.CommittedOwnersEventsKeepCount(env, w, Plan.Events(owner, items), owner, v.address);
    var l' := Plan.PlanEnd(w.l, owner, items);
    OwnerExit.NoneOpen(l', v.address);
    ClosesEverything(env, w.l, owner, items, v.address, v.app);
    OwnerExit.HoldsNothing(l', v.address, m);
    FromOneIsPart(items, v.address, m);
    ClosersAreOthers(env, w.l, owner, items, v.address, v.app);
  }

  /** The owner is not the vault it closes. */
  lemma ClosersAreOthers(env: Env, l: Ledger, owner: Address, items: seq<Item>, v: Address, app: Address)
    requires Plan.Sound(env, l, owner, items) && Plan.ShutVault(v, app) in items
    ensures v != owner
  {
    assert Plan.ItemSound(l, owner, items, Plan.ShutVault(v, app));
    FitVault(env, l, v, {owner});
  }

  lemma PageIsOnPage(h: Host, l: Ledger, owner: Address, rows: seq<VaultRow>, clicks: seq<nat>)
    requires Legal(h) && Accurate(h, l, owner, rows) && InBounds(clicks, |Render(h, Some(owner), rows)|)
    ensures OnPage(h, l, owner, rows, Page(h, owner, rows, clicks))
  {
    hide Page;
    PageGates(h, owner, rows, clicks);
  }

  /** A ticked vault close is an item of the plan, for a vault listed accurately. */
  lemma TickedClose(h: Host, l: Ledger, owner: Address, rows: seq<VaultRow>, s: seq<Input>, items: seq<Item>, k: nat)
    returns (v: VaultRow)
    requires OnPage(h, l, owner, rows, s) && AllMade(h, owner, s, items)
    requires k < |s| && s[k].checked && s[k].data.spec.kind == CloseVault
    ensures v.address == s[k].data.spec.vault && RowAccurate(h, l, v) && DistinctTokens(v.tokens)
    ensures Plan.ShutVault(v.address, v.app) in items && Selected(s) != []
  {
    assert s[k] in s;
    SelectedNone(s);
    var t;
    v, t := TickedFrom(h, l, owner, rows, s[k]);
    var i :| i in items && Makes(h, owner, s[k], i);
  }

  /** If the close box of a vault is ticked, the transaction leaves the vault gone and no token account under
      it, and every token and lamport of them with the owner. */
  lemma TickedVaultIsGone(h: Host, env: Env, w: World, owner: Address, rows: seq<VaultRow>, clicks: seq<nat>, k: nat,
                          m: Address)
    requires Legal(h) && Inv(env, w.l) && MaySign(env, None, owner) && PlainWallet(w.l, owner, rows)
    requires Accurate(h, w.l, owner, rows) && InBounds(clicks, |Render(h, Some(owner), rows)|)
    requires k < |Page(h, owner, rows, clicks)|
    requires Page(h, owner, rows, clicks)[k].checked && Page(h, owner, rows, clicks)[k].data.spec.kind == CloseVault
    ensures var s := Page(h, owner, rows, clicks);
            var r := RunSelected(h, owner, Selected(s));
            && r.Sent?
            && PaidOut(w.l, Run(env, w, Plan.Events(owner, r.items)).l, owner, r.items, s[k].data.spec.vault, m)
  {
    hide RunSelected;
    hide Page;
    hide OnPage;
    hide Accurate;
    hide AllMade;
    hide Plan.Sound;
    hide PaidOut;
    var s := Page(h, owner, rows, clicks);
    PageIsOnPage(h, w.l, owner, rows, clicks);
    SelectedNone(s);
    SelectionIsSound(h, env, w.l, owner, rows, s);
    var items := RunSelected(h, owner, Selected(s)).items;
    var v := TickedClose(h, w.l, owner, rows, s, items, k);
    ClosedVaultIsGone(h, env, w, owner, items, v, m);
  }

  // ----- Any vault can be ticked -----

  lemma {:induction false} RenderHasClose(h: Host, owner: Address, rows: seq<VaultRow>, v: VaultRow) returns (k: nat)
    requires v in rows && v.owner == owner
    ensures k < |Render(h, Some(owner), rows)| && Render(h, Some(owner), rows)[k] == VaultBox(v)
  {
    var first := RowBoxes(h, Some(owner), rows[0]);
    if rows[0] == v {
      k := |first| - 1;
    } else {
      k := RenderHasClose(h, owner, rows[1..], v);
      k := |first| + k;
    }
  }

  lemma {:induction false} TokensFree(h: Host, v: VaultRow, ts: seq<TokenRow>)
    ensures FreeBoxes(TokensBoxes(h, v, ts))
  {
    if ts != [] {
      TokensFree(h, v, ts[1..]);
    }
  }

  lemma {:induction false} RenderFree(h: Host, connected: Option<Address>, rows: seq<VaultRow>)
    ensures FreeBoxes(Render(h, connected, rows))
  {
    if rows != [] {
      RenderFree(h, connected, rows[1..]);
      TokensFree(h, rows[0], rows[0].tokens);
    }
  }

  lemma {:induction false} SomeAtaBox(s: seq<Input>, v: Address)
    requires AtaBoxes(s, v) > 0
    ensures AnyAta(s, v)
  {
    if Selects(CloseAtaOfVault(v), s[0]) {
      assert AnyAta(s, v);
    } else {
      SomeAtaBox(s[1..], v);
      var i :| 0 <= i < |s[1..]| && Selects(CloseAtaOfVault(v), s[1..][i]);
      assert Selects(CloseAtaOfVault(v), s[i + 1]);
    }
  }

  /** The page before any click: gates hold, nothing is ticked, and what it never disables is enabled. */
  lemma FreshPage(h: Host, owner: Address, rows: seq<VaultRow>)
    requires Legal(h) && DistinctRows(rows)
    ensures var s := SyncAll(Render(h, Some(owner), rows));
            && SameData(Render(h, Some(owner), rows), s)
            && Fit(s) && FreeBoxes(s) && forall j :: 0 <= j < |s| ==> !s[j].checked
  {
    var r := Render(h, Some(owner), rows);
    RenderWellFormed(h, owner, rows);
    SyncAllEstablishes(r);
    SameDataWellFormed(r, SyncAll(r));
    RenderFree(h, Some(owner), rows);
    SyncAllFree(r);
    RenderUnticked(h, Some(owner), rows);
    forall j | 0 <= j < |r| ensures !SyncAll(r)[j].checked && SyncAll(r)[j].data == r[j].data {
      assert r[j] in r;
      SyncAllTicks(r, j);
    }
  }

  /** For every listed vault of the owner there are clicks that tick its close. */
  lemma CanTickListed(h: Host, l: Ledger, owner: Address, rows: seq<VaultRow>, v: VaultRow)
    returns (clicks: seq<nat>, k: nat)
    requires Legal(h) && Accurate(h, l, owner, rows) && v in rows && v.owner == owner
    ensures InBounds(clicks, |Render(h, Some(owner), rows)|)
    ensures k < |Page(h, owner, rows, clicks)|
    ensures var x := Page(h, owner, rows, clicks)[k];
            x.checked && x.data.spec.kind == CloseVault && x.data.spec.vault == v.address
  {
    hide RowAccurate, Render, SyncAll, Fit, GatesHold;
    var r := Render(h, Some(owner), rows);
    var s := SyncAll(r);
    FreshPage(h, owner, rows);
    k := RenderHasClose(h, owner, rows, v);
    assert s[k].data == r[k].data;
    ListedHaveBoxes(h, l, owner, rows, v, s);
    clicks := CanTickVault(s, k);
    assert Toggles(s, clicks)[k].data == s[k].data;
  }

  lemma ListedHaveBoxes(h: Host, l: Ledger, owner: Address, rows: seq<VaultRow>, v: VaultRow, s: seq<Input>)
    requires Accurate(h, l, owner, rows) && v in rows && v.owner == owner
    requires SameData(Render(h, Some(owner), rows), s)
    ensures v.ataCount == 0 || AnyAta(s, v.address)
  {
    assert RowAccurate(h, l, v);
    forall t | t in v.tokens ensures Listed(t) {
      assert TokenAccurate(l, v.address, t);
    }
    RenderCount(h, owner, rows, v);
    AtaBoxesSame(Render(h, Some(owner), rows), s, v.address);
    if v.ataCount > 0 {
      SomeAtaBox(s, v.address);
    }
  }

  /** The page can empty every vault it lists truly: some clicks send a plan that closes the vault and all its
      accounts and leaves all they held with the owner. */
  lemma PageCanEmpty(h: Host, env: Env, w: World, owner: Address, rows: seq<VaultRow>, v: VaultRow)
    returns (clicks: seq<nat>)
    requires Legal(h) && Inv(env, w.l) && MaySign(env, None, owner) && PlainWallet(w.l, owner, rows)
    requires Accurate(h, w.l, owner, rows) && v in rows && v.owner == owner
    ensures InBounds(clicks, |Render(h, Some(owner), rows)|)
    ensures var r := RunSelected(h, owner, Selected(Page(h, owner, rows, clicks)));
            && r.Sent?
            && Plan.AllCommit(env, w, Plan.Events(owner, r.items))
            && forall m :: PaidOut(w.l, Run(env, w, Plan.Events(owner, r.items)).l, owner, r.items, v.address, m)
  {
    hide Page, Accurate, PaidOut, RunSelected, Plan.AllCommit, PlainWallet;
    var k;
    clicks, k := CanTickListed(h, w.l, owner, rows, v);
    var r := RunSelected(h, owner, Selected(Page(h, owner, rows, clicks)));
    PlannerMeetsProgram(h, env, w, owner, rows, clicks, 0);
    forall m ensures PaidOut(w.l, Run(env, w, Plan.Events(owner, r.items)).l, owner, r.items, v.address, m) {
      TickedVaultIsGone(h, env, w, owner, rows, clicks, k, m);
    }
    assert r != NothingSelected by {
      TickedVaultIsGone(h, env, w, owner, rows, clicks, k, 0);
    }
  }

  /** The assumptions on the host can be met: one whose addresses print as decimal numerals. */
  lemma LegalHostExists()
    ensures exists h: Host :: Legal(h)
  {
    var h := Host((a: Address) => Numeral(a), (s: string) => if AllDigits(s) then Some(Value(s)) else None,
                  (a: Address, b: Address) => a <= b,
                  (w: Address, p: Address, m: Address) => m);
    forall a: Address, b: Address | h.show(a) == h.show(b) ensures a == b {
      ValueOfNumeral(a);
      ValueOfNumeral(b);
    }
    assert Legal(h);
  }
}
