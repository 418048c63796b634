/** The checkbox machine of the vault list (demo/src/main.ts): which close boxes a user may tick, after
    any sequence of ticks. */
module Gates {
  import opened Types

  datatype BatchKind = Withdraw | CloseAta | CloseVault
  datatype TokenKind = Spl | Token2022

  /** What a ticked box asks for. */
  datatype Spec = Spec(kind: BatchKind, owner: Address, app: Address, vault: Address,
                       mint: Option<Address>, ata: Option<Address>, amount: Option<string>, tp: TokenKind)

  /** The data attributes of a box. */
  datatype Dataset = Dataset(spec: Spec, pair: Option<string>, requiresWithdraw: bool, ataCount: u16)

  /** A box as it stands. */
  datatype Input = Input(data: Dataset, checked: bool, disabled: bool)

  /** The selectors the page queries with. */
  datatype Selector = CloseAtaOfPair(pair: string) | CloseAtaOfVault(vault: Address) | CloseOfVault(vault: Address)

  predicate Selects(q: Selector, x: Input) {
    match q
    case CloseAtaOfPair(pair) => x.data.spec.kind == CloseAta && x.data.pair == Some(pair)
    case CloseAtaOfVault(v) => x.data.spec.kind == CloseAta && x.data.spec.vault == v
    case CloseOfVault(v) => x.data.spec.kind == CloseVault && x.data.spec.vault == v
  }

  /** `querySelector`: the first match, or the length. */
  function First(s: seq<Input>, q: Selector): (k: nat)
    ensures k <= |s| && (k < |s| ==> Selects(q, s[k]))
    ensures forall i :: 0 <= i < k ==> !Selects(q, s[i])
  {
    if s == [] || Selects(q, s[0]) then 0 else 1 + First(s[1..], q)
  }

  // ----- The machine on values -----

  function SyncPartner(s: seq<Input>, i: nat): (r: seq<Input>)
    requires i < |s|
    ensures |r| == |s|
  {
    match s[i].data.pair
    case None => s
    case Some(pair) =>
      var k := First(s, CloseAtaOfPair(pair));
      if k == |s| || !s[k].data.requiresWithdraw then s
      else if !s[i].checked then s[k := s[k].(disabled := true, checked := false)]
      else s[k := s[k].(disabled := false)]
  }

  predicate AnyAta(s: seq<Input>, v: Address) { exists i :: 0 <= i < |s| && Selects(CloseAtaOfVault(v), s[i]) }

  predicate AllReady(s: seq<Input>, v: Address) {
    forall i :: 0 <= i < |s| && Selects(CloseAtaOfVault(v), s[i]) ==> !s[i].disabled && s[i].checked
  }

  function RefreshVault(s: seq<Input>, v: Address): (r: seq<Input>)
    ensures |r| == |s|
  {
    var k := First(s, CloseOfVault(v));
    if k == |s| then s
    else if s[k].data.ataCount == 0 then s[k := s[k].(disabled := false)]
    else if !AnyAta(s, v) then s[k := s[k].(disabled := true, checked := false)]
    else s[k := s[k].(disabled := !AllReady(s, v), checked := AllReady(s, v) && s[k].checked)]
  }

  function OnChange(s: seq<Input>, i: nat): (r: seq<Input>)
    requires i < |s|
    ensures |r| == |s|
  {
    match s[i].data.spec.kind
    case Withdraw => RefreshVault(SyncPartner(s, i), s[i].data.spec.vault)
    case CloseAta => RefreshVault(s, s[i].data.spec.vault)
    case CloseVault => s
  }

  /** A click: a disabled box ignores it. */
  function Toggle(s: seq<Input>, i: nat): (r: seq<Input>)
    requires i < |s|
    ensures |r| == |s|
  {
    if s[i].disabled then s else OnChange(s[i := s[i].(checked := !s[i].checked)], i)
  }

  predicate InBounds(clicks: seq<nat>, n: nat) { forall k :: 0 <= k < |clicks| ==> clicks[k] < n }

  function Toggles(s: seq<Input>, clicks: seq<nat>): (r: seq<Input>)
    requires InBounds(clicks, |s|)
    ensures |r| == |s|
    decreases |clicks|
  {
    if clicks == [] then s else Toggles(Toggle(s, clicks[0]), clicks[1..])
  }

  /** The first `n` boxes, withdrawals synced. */
  function SyncEach(s: seq<Input>, n: nat): (r: seq<Input>)
    requires n <= |s|
    ensures |r| == |s|
  {
    if n == 0 then s
    else
      var t := SyncEach(s, n - 1);
      if t[n - 1].data.spec.kind == Withdraw then SyncPartner(t, n - 1) else t
  }

  /** The first `n` boxes, vault closes refreshed. */
  function RefreshEach(s: seq<Input>, n: nat): (r: seq<Input>)
    requires n <= |s|
    ensures |r| == |s|
  {
    if n == 0 then s
    else
      var t := RefreshEach(s, n - 1);
      if t[n - 1].data.spec.kind == CloseVault then RefreshVault(t, t[n - 1].data.spec.vault) else t
  }

  function SyncAll(s: seq<Input>): (r: seq<Input>)
    ensures |r| == |s|
  {
    RefreshEach(SyncEach(s, |s|), |s|)
  }

  // ----- The machine on the page's elements -----

  class Checkbox {
    const data: Dataset
    var checked: bool
    var disabled: bool

    constructor (state: Input)
      ensures State() == state
    {
      data, checked, disabled := state.data, state.checked, state.disabled;
    }

    function State(): Input
      reads this
    {
      Input(data, checked, disabled)
    }
  }

  /** The element that holds the boxes, in document order. */
  class ReadResults {
    const boxes: seq<Checkbox>

    constructor (boxes: seq<Checkbox>)
      ensures this.boxes == boxes
    {
      this.boxes := boxes;
    }

    ghost predicate Valid() { forall i, j :: 0 <= i < j < |boxes| ==> boxes[i] != boxes[j] }

    ghost function States(): (s: seq<Input>)
      reads boxes
      ensures |s| == |boxes| && forall i :: 0 <= i < |s| ==> s[i] == boxes[i].State()
    {
      seq(|boxes|, i requires 0 <= i < |boxes| reads boxes => boxes[i].State())
    }

    method QuerySelector(q: Selector) returns (k: nat)
      ensures k == First(States(), q)
    {
      k := 0;
      assert States()[0..] == States();
      while k < |boxes| && !Selects(q, boxes[k].State())
        invariant k <= |boxes| && First(States(), q) == k + First(States()[k..], q)
      {
        assert States()[k..][1..] == States()[k + 1..];
        k := k + 1;
      }
    }

    method SyncWithdrawPartnerCloseAta(i: nat)
      requires Valid() && i < |boxes|
      modifies boxes
      ensures States() == SyncPartner(old(States()), i)
    {
      var withdrawEl := boxes[i];
      if withdrawEl.data.pair == None {
        return;
      }
      var k := QuerySelector(CloseAtaOfPair(withdrawEl.data.pair.value));
      if k == |boxes| || !boxes[k].data.requiresWithdraw {
        return;
      }
      var closeEl := boxes[k];
      if !withdrawEl.checked {
        closeEl.disabled := true;
        closeEl.checked := false;
      } else {
        closeEl.disabled := false;
      }
    }

    /** Whether a vault has close-account boxes, and whether all of them are ready. */
    method CloseAtas(v: Address) returns (any: bool, allReady: bool)
      ensures any == AnyAta(States(), v) && allReady == AllReady(States(), v)
    {
      any, allReady := false, true;
      for k := 0 to |boxes|
        invariant any == AnyAta(States()[..k], v) && allReady == AllReady(States()[..k], v)
      {
        var el := boxes[k];
        assert States()[..k + 1] == States()[..k] + [el.State()];
        assert AnyAta(States()[..k + 1], v)
               == (AnyAta(States()[..k], v) || Selects(CloseAtaOfVault(v), el.State())) by {
          if AnyAta(States()[..k], v) {
            var i :| 0 <= i < k && Selects(CloseAtaOfVault(v), States()[..k][i]);
            assert Selects(CloseAtaOfVault(v), States()[..k + 1][i]);
          }
          assert States()[..k + 1][k] == el.State();
        }
        assert AllReady(States()[..k + 1], v) ==> AllReady(States()[..k], v) by {
          assert forall i :: 0 <= i < k ==> States()[..k][i] == States()[..k + 1][i];
        }
        assert States()[..k + 1][k] == el.State();
        if Selects(CloseAtaOfVault(v), el.State()) {
          any := true;
          allReady := allReady && !el.disabled && el.checked;
        }
      }
      assert States()[..|boxes|] == States();
    }

    method RefreshCloseVaultForVault(vault: Address)
      requires Valid()
      modifies boxes
      ensures States() == RefreshVault(old(States()), vault)
    {
      var k := QuerySelector(CloseOfVault(vault));
      if k == |boxes| {
        return;
      }
      var cv := boxes[k];
      if cv.data.ataCount == 0 {
        cv.disabled := false;
        return;
      }
      var any, allReady := CloseAtas(vault);
      if !any {
        cv.disabled := true;
        cv.checked := false;
        return;
      }
      cv.disabled := !allReady;
      if cv.disabled {
        cv.checked := false;
      }
    }

    method OnReadResultsBatchChange(i: nat)
      requires Valid() && i < |boxes|
      modifies boxes
      ensures States() == OnChange(old(States()), i)
    {
      var t := boxes[i];
      match t.data.spec.kind
      case Withdraw =>
        SyncWithdrawPartnerCloseAta(i);
        RefreshCloseVaultForVault(t.data.spec.vault);
      case CloseAta =>
        RefreshCloseVaultForVault(t.data.spec.vault);
      case CloseVault =>
    }

    /** A user's click on box `i`. */
    method Click(i: nat)
      requires Valid() && i < |boxes|
      modifies boxes
      ensures States() == Toggle(old(States()), i)
    {
      if !boxes[i].disabled {
        boxes[i].checked := !boxes[i].checked;
        assert States() == old(States())[i := old(States())[i].(checked := !old(States())[i].checked)];
        OnReadResultsBatchChange(i);
      }
    }

    /** The page in use: the pass after rendering, then a user's clicks. */
    method Use(clicks: seq<nat>)
      requires Valid() && InBounds(clicks, |boxes|)
      modifies boxes
      ensures States() == Toggles(SyncAll(old(States())), clicks)
    {
      hide SyncAll;
      hide Toggle;
      SyncAllReadResultsBatchGates();
      for i := 0 to |clicks|
        invariant Toggles(States(), clicks[i..]) == Toggles(SyncAll(old(States())), clicks)
      {
        assert clicks[i..][1..] == clicks[i + 1..];
        Click(clicks[i]);
      }
    }

    method SyncAllReadResultsBatchGates()
      requires Valid()
      modifies boxes
      ensures States() == SyncAll(old(States()))
    {
      hide SyncPartner;
      hide RefreshVault;
      for i := 0 to |boxes|
        invariant States() == SyncEach(old(States()), i)
      {
        if boxes[i].data.spec.kind == Withdraw {
          SyncWithdrawPartnerCloseAta(i);
        }
      }
      ghost var synced := States();
      for i := 0 to |boxes|
        invariant States() == RefreshEach(synced, i)
      {
        if boxes[i].data.spec.kind == CloseVault {
          RefreshCloseVaultForVault(boxes[i].data.spec.vault);
        }
      }
    }
  }

  // ----- The gate invariant -----

  predicate SameData(s: seq<Input>, t: seq<Input>) {
    |s| == |t| && forall i :: 0 <= i < |s| ==> s[i].data == t[i].data
  }

  /** Pairs name one withdrawal and one close of one vault; each vault has one close; a gated box has its
      withdrawal on the page. */
  ghost predicate WellFormed(s: seq<Input>) {
    && (forall i, j :: 0 <= i < |s| && 0 <= j < |s| && s[i].data.pair.Some? && s[i].data.pair == s[j].data.pair ==>
          s[i].data.spec.vault == s[j].data.spec.vault
          && (s[i].data.spec.kind == s[j].data.spec.kind ==> i == j))
    && (forall i, j :: 0 <= i < j < |s| && s[i].data.spec.kind == CloseVault == s[j].data.spec.kind ==>
          s[i].data.spec.vault != s[j].data.spec.vault)
    && (forall i :: 0 <= i < |s| && s[i].data.requiresWithdraw ==>
          s[i].data.spec.kind == CloseAta && s[i].data.pair.Some?
          && exists j :: 0 <= j < |s| && s[j].data.spec.kind == Withdraw && s[j].data.pair == s[i].data.pair)
  }

  /** The withdrawal of the same pair is ticked. */
  ghost predicate WithdrawChecked(s: seq<Input>, pair: Option<string>) {
    exists j :: 0 <= j < |s| && s[j].data.spec.kind == Withdraw && s[j].data.pair == pair && s[j].checked
  }

  ghost predicate VaultReady(s: seq<Input>, x: Input) {
    x.data.ataCount == 0 || (AnyAta(s, x.data.spec.vault) && AllReady(s, x.data.spec.vault))
  }

  ghost predicate AtaGate(s: seq<Input>, x: Input) {
    x.data.spec.kind == CloseAta ==>
      (x.checked ==> !x.disabled) && (x.data.requiresWithdraw ==> (!x.disabled <==> WithdrawChecked(s, x.data.pair)))
  }

  ghost predicate VaultGate(s: seq<Input>, x: Input) {
    x.data.spec.kind == CloseVault ==> (x.checked ==> !x.disabled) && (!x.disabled <==> VaultReady(s, x))
  }

  ghost predicate AtaGates(s: seq<Input>) { forall i :: 0 <= i < |s| ==> AtaGate(s, s[i]) }

  /** A gated close-account box is enabled exactly while its withdrawal is ticked, a close-vault box exactly
      while the vault counts no accounts or all its close-account boxes are enabled and ticked; and no
      disabled close box is ticked. */
  ghost predicate GatesHold(s: seq<Input>) {
    AtaGates(s) && forall i :: 0 <= i < |s| ==> VaultGate(s, s[i])
  }

  lemma SameDataWellFormed(s: seq<Input>, t: seq<Input>)
    requires WellFormed(s) && SameData(s, t)
    ensures WellFormed(t)
  {
    forall i | 0 <= i < |t| && t[i].data.requiresWithdraw
      ensures exists j :: 0 <= j < |t| && t[j].data.spec.kind == Withdraw && t[j].data.pair == t[i].data.pair
    {
      assert s[i].data.requiresWithdraw;
      var j :| 0 <= j < |s| && s[j].data.spec.kind == Withdraw && s[j].data.pair == s[i].data.pair;
      assert t[j].data == s[j].data;
    }
  }

  /** Syncing a withdrawal touches its gated partner alone. */
  lemma SyncPartnerDoes(s: seq<Input>, i: nat)
    requires WellFormed(s) && i < |s| && s[i].data.spec.kind == Withdraw
    ensures var t := SyncPartner(s, i);
            && SameData(s, t)
            && (forall k :: 0 <= k < |s| && t[k] != s[k] ==>
                  s[k].data.requiresWithdraw && s[k].data.pair == s[i].data.pair)
            && (forall k :: 0 <= k < |s| && s[k].data.requiresWithdraw && s[k].data.pair == s[i].data.pair ==>
                  t[k].disabled == !s[i].checked && (t[k].checked ==> !t[k].disabled))
  {
    var t := SyncPartner(s, i);
    forall k | 0 <= k < |s| && s[k].data.requiresWithdraw && s[k].data.pair == s[i].data.pair
      ensures t[k].disabled == !s[i].checked && (t[k].checked ==> !t[k].disabled)
    {
      assert Selects(CloseAtaOfPair(s[i].data.pair.value), s[k]);
      assert k == First(s, CloseAtaOfPair(s[i].data.pair.value));
    }
  }

  /** Refreshing a vault touches its close box alone, and puts it right. */
  lemma RefreshVaultDoes(s: seq<Input>, v: Address)
    requires WellFormed(s)
    ensures var t := RefreshVault(s, v);
            && SameData(s, t)
            && (forall k :: 0 <= k < |s| && !Selects(CloseOfVault(v), s[k]) ==> t[k] == s[k])
            && (forall k :: 0 <= k < |s| && Selects(CloseOfVault(v), s[k]) ==> VaultGate(t, t[k]))
  {
    var t := RefreshVault(s, v);
    AtasDecide(s, t, v);
    forall k | 0 <= k < |s| && Selects(CloseOfVault(v), s[k]) ensures VaultGate(t, t[k]) {
      assert k == First(s, CloseOfVault(v));
    }
  }

  /** A vault's readiness and a pair's withdrawal are read off boxes of their own kinds. */
  lemma AtasDecide(s: seq<Input>, t: seq<Input>, v: Address)
    requires SameData(s, t)
    requires forall k :: 0 <= k < |s| && Selects(CloseAtaOfVault(v), s[k]) ==> t[k] == s[k]
    ensures AnyAta(t, v) == AnyAta(s, v) && AllReady(t, v) == AllReady(s, v)
  {
    forall k | 0 <= k < |s| ensures Selects(CloseAtaOfVault(v), t[k]) == Selects(CloseAtaOfVault(v), s[k]) {
      assert t[k].data == s[k].data;
    }
    if AnyAta(s, v) {
      var k :| 0 <= k < |s| && Selects(CloseAtaOfVault(v), s[k]);
      assert Selects(CloseAtaOfVault(v), t[k]);
    }
  }

  lemma WithdrawalsDecide(s: seq<Input>, t: seq<Input>, pair: Option<string>)
    requires SameData(s, t)
    requires forall k :: 0 <= k < |s| && s[k].data.spec.kind == Withdraw && s[k].data.pair == pair ==> t[k] == s[k]
    ensures WithdrawChecked(t, pair) == WithdrawChecked(s, pair)
  {
    forall k | 0 <= k < |s| ensures t[k].data == s[k].data {
    }
  }

  /** After a refresh of `v`, the gates of `v` hold, and those that held before still do. */
  lemma RefreshKeeps(s: seq<Input>, v: Address)
    requires WellFormed(s) && AtaGates(s)
    ensures var t := RefreshVault(s, v);
            && SameData(s, t) && AtaGates(t)
            && forall k :: 0 <= k < |s| && (VaultGate(s, s[k]) || Selects(CloseOfVault(v), s[k])) ==> VaultGate(t, t[k])
  {
    var t := RefreshVault(s, v);
    RefreshVaultDoes(s, v);
    forall k | 0 <= k < |t| ensures AtaGate(t, t[k]) {
      assert AtaGate(s, s[k]);
      WithdrawalsDecide(s, t, s[k].data.pair);
    }
    forall k | 0 <= k < |s| && VaultGate(s, s[k]) && !Selects(CloseOfVault(v), s[k]) ensures VaultGate(t, t[k]) {
      AtasDecide(s, t, s[k].data.spec.vault);
    }
  }

  /** The gates of every close-vault box but those of `v`. */
  ghost predicate OthersHold(s: seq<Input>, v: Address) {
    forall k :: 0 <= k < |s| && !Selects(CloseOfVault(v), s[k]) ==> VaultGate(s, s[k])
  }

  lemma RefreshFinishes(s: seq<Input>, v: Address)
    requires WellFormed(s) && AtaGates(s) && OthersHold(s, v)
    ensures SameData(s, RefreshVault(s, v)) && GatesHold(RefreshVault(s, v))
  {
    RefreshKeeps(s, v);
  }

  function Flipped(s: seq<Input>, i: nat): (t: seq<Input>)
    requires i < |s|
    ensures |t| == |s|
  {
    s[i := s[i].(checked := !s[i].checked)]
  }

  /** A withdrawal decides the gate of its own pair, and no other. */
  lemma WithdrawTickedAtas(s: seq<Input>, i: nat, k: nat)
    requires WellFormed(s) && GatesHold(s) && i < |s| && k < |s|
    requires s[i].data.spec.kind == Withdraw && s[i].data.pair.Some?
    ensures var t := SyncPartner(Flipped(s, i), i); SameData(s, t) && AtaGate(t, t[k])
  {
    var s1 := Flipped(s, i);
    var t := SyncPartner(s1, i);
    SameDataWellFormed(s, s1);
    SyncPartnerDoes(s1, i);
    hide SyncPartner;
    assert AtaGate(s, s[k]);
    if t[k].data.requiresWithdraw {
      if t[k].data.pair == s[i].data.pair {
        assert t[i] == s1[i];
        if WithdrawChecked(t, t[k].data.pair) {
          var j :| 0 <= j < |t| && t[j].data.spec.kind == Withdraw && t[j].data.pair == t[k].data.pair && t[j].checked;
          assert j == i;
        }
      } else {
        WithdrawalsDecide(s, t, t[k].data.pair);
      }
    }
  }

  /** After a withdrawal is ticked and its partner synced, only its own vault's gate may be wrong. */
  lemma WithdrawTicked(s: seq<Input>, i: nat)
    requires WellFormed(s) && GatesHold(s) && i < |s| && s[i].data.spec.kind == Withdraw && s[i].data.pair.Some?
    ensures var t := SyncPartner(Flipped(s, i), i);
            SameData(s, t) && AtaGates(t) && OthersHold(t, s[i].data.spec.vault)
  {
    var s1 := Flipped(s, i);
    var t := SyncPartner(s1, i);
    SameDataWellFormed(s, s1);
    SyncPartnerDoes(s1, i);
    hide SyncPartner;
    forall k | 0 <= k < |t| ensures AtaGate(t, t[k]) {
      WithdrawTickedAtas(s, i, k);
    }
    forall k | 0 <= k < |t| && !Selects(CloseOfVault(s[i].data.spec.vault), t[k]) ensures VaultGate(t, t[k]) {
      assert VaultGate(s, s[k]);
      if s[k].data.spec.kind == CloseVault {
        AtasDecide(s, t, s[k].data.spec.vault);
      }
    }
  }

  /** Ticking an enabled close box alone breaks no gate but its own vault's, and a close-vault box none. */
  lemma CloseTicked(s: seq<Input>, i: nat)
    requires WellFormed(s) && GatesHold(s) && i < |s| && s[i].data.spec.kind != Withdraw && !s[i].disabled
    ensures SameData(s, Flipped(s, i)) && AtaGates(Flipped(s, i)) && OthersHold(Flipped(s, i), s[i].data.spec.vault)
    ensures s[i].data.spec.kind == CloseVault ==> GatesHold(Flipped(s, i))
  {
    var t := Flipped(s, i);
    forall k | 0 <= k < |t| ensures AtaGate(t, t[k]) {
      assert AtaGate(s, s[k]);
      WithdrawalsDecide(s, t, s[k].data.pair);
    }
    forall k | 0 <= k < |t| && (s[i].data.spec.kind == CloseVault || !Selects(CloseOfVault(s[i].data.spec.vault), t[k]))
      ensures VaultGate(t, t[k])
    {
      assert VaultGate(s, s[k]);
      if s[k].data.spec.kind == CloseVault {
        AtasDecide(s, t, s[k].data.spec.vault);
      }
    }
  }

  predicate Paired(s: seq<Input>) {
    forall i :: 0 <= i < |s| && s[i].data.spec.kind == Withdraw ==> s[i].data.pair.Some?
  }

  /** A click keeps every gate. */
  lemma ToggleKeeps(s: seq<Input>, i: nat)
    requires WellFormed(s) && Paired(s) && GatesHold(s) && i < |s|
    ensures SameData(s, Toggle(s, i)) && GatesHold(Toggle(s, i))
  {
    if !s[i].disabled {
      var v, s1 := s[i].data.spec.vault, Flipped(s, i);
      var t := s1;
      if s[i].data.spec.kind == Withdraw {
        WithdrawTicked(s, i);
        t := SyncPartner(s1, i);
      } else {
        CloseTicked(s, i);
      }
      SameDataWellFormed(s, t);
      RefreshFinishes(t, v);
    }
  }

  /** After any sequence of clicks every gate holds. */
  lemma {:induction false} TogglesKeep(s: seq<Input>, clicks: seq<nat>)
    requires WellFormed(s) && Paired(s) && GatesHold(s) && InBounds(clicks, |s|)
    ensures SameData(s, Toggles(s, clicks)) && GatesHold(Toggles(s, clicks))
    decreases |clicks|
  {
    if clicks != [] {
      ToggleKeeps(s, clicks[0]);
      SameDataWellFormed(s, Toggle(s, clicks[0]));
      assert Paired(Toggle(s, clicks[0])) by {
        forall i | 0 <= i < |s| ensures Toggle(s, clicks[0])[i].data == s[i].data {
        }
      }
      TogglesKeep(Toggle(s, clicks[0]), clicks[1..]);
    }
  }

  // ----- Only a click ticks -----

  /** A box the page itself enables and disables. */
  predicate Governed(x: Input) { x.data.spec.kind == CloseVault || x.data.requiresWithdraw }

  /** From `x` to `y` a box is at most disabled and unticked or enabled: it is not ticked, not unticked while it
      stays enabled, and not touched unless the page governs it. */
  predicate Follows(x: Input, y: Input) {
    && y.data == x.data && (y.checked ==> x.checked) && (x.checked && !y.disabled ==> y.checked)
    && (!Governed(x) ==> y == x)
  }

  lemma SyncPartnerTicks(s: seq<Input>, i: nat, j: nat)
    requires i < |s| && j < |s|
    ensures Follows(s[j], SyncPartner(s, i)[j])
    ensures SyncPartner(s, i)[j] != s[j] ==> s[j].data.spec.kind == CloseAta
  {
  }

  lemma RefreshVaultTicks(s: seq<Input>, v: Address, j: nat)
    requires j < |s|
    ensures Follows(s[j], RefreshVault(s, v)[j])
    ensures RefreshVault(s, v)[j] != s[j] ==> s[j].data.spec.kind == CloseVault
  {
  }

  /** A click on a disabled box does nothing. On an enabled one it flips that box, and ticks no other: another
      box is unticked only as it is disabled. */
  lemma ToggleTicks(s: seq<Input>, i: nat, j: nat)
    requires i < |s| && j < |s|
    ensures s[i].disabled ==> Toggle(s, i) == s
    ensures !s[i].disabled && j == i ==> Toggle(s, i)[i] == s[i].(checked := !s[i].checked)
    ensures j != i ==> Follows(s[j], Toggle(s, i)[j])
  {
    hide SyncPartner, RefreshVault;
    if !s[i].disabled {
      var s1, v := Flipped(s, i), s[i].data.spec.vault;
      SyncPartnerTicks(s1, i, j);
      RefreshVaultTicks(SyncPartner(s1, i), v, j);
      RefreshVaultTicks(s1, v, j);
    }
  }

  /** A box that is ticked after some clicks, and was not before, is one of those clicked. */
  lemma {:induction false} TickedWereClicked(s: seq<Input>, clicks: seq<nat>, j: nat)
    requires InBounds(clicks, |s|) && j < |s|
    ensures Toggles(s, clicks)[j].checked ==> s[j].checked || j in clicks
    decreases |clicks|
  {
    hide Toggle;
    if clicks != [] {
      ToggleTicks(s, clicks[0], j);
      TickedWereClicked(Toggle(s, clicks[0]), clicks[1..], j);
    }
  }

  lemma {:induction false} SyncEachTicks(s: seq<Input>, n: nat, j: nat)
    requires n <= |s| && j < |s|
    ensures SyncEach(s, n)[j].checked ==> s[j].checked
  {
    if n > 0 {
      SyncEachTicks(s, n - 1, j);
      SyncPartnerTicks(SyncEach(s, n - 1), n - 1, j);
    }
  }

  lemma {:induction false} RefreshEachTicks(s: seq<Input>, n: nat, j: nat)
    requires n <= |s| && j < |s|
    ensures RefreshEach(s, n)[j].checked ==> s[j].checked
  {
    if n > 0 {
      RefreshEachTicks(s, n - 1, j);
      var t := RefreshEach(s, n - 1);
      RefreshVaultTicks(t, t[n - 1].data.spec.vault, j);
    }
  }

  /** The pass after rendering ticks nothing. */
  lemma SyncAllTicks(s: seq<Input>, j: nat)
    requires j < |s|
    ensures SyncAll(s)[j].checked ==> s[j].checked
  {
    SyncEachTicks(s, |s|, j);
    RefreshEachTicks(SyncEach(s, |s|), |s|, j);
  }

  // ----- A vault whose accounts are all listed can be ticked -----

  lemma {:induction false} TogglesConcat(s: seq<Input>, a: seq<nat>, b: seq<nat>)
    requires InBounds(a, |s|) && InBounds(b, |s|)
    ensures InBounds(a + b, |s|) && Toggles(s, a + b) == Toggles(Toggles(s, a), b)
    decreases |a|
  {
    hide Toggle;
    if a == [] {
      assert a + b == b;
    } else {
      assert (a + b)[1..] == a[1..] + b;
      TogglesConcat(Toggle(s, a[0]), a[1..], b);
    }
  }

  /** A page in use whose gates hold. */
  ghost predicate Fit(s: seq<Input>) { WellFormed(s) && Paired(s) && GatesHold(s) }

  lemma ToggleFits(s: seq<Input>, i: nat)
    requires Fit(s) && i < |s|
    ensures SameData(s, Toggle(s, i)) && Fit(Toggle(s, i))
  {
    hide Toggle;
    ToggleKeeps(s, i);
    SameDataWellFormed(s, Toggle(s, i));
    forall k | 0 <= k < |s| ensures Toggle(s, i)[k].data == s[k].data {
    }
  }

  /** The boxes of `v` that ask for something before its close: withdrawals, then account closes. */
  predicate IsOf(x: Input, v: Address, kind: BatchKind) { x.data.spec.kind == kind && x.data.spec.vault == v }

  /** Every box of that kind and vault below `n` is ticked and enabled. */
  ghost predicate TickedTo(s: seq<Input>, v: Address, kind: BatchKind, n: nat) {
    forall j :: 0 <= j < n <= |s| && IsOf(s[j], v, kind) ==> s[j].checked && !s[j].disabled
  }

  /** From `n` on, none of them is ticked yet. */
  ghost predicate UntickedFrom(s: seq<Input>, v: Address, kind: BatchKind, n: nat) {
    forall j :: n <= j < |s| && IsOf(s[j], v, kind) ==> !s[j].checked
  }

  /** What the page never disables is enabled. */
  ghost predicate FreeBoxes(s: seq<Input>) {
    forall j :: 0 <= j < |s| && !Governed(s[j]) ==> !s[j].disabled
  }

  lemma ToggleFree(s: seq<Input>, i: nat)
    requires FreeBoxes(s) && i < |s|
    ensures FreeBoxes(Toggle(s, i))
  {
    hide Toggle;
    forall j | 0 <= j < |s| && !Governed(Toggle(s, i)[j]) ensures !Toggle(s, i)[j].disabled {
      ToggleTicks(s, i, j);
    }
  }
  /** A page some way into ticking all of `v`: withdrawals ticked below `w`, account closes below `c`. */
  ghost predicate Ticking(s: seq<Input>, v: Address, w: nat, c: nat) {
    && Fit(s) && FreeBoxes(s)
    && TickedTo(s, v, Withdraw, w) && UntickedFrom(s, v, Withdraw, w)
    && TickedTo(s, v, CloseAta, c) && UntickedFrom(s, v, CloseAta, c)
    && UntickedFrom(s, v, CloseVault, 0)
  }

  lemma WithdrawalsAreFree(s: seq<Input>, j: nat)
    requires WellFormed(s) && j < |s| && s[j].data.spec.kind == Withdraw
    ensures !Governed(s[j])
  {
  }

  lemma TickWithdrawal(s: seq<Input>, v: Address, n: nat)
    requires n < |s| && Ticking(s, v, n, 0) && IsOf(s[n], v, Withdraw)
    ensures Ticking(Toggle(s, n), v, n + 1, 0) && SameData(s, Toggle(s, n))
  {
    hide Toggle, WellFormed, GatesHold;
    ToggleFits(s, n);
    ToggleFree(s, n);
    WithdrawalsAreFree(s, n);
    forall j | 0 <= j < |s| && IsOf(s[j], v, Withdraw) && j != n ensures Toggle(s, n)[j] == s[j] {
      WithdrawalsAreFree(s, j);
      ToggleTicks(s, n, j);
    }
    ToggleTicks(s, n, n);
    forall j | 0 <= j < |s| && j != n ensures Toggle(s, n)[j].checked ==> s[j].checked {
      ToggleTicks(s, n, j);
    }
  }

  /** With the vault's withdrawals ticked, its account closes are enabled. */
  lemma AtaIsEnabled(s: seq<Input>, v: Address, c: nat)
    requires Fit(s) && FreeBoxes(s) && TickedTo(s, v, Withdraw, |s|) && c < |s| && IsOf(s[c], v, CloseAta)
    ensures !s[c].disabled
  {
    assert AtaGate(s, s[c]);
    if s[c].data.requiresWithdraw {
      var j :| 0 <= j < |s| && s[j].data.spec.kind == Withdraw && s[j].data.pair == s[c].data.pair;
      assert IsOf(s[j], v, Withdraw) && s[j].checked;
      assert WithdrawChecked(s, s[c].data.pair);
    }
  }

  lemma TickAta(s: seq<Input>, v: Address, n: nat)
    requires n < |s| && Ticking(s, v, |s|, n) && IsOf(s[n], v, CloseAta)
    ensures Ticking(Toggle(s, n), v, |s|, n + 1) && SameData(s, Toggle(s, n))
  {
    hide Toggle, WellFormed, GatesHold, AtaGate;
    var t := Toggle(s, n);
    ToggleFits(s, n);
    ToggleFree(s, n);
    AtaIsEnabled(s, v, n);
    ToggleTicks(s, n, n);
    forall j | 0 <= j < |s| && j != n ensures Follows(s[j], t[j]) {
      ToggleTicks(s, n, j);
    }
    forall j | 0 <= j < |s| && IsOf(s[j], v, Withdraw) ensures t[j] == s[j] {
      WithdrawalsAreFree(s, j);
    }
    assert TickedTo(t, v, Withdraw, |s|);
    forall j | 0 <= j < n && IsOf(s[j], v, CloseAta) ensures t[j].checked && !t[j].disabled {
      AtaIsEnabled(t, v, j);
    }
  }

  /** Clicks that tick the vault's withdrawals among the first `n` boxes. */
  lemma {:induction false} TickWithdrawals(s: seq<Input>, v: Address, n: nat) returns (clicks: seq<nat>)
    requires n <= |s| && Ticking(s, v, 0, 0)
    ensures InBounds(clicks, |s|) && SameData(s, Toggles(s, clicks)) && Ticking(Toggles(s, clicks), v, n, 0)
  {
    hide Toggle;
    if n == 0 {
      clicks := [];
    } else {
      clicks := TickWithdrawals(s, v, n - 1);
      var t := Toggles(s, clicks);
      if IsOf(t[n - 1], v, Withdraw) {
        TickWithdrawal(t, v, n - 1);
        clicks := OneMore(s, clicks, n - 1);
      }
    }
  }

  lemma OneMore(s: seq<Input>, clicks: seq<nat>, i: nat) returns (more: seq<nat>)
    requires InBounds(clicks, |s|) && i < |s|
    ensures InBounds(more, |s|) && Toggles(s, more) == Toggle(Toggles(s, clicks), i)
  {
    hide Toggle;
    TogglesConcat(s, clicks, [i]);
    more := clicks + [i];
    assert [i][1..] == [];
  }

  /** And then its account closes. */
  lemma {:induction false} TickAtas(s: seq<Input>, v: Address, n: nat) returns (clicks: seq<nat>)
    requires n <= |s| && Ticking(s, v, 0, 0)
    ensures InBounds(clicks, |s|) && SameData(s, Toggles(s, clicks)) && Ticking(Toggles(s, clicks), v, |s|, n)
  {
    hide Toggle;
    if n == 0 {
      clicks := TickWithdrawals(s, v, |s|);
    } else {
      clicks := TickAtas(s, v, n - 1);
      var t := Toggles(s, clicks);
      if IsOf(t[n - 1], v, CloseAta) {
        TickAta(t, v, n - 1);
        clicks := OneMore(s, clicks, n - 1);
      }
    }
  }

  /** On a page where nothing is ticked yet, some clicks tick the close of any vault that counts no accounts or
      has close boxes for them. */
  lemma CanTickVault(s: seq<Input>, k: nat) returns (clicks: seq<nat>)
    requires Fit(s) && FreeBoxes(s) && k < |s| && s[k].data.spec.kind == CloseVault
    requires forall j :: 0 <= j < |s| ==> !s[j].checked
    requires s[k].data.ataCount == 0 || AnyAta(s, s[k].data.spec.vault)
    ensures InBounds(clicks, |s|) && SameData(s, Toggles(s, clicks)) && Toggles(s, clicks)[k].checked
  {
    hide Toggle;
    var v := s[k].data.spec.vault;
    clicks := TickAtas(s, v, |s|);
    var t := Toggles(s, clicks);
    VaultIsEnabled(s, t, k);
    ToggleFits(t, k);
    ToggleTicks(t, k, k);
    clicks := OneMore(s, clicks, k);
  }

  lemma VaultIsEnabled(s: seq<Input>, t: seq<Input>, k: nat)
    requires SameData(s, t) && k < |s| && s[k].data.spec.kind == CloseVault
    requires Ticking(t, s[k].data.spec.vault, |t|, |t|)
    requires s[k].data.ataCount == 0 || AnyAta(s, s[k].data.spec.vault)
    ensures !t[k].disabled && !t[k].checked
  {
    var v := s[k].data.spec.vault;
    assert VaultGate(t, t[k]) && IsOf(t[k], v, CloseVault);
    if s[k].data.ataCount != 0 {
      var j :| 0 <= j < |s| && Selects(CloseAtaOfVault(v), s[j]);
      assert Selects(CloseAtaOfVault(v), t[j]);
      forall i | 0 <= i < |t| && Selects(CloseAtaOfVault(v), t[i]) ensures !t[i].disabled && t[i].checked {
        assert IsOf(t[i], v, CloseAta);
      }
    }
  }

  // ----- The pass after rendering -----

  /** No ungated close-account box is ticked while disabled. */
  predicate UngatedFine(s: seq<Input>) {
    forall i :: 0 <= i < |s| && s[i].data.spec.kind == CloseAta && !s[i].data.requiresWithdraw ==>
      (s[i].checked ==> !s[i].disabled)
  }

  /** `x` waits for the withdrawal `w`. */
  predicate Gated(x: Input, w: Input) {
    x.data.requiresWithdraw && w.data.spec.kind == Withdraw && w.data.pair == x.data.pair
  }

  /** Synced up to box `n`: gated boxes whose withdrawal comes before it are right. */
  ghost predicate SyncedTo(s: seq<Input>, n: nat) {
    forall k, j :: 0 <= k < |s| && 0 <= j < n <= |s| && Gated(s[k], s[j]) ==>
      s[k].disabled == !s[j].checked && (s[k].checked ==> !s[k].disabled)
  }

  lemma OneWithdrawal(s: seq<Input>, i: nat, j: nat)
    requires WellFormed(s) && i < |s| && j < |s| && s[i].data.pair.Some? && s[i].data.pair == s[j].data.pair
    requires s[i].data.spec.kind == s[j].data.spec.kind
    ensures i == j
  {
  }

  lemma SyncOne(s: seq<Input>, n: nat)
    requires WellFormed(s) && n < |s| && s[n].data.spec.kind == Withdraw && SyncedTo(s, n)
    ensures var t := SyncPartner(s, n);
            && SameData(s, t) && SyncedTo(t, n + 1)
            && forall k :: 0 <= k < |s| && !s[k].data.requiresWithdraw ==> t[k] == s[k]
  {
    hide SyncPartner;
    hide WellFormed;
    var t := SyncPartner(s, n);
    SyncPartnerDoes(s, n);
    GatedAreAtas(s);
    forall k, j | 0 <= k < |t| && 0 <= j < n + 1 <= |t| && Gated(t[k], t[j])
      ensures t[k].disabled == !t[j].checked && (t[k].checked ==> !t[k].disabled)
    {
      assert t[j] == s[j] && Gated(s[k], s[j]);
      if s[k].data.pair == s[n].data.pair {
        OneWithdrawal(s, j, n);
      }
    }
  }

  lemma GatedAreAtas(s: seq<Input>)
    requires WellFormed(s)
    ensures forall k :: 0 <= k < |s| && s[k].data.requiresWithdraw ==>
              s[k].data.spec.kind == CloseAta && s[k].data.pair.Some?
  {
  }

  lemma {:induction false} SyncEachDoes(s: seq<Input>, n: nat)
    requires WellFormed(s) && n <= |s|
    ensures var t := SyncEach(s, n);
            && SameData(s, t) && SyncedTo(t, n)
            && forall k :: 0 <= k < |s| && !s[k].data.requiresWithdraw ==> t[k] == s[k]
  {
    hide SyncPartner;
    hide WellFormed;
    if n > 0 {
      SyncEachDoes(s, n - 1);
      var t := SyncEach(s, n - 1);
      SameDataWellFormed(s, t);
      if t[n - 1].data.spec.kind == Withdraw {
        SyncOne(t, n - 1);
      }
    }
  }

  lemma SyncedGates(s: seq<Input>)
    requires WellFormed(s) && UngatedFine(s) && SyncedTo(s, |s|)
    ensures AtaGates(s)
  {
    forall k | 0 <= k < |s| ensures AtaGate(s, s[k]) {
      if s[k].data.requiresWithdraw {
        var j :| 0 <= j < |s| && s[j].data.spec.kind == Withdraw && s[j].data.pair == s[k].data.pair;
        assert Gated(s[k], s[j]);
      }
    }
  }

  lemma {:induction false} RefreshEachDoes(s: seq<Input>, n: nat)
    requires WellFormed(s) && AtaGates(s) && n <= |s|
    ensures var t := RefreshEach(s, n);
            SameData(s, t) && AtaGates(t) && forall k :: 0 <= k < n ==> VaultGate(t, t[k])
  {
    if n > 0 {
      RefreshEachDoes(s, n - 1);
      var t := RefreshEach(s, n - 1);
      SameDataWellFormed(s, t);
      if t[n - 1].data.spec.kind == CloseVault {
        RefreshKeeps(t, t[n - 1].data.spec.vault);
      }
    }
  }

  /** The pass after rendering establishes every gate, whatever was ticked or disabled before. */
  lemma SyncAllEstablishes(s: seq<Input>)
    requires WellFormed(s) && UngatedFine(s)
    ensures SameData(s, SyncAll(s)) && GatesHold(SyncAll(s))
  {
    SyncEachDoes(s, |s|);
    var t := SyncEach(s, |s|);
    SameDataWellFormed(s, t);
    SyncedGates(t);
    RefreshEachDoes(t, |s|);
  }

  lemma {:induction false} SyncEachFree(s: seq<Input>, n: nat)
    requires n <= |s| && FreeBoxes(s)
    ensures FreeBoxes(SyncEach(s, n))
  {
    if n > 0 {
      SyncEachFree(s, n - 1);
      var t := SyncEach(s, n - 1);
      forall j | 0 <= j < |s| ensures Follows(t[j], SyncPartner(t, n - 1)[j]) {
        SyncPartnerTicks(t, n - 1, j);
      }
    }
  }

  lemma {:induction false} RefreshEachFree(s: seq<Input>, n: nat)
    requires n <= |s| && FreeBoxes(s)
    ensures FreeBoxes(RefreshEach(s, n))
  {
    if n > 0 {
      RefreshEachFree(s, n - 1);
      var t := RefreshEach(s, n - 1);
      var v := t[n - 1].data.spec.vault;
      forall j | 0 <= j < |s| ensures Follows(t[j], RefreshVault(t, v)[j]) {
        RefreshVaultTicks(t, v, j);
      }
    }
  }

  /** What the page never disables stays enabled. */
  lemma SyncAllFree(s: seq<Input>)
    requires FreeBoxes(s)
    ensures FreeBoxes(SyncAll(s))
  {
    SyncEachFree(s, |s|);
    RefreshEachFree(SyncEach(s, |s|), |s|);
  }

  /** A withdrawal that is not the box's own leaves it alone. */
  lemma OwnPartnerOnly(s: seq<Input>, i: nat, j: nat)
    requires WellFormed(s) && i < |s| && j < |s| && s[i].data.spec.kind == Withdraw
    requires SyncPartner(s, i)[j] != s[j]
    ensures s[j].data.pair.Some? && s[j].data.pair == s[i].data.pair
  {
    SyncPartnerDoes(s, i);
  }

  lemma FirstOfPair(s: seq<Input>, n: nat)
    requires WellFormed(s) && n < |s| && s[n].data.spec.kind == Withdraw && s[n].data.pair.Some?
    ensures forall i :: 0 <= i < n && s[i].data.spec.kind == Withdraw ==> s[i].data.pair != s[n].data.pair
  {
  }

  lemma {:induction false} SyncEachFollows(s: seq<Input>, n: nat, j: nat)
    requires WellFormed(s) && n <= |s| && j < |s|
    ensures SameData(s, SyncEach(s, n)) && Follows(s[j], SyncEach(s, n)[j])
    ensures SyncEach(s, n)[j] != s[j] ==>
              s[j].data.spec.kind == CloseAta
              && exists i :: 0 <= i < n && s[i].data.spec.kind == Withdraw && s[i].data.pair == s[j].data.pair
  {
    hide SyncPartner;
    SyncEachDoes(s, n);
    if n > 0 {
      SyncEachFollows(s, n - 1, j);
      var t := SyncEach(s, n - 1);
      SyncEachDoes(s, n - 1);
      SameDataWellFormed(s, t);
      if t[n - 1].data.spec.kind == Withdraw {
        SyncPartnerTicks(t, n - 1, j);
        if SyncPartner(t, n - 1)[j] != t[j] {
          OwnPartnerOnly(t, n - 1, j);
          FirstOfPair(s, n - 1);
        }
      }
    }
  }

  lemma {:induction false} RefreshEachFollows(s: seq<Input>, n: nat, j: nat)
    requires WellFormed(s) && n <= |s| && j < |s|
    ensures SameData(s, RefreshEach(s, n)) && Follows(s[j], RefreshEach(s, n)[j])
    ensures RefreshEach(s, n)[j] != s[j] ==> j < n && s[j].data.spec.kind == CloseVault
  {
    hide RefreshVault;
    if n > 0 {
      forall i | 0 <= i < |s| ensures RefreshEach(s, n - 1)[i].data == s[i].data {
        RefreshEachFollows(s, n - 1, i);
      }
      RefreshEachFollows(s, n - 1, j);
      var t := RefreshEach(s, n - 1);
      SameDataWellFormed(s, t);
      if t[n - 1].data.spec.kind == CloseVault {
        RefreshVaultDoes(t, t[n - 1].data.spec.vault);
        RefreshVaultTicks(t, t[n - 1].data.spec.vault, j);
      }
    }
  }

  /** The pass after rendering ticks nothing, and unticks nothing that stays enabled. */
  lemma SyncAllFollows(s: seq<Input>, j: nat)
    requires WellFormed(s) && j < |s|
    ensures Follows(s[j], SyncAll(s)[j])
  {
    var t := SyncEach(s, |s|);
    SyncEachFollows(s, |s|, j);
    SameDataWellFormed(s, t);
    RefreshEachFollows(t, |s|, j);
  }
}
