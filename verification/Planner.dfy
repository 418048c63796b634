/** The page's batch planner (demo/src/main.ts): the rows it lists, the boxes it renders, and how ticked
    boxes become one transaction; and that the program accepts what it plans. */
module Planner {
  import opened Types
  import opened Ledger
  import opened Runs
  import opened Books
  import opened Decimal
  import opened Gates
  import Plan
  import OwnerExit

  type Item = Plan.Item

  /** What the page takes from its host: the text of an address, `BigInt`, the order of addresses
      (`localeCompare(..) <= 0`), and the associated token address of a wallet, token program and mint. */
  datatype Host = Host(show: Address -> string, bigInt: string -> Option<int>, before: (Address, Address) -> bool,
                       ata: (Address, Address, Address) -> Address)

  /** Addresses print in base58: one non-empty text each, of letters and digits only. `BigInt` reads digits. */
  ghost predicate Legal(h: Host) {
    && (forall a, b :: h.show(a) == h.show(b) ==> a == b)
    && (forall a :: h.show(a) != "" && '|' !in h.show(a) && '_' !in h.show(a))
    && (forall s :: s != "" && AllDigits(s) ==> h.bigInt(s) == Some(Value(s)))
  }

  datatype TokenRow = TokenRow(ata: Address, mint: Option<Address>, amount: string, tp: TokenKind)

  datatype VaultRow = VaultRow(address: Address, owner: Address, app: Address, ataCount: u16, tokens: seq<TokenRow>)

  function TokenProgramForKind(tp: TokenKind): Address {
    match tp case Spl => SPL_TOKEN_ID case Token2022 => TOKEN_2022_ID
  }

  function AtaPairId(h: Host, vault: Address, ata: Address): string { h.show(vault) + "__" + h.show(ata) }

  // ----- Rendering -----

  predicate Positive(amount: string) { amount != "" && AllDigits(amount) && Value(amount) > 0 }

  predicate Zero(amount: string) { amount != "" && AllDigits(amount) && Value(amount) == 0 }

  function WithdrawBox(h: Host, v: VaultRow, t: TokenRow): Input {
    Input(Dataset(Spec(Withdraw, v.owner, v.app, v.address, t.mint, Some(t.ata), Some(t.amount), t.tp),
                  Some(AtaPairId(h, v.address, t.ata)), false, 0), false, false)
  }

  function GatedCloseBox(h: Host, v: VaultRow, t: TokenRow): Input {
    Input(Dataset(Spec(CloseAta, v.owner, v.app, v.address, t.mint, Some(t.ata), None, t.tp),
                  Some(AtaPairId(h, v.address, t.ata)), true, 0), false, true)
  }

  function FreeCloseBox(v: VaultRow, t: TokenRow): Input {
    Input(Dataset(Spec(CloseAta, v.owner, v.app, v.address, t.mint, Some(t.ata), None, t.tp), None, false, 0),
          false, false)
  }

  function VaultBox(v: VaultRow): Input {
    Input(Dataset(Spec(CloseVault, v.owner, v.app, v.address, None, None, None, Spl), None, false, v.ataCount),
          false, v.ataCount > 0)
  }

  function TokenBoxes(h: Host, v: VaultRow, t: TokenRow): seq<Input> {
    if t.mint.None? then []
    else if Positive(t.amount) then [WithdrawBox(h, v, t), GatedCloseBox(h, v, t)]
    else if Zero(t.amount) then [FreeCloseBox(v, t)]
    else []
  }

  function TokensBoxes(h: Host, v: VaultRow, ts: seq<TokenRow>): seq<Input> {
    if ts == [] then [] else TokenBoxes(h, v, ts[0]) + TokensBoxes(h, v, ts[1..])
  }

  /** Only rows the connected wallet can sign for get boxes. */
  function RowBoxes(h: Host, connected: Option<Address>, v: VaultRow): seq<Input> {
    if connected == Some(v.owner) then TokensBoxes(h, v, v.tokens) + [VaultBox(v)] else []
  }

  function Render(h: Host, connected: Option<Address>, rows: seq<VaultRow>): seq<Input> {
    if rows == [] then [] else RowBoxes(h, connected, rows[0]) + Render(h, connected, rows[1..])
  }

  // ----- From ticked boxes to a transaction -----

  function Selected(s: seq<Input>): seq<Spec> {
    if s == [] then [] else (if s[0].checked then [s[0].data.spec] else []) + Selected(s[1..])
  }

  function KindName(k: BatchKind): string {
    match k case Withdraw => "withdraw" case CloseAta => "closeAta" case CloseVault => "closeVault"
  }

  function ShowOr(h: Host, a: Option<Address>): string { match a case Some(x) => h.show(x) case None => "" }

  function TextOr(s: Option<string>): string { match s case Some(x) => x case None => "" }

  function BatchSpecKey(h: Host, s: Spec): string {
    KindName(s.kind) + "|" + (h.show(s.vault) + "|" + (h.show(s.app) + "|" +
      (ShowOr(h, s.ata) + "|" + (ShowOr(h, s.mint) + "|" + TextOr(s.amount)))))
  }

  function Keys(h: Host): Spec -> string { s => BatchSpecKey(h, s) }

  /** `Map.set`: an old key keeps its place and takes the new value. */
  function MapSet(key: Spec -> string, entries: seq<Spec>, s: Spec): seq<Spec> {
    if entries == [] then [s]
    else if key(entries[0]) == key(s) then [s] + entries[1..]
    else [entries[0]] + MapSet(key, entries[1..], s)
  }

  function Dedup(key: Spec -> string, raw: seq<Spec>): seq<Spec> {
    if raw == [] then [] else MapSet(key, Dedup(key, raw[..|raw| - 1]), raw[|raw| - 1])
  }

  function KindRank(k: BatchKind): nat { match k case Withdraw => 0 case CloseAta => 1 case CloseVault => 2 }

  /** The comparator puts `a` no later than `b`. */
  predicate NotAfter(h: Host, a: Spec, b: Spec) {
    if KindRank(a.kind) != KindRank(b.kind) then KindRank(a.kind) < KindRank(b.kind) else h.before(a.vault, b.vault)
  }

  function Insert(h: Host, x: Spec, s: seq<Spec>): seq<Spec> {
    if s == [] || !NotAfter(h, s[0], x) then [x] + s else [s[0]] + Insert(h, x, s[1..])
  }

  /** The stable sort. */
  function SortBatchSpecs(h: Host, items: seq<Spec>): seq<Spec> {
    if items == [] then [] else Insert(h, items[|items| - 1], SortBatchSpecs(h, items[..|items| - 1]))
  }

  datatype ActionError =
    | MissingForWithdraw | NotANumber | AmountNotPositive | AmountOutOfRange | MissingForCloseAta | ForeignVault

  datatype Built = Built(item: Item) | Threw(error: ActionError)

  /** The instruction for one spec; the SDK's own amount check is the last error. */
  function InstructionFromBatchSpec(h: Host, owner: Address, s: Spec): Built {
    var program := TokenProgramForKind(s.tp);
    match s.kind
    case Withdraw =>
      if s.mint.None? || s.ata.None? || s.amount.None? || s.amount.value == "" then Threw(MissingForWithdraw)
      else
        (match h.bigInt(s.amount.value)
         case None => Threw(NotANumber)
         case Some(n) =>
           if n <= 0 then Threw(AmountNotPositive)
           else if n > U64_MAX then Threw(AmountOutOfRange)
           else Built(Plan.TakeOut(s.vault, s.app, s.ata.value, s.mint.value, program, n,
                                   h.ata(owner, program, s.mint.value))))
    case CloseAta =>
      if s.mint.None? || s.ata.None? then Threw(MissingForCloseAta)
      else Built(Plan.ShutAta(s.vault, s.app, s.ata.value, s.mint.value, program))
    case CloseVault => Built(Plan.ShutVault(s.vault, s.app))
  }

  datatype Outcome = NothingSelected | Refused(error: ActionError) | Sent(items: seq<Item>)

  function BuildAll(h: Host, owner: Address, specs: seq<Spec>): Outcome {
    if specs == [] then Sent([])
    else
      match InstructionFromBatchSpec(h, owner, specs[0])
      case Threw(e) => Refused(e)
      case Built(i) =>
        match BuildAll(h, owner, specs[1..])
        case Sent(items) => Sent([i] + items)
        case r => r
  }

  predicate AllOwnedBy(specs: seq<Spec>, owner: Address) { forall i :: 0 <= i < |specs| ==> specs[i].owner == owner }

  function RunSelected(h: Host, owner: Address, raw: seq<Spec>): Outcome {
    if raw == [] then NothingSelected
    else
      var sorted := SortBatchSpecs(h, Dedup(Keys(h), raw));
      if !AllOwnedBy(sorted, owner) then Refused(ForeignVault) else BuildAll(h, owner, sorted)
  }

  // ----- The same, loop by loop -----

  /** What the Map holds after some specs: keys in insertion order, and the value of each. */
  ghost predicate MapHolds(key: Spec -> string, keys: seq<string>, byKey: map<string, Spec>, entries: seq<Spec>) {
    && |keys| == |entries|
    && (forall j :: 0 <= j < |keys| ==> keys[j] == key(entries[j]) && keys[j] in byKey && byKey[keys[j]] == entries[j])
    && (forall k :: k in byKey ==> k in keys)
    && (forall i, j :: 0 <= i < j < |keys| ==> keys[i] != keys[j])
  }

  lemma {:induction false} MapSetMiss(key: Spec -> string, entries: seq<Spec>, s: Spec)
    requires forall j :: 0 <= j < |entries| ==> key(entries[j]) != key(s)
    ensures MapSet(key, entries, s) == entries + [s]
  {
    if entries != [] {
      MapSetMiss(key, entries[1..], s);
    }
  }

  lemma {:induction false} MapSetHit(key: Spec -> string, entries: seq<Spec>, s: Spec, j: nat)
    requires j < |entries| && key(entries[j]) == key(s)
    requires forall i :: 0 <= i < j ==> key(entries[i]) != key(s)
    ensures MapSet(key, entries, s) == entries[j := s]
  {
    if j > 0 {
      MapSetHit(key, entries[1..], s, j - 1);
    }
  }

  lemma MapHoldsOld(key: Spec -> string, keys: seq<string>, byKey: map<string, Spec>, entries: seq<Spec>, s: Spec)
    requires MapHolds(key, keys, byKey, entries) && key(s) in byKey
    ensures MapHolds(key, keys, byKey[key(s) := s], MapSet(key, entries, s))
  {
    var j :| 0 <= j < |keys| && keys[j] == key(s);
    forall i | 0 <= i < j ensures key(entries[i]) != key(s) {
      assert keys[i] == key(entries[i]);
    }
    MapSetHit(key, entries, s, j);
  }

  lemma MapHoldsNew(key: Spec -> string, keys: seq<string>, byKey: map<string, Spec>, entries: seq<Spec>, s: Spec)
    requires MapHolds(key, keys, byKey, entries) && key(s) !in byKey
    ensures MapHolds(key, keys + [key(s)], byKey[key(s) := s], MapSet(key, entries, s))
  {
    forall i | 0 <= i < |entries| ensures key(entries[i]) != key(s) {
      assert keys[i] == key(entries[i]);
    }
    MapSetMiss(key, entries, s);
  }

  method DedupByKey(key: Spec -> string, raw: seq<Spec>) returns (values: seq<Spec>)
    ensures values == Dedup(key, raw)
  {
    var keys: seq<string>, byKey: map<string, Spec> := [], map[];
    for i := 0 to |raw|
      invariant MapHolds(key, keys, byKey, Dedup(key, raw[..i]))
    {
      var s := raw[i];
      assert raw[..i + 1][..i] == raw[..i];
      if key(s) in byKey {
        MapHoldsOld(key, keys, byKey, Dedup(key, raw[..i]), s);
      } else {
        MapHoldsNew(key, keys, byKey, Dedup(key, raw[..i]), s);
        keys := keys + [key(s)];
      }
      byKey := byKey[key(s) := s];
    }
    assert raw[..|raw|] == raw;
    values := seq(|keys|, i requires 0 <= i < |keys| && keys[i] in byKey => byKey[keys[i]]);
  }

  lemma {:induction false} SelectedSnoc(s: seq<Input>, x: Input)
    ensures Selected(s + [x]) == Selected(s) + if x.checked then [x.data.spec] else []
  {
    if s != [] {
      assert (s + [x])[1..] == s[1..] + [x];
      SelectedSnoc(s[1..], x);
    }
  }

  lemma {:induction false} BuildAllSnoc(h: Host, owner: Address, specs: seq<Spec>, s: Spec)
    ensures BuildAll(h, owner, specs + [s]) ==
            if !BuildAll(h, owner, specs).Sent? then BuildAll(h, owner, specs)
            else match InstructionFromBatchSpec(h, owner, s)
              case Threw(e) => Refused(e)
              case Built(i) => Sent(BuildAll(h, owner, specs).items + [i])
  {
    if specs != [] {
      assert (specs + [s])[1..] == specs[1..] + [s];
      BuildAllSnoc(h, owner, specs[1..], s);
    }
  }

  lemma {:induction false} BuildAllStops(h: Host, owner: Address, specs: seq<Spec>, n: nat)
    requires n <= |specs| && !BuildAll(h, owner, specs[..n]).Sent?
    ensures BuildAll(h, owner, specs) == BuildAll(h, owner, specs[..n])
  {
    if n > 0 {
      assert specs[..n][1..] == specs[1..][..n - 1];
      if InstructionFromBatchSpec(h, owner, specs[0]).Built? {
        BuildAllStops(h, owner, specs[1..], n - 1);
      }
    }
  }

  method CollectSelected(results: ReadResults) returns (raw: seq<Spec>)
    ensures raw == Selected(results.States())
  {
    ghost var s := results.States();
    raw := [];
    for i := 0 to |results.boxes|
      invariant raw == Selected(s[..i])
    {
      var el := results.boxes[i];
      SelectedSnoc(s[..i], s[i]);
      assert s[..i + 1] == s[..i] + [s[i]];
      if el.checked {
        raw := raw + [el.data.spec];
      }
    }
    assert s[..|s|] == s;
  }

  method BuildInstructions(h: Host, owner: Address, sorted: seq<Spec>) returns (r: Outcome)
    ensures r == BuildAll(h, owner, sorted)
  {
    var items: seq<Item> := [];
    for i := 0 to |sorted|
      invariant BuildAll(h, owner, sorted[..i]) == Sent(items)
    {
      BuildAllSnoc(h, owner, sorted[..i], sorted[i]);
      assert sorted[..i + 1] == sorted[..i] + [sorted[i]];
      var built := InstructionFromBatchSpec(h, owner, sorted[i]);
      if built.Threw? {
        BuildAllStops(h, owner, sorted, i + 1);
        return Refused(built.error);
      }
      items := items + [built.item];
    }
    assert sorted[..|sorted|] == sorted;
    return Sent(items);
  }

  /** The loop over the owners. */
  method CheckOwners(owner: Address, sorted: seq<Spec>) returns (ok: bool)
    ensures ok == AllOwnedBy(sorted, owner)
  {
    for i := 0 to |sorted|
      invariant forall j :: 0 <= j < i ==> sorted[j].owner == owner
    {
      if sorted[i].owner != owner {
        return false;
      }
    }
    return true;
  }

  /** `onRunSelectedReadActions`, up to what it hands to the wallet. */
  method OnRunSelectedReadActions(h: Host, owner: Address, results: ReadResults) returns (r: Outcome)
    ensures r == RunSelected(h, owner, Selected(results.States()))
  {
    hide SortBatchSpecs;
    hide Dedup;
    hide BuildAll;
    var raw := CollectSelected(results);
    if raw == [] {
      return NothingSelected;
    }
    var dedup := DedupByKey(Keys(h), raw);
    var sorted := SortBatchSpecs(h, dedup);
    var ours := CheckOwners(owner, sorted);
    if !ours {
      return Refused(ForeignVault);
    }
    r := BuildInstructions(h, owner, sorted);
  }

  // ----- Keys, dedup and sort -----

  lemma FirstBar(a: string, x: string, b: string, y: string)
    requires '|' !in a && '|' !in b && a + "|" + x == b + "|" + y
    ensures a == b && x == y
  {
    var l, r := a + "|" + x, b + "|" + y;
    assert l[|a|] == '|' && r[|b|] == '|';
    assert forall i :: 0 <= i < |a| ==> l[i] == a[i] && l[i] != '|';
    assert forall i :: 0 <= i < |b| ==> r[i] == b[i] && r[i] != '|';
    assert |a| == |b|;
    assert a == l[..|a|] && b == r[..|b|] && x == l[|a| + 1..] && y == r[|b| + 1..];
  }

  lemma ShowOrInjective(h: Host, a: Option<Address>, b: Option<Address>)
    requires Legal(h)
    ensures '|' !in ShowOr(h, a)
    ensures ShowOr(h, a) == ShowOr(h, b) ==> a == b
  {
  }

  lemma KindNames(a: BatchKind, b: BatchKind)
    ensures '|' !in KindName(a) && '|' !in KindName(b)
    ensures KindName(a) == KindName(b) ==> a == b
  {
    assert KindName(a)[0] == KindName(b)[0] && |KindName(a)| == |KindName(b)| ==> a == b;
  }

  /** Equal keys mean equal kind, vault, app, account, mint and amount text: everything but the owner and
      the token program. */
  lemma KeyInjective(h: Host, s: Spec, t: Spec)
    requires Legal(h) && BatchSpecKey(h, s) == BatchSpecKey(h, t)
    ensures s.kind == t.kind && s.vault == t.vault && s.app == t.app && s.ata == t.ata && s.mint == t.mint
    ensures TextOr(s.amount) == TextOr(t.amount)
  {
    hide KindName;
    hide ShowOr;
    hide TextOr;
    ShowOrInjective(h, s.ata, t.ata);
    ShowOrInjective(h, t.ata, s.ata);
    ShowOrInjective(h, s.mint, t.mint);
    ShowOrInjective(h, t.mint, s.mint);
    var s4, t4 := ShowOr(h, s.mint) + "|" + TextOr(s.amount), ShowOr(h, t.mint) + "|" + TextOr(t.amount);
    var s3, t3 := ShowOr(h, s.ata) + "|" + s4, ShowOr(h, t.ata) + "|" + t4;
    var s2, t2 := h.show(s.app) + "|" + s3, h.show(t.app) + "|" + t3;
    var s1, t1 := h.show(s.vault) + "|" + s2, h.show(t.vault) + "|" + t2;
    assert BatchSpecKey(h, s) == KindName(s.kind) + "|" + s1;
    assert BatchSpecKey(h, t) == KindName(t.kind) + "|" + t1;
    KindNames(s.kind, t.kind);
    FirstBar(KindName(s.kind), s1, KindName(t.kind), t1);
    FirstBar(h.show(s.vault), s2, h.show(t.vault), t2);
    FirstBar(h.show(s.app), s3, h.show(t.app), t3);
    FirstBar(ShowOr(h, s.ata), s4, ShowOr(h, t.ata), t4);
    FirstBar(ShowOr(h, s.mint), TextOr(s.amount), ShowOr(h, t.mint), TextOr(t.amount));
  }

  ghost predicate DistinctKeys(key: Spec -> string, d: seq<Spec>) {
    forall i, j :: 0 <= i < j < |d| ==> key(d[i]) != key(d[j])
  }

  /** `s` is the last spec of `raw` with its key. */
  ghost predicate LastWithKey(key: Spec -> string, raw: seq<Spec>, s: Spec) {
    exists k :: 0 <= k < |raw| && raw[k] == s && forall m :: k < m < |raw| ==> key(raw[m]) != key(s)
  }

  lemma {:induction false} MapSetMeans(key: Spec -> string, d: seq<Spec>, s: Spec)
    requires DistinctKeys(key, d)
    ensures DistinctKeys(key, MapSet(key, d, s))
    ensures forall e :: e in MapSet(key, d, s) <==> e == s || (e in d && key(e) != key(s))
  {
    if d != [] {
      assert forall e :: e in d <==> e == d[0] || e in d[1..];
      assert DistinctKeys(key, d[1..]);
      if key(d[0]) != key(s) {
        MapSetMeans(key, d[1..], s);
        assert forall e :: e in d[1..] ==> key(e) != key(d[0]);
        assert forall e :: e in MapSet(key, d[1..], s) ==> key(e) != key(d[0]);
      }
    }
  }

  /** Dedup keeps one spec per key, the last one chosen. */
  lemma {:induction false} DedupMeans(key: Spec -> string, raw: seq<Spec>)
    ensures DistinctKeys(key, Dedup(key, raw))
    ensures forall e :: e in Dedup(key, raw) <==> LastWithKey(key, raw, e)
  {
    if raw != [] {
      var init, s := raw[..|raw| - 1], raw[|raw| - 1];
      DedupMeans(key, init);
      MapSetMeans(key, Dedup(key, init), s);
      assert raw == init + [s];
      forall e ensures e in Dedup(key, raw) <==> LastWithKey(key, raw, e) {
        LastSnoc(key, init, s, e);
      }
    }
  }

  lemma LastSnoc(key: Spec -> string, init: seq<Spec>, s: Spec, e: Spec)
    ensures LastWithKey(key, init + [s], e) <==> e == s || (LastWithKey(key, init, e) && key(e) != key(s))
  {
    var raw := init + [s];
    assert raw[|init|] == s;
    if LastWithKey(key, init, e) && key(e) != key(s) {
      var k :| 0 <= k < |init| && init[k] == e && forall m :: k < m < |init| ==> key(init[m]) != key(e);
      assert raw[k] == e;
    }
    if LastWithKey(key, raw, e) && e != s {
      var k :| 0 <= k < |raw| && raw[k] == e && forall m :: k < m < |raw| ==> key(raw[m]) != key(e);
      assert init[k] == e;
      forall m | k < m < |init| ensures key(init[m]) != key(e) {
        assert key(raw[m]) != key(e);
      }
    }
  }

  /** The keys of some specs, each where it first comes. */
  function FirstKeys(key: Spec -> string, raw: seq<Spec>): seq<string> {
    if raw == [] then []
    else
      var seen, k := FirstKeys(key, raw[..|raw| - 1]), key(raw[|raw| - 1]);
      if k in seen then seen else seen + [k]
  }

  function KeysOf(key: Spec -> string, d: seq<Spec>): (r: seq<string>)
    ensures |r| == |d| && forall i :: 0 <= i < |r| ==> r[i] == key(d[i])
  {
    Map(d, key)
  }

  lemma {:induction false} MapSetKeys(key: Spec -> string, d: seq<Spec>, s: Spec)
    ensures KeysOf(key, MapSet(key, d, s))
            == if key(s) in KeysOf(key, d) then KeysOf(key, d) else KeysOf(key, d) + [key(s)]
  {
    if d != [] {
      assert KeysOf(key, d) == [key(d[0])] + KeysOf(key, d[1..]);
      if key(d[0]) != key(s) {
        MapSetKeys(key, d[1..], s);
      } else {
        assert KeysOf(key, d)[0] == key(s);
      }
    }
  }

  /** And a spec chosen again keeps the place its key had. */
  lemma {:induction false} DedupKeepsPlaces(key: Spec -> string, raw: seq<Spec>)
    ensures KeysOf(key, Dedup(key, raw)) == FirstKeys(key, raw)
  {
    if raw != [] {
      DedupKeepsPlaces(key, raw[..|raw| - 1]);
      MapSetKeys(key, Dedup(key, raw[..|raw| - 1]), raw[|raw| - 1]);
    }
  }

  predicate RankSorted(s: seq<Spec>) {
    forall i, j :: 0 <= i < j < |s| ==> KindRank(s[i].kind) <= KindRank(s[j].kind)
  }

  lemma {:induction false} InsertPermutes(h: Host, x: Spec, s: seq<Spec>)
    ensures multiset(Insert(h, x, s)) == multiset(s) + multiset{x}
  {
    if s != [] {
      InsertPermutes(h, x, s[1..]);
      assert s == [s[0]] + s[1..];
    }
  }

  lemma InsertMembers(h: Host, x: Spec, s: seq<Spec>)
    ensures forall y :: y in Insert(h, x, s) <==> y == x || y in s
  {
    InsertPermutes(h, x, s);
    forall y ensures y in Insert(h, x, s) <==> y == x || y in s {
      assert y in Insert(h, x, s) <==> y in multiset(s) + multiset{x};
    }
  }

  lemma {:induction false} InsertSorts(h: Host, x: Spec, s: seq<Spec>)
    requires RankSorted(s)
    ensures RankSorted(Insert(h, x, s))
  {
    if s != [] && NotAfter(h, s[0], x) {
      assert KindRank(s[0].kind) <= KindRank(x.kind);
      InsertSorts(h, x, s[1..]);
      InsertMembers(h, x, s[1..]);
      RankCons(s[0], s[1..], Insert(h, x, s[1..]), x);
    } else if s != [] {
      assert KindRank(x.kind) <= KindRank(s[0].kind);
      RankCons(x, s, s, s[0]);
    }
  }

  lemma RankCons(a: Spec, s: seq<Spec>, r: seq<Spec>, x: Spec)
    requires RankSorted(r) && forall y :: y in r ==> y == x || y in s
    requires KindRank(a.kind) <= KindRank(x.kind)
    requires forall j :: 0 <= j < |s| ==> KindRank(a.kind) <= KindRank(s[j].kind)
    ensures RankSorted([a] + r)
  {
    forall j | 0 <= j < |r| ensures KindRank(a.kind) <= KindRank(r[j].kind) {
      assert r[j] in r;
    }
  }

  /** Whatever order the host gives addresses, the sort permutes its input and puts withdrawals before
      account closes before vault closes. */
  lemma {:induction false} SortMeans(h: Host, items: seq<Spec>)
    ensures RankSorted(SortBatchSpecs(h, items)) && multiset(SortBatchSpecs(h, items)) == multiset(items)
  {
    if items != [] {
      var init := items[..|items| - 1];
      SortMeans(h, init);
      InsertSorts(h, items[|items| - 1], SortBatchSpecs(h, init));
      InsertPermutes(h, items[|items| - 1], SortBatchSpecs(h, init));
      assert items == init + [items[|items| - 1]];
    }
  }

  /** If the host orders addresses, the sort puts each kind's specs in that order of vaults. */
  ghost predicate Orders(h: Host) {
    && (forall a, b :: h.before(a, b) || h.before(b, a))
    && (forall a, b, c :: h.before(a, b) && h.before(b, c) ==> h.before(a, c))
  }

  ghost predicate InOrder(h: Host, s: seq<Spec>) {
    forall i, j :: 0 <= i < j < |s| ==> NotAfter(h, s[i], s[j])
  }

  lemma OrderCons(h: Host, a: Spec, r: seq<Spec>)
    requires InOrder(h, r) && forall y :: y in r ==> NotAfter(h, a, y)
    ensures InOrder(h, [a] + r)
  {
    forall j | 0 <= j < |r| ensures NotAfter(h, a, r[j]) {
      assert r[j] in r;
    }
  }

  lemma {:induction false} InsertOrders(h: Host, x: Spec, s: seq<Spec>)
    requires Orders(h) && InOrder(h, s)
    ensures InOrder(h, Insert(h, x, s))
  {
    if s != [] && NotAfter(h, s[0], x) {
      InsertOrders(h, x, s[1..]);
      InsertMembers(h, x, s[1..]);
      OrderCons(h, s[0], Insert(h, x, s[1..]));
    } else if s != [] {
      forall y | y in s ensures NotAfter(h, x, y) {
        var j :| 0 <= j < |s| && s[j] == y;
        assert NotAfter(h, x, s[0]) && (j > 0 ==> NotAfter(h, s[0], s[j]));
      }
      OrderCons(h, x, s);
    }
  }

  lemma {:induction false} SortOrders(h: Host, items: seq<Spec>)
    requires Orders(h)
    ensures InOrder(h, SortBatchSpecs(h, items))
  {
    if items != [] {
      SortOrders(h, items[..|items| - 1]);
      InsertOrders(h, items[|items| - 1], SortBatchSpecs(h, items[..|items| - 1]));
    }
  }

  /** The specs of one kind and vault, in order. */
  function Class(s: seq<Spec>, k: BatchKind, v: Address): seq<Spec> {
    if s == [] then [] else (if s[0].kind == k && s[0].vault == v then [s[0]] else []) + Class(s[1..], k, v)
  }

  lemma {:induction false} NoneInClass(s: seq<Spec>, k: BatchKind, v: Address)
    requires forall y :: y in s ==> !(y.kind == k && y.vault == v)
    ensures Class(s, k, v) == []
  {
    if s != [] {
      assert s[0] in s;
      NoneInClass(s[1..], k, v);
    }
  }

  /** Nothing of its own class comes after what it goes in front of. */
  lemma NoneAfter(h: Host, x: Spec, s: seq<Spec>)
    requires Orders(h) && InOrder(h, s) && s != [] && !NotAfter(h, s[0], x)
    ensures forall y :: y in s ==> !(y.kind == x.kind && y.vault == x.vault)
  {
    forall y | y in s ensures !(y.kind == x.kind && y.vault == x.vault) {
      var j :| 0 <= j < |s| && s[j] == y;
      assert j > 0 ==> NotAfter(h, s[0], s[j]);
    }
  }

  function InClass(x: Spec, k: BatchKind, v: Address): seq<Spec> { if x.kind == k && x.vault == v then [x] else [] }

  lemma ClassCons(a: Spec, s: seq<Spec>, k: BatchKind, v: Address)
    ensures Class([a] + s, k, v) == InClass(a, k, v) + Class(s, k, v)
  {
    assert ([a] + s)[1..] == s;
  }

  lemma InsertInFront(h: Host, x: Spec, s: seq<Spec>, k: BatchKind, v: Address)
    requires Orders(h) && InOrder(h, s) && (s == [] || !NotAfter(h, s[0], x))
    ensures Class([x] + s, k, v) == Class(s, k, v) + InClass(x, k, v)
  {
    hide Class, NotAfter, Orders, InOrder;
    ClassCons(x, s, k, v);
    if x.kind == k && x.vault == v {
      if s != [] {
        NoneAfter(h, x, s);
      }
      NoneInClass(s, k, v);
    }
  }

  lemma {:induction false} InsertStable(h: Host, x: Spec, s: seq<Spec>, k: BatchKind, v: Address)
    requires Orders(h) && InOrder(h, s)
    ensures Class(Insert(h, x, s), k, v) == Class(s, k, v) + InClass(x, k, v)
  {
    hide Class, NotAfter, Orders, InClass;
    if s != [] && NotAfter(h, s[0], x) {
      InOrderTail(h, s);
      hide InOrder;
      InsertStable(h, x, s[1..], k, v);
      ClassCons(s[0], Insert(h, x, s[1..]), k, v);
      ClassCons(s[0], s[1..], k, v);
      assert [s[0]] + s[1..] == s;
    } else {
      InsertInFront(h, x, s, k, v);
    }
  }

  lemma InOrderTail(h: Host, s: seq<Spec>)
    requires InOrder(h, s) && s != []
    ensures InOrder(h, s[1..])
  {
  }

  lemma {:induction false} ClassSnoc(s: seq<Spec>, x: Spec, k: BatchKind, v: Address)
    ensures Class(s + [x], k, v) == Class(s, k, v) + if x.kind == k && x.vault == v then [x] else []
  {
    if s == [] {
      assert (s + [x])[1..] == [];
    } else {
      assert (s + [x])[1..] == s[1..] + [x];
      ClassSnoc(s[1..], x, k, v);
    }
  }

  /** And specs of one kind and vault stay in the order they were chosen in. */
  lemma {:induction false} SortIsStable(h: Host, items: seq<Spec>, k: BatchKind, v: Address)
    requires Orders(h)
    ensures Class(SortBatchSpecs(h, items), k, v) == Class(items, k, v)
  {
    if items != [] {
      var init, x := items[..|items| - 1], items[|items| - 1];
      SortIsStable(h, init, k, v);
      SortOrders(h, init);
      InsertStable(h, x, SortBatchSpecs(h, init), k, v);
      ClassSnoc(init, x, k, v);
      assert items == init + [x];
    }
  }

  // ----- When the page sends -----

  /** A spec has what its instruction needs, in the widths it takes. */
  predicate Buildable(h: Host, s: Spec) {
    match s.kind
    case Withdraw =>
      && s.mint.Some? && s.ata.Some? && s.amount.Some? && s.amount.value != ""
      && h.bigInt(s.amount.value).Some? && 0 < h.bigInt(s.amount.value).value <= U64_MAX
    case CloseAta => s.mint.Some? && s.ata.Some?
    case CloseVault => true
  }

  /** The item asks for what the spec says, of its vault and in its token program; withdrawals go to the owner's
      associated account. */
  predicate Asks(h: Host, owner: Address, s: Spec, i: Item) {
    && i.vault == s.vault && i.app == s.app
    && match i
       case TakeOut(_, _, ata, mint, program, amount, dest) =>
         && s.kind == Withdraw && s.ata == Some(ata) && s.mint == Some(mint) && s.amount.Some?
         && h.bigInt(s.amount.value) == Some(amount)
         && (s.tp == Spl ==> program == SPL_TOKEN_ID) && (s.tp == Token2022 ==> program == TOKEN_2022_ID)
         && dest == h.ata(owner, program, mint)
       case ShutAta(_, _, ata, mint, program) =>
         && s.kind == CloseAta && s.ata == Some(ata) && s.mint == Some(mint)
         && (s.tp == Spl ==> program == SPL_TOKEN_ID) && (s.tp == Token2022 ==> program == TOKEN_2022_ID)
       case ShutVault(_, _) => s.kind == CloseVault
  }

  lemma BuildMeans(h: Host, owner: Address, s: Spec)
    ensures InstructionFromBatchSpec(h, owner, s).Built? <==> Buildable(h, s)
    ensures Buildable(h, s) ==> Asks(h, owner, s, InstructionFromBatchSpec(h, owner, s).item)
  {
  }

  lemma {:induction false} BuildAllMeans(h: Host, owner: Address, specs: seq<Spec>)
    ensures var r := BuildAll(h, owner, specs);
            && r != NothingSelected
            && (r.Sent? <==> forall i :: 0 <= i < |specs| ==> Buildable(h, specs[i]))
            && (r.Sent? ==>
                  |r.items| == |specs| && forall i :: 0 <= i < |specs| ==> Asks(h, owner, specs[i], r.items[i]))
            && (r.Refused? ==> r.error != ForeignVault)
  {
    hide Buildable, Asks;
    if specs != [] {
      BuildMeans(h, owner, specs[0]);
      BuildThrows(h, owner, specs[0]);
      BuildAllMeans(h, owner, specs[1..]);
      assert forall i :: 1 <= i < |specs| ==> specs[i] == specs[1..][i - 1];
    }
  }

  lemma BuildThrows(h: Host, owner: Address, s: Spec)
    ensures InstructionFromBatchSpec(h, owner, s).Threw? ==>
              InstructionFromBatchSpec(h, owner, s).error != ForeignVault
  {
  }

  /** The page refuses a selection of another owner's vault, and otherwise sends exactly when every spec it keeps
      can be built: one item for each, in the sorted order. */
  lemma RunMeans(h: Host, owner: Address, raw: seq<Spec>)
    ensures var kept, r := Dedup(Keys(h), raw), RunSelected(h, owner, raw);
            var sorted := SortBatchSpecs(h, kept);
            && (r == NothingSelected <==> raw == [])
            && (r == Refused(ForeignVault) <==> exists s :: s in kept && s.owner != owner)
            && (r.Sent? <==> raw != [] && forall s :: s in kept ==> s.owner == owner && Buildable(h, s))
            && (r.Sent? ==>
                  |r.items| == |sorted| && forall i :: 0 <= i < |sorted| ==> Asks(h, owner, sorted[i], r.items[i]))
  {
    hide Buildable, Asks, SortBatchSpecs, BuildAll;
    var kept := Dedup(Keys(h), raw);
    var sorted := SortBatchSpecs(h, kept);
    SortMeans(h, kept);
    BuildAllMeans(h, owner, sorted);
    forall s ensures s in kept <==> s in sorted {
      assert s in kept <==> multiset(kept)[s] > 0;
      assert s in sorted <==> multiset(sorted)[s] > 0;
    }
  }
}
