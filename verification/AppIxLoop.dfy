/** The fused loop of AppIx (program/src/instructions/app_ix.rs): one pass that fills the instruction's
    account metas in the caller's buffer and the CPI rows in its own. */
module AppIxLoop {
  import opened Types
  import opened Ledger
  import opened VaultProgram

  /** An account as passed to the handler, with the rights it came with. */
  datatype View = View(address: Address, isSigner: bool, isWritable: bool)

  datatype Meta = Meta(address: Address, isSigner: bool, isWritable: bool)

  /** A row points at the account itself. */
  datatype CpiAccount = CpiAccount(account: View)

  function MetaOf(a: View, vault: Address): Meta {
    if a.address == vault then Meta(a.address, true, true) else Meta(a.address, a.isSigner, a.isWritable)
  }

  function Metas(inner: seq<View>, vault: Address): (r: seq<Meta>)
    ensures |r| == |inner|
  {
    if inner == [] then [] else [MetaOf(inner[0], vault)] + Metas(inner[1..], vault)
  }

  function Rows(inner: seq<View>): (r: seq<CpiAccount>)
    ensures |r| == |inner|
  {
    if inner == [] then [] else [CpiAccount(inner[0])] + Rows(inner[1..])
  }

  lemma {:induction false} MetasSnoc(inner: seq<View>, a: View, vault: Address)
    ensures Metas(inner + [a], vault) == Metas(inner, vault) + [MetaOf(a, vault)]
    ensures Rows(inner + [a]) == Rows(inner) + [CpiAccount(a)]
  {
    if inner != [] {
      MetasSnoc(inner[1..], a, vault);
      assert (inner + [a])[1..] == inner[1..] + [a];
    }
  }

  /** What the initialised prefix of a buffer holds. */
  ghost predicate Holds<T>(buffer: array<Option<T>>, n: nat, s: seq<T>)
    reads buffer
  {
    n == |s| <= buffer.Length && forall i :: 0 <= i < n ==> buffer[i] == Some(s[i])
  }

  /** Fills slots below `n` of both buffers and no others, and calls the app with exactly those. Slots start
      uninitialised; every one that is read has been written. */
  method InvokeAppIxFused(inner: seq<View>, vault: Address, metasOut: array<Option<Meta>>)
    returns (ixMetas: seq<Meta>, cpiSlice: seq<CpiAccount>)
    requires metasOut.Length == MAX_STATIC_CPI_ACCOUNTS && |inner| <= MAX_STATIC_CPI_ACCOUNTS
    modifies metasOut
    ensures ixMetas == Metas(inner, vault) && cpiSlice == Rows(inner)
    ensures Holds(metasOut, |inner|, ixMetas)
    ensures forall i :: |inner| <= i < metasOut.Length ==> metasOut[i] == old(metasOut[i])
  {
    hide Metas;
    hide Rows;
    var n := |inner|;
    var cpiAccounts := new Option<CpiAccount>[MAX_STATIC_CPI_ACCOUNTS](_ => None);
    for i := 0 to n
      invariant Holds(metasOut, i, Metas(inner[..i], vault)) && Holds(cpiAccounts, i, Rows(inner[..i]))
      invariant forall k :: i <= k < metasOut.Length ==> metasOut[k] == old(metasOut[k])
    {
      var a := inner[i];
      MetasSnoc(inner[..i], a, vault);
      assert inner[..i + 1] == inner[..i] + [a];
      if a.address == vault {
        metasOut[i] := Some(Meta(a.address, true, true));
      } else {
        metasOut[i] := Some(Meta(a.address, a.isSigner, a.isWritable));
      }
      cpiAccounts[i] := Some(CpiAccount(a));
    }
    assert inner[..n] == inner;
    ixMetas := seq(n, i requires 0 <= i < n && metasOut[i].Some? reads metasOut => metasOut[i].value);
    cpiSlice := seq(n, i requires 0 <= i < n && cpiAccounts[i].Some? reads cpiAccounts => cpiAccounts[i].value);
  }

  /** Metas and rows name the inner accounts, in order; the vault's address is the only one given a right it
      did not come with, and everywhere it appears it may sign and be written. */
  lemma {:induction false} OnlyTheVaultGainsRights(inner: seq<View>, vault: Address, i: nat)
    requires i < |inner|
    ensures var m, a := Metas(inner, vault)[i], inner[i];
            && m.address == a.address == Rows(inner)[i].account.address
            && (a.isSigner ==> m.isSigner) && (a.isWritable ==> m.isWritable)
            && ((m.isSigner && !a.isSigner) || (m.isWritable && !a.isWritable) ==> a.address == vault)
            && (a.address == vault ==> m.isSigner && m.isWritable)
  {
    if i > 0 {
      OnlyTheVaultGainsRights(inner[1..], vault, i - 1);
    }
  }

  lemma {:induction false} RowsAreTheAccounts(inner: seq<View>, i: nat)
    requires i < |inner|
    ensures Rows(inner)[i].account == inner[i]
  {
    if i > 0 {
      RowsAreTheAccounts(inner[1..], i - 1);
    }
  }

  /** Inner accounts matter to AppIx's checks only by their number: with the five fixed accounts accepted, the
      loop is reached exactly with as many as its buffers hold. */
  lemma BufferSuffices(ctx: Ctx, l: Ledger, slots: seq<Address>, inner: seq<Address>)
    requires |slots| == 5 && AppIx(ctx, l, slots).Ok?
    ensures AppIx(ctx, l, slots + inner) ==
            if |inner| <= MAX_STATIC_CPI_ACCOUNTS then Ok(l) else Err(InvalidArgument)
  {
    assert (slots + inner)[..5] == slots;
    forall i | 0 <= i < 5 ensures (slots + inner)[i] == slots[i] {
    }
  }
}
