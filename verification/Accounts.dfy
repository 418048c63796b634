/** Accounts as the runtime hands them to the program: objects with lamports, an owner program and raw
    bytes; and what those bytes mean. */
module Accounts {
  import opened Bytes
  import opened Types
  import opened Layout
  import opened Ledger

  const TOKEN_ACCT_MINT_OFFSET: nat := 0
  const TOKEN_ACCT_OWNER_OFFSET: nat := 32
  const TOKEN_ACCT_AMOUNT_OFFSET: nat := 64
  const TOKEN_ACCT_STATE_OFFSET: nat := 108
  const TOKEN_ACCT_LEN: nat := 165
  const MINT_BASE_DECIMALS_OFFSET: nat := 44
  const SPL_MINT_BASE_LEN: nat := 82

  class AccountView {
    const address: Address
    const isSigner: bool
    const isWritable: bool
    var lamports: u64
    var owner: Address
    var data: seq<byte>

    constructor (address: Address, isSigner: bool, isWritable: bool, lamports: u64, owner: Address, data: seq<byte>)
      ensures this.address == address && this.isSigner == isSigner && this.isWritable == isWritable
      ensures this.lamports == lamports && this.owner == owner && this.data == data
    {
      this.address, this.isSigner, this.isWritable := address, isSigner, isWritable;
      this.lamports, this.owner, this.data := lamports, owner, data;
    }

    /** A pointer write through the account's borrowed data. */
    method Write(offset: nat, s: seq<byte>)
      requires offset + |s| <= |data|
      modifies `data
      ensures data == Splice(old(data), offset, s)
    {
      data := Splice(data, offset, s);
    }

    /** `close`: no data, no lamports, back to the System program. */
    method Close()
      modifies this
      ensures lamports == 0 && owner == SYSTEM_ID && data == []
    {
      lamports, owner, data := 0, SYSTEM_ID, [];
    }

    function Abs(): Account
      reads this
    {
      Account(lamports, BodyOf(owner, data))
    }
  }

  function RawAt(d: seq<byte>): Raw {
    if |d| >= TOKEN_ACCT_LEN then
      Raw(AddressAt(d, TOKEN_ACCT_MINT_OFFSET), AddressAt(d, TOKEN_ACCT_OWNER_OFFSET),
          U64At(d, TOKEN_ACCT_AMOUNT_OFFSET), d[TOKEN_ACCT_STATE_OFFSET], d[MINT_BASE_DECIMALS_OFFSET])
    else
      Raw(0, 0, 0, 0, if |d| >= SPL_MINT_BASE_LEN then d[MINT_BASE_DECIMALS_OFFSET] else 0)
  }

  /** The meaning of an account's bytes under its owner program. */
  function BodyOf(owner: Address, d: seq<byte>): Body {
    if owner == ID && |d| == LEN then Vault(RecordAt(d))
    else if IsTokenProgram(owner) && |d| >= TOKEN_ACCT_LEN && d[TOKEN_ACCT_STATE_OFFSET] != 0 then
      Token(TokenRecord(owner, RawAt(d).mint, RawAt(d).wallet, RawAt(d).amount))
    else Blob(owner, |d|, RawAt(d))
  }

  /** What the associated-token program writes into a new account. */
  function TokenImage(mint: Address, wallet: Address): (d: seq<byte>)
    ensures |d| == TOKEN_ACCT_LEN
  {
    Le(mint, 32) + Le(wallet, 32) + seq(44, _ => 0) + [1] + seq(56, _ => 0)
  }

  lemma TokenSections(m: seq<byte>, w: seq<byte>)
    requires |m| == 32 && |w| == 32
    ensures var d := m + w + seq(44, _ => 0) + [1] + seq(56, _ => 0);
            d[0..32] == m && d[32..64] == w && d[64..72] == seq(8, _ => 0) && d[108] == 1
  {
  }

  lemma TokenImageReads(program: Address, mint: Address, wallet: Address)
    ensures IsTokenProgram(program) ==>
              BodyOf(program, TokenImage(mint, wallet)) == Token(TokenRecord(program, mint, wallet, 0))
  {
    Widths();
    LeRoundTrip(mint, 32);
    LeRoundTrip(wallet, 32);
    ZeroBytes(8);
    TokenSections(Le(mint, 32), Le(wallet, 32));
  }

  /** An account as SPL Token packs it: mint, owner, amount, delegate, state, native reserve, delegated amount and
      close authority. */
  function PackedToken(mint: Address, owner: Address, amount: u64, delegate: seq<byte>, state: byte, rest: seq<byte>)
    : seq<byte>
    requires |delegate| == 36
  {
    Le(mint, 32) + Le(owner, 32) + Le(amount, 8) + delegate + [state] + rest
  }

  /** A mint: authority, supply, decimals, whether it is initialised, and freeze authority. */
  function PackedMint(authority: seq<byte>, supply: u64, decimals: byte, rest: seq<byte>): seq<byte>
    requires |authority| == 36
  {
    authority + Le(supply, 8) + [decimals] + rest
  }

  lemma PackedSections(m: seq<byte>, o: seq<byte>, n: seq<byte>, d: seq<byte>, state: byte, rest: seq<byte>)
    requires |m| == 32 && |o| == 32 && |n| == 8 && |d| == 36
    ensures var p := m + o + n + d + [state] + rest;
            p[0..32] == m && p[32..64] == o && p[64..72] == n && p[108] == state
  {
  }

  /** The program reads a packed token account's own mint, owner, amount and state, whatever the rest says. */
  lemma PackedTokenReads(program: Address, mint: Address, owner: Address, amount: u64, delegate: seq<byte>, state: byte,
                         rest: seq<byte>)
    requires |delegate| == 36 && |rest| == 56 && IsTokenProgram(program)
    ensures var d := PackedToken(mint, owner, amount, delegate, state, rest);
            && |d| == 165
            && RawAt(d).mint == mint && RawAt(d).wallet == owner && RawAt(d).amount == amount && RawAt(d).state == state
            && (BodyOf(program, d) == Token(TokenRecord(program, mint, owner, amount)) <==> state != 0)
  {
    Widths();
    LeRoundTrip(mint, 32);
    LeRoundTrip(owner, 32);
    LeRoundTrip(amount, 8);
    PackedSections(Le(mint, 32), Le(owner, 32), Le(amount, 8), delegate, state, rest);
  }

  /** And a packed mint's decimals. */
  lemma PackedMintReads(program: Address, authority: seq<byte>, supply: u64, decimals: byte, rest: seq<byte>)
    requires |authority| == 36 && |rest| == 37 && program != ID
    ensures var d := PackedMint(authority, supply, decimals, rest);
            |d| == 82 && BodyOf(program, d) == Blob(program, 82, Raw(0, 0, 0, 0, decimals))
  {
    var d := PackedMint(authority, supply, decimals, rest);
    assert d[44] == decimals;
  }

  /** Writing a token account's balance changes nothing else it means. */
  lemma WriteAmount(program: Address, d: seq<byte>, n: u64)
    requires BodyOf(program, d).Token?
    ensures |d| >= TOKEN_ACCT_LEN
    ensures BodyOf(program, Splice(d, TOKEN_ACCT_AMOUNT_OFFSET, Le(n, 8)))
            == Token(BodyOf(program, d).t.(amount := n))
  {
    Widths();
    LeRoundTrip(n, 8);
    SpliceFrame(d, TOKEN_ACCT_AMOUNT_OFFSET, Le(n, 8), 0, 32);
    SpliceFrame(d, TOKEN_ACCT_AMOUNT_OFFSET, Le(n, 8), 32, 64);
    SpliceFrame(d, TOKEN_ACCT_AMOUNT_OFFSET, Le(n, 8), 108, 109);
    var d' := Splice(d, TOKEN_ACCT_AMOUNT_OFFSET, Le(n, 8));
    assert d'[108..109][0] == d'[108] && d[108..109][0] == d[108];
  }

  /** A write inside a vault account's bytes changes its record as the layout says. */
  lemma WriteVault(d: seq<byte>, i: nat, s: seq<byte>)
    requires |d| == LEN && i + |s| <= LEN
    ensures BodyOf(ID, Splice(d, i, s)) == Vault(RecordAt(Splice(d, i, s)))
  {
  }

  lemma VaultReads(d: seq<byte>)
    requires |d| == LEN
    ensures BodyOf(ID, d) == Vault(RecordAt(d))
  {
  }

  /** An account the System program owns with no data means nothing but its lamports. */
  lemma UnusedReads(d: seq<byte>)
    requires |d| == 0
    ensures BodyOf(SYSTEM_ID, d) == UNUSED
  {
  }
}
