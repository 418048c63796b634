/** Addresses, fixed-width integers, errors and well-known program ids. */
module Types {
  import opened Bytes

  /** A 32-byte public key, as the number its bytes spell in little-endian order. */
  type Address = a: int | 0 <= a < 0x10000000000000000000000000000000000000000000000000000000000000000

  type u16 = n: int | 0 <= n < 0x1_0000
  type u32 = n: int | 0 <= n < 0x1_0000_0000
  type u64 = n: int | 0 <= n < 0x1_0000_0000_0000_0000

  const U32_MAX: u32 := 0xffff_ffff
  const U64_MAX: u64 := 0xffff_ffff_ffff_ffff

  /** The vault program (program/src/constants.rs). */
  const ID: Address := 0xcc73d3feae8b76e9868cc7bfda0492dc80229f06badb255e33ca63d6d5754a8c
  /** The System program: the all-zero key. */
  const SYSTEM_ID: Address := 0
  const SPL_TOKEN_ID: Address := 0xa900ff7e85f58c3a91375b5fed85b41cac79ebce46e1cbd993a165d7e1f6dd06
  const TOKEN_2022_ID: Address := 0xfc8ba1d828f9bdfe270db9834dfc1ab6dacd6ce4bc5d4218de8f75eee1f6dd06
  const ATA_PROGRAM_ID: Address := 0x59f8e9dbd87b8e048410ffda99135a0b830d8e1429103dbbf189244e8f25978c
  const CLOCK_ID: Address := 0x215b55735c6d4b9ba3b85e8bb65e1d6998635628c974c71817d5a706
  const INSTRUCTIONS_ID: Address := 0x85fcbbadba57556218fc624c1c0c2fd5504d4da3566d17b1817d5a706
  const RENT_ID: Address := 0x8ad9dbe344fda19b08eeda587ff14a3d4cc98c21515c2c1917d5a706

  predicate IsTokenProgram(p: Address) { p == SPL_TOKEN_ID || p == TOKEN_2022_ID }

  /** The program's custom errors, the ProgramError values it returns, and three refusals by the
      runtime: a callee's error, no PDA bump, and lamports that do not balance. */
  datatype Error =
    | NotSigner | InvalidAta | MintMismatch | ArithmeticOverflow
    | UserVaultAlreadyExists | UserVaultNotFound | UserVaultOwnerMismatch | UserVaultPdaMismatch
    | UserVaultAppAddressMismatch | InvalidUserVaultDelegate | UnauthorizedCpiCaller
    | UserVaultAtaNotEmpty | UserVaultAtaCountZero | UserVaultHasOpenAtas
    | InvalidUnixTimestamp | ExpiredDelegate | InvalidClockAccount | InvalidRentAccount
    | InvalidUserVaultAccountLength
    | InvalidInstructionData | NotEnoughAccountKeys | IncorrectProgramId | UnsupportedSysvar
    | InsufficientFunds | InvalidArgument | InvalidAccountData
    | CpiFailed | NoViableBump | Unbalanced

  datatype Result<+T> = Ok(value: T) | Err(error: Error) {
    predicate IsFailure() { Err? }
    function PropagateFailure<U>(): Result<U>
      requires Err?
    {
      Err(error)
    }
    function Extract(): T
      requires Ok?
    {
      value
    }
  }

  datatype Option<+T> = None | Some(value: T)

  /** One value per element, in order. */
  function Map<T, R>(s: seq<T>, f: T -> R): (r: seq<R>)
    ensures |r| == |s| && forall i :: 0 <= i < |r| ==> r[i] == f(s[i])
  {
    seq(|s|, i requires 0 <= i < |s| => f(s[i]))
  }

  /** `if unlikely(!c) { return Err(e) }` */
  function Require(c: bool, e: Error): Result<()> { if c then Ok(()) else Err(e) }

  /** Fixed-width reads at an offset. */
  function U16At(d: seq<byte>, i: nat): u16
    requires i + 2 <= |d|
  {
    Widths();
    FromLe(d[i..i + 2])
  }

  function U32At(d: seq<byte>, i: nat): u32
    requires i + 4 <= |d|
  {
    Widths();
    FromLe(d[i..i + 4])
  }

  function U64At(d: seq<byte>, i: nat): u64
    requires i + 8 <= |d|
  {
    Widths();
    FromLe(d[i..i + 8])
  }

  function AddressAt(d: seq<byte>, i: nat): Address
    requires i + 32 <= |d|
  {
    Widths();
    FromLe(d[i..i + 32])
  }

  /** The two's-complement i64 stored at an offset. */
  function I64At(d: seq<byte>, i: nat): int
    requires i + 8 <= |d|
  {
    var n := U64At(d, i);
    if n < 0x8000_0000_0000_0000 then n else n - 0x1_0000_0000_0000_0000
  }
}
