/** The pages' amount printers and parsers (demo/src/main.ts, flip_demo/ui/src/main.ts). */
module Decimal {
  import opened Types

  const LAMPORTS_DECIMALS: nat := 9
  const USDC_DECIMALS: nat := 6
  const VAULT_PDA_RENT_LAMPORTS: nat := 1614720

  function Pow10(k: nat): (p: nat)
    ensures p >= 1
  {
    if k == 0 then 1 else 10 * Pow10(k - 1)
  }

  // ----- Strings -----

  predicate IsDigit(c: char) { '0' <= c <= '9' }

  predicate AllDigits(s: string) { forall i :: 0 <= i < |s| ==> IsDigit(s[i]) }

  /** The characters `trim` removes. */
  predicate IsSpace(c: char) {
    var n := c as int;
    9 <= n <= 13 || n == 32 || n == 0xa0 || n == 0x1680 || 0x2000 <= n <= 0x200a || n == 0x2028 || n == 0x2029
    || n == 0x202f || n == 0x205f || n == 0x3000 || n == 0xfeff
  }

  function Trim(s: string): string {
    if s != [] && IsSpace(s[0]) then Trim(s[1..])
    else if s != [] && IsSpace(s[|s| - 1]) then Trim(s[..|s| - 1])
    else s
  }

  function Zeros(k: nat): (s: string)
    ensures |s| == k && AllDigits(s)
  {
    if k == 0 then "" else Zeros(k - 1) + "0"
  }

  function PadStart(s: string, k: nat): string { if |s| >= k then s else Zeros(k - |s|) + s }

  function PadEnd(s: string, k: nat): string { if |s| >= k then s else s + Zeros(k - |s|) }

  /** `replace(/0+$/, '')` */
  function StripZeros(s: string): string {
    if s != [] && s[|s| - 1] == '0' then StripZeros(s[..|s| - 1]) else s
  }

  // ----- Numerals -----

  /** `BigInt` of a digit string. */
  function Value(s: string): nat
    requires AllDigits(s)
  {
    if s == [] then 0 else 10 * Value(s[..|s| - 1]) + (s[|s| - 1] as int - '0' as int)
  }

  /** `toString` of a bigint. */
  function Numeral(n: nat): (s: string)
    ensures s != [] && AllDigits(s)
  {
    var last := [('0' as int + n % 10) as char];
    if n < 10 then last else Numeral(n / 10) + last
  }

  // ----- Printing -----

  function DivMod(n: nat, p: nat): (r: (nat, nat))
    requires p >= 1
    ensures n == r.0 * p + r.1 && r.1 < p
  {
    (n / p, n % p)
  }

  function Print(n: nat, decimals: nat): string {
    var (whole, rem) := DivMod(n, Pow10(decimals));
    if rem == 0 then Numeral(whole)
    else Numeral(whole) + "." + StripZeros(PadStart(Numeral(rem), decimals))
  }

  function LamportsToSolDisplay(l: nat): string { Print(l, LAMPORTS_DECIMALS) }

  function SolBalanceMinusVaultRentDisplay(raw: nat): string {
    Print(if raw > VAULT_PDA_RENT_LAMPORTS then raw - VAULT_PDA_RENT_LAMPORTS else 0, LAMPORTS_DECIMALS)
  }

  // ----- Parsing -----

  function DigitRun(s: string): (k: nat)
    ensures k <= |s| && AllDigits(s[..k])
    ensures k < |s| ==> !IsDigit(s[k])
  {
    if s == [] || !IsDigit(s[0]) then 0
    else
      var k := DigitRun(s[1..]);
      assert forall i :: 0 <= i < k ==> s[1..][..k][i] == s[i + 1];
      k + 1
  }

  /** The two groups of /^(\d+)(?:\.(\d*))?$/, the second empty when absent. */
  function Match(s: string): (m: Option<(string, string)>)
    ensures m.Some? ==> m.value.0 != [] && AllDigits(m.value.0) && AllDigits(m.value.1)
    ensures m.Some? ==> (s == m.value.0 && m.value.1 == []) || s == m.value.0 + "." + m.value.1
  {
    var k := DigitRun(s);
    if k == 0 then None
    else if k == |s| then Some((s, ""))
    else if s[k] == '.' && DigitRun(s[k + 1..]) == |s[k + 1..]| then
      assert s == s[..k] + [s[k]] + s[k + 1..];
      Some((s[..k], s[k + 1..]))
    else None
  }

  function Scaled(intPart: string, fraction: string, decimals: nat): nat
    requires AllDigits(intPart) && AllDigits(fraction)
  {
    var frac := fraction;
    var frac := if |frac| > decimals then frac[..decimals] else frac;
    var frac := PadEnd(frac, decimals);
    Value(intPart + frac)
  }

  function ParseUiAmount(s: string, decimals: nat): Option<nat> {
    match Match(Trim(s))
    case None => None
    case Some((i, f)) => Some(Scaled(i, f, decimals))
  }

  datatype AmountError = AmountRequired | BadDecimals | BadFormat
  datatype ParseResult = Parsed(value: nat) | Rejected(error: AmountError)

  function ParseHumanTokenAmount(ui: string, decimals: int): ParseResult {
    var s := Trim(ui);
    if s == "" then Rejected(AmountRequired)
    else if decimals < 0 || decimals > 18 then Rejected(BadDecimals)
    else match Match(s)
      case None => Rejected(BadFormat)
      case Some((i, f)) => Parsed(Scaled(i, f, decimals))
  }

  // ----- Lemmas about numerals -----

  lemma {:induction false} Pow10Add(a: nat, b: nat)
    ensures Pow10(a + b) == Pow10(a) * Pow10(b)
  {
    if a > 0 {
      Pow10Add(a - 1, b);
    }
  }

  lemma TenTimes(a: nat, p: nat)
    ensures 10 * (a * p) == a * (10 * p)
  {
  }

  lemma {:induction false} ValueConcat(a: string, b: string)
    requires AllDigits(a) && AllDigits(b)
    ensures AllDigits(a + b) && Value(a + b) == Value(a) * Pow10(|b|) + Value(b)
  {
    if b == [] {
      assert a + b == a;
    } else {
      var b' := b[..|b| - 1];
      ValueConcat(a, b');
      assert (a + b)[..|a + b| - 1] == a + b';
      assert Value(a + b) == 10 * Value(a + b') + (b[|b| - 1] as int - '0' as int);
      TenTimes(Value(a), Pow10(|b'|));
    }
  }

  lemma {:induction false} ValueZeros(k: nat)
    ensures Value(Zeros(k)) == 0
  {
    if k > 0 {
      ValueZeros(k - 1);
      assert Zeros(k)[..k - 1] == Zeros(k - 1);
    }
  }

  lemma {:induction false} ValueBound(s: string)
    requires AllDigits(s)
    ensures Value(s) < Pow10(|s|)
  {
    if s != [] {
      ValueBound(s[..|s| - 1]);
    }
  }

  lemma {:induction false} ValueOfNumeral(n: nat)
    ensures Value(Numeral(n)) == n
  {
    if n >= 10 {
      ValueOfNumeral(n / 10);
      assert Numeral(n)[..|Numeral(n)| - 1] == Numeral(n / 10);
    }
  }

  lemma {:induction false} NumeralLength(n: nat, k: nat)
    requires n < Pow10(k) && k > 0
    ensures |Numeral(n)| <= k
  {
    if n >= 10 {
      assert k > 1;
      NumeralLength(n / 10, k - 1);
    }
  }

  lemma PadOneMore(t: string, k: nat)
    ensures t + Zeros(k + 1) == t + Zeros(k) + "0"
  {
  }

  /** Stripping trailing zeros and padding back to the old length is the identity. */
  lemma {:induction false} StripThenPad(s: string)
    requires AllDigits(s)
    ensures AllDigits(StripZeros(s)) && |StripZeros(s)| <= |s|
    ensures PadEnd(StripZeros(s), |s|) == s
  {
    hide Zeros;
    if s != [] && s[|s| - 1] == '0' {
      var t := s[..|s| - 1];
      StripThenPad(t);
      PadOneMore(StripZeros(t), |t| - |StripZeros(t)|);
      assert StripZeros(t) + Zeros(|t| - |StripZeros(t)|) == t by {
        if |StripZeros(t)| == |t| {
          assert t + Zeros(0) == t;
        }
      }
      assert s == t + "0";
    }
  }

  /** A numeral of a positive number is not all zeros. */
  lemma {:induction false} StripLeaves(s: string)
    requires AllDigits(s) && Value(s) > 0
    ensures StripZeros(s) != []
  {
    if s[|s| - 1] == '0' {
      StripLeaves(s[..|s| - 1]);
    }
  }

  lemma {:induction false} DigitRunOf(a: string, b: string)
    requires AllDigits(a) && (b == [] || !IsDigit(b[0]))
    ensures DigitRun(a + b) == |a|
  {
    if a == [] {
      assert a + b == b;
    } else {
      DigitRunOf(a[1..], b);
      assert (a + b)[1..] == a[1..] + b && (a + b)[0] == a[0];
    }
  }

  lemma MatchOf(i: string, f: string)
    requires i != [] && AllDigits(i) && AllDigits(f)
    ensures Match(i) == Some((i, ""))
    ensures Match(i + "." + f) == Some((i, f))
  {
    DigitRunOf(i, "");
    assert i + "" == i;
    var s := i + "." + f;
    assert s == i + ("." + f);
    DigitRunOf(i, "." + f);
    assert s[..|i|] == i && s[|i| + 1..] == f;
    DigitRunOf(f, "");
    assert f + "" == f;
  }

  lemma TrimKeeps(s: string)
    requires s != [] && !IsSpace(s[0]) && !IsSpace(s[|s| - 1])
    ensures Trim(s) == s
  {
  }

  // ----- Round trip -----

  lemma ScaledWhole(i: string, decimals: nat)
    requires AllDigits(i)
    ensures Scaled(i, "", decimals) == Value(i) * Pow10(decimals)
  {
    ScaledPads(i, "", decimals);
    assert i + "" == i;
  }

  lemma ScaledStripped(i: string, padded: string)
    requires AllDigits(i) && AllDigits(padded)
    ensures AllDigits(StripZeros(padded))
    ensures Scaled(i, StripZeros(padded), |padded|) == Value(i) * Pow10(|padded|) + Value(padded)
  {
    StripThenPad(padded);
    ValueConcat(i, padded);
  }

  lemma MatchPrinted(i: string, f: string)
    requires i != [] && AllDigits(i) && f != [] && AllDigits(f)
    ensures Match(Trim(i)) == Some((i, ""))
    ensures Match(Trim(i + "." + f)) == Some((i, f))
  {
    TrimKeeps(i);
    TrimKeeps(i + "." + f);
    MatchOf(i, f);
  }

  /** Both parsers read a printed amount as the numerals it was made of. */
  lemma {:induction false} PrintedGroups(n: nat, decimals: nat)
    ensures Match(Trim(Print(n, decimals))).Some?
    ensures var (i, f) := Match(Trim(Print(n, decimals))).value; Scaled(i, f, decimals) == n
  {
    var (whole, rem) := DivMod(n, Pow10(decimals));
    var i := Numeral(whole);
    ValueOfNumeral(whole);
    if rem == 0 {
      MatchPrinted(i, i);
      ScaledWhole(i, decimals);
    } else {
      assert decimals > 0;
      NumeralLength(rem, decimals);
      var padded := PadStart(Numeral(rem), decimals);
      PaddedValue(rem, decimals);
      StripThenPad(padded);
      StripLeaves(padded);
      MatchPrinted(i, StripZeros(padded));
      ScaledStripped(i, padded);
    }
  }

  /** For every amount and every number of decimals, parsing what was printed gives the amount back. */
  lemma ParsePrinted(n: nat, decimals: nat)
    ensures ParseUiAmount(Print(n, decimals), decimals) == Some(n)
    ensures decimals <= 18 ==> ParseHumanTokenAmount(Print(n, decimals), decimals) == Parsed(n)
  {
    PrintedGroups(n, decimals);
  }

  lemma PaddedValue(n: nat, k: nat)
    requires |Numeral(n)| <= k
    ensures var s := PadStart(Numeral(n), k); |s| == k && AllDigits(s) && Value(s) == n
  {
    hide Value;
    hide Numeral;
    hide Zeros;
    hide Pow10;
    var z := Zeros(k - |Numeral(n)|);
    ValueOfNumeral(n);
    ValueZeros(k - |Numeral(n)|);
    ValueConcat(z, Numeral(n));
    assert |Numeral(n)| == k ==> z + Numeral(n) == Numeral(n);
  }

  /** The lamport display parses back at 9 decimals; the vault display to the balance above the rent. */
  lemma SolDisplaysRoundTrip(l: nat)
    ensures ParseUiAmount(LamportsToSolDisplay(l), 9) == Some(l)
    ensures ParseHumanTokenAmount(SolBalanceMinusVaultRentDisplay(l), 9)
            == Parsed(if l >= VAULT_PDA_RENT_LAMPORTS then l - VAULT_PDA_RENT_LAMPORTS else 0)
  {
    ParsePrinted(l, 9);
    ParsePrinted(if l > VAULT_PDA_RENT_LAMPORTS then l - VAULT_PDA_RENT_LAMPORTS else 0, 9);
  }

  // ----- Meaning -----

  /** An accepted string writes the number num / 10^scale. */
  datatype Written = Written(num: nat, scale: nat)

  function Reads(i: string, f: string): Written
    requires AllDigits(i) && AllDigits(f)
  {
    Written(Value(i + f), |f|)
  }

  function Reading(s: string): Written
    requires Match(Trim(s)).Some?
  {
    Reads(Match(Trim(s)).value.0, Match(Trim(s)).value.1)
  }

  lemma Mul(a: nat, b: nat, c: nat)
    requires a <= b
    ensures a * c <= b * c
  {
  }

  lemma FloorExact(a: nat, b: nat, c: nat)
    ensures (a * b) * c == a * (b * c)
    ensures (a * b + 1) * c == a * (b * c) + c
  {
  }

  lemma FloorCut(num: nat, v: nat, x: nat, b: nat, c: nat)
    requires num == v * b + x && x < b && c > 0
    ensures v * (b * c) <= num * c < (v + 1) * (b * c)
  {
    assert (v + 1) * b == v * b + b;
    Mul(v * b, num, c);
    StrictMul(num, (v + 1) * b, c);
    assert (v * b) * c == v * (b * c) && ((v + 1) * b) * c == (v + 1) * (b * c);
  }

  /** `v` is floor(num * d / p). */
  predicate IsFloor(v: nat, num: nat, p: nat, d: nat) { v * p <= num * d < (v + 1) * p }

  lemma PaddedFloor(num: nat, v: nat, a: nat, b: nat)
    requires v == num * a && b > 0
    ensures IsFloor(v, num, b, a * b)
  {
    FloorExact(num, a, b);
  }

  lemma CutFloor(num: nat, v: nat, x: nat, b: nat, c: nat)
    requires num == v * b + x && x < b && c > 0
    ensures IsFloor(v, num, b * c, c)
  {
    FloorCut(num, v, x, b, c);
  }

  /** The parsed amount is the floor of the written number times 10^decimals. */
  lemma ScaledIsFloor(i: string, f: string, decimals: nat)
    requires AllDigits(i) && AllDigits(f)
    ensures IsFloor(Scaled(i, f, decimals), Reads(i, f).num, Pow10(Reads(i, f).scale), Pow10(decimals))
  {
    hide Value;
    hide Scaled;
    hide Pow10;
    var v := Scaled(i, f, decimals);
    if |f| <= decimals {
      ScaledPads(i, f, decimals);
      Pow10Add(decimals - |f|, |f|);
      PaddedFloor(Value(i + f), v, Pow10(decimals - |f|), Pow10(|f|));
    } else {
      ScaledCuts(i, f, decimals);
      ValueBound(f[decimals..]);
      Pow10Add(|f| - decimals, decimals);
      CutFloor(Value(i + f), v, Value(f[decimals..]), Pow10(|f| - decimals), Pow10(decimals));
    }
  }

  lemma ScaledPads(i: string, f: string, decimals: nat)
    requires AllDigits(i) && AllDigits(f) && |f| <= decimals
    ensures Scaled(i, f, decimals) == Value(i + f) * Pow10(decimals - |f|)
  {
    var z := Zeros(decimals - |f|);
    assert PadEnd(f, decimals) == f + z;
    assert i + (f + z) == (i + f) + z;
    ValueZeros(decimals - |f|);
    ValueConcat(i + f, z);
  }

  lemma ScaledCuts(i: string, f: string, decimals: nat)
    requires AllDigits(i) && AllDigits(f) && |f| > decimals
    ensures Scaled(i, f, decimals) == Value(i + f[..decimals])
    ensures Value(i + f) == Value(i + f[..decimals]) * Pow10(|f| - decimals) + Value(f[decimals..])
  {
    assert i + f == (i + f[..decimals]) + f[decimals..];
    ValueConcat(i + f[..decimals], f[decimals..]);
  }

  lemma CancelRight(a: nat, b: nat, c: nat)
    requires a * c < b * c
    ensures a < b
  {
    if a >= b {
      Mul(b, a, c);
    }
  }

  lemma FloorsInOrder(v: nat, n: nat, p: nat, u: nat, m: nat, q: nat, d: nat)
    requires IsFloor(v, n, p, d) && IsFloor(u, m, q, d) && n * q <= m * p && p > 0
    ensures v <= u
  {
    Mul(v * p, n * d, q);
    Mul(n * q, m * p, d);
    assert (v * p) * q == v * (p * q);
    assert (n * d) * q == (n * q) * d;
    assert (m * p) * d == (m * d) * p;
    StrictMul(m * d, (u + 1) * q, p);
    assert ((u + 1) * q) * p == (u + 1) * (p * q);
    CancelRight(v, u + 1, p * q);
  }

  lemma GroupsAreMonotone(i: string, f: string, j: string, g: string, decimals: nat)
    requires AllDigits(i) && AllDigits(f) && AllDigits(j) && AllDigits(g)
    requires Reads(i, f).num * Pow10(Reads(j, g).scale) <= Reads(j, g).num * Pow10(Reads(i, f).scale)
    ensures Scaled(i, f, decimals) <= Scaled(j, g, decimals)
  {
    var a, b := Reads(i, f), Reads(j, g);
    ScaledIsFloor(i, f, decimals);
    ScaledIsFloor(j, g, decimals);
    FloorsInOrder(Scaled(i, f, decimals), a.num, Pow10(a.scale),
                  Scaled(j, g, decimals), b.num, Pow10(b.scale), Pow10(decimals));
  }

  /** Of two accepted strings, the one that writes the larger number parses to no less, at any decimals. */
  lemma ParsingIsMonotone(s: string, t: string, decimals: nat)
    requires Match(Trim(s)).Some? && Match(Trim(t)).Some?
    requires var a, b := Reading(s), Reading(t); a.num * Pow10(b.scale) <= b.num * Pow10(a.scale)
    ensures ParseUiAmount(s, decimals).value <= ParseUiAmount(t, decimals).value
  {
    var (i, f) := Match(Trim(s)).value;
    var (j, g) := Match(Trim(t)).value;
    GroupsAreMonotone(i, f, j, g, decimals);
  }

  lemma StrictMul(a: nat, b: nat, c: nat)
    requires a < b && c > 0
    ensures a * c < b * c
  {
    Mul(a + 1, b, c);
    assert (a + 1) * c == a * c + c;
  }

  // ----- Form -----

  predicate AllSpace(s: string) { forall i :: 0 <= i < |s| ==> IsSpace(s[i]) }

  lemma {:induction false} TrimLeft(a: string, s: string)
    requires AllSpace(a)
    ensures Trim(a + s) == Trim(s)
  {
    if a == [] {
      assert a + s == s;
    } else {
      assert (a + s)[1..] == a[1..] + s;
      TrimLeft(a[1..], s);
    }
  }

  lemma {:induction false} TrimRight(s: string, c: char)
    requires IsSpace(c)
    ensures Trim(s + [c]) == Trim(s)
    decreases |s|
  {
    if s == [] {
      assert (s + [c])[1..] == s;
    } else if IsSpace(s[0]) {
      assert (s + [c])[1..] == s[1..] + [c];
      TrimRight(s[1..], c);
    } else {
      assert (s + [c])[..|s|] == s;
    }
  }

  /** Trimming takes away exactly the outer spaces, so they change no parse. */
  lemma {:induction false} OuterSpaces(a: string, s: string, b: string, decimals: nat)
    requires AllSpace(a) && AllSpace(b)
    ensures Trim(a + s + b) == Trim(s)
    ensures ParseUiAmount(a + s + b, decimals) == ParseUiAmount(s, decimals)
    ensures ParseHumanTokenAmount(a + s + b, decimals) == ParseHumanTokenAmount(s, decimals)
    ensures s != [] && !IsSpace(s[0]) && !IsSpace(s[|s| - 1]) ==> Trim(a + s + b) == s
    decreases |b|
  {
    if b == [] {
      assert a + s + b == a + s;
      TrimLeft(a, s);
    } else {
      var c, b' := b[|b| - 1], b[..|b| - 1];
      assert a + s + b == a + s + b' + [c];
      TrimRight(a + s + b', c);
      OuterSpaces(a, s, b', decimals);
    }
  }

  /** `s` is digits, or digits and a point and maybe digits: what /^\d+(?:\.\d*)?$/ matches. */
  ghost predicate Numeric(s: string) {
    exists i: string, f: string :: i != [] && AllDigits(i) && AllDigits(f) && (s == i || s == i + "." + f)
  }

  /** Which strings each parser accepts, and why the page's refuses the others. */
  lemma Accepted(s: string, decimals: int)
    ensures decimals >= 0 ==> (ParseUiAmount(s, decimals).Some? <==> Numeric(Trim(s)))
    ensures ParseHumanTokenAmount(s, decimals).Parsed? <==> 0 <= decimals <= 18 && Numeric(Trim(s))
    ensures Trim(s) == "" <==> ParseHumanTokenAmount(s, decimals) == Rejected(AmountRequired)
    ensures Trim(s) != "" && !(0 <= decimals <= 18) <==> ParseHumanTokenAmount(s, decimals) == Rejected(BadDecimals)
  {
    var t := Trim(s);
    if Match(t).Some? {
      var (i, f) := Match(t).value;
      assert i != [] && AllDigits(i) && AllDigits(f) && (t == i || t == i + "." + f);
    }
    if Numeric(t) {
      var i, f :| i != [] && AllDigits(i) && AllDigits(f) && (t == i || t == i + "." + f);
      MatchOf(i, f);
    }
  }

  /** No leading zero but that of 0 itself. */
  predicate Canonical(s: string) { s != [] && AllDigits(s) && (|s| > 1 ==> s[0] != '0') }

  lemma {:induction false} NumeralIsCanonical(n: nat)
    ensures Canonical(Numeral(n)) && (n > 0 ==> Numeral(n)[0] != '0')
  {
    if n >= 10 {
      NumeralIsCanonical(n / 10);
    }
  }

  lemma {:induction false} StrippedEnd(s: string)
    ensures var r := StripZeros(s); r == [] || r[|r| - 1] != '0'
  {
    if s != [] && s[|s| - 1] == '0' {
      StrippedEnd(s[..|s| - 1]);
    }
  }

  /** An amount prints as its whole part and, unless it is whole, a point and a fraction of at most as many
      digits as there are decimals that does not end in zero. */
  lemma PrintIsCanonical(n: nat, decimals: nat)
    ensures var (whole, rem) := DivMod(n, Pow10(decimals));
            && Canonical(Numeral(whole))
            && (rem == 0 ==> Print(n, decimals) == Numeral(whole))
            && (rem != 0 ==>
                  exists f: string :: Print(n, decimals) == Numeral(whole) + "." + f
                    && f != [] && AllDigits(f) && |f| <= decimals && f[|f| - 1] != '0')
  {
    var (whole, rem) := DivMod(n, Pow10(decimals));
    NumeralIsCanonical(whole);
    if rem != 0 {
      NumeralLength(rem, decimals);
      PaddedValue(rem, decimals);
      var padded := PadStart(Numeral(rem), decimals);
      StripThenPad(padded);
      StripLeaves(padded);
      StrippedEnd(padded);
      var f := StripZeros(padded);
      assert Print(n, decimals) == Numeral(whole) + "." + f;
    }
  }

  /** One SOL, one USDC. */
  lemma Units()
    ensures ParseUiAmount("1", LAMPORTS_DECIMALS) == Some(1_000_000_000)
    ensures ParseUiAmount("1", USDC_DECIMALS) == Some(1_000_000)
  {
    assert Value("1") == 1 && Trim("1") == "1";
    MatchOf("1", "");
    hide Value, Scaled, Trim, Match;
    ScaledWhole("1", LAMPORTS_DECIMALS);
    ScaledWhole("1", USDC_DECIMALS);
    assert Pow10(3) == 1000;
    hide Pow10;
    Pow10Add(3, 3);
    Pow10Add(6, 3);
  }

  // ----- The prefilled stake -----

  /** `updatePoolHint`: an empty stake field is filled with 1% of the pool, if that is anything. */
  function UpdatePoolHint(field: string, pool: nat): string {
    var max := pool / 100;
    if Trim(field) == "" && max > 0 then Print(max, USDC_DECIMALS) else field
  }

  datatype Stake = Staked(amount: nat) | NotAnAmount | AboveOnePercent | NotPositive

  /** `onFlip`, up to the amount it sends. */
  function FlipStake(field: string, pool: nat): Stake {
    match ParseUiAmount(field, USDC_DECIMALS)
    case None => NotAnAmount
    case Some(amount) =>
      if amount > pool / 100 then AboveOnePercent else if amount <= 0 then NotPositive else Staked(amount)
  }

  /** A field left to the page stakes exactly 1% of an unchanged pool, if that is anything, and otherwise
      is no amount at all; the page leaves a field that is filled in alone. */
  lemma PrefillPasses(field: string, pool: nat)
    ensures Trim(field) != "" ==> UpdatePoolHint(field, pool) == field
    ensures Trim(field) == "" ==>
              FlipStake(UpdatePoolHint(field, pool), pool)
              == if pool / 100 > 0 then Staked(pool / 100) else NotAnAmount
  {
    if pool / 100 > 0 {
      ParsePrinted(pool / 100, USDC_DECIMALS);
    }
  }

  /** Whatever the field says, a stake that is sent is positive and at most 1% of the pool, and any such amount
      is sent; each refusal says what is wrong. */
  lemma StakesAreBounded(field: string, pool: nat)
    ensures FlipStake(field, pool) == NotAnAmount <==> !Numeric(Trim(field))
    ensures Numeric(Trim(field)) ==>
              && ParseUiAmount(field, USDC_DECIMALS).Some?
              && var n := ParseUiAmount(field, USDC_DECIMALS).value;
                 && (FlipStake(field, pool) == Staked(n) <==> 0 < 100 * n <= pool)
                 && (FlipStake(field, pool) == AboveOnePercent <==> 100 * n > pool)
                 && (FlipStake(field, pool) == NotPositive <==> n == 0)
  {
    Accepted(field, USDC_DECIMALS);
    hide Numeric, ParseUiAmount;
  }
}
