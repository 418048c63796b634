/** The instructions sysvar: the runtime's serializer as the specification, and the program's unchecked
    pointer walk over its bytes (program/src/helpers/sysvar.rs). */
module InstructionsSysvar {
  import opened Bytes
  import opened Types

  const IX_ACCOUNT_META_STRIDE: nat := 33

  datatype Meta = Meta(flags: byte, key: Address)
  datatype Instr = Instr(metas: seq<Meta>, program: Address, data: seq<byte>)

  // ----- The serializer -----

  function EncodeMetas(metas: seq<Meta>): (s: seq<byte>)
    ensures |s| == IX_ACCOUNT_META_STRIDE * |metas|
  {
    if metas == [] then [] else [metas[0].flags] + Le(metas[0].key, 32) + EncodeMetas(metas[1..])
  }

  function EncodeInstr(i: Instr): (s: seq<byte>)
    ensures |s| >= 2 + IX_ACCOUNT_META_STRIDE * |i.metas| + 32
  {
    Le(|i.metas|, 2) + EncodeMetas(i.metas) + Le(i.program, 32) + Le(|i.data|, 2) + i.data
  }

  function Encodings(ixs: seq<Instr>): seq<byte> {
    if ixs == [] then [] else Encodings(ixs[..|ixs| - 1]) + EncodeInstr(ixs[|ixs| - 1])
  }

  /** Where instruction `i` starts: after the count, the table and the instructions before it. */
  function Offset(ixs: seq<Instr>, i: nat): nat
    requires i <= |ixs|
  {
    2 + 2 * |ixs| + |Encodings(ixs[..i])|
  }

  /** The first `i` entries of the offset table. */
  function Table(ixs: seq<Instr>, i: nat): (s: seq<byte>)
    requires i <= |ixs|
    ensures |s| == 2 * i
  {
    if i == 0 then [] else Table(ixs, i - 1) + Le(Offset(ixs, i - 1), 2)
  }

  function Serialize(ixs: seq<Instr>, current: nat): seq<byte> {
    Le(|ixs|, 2) + Table(ixs, |ixs|) + Encodings(ixs) + Le(current, 2)
  }

  /** What the format stores of the current instruction in a u16 fits one: its index and offset, and how many
      accounts it has. */
  predicate FitsFormat(ixs: seq<Instr>, current: nat) {
    && current < |ixs|
    && Offset(ixs, current) < 0x1_0000
    && |ixs[current].metas| < 0x1_0000
  }

  /** The serializer as the runtime runs it: a zeroed table first, each entry patched when its instruction
      is appended, and the current index last. */
  method SerializeInstructions(ixs: seq<Instr>, current: nat) returns (data: seq<byte>)
    ensures data == Serialize(ixs, current)
  {
    var n := |ixs|;
    data := Le(n, 2);
    for i := 0 to n
      invariant data == Le(n, 2) + seq(2 * i, _ => 0)
    {
      data := data + [0, 0];
    }
    for i := 0 to n
      invariant data == Patched(ixs, i)
    {
      var start := |data|;
      PatchedNext(ixs, i);
      data := Splice(data, 2 + 2 * i, Le(start, 2)) + EncodeInstr(ixs[i]);
    }
    assert ixs[..n] == ixs;
    assert data == Le(n, 2) + Table(ixs, n) + Encodings(ixs);
    data := data + Le(current, 2);
  }

  /** The buffer after `i` instructions: the table's first `i` entries are in, the rest still zero. */
  ghost function Patched(ixs: seq<Instr>, i: nat): seq<byte>
    requires i <= |ixs|
  {
    Le(|ixs|, 2) + Table(ixs, i) + seq(2 * (|ixs| - i), _ => 0) + Encodings(ixs[..i])
  }

  lemma PatchedNext(ixs: seq<Instr>, i: nat)
    requires i < |ixs|
    ensures |Patched(ixs, i)| == Offset(ixs, i)
    ensures Splice(Patched(ixs, i), 2 + 2 * i, Le(Offset(ixs, i), 2)) + EncodeInstr(ixs[i]) == Patched(ixs, i + 1)
  {
    hide EncodeInstr;
    hide Le;
    hide Splice;
    var c, t, q, e := Le(|ixs|, 2), Table(ixs, i), Encodings(ixs[..i]), EncodeInstr(ixs[i]);
    var k := 2 * (|ixs| - i);
    Patch(c + t, k, q, Le(Offset(ixs, i), 2));
    assert ixs[..i + 1][..i] == ixs[..i];
    assert Table(ixs, i + 1) == t + Le(Offset(ixs, i), 2) && Encodings(ixs[..i + 1]) == q + e;
    Regroup(c, t, Le(Offset(ixs, i), 2), seq(k - 2, _ => 0), q, e);
  }

  lemma Regroup(c: seq<byte>, t: seq<byte>, s: seq<byte>, z: seq<byte>, q: seq<byte>, e: seq<byte>)
    ensures c + t + s + z + q + e == c + (t + s) + z + (q + e)
  {
  }

  lemma Patch(p: seq<byte>, k: nat, q: seq<byte>, s: seq<byte>)
    requires |s| == 2 <= k
    ensures Splice(p + seq(k, _ => 0) + q, |p|, s) == p + s + seq(k - 2, _ => 0) + q
  {
  }

  // ----- The reader -----

  /** A two-byte read through a pointer; None where it would leave the buffer. */
  function ReadU16(d: seq<byte>, p: int): Option<nat> {
    if 0 <= p && p + 2 <= |d| then Some(U16At(d, p)) else None
  }

  /** `require_top_level_instruction_is_app`; None where a pointer read would leave the buffer. */
  function RequireTopLevelInstructionIsApp(sysvar: Address, d: seq<byte>, app: Address): Option<Result<()>> {
    if sysvar != INSTRUCTIONS_ID then Some(Err(UnsupportedSysvar))
    else
      match ReadU16(d, |d| - 2)
      case None => None
      case Some(current) =>
        match ReadU16(d, 2 + current * 2)
        case None => None
        case Some(raw) =>
          match ReadU16(d, raw)
          case None => None
          case Some(numAccounts) =>
            var p := raw + 2 + numAccounts * IX_ACCOUNT_META_STRIDE;
            if p + 32 > |d| then None
            else if AddressAt(d, p) != app then Some(Err(UnauthorizedCpiCaller))
            else Some(Ok(()))
  }

  // ----- The reader inverts the serializer -----

  lemma {:induction false} TableEntry(ixs: seq<Instr>, n: nat, i: nat)
    requires i < n <= |ixs|
    ensures Table(ixs, n)[2 * i..2 * i + 2] == Le(Offset(ixs, i), 2)
  {
    if i < n - 1 {
      TableEntry(ixs, n - 1, i);
      assert Table(ixs, n)[2 * i..2 * i + 2] == Table(ixs, n - 1)[2 * i..2 * i + 2];
    }
  }

  lemma {:induction false} EncodingAt(ixs: seq<Instr>, i: nat)
    requires i < |ixs|
    ensures exists rest :: Encodings(ixs) == Encodings(ixs[..i]) + EncodeInstr(ixs[i]) + rest
  {
    hide EncodeInstr;
    var init := ixs[..|ixs| - 1];
    if i == |ixs| - 1 {
      assert Encodings(ixs) == Encodings(ixs[..i]) + EncodeInstr(ixs[i]) + [];
    } else {
      EncodingAt(init, i);
      assert init[..i] == ixs[..i];
      var rest :| Encodings(init) == Encodings(ixs[..i]) + EncodeInstr(ixs[i]) + rest;
      var last := EncodeInstr(ixs[|ixs| - 1]);
      assert Encodings(ixs) == Encodings(ixs[..i]) + EncodeInstr(ixs[i]) + (rest + last);
    }
  }

  lemma SubSlice(d: seq<byte>, o: nat, e: seq<byte>, a: nat, b: nat)
    requires o + |e| <= |d| && d[o..o + |e|] == e && a <= b <= |e|
    ensures d[o + a..o + b] == e[a..b]
  {
    forall m | 0 <= m < b - a ensures d[o + a..o + b][m] == e[a..b][m] {
      assert d[o..o + |e|][a + m] == d[o + a + m];
    }
  }

  lemma Sections(a: seq<byte>, b: seq<byte>, c: seq<byte>, e: seq<byte>)
    ensures var d := a + b + c + e;
            && d[|a|..|a| + |b|] == b && d[|a| + |b|..|a| + |b| + |c|] == c && d[|d| - |e|..|d|] == e
  {
  }

  lemma FieldsOfEncoding(c: seq<byte>, m: seq<byte>, p: seq<byte>, l: seq<byte>, x: seq<byte>)
    ensures var e := c + m + p + l + x;
            e[0..|c|] == c && e[|c| + |m|..|c| + |m| + |p|] == p
  {
  }

  /** Fields of an instruction found at offset `o` of a buffer. */
  lemma InstrFields(d: seq<byte>, o: nat, i: Instr)
    requires |i.metas| < 0x1_0000 && o + |EncodeInstr(i)| <= |d|
    requires d[o..o + |EncodeInstr(i)|] == EncodeInstr(i)
    ensures U16At(d, o) == |i.metas|
    ensures AddressAt(d, o + 2 + |i.metas| * IX_ACCOUNT_META_STRIDE) == i.program
  {
    hide EncodeMetas;
    hide FromLe;
    hide Le;
    Widths();
    var e, k := EncodeInstr(i), |i.metas| * IX_ACCOUNT_META_STRIDE;
    LeRoundTrip(|i.metas|, 2);
    LeRoundTrip(i.program, 32);
    FieldsOfEncoding(Le(|i.metas|, 2), EncodeMetas(i.metas), Le(i.program, 32), Le(|i.data|, 2), i.data);
    SubSlice(d, o, e, 0, 2);
    SubSlice(d, o, e, 2 + k, 2 + k + 32);
  }

  lemma InstrAtOffset(ixs: seq<Instr>, current: nat)
    requires current < |ixs|
    ensures var d, o, e := Serialize(ixs, current), Offset(ixs, current), EncodeInstr(ixs[current]);
            o + |e| + 2 <= |d| && d[o..o + |e|] == e
  {
    hide EncodeInstr;
    hide Table;
    var d, n, e := Serialize(ixs, current), |ixs|, EncodeInstr(ixs[current]);
    EncodingAt(ixs, current);
    var before := Encodings(ixs[..current]);
    var rest :| Encodings(ixs) == before + e + rest;
    Sections(Le(n, 2), Table(ixs, n), Encodings(ixs), Le(current, 2));
    Sections(before, e, rest, []);
    assert before + e + rest + [] == Encodings(ixs);
    SubSlice(d, 2 + 2 * n, Encodings(ixs), |before|, |before| + |e|);
  }

  /** The read at the end finds the current index. */
  lemma IndexRead(c: seq<byte>, current: nat)
    requires current < 0x1_0000
    ensures U16At(c + Le(current, 2), |c|) == current
  {
    Widths();
    LeRoundTrip(current, 2);
    assert (c + Le(current, 2))[|c|..|c| + 2] == Le(current, 2);
  }

  lemma EntryRead(c: seq<byte>, t: seq<byte>, rest: seq<byte>, k: nat, v: nat)
    requires |c| == 2 && k + 2 <= |t| && v < 0x1_0000 && t[k..k + 2] == Le(v, 2)
    ensures U16At(c + t + rest, 2 + k) == v
  {
    Widths();
    LeRoundTrip(v, 2);
    assert (c + t + rest)[2 + k..2 + k + 2] == t[k..k + 2];
  }

  /** The read in the table finds the current instruction's offset. */
  lemma TableRead(ixs: seq<Instr>, rest: seq<byte>, current: nat)
    requires current < |ixs| && Offset(ixs, current) < 0x1_0000
    ensures U16At(Le(|ixs|, 2) + Table(ixs, |ixs|) + rest, 2 + 2 * current) == Offset(ixs, current)
  {
    hide Table;
    hide Offset;
    hide U16At;
    TableEntry(ixs, |ixs|, current);
    EntryRead(Le(|ixs|, 2), Table(ixs, |ixs|), rest, 2 * current, Offset(ixs, current));
  }

  /** The walk, given what its first two reads find. */
  lemma Walk(d: seq<byte>, current: nat, o: nat, i: Instr, app: Address)
    requires 2 + 2 * current + 2 <= |d| && o + |EncodeInstr(i)| <= |d| && |i.metas| < 0x1_0000
    requires U16At(d, |d| - 2) == current && U16At(d, 2 + 2 * current) == o
    requires d[o..o + |EncodeInstr(i)|] == EncodeInstr(i)
    ensures RequireTopLevelInstructionIsApp(INSTRUCTIONS_ID, d, app)
            == Some(if i.program == app then Ok(()) else Err(UnauthorizedCpiCaller))
  {
    hide EncodeInstr;
    hide U16At;
    hide AddressAt;
    InstrFields(d, o, i);
  }

  /** For every transaction whose current instruction fits the format, whatever follows it, all reads stay
      inside the buffer, the id read is exactly that instruction's program, and the check passes iff it is the
      app. */
  lemma ReaderInvertsSerializer(ixs: seq<Instr>, current: nat, app: Address)
    requires FitsFormat(ixs, current)
    ensures RequireTopLevelInstructionIsApp(INSTRUCTIONS_ID, Serialize(ixs, current), app)
            == Some(if ixs[current].program == app then Ok(()) else Err(UnauthorizedCpiCaller))
  {
    hide EncodeInstr;
    hide Table;
    hide Encodings;
    hide U16At;
    hide RequireTopLevelInstructionIsApp;
    var c, t, e, last := Le(|ixs|, 2), Table(ixs, |ixs|), Encodings(ixs), Le(current, 2);
    InstrAtOffset(ixs, current);
    IndexRead(c + t + e, current);
    TableRead(ixs, e + last, current);
    assert c + t + (e + last) == Serialize(ixs, current);
    Walk(Serialize(ixs, current), current, Offset(ixs, current), ixs[current], app);
  }
}
