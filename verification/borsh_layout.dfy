/** The Borsh layout of a proposal transaction account: how it is sized, written, read back and translated. */
module BorshLayout {
  import opened Outcomes

  type byte = b: int | 0 <= b < 256

  type Key = k: seq<byte> | |k| == 32 witness seq(32, _ => 0)

  datatype LayoutError = UnexpectedEnd | InvalidTag | BufferTooSmall | TooLong | Panicked | Uninitialized

  type Decoded<T> = Result<(T, seq<byte>), LayoutError>

  // ---- Integers, tags and options -------------------------------------------------------------------

  function Power256(width: nat): nat {
    if width == 0 then 1 else 256 * Power256(width - 1)
  }

  /** Little-endian. */
  function EncodeUint(width: nat, v: nat): (bytes: seq<byte>)
    ensures |bytes| == width
  {
    if width == 0 then [] else [v % 256] + EncodeUint(width - 1, v / 256)
  }

  function DecodeUint(width: nat, bytes: seq<byte>): (r: Decoded<nat>)
    ensures r.Ok? ==> r.value.0 < Power256(width)
  {
    if width == 0 then Ok((0, bytes))
    else if bytes == [] then Err(UnexpectedEnd)
    else
      var (high, rest) :- DecodeUint(width - 1, bytes[1..]);
      Ok((bytes[0] + 256 * high, rest))
  }

  lemma {:induction false} UintRoundTrip(width: nat, v: nat, rest: seq<byte>)
    requires v < Power256(width)
    ensures DecodeUint(width, EncodeUint(width, v) + rest) == Ok((v, rest))
  {
    if width == 0 {
      assert EncodeUint(width, v) + rest == rest;
    } else {
      var (bytes, high) := (EncodeUint(width, v) + rest, EncodeUint(width - 1, v / 256) + rest);
      assert bytes[0] == v % 256 && bytes[1..] == high;
      UintRoundTrip(width - 1, v / 256, rest);
      assert DecodeUint(width, bytes) == Ok((v % 256 + 256 * (v / 256), rest));
    }
  }

  function EncodeBool(b: bool): seq<byte> {
    [if b then 1 else 0]
  }

  function DecodeBool(bytes: seq<byte>): Decoded<bool> {
    if bytes == [] then Err(UnexpectedEnd)
    else if bytes[0] > 1 then Err(InvalidTag)
    else Ok((bytes[0] == 1, bytes[1..]))
  }

  /** A unit-only enumeration of the given number of variants. */
  function DecodeTag(variants: nat, bytes: seq<byte>): Decoded<byte> {
    if bytes == [] then Err(UnexpectedEnd)
    else if bytes[0] >= variants then Err(InvalidTag)
    else Ok((bytes[0], bytes[1..]))
  }

  function Take(n: nat, bytes: seq<byte>): Decoded<seq<byte>> {
    if n <= |bytes| then Ok((bytes[..n], bytes[n..])) else Err(UnexpectedEnd)
  }

  const I64_MIN := -0x8000_0000_0000_0000
  const I64_LIMIT := 0x8000_0000_0000_0000

  type I64 = v: int | I64_MIN <= v < I64_LIMIT

  /** The unsigned value of the same 64 bits, and back. */
  function ToBits(v: I64): nat {
    if v < 0 then v + 2 * I64_LIMIT else v
  }

  function FromBits(bits: nat): I64 {
    var v := bits % (2 * I64_LIMIT);
    if v < I64_LIMIT then v else v - 2 * I64_LIMIT
  }

  function EncodeTime(t: Option<I64>): seq<byte> {
    match t
    case None => [0]
    case Some(v) => [1] + EncodeUint(8, ToBits(v))
  }

  function DecodeTime(bytes: seq<byte>): Decoded<Option<I64>> {
    var (tag, rest) :- DecodeTag(2, bytes);
    if tag == 0 then Ok((None, rest))
    else
      var (bits, rest) :- DecodeUint(8, rest);
      Ok((Some(FromBits(bits)), rest))
  }

  lemma SignedRoundTrip(v: I64, bits: nat)
    ensures ToBits(v) < 2 * I64_LIMIT && FromBits(ToBits(v)) == v
    ensures bits < 2 * I64_LIMIT ==> ToBits(FromBits(bits)) == bits
  {
  }

  lemma TimeRoundTrip(t: Option<I64>, rest: seq<byte>)
    ensures DecodeTime(EncodeTime(t) + rest) == Ok((t, rest))
  {
    hide EncodeUint, DecodeUint, ToBits, FromBits, Power256;
    var bytes := EncodeTime(t) + rest;
    if t.Some? {
      Power256Of8();
      SignedRoundTrip(t.value, 0);
      UintRoundTrip(8, ToBits(t.value), rest);
      assert bytes[1..] == EncodeUint(8, ToBits(t.value)) + rest;
    } else {
      assert bytes[1..] == rest;
    }
  }

  lemma Power256Of8()
    ensures Power256(2) == 0x1_0000 && Power256(4) == 0x1_0000_0000 && Power256(8) == 0x1_0000_0000_0000_0000
  {
  }

  // ---- Vectors ----------------------------------------------------------------------------------------

  function EncodeItems<T>(items: seq<T>, encode: T -> seq<byte>): seq<byte> {
    if items == [] then [] else encode(items[0]) + EncodeItems(items[1..], encode)
  }

  function DecodeItems<T>(n: nat, decode: seq<byte> -> Decoded<T>, bytes: seq<byte>): Decoded<seq<T>> {
    if n == 0 then Ok(([], bytes))
    else
      var (item, rest) :- decode(bytes);
      var (items, rest) :- DecodeItems(n - 1, decode, rest);
      Ok(([item] + items, rest))
  }

  const VECTOR_LIMIT: nat := 0x1_0000_0000

  /** The length as u32, then the items. */
  function EncodeVector<T>(items: seq<T>, encode: T -> seq<byte>): seq<byte> {
    EncodeUint(4, |items|) + EncodeItems(items, encode)
  }

  function DecodeVector<T>(decode: seq<byte> -> Decoded<T>, bytes: seq<byte>): Decoded<seq<T>> {
    var (n, rest) :- DecodeUint(4, bytes);
    DecodeItems(n, decode, rest)
  }

  /** Whatever follows, decoding gives the item back and leaves what follows. */
  ghost predicate RoundTrips<T(!new)>(x: T, encode: T -> seq<byte>, decode: seq<byte> -> Decoded<T>) {
    forall rest :: decode(encode(x) + rest) == Ok((x, rest))
  }

  lemma {:induction false} ItemsRoundTrip<T(!new)>(items: seq<T>, encode: T -> seq<byte>,
      decode: seq<byte> -> Decoded<T>, rest: seq<byte>)
    requires forall x :: x in items ==> RoundTrips(x, encode, decode)
    ensures DecodeItems(|items|, decode, EncodeItems(items, encode) + rest) == Ok((items, rest))
    decreases |items|
  {
    if items == [] {
      assert EncodeItems(items, encode) + rest == rest;
    } else {
      var tail := EncodeItems(items[1..], encode) + rest;
      assert EncodeItems(items, encode) + rest == encode(items[0]) + tail;
      assert RoundTrips(items[0], encode, decode);
      ItemsRoundTrip(items[1..], encode, decode, rest);
      assert [items[0]] + items[1..] == items;
    }
  }

  lemma VectorRoundTrip<T(!new)>(items: seq<T>, encode: T -> seq<byte>, decode: seq<byte> -> Decoded<T>,
      rest: seq<byte>)
    requires |items| < VECTOR_LIMIT
    requires forall x :: x in items ==> RoundTrips(x, encode, decode)
    ensures DecodeVector(decode, EncodeVector(items, encode) + rest) == Ok((items, rest))
  {
    var tail := EncodeItems(items, encode) + rest;
    assert EncodeVector(items, encode) + rest == EncodeUint(4, |items|) + tail;
    Power256Of8();
    UintRoundTrip(4, |items|, tail);
    ItemsRoundTrip(items, encode, decode, rest);
  }

  // ---- Instructions -------------------------------------------------------------------------------------

  datatype AccountMeta = AccountMeta(pubkey: Key, isSigner: bool, isWritable: bool)

  datatype InstructionData = InstructionData(programId: Key, accounts: seq<AccountMeta>, data: seq<byte>)

  function EncodeMeta(m: AccountMeta): (bytes: seq<byte>)
    ensures |bytes| == 34
  {
    m.pubkey + (EncodeBool(m.isSigner) + EncodeBool(m.isWritable))
  }

  function DecodeMeta(bytes: seq<byte>): Decoded<AccountMeta> {
    var (pubkey, rest) :- Take(32, bytes);
    var (isSigner, rest) :- DecodeBool(rest);
    var (isWritable, rest) :- DecodeBool(rest);
    Ok((AccountMeta(pubkey, isSigner, isWritable), rest))
  }

  function EncodeByte(b: byte): seq<byte> {
    [b]
  }

  function DecodeByte(bytes: seq<byte>): Decoded<byte> {
    if bytes == [] then Err(UnexpectedEnd) else Ok((bytes[0], bytes[1..]))
  }

  function EncodeInstruction(i: InstructionData): seq<byte> {
    i.programId + (EncodeVector(i.accounts, EncodeMeta) + EncodeVector(i.data, EncodeByte))
  }

  function DecodeInstruction(bytes: seq<byte>): Decoded<InstructionData> {
    var (programId, rest) :- Take(32, bytes);
    var (accounts, rest) :- DecodeVector(DecodeMeta, rest);
    var (data, rest) :- DecodeVector(DecodeByte, rest);
    Ok((InstructionData(programId, accounts, data), rest))
  }

  /** Vectors longer than u32 have no encoding. */
  predicate Encodable(i: InstructionData) {
    |i.accounts| < VECTOR_LIMIT && |i.data| < VECTOR_LIMIT
  }

  lemma TakeRoundTrip(a: seq<byte>, rest: seq<byte>)
    ensures Take(|a|, a + rest) == Ok((a, rest))
  {
  }

  lemma MetaRoundTrips(m: AccountMeta)
    ensures RoundTrips(m, EncodeMeta, DecodeMeta)
  {
    forall rest: seq<byte>
      ensures DecodeMeta(EncodeMeta(m) + rest) == Ok((m, rest))
    {
      var flags := EncodeBool(m.isSigner) + EncodeBool(m.isWritable);
      assert EncodeMeta(m) + rest == m.pubkey + (flags + rest);
      TakeRoundTrip(m.pubkey, flags + rest);
      assert (flags + rest)[1..] == EncodeBool(m.isWritable) + rest;
      assert (EncodeBool(m.isWritable) + rest)[1..] == rest;
    }
  }

  lemma ByteRoundTrips(b: byte)
    ensures RoundTrips(b, EncodeByte, DecodeByte)
  {
  }

  lemma InstructionRoundTrips(i: InstructionData)
    requires Encodable(i)
    ensures RoundTrips(i, EncodeInstruction, DecodeInstruction)
  {
    hide DecodeVector, EncodeVector;
    forall rest: seq<byte>
      ensures DecodeInstruction(EncodeInstruction(i) + rest) == Ok((i, rest))
    {
      var (accounts, data) := (EncodeVector(i.accounts, EncodeMeta), EncodeVector(i.data, EncodeByte));
      assert EncodeInstruction(i) + rest == i.programId + (accounts + (data + rest));
      TakeRoundTrip(i.programId, accounts + (data + rest));
      forall m | m in i.accounts
        ensures RoundTrips(m, EncodeMeta, DecodeMeta)
      {
        MetaRoundTrips(m);
      }
      VectorRoundTrip(i.accounts, EncodeMeta, DecodeMeta, data + rest);
      forall b | b in i.data
        ensures RoundTrips(b, EncodeByte, DecodeByte)
      {
        ByteRoundTrips(b);
      }
      VectorRoundTrip(i.data, EncodeByte, DecodeByte, rest);
    }
  }

  // ---- Sizes ----------------------------------------------------------------------------------------------

  lemma {:induction false} ItemsSize<T>(items: seq<T>, encode: T -> seq<byte>, size: nat)
    requires forall x :: x in items ==> |encode(x)| == size
    ensures |EncodeItems(items, encode)| == |items| * size
    decreases |items|
  {
    if items != [] {
      ItemsSize(items[1..], encode, size);
      assert |items| * size == (|items| - 1) * size + size;
    }
  }

  /** `accounts.len() * 34 + data.len() + 40`. */
  lemma InstructionSize(i: InstructionData)
    ensures |EncodeInstruction(i)| == |i.accounts| * 34 + |i.data| + 40
  {
    ItemsSize(i.accounts, EncodeMeta, 34);
    ItemsSize(i.data, EncodeByte, 1);
  }

  function InstructionsSize(instructions: seq<InstructionData>): nat {
    if instructions == [] then 0
    else |instructions[0].accounts| * 34 + |instructions[0].data| + 40 + InstructionsSize(instructions[1..])
  }

  lemma {:induction false} EncodedInstructionsSize(instructions: seq<InstructionData>)
    ensures |EncodeItems(instructions, EncodeInstruction)| == InstructionsSize(instructions)
  {
    if instructions != [] {
      InstructionSize(instructions[0]);
      EncodedInstructionsSize(instructions[1..]);
    }
  }

  // ---- Proposal transactions ----------------------------------------------------------------------------

  type AccountType = b: byte | b < 25

  const PROPOSAL_INSTRUCTION_V1: AccountType := 8
  const PROPOSAL_TRANSACTION_V2: AccountType := 13

  type Status = b: byte | b < 3

  const SUCCESS: Status := 1

  type U16 = v: nat | v < 0x1_0000
  type U32 = v: nat | v < 0x1_0000_0000
  type Reserved = r: seq<byte> | |r| == 8 witness seq(8, _ => 0)

  datatype TransactionV2 = TransactionV2(
    accountType: AccountType,
    proposal: Key,
    optionIndex: byte,
    transactionIndex: U16,
    legacy: U32,
    instructions: seq<InstructionData>,
    executedAt: Option<I64>,
    executionStatus: Status,
    reserved: Reserved)

  datatype InstructionV1 = InstructionV1(
    accountType: AccountType,
    proposal: Key,
    instructionIndex: U16,
    legacy: U32,
    instruction: InstructionData,
    executedAt: Option<I64>,
    executionStatus: Status)

  predicate AllEncodable(t: TransactionV2) {
    |t.instructions| < VECTOR_LIMIT && forall i :: i in t.instructions ==> Encodable(i)
  }

  function EncodeFooter(t: TransactionV2): seq<byte> {
    EncodeTime(t.executedAt) + ([t.executionStatus] + t.reserved)
  }

  function EncodeV2(t: TransactionV2): seq<byte> {
    [t.accountType] + (t.proposal + ([t.optionIndex] + (EncodeUint(2, t.transactionIndex) + (EncodeUint(4, t.legacy)
      + (EncodeVector(t.instructions, EncodeInstruction) + EncodeFooter(t))))))
  }

  function DecodeFooter(bytes: seq<byte>): Decoded<(Option<I64>, Status, Reserved)> {
    var (executedAt, rest) :- DecodeTime(bytes);
    var (executionStatus, rest) :- DecodeTag(3, rest);
    var (reserved, rest) :- Take(8, rest);
    Ok(((executedAt, executionStatus, reserved), rest))
  }

  function DecodeV2(bytes: seq<byte>): Decoded<TransactionV2> {
    var (accountType, rest) :- DecodeTag(25, bytes);
    var (proposal, rest) :- Take(32, rest);
    var (optionIndex, rest) :- DecodeByte(rest);
    var (transactionIndex, rest) :- DecodeUint(2, rest);
    var (legacy, rest) :- DecodeUint(4, rest);
    var (instructions, rest) :- DecodeVector(DecodeInstruction, rest);
    var ((executedAt, executionStatus, reserved), rest) :- DecodeFooter(rest);
    Power256Of8();
    Ok((TransactionV2(accountType, proposal, optionIndex, transactionIndex, legacy, instructions, executedAt,
        executionStatus, reserved), rest))
  }

  function EncodeV1(t: InstructionV1): seq<byte> {
    [t.accountType] + (t.proposal + (EncodeUint(2, t.instructionIndex) + (EncodeUint(4, t.legacy)
      + (EncodeInstruction(t.instruction) + (EncodeTime(t.executedAt) + [t.executionStatus])))))
  }

  function DecodeV1(bytes: seq<byte>): Decoded<InstructionV1> {
    var (accountType, rest) :- DecodeTag(25, bytes);
    var (proposal, rest) :- Take(32, rest);
    var (instructionIndex, rest) :- DecodeUint(2, rest);
    var (legacy, rest) :- DecodeUint(4, rest);
    var (instruction, rest) :- DecodeInstruction(rest);
    var (executedAt, rest) :- DecodeTime(rest);
    var (executionStatus, rest) :- DecodeTag(3, rest);
    Power256Of8();
    Ok((InstructionV1(accountType, proposal, instructionIndex, legacy, instruction, executedAt, executionStatus), rest))
  }

  // ---- Round trips ------------------------------------------------------------------------------------------

  lemma TagRoundTrip(variants: nat, tag: byte, rest: seq<byte>)
    requires tag < variants
    ensures DecodeTag(variants, [tag] + rest) == Ok((tag, rest)) && DecodeByte([tag] + rest) == Ok((tag, rest))
  {
  }

  lemma FooterRoundTrip(t: TransactionV2, rest: seq<byte>)
    ensures DecodeFooter(EncodeFooter(t) + rest) == Ok(((t.executedAt, t.executionStatus, t.reserved), rest))
  {
    hide EncodeTime, DecodeTime, DecodeTag, Take;
    assert EncodeFooter(t) + rest == EncodeTime(t.executedAt) + ([t.executionStatus] + (t.reserved + rest));
    TimeRoundTrip(t.executedAt, [t.executionStatus] + (t.reserved + rest));
    TagRoundTrip(3, t.executionStatus, t.reserved + rest);
    TakeRoundTrip(t.reserved, rest);
  }

  /** Reading a written transaction gives it back, whatever bytes follow it in the account. */
  lemma V2RoundTrips(t: TransactionV2, rest: seq<byte>)
    requires AllEncodable(t)
    ensures DecodeV2(EncodeV2(t) + rest) == Ok((t, rest))
  {
    hide EncodeUint, DecodeUint, EncodeVector, DecodeVector, EncodeFooter, DecodeFooter, DecodeTag, DecodeByte, Take,
         EncodeInstruction, DecodeInstruction;
    var footer := EncodeFooter(t) + rest;
    var body := EncodeVector(t.instructions, EncodeInstruction) + footer;
    var legacy := EncodeUint(4, t.legacy) + body;
    var index := EncodeUint(2, t.transactionIndex) + legacy;
    var option := [t.optionIndex] + index;
    assert EncodeV2(t) + rest == [t.accountType] + (t.proposal + option);
    TagRoundTrip(25, t.accountType, t.proposal + option);
    TakeRoundTrip(t.proposal, option);
    TagRoundTrip(256, t.optionIndex, index);
    Power256Of8();
    UintRoundTrip(2, t.transactionIndex, legacy);
    UintRoundTrip(4, t.legacy, body);
    forall i | i in t.instructions
      ensures RoundTrips(i, EncodeInstruction, DecodeInstruction)
    {
      InstructionRoundTrips(i);
    }
    VectorRoundTrip(t.instructions, EncodeInstruction, DecodeInstruction, footer);
    FooterRoundTrip(t, rest);
  }

  lemma V1RoundTrips(t: InstructionV1, rest: seq<byte>)
    requires Encodable(t.instruction)
    ensures DecodeV1(EncodeV1(t) + rest) == Ok((t, rest))
  {
    hide EncodeUint, DecodeUint, EncodeTime, DecodeTime, DecodeTag, Take, EncodeInstruction, DecodeInstruction;
    var status := [t.executionStatus] + rest;
    var time := EncodeTime(t.executedAt) + status;
    var body := EncodeInstruction(t.instruction) + time;
    var legacy := EncodeUint(4, t.legacy) + body;
    var index := EncodeUint(2, t.instructionIndex) + legacy;
    assert EncodeV1(t) + rest == [t.accountType] + (t.proposal + index);
    TagRoundTrip(25, t.accountType, t.proposal + index);
    TakeRoundTrip(t.proposal, index);
    Power256Of8();
    UintRoundTrip(2, t.instructionIndex, legacy);
    UintRoundTrip(4, t.legacy, body);
    InstructionRoundTrips(t.instruction);
    assert RoundTrips(t.instruction, EncodeInstruction, DecodeInstruction);
    TimeRoundTrip(t.executedAt, status);
    TagRoundTrip(3, t.executionStatus, rest);
  }

  // ---- The encoding is canonical --------------------------------------------------------------------------

  /** Bytes that decode are the encoding of what they decode to, followed by what is left. */
  ghost predicate Canonical<T(!new)>(encode: T -> seq<byte>, decode: seq<byte> -> Decoded<T>) {
    forall bytes :: decode(bytes).Ok? ==> encode(decode(bytes).value.0) + decode(bytes).value.1 == bytes
  }

  lemma {:induction false} UintCanonical(width: nat, bytes: seq<byte>)
    requires DecodeUint(width, bytes).Ok?
    ensures var (v, rest) := DecodeUint(width, bytes).value; EncodeUint(width, v) + rest == bytes
  {
    if width > 0 {
      UintCanonical(width - 1, bytes[1..]);
      var (v, rest) := DecodeUint(width, bytes).value;
      var (high, _) := DecodeUint(width - 1, bytes[1..]).value;
      assert v % 256 == bytes[0] && v / 256 == high;
      assert EncodeUint(width, v) + rest == [bytes[0]] + (EncodeUint(width - 1, high) + rest);
    }
  }

  lemma TimeCanonical(bytes: seq<byte>)
    requires DecodeTime(bytes).Ok?
    ensures var (t, rest) := DecodeTime(bytes).value; EncodeTime(t) + rest == bytes
  {
    hide DecodeUint, EncodeUint, ToBits, FromBits;
    var (t, rest) := DecodeTime(bytes).value;
    if t.Some? {
      UintCanonical(8, bytes[1..]);
      var bits := DecodeUint(8, bytes[1..]).value.0;
      Power256Of8();
      SignedRoundTrip(0, bits);
      assert EncodeTime(t) + rest == [bytes[0]] + (EncodeUint(8, bits) + rest);
    }
  }

  lemma {:induction false} ItemsCanonical<T(!new)>(n: nat, encode: T -> seq<byte>, decode: seq<byte> -> Decoded<T>,
      bytes: seq<byte>)
    requires Canonical(encode, decode) && DecodeItems(n, decode, bytes).Ok?
    ensures var (items, rest) := DecodeItems(n, decode, bytes).value;
            |items| == n && EncodeItems(items, encode) + rest == bytes
    decreases n
  {
    if n > 0 {
      var (item, tail) := decode(bytes).value;
      assert encode(item) + tail == bytes;
      ItemsCanonical(n - 1, encode, decode, tail);
      var (items, rest) := DecodeItems(n - 1, decode, tail).value;
      assert ([item] + items)[1..] == items;
      assert EncodeItems([item] + items, encode) + rest == encode(item) + (EncodeItems(items, encode) + rest);
    }
  }

  lemma VectorCanonical<T(!new)>(encode: T -> seq<byte>, decode: seq<byte> -> Decoded<T>, bytes: seq<byte>)
    requires Canonical(encode, decode) && DecodeVector(decode, bytes).Ok?
    ensures var (items, rest) := DecodeVector(decode, bytes).value;
            |items| < VECTOR_LIMIT && EncodeVector(items, encode) + rest == bytes
  {
    hide DecodeUint, EncodeUint, DecodeItems, EncodeItems, Canonical;
    UintCanonical(4, bytes);
    Power256Of8();
    var (n, tail) := DecodeUint(4, bytes).value;
    ItemsCanonical(n, encode, decode, tail);
    var (items, rest) := DecodeItems(n, decode, tail).value;
    assert EncodeVector(items, encode) + rest == EncodeUint(4, n) + (EncodeItems(items, encode) + rest);
  }

  lemma ElementsCanonical()
    ensures Canonical(EncodeByte, DecodeByte) && Canonical(EncodeMeta, DecodeMeta)
  {
  }

  lemma InstructionCanonical()
    ensures Canonical(EncodeInstruction, DecodeInstruction)
    ensures forall bytes :: DecodeInstruction(bytes).Ok? ==> Encodable(DecodeInstruction(bytes).value.0)
  {
    hide DecodeVector, EncodeVector, Canonical;
    ElementsCanonical();
    forall bytes: seq<byte> | DecodeInstruction(bytes).Ok?
      ensures EncodeInstruction(DecodeInstruction(bytes).value.0) + DecodeInstruction(bytes).value.1 == bytes
      ensures Encodable(DecodeInstruction(bytes).value.0)
    {
      var (i, rest) := DecodeInstruction(bytes).value;
      var tail := bytes[32..];
      VectorCanonical(EncodeMeta, DecodeMeta, tail);
      var (accounts, tail') := DecodeVector(DecodeMeta, tail).value;
      VectorCanonical(EncodeByte, DecodeByte, tail');
      assert EncodeInstruction(i) + rest
          == i.programId + (EncodeVector(accounts, EncodeMeta) + (EncodeVector(i.data, EncodeByte) + rest));
    }
    assert Canonical(EncodeInstruction, DecodeInstruction) by {
      CanonicalFrom(EncodeInstruction, DecodeInstruction);
    }
  }

  lemma CanonicalFrom<T(!new)>(encode: T -> seq<byte>, decode: seq<byte> -> Decoded<T>)
    requires forall bytes :: decode(bytes).Ok? ==> encode(decode(bytes).value.0) + decode(bytes).value.1 == bytes
    ensures Canonical(encode, decode)
  {
  }

  lemma FooterCanonical(bytes: seq<byte>, t: TransactionV2)
    requires DecodeFooter(bytes).Ok? && DecodeFooter(bytes).value.0 == (t.executedAt, t.executionStatus, t.reserved)
    ensures EncodeFooter(t) + DecodeFooter(bytes).value.1 == bytes
  {
    hide EncodeTime, DecodeTime;
    TimeCanonical(bytes);
    var (time, tail) := DecodeTime(bytes).value;
    var rest := DecodeFooter(bytes).value.1;
    assert tail == [tail[0]] + (tail[1..9] + rest);
    assert EncodeFooter(t) + rest == EncodeTime(time) + ([t.executionStatus] + (t.reserved + rest));
  }

  /** Account data that reads as a V2 transaction is that transaction's encoding, followed by the unread bytes. */
  lemma V2Canonical(bytes: seq<byte>)
    requires DecodeV2(bytes).Ok?
    ensures var (t, rest) := DecodeV2(bytes).value; AllEncodable(t) && EncodeV2(t) + rest == bytes
  {
    hide DecodeUint, EncodeUint, DecodeVector, EncodeVector, DecodeFooter, EncodeFooter, DecodeInstruction,
         EncodeInstruction, Encodable, Canonical;
    var (t, rest) := DecodeV2(bytes).value;
    var indexed := bytes[34..];
    UintCanonical(2, indexed);
    var legacy := DecodeUint(2, indexed).value.1;
    UintCanonical(4, legacy);
    var body := DecodeUint(4, legacy).value.1;
    InstructionCanonical();
    VectorCanonical(EncodeInstruction, DecodeInstruction, body);
    var footer := DecodeVector(DecodeInstruction, body).value.1;
    FooterCanonical(footer, t);
    assert bytes == [bytes[0]] + (bytes[1..33] + ([bytes[33]] + indexed));
    assert EncodeV2(t) + rest
        == [t.accountType]
        + (t.proposal + ([t.optionIndex] + (EncodeUint(2, t.transactionIndex) + (EncodeUint(4, t.legacy)
      + (EncodeVector(t.instructions, EncodeInstruction) + (EncodeFooter(t) + rest))))));
    DecodedInstructionsEncodable(body);
  }

  lemma DecodedInstructionsEncodable(bytes: seq<byte>)
    requires DecodeVector(DecodeInstruction, bytes).Ok?
    ensures forall i :: i in DecodeVector(DecodeInstruction, bytes).value.0 ==> Encodable(i)
  {
    hide DecodeUint, DecodeItems, DecodeInstruction, Encodable;
    var (n, tail) := DecodeUint(4, bytes).value;
    DecodedItemsEncodable(n, tail);
  }

  lemma {:induction false} DecodedItemsEncodable(n: nat, bytes: seq<byte>)
    requires DecodeItems(n, DecodeInstruction, bytes).Ok?
    ensures forall i :: i in DecodeItems(n, DecodeInstruction, bytes).value.0 ==> Encodable(i)
    decreases n
  {
    hide DecodeInstruction, Encodable;
    if n > 0 {
      InstructionCanonical();
      DecodedItemsEncodable(n - 1, DecodeInstruction(bytes).value.1);
    }
  }

  // ---- Accounts ---------------------------------------------------------------------------------------------

  /** `get_max_size`: the size an account is created with. */
  function MaxSize(t: TransactionV2): nat {
    InstructionsSize(t.instructions) + 62
  }

  const UNUSED: Reserved := [0, 0, 0, 0, 0, 0, 0, 0]

  function ToV1(t: TransactionV2): InstructionV1
    requires |t.instructions| == 1
  {
    InstructionV1(t.accountType, t.proposal, t.transactionIndex, t.legacy, t.instructions[0], t.executedAt,
        t.executionStatus)
  }

  /** V1 has one implied option at index 0. */
  function ToV2(t: InstructionV1): TransactionV2 {
    TransactionV2(t.accountType, t.proposal, 0, t.instructionIndex, t.legacy, [t.instruction], t.executedAt,
        t.executionStatus, UNUSED)
  }

  /** What `serialize` emits: V2 as it is, V1 translated back to its own layout, nothing for any other account type. */
  function Emitted(t: TransactionV2): Result<seq<byte>, LayoutError> {
    if t.accountType == PROPOSAL_TRANSACTION_V2 then
      if AllEncodable(t) then Ok(EncodeV2(t)) else Err(TooLong)
    else if t.accountType == PROPOSAL_INSTRUCTION_V1 then
      if |t.instructions| != 1 || t.reserved != UNUSED then Err(Panicked)
      else if Encodable(t.instructions[0]) then Ok(EncodeV1(ToV1(t)))
      else Err(TooLong)
    else Ok([])
  }

  /** The account data after serializing into it: the emitted bytes in front, the old bytes behind them. */
  function Written(t: TransactionV2, account: seq<byte>): Result<seq<byte>, LayoutError> {
    var bytes :- Emitted(t);
    if |bytes| <= |account| then Ok(bytes + account[|bytes|..]) else Err(BufferTooSmall)
  }

  /** `get_proposal_transaction_data`, for an account of the program. */
  function GetTransaction(account: seq<byte>): Result<TransactionV2, LayoutError> {
    var (accountType, _) :- DecodeTag(25, account);
    if accountType == PROPOSAL_INSTRUCTION_V1 then
      var (v1, _) :- DecodeV1(account);
      Ok(ToV2(v1))
    else
      var (v2, _) :- DecodeV2(account);
      if v2.accountType == PROPOSAL_TRANSACTION_V2 then Ok(v2) else Err(Uninitialized)
  }

  /** Bytes are copied to the front of the buffer if there is room for all of them. */
  method CopyInto(bytes: seq<byte>, account: array<byte>) returns (r: Result<(), LayoutError>)
    modifies account
    ensures if |bytes| <= account.Length then r == Ok(()) && account[..] == bytes + old(account[..])[|bytes|..]
            else r == Err(BufferTooSmall) && account[..] == old(account[..])
  {
    if |bytes| > account.Length {
      return Err(BufferTooSmall);
    }
    for i := 0 to |bytes|
      invariant forall k :: 0 <= k < i ==> account[k] == bytes[k]
      invariant forall k :: i <= k < account.Length ==> account[k] == old(account[k])
    {
      account[i] := bytes[i];
    }
    return Ok(());
  }

  method Serialize(t: TransactionV2, account: array<byte>) returns (r: Result<(), LayoutError>)
    modifies account
    ensures match Written(t, old(account[..]))
            case Ok(data) => r == Ok(()) && account[..] == data
            case Err(e) => r == Err(e) && account[..] == old(account[..])
  {
    hide Emitted;
    var bytes :- Emitted(t);
    r := CopyInto(bytes, account);
  }

  /** The maximum size is the exact size of an executed transaction, and 8 bytes more than that of any other. */
  lemma EncodedSize(t: TransactionV2)
    ensures |EncodeV2(t)| == MaxSize(t) - if t.executedAt.Some? then 0 else 8
  {
    EncodedInstructionsSize(t.instructions);
  }

  /** An account type comes first in both layouts. */
  lemma TypeComesFirst(t: TransactionV2, v1: InstructionV1, rest: seq<byte>)
    ensures var r := DecodeTag(25, EncodeV2(t) + rest); r.Ok? && r.value.0 == t.accountType
    ensures var r := DecodeTag(25, EncodeV1(v1) + rest); r.Ok? && r.value.0 == v1.accountType
  {
    hide EncodeUint, EncodeVector, EncodeFooter, EncodeInstruction, EncodeTime;
  }

  /** What was written can be read back, in both layouts. */
  lemma WrittenIsRead(t: TransactionV2, account: seq<byte>)
    requires Written(t, account).Ok?
    requires t.accountType == PROPOSAL_TRANSACTION_V2
        || (t.accountType == PROPOSAL_INSTRUCTION_V1 && t.optionIndex == 0)
    ensures GetTransaction(Written(t, account).value) == Ok(t)
  {
    hide EncodeV2, DecodeV2, EncodeV1, DecodeV1, DecodeTag, AllEncodable, Encodable;
    var rest := account[|Emitted(t).value|..];
    if t.accountType == PROPOSAL_TRANSACTION_V2 {
      V2RoundTrips(t, rest);
      TypeComesFirst(t, InstructionV1(0, t.proposal, 0, 0, InstructionData(t.proposal, [], []), None, 0), rest);
    } else {
      assert t.instructions == [t.instructions[0]];
      V1RoundTrips(ToV1(t), rest);
      TypeComesFirst(t, ToV1(t), rest);
    }
  }

  /** A V1 account read, translated and written back unchanged has the same data. */
  lemma V1SurvivesTranslation(v1: InstructionV1, rest: seq<byte>)
    requires v1.accountType == PROPOSAL_INSTRUCTION_V1 && Encodable(v1.instruction)
    ensures GetTransaction(EncodeV1(v1) + rest) == Ok(ToV2(v1))
    ensures Written(ToV2(v1), EncodeV1(v1) + rest) == Ok(EncodeV1(v1) + rest)
  {
    hide EncodeV2, DecodeV2, EncodeV1, DecodeV1, DecodeTag, AllEncodable, Encodable;
    V1RoundTrips(v1, rest);
    TypeComesFirst(ToV2(v1), v1, rest);
    assert ToV1(ToV2(v1)) == v1;
    assert (EncodeV1(v1) + rest)[|EncodeV1(v1)|..] == rest;
  }

  /**
   The account created at insertion has room for the transaction as inserted and, later, for
   the executed one, which fills it to the last byte.
   */
  lemma ExecutionWriteBackFits(t: TransactionV2, created: seq<byte>, executedAt: I64)
    requires t.accountType == PROPOSAL_TRANSACTION_V2 && AllEncodable(t) && t.executedAt.None?
    requires |created| == MaxSize(t)
    ensures var executed := t.(executedAt := Some(executedAt), executionStatus := SUCCESS);
            && Written(t, created).Ok?
            && Written(executed, Written(t, created).value) == Ok(EncodeV2(executed))
            && GetTransaction(EncodeV2(executed)) == Ok(executed)
  {
    hide EncodeV2, GetTransaction, MaxSize;
    var executed := t.(executedAt := Some(executedAt), executionStatus := SUCCESS);
    EncodedSize(t);
    EncodedSize(executed);
    assert MaxSize(executed) == MaxSize(t) by {
      SameMaxSize(t, executed);
    }
    assert AllEncodable(executed);
    var account := Written(t, created).value;
    assert Written(executed, account).value == EncodeV2(executed);
    WrittenIsRead(executed, account);
  }

  lemma SameMaxSize(t: TransactionV2, u: TransactionV2)
    requires t.instructions == u.instructions
    ensures MaxSize(t) == MaxSize(u)
  {
  }
}
