/** The Solana legacy and v0 message formats: an encoder, a parser, and the
    theorem that the parser undoes the encoder. */
module WireFormat {
  import opened Common

  type Key = b: Bytes | |b| == 32 witness seq(32, _ => 0)
  type Signature = b: Bytes | |b| == 64 witness seq(64, _ => 0)

  /** A parse is a value and the bytes left over. */
  type Parse<+T> = Option<(T, Bytes)>

  // ---------------------------------------------------------------- compact-u16

  /** Seven bits a byte, low bits first, high bit set on all but the last. */
  function ShortVec(n: nat): (b: Bytes)
    ensures |b| >= 1
    ensures |b| == ShortVecLen(n)
  {
    if n < 128 then [n] else [n % 128 + 128] + ShortVec(n / 128)
  }

  function ShortVecLen(n: nat): nat {
    if n < 128 then 1 else 1 + ShortVecLen(n / 128)
  }

  lemma {:induction false} ShortVecLenU16(n: nat)
    requires n < 0x1_0000
    ensures ShortVecLen(n) == if n < 0x80 then 1 else if n < 0x4000 then 2 else 3
  {
    assert n >= 0x80 ==> ShortVecLen(n) == 1 + ShortVecLen(n / 128);
    assert n >= 0x4000 ==> ShortVecLen(n / 128) == 1 + ShortVecLen(n / 128 / 128);
  }

  /** Reads at most `fuel` bytes; refuses a padding zero in last place. */
  function ParseShortVecBytes(b: Bytes, fuel: nat, first: bool): Parse<nat>
    decreases fuel
  {
    if fuel == 0 || b == [] then None
    else if b[0] < 128 then
      if b[0] == 0 && !first then None else Some((b[0], b[1..]))
    else match ParseShortVecBytes(b[1..], fuel - 1, false)
      case None => None
      case Some((hi, rest)) => Some((b[0] - 128 + 128 * hi, rest))
  }

  /** Compact-u16: three bytes at most, value below 2^16, no padding. */
  function ParseShortVec(b: Bytes): Parse<nat> {
    match ParseShortVecBytes(b, 3, true)
    case None => None
    case Some((n, rest)) => if n < 0x1_0000 then Some((n, rest)) else None
  }

  function Pow128(k: nat): nat {
    if k == 0 then 1 else 128 * Pow128(k - 1)
  }

  lemma {:induction false} ShortVecBytesRoundTrip(n: nat, rest: Bytes, fuel: nat, first: bool)
    requires n < Pow128(fuel) && (n > 0 || first) && fuel > 0
    ensures ParseShortVecBytes(ShortVec(n) + rest, fuel, first) == Some((n, rest))
    decreases fuel
  {
    var b := ShortVec(n) + rest;
    if n < 128 {
      assert b[1..] == rest;
    } else {
      assert b[1..] == ShortVec(n / 128) + rest;
      ShortVecBytesRoundTrip(n / 128, rest, fuel - 1, false);
    }
  }

  lemma {:induction false} ShortVecBytesCanonical(b: Bytes, fuel: nat, first: bool)
    requires ParseShortVecBytes(b, fuel, first).Some?
    ensures
      var (n, rest) := ParseShortVecBytes(b, fuel, first).value;
      b == ShortVec(n) + rest && (n > 0 || first)
    decreases fuel
  {
    if b[0] < 128 {
      assert b == [b[0]] + b[1..];
    } else {
      ShortVecBytesCanonical(b[1..], fuel - 1, false);
      assert b == [b[0]] + b[1..];
    }
  }

  /** Every length has exactly one encoding: the parser reads back what the
      encoder wrote, and accepts nothing else. */
  lemma {:induction false} ShortVecRoundTrip(n: nat, rest: Bytes)
    requires n < 0x1_0000
    ensures ParseShortVec(ShortVec(n) + rest) == Some((n, rest))
  {
    assert Pow128(3) == 128 * 128 * 128;
    ShortVecBytesRoundTrip(n, rest, 3, true);
  }

  lemma {:induction false} ShortVecCanonical(b: Bytes)
    requires ParseShortVec(b).Some?
    ensures b == ShortVec(ParseShortVec(b).value.0) + ParseShortVec(b).value.1
  {
    ShortVecBytesCanonical(b, 3, true);
  }

  /** A collection's length as the builders print it, `as u16` included. */
  function Count(n: nat): (b: Bytes)
    ensures |b| == ShortVecLen(n % 0x1_0000)
  {
    ShortVec(n % 0x1_0000)
  }

  lemma {:induction false} CountRoundTrip(n: nat, rest: Bytes)
    requires n < 0x1_0000
    ensures ParseShortVec(Count(n) + rest) == Some((n, rest))
  {
    ShortVecRoundTrip(n, rest);
  }

  lemma {:induction false} ParsedCountFits(b: Bytes)
    ensures ParseShortVec(b).Some? ==> ParseShortVec(b).value.0 < 0x1_0000
  {
  }

  // ---------------------------------------------------------------- little-endian integers

  function Le(n: nat, k: nat): (b: Bytes)
    ensures |b| == k
  {
    if k == 0 then [] else [n % 256] + Le(n / 256, k - 1)
  }

  function FromLe(b: Bytes): nat {
    if b == [] then 0 else b[0] + 256 * FromLe(b[1..])
  }

  function Pow256(k: nat): nat {
    if k == 0 then 1 else 256 * Pow256(k - 1)
  }

  lemma {:induction false} LeRoundTrip(n: nat, k: nat)
    requires n < Pow256(k)
    ensures FromLe(Le(n, k)) == n
    decreases k
  {
    if k > 0 {
      LeRoundTrip(n / 256, k - 1);
      assert Le(n, k)[1..] == Le(n / 256, k - 1);
    }
  }

  lemma {:induction false} LeU64RoundTrip(n: nat)
    requires n < U64
    ensures FromLe(Le(n, 8)) == n
  {
    assert Pow256(4) == U32;
    assert Pow256(8) == U64;
    LeRoundTrip(n, 8);
  }

  lemma {:induction false} LeU32RoundTrip(n: nat)
    requires n < U32
    ensures FromLe(Le(n, 4)) == n
  {
    assert Pow256(4) == U32;
    LeRoundTrip(n, 4);
  }

  // ---------------------------------------------------------------- building blocks

  function Take(b: Bytes, n: nat): Parse<Bytes> {
    if n <= |b| then Some((b[..n], b[n..])) else None
  }

  lemma {:induction false} TakeRoundTrip(a: Bytes, rest: Bytes)
    ensures Take(a + rest, |a|) == Some((a, rest))
  {
  }

  /** A length-prefixed byte string. */
  function EncBytes(b: Bytes): Bytes {
    Count(|b|) + b
  }

  function ParseBytes(b: Bytes): Parse<Bytes> {
    match ParseShortVec(b)
    case None => None
    case Some((n, rest)) => Take(rest, n)
  }

  lemma {:induction false} BytesRoundTrip(a: Bytes, rest: Bytes)
    requires |a| < 0x1_0000
    ensures ParseBytes(EncBytes(a) + rest) == Some((a, rest))
  {
    CountRoundTrip(|a|, a + rest);
    assert EncBytes(a) + rest == Count(|a|) + (a + rest);
    TakeRoundTrip(a, rest);
  }

  function EncMany<T>(enc: T -> Bytes, xs: seq<T>): Bytes {
    if xs == [] then [] else enc(xs[0]) + EncMany(enc, xs[1..])
  }

  function ParseMany<T>(parse: Bytes -> Parse<T>, n: nat, b: Bytes): Parse<seq<T>> {
    if n == 0 then Some(([], b))
    else match parse(b)
      case None => None
      case Some((x, rest)) => match ParseMany(parse, n - 1, rest)
        case None => None
        case Some((xs, rest')) => Some(([x] + xs, rest'))
  }

  /** If one element parses back in front of anything, so does a run of them. */
  lemma {:induction false} ManyRoundTrip<T(!new)>(enc: T -> Bytes, parse: Bytes -> Parse<T>, xs: seq<T>, rest: Bytes)
    requires forall x, r :: x in xs ==> parse(enc(x) + r) == Some((x, r))
    ensures ParseMany(parse, |xs|, EncMany(enc, xs) + rest) == Some((xs, rest))
    decreases xs
  {
    var b := EncMany(enc, xs) + rest;
    if xs == [] {
      assert b == rest;
    } else {
      assert b == enc(xs[0]) + (EncMany(enc, xs[1..]) + rest);
      ManyRoundTrip(enc, parse, xs[1..], rest);
      assert [xs[0]] + xs[1..] == xs;
    }
  }

  lemma {:induction false} EncManySnoc<T>(enc: T -> Bytes, xs: seq<T>, x: T)
    ensures EncMany(enc, xs + [x]) == EncMany(enc, xs) + enc(x)
    decreases xs
  {
    if xs == [] {
      assert xs + [x] == [x];
    } else {
      assert (xs + [x])[1..] == xs[1..] + [x];
      EncManySnoc(enc, xs[1..], x);
    }
  }

  lemma {:induction false} EncManySplit<T>(enc: T -> Bytes, xs: seq<T>, k: nat)
    requires k <= |xs|
    ensures EncMany(enc, xs) == EncMany(enc, xs[..k]) + EncMany(enc, xs[k..])
    decreases xs
  {
    if k == 0 {
      assert xs[0..] == xs;
    } else {
      EncManySplit(enc, xs[1..], k - 1);
      assert xs[..k][1..] == xs[1..][..k - 1] && xs[1..][k - 1..] == xs[k..];
      Assoc(enc(xs[0]), EncMany(enc, xs[1..][..k - 1]), EncMany(enc, xs[k..]));
    }
  }

  lemma {:induction false} EncManyLength<T(!new)>(enc: T -> Bytes, xs: seq<T>, each: nat)
    requires forall x :: x in xs ==> |enc(x)| == each
    ensures |EncMany(enc, xs)| == |xs| * each
    decreases xs
  {
    if xs != [] {
      EncManyLength(enc, xs[1..], each);
      assert |xs| * each == each + (|xs| - 1) * each;
    }
  }

  // Fixed-size fields stand for themselves.

  function ParseKey(b: Bytes): Parse<Key> {
    if |b| < 32 then None else Some((b[..32], b[32..]))
  }

  function ParseSignature(b: Bytes): Parse<Signature> {
    if |b| < 64 then None else Some((b[..64], b[64..]))
  }

  function EncKey(k: Key): Bytes { k }

  function EncSignature(s: Signature): Bytes { s }

  // ---------------------------------------------------------------- messages

  /** Set in a message's first byte: what follows is a version number. */
  const VERSION_BIT: byte := 0x80
  const V0_PREFIX: byte := VERSION_BIT

  datatype Instruction = Instruction(programIdIndex: byte, accounts: Bytes, data: Bytes)

  datatype Header = Header(requiredSignatures: byte, readonlySigned: byte, readonlyUnsigned: byte)

  datatype Message = Message(header: Header, keys: seq<Key>, blockhash: Key, instructions: seq<Instruction>)

  datatype Lookup = Lookup(table: Key, writable: Bytes, readonly: Bytes)

  datatype V0Message = V0Message(message: Message, lookups: seq<Lookup>)

  datatype Transaction = Transaction(signatures: seq<Signature>, message: Message)

  predicate Fits(b: Bytes) {
    |b| < 0x1_0000
  }

  predicate InstructionFits(i: Instruction) {
    Fits(i.accounts) && Fits(i.data)
  }

  predicate MessageFits(m: Message) {
    && |m.keys| < 0x1_0000 && |m.instructions| < 0x1_0000
    && forall i :: 0 <= i < |m.instructions| ==> InstructionFits(m.instructions[i])
  }

  /** The first byte of a message with its top bit set marks a version, so a legacy
      message names fewer than 128 signers. */
  predicate LegacyFits(m: Message) {
    MessageFits(m) && m.header.requiredSignatures < VERSION_BIT
  }

  predicate V0Fits(m: V0Message) {
    && MessageFits(m.message) && |m.lookups| < 0x1_0000
    && forall i :: 0 <= i < |m.lookups| ==> Fits(m.lookups[i].writable) && Fits(m.lookups[i].readonly)
  }

  function EncInstruction(i: Instruction): Bytes {
    [i.programIdIndex] + EncBytes(i.accounts) + EncBytes(i.data)
  }

  function ParseInstruction(b: Bytes): Parse<Instruction> {
    if b == [] then None
    else match ParseBytes(b[1..])
      case None => None
      case Some((accounts, rest)) => match ParseBytes(rest)
        case None => None
        case Some((data, rest')) => Some((Instruction(b[0], accounts, data), rest'))
  }

  lemma {:induction false} InstructionRoundTrip(i: Instruction, rest: Bytes)
    requires InstructionFits(i)
    ensures ParseInstruction(EncInstruction(i) + rest) == Some((i, rest))
  {
    var b := EncInstruction(i) + rest;
    assert b[1..] == EncBytes(i.accounts) + (EncBytes(i.data) + rest);
    BytesRoundTrip(i.accounts, EncBytes(i.data) + rest);
    BytesRoundTrip(i.data, rest);
  }

  function EncHeader(h: Header): Bytes {
    [h.requiredSignatures, h.readonlySigned, h.readonlyUnsigned]
  }

  /** The part shared by legacy and v0 messages. */
  function EncMessage(m: Message): Bytes {
    EncHeader(m.header)
    + (Count(|m.keys|)
       + (EncMany(EncKey, m.keys)
          + (m.blockhash
             + (Count(|m.instructions|) + EncMany(EncInstruction, m.instructions)))))
  }

  function ParseInstructions(b: Bytes): Parse<seq<Instruction>> {
    match ParseShortVec(b)
    case None => None
    case Some((n, rest)) => ParseMany(ParseInstruction, n, rest)
  }

  function ParseKeys(b: Bytes): Parse<seq<Key>> {
    match ParseShortVec(b)
    case None => None
    case Some((n, rest)) => ParseMany(ParseKey, n, rest)
  }

  /** The shared part: header, keys, blockhash, instructions. */
  function ParseMessage(b: Bytes): Parse<Message> {
    if |b| < 3 then None
    else match ParseKeys(b[3..])
      case None => None
      case Some((keys, afterKeys)) => match ParseKey(afterKeys)
        case None => None
        case Some((blockhash, afterHash)) => match ParseInstructions(afterHash)
          case None => None
          case Some((instructions, rest)) =>
            Some((Message(Header(b[0], b[1], b[2]), keys, blockhash, instructions), rest))
  }

  lemma {:induction false} KeysRoundTrip(keys: seq<Key>, rest: Bytes)
    requires |keys| < 0x1_0000
    ensures ParseKeys(Count(|keys|) + (EncMany(EncKey, keys) + rest)) == Some((keys, rest))
  {
    CountRoundTrip(|keys|, EncMany(EncKey, keys) + rest);
    forall k: Key, r: Bytes | k in keys
      ensures ParseKey(EncKey(k) + r) == Some((k, r))
    {
      TakeRoundTrip(k, r);
    }
    ManyRoundTrip(EncKey, ParseKey, keys, rest);
  }

  lemma {:induction false} InstructionsRoundTrip(instructions: seq<Instruction>, rest: Bytes)
    requires |instructions| < 0x1_0000
    requires forall i :: 0 <= i < |instructions| ==> InstructionFits(instructions[i])
    ensures ParseInstructions(Count(|instructions|) + (EncMany(EncInstruction, instructions) + rest))
         == Some((instructions, rest))
  {
    CountRoundTrip(|instructions|, EncMany(EncInstruction, instructions) + rest);
    forall x: Instruction, r: Bytes | x in instructions
      ensures ParseInstruction(EncInstruction(x) + r) == Some((x, r))
    {
      InstructionRoundTrip(x, r);
    }
    ManyRoundTrip(EncInstruction, ParseInstruction, instructions, rest);
  }

  /** Parsing the shared part of an encoded message gives it back, whatever follows. */
  lemma {:induction false} MessageRoundTrip(m: Message, rest: Bytes)
    requires MessageFits(m)
    ensures ParseMessage(EncMessage(m) + rest) == Some((m, rest))
  {
    var b := EncMessage(m) + rest;
    var ixs := Count(|m.instructions|) + (EncMany(EncInstruction, m.instructions) + rest);
    var afterKeys := m.blockhash + ixs;
    Assoc(Count(|m.instructions|), EncMany(EncInstruction, m.instructions), rest);
    assert b[3..] == Count(|m.keys|) + (EncMany(EncKey, m.keys) + afterKeys);
    KeysRoundTrip(m.keys, afterKeys);
    TakeRoundTrip(m.blockhash, ixs);
    InstructionsRoundTrip(m.instructions, rest);
  }

  lemma {:induction false} Assoc(a: Bytes, b: Bytes, c: Bytes)
    ensures a + b + c == a + (b + c)
  {
  }

  /** When a key count is printed, `as u16`, a reader sees that many keys and takes
      what follows for the rest of the message. */
  lemma {:induction false} ParsedKeys(m: Message, rest: Bytes)
    ensures
      var p := ParseMessage(EncMessage(m) + rest);
      p.Some? ==> p.value.0.keys == m.keys[..|m.keys| % 0x1_0000]
  {
    var b, k := EncMessage(m) + rest, |m.keys| % 0x1_0000;
    var afterKeys := m.blockhash + (Count(|m.instructions|) + EncMany(EncInstruction, m.instructions)) + rest;
    assert b[3..] == Count(|m.keys|) + (EncMany(EncKey, m.keys) + afterKeys);
    assert Count(|m.keys|) == Count(k);
    EncManySplit(EncKey, m.keys, k);
    Assoc(EncMany(EncKey, m.keys[..k]), EncMany(EncKey, m.keys[k..]), afterKeys);
    KeysRoundTrip(m.keys[..k], EncMany(EncKey, m.keys[k..]) + afterKeys);
  }

  /** A legacy message: none whose first byte carries the version bit. */
  function ParseLegacy(b: Bytes): Parse<Message> {
    if b != [] && b[0] >= VERSION_BIT then None else ParseMessage(b)
  }

  /** A legacy message reads back exactly when it names fewer than 128 signers; with
      more, its first byte is taken for a version and it does not read at all. */
  lemma {:induction false} LegacyRoundTrip(m: Message, rest: Bytes)
    requires MessageFits(m)
    ensures ParseLegacy(EncMessage(m) + rest) == if LegacyFits(m) then Some((m, rest)) else None
  {
    MessageRoundTrip(m, rest);
  }

  // ---------------------------------------------------------------- v0 messages

  function EncLookup(l: Lookup): Bytes {
    l.table + (EncBytes(l.writable) + EncBytes(l.readonly))
  }

  function ParseLookup(b: Bytes): Parse<Lookup> {
    match ParseKey(b)
    case None => None
    case Some((table, r0)) => match ParseBytes(r0)
      case None => None
      case Some((writable, r1)) => match ParseBytes(r1)
        case None => None
        case Some((readonly, r2)) => Some((Lookup(table, writable, readonly), r2))
  }

  lemma {:induction false} LookupRoundTrip(l: Lookup, rest: Bytes)
    requires Fits(l.writable) && Fits(l.readonly)
    ensures ParseLookup(EncLookup(l) + rest) == Some((l, rest))
  {
    var tail := EncBytes(l.writable) + (EncBytes(l.readonly) + rest);
    assert EncLookup(l) + rest == l.table + tail;
    TakeRoundTrip(l.table, tail);
    BytesRoundTrip(l.writable, EncBytes(l.readonly) + rest);
    BytesRoundTrip(l.readonly, rest);
  }

  function EncV0(m: V0Message): Bytes {
    [V0_PREFIX] + (EncMessage(m.message) + (Count(|m.lookups|) + EncMany(EncLookup, m.lookups)))
  }

  /** A whole v0 message and nothing after it. */
  function ParseV0(b: Bytes): Option<V0Message> {
    if b == [] || b[0] != V0_PREFIX then None
    else match ParseMessage(b[1..])
      case None => None
      case Some((m, r)) => match ParseShortVec(r)
        case None => None
        case Some((n, r')) => match ParseMany(ParseLookup, n, r')
          case None => None
          case Some((lookups, rest)) => if rest == [] then Some(V0Message(m, lookups)) else None
  }

  lemma {:induction false} V0RoundTrip(m: V0Message)
    requires V0Fits(m)
    ensures ParseV0(EncV0(m)) == Some(m)
  {
    var lookups := EncMany(EncLookup, m.lookups);
    assert EncV0(m)[1..] == EncMessage(m.message) + (Count(|m.lookups|) + lookups);
    MessageRoundTrip(m.message, Count(|m.lookups|) + lookups);
    CountRoundTrip(|m.lookups|, lookups);
    forall l: Lookup, r: Bytes | l in m.lookups
      ensures ParseLookup(EncLookup(l) + r) == Some((l, r))
    {
      LookupRoundTrip(l, r);
    }
    ManyRoundTrip(EncLookup, ParseLookup, m.lookups, []);
    assert lookups + [] == lookups;
  }

  // ---------------------------------------------------------------- legacy transactions

  function EncTransaction(t: Transaction): Bytes {
    Count(|t.signatures|) + (EncMany(EncSignature, t.signatures) + EncMessage(t.message))
  }

  function ParseSignatures(b: Bytes): Parse<seq<Signature>> {
    match ParseShortVec(b)
    case None => None
    case Some((n, rest)) => ParseMany(ParseSignature, n, rest)
  }

  /** A whole legacy transaction and nothing after it. */
  function ParseTransaction(b: Bytes): Option<Transaction> {
    match ParseSignatures(b)
    case None => None
    case Some((signatures, r)) => match ParseLegacy(r)
      case None => None
      case Some((m, rest)) => if rest == [] then Some(Transaction(signatures, m)) else None
  }

  lemma {:induction false} SignaturesRoundTrip(sigs: seq<Signature>, rest: Bytes)
    requires |sigs| < 0x1_0000
    ensures ParseSignatures(Count(|sigs|) + (EncMany(EncSignature, sigs) + rest)) == Some((sigs, rest))
  {
    CountRoundTrip(|sigs|, EncMany(EncSignature, sigs) + rest);
    forall s: Signature, r: Bytes | s in sigs
      ensures ParseSignature(EncSignature(s) + r) == Some((s, r))
    {
      TakeRoundTrip(s, r);
    }
    ManyRoundTrip(EncSignature, ParseSignature, sigs, rest);
  }

  lemma {:induction false} TransactionRoundTrip(t: Transaction)
    requires |t.signatures| < 0x1_0000 && MessageFits(t.message)
    ensures ParseTransaction(EncTransaction(t)) == if LegacyFits(t.message) then Some(t) else None
  {
    SignaturesRoundTrip(t.signatures, EncMessage(t.message));
    LegacyRoundTrip(t.message, []);
    assert EncMessage(t.message) + [] == EncMessage(t.message);
  }

  /** A reader takes the printed count of signatures and reads the rest as a message. */
  lemma {:induction false} SignaturesSeen(t: Transaction)
    ensures
      var k := |t.signatures| % 0x1_0000;
      ParseSignatures(EncTransaction(t))
        == Some((t.signatures[..k], EncMany(EncSignature, t.signatures[k..]) + EncMessage(t.message)))
  {
    var k := |t.signatures| % 0x1_0000;
    var some, others := EncMany(EncSignature, t.signatures[..k]), EncMany(EncSignature, t.signatures[k..]);
    EncManySplit(EncSignature, t.signatures, k);
    Assoc(some, others, EncMessage(t.message));
    assert Count(|t.signatures|) == Count(k);
    SignaturesRoundTrip(t.signatures[..k], others + EncMessage(t.message));
  }

  lemma {:induction false} ParseManyLength<T>(parse: Bytes -> Parse<T>, n: nat, b: Bytes)
    ensures ParseMany(parse, n, b).Some? ==> |ParseMany(parse, n, b).value.0| == n
  {
    if n > 0 {
      match parse(b)
      case None =>
      case Some((x, rest)) => ParseManyLength(parse, n - 1, rest);
    }
  }

  /** No parsed message holds 2^16 instructions. */
  lemma {:induction false} ParsedInstructionsFit(b: Bytes)
    ensures ParseMessage(b).Some? ==> |ParseMessage(b).value.0.instructions| < 0x1_0000
  {
    if ParseMessage(b).Some? {
      var afterKeys := ParseKeys(b[3..]).value.1;
      var afterHash := ParseKey(afterKeys).value.1;
      ParsedCountFits(afterHash);
      var (n, rest) := ParseShortVec(afterHash).value;
      ParseManyLength(ParseInstruction, n, rest);
    }
  }

  lemma {:induction false} MessageLength(m: Message, each: nat)
    requires forall i :: 0 <= i < |m.instructions| ==> |EncInstruction(m.instructions[i])| == each
    ensures |EncMessage(m)| == 3 + ShortVecLen(|m.keys| % 0x1_0000) + 32 * |m.keys| + 32
                               + ShortVecLen(|m.instructions| % 0x1_0000) + |m.instructions| * each
  {
    EncManyLength(EncKey, m.keys, 32);
    EncManyLength(EncInstruction, m.instructions, each);
  }
}
