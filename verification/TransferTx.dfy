/** The two hand-written transfer transactions (src/keys/transaction.rs): many
    wallets into one, and one wallet into many. */
module TransferTx {
  import opened Common
  import opened WireFormat

  const SYSTEM_PROGRAM: Key := Zeros(32)
  const LAMPORTS_PER_SIGNATURE: nat := 5_000
  const RENT_EXEMPT_MIN_LAMPORTS: nat := 890_880
  const MAX_CHILDREN_PER_SWEEP_TX: nat := 9
  /** Largest transaction the network carries. */
  const MAX_TX_SIZE: nat := 1232

  datatype SigningKey = SigningKey(pubkey: Key, secret: Bytes)

  /** ed25519 signing, left opaque. */
  type Signer = (SigningKey, Bytes) -> Signature

  // ---------------------------------------------------------------- what the messages are meant to say

  datatype Transfer = Transfer(source: Key, destination: Key, amount: nat)

  /** Header arithmetic of a message's own keys: the network lets a program write a
      signer that is not among the last read-only ones, and any other account that is
      not among the last read-only ones. */
  predicate WritableAt(m: Message, i: nat) {
    && i < |m.keys|
    && if i < m.header.requiredSignatures then i < m.header.requiredSignatures - m.header.readonlySigned
       else i < |m.keys| - m.header.readonlyUnsigned
  }

  /** Reads one instruction as a system transfer the message authorises: the program is
      the system program, both accounts exist and may be written, the source signs. */
  function DecodeTransfer(m: Message, i: Instruction): Option<Transfer> {
    if !(i.programIdIndex < |m.keys| && m.keys[i.programIdIndex] == SYSTEM_PROGRAM) then None
    else if !(|i.accounts| == 2 && i.accounts[0] < |m.keys| && i.accounts[1] < |m.keys|) then None
    else if i.accounts[0] >= m.header.requiredSignatures then None
    else if !WritableAt(m, i.accounts[0]) || !WritableAt(m, i.accounts[1]) then None
    else if !(|i.data| == 12 && FromLe(i.data[..4]) == 2) then None
    else Some(Transfer(m.keys[i.accounts[0]], m.keys[i.accounts[1]], FromLe(i.data[4..])))
  }

  function DecodeAll(m: Message, ixs: seq<Instruction>): Option<seq<Transfer>> {
    if ixs == [] then Some([])
    else match DecodeTransfer(m, ixs[0])
      case None => None
      case Some(t) => match DecodeAll(m, ixs[1..])
        case None => None
        case Some(ts) => Some([t] + ts)
  }

  /** A legacy transaction as the network reads it: right number of signatures, the
      first account able to pay the fee, every instruction a transfer. */
  function DecodeTransfers(t: Transaction): Option<seq<Transfer>> {
    if |t.signatures| != t.message.header.requiredSignatures then None
    else if t.message.header.requiredSignatures == 0 || !WritableAt(t.message, 0) then None
    else DecodeAll(t.message, t.message.instructions)
  }

  function ReadTransfers(bytes: Bytes): Option<seq<Transfer>> {
    match ParseTransaction(bytes)
    case None => None
    case Some(t) => DecodeTransfers(t)
  }

  lemma {:induction false} DecodeAllPointwise(m: Message, ixs: seq<Instruction>, ts: seq<Transfer>)
    requires |ixs| == |ts|
    requires forall k :: 0 <= k < |ixs| ==> DecodeTransfer(m, ixs[k]) == Some(ts[k])
    ensures DecodeAll(m, ixs) == Some(ts)
    decreases ixs
  {
    if ixs != [] {
      DecodeAllPointwise(m, ixs[1..], ts[1..]);
      assert [ts[0]] + ts[1..] == ts;
    }
  }

  // ---------------------------------------------------------------- the bytes as pushed

  /** `push_shortvec`. */
  method PushShortVec(out: Bytes, len: nat) returns (r: Bytes)
    requires len < 0x1_0000
    ensures r == out + ShortVec(len)
  {
    r := out;
    var n := len;
    while true
      invariant r + ShortVec(n) == out + ShortVec(len)
      decreases n
    {
      var b: byte := n % 128;
      if n / 128 == 0 {
        return r + [b];
      }
      assert r + ShortVec(n) == r + [b + 128] + ShortVec(n / 128);
      r := r + [b + 128];
      n := n / 128;
    }
  }

  function TransferData(amount: nat): Bytes {
    Le(2, 4) + Le(amount, 8)
  }

  /** Account list: payer first, system program last. */
  function AccountKeys(payer: Key, others: seq<Key>): seq<Key> {
    [payer] + others + [SYSTEM_PROGRAM]
  }

  /** Byte indices as the source computes them, `as u8` included. */
  function IndexU8(i: nat): byte {
    i % 256
  }

  datatype Direction = IntoPayer | OutOfPayer

  function TransferInstruction(dir: Direction, n: nat, i: nat, amount: nat): Instruction {
    Instruction(IndexU8(n + 1),
                if dir.IntoPayer? then [IndexU8(i + 1), 0] else [0, IndexU8(i + 1)],
                TransferData(amount))
  }

  function TransferInstructions(dir: Direction, n: nat, amounts: seq<nat>): (r: seq<Instruction>)
    ensures |r| == |amounts|
    ensures forall i :: 0 <= i < |amounts| ==> r[i] == TransferInstruction(dir, n, i, amounts[i])
  {
    if amounts == [] then []
    else
      var last := |amounts| - 1;
      TransferInstructions(dir, n, amounts[..last]) + [TransferInstruction(dir, n, last, amounts[last])]
  }

  function TransferMessage(dir: Direction, payer: Key, others: seq<Key>, amounts: seq<nat>, blockhash: Key): Message {
    Message(Header(if dir.IntoPayer? then IndexU8(|others| + 1) else 1, 0, 1),
            AccountKeys(payer, others), blockhash, TransferInstructions(dir, |others|, amounts))
  }

  method PushInstruction(out: Bytes, dir: Direction, n: nat, i: nat, amount: nat) returns (r: Bytes)
    ensures r == out + EncInstruction(TransferInstruction(dir, n, i, amount))
  {
    r := out + [IndexU8(n + 1)];
    r := PushShortVec(r, 2);
    if dir.IntoPayer? {
      r := r + [IndexU8(i + 1)];
      r := r + [0];
    } else {
      r := r + [0];
      r := r + [IndexU8(i + 1)];
    }
    r := PushShortVec(r, 12);
    r := r + Le(2, 4);
    r := r + Le(amount, 8);
    ghost var ix := TransferInstruction(dir, n, i, amount);
    assert Count(2) == ShortVec(2) && Count(12) == ShortVec(12);
    Assoc8(out, [ix.programIdIndex], ShortVec(2), [ix.accounts[0]], [ix.accounts[1]], ShortVec(12), Le(2, 4), Le(amount, 8));
    assert ix.accounts == [ix.accounts[0]] + [ix.accounts[1]];
  }

  lemma {:induction false} Assoc8(out: Bytes, p: Bytes, sa: Bytes, a: Bytes, b: Bytes, sd: Bytes, c: Bytes, d: Bytes)
    ensures out + p + sa + a + b + sd + c + d == out + (p + (sa + (a + b)) + (sd + (c + d)))
  {
    Assoc(out + p + sa, a, b);
    Assoc(out + p, sa, a + b);
    Assoc(out, p, sa + (a + b));
    var x := p + (sa + (a + b));
    Assoc(out + x + sd, c, d);
    Assoc(out + x, sd, c + d);
    Assoc(out, x, sd + (c + d));
  }

  method PushInstructions(out: Bytes, dir: Direction, n: nat, amounts: seq<nat>) returns (r: Bytes)
    ensures r == out + EncMany(EncInstruction, TransferInstructions(dir, n, amounts))
  {
    ghost var all := TransferInstructions(dir, n, amounts);
    r := out;
    for i := 0 to |amounts|
      invariant r == out + EncMany(EncInstruction, all[..i])
    {
      assert all[..i + 1] == all[..i] + [all[i]];
      EncManySnoc(EncInstruction, all[..i], all[i]);
      Assoc(out, EncMany(EncInstruction, all[..i]), EncInstruction(all[i]));
      r := PushInstruction(r, dir, n, i, amounts[i]);
    }
    assert all[..|amounts|] == all;
  }

  method PushKeys(out: Bytes, keys: seq<Key>) returns (r: Bytes)
    ensures r == out + EncMany(EncKey, keys)
  {
    r := out;
    for i := 0 to |keys|
      invariant r == out + EncMany(EncKey, keys[..i])
    {
      assert keys[..i + 1] == keys[..i] + [keys[i]];
      EncManySnoc(EncKey, keys[..i], keys[i]);
      r := r + keys[i];
    }
    assert keys[..|keys|] == keys;
  }

  method BuildMessage(dir: Direction, payer: Key, others: seq<Key>, amounts: seq<nat>, blockhash: Key)
    returns (message: Bytes)
    requires |others| == |amounts|
    ensures message == EncMessage(TransferMessage(dir, payer, others, amounts, blockhash))
  {
    var n := |others|;
    var accountKeys := AccountKeys(payer, others);
    message := [if dir.IntoPayer? then IndexU8(n + 1) else 1, 0, 1];
    message := PushShortVec(message, |accountKeys| % 0x1_0000);
    message := PushKeys(message, accountKeys);
    message := message + blockhash;
    message := PushShortVec(message, n % 0x1_0000);
    message := PushInstructions(message, dir, n, amounts);
    ghost var m := TransferMessage(dir, payer, others, amounts, blockhash);
    Assoc6(EncHeader(m.header), Count(|m.keys|), EncMany(EncKey, m.keys), blockhash, Count(n),
           EncMany(EncInstruction, m.instructions));
  }

  lemma {:induction false} Assoc6(a: Bytes, b: Bytes, c: Bytes, d: Bytes, e: Bytes, f: Bytes)
    ensures a + b + c + d + e + f == a + (b + (c + (d + (e + f))))
  {
    Assoc(a + b + c + d, e, f);
    Assoc(a + b + c, d, e + f);
    Assoc(a + b, c, d + (e + f));
    Assoc(a, b, c + (d + (e + f)));
  }

  function Pubkeys(keys: seq<SigningKey>): (r: seq<Key>)
    ensures |r| == |keys| && forall i :: 0 <= i < |keys| ==> r[i] == keys[i].pubkey
  {
    if keys == [] then [] else [keys[0].pubkey] + Pubkeys(keys[1..])
  }

  function Signatures(keys: seq<SigningKey>, message: Bytes, sign: Signer): (r: seq<Signature>)
    ensures |r| == |keys| && forall i :: 0 <= i < |keys| ==> r[i] == sign(keys[i], message)
  {
    if keys == [] then [] else [sign(keys[0], message)] + Signatures(keys[1..], message, sign)
  }

  /** `build_consolidated_sweep`: every child pays its amount to the eater, and
      everyone signs. */
  method BuildConsolidatedSweep(
      eater: SigningKey, children: seq<SigningKey>, amounts: seq<nat>, blockhash: Key, sign: Signer)
    returns (tx: Bytes)
    requires |children| == |amounts|
    ensures tx == EncTransaction(SweepTransaction(eater, children, amounts, blockhash, sign))
  {
    var message := BuildMessage(IntoPayer, eater.pubkey, Pubkeys(children), amounts, blockhash);
    var eaterSig := sign(eater, message);
    var childSigs := Signatures(children, message, sign);
    tx := PushShortVec([], (|children| + 1) % 0x1_0000);
    tx := tx + eaterSig;
    tx := PushSignatures(tx, childSigs);
    tx := tx + message;
    AllSignatures(Count(|children| + 1), eaterSig, childSigs, message);
  }

  method PushSignatures(out: Bytes, sigs: seq<Signature>) returns (r: Bytes)
    ensures r == out + EncMany(EncSignature, sigs)
  {
    r := out;
    for i := 0 to |sigs|
      invariant r == out + EncMany(EncSignature, sigs[..i])
    {
      assert sigs[..i + 1] == sigs[..i] + [sigs[i]];
      EncManySnoc(EncSignature, sigs[..i], sigs[i]);
      r := r + sigs[i];
    }
    assert sigs[..|sigs|] == sigs;
  }

  lemma {:induction false} AllSignatures(count: Bytes, first: Signature, others: seq<Signature>, m: Bytes)
    ensures [] + count + first + EncMany(EncSignature, others) + m
         == count + (EncMany(EncSignature, [first] + others) + m)
  {
    assert ([first] + others)[1..] == others;
    assert [] + count == count;
    Assoc(count, first, EncMany(EncSignature, others));
    Assoc(count, first + EncMany(EncSignature, others), m);
  }

  function SweepTransaction(
      eater: SigningKey, children: seq<SigningKey>, amounts: seq<nat>, blockhash: Key, sign: Signer): Transaction {
    var m := TransferMessage(IntoPayer, eater.pubkey, Pubkeys(children), amounts, blockhash);
    Transaction([sign(eater, EncMessage(m))] + Signatures(children, EncMessage(m), sign), m)
  }

  /** `build_distribute`: the sender pays each recipient and signs alone. */
  method BuildDistribute(sender: SigningKey, recipients: seq<(Key, nat)>, blockhash: Key, sign: Signer)
    returns (tx: Bytes)
    ensures tx == EncTransaction(DistributeTransaction(sender, recipients, blockhash, sign))
  {
    var message := BuildMessage(OutOfPayer, sender.pubkey, Firsts(recipients), Seconds(recipients), blockhash);
    var senderSig := sign(sender, message);
    tx := PushShortVec([], 1);
    tx := tx + senderSig;
    tx := tx + message;
    assert Count(1) == ShortVec(1);
    AllSignatures(Count(1), senderSig, [], message);
    assert [senderSig] + [] == [senderSig];
    assert [] + ShortVec(1) + senderSig + [] == [] + ShortVec(1) + senderSig;
  }

  function Firsts(r: seq<(Key, nat)>): (k: seq<Key>)
    ensures |k| == |r| && forall i :: 0 <= i < |r| ==> k[i] == r[i].0
  {
    if r == [] then [] else [r[0].0] + Firsts(r[1..])
  }

  function Seconds(r: seq<(Key, nat)>): (k: seq<nat>)
    ensures |k| == |r| && forall i :: 0 <= i < |r| ==> k[i] == r[i].1
  {
    if r == [] then [] else [r[0].1] + Seconds(r[1..])
  }

  function DistributeTransaction(
      sender: SigningKey, recipients: seq<(Key, nat)>, blockhash: Key, sign: Signer): Transaction {
    var m := TransferMessage(OutOfPayer, sender.pubkey, Firsts(recipients), Seconds(recipients), blockhash);
    Transaction([sign(sender, EncMessage(m))], m)
  }

  // ---------------------------------------------------------------- round trip

  function ExpectedTransfer(dir: Direction, payer: Key, other: Key, amount: nat): Transfer {
    if dir.IntoPayer? then Transfer(other, payer, amount) else Transfer(payer, other, amount)
  }

  function ExpectedTransfers(dir: Direction, payer: Key, others: seq<Key>, amounts: seq<nat>): (r: seq<Transfer>)
    requires |others| == |amounts|
    ensures |r| == |others|
    ensures forall i :: 0 <= i < |others| ==> r[i] == ExpectedTransfer(dir, payer, others[i], amounts[i])
  {
    if others == [] then []
    else [ExpectedTransfer(dir, payer, others[0], amounts[0])] + ExpectedTransfers(dir, payer, others[1..], amounts[1..])
  }

  lemma {:induction false} TransferDataDecodes(amount: nat)
    requires amount < U64
    ensures
      var d := TransferData(amount);
      |d| == 12 && FromLe(d[..4]) == 2 && FromLe(d[4..]) == amount
  {
    LeU32RoundTrip(2);
    LeU64RoundTrip(amount);
    assert TransferData(amount)[..4] == Le(2, 4);
    assert TransferData(amount)[4..] == Le(amount, 8);
  }

  lemma {:induction false} InstructionDecodes(
      dir: Direction, payer: Key, others: seq<Key>, amounts: seq<nat>, blockhash: Key, k: nat)
    requires k < |others| == |amounts| <= 254 && amounts[k] < U64
    ensures
      var m := TransferMessage(dir, payer, others, amounts, blockhash);
      DecodeTransfer(m, TransferInstruction(dir, |others|, k, amounts[k]))
        == Some(ExpectedTransfer(dir, payer, others[k], amounts[k]))
  {
    var m := TransferMessage(dir, payer, others, amounts, blockhash);
    var n, ix := |others|, TransferInstruction(dir, |others|, k, amounts[k]);
    TransferDataDecodes(amounts[k]);
    assert m.keys[k + 1] == others[k] && m.keys[0] == payer && m.keys[n + 1] == SYSTEM_PROGRAM;
    assert m.header.requiredSignatures == if dir.IntoPayer? then n + 1 else 1;
    assert ix == Instruction(n + 1, if dir.IntoPayer? then [k + 1, 0] else [0, k + 1], TransferData(amounts[k]));
    if dir.IntoPayer? {
      DecodesWhen(m, |others| + 1, k + 1, 0, TransferData(amounts[k]));
    } else {
      DecodesWhen(m, |others| + 1, 0, k + 1, TransferData(amounts[k]));
    }
  }

  lemma {:induction false} DecodesWhen(m: Message, p: byte, a: byte, b: byte, data: Bytes)
    requires p < |m.keys| && m.keys[p] == SYSTEM_PROGRAM
    requires WritableAt(m, a) && WritableAt(m, b) && a < m.header.requiredSignatures
    requires |data| == 12 && FromLe(data[..4]) == 2
    ensures DecodeTransfer(m, Instruction(p, [a, b], data))
         == Some(Transfer(m.keys[a], m.keys[b], FromLe(data[4..])))
  {
  }

  lemma {:induction false} MessageDecodes(dir: Direction, payer: Key, others: seq<Key>, amounts: seq<nat>, blockhash: Key)
    requires |others| == |amounts| <= 254 && forall i :: 0 <= i < |amounts| ==> amounts[i] < U64
    ensures
      var m := TransferMessage(dir, payer, others, amounts, blockhash);
      DecodeAll(m, m.instructions) == Some(ExpectedTransfers(dir, payer, others, amounts))
  {
    var m := TransferMessage(dir, payer, others, amounts, blockhash);
    var ts := ExpectedTransfers(dir, payer, others, amounts);
    forall k | 0 <= k < |others|
      ensures DecodeTransfer(m, m.instructions[k]) == Some(ts[k])
    {
      InstructionDecodes(dir, payer, others, amounts, blockhash, k);
    }
    DecodeAllPointwise(m, m.instructions, ts);
  }

  /** Past 254 the system-program index wraps onto a wallet and nothing decodes. */
  lemma {:induction false} MessageBreaksPastU8(
      dir: Direction, payer: Key, others: seq<Key>, amounts: seq<nat>, blockhash: Key)
    requires |others| == |amounts| && |others| >= 255
    requires payer != SYSTEM_PROGRAM && SYSTEM_PROGRAM !in others
    ensures
      var m := TransferMessage(dir, payer, others, amounts, blockhash);
      DecodeAll(m, m.instructions) == None
  {
    var m := TransferMessage(dir, payer, others, amounts, blockhash);
    var p := IndexU8(|others| + 1);
    assert m.instructions[0].programIdIndex == p <= |others|;
    assert m.keys[p] == (if p == 0 then payer else others[p - 1]);
  }

  /** The index bytes wrap: each is what is left of the position it stands for after
      whole multiples of 256. */
  lemma {:induction false} IndicesWrap(
      dir: Direction, payer: Key, others: seq<Key>, amounts: seq<nat>, blockhash: Key, k: nat)
    requires k < |others| == |amounts|
    ensures
      var ix := TransferMessage(dir, payer, others, amounts, blockhash).instructions[k];
      && |ix.accounts| == 2
      && (exists q: nat :: |others| + 1 == 256 * q + ix.programIdIndex)
      && (exists q: nat :: k + 1 == 256 * q + ix.accounts[if dir.IntoPayer? then 0 else 1])
      && ix.accounts[if dir.IntoPayer? then 1 else 0] == 0
  {
    assert |others| + 1 == 256 * ((|others| + 1) / 256) + IndexU8(|others| + 1);
    assert k + 1 == 256 * ((k + 1) / 256) + IndexU8(k + 1);
  }

  lemma {:induction false} MessageIsEncodable(
      dir: Direction, payer: Key, others: seq<Key>, amounts: seq<nat>, blockhash: Key)
    requires |others| == |amounts| && |others| + 2 < 0x1_0000
    ensures MessageFits(TransferMessage(dir, payer, others, amounts, blockhash))
  {
  }

  /** No reading yields 2^16 transfers. */
  lemma {:induction false} ReadTransfersFit(b: Bytes)
    ensures ReadTransfers(b).Some? ==> |ReadTransfers(b).value| < 0x1_0000
  {
    match ParseTransaction(b)
    case None =>
    case Some(t) =>
      ParsedInstructionsFit(ParseSignatures(b).value.1);
      DecodeAllLength(t.message, t.message.instructions);
  }

  lemma {:induction false} DecodeAllLength(m: Message, ixs: seq<Instruction>)
    ensures DecodeAll(m, ixs).Some? ==> |DecodeAll(m, ixs).value| == |ixs|
  {
    if ixs != [] {
      DecodeAllLength(m, ixs[1..]);
    }
  }

  /** A message in which no transfer can be authorised reads as none, or not at all. */
  lemma {:induction false} NothingDecodes(m: Message, ixs: seq<Instruction>)
    requires m.header.requiredSignatures == 0 || SYSTEM_PROGRAM !in m.keys
    ensures DecodeAll(m, ixs) in {None, Some([])}
  {
    if ixs != [] {
      assert DecodeTransfer(m, ixs[0]).None?;
    }
  }

  /** How many wallets a transaction can name and still read back. A sweep signs for
      all of them, and 128 signers turn the legacy message's first byte into a
      version; a distribution signs once, and runs out of one-byte indices. */
  function MaxOthers(dir: Direction): nat {
    if dir.IntoPayer? then 126 else 254
  }

  /** What signs a transfer message: everyone, or the payer alone. */
  function SignersOf(dir: Direction, n: nat): nat {
    if dir.IntoPayer? then n + 1 else 1
  }

  lemma {:induction false} ReadsAsEncoded(t: Transaction)
    requires |t.signatures| < 0x1_0000 && MessageFits(t.message)
    ensures ReadTransfers(EncTransaction(t)) == if LegacyFits(t.message) then DecodeTransfers(t) else None
  {
    TransactionRoundTrip(t);
  }

  /** While the counts fit their fields. */
  lemma {:induction false} CountedReadBack(
      dir: Direction, payer: Key, others: seq<Key>, amounts: seq<nat>, blockhash: Key, sigs: seq<Signature>)
    requires |others| == |amounts| && |others| + 2 < 0x1_0000
    requires forall i :: 0 <= i < |amounts| ==> amounts[i] < U64
    requires payer != SYSTEM_PROGRAM && SYSTEM_PROGRAM !in others
    requires |sigs| == SignersOf(dir, |others|)
    ensures
      var m := TransferMessage(dir, payer, others, amounts, blockhash);
      (ReadTransfers(EncTransaction(Transaction(sigs, m))) == Some(ExpectedTransfers(dir, payer, others, amounts)))
      <==> |others| <= MaxOthers(dir)
  {
    var m := TransferMessage(dir, payer, others, amounts, blockhash);
    MessageIsEncodable(dir, payer, others, amounts, blockhash);
    ReadsAsEncoded(Transaction(sigs, m));
    if |others| <= 254 {
      MessageDecodes(dir, payer, others, amounts, blockhash);
    } else {
      MessageBreaksPastU8(dir, payer, others, amounts, blockhash);
    }
  }

  /** Once a count outgrows its field: for 65534 and 65535 wallets the signatures or
      keys a reader sees authorise nothing; more cannot be counted at all. */
  lemma {:induction false} UncountedReadsOtherwise(
      dir: Direction, payer: Key, others: seq<Key>, amounts: seq<nat>, blockhash: Key, sigs: seq<Signature>)
    requires |others| == |amounts| && |others| + 2 >= 0x1_0000
    requires payer != SYSTEM_PROGRAM && |sigs| == SignersOf(dir, |others|)
    ensures
      var m := TransferMessage(dir, payer, others, amounts, blockhash);
      ReadTransfers(EncTransaction(Transaction(sigs, m))) != Some(ExpectedTransfers(dir, payer, others, amounts))
  {
    var t := Transaction(sigs, TransferMessage(dir, payer, others, amounts, blockhash));
    if |others| >= 0x1_0000 {
      ReadTransfersFit(EncTransaction(t));
    } else {
      FewKeysSeen(dir, payer, others, amounts, blockhash);
      OutgrownCount(t);
    }
  }

  lemma {:induction false} OutgrownCount(t: Transaction)
    requires |t.signatures| < 0x1_0000 ==> SYSTEM_PROGRAM !in t.message.keys[..|t.message.keys| % 0x1_0000]
    requires |t.signatures| >= 0x1_0000 ==> |t.signatures| == 0x1_0000
    ensures ReadTransfers(EncTransaction(t)) in {None, Some([])}
  {
    if |t.signatures| < 0x1_0000 {
      SignaturesRoundTrip(t.signatures, EncMessage(t.message));
      KeysSeen(t.message, EncMessage(t.message));
      ReadsNoTransfer(EncTransaction(t), t.signatures, EncMessage(t.message));
    } else {
      SignaturesSeen(t);
      ReadsNoTransfer(EncTransaction(t), [], EncMany(EncSignature, t.signatures[0..]) + EncMessage(t.message));
    }
  }

  lemma {:induction false} KeysSeen(m: Message, b: Bytes)
    requires b == EncMessage(m)
    ensures ParseLegacy(b).Some? ==> ParseLegacy(b).value.0.keys == m.keys[..|m.keys| % 0x1_0000]
  {
    assert b == EncMessage(m) + [];
    ParsedKeys(m, []);
  }

  lemma {:induction false} ReadsNoTransfer(b: Bytes, sigs: seq<Signature>, rest: Bytes)
    requires ParseSignatures(b) == Some((sigs, rest))
    requires ParseLegacy(rest).Some? ==> sigs == [] || SYSTEM_PROGRAM !in ParseLegacy(rest).value.0.keys
    ensures ReadTransfers(b) in {None, Some([])}
  {
    if ParseLegacy(rest).Some? {
      var m := ParseLegacy(rest).value.0;
      if |sigs| == m.header.requiredSignatures {
        NothingDecodes(m, m.instructions);
      }
    }
  }

  lemma {:induction false} FewKeysSeen(
      dir: Direction, payer: Key, others: seq<Key>, amounts: seq<nat>, blockhash: Key)
    requires 0xFFFE <= |others| < 0x1_0000 && payer != SYSTEM_PROGRAM
    ensures
      var keys := TransferMessage(dir, payer, others, amounts, blockhash).keys;
      SYSTEM_PROGRAM !in keys[..|keys| % 0x1_0000]
  {
    var keys := AccountKeys(payer, others);
    assert keys[..0] == [] && keys[..1] == [payer];
  }

  lemma {:induction false} TransfersReadBack(
      dir: Direction, payer: Key, others: seq<Key>, amounts: seq<nat>, blockhash: Key, sigs: seq<Signature>)
    requires |others| == |amounts| && forall i :: 0 <= i < |amounts| ==> amounts[i] < U64
    requires payer != SYSTEM_PROGRAM && SYSTEM_PROGRAM !in others
    requires |sigs| == SignersOf(dir, |others|)
    ensures
      var m := TransferMessage(dir, payer, others, amounts, blockhash);
      (ReadTransfers(EncTransaction(Transaction(sigs, m))) == Some(ExpectedTransfers(dir, payer, others, amounts)))
      <==> |others| <= MaxOthers(dir)
  {
    if |others| + 2 < 0x1_0000 {
      CountedReadBack(dir, payer, others, amounts, blockhash, sigs);
    } else {
      UncountedReadsOtherwise(dir, payer, others, amounts, blockhash, sigs);
    }
  }

  /** The sweep bytes read back as exactly the intended transfers, each from its own
      child to the eater, if and only if there are at most 126 children, whatever
      their number. */
  lemma {:induction false} SweepReadsBack(
      eater: SigningKey, children: seq<SigningKey>, amounts: seq<nat>, blockhash: Key, sign: Signer)
    requires |children| == |amounts| && forall i :: 0 <= i < |amounts| ==> amounts[i] < U64
    requires eater.pubkey != SYSTEM_PROGRAM && SYSTEM_PROGRAM !in Pubkeys(children)
    ensures ReadTransfers(EncTransaction(SweepTransaction(eater, children, amounts, blockhash, sign)))
         == Some(ExpectedTransfers(IntoPayer, eater.pubkey, Pubkeys(children), amounts))
      <==> |children| <= 126
  {
    TransfersReadBack(IntoPayer, eater.pubkey, Pubkeys(children), amounts, blockhash,
                      SweepTransaction(eater, children, amounts, blockhash, sign).signatures);
  }

  /** Who may be written, who signs and what: the first n + 1 keys are writable, the
      last is the system program and is not. */
  ghost predicate WalletsWritable(m: Message, payer: Key, others: seq<Key>) {
    && |m.keys| == |others| + 2 && m.keys[0] == payer
    && (forall i :: 0 <= i < |others| ==> m.keys[i + 1] == others[i])
    && m.keys[|others| + 1] == seq(32, _ => 0)
    && forall i: nat :: i < |m.keys| ==> (WritableAt(m, i) <==> i <= |others|)
  }

  /** How a message starts: the header of a sweep says that everyone signs, of a
      distribution that the payer does; no signer is read-only, and one other account is. */
  lemma {:induction false} HeaderBytes(
      dir: Direction, payer: Key, others: seq<Key>, amounts: seq<nat>, blockhash: Key)
    requires |others| == |amounts| <= 254
    ensures
      [if dir.IntoPayer? then |others| + 1 else 1, 0, 1] <= EncMessage(TransferMessage(dir, payer, others, amounts, blockhash))
  {
  }

  lemma {:induction false} TransferWritable(
      dir: Direction, payer: Key, others: seq<Key>, amounts: seq<nat>, blockhash: Key)
    requires |others| == |amounts| <= 254
    ensures WalletsWritable(TransferMessage(dir, payer, others, amounts, blockhash), payer, others)
  {
  }

  /** Where the message starts in a transaction of fewer than 128 signatures. */
  lemma {:induction false} MessageAfterSignatures(t: Transaction)
    requires |t.signatures| < 128
    ensures |EncTransaction(t)| >= 1 + 64 * |t.signatures|
    ensures EncTransaction(t)[1 + 64 * |t.signatures|..] == EncMessage(t.message)
  {
    EncManyLength(EncSignature, t.signatures, 64);
    var head := Count(|t.signatures|) + EncMany(EncSignature, t.signatures);
    Assoc(Count(|t.signatures|), EncMany(EncSignature, t.signatures), EncMessage(t.message));
    assert |head| == 1 + 64 * |t.signatures|;
  }

  /** What transaction bytes say once parsed: the payer and the other wallets may be
      debited and credited and nothing else may be written, the blockhash is the one
      given, and the k-th signature is the k-th signer's over the very bytes that follow
      them all. */
  ghost predicate Authorises(
      bytes: Bytes, signers: seq<SigningKey>, payer: Key, others: seq<Key>, blockhash: Key, sign: Signer) {
    var parsed := ParseTransaction(bytes);
    && parsed.Some? && WalletsWritable(parsed.value.message, payer, others)
    && parsed.value.message.blockhash == blockhash
    && parsed.value.message.header.requiredSignatures == |parsed.value.signatures| == |signers|
    && 1 + 64 * |signers| <= |bytes|
    && forall i :: 0 <= i < |signers| ==>
         parsed.value.signatures[i] == sign(signers[i], bytes[1 + 64 * |signers|..])
  }

  lemma {:induction false} SignedTransfer(
      t: Transaction, signers: seq<SigningKey>, payer: Key, others: seq<Key>, blockhash: Key, sign: Signer)
    requires |t.signatures| == |signers| == t.message.header.requiredSignatures && |signers| < 128
    requires MessageFits(t.message) && WalletsWritable(t.message, payer, others) && t.message.blockhash == blockhash
    requires forall i :: 0 <= i < |signers| ==> t.signatures[i] == sign(signers[i], EncMessage(t.message))
    ensures Authorises(EncTransaction(t), signers, payer, others, blockhash, sign)
  {
    TransactionRoundTrip(t);
    MessageAfterSignatures(t);
    ParsedAuthorises(EncTransaction(t), t, EncMessage(t.message), signers, payer, others, blockhash, sign);
  }

  lemma {:induction false} ParsedAuthorises(
      bytes: Bytes, t: Transaction, message: Bytes, signers: seq<SigningKey>, payer: Key, others: seq<Key>,
      blockhash: Key, sign: Signer)
    requires ParseTransaction(bytes) == Some(t) && 1 + 64 * |signers| <= |bytes|
    requires bytes[1 + 64 * |signers|..] == message
    requires |t.signatures| == |signers| == t.message.header.requiredSignatures
    requires WalletsWritable(t.message, payer, others) && t.message.blockhash == blockhash
    requires forall i :: 0 <= i < |signers| ==> t.signatures[i] == sign(signers[i], message)
    ensures Authorises(bytes, signers, payer, others, blockhash, sign)
  {
  }

  /** The sweep: eater and children sign, in that order. */
  lemma {:induction false} SweepAuthorises(
      eater: SigningKey, children: seq<SigningKey>, amounts: seq<nat>, blockhash: Key, sign: Signer)
    requires |children| == |amounts| <= 126
    ensures Authorises(EncTransaction(SweepTransaction(eater, children, amounts, blockhash, sign)),
                       [eater] + children, eater.pubkey, Pubkeys(children), blockhash, sign)
  {
    var m := TransferMessage(IntoPayer, eater.pubkey, Pubkeys(children), amounts, blockhash);
    MessageIsEncodable(IntoPayer, eater.pubkey, Pubkeys(children), amounts, blockhash);
    TransferWritable(IntoPayer, eater.pubkey, Pubkeys(children), amounts, blockhash);
    EveryoneSigns(eater, children, EncMessage(m), sign);
    SignedTransfer(SweepTransaction(eater, children, amounts, blockhash, sign), [eater] + children,
                   eater.pubkey, Pubkeys(children), blockhash, sign);
  }

  lemma {:induction false} EveryoneSigns(eater: SigningKey, children: seq<SigningKey>, m: Bytes, sign: Signer)
    ensures
      var sigs, signers := [sign(eater, m)] + Signatures(children, m, sign), [eater] + children;
      |sigs| == |signers| && forall i :: 0 <= i < |signers| ==> sigs[i] == sign(signers[i], m)
  {
  }

  /** The distribution: the sender signs alone. */
  lemma {:induction false} DistributeAuthorises(
      sender: SigningKey, recipients: seq<(Key, nat)>, blockhash: Key, sign: Signer)
    requires |recipients| <= 254
    ensures Authorises(EncTransaction(DistributeTransaction(sender, recipients, blockhash, sign)),
                       [sender], sender.pubkey, Firsts(recipients), blockhash, sign)
  {
    MessageIsEncodable(OutOfPayer, sender.pubkey, Firsts(recipients), Seconds(recipients), blockhash);
    TransferWritable(OutOfPayer, sender.pubkey, Firsts(recipients), Seconds(recipients), blockhash);
    SignedTransfer(DistributeTransaction(sender, recipients, blockhash, sign), [sender],
                   sender.pubkey, Firsts(recipients), blockhash, sign);
  }

  /** The sweep bytes parse to a transaction signed by everyone and paid for by the
      eater, unless the one-byte signer count carries the version bit; then they do
      not parse as a legacy transaction. */
  lemma {:induction false} SweepParses(
      eater: SigningKey, children: seq<SigningKey>, amounts: seq<nat>, blockhash: Key, sign: Signer)
    requires |children| == |amounts| && |children| + 2 < 0x1_0000
    ensures
      var t := SweepTransaction(eater, children, amounts, blockhash, sign);
      && ParseTransaction(EncTransaction(t)) == (if IndexU8(|children| + 1) < VERSION_BIT then Some(t) else None)
      && |t.signatures| == |children| + 1 && |t.message.keys| == |children| + 2 && t.message.keys[0] == eater.pubkey
  {
    MessageIsEncodable(IntoPayer, eater.pubkey, Pubkeys(children), amounts, blockhash);
    TransactionRoundTrip(SweepTransaction(eater, children, amounts, blockhash, sign));
  }

  /** The same for the distribution, from the sender to each recipient. */
  lemma {:induction false} DistributeReadsBack(
      sender: SigningKey, recipients: seq<(Key, nat)>, blockhash: Key, sign: Signer)
    requires forall i :: 0 <= i < |recipients| ==> recipients[i].1 < U64
    requires sender.pubkey != SYSTEM_PROGRAM && SYSTEM_PROGRAM !in Firsts(recipients)
    ensures ReadTransfers(EncTransaction(DistributeTransaction(sender, recipients, blockhash, sign)))
         == Some(ExpectedTransfers(OutOfPayer, sender.pubkey, Firsts(recipients), Seconds(recipients)))
      <==> |recipients| <= 254
  {
    TransfersReadBack(OutOfPayer, sender.pubkey, Firsts(recipients), Seconds(recipients), blockhash,
                      DistributeTransaction(sender, recipients, blockhash, sign).signatures);
  }

  // ---------------------------------------------------------------- sizes

  lemma {:induction false} TransferMessageLength(
      dir: Direction, payer: Key, others: seq<Key>, amounts: seq<nat>, blockhash: Key)
    requires |others| == |amounts|
    ensures |EncMessage(TransferMessage(dir, payer, others, amounts, blockhash))|
         == 99 + ShortVecLen((|others| + 2) % 0x1_0000) + ShortVecLen(|others| % 0x1_0000) + 49 * |others|
  {
    var m := TransferMessage(dir, payer, others, amounts, blockhash);
    forall i | 0 <= i < |m.instructions|
      ensures |EncInstruction(m.instructions[i])| == 17
    {
      InstructionLength(dir, |others|, i, amounts[i]);
    }
    MessageLength(m, 17);
    assert |others| * 17 == 17 * |others|;
  }

  lemma {:induction false} InstructionLength(dir: Direction, n: nat, i: nat, amount: nat)
    ensures |EncInstruction(TransferInstruction(dir, n, i, amount))| == 17
  {
    assert Count(2) == ShortVec(2) && Count(12) == ShortVec(12);
  }

  lemma {:induction false} CountLength(n: nat)
    ensures ShortVecLen(n % 0x1_0000) >= 1
    ensures n < 128 ==> ShortVecLen(n % 0x1_0000) == 1
  {
  }

  /** A sweep of n children takes 166 + 113 n bytes while its counts fit one byte,
      and it fits the network limit exactly when n is at most nine. */
  lemma {:induction false} SweepSize(
      eater: SigningKey, children: seq<SigningKey>, amounts: seq<nat>, blockhash: Key, sign: Signer)
    requires |children| == |amounts|
    ensures
      var size := |EncTransaction(SweepTransaction(eater, children, amounts, blockhash, sign))|;
      && (|children| <= 125 ==> size == 166 + 113 * |children|)
      && (size <= MAX_TX_SIZE <==> |children| <= MAX_CHILDREN_PER_SWEEP_TX)
  {
    var t := SweepTransaction(eater, children, amounts, blockhash, sign);
    var n := |children|;
    EncManyLength(EncSignature, t.signatures, 64);
    TransferMessageLength(IntoPayer, eater.pubkey, Pubkeys(children), amounts, blockhash);
    SweepSizeTight(n);
  }

  lemma {:induction false} SweepSizeTight(n: nat)
    ensures
      var size := ShortVecLen((n + 1) % 0x1_0000) + 64 * (n + 1)
                  + 99 + ShortVecLen((n + 2) % 0x1_0000) + ShortVecLen(n % 0x1_0000) + 49 * n;
      (n <= 125 ==> size == 166 + 113 * n) && (size <= MAX_TX_SIZE <==> n <= MAX_CHILDREN_PER_SWEEP_TX)
  {
    CountLength(n);
    CountLength(n + 1);
    CountLength(n + 2);
  }

  /** A distribution to n recipients takes 166 + 49 n bytes while its counts fit
      one byte; the builder has no limit, and fits exactly up to 21 recipients. */
  lemma {:induction false} DistributeSize(sender: SigningKey, recipients: seq<(Key, nat)>, blockhash: Key, sign: Signer)
    ensures
      var size := |EncTransaction(DistributeTransaction(sender, recipients, blockhash, sign))|;
      && (|recipients| <= 125 ==> size == 166 + 49 * |recipients|)
      && (size <= MAX_TX_SIZE <==> |recipients| <= 21)
  {
    var t := DistributeTransaction(sender, recipients, blockhash, sign);
    EncManyLength(EncSignature, t.signatures, 64);
    TransferMessageLength(OutOfPayer, sender.pubkey, Firsts(recipients), Seconds(recipients), blockhash);
    CountLength(|recipients|);
    CountLength(|recipients| + 2);
  }
}
