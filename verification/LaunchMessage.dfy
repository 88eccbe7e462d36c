/** The launch message (src/pumpfun/ix_builder/ix.rs): written in place into a
    transaction buffer, byte by byte, and what a reader of those bytes finds. */
module LaunchMessage {
  import opened Common
  import opened WireFormat
  import opened TransferTx

  // ---------------------------------------------------------------- account slots

  const ACC_USER: byte := 0
  const ACC_MINT: byte := 1
  const ACC_BONDING_CURVE: byte := 2
  const ACC_ASSOCIATED_BONDING_CURVE: byte := 3
  const ACC_MAYHEM_STATE: byte := 4
  const ACC_MAYHEM_TOKEN_VAULT: byte := 5
  const ACC_FEE_RECIPIENT: byte := 6
  const ACC_CREATOR_VAULT: byte := 7
  const ACC_USER_VOLUME_ACCUMULATOR: byte := 8
  const ACC_ASSOCIATED_USER: byte := 9
  const ACC_TIP_RECIPIENT: byte := 10
  const ACC_BUYBACK_FEE_RECIPIENT: byte := 11
  const ACC_BONDING_CURVE_V2: byte := 12
  const ACC_SYSTEM_PROGRAM: byte := 13
  const ACC_ATA_PROGRAM: byte := 14
  const ACC_COMPUTE_BUDGET_PROGRAM: byte := 15
  const ACC_PUMP_PROGRAM: byte := 16
  const ACC_MAYHEM_PROGRAM: byte := 17
  const ACC_SOL_VAULT: byte := 18
  const ACC_MINT_AUTHORITY: byte := 19
  const ACC_GLOBAL: byte := 20
  const ACC_TOKEN_2022_PROGRAM: byte := 21
  const ACC_GLOBAL_PARAMS: byte := 22
  const ACC_EVENT_AUTHORITY: byte := 23
  const ACC_GLOBAL_VOLUME_ACCUMULATOR: byte := 24
  const ACC_FEE_CONFIG: byte := 25
  const ACC_PUMP_FEE_PROGRAM: byte := 26

  const SIG_SECTION_LEN: nat := 129

  function CreateV2Accounts(): Bytes {
    [ACC_MINT, ACC_MINT_AUTHORITY, ACC_BONDING_CURVE, ACC_ASSOCIATED_BONDING_CURVE,
     ACC_GLOBAL, ACC_USER, ACC_SYSTEM_PROGRAM, ACC_TOKEN_2022_PROGRAM,
     ACC_ATA_PROGRAM, ACC_MAYHEM_PROGRAM, ACC_GLOBAL_PARAMS, ACC_SOL_VAULT,
     ACC_MAYHEM_STATE, ACC_MAYHEM_TOKEN_VAULT, ACC_EVENT_AUTHORITY, ACC_PUMP_PROGRAM]
  }

  function AtaAccounts(): Bytes {
    [ACC_USER, ACC_ASSOCIATED_USER, ACC_USER, ACC_MINT, ACC_SYSTEM_PROGRAM, ACC_TOKEN_2022_PROGRAM]
  }

  function BuyAccounts(): Bytes {
    [ACC_GLOBAL, ACC_FEE_RECIPIENT, ACC_MINT, ACC_BONDING_CURVE, ACC_ASSOCIATED_BONDING_CURVE,
     ACC_ASSOCIATED_USER, ACC_USER, ACC_SYSTEM_PROGRAM, ACC_TOKEN_2022_PROGRAM, ACC_CREATOR_VAULT,
     ACC_EVENT_AUTHORITY, ACC_PUMP_PROGRAM, ACC_GLOBAL_VOLUME_ACCUMULATOR, ACC_USER_VOLUME_ACCUMULATOR,
     ACC_FEE_CONFIG, ACC_PUMP_FEE_PROGRAM, ACC_BONDING_CURVE_V2, ACC_BUYBACK_FEE_RECIPIENT]
  }

  /** The three inlined program ids that are not all zeros. */
  datatype Programs = Programs(ata: Key, computeBudget: Key, pump: Key)

  function AtaProgramId(): Key {
    [140, 151, 37, 143, 78, 36, 137, 241, 187, 61, 16, 41, 20, 142, 13, 131,
     11, 90, 19, 153, 218, 255, 16, 132, 4, 142, 123, 216, 219, 233, 248, 89]
  }

  function ComputeBudgetProgramId(): Key {
    [3, 6, 70, 111, 229, 33, 23, 50, 255, 236, 173, 186, 114, 195, 155, 231,
     188, 140, 229, 187, 197, 247, 18, 107, 44, 67, 155, 58, 64, 0, 0, 0]
  }

  function PumpProgramId(): Key {
    [1, 86, 224, 246, 147, 102, 90, 207, 68, 219, 21, 104, 191, 23, 91, 170,
     81, 137, 203, 151, 245, 210, 255, 59, 101, 93, 43, 182, 253, 109, 24, 176]
  }

  /** The ids the builder inlines; the results below hold for any three keys. */
  function InlinedPrograms(): Programs {
    Programs(AtaProgramId(), ComputeBudgetProgramId(), PumpProgramId())
  }

  function CreateV2Discriminator(): (b: Bytes)
    ensures |b| == 8
  {
    [214, 144, 76, 236, 95, 139, 49, 180]
  }

  function BuyDiscriminator(): (b: Bytes)
    ensures |b| == 8
  {
    [102, 6, 61, 18, 1, 218, 235, 234]
  }

  // ---------------------------------------------------------------- inputs

  datatype AltIndices = AltIndices(
    altPubkey: Key, mayhemProgram: byte, solVault: byte, mintAuthority: byte, global: byte,
    token2022Program: byte, globalParams: byte, eventAuthority: byte, globalVolumeAccumulator: byte,
    feeConfig: byte, pumpFeeProgram: byte)

  datatype LaunchInputs = LaunchInputs(
    user: Key, mint: Key, bondingCurve: Key, associatedBondingCurve: Key, mayhemState: Key,
    mayhemTokenVault: Key, feeRecipient: Key, creatorVault: Key, userVolumeAccumulator: Key,
    associatedUser: Key, tipRecipient: Key, buybackFeeRecipient: Key, bondingCurveV2: Key,
    recentBlockhash: Key, alt: AltIndices,
    name: Bytes, symbol: Bytes, uri: Bytes,
    buyAmountTokens: nat, buyMaxSolCost: nat, trackVolume: bool,
    tipLamports: nat, cuLimit: nat, cuPriceMicroLamports: nat)
  {
    predicate InRange() {
      buyAmountTokens < U64 && buyMaxSolCost < U64 && tipLamports < U64
      && cuLimit < U32 && cuPriceMicroLamports < U64
    }

    /** Bytes of the three strings together. */
    function TextLen(): nat {
      |name| + |symbol| + |uri|
    }
  }

  // ---------------------------------------------------------------- the message

  function StaticKeys(p: Programs, inp: LaunchInputs): seq<Key> {
    [inp.user, inp.mint, inp.bondingCurve, inp.associatedBondingCurve, inp.mayhemState,
     inp.mayhemTokenVault, inp.feeRecipient, inp.creatorVault, inp.userVolumeAccumulator,
     inp.associatedUser, inp.tipRecipient, inp.buybackFeeRecipient, inp.bondingCurveV2,
     SYSTEM_PROGRAM, p.ata, p.computeBudget, p.pump]
  }

  /** Borsh string: u32 length, then the bytes. */
  function EncStr(s: Bytes): Bytes {
    Le(|s|, 4) + s
  }

  function CreateData(inp: LaunchInputs): Bytes {
    CreateV2Discriminator() + (EncStr(inp.name) + (EncStr(inp.symbol) + (EncStr(inp.uri) + (inp.user + ([0] + [0])))))
  }

  function BuyData(inp: LaunchInputs): Bytes {
    BuyDiscriminator() + (Le(inp.buyAmountTokens, 8) + (Le(inp.buyMaxSolCost, 8) + [if inp.trackVolume then 1 else 0]))
  }

  function PriceIx(inp: LaunchInputs): Instruction {
    Instruction(ACC_COMPUTE_BUDGET_PROGRAM, [], [3] + Le(inp.cuPriceMicroLamports, 8))
  }

  function LimitIx(inp: LaunchInputs): Instruction {
    Instruction(ACC_COMPUTE_BUDGET_PROGRAM, [], [2] + Le(inp.cuLimit, 4))
  }

  function CreateIx(inp: LaunchInputs): Instruction {
    Instruction(ACC_PUMP_PROGRAM, CreateV2Accounts(), CreateData(inp))
  }

  function AtaIx(): Instruction {
    Instruction(ACC_ATA_PROGRAM, AtaAccounts(), [1])
  }

  function BuyIx(inp: LaunchInputs): Instruction {
    Instruction(ACC_PUMP_PROGRAM, BuyAccounts(), BuyData(inp))
  }

  function TipIx(inp: LaunchInputs): Instruction {
    Instruction(ACC_SYSTEM_PROGRAM, [ACC_USER] + [ACC_TIP_RECIPIENT], TransferData(inp.tipLamports))
  }

  function Instructions(inp: LaunchInputs): seq<Instruction> {
    [PriceIx(inp), LimitIx(inp), CreateIx(inp), AtaIx(), BuyIx(inp), TipIx(inp)]
  }

  function Footer(alt: AltIndices): Lookup {
    Lookup(alt.altPubkey, [alt.mayhemProgram] + [alt.solVault],
           [alt.mintAuthority] + [alt.global] + [alt.token2022Program] + [alt.globalParams]
           + [alt.eventAuthority] + [alt.globalVolumeAccumulator] + [alt.feeConfig] + [alt.pumpFeeProgram])
  }

  function LaunchMsg(p: Programs, inp: LaunchInputs): V0Message {
    V0Message(Message(Header(2, 0, 5), StaticKeys(p, inp), inp.recentBlockhash, Instructions(inp)),
              [Footer(inp.alt)])
  }

  // ---------------------------------------------------------------- sizes

  lemma {:induction false} CreateDataLength(inp: LaunchInputs)
    ensures |CreateData(inp)| == 54 + inp.TextLen()
  {
  }

  lemma {:induction false} SmallCounts()
    ensures Count(0) == [0] && Count(1) == [1] && Count(2) == [2] && Count(5) == [5]
    ensures Count(6) == [6] && Count(8) == [8] && Count(9) == [9] && Count(12) == [12]
    ensures Count(16) == [16] && Count(17) == [17] && Count(18) == [18] && Count(25) == [25]
  {
  }

  lemma {:induction false} EncInstructionLength(i: Instruction)
    ensures |EncInstruction(i)|
         == 1 + ShortVecLen(|i.accounts| % 0x1_0000) + |i.accounts| + ShortVecLen(|i.data| % 0x1_0000) + |i.data|
  {
  }

  lemma {:induction false} InstructionsBytes(inp: LaunchInputs)
    ensures EncMany(EncInstruction, Instructions(inp))
         == EncInstruction(PriceIx(inp)) + (EncInstruction(LimitIx(inp)) + (EncInstruction(CreateIx(inp))
            + (EncInstruction(AtaIx()) + (EncInstruction(BuyIx(inp)) + EncInstruction(TipIx(inp))))))
  {
    EncManyOne(EncInstruction, TipIx(inp));
    EncManyCons(EncInstruction, BuyIx(inp), [TipIx(inp)]);
    EncManyCons(EncInstruction, AtaIx(), [BuyIx(inp), TipIx(inp)]);
    EncManyCons(EncInstruction, CreateIx(inp), [AtaIx(), BuyIx(inp), TipIx(inp)]);
    EncManyCons(EncInstruction, LimitIx(inp), [CreateIx(inp), AtaIx(), BuyIx(inp), TipIx(inp)]);
    EncManyCons(EncInstruction, PriceIx(inp), [LimitIx(inp), CreateIx(inp), AtaIx(), BuyIx(inp), TipIx(inp)]);
    assert Instructions(inp)
        == [PriceIx(inp)] + [LimitIx(inp), CreateIx(inp), AtaIx(), BuyIx(inp), TipIx(inp)];
    assert [LimitIx(inp), CreateIx(inp), AtaIx(), BuyIx(inp), TipIx(inp)]
        == [LimitIx(inp)] + [CreateIx(inp), AtaIx(), BuyIx(inp), TipIx(inp)];
    assert [CreateIx(inp), AtaIx(), BuyIx(inp), TipIx(inp)] == [CreateIx(inp)] + [AtaIx(), BuyIx(inp), TipIx(inp)];
    assert [AtaIx(), BuyIx(inp), TipIx(inp)] == [AtaIx()] + [BuyIx(inp), TipIx(inp)];
    assert [BuyIx(inp), TipIx(inp)] == [BuyIx(inp)] + [TipIx(inp)];
  }

  lemma {:induction false} EncManyCons<T>(enc: T -> Bytes, x: T, xs: seq<T>)
    ensures EncMany(enc, [x] + xs) == enc(x) + EncMany(enc, xs)
  {
    assert ([x] + xs)[1..] == xs;
  }

  lemma {:induction false} EncManyOne<T>(enc: T -> Bytes, x: T)
    ensures EncMany(enc, [x]) == enc(x)
  {
    assert [x][1..] == [];
  }

  /** Absolute end offset of the message in the buffer. */
  function LaunchEnd(inp: LaunchInputs): nat {
    921 + ShortVecLen((54 + inp.TextLen()) % 0x1_0000) + inp.TextLen()
  }

  lemma {:induction false} LaunchLength(p: Programs, inp: LaunchInputs)
    ensures SIG_SECTION_LEN + |EncV0(LaunchMsg(p, inp))| == LaunchEnd(inp)
  {
    var m := LaunchMsg(p, inp);
    InstructionsLength(inp);
    EncManyLength(EncKey, m.message.keys, 32);
    FooterLength(inp.alt);
    SmallCounts();
  }

  lemma {:induction false} InstructionsLength(inp: LaunchInputs)
    ensures |EncMany(EncInstruction, Instructions(inp))|
         == 93 + 18 + ShortVecLen((54 + inp.TextLen()) % 0x1_0000) + 54 + inp.TextLen()
  {
    InstructionsBytes(inp);
    FixedLengths(inp);
    CreateLength(inp);
  }

  lemma {:induction false} FixedLengths(inp: LaunchInputs)
    ensures |EncInstruction(PriceIx(inp))| == 12 && |EncInstruction(LimitIx(inp))| == 8
    ensures |EncInstruction(AtaIx())| == 10 && |EncInstruction(BuyIx(inp))| == 46 && |EncInstruction(TipIx(inp))| == 17
  {
    SmallInstructionLength(PriceIx(inp));
    SmallInstructionLength(LimitIx(inp));
    SmallInstructionLength(AtaIx());
    SmallInstructionLength(BuyIx(inp));
    SmallInstructionLength(TipIx(inp));
  }

  lemma {:induction false} SmallInstructionLength(i: Instruction)
    requires |i.accounts| < 128 && |i.data| < 128
    ensures |EncInstruction(i)| == 3 + |i.accounts| + |i.data|
  {
    EncInstructionLength(i);
  }

  lemma {:induction false} CreateLength(inp: LaunchInputs)
    ensures |CreateData(inp)| == 54 + inp.TextLen() && |CreateV2Accounts()| == 16
    ensures |EncInstruction(CreateIx(inp))| == 18 + ShortVecLen((54 + inp.TextLen()) % 0x1_0000) + 54 + inp.TextLen()
  {
    CreateDataLength(inp);
    EncInstructionLength(CreateIx(inp));
  }

  lemma {:induction false} FooterLength(alt: AltIndices)
    ensures |EncMany(EncLookup, [Footer(alt)])| == 44
  {
    EncManyOne(EncLookup, Footer(alt));
    SmallCounts();
  }

  /** The message fits the transaction buffer exactly when name, symbol and uri
      together take at most 309 bytes. */
  lemma {:induction false} FitsIff(inp: LaunchInputs)
    ensures LaunchEnd(inp) <= MAX_TX_SIZE <==> inp.TextLen() <= 309
  {
    var n := 54 + inp.TextLen();
    if n < 0x1_0000 {
      ShortVecLenU16(n);
    }
  }

  // ---------------------------------------------------------------- reading it back

  datatype CreateArgs = CreateArgs(name: Bytes, symbol: Bytes, uri: Bytes, creator: Key, isMayhem: byte, isCashback: byte)

  datatype BuyArgs = BuyArgs(amount: nat, maxSolCost: nat, trackVolume: byte)

  function ParseStr(b: Bytes): Parse<Bytes> {
    if |b| < 4 then None else Take(b[4..], FromLe(b[..4]))
  }

  lemma {:induction false} StrRoundTrip(s: Bytes, rest: Bytes)
    requires |s| < U32
    ensures ParseStr(EncStr(s) + rest) == Some((s, rest))
  {
    var b := EncStr(s) + rest;
    assert b[..4] == Le(|s|, 4);
    assert b[4..] == s + rest;
    LeU32RoundTrip(|s|);
    TakeRoundTrip(s, rest);
  }

  function ParseCreate(b: Bytes): Option<CreateArgs> {
    if !(CreateV2Discriminator() <= b) then None
    else match ParseStr(b[8..])
      case None => None
      case Some((name, r0)) => match ParseStr(r0)
        case None => None
        case Some((symbol, r1)) => match ParseStr(r1)
          case None => None
          case Some((uri, r2)) => match ParseKey(r2)
            case None => None
            case Some((creator, r3)) =>
              if |r3| != 2 then None else Some(CreateArgs(name, symbol, uri, creator, r3[0], r3[1]))
  }

  lemma {:induction false} CreateReadsBack(inp: LaunchInputs)
    requires inp.TextLen() < U32
    ensures ParseCreate(CreateData(inp)) == Some(CreateArgs(inp.name, inp.symbol, inp.uri, inp.user, 0, 0))
  {
    var r3 := [0] + [0];
    var r2 := inp.user + r3;
    var r1 := EncStr(inp.uri) + r2;
    var r0 := EncStr(inp.symbol) + r1;
    assert CreateData(inp)[8..] == EncStr(inp.name) + r0;
    StrRoundTrip(inp.name, r0);
    StrRoundTrip(inp.symbol, r1);
    StrRoundTrip(inp.uri, r2);
    TakeRoundTrip(inp.user, r3);
  }

  function ParseBuy(b: Bytes): Option<BuyArgs> {
    if !(|b| == 25 && BuyDiscriminator() <= b) then None
    else Some(BuyArgs(FromLe(b[8..16]), FromLe(b[16..24]), b[24]))
  }

  lemma {:induction false} BuyReadsBack(inp: LaunchInputs)
    requires inp.InRange()
    ensures ParseBuy(BuyData(inp))
         == Some(BuyArgs(inp.buyAmountTokens, inp.buyMaxSolCost, if inp.trackVolume then 1 else 0))
  {
    var b := BuyData(inp);
    LeU64RoundTrip(inp.buyAmountTokens);
    LeU64RoundTrip(inp.buyMaxSolCost);
    assert b[8..16] == Le(inp.buyAmountTokens, 8);
    assert b[16..24] == Le(inp.buyMaxSolCost, 8);
  }

  /** One instruction as read: the program it calls, its account indices, and its
      decoded arguments. */
  datatype Call<+T> = Call(program: Key, accounts: Bytes, args: T)

  /** Everything the launch message is meant to carry. */
  datatype LaunchView = LaunchView(
    keys: seq<Key>, blockhash: Key, cuPrice: Call<nat>, cuLimit: Call<nat>, create: Call<CreateArgs>,
    createAccount: Call<Bytes>, buy: Call<BuyArgs>, tip: Transfer, lookup: Lookup)

  function TaggedLe(b: Bytes, tag: byte, width: nat): Option<nat> {
    if |b| == 1 + width && b[0] == tag then Some(FromLe(b[1..])) else None
  }

  /** An instruction with its program looked up among the static keys, as the runtime
      requires, and its data decoded. */
  function ReadCall<T>(m: Message, i: Instruction, args: Option<T>): Option<Call<T>> {
    if i.programIdIndex >= |m.keys| then None
    else match args
      case None => None
      case Some(a) => Some(Call(m.keys[i.programIdIndex], i.accounts, a))
  }

  function View(m: V0Message): Option<LaunchView> {
    var msg, ixs := m.message, m.message.instructions;
    if |ixs| != 6 || |m.lookups| != 1 then None
    else match (ReadCall(msg, ixs[0], TaggedLe(ixs[0].data, 3, 8)), ReadCall(msg, ixs[1], TaggedLe(ixs[1].data, 2, 4)),
                ReadCall(msg, ixs[2], ParseCreate(ixs[2].data)), ReadCall(msg, ixs[3], Some(ixs[3].data)),
                ReadCall(msg, ixs[4], ParseBuy(ixs[4].data)), DecodeTransfer(msg, ixs[5]))
      case (Some(price), Some(limit), Some(create), Some(account), Some(buy), Some(tip)) =>
        Some(LaunchView(msg.keys, msg.blockhash, price, limit, create, account, buy, tip, m.lookups[0]))
      case _ => None
  }

  function ReadLaunch(b: Bytes): Option<LaunchView> {
    match ParseV0(b)
    case None => None
    case Some(m) => View(m)
  }

  lemma {:induction false} BudgetReadsBack(inp: LaunchInputs)
    requires inp.InRange()
    ensures TaggedLe(PriceIx(inp).data, 3, 8) == Some(inp.cuPriceMicroLamports)
    ensures TaggedLe(LimitIx(inp).data, 2, 4) == Some(inp.cuLimit)
  {
    LeU64RoundTrip(inp.cuPriceMicroLamports);
    LeU32RoundTrip(inp.cuLimit);
    assert PriceIx(inp).data[1..] == Le(inp.cuPriceMicroLamports, 8);
    assert LimitIx(inp).data[1..] == Le(inp.cuLimit, 4);
  }

  lemma {:induction false} TipReadsBack(p: Programs, inp: LaunchInputs)
    requires inp.InRange()
    ensures DecodeTransfer(LaunchMsg(p, inp).message, TipIx(inp))
         == Some(Transfer(inp.user, inp.tipRecipient, inp.tipLamports))
  {
    TransferDataDecodes(inp.tipLamports);
    assert TipIx(inp).accounts == [ACC_USER, ACC_TIP_RECIPIENT];
    DecodesWhen(LaunchMsg(p, inp).message, ACC_SYSTEM_PROGRAM, ACC_USER, ACC_TIP_RECIPIENT, TransferData(inp.tipLamports));
  }

  lemma {:induction false} LaunchFits(p: Programs, inp: LaunchInputs)
    requires 54 + inp.TextLen() < 0x1_0000
    ensures V0Fits(LaunchMsg(p, inp))
  {
    CreateDataLength(inp);
    var m := LaunchMsg(p, inp);
    forall i | 0 <= i < |m.message.instructions|
      ensures InstructionFits(m.message.instructions[i])
    {
      if i == 2 {
        assert m.message.instructions[2] == CreateIx(inp);
      }
    }
  }

  /** What a reader should find: every launch input, and each instruction calling the
      right program with its account list. */
  function IntendedView(p: Programs, inp: LaunchInputs): LaunchView {
    LaunchView(
      StaticKeys(p, inp), inp.recentBlockhash,
      Call(p.computeBudget, [], inp.cuPriceMicroLamports), Call(p.computeBudget, [], inp.cuLimit),
      Call(p.pump, CreateV2Accounts(), CreateArgs(inp.name, inp.symbol, inp.uri, inp.user, 0, 0)),
      Call(p.ata, AtaAccounts(), [1]),
      Call(p.pump, BuyAccounts(),
           BuyArgs(inp.buyAmountTokens, inp.buyMaxSolCost, if inp.trackVolume then 1 else 0)),
      Transfer(inp.user, inp.tipRecipient, inp.tipLamports),
      IntendedLookup(inp.alt))
  }

  /** The table, its two writable entries and its eight read-only ones, in the order of
      the account slots from 17 on. */
  function IntendedLookup(alt: AltIndices): Lookup {
    Lookup(alt.altPubkey, [alt.mayhemProgram, alt.solVault],
           [alt.mintAuthority, alt.global, alt.token2022Program, alt.globalParams,
            alt.eventAuthority, alt.globalVolumeAccumulator, alt.feeConfig, alt.pumpFeeProgram])
  }

  lemma {:induction false} FooterIsIntended(alt: AltIndices)
    ensures Footer(alt) == IntendedLookup(alt)
  {
  }

  /** Round trip: a reader of the encoded message finds what was intended. */
  lemma {:induction false} LaunchReadsBack(p: Programs, inp: LaunchInputs)
    requires inp.InRange() && 54 + inp.TextLen() < 0x1_0000
    ensures ReadLaunch(EncV0(LaunchMsg(p, inp))) == Some(IntendedView(p, inp))
  {
    FooterIsIntended(inp.alt);
    LaunchFits(p, inp);
    V0RoundTrip(LaunchMsg(p, inp));
    BudgetReadsBack(inp);
    CreateReadsBack(inp);
    BuyReadsBack(inp);
    TipReadsBack(p, inp);
  }

  /** Which programs the message calls, byte for byte: compute budget for the price and
      the limit, the pump program for the create and the buy, and the associated-token
      program between them; the tip goes through the all-zero system program. */
  ghost predicate CallsPrograms(m: V0Message) {
    && |m.message.instructions| == 6
    && ProgramIs(m.message, 0, [3, 6, 70, 111, 229, 33, 23, 50, 255, 236, 173, 186, 114, 195, 155, 231,
                                188, 140, 229, 187, 197, 247, 18, 107, 44, 67, 155, 58, 64, 0, 0, 0])
    && ProgramIs(m.message, 1, [3, 6, 70, 111, 229, 33, 23, 50, 255, 236, 173, 186, 114, 195, 155, 231,
                                188, 140, 229, 187, 197, 247, 18, 107, 44, 67, 155, 58, 64, 0, 0, 0])
    && ProgramIs(m.message, 2, [1, 86, 224, 246, 147, 102, 90, 207, 68, 219, 21, 104, 191, 23, 91, 170,
                                81, 137, 203, 151, 245, 210, 255, 59, 101, 93, 43, 182, 253, 109, 24, 176])
    && ProgramIs(m.message, 3, [140, 151, 37, 143, 78, 36, 137, 241, 187, 61, 16, 41, 20, 142, 13, 131,
                                11, 90, 19, 153, 218, 255, 16, 132, 4, 142, 123, 216, 219, 233, 248, 89])
    && ProgramIs(m.message, 4, [1, 86, 224, 246, 147, 102, 90, 207, 68, 219, 21, 104, 191, 23, 91, 170,
                                81, 137, 203, 151, 245, 210, 255, 59, 101, 93, 43, 182, 253, 109, 24, 176])
    && ProgramIs(m.message, 5, Zeros(32))
  }

  predicate ProgramIs(m: Message, i: nat, id: Bytes)
    requires i < |m.instructions|
  {
    m.instructions[i].programIdIndex < |m.keys| && m.keys[m.instructions[i].programIdIndex] == id
  }

  /** With the inlined ids, the bytes as parsed call these programs; the create and the
      buy start with their instruction discriminators. */
  lemma {:induction false} LaunchCalls(inp: LaunchInputs)
    requires 54 + inp.TextLen() < 0x1_0000
    ensures
      var parsed := ParseV0(EncV0(LaunchMsg(InlinedPrograms(), inp)));
      && parsed.Some? && CallsPrograms(parsed.value)
      && [214, 144, 76, 236, 95, 139, 49, 180] <= parsed.value.message.instructions[2].data
      && [102, 6, 61, 18, 1, 218, 235, 234] <= parsed.value.message.instructions[4].data
  {
    LaunchFits(InlinedPrograms(), inp);
    V0RoundTrip(LaunchMsg(InlinedPrograms(), inp));
    ProgramsCalled(inp);
    assert CreateV2Discriminator() <= CreateData(inp) && BuyDiscriminator() <= BuyData(inp);
  }

  lemma {:induction false} ProgramsCalled(inp: LaunchInputs)
    ensures CallsPrograms(LaunchMsg(InlinedPrograms(), inp))
  {
    var m := LaunchMsg(InlinedPrograms(), inp).message;
    assert m.keys[13] == SYSTEM_PROGRAM && m.keys[14] == AtaProgramId();
    assert m.keys[15] == ComputeBudgetProgramId() && m.keys[16] == PumpProgramId();
  }

  /** The signed bytes: two signatures, two signers required, and these are the first two
      keys, the launching wallet and the mint; what follows the signatures reads back as
      the launch. */
  lemma {:induction false} SignedLaunchReads(p: Programs, inp: LaunchInputs, walletSig: Signature, mintSig: Signature)
    requires inp.InRange() && 54 + inp.TextLen() < 0x1_0000
    ensures
      var message := EncV0(LaunchMsg(p, inp));
      var parsed := ParseV0(message);
      && ParseSignatures(Count(2) + (EncMany(EncSignature, [walletSig, mintSig]) + message))
           == Some(([walletSig, mintSig], message))
      && parsed.Some? && parsed.value.message.header.requiredSignatures == 2
      && |parsed.value.message.keys| == 17
      && parsed.value.message.keys[0] == inp.user && parsed.value.message.keys[1] == inp.mint
      && ReadLaunch(message) == Some(IntendedView(p, inp))
  {
    var sigs := [walletSig, mintSig];
    SignaturesRoundTrip(sigs, EncV0(LaunchMsg(p, inp)));
    LaunchFits(p, inp);
    V0RoundTrip(LaunchMsg(p, inp));
    LaunchReadsBack(p, inp);
  }

  // ---------------------------------------------------------------- what the indices mean at run time

  /** The runtime account list: static keys, then the looked-up writable entries,
      then the looked-up readonly ones. */
  function RuntimeKeys(m: V0Message, table: seq<Key>): seq<Key>
    requires |m.lookups| == 1
    requires forall i :: 0 <= i < |m.lookups[0].writable| ==> m.lookups[0].writable[i] < |table|
    requires forall i :: 0 <= i < |m.lookups[0].readonly| ==> m.lookups[0].readonly[i] < |table|
  {
    m.message.keys + LookUp(table, m.lookups[0].writable) + LookUp(table, m.lookups[0].readonly)
  }

  function LookUp(table: seq<Key>, indices: Bytes): (r: seq<Key>)
    requires forall i :: 0 <= i < |indices| ==> indices[i] < |table|
    ensures |r| == |indices| && forall i :: 0 <= i < |indices| ==> r[i] == table[indices[i]]
  {
    if indices == [] then [] else [table[indices[0]]] + LookUp(table, indices[1..])
  }

  function Resolve(keys: seq<Key>, indices: Bytes): (r: seq<Key>)
    requires forall i :: 0 <= i < |indices| ==> indices[i] < |keys|
    ensures |r| == |indices| && forall i :: 0 <= i < |indices| ==> r[i] == keys[indices[i]]
  {
    LookUp(keys, indices)
  }

  /** The indices are in range and name these accounts, in order. */
  predicate Resolves(keys: seq<Key>, indices: Bytes, accounts: seq<Key>) {
    (forall i :: 0 <= i < |indices| ==> indices[i] < |keys|) && Resolve(keys, indices) == accounts
  }

  /** The ten shared accounts the lookup table supplies. */
  datatype Shared = Shared(
    mayhemProgram: Key, solVault: Key, mintAuthority: Key, global: Key, token2022Program: Key,
    globalParams: Key, eventAuthority: Key, globalVolumeAccumulator: Key, feeConfig: Key, pumpFeeProgram: Key)

  /** The resolved indices point at the shared accounts, as the startup lookup
      established. */
  predicate AltPointsAt(alt: AltIndices, table: seq<Key>, s: Shared) {
    && alt.mayhemProgram < |table| && table[alt.mayhemProgram] == s.mayhemProgram
    && alt.solVault < |table| && table[alt.solVault] == s.solVault
    && alt.mintAuthority < |table| && table[alt.mintAuthority] == s.mintAuthority
    && alt.global < |table| && table[alt.global] == s.global
    && alt.token2022Program < |table| && table[alt.token2022Program] == s.token2022Program
    && alt.globalParams < |table| && table[alt.globalParams] == s.globalParams
    && alt.eventAuthority < |table| && table[alt.eventAuthority] == s.eventAuthority
    && alt.globalVolumeAccumulator < |table| && table[alt.globalVolumeAccumulator] == s.globalVolumeAccumulator
    && alt.feeConfig < |table| && table[alt.feeConfig] == s.feeConfig
    && alt.pumpFeeProgram < |table| && table[alt.pumpFeeProgram] == s.pumpFeeProgram
  }

  /** The runtime keys, one by one. */
  predicate KeysAre(keys: seq<Key>, p: Programs, inp: LaunchInputs, s: Shared) {
    && |keys| == 27
    && keys[0] == inp.user && keys[1] == inp.mint && keys[2] == inp.bondingCurve
    && keys[3] == inp.associatedBondingCurve && keys[4] == inp.mayhemState && keys[5] == inp.mayhemTokenVault
    && keys[6] == inp.feeRecipient && keys[7] == inp.creatorVault && keys[8] == inp.userVolumeAccumulator
    && keys[9] == inp.associatedUser && keys[10] == inp.tipRecipient && keys[11] == inp.buybackFeeRecipient
    && keys[12] == inp.bondingCurveV2 && keys[13] == SYSTEM_PROGRAM && keys[14] == p.ata
    && keys[15] == p.computeBudget && keys[16] == p.pump && keys[17] == s.mayhemProgram
    && keys[18] == s.solVault && keys[19] == s.mintAuthority && keys[20] == s.global
    && keys[21] == s.token2022Program && keys[22] == s.globalParams && keys[23] == s.eventAuthority
    && keys[24] == s.globalVolumeAccumulator && keys[25] == s.feeConfig && keys[26] == s.pumpFeeProgram
  }

  lemma {:induction false} RuntimeKeysAre(p: Programs, inp: LaunchInputs, table: seq<Key>, s: Shared)
    requires AltPointsAt(inp.alt, table, s)
    ensures KeysAre(RuntimeKeys(LaunchMsg(p, inp), table), p, inp, s)
  {
    KeysFrom(StaticKeys(p, inp), LookUp(table, Footer(inp.alt).writable), LookUp(table, Footer(inp.alt).readonly), p, inp, s);
  }

  lemma {:induction false} KeysFrom(statics: seq<Key>, w: seq<Key>, r: seq<Key>, p: Programs, inp: LaunchInputs, s: Shared)
    requires statics == StaticKeys(p, inp) && |w| == 2 && |r| == 8
    requires w[0] == s.mayhemProgram && w[1] == s.solVault
    requires r[0] == s.mintAuthority && r[1] == s.global && r[2] == s.token2022Program && r[3] == s.globalParams
    requires r[4] == s.eventAuthority && r[5] == s.globalVolumeAccumulator && r[6] == s.feeConfig && r[7] == s.pumpFeeProgram
    ensures KeysAre(statics + w + r, p, inp, s)
  {
  }

  lemma {:induction false} IndicesInRange(inp: LaunchInputs, i: nat)
    requires i < 6
    ensures Instructions(inp)[i].programIdIndex < 17
    ensures forall k :: 0 <= k < |Instructions(inp)[i].accounts| ==> Instructions(inp)[i].accounts[k] < 27
  {
  }

  lemma {:induction false} CreateResolves(keys: seq<Key>)
    requires |keys| == 27
    ensures Resolves(keys, CreateV2Accounts(), [
      keys[1], keys[19], keys[2], keys[3], keys[20], keys[0], keys[13], keys[21],
      keys[14], keys[17], keys[22], keys[18], keys[4], keys[5], keys[23], keys[16]])
  {
  }

  lemma {:induction false} AtaResolves(keys: seq<Key>)
    requires |keys| == 27
    ensures Resolves(keys, AtaAccounts(), [keys[0], keys[9], keys[0], keys[1], keys[13], keys[21]])
  {
  }

  lemma {:induction false} BuyResolves(keys: seq<Key>)
    requires |keys| == 27
    ensures Resolves(keys, BuyAccounts(), [
      keys[20], keys[6], keys[1], keys[2], keys[3], keys[9], keys[0], keys[13], keys[21],
      keys[7], keys[23], keys[16], keys[24], keys[8], keys[25], keys[26], keys[12], keys[11]])
  {
  }

  /** Every index an instruction uses resolves, and every program it invokes is one
      of the inlined static keys. */
  lemma {:induction false} IndicesResolve(p: Programs, inp: LaunchInputs, table: seq<Key>, s: Shared, i: nat)
    requires AltPointsAt(inp.alt, table, s) && i < 6
    ensures
      var m := LaunchMsg(p, inp);
      var ix := Instructions(inp)[i];
      && m.message.instructions == Instructions(inp)
      && ix.programIdIndex < |m.message.keys|
      && forall k :: 0 <= k < |ix.accounts| ==> ix.accounts[k] < |RuntimeKeys(m, table)|
  {
    RuntimeKeysAre(p, inp, table, s);
    IndicesInRange(inp, i);
  }

  /** The account lists of the create, token-account, buy and tip calls name the
      arguments of the programs they call, in order. */
  predicate ArgumentsInOrder(keys: seq<Key>, ixs: seq<Instruction>, p: Programs, inp: LaunchInputs, s: Shared) {
    && |ixs| == 6
    && Resolves(keys, ixs[2].accounts, [
         inp.mint, s.mintAuthority, inp.bondingCurve, inp.associatedBondingCurve, s.global, inp.user,
         SYSTEM_PROGRAM, s.token2022Program, p.ata, s.mayhemProgram, s.globalParams, s.solVault,
         inp.mayhemState, inp.mayhemTokenVault, s.eventAuthority, p.pump])
    && Resolves(keys, ixs[3].accounts, [
         inp.user, inp.associatedUser, inp.user, inp.mint, SYSTEM_PROGRAM, s.token2022Program])
    && Resolves(keys, ixs[4].accounts, [
         s.global, inp.feeRecipient, inp.mint, inp.bondingCurve, inp.associatedBondingCurve,
         inp.associatedUser, inp.user, SYSTEM_PROGRAM, s.token2022Program, inp.creatorVault,
         s.eventAuthority, p.pump, s.globalVolumeAccumulator, inp.userVolumeAccumulator,
         s.feeConfig, s.pumpFeeProgram, inp.bondingCurveV2, inp.buybackFeeRecipient])
    && Resolves(keys, ixs[5].accounts, [inp.user, inp.tipRecipient])
  }

  lemma {:induction false} KeysInOrder(keys: seq<Key>, p: Programs, inp: LaunchInputs, s: Shared)
    requires KeysAre(keys, p, inp, s)
    ensures ArgumentsInOrder(keys, Instructions(inp), p, inp, s)
  {
    CreateResolves(keys);
    AtaResolves(keys);
    BuyResolves(keys);
    TipResolves(keys, inp);
  }

  lemma {:induction false} TipResolves(keys: seq<Key>, inp: LaunchInputs)
    requires |keys| == 27
    ensures Resolves(keys, TipIx(inp).accounts, [keys[0], keys[10]])
  {
  }

  /** The lookup table has an entry at every index a message's footer uses. */
  predicate TableReaches(m: V0Message, table: seq<Key>) {
    && |m.lookups| == 1
    && (forall i :: 0 <= i < |m.lookups[0].writable| ==> m.lookups[0].writable[i] < |table|)
    && (forall i :: 0 <= i < |m.lookups[0].readonly| ==> m.lookups[0].readonly[i] < |table|)
  }

  predicate CallsInOrder(m: V0Message, table: seq<Key>, p: Programs, inp: LaunchInputs, s: Shared) {
    TableReaches(m, table) && ArgumentsInOrder(RuntimeKeys(m, table), m.message.instructions, p, inp, s)
  }

  lemma {:induction false} MessageInOrder(p: Programs, inp: LaunchInputs, table: seq<Key>, s: Shared)
    requires AltPointsAt(inp.alt, table, s)
    ensures CallsInOrder(LaunchMsg(p, inp), table, p, inp, s)
  {
    FooterReaches(p, inp, table, s);
    RuntimeKeysAre(p, inp, table, s);
    KeysInOrder(RuntimeKeys(LaunchMsg(p, inp), table), p, inp, s);
  }

  lemma {:induction false} FooterReaches(p: Programs, inp: LaunchInputs, table: seq<Key>, s: Shared)
    requires AltPointsAt(inp.alt, table, s)
    ensures TableReaches(LaunchMsg(p, inp), table) && LaunchMsg(p, inp).message.instructions == Instructions(inp)
  {
  }

  /** The bytes, parsed and resolved as the runtime does: every instruction's accounts
      are the keys its program expects, in the program's order. */
  lemma {:induction false} AccountsResolve(p: Programs, inp: LaunchInputs, table: seq<Key>, s: Shared)
    requires AltPointsAt(inp.alt, table, s) && 54 + inp.TextLen() < 0x1_0000
    ensures
      var m := ParseV0(EncV0(LaunchMsg(p, inp)));
      m.Some? && CallsInOrder(m.value, table, p, inp, s)
  {
    LaunchFits(p, inp);
    V0RoundTrip(LaunchMsg(p, inp));
    MessageInOrder(p, inp, table, s);
  }

  /** Header arithmetic: the runtime lets a program write an account exactly when
      it is one of the first twelve static keys or a writable table entry. */
  predicate Writable(m: V0Message, i: nat) {
    var statics := |m.message.keys|;
    if i < statics then WritableAt(m.message, i)
    else |m.lookups| > 0 && i < statics + |m.lookups[0].writable|
  }

  lemma {:induction false} WritableAccounts(p: Programs, inp: LaunchInputs, i: nat)
    requires i < 27
    ensures Writable(LaunchMsg(p, inp), i) <==> i <= ACC_BUYBACK_FEE_RECIPIENT || i == ACC_MAYHEM_PROGRAM || i == ACC_SOL_VAULT
  {
  }
}
