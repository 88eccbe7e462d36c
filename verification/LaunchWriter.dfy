/** The in-place writer of the launch message and the signed transaction buffer
    (src/pumpfun/ix_builder/ix.rs, src/pumpfun/tx.rs). */
module LaunchWriter {
  import opened Common
  import opened WireFormat
  import opened TransferTx
  import opened LaunchMessage

  /** How a write ends: out of bounds, or with the number the source returns, an
      advanced position or a byte count. */
  datatype Written = Panic | Done(n: nat)
  {
    predicate IsFailure() {
      Panic?
    }

    function PropagateFailure(): Written
      requires IsFailure()
    {
      Panic
    }

    function Extract(): nat
      requires !IsFailure()
    {
      n
    }
  }

  /** `buf[pos..pos + s.len()].copy_from_slice(s)`, returning the advanced position. */
  method Put(buf: array<byte>, pos: nat, s: Bytes) returns (r: Written)
    modifies buf
    ensures r.Panic? <==> pos + |s| > buf.Length
    ensures r.Done? ==> r.n == pos + |s| && buf[..r.n] == old(buf[..pos]) + s
    ensures r.Done? ==> forall i :: r.n <= i < buf.Length ==> buf[i] == old(buf[i])
  {
    if pos + |s| > buf.Length {
      return Panic;
    }
    forall i | 0 <= i < |s| {
      buf[pos + i] := s[i];
    }
    assert forall i :: 0 <= i < pos ==> buf[..pos + |s|][i] == old(buf[..pos])[i];
    return Done(pos + |s|);
  }

  /** `write_shortvec`: returns the number of bytes written. */
  method WriteShortVec(buf: array<byte>, pos: nat, len: nat) returns (r: Written)
    requires pos <= buf.Length
    modifies buf
    ensures r.Panic? <==> pos + ShortVecLen(len) > buf.Length
    ensures r.Done? ==> r.n == ShortVecLen(len) && buf[..pos + r.n] == old(buf[..pos]) + ShortVec(len)
    ensures r.Done? ==> forall i :: pos + r.n <= i < buf.Length ==> buf[i] == old(buf[i])
  {
    var written := 0;
    var n := len;
    ghost var target := buf[..pos] + ShortVec(len);
    while true
      invariant written + ShortVecLen(n) == ShortVecLen(len) && pos + written <= buf.Length
      invariant buf[..pos + written] + ShortVec(n) == target
      invariant forall i :: pos + written <= i < buf.Length ==> buf[i] == old(buf[i])
      decreases n
    {
      var b: byte := n % 128;
      if n / 128 == 0 {
        var end :- Put(buf, pos + written, [b]);
        return Done(written + 1);
      }
      Assoc(buf[..pos + written], [b + 128], ShortVec(n / 128));
      var end :- Put(buf, pos + written, [b + 128]);
      written := written + 1;
      n := n / 128;
    }
  }

  /** `write_str`: returns the number of bytes written. */
  method WriteStr(buf: array<byte>, pos: nat, s: Bytes) returns (r: Written)
    requires pos <= buf.Length
    modifies buf
    ensures r.Panic? <==> pos + 4 + |s| > buf.Length
    ensures r.Done? ==> r.n == 4 + |s| && buf[..pos + r.n] == old(buf[..pos]) + EncStr(s)
    ensures r.Done? ==> forall i :: pos + r.n <= i < buf.Length ==> buf[i] == old(buf[i])
  {
    ghost var before := buf[..pos];
    var p :- Put(buf, pos, Le(|s|, 4));
    p :- Put(buf, p, s);
    Assoc(before, Le(|s|, 4), s);
    return Done(4 + |s|);
  }

  // ---------------------------------------------------------------- sections

  method WriteHeader(buf: array<byte>, pos0: nat) returns (r: Written)
    modifies buf
    ensures r.Panic? <==> pos0 + 5 > buf.Length
    ensures r.Done? ==>
      r.n == pos0 + 5 && buf[..r.n] == old(buf[..pos0]) + ([V0_PREFIX] + (EncHeader(Header(2, 0, 5)) + Count(17)))
    ensures r.Done? ==> forall i :: r.n <= i < buf.Length ==> buf[i] == old(buf[i])
  {
    ghost var before := if pos0 <= buf.Length then buf[..pos0] else [];
    var pos :- Put(buf, pos0, [V0_PREFIX]);
    pos :- Put(buf, pos, [2]);
    pos :- Put(buf, pos, [0]);
    pos :- Put(buf, pos, [5]);
    pos :- Put(buf, pos, [17]);
    SmallCounts();
    assert before + [V0_PREFIX] + [2] + [0] + [5] + [17] == before + ([V0_PREFIX] + (EncHeader(Header(2, 0, 5)) + [17]));
    return Done(pos);
  }

  method WriteKeys(buf: array<byte>, pos0: nat, keys: seq<Key>) returns (r: Written)
    requires pos0 <= buf.Length
    modifies buf
    ensures r.Panic? <==> pos0 + 32 * |keys| > buf.Length
    ensures r.Done? ==> r.n == pos0 + 32 * |keys| && buf[..r.n] == old(buf[..pos0]) + EncMany(EncKey, keys)
    ensures r.Done? ==> forall i :: r.n <= i < buf.Length ==> buf[i] == old(buf[i])
  {
    ghost var before := buf[..pos0];
    var pos := pos0;
    for k := 0 to |keys|
      invariant pos == pos0 + 32 * k <= buf.Length
      invariant buf[..pos] == before + EncMany(EncKey, keys[..k])
      invariant forall i :: pos <= i < buf.Length ==> buf[i] == old(buf[i])
    {
      assert keys[..k + 1] == keys[..k] + [keys[k]];
      EncManySnoc(EncKey, keys[..k], keys[k]);
      Assoc(before, EncMany(EncKey, keys[..k]), keys[k]);
      pos :- Put(buf, pos, keys[k]);
    }
    assert keys[..|keys|] == keys;
    return Done(pos);
  }

  /** Instructions 1 and 2: compute-unit price, then limit. */
  method WriteBudget(buf: array<byte>, pos0: nat, tag: byte, value: Bytes) returns (r: Written)
    requires 1 + |value| < 128 && pos0 <= buf.Length
    modifies buf
    ensures r.Panic? <==> pos0 + 4 + |value| > buf.Length
    ensures r.Done? ==>
      && r.n == pos0 + 4 + |value|
      && buf[..r.n] == old(buf[..pos0]) + EncInstruction(Instruction(ACC_COMPUTE_BUDGET_PROGRAM, [], [tag] + value))
    ensures r.Done? ==> forall i :: r.n <= i < buf.Length ==> buf[i] == old(buf[i])
  {
    ghost var before := buf[..pos0];
    var pos :- Put(buf, pos0, [ACC_COMPUTE_BUDGET_PROGRAM]);
    pos :- Put(buf, pos, [0]);
    pos :- Put(buf, pos, [1 + |value|]);
    pos :- Put(buf, pos, [tag]);
    pos :- Put(buf, pos, value);
    PlainInstruction(before, Instruction(ACC_COMPUTE_BUDGET_PROGRAM, [], [tag] + value));
    Assoc(before + [ACC_COMPUTE_BUDGET_PROGRAM] + [0] + [1 + |value|], [tag], value);
    assert before + [ACC_COMPUTE_BUDGET_PROGRAM] + [0] + [] == before + [ACC_COMPUTE_BUDGET_PROGRAM] + [0];
    return Done(pos);
  }

  /** An instruction with one-byte counts, field by field. */
  lemma {:induction false} PlainInstruction(before: Bytes, i: Instruction)
    requires |i.accounts| < 128 && |i.data| < 128
    ensures before + EncInstruction(i)
         == before + [i.programIdIndex] + [|i.accounts|] + i.accounts + [|i.data|] + i.data
  {
    SmallCount(|i.accounts|);
    SmallCount(|i.data|);
    FieldsOf(before, [i.programIdIndex], [|i.accounts|], i.accounts, [|i.data|], i.data);
  }

  lemma {:induction false} SmallCount(n: nat)
    requires n < 128
    ensures Count(n) == [n]
  {
  }

  lemma {:induction false} FieldsOf(before: Bytes, p: Bytes, na: Bytes, a: Bytes, nd: Bytes, d: Bytes)
    ensures before + (p + (na + a) + (nd + d)) == before + p + na + a + nd + d
  {
    Assoc(before + p, na, a);
    Assoc(before, p, na + a);
    Assoc(before, p + (na + a), nd + d);
    Assoc(before + p + na + a, nd, d);
  }

  /** Instruction 3: create_v2. */
  method WriteCreate(buf: array<byte>, pos0: nat, inp: LaunchInputs) returns (r: Written)
    requires pos0 <= buf.Length
    modifies buf
    ensures r.Panic? <==> pos0 + |EncInstruction(CreateIx(inp))| > buf.Length
    ensures r.Done? ==>
      && r.n == pos0 + |EncInstruction(CreateIx(inp))|
      && buf[..r.n] == old(buf[..pos0]) + EncInstruction(CreateIx(inp))
    ensures r.Done? ==> forall i :: r.n <= i < buf.Length ==> buf[i] == old(buf[i])
  {
    ghost var before := buf[..pos0];
    CreateLength(inp);
    var pos :- WriteCreateHead(buf, pos0);
    pos :- WriteCreateCount(buf, pos, inp);
    pos :- WriteCreateData(buf, pos, inp);
    CreateBytes(before, inp);
    return Done(pos);
  }

  /** The length of the create data, as a compact count. */
  method WriteCreateCount(buf: array<byte>, pos0: nat, inp: LaunchInputs) returns (r: Written)
    requires pos0 <= buf.Length
    modifies buf
    ensures r.Panic? <==> pos0 + |Count(54 + inp.TextLen())| > buf.Length
    ensures r.Done? ==>
      r.n == pos0 + |Count(54 + inp.TextLen())| && buf[..r.n] == old(buf[..pos0]) + Count(54 + inp.TextLen())
    ensures r.Done? ==> forall i :: r.n <= i < buf.Length ==> buf[i] == old(buf[i])
  {
    var createV2DataLen := 8 + 4 + |inp.name| + 4 + |inp.symbol| + 4 + |inp.uri| + 32 + 1 + 1;
    assert createV2DataLen == 54 + inp.TextLen();
    var n :- WriteShortVec(buf, pos0, createV2DataLen % 0x1_0000);
    return Done(pos0 + n);
  }

  method WriteCreateHead(buf: array<byte>, pos0: nat) returns (r: Written)
    requires pos0 <= buf.Length
    modifies buf
    ensures r.Panic? <==> pos0 + 18 > buf.Length
    ensures r.Done? ==> r.n == pos0 + 18
    ensures r.Done? ==> buf[..r.n] == old(buf[..pos0]) + [ACC_PUMP_PROGRAM] + [16] + CreateV2Accounts()
    ensures r.Done? ==> forall i :: r.n <= i < buf.Length ==> buf[i] == old(buf[i])
  {
    var pos :- Put(buf, pos0, [ACC_PUMP_PROGRAM]);
    pos :- Put(buf, pos, [16]);
    pos :- Put(buf, pos, CreateV2Accounts());
    return Done(pos);
  }

  lemma {:induction false} CreateBytes(before: Bytes, inp: LaunchInputs)
    ensures before + [ACC_PUMP_PROGRAM] + [16] + CreateV2Accounts() + Count(54 + inp.TextLen()) + CreateData(inp)
         == before + EncInstruction(CreateIx(inp))
  {
    CreateLength(inp);
    SmallCounts();
    FieldsOf(before, [ACC_PUMP_PROGRAM], [16], CreateV2Accounts(), Count(54 + inp.TextLen()), CreateData(inp));
  }

  method WriteCreateData(buf: array<byte>, pos0: nat, inp: LaunchInputs) returns (r: Written)
    requires pos0 <= buf.Length
    modifies buf
    ensures r.Panic? <==> pos0 + |CreateData(inp)| > buf.Length
    ensures r.Done? ==> r.n == pos0 + |CreateData(inp)| && buf[..r.n] == old(buf[..pos0]) + CreateData(inp)
    ensures r.Done? ==> forall i :: r.n <= i < buf.Length ==> buf[i] == old(buf[i])
  {
    ghost var before := buf[..pos0];
    CreateDataLength(inp);
    var pos :- Put(buf, pos0, CreateV2Discriminator());
    pos :- WriteTexts(buf, pos, inp.name, inp.symbol, inp.uri);
    pos :- Put(buf, pos, inp.user);
    pos :- Put(buf, pos, [0]);
    pos :- Put(buf, pos, [0]);
    CreateParts(before, CreateV2Discriminator(), EncStr(inp.name), EncStr(inp.symbol), EncStr(inp.uri), inp.user, [0]);
    return Done(pos);
  }

  method WriteTexts(buf: array<byte>, pos0: nat, a: Bytes, b: Bytes, c: Bytes) returns (r: Written)
    requires pos0 <= buf.Length
    modifies buf
    ensures r.Panic? <==> pos0 + 12 + |a| + |b| + |c| > buf.Length
    ensures r.Done? ==> r.n == pos0 + 12 + |a| + |b| + |c|
    ensures r.Done? ==> buf[..r.n] == old(buf[..pos0]) + EncStr(a) + EncStr(b) + EncStr(c)
    ensures r.Done? ==> forall i :: r.n <= i < buf.Length ==> buf[i] == old(buf[i])
  {
    var pos := pos0;
    var n :- WriteStr(buf, pos, a);
    pos := pos + n;
    n :- WriteStr(buf, pos, b);
    pos := pos + n;
    n :- WriteStr(buf, pos, c);
    return Done(pos + n);
  }

  lemma {:induction false} CreateParts(a: Bytes, b: Bytes, c: Bytes, d: Bytes, e: Bytes, f: Bytes, g: Bytes)
    ensures a + b + c + d + e + f + g + g == a + (b + (c + (d + (e + (f + (g + g))))))
  {
    Assoc(a + b + c + d + e + f, g, g);
    Assoc(a + b + c + d + e, f, g + g);
    Assoc6(a, b, c, d, e, f + (g + g));
  }

  /** Instruction 4: idempotent token-account creation. */
  method WriteAta(buf: array<byte>, pos0: nat) returns (r: Written)
    requires pos0 <= buf.Length
    modifies buf
    ensures r.Panic? <==> pos0 + 10 > buf.Length
    ensures r.Done? ==> r.n == pos0 + 10 && buf[..r.n] == old(buf[..pos0]) + EncInstruction(AtaIx())
    ensures r.Done? ==> forall i :: r.n <= i < buf.Length ==> buf[i] == old(buf[i])
  {
    ghost var before := buf[..pos0];
    var pos :- Put(buf, pos0, [ACC_ATA_PROGRAM]);
    pos :- Put(buf, pos, [6]);
    pos :- Put(buf, pos, AtaAccounts());
    pos :- Put(buf, pos, [1]);
    pos :- Put(buf, pos, [0x01]);
    PlainInstruction(before, AtaIx());
    return Done(pos);
  }

  /** Instruction 5: buy. */
  method WriteBuy(buf: array<byte>, pos0: nat, inp: LaunchInputs) returns (r: Written)
    requires pos0 <= buf.Length
    modifies buf
    ensures r.Panic? <==> pos0 + 46 > buf.Length
    ensures r.Done? ==> r.n == pos0 + 46 && buf[..r.n] == old(buf[..pos0]) + EncInstruction(BuyIx(inp))
    ensures r.Done? ==> forall i :: r.n <= i < buf.Length ==> buf[i] == old(buf[i])
  {
    ghost var before := buf[..pos0];
    var pos :- Put(buf, pos0, [ACC_PUMP_PROGRAM]);
    pos :- Put(buf, pos, [18]);
    pos :- Put(buf, pos, BuyAccounts());
    pos :- Put(buf, pos, [25]);
    pos :- Put(buf, pos, BuyDiscriminator());
    pos :- Put(buf, pos, Le(inp.buyAmountTokens, 8));
    pos :- Put(buf, pos, Le(inp.buyMaxSolCost, 8));
    pos :- Put(buf, pos, [if inp.trackVolume then 1 else 0]);
    BuyBytes(before, inp);
    return Done(pos);
  }

  lemma {:induction false} BuyBytes(before: Bytes, inp: LaunchInputs)
    ensures before + [ACC_PUMP_PROGRAM] + [18] + BuyAccounts() + [25] + BuyDiscriminator()
              + Le(inp.buyAmountTokens, 8) + Le(inp.buyMaxSolCost, 8) + [if inp.trackVolume then 1 else 0]
         == before + EncInstruction(BuyIx(inp))
  {
    PlainInstruction(before, BuyIx(inp));
    Assoc5(before + [ACC_PUMP_PROGRAM] + [18] + BuyAccounts() + [25], BuyDiscriminator(),
           Le(inp.buyAmountTokens, 8), Le(inp.buyMaxSolCost, 8), [if inp.trackVolume then 1 else 0]);
  }

  lemma {:induction false} Assoc5(a: Bytes, b: Bytes, c: Bytes, d: Bytes, e: Bytes)
    ensures a + b + c + d + e == a + (b + (c + (d + e)))
  {
    Assoc(a + b + c, d, e);
    Assoc(a + b, c, d + e);
    Assoc(a, b, c + (d + e));
  }

  /** Instruction 6: tip transfer. */
  method WriteTip(buf: array<byte>, pos0: nat, inp: LaunchInputs) returns (r: Written)
    requires pos0 <= buf.Length
    modifies buf
    ensures r.Panic? <==> pos0 + 17 > buf.Length
    ensures r.Done? ==> r.n == pos0 + 17 && buf[..r.n] == old(buf[..pos0]) + EncInstruction(TipIx(inp))
    ensures r.Done? ==> forall i :: r.n <= i < buf.Length ==> buf[i] == old(buf[i])
  {
    ghost var before := buf[..pos0];
    var pos :- Put(buf, pos0, [ACC_SYSTEM_PROGRAM]);
    pos :- Put(buf, pos, [2]);
    pos :- Put(buf, pos, [ACC_USER]);
    pos :- Put(buf, pos, [ACC_TIP_RECIPIENT]);
    pos :- Put(buf, pos, [12]);
    pos :- Put(buf, pos, Le(2, 4));
    pos :- Put(buf, pos, Le(inp.tipLamports, 8));
    SmallCounts();
    Assoc8(before, [ACC_SYSTEM_PROGRAM], [2], [ACC_USER], [ACC_TIP_RECIPIENT], [12], Le(2, 4), Le(inp.tipLamports, 8));
    return Done(pos);
  }

  /** The address-lookup footer. */
  method WriteFooter(buf: array<byte>, pos0: nat, alt: AltIndices) returns (r: Written)
    requires pos0 <= buf.Length
    modifies buf
    ensures r.Panic? <==> pos0 + 45 > buf.Length
    ensures r.Done? ==> r.n == pos0 + 45 && buf[..r.n] == old(buf[..pos0]) + (Count(1) + EncMany(EncLookup, [Footer(alt)]))
    ensures r.Done? ==> forall i :: r.n <= i < buf.Length ==> buf[i] == old(buf[i])
  {
    ghost var before := buf[..pos0];
    var pos :- Put(buf, pos0, [1]);
    pos :- Put(buf, pos, alt.altPubkey);
    pos :- Put(buf, pos, [2]);
    pos :- Put(buf, pos, [alt.mayhemProgram]);
    pos :- Put(buf, pos, [alt.solVault]);
    pos :- WriteReadonly(buf, pos, alt);
    EncManyOne(EncLookup, Footer(alt));
    SmallCounts();
    FooterBytes(before, alt);
    return Done(pos);
  }

  method WriteReadonly(buf: array<byte>, pos0: nat, alt: AltIndices) returns (r: Written)
    requires pos0 <= buf.Length
    modifies buf
    ensures r.Panic? <==> pos0 + 9 > buf.Length
    ensures r.Done? ==> r.n == pos0 + 9 && buf[..r.n] == old(buf[..pos0]) + ([8] + Footer(alt).readonly)
    ensures r.Done? ==> forall i :: r.n <= i < buf.Length ==> buf[i] == old(buf[i])
  {
    ghost var before := buf[..pos0];
    var pos :- Put(buf, pos0, [8]);
    pos :- WriteFour(buf, pos, alt.mintAuthority, alt.global, alt.token2022Program, alt.globalParams);
    pos :- WriteFour(buf, pos, alt.eventAuthority, alt.globalVolumeAccumulator, alt.feeConfig, alt.pumpFeeProgram);
    NineBytes(before, 8, alt.mintAuthority, alt.global, alt.token2022Program, alt.globalParams,
              alt.eventAuthority, alt.globalVolumeAccumulator, alt.feeConfig, alt.pumpFeeProgram);
    return Done(pos);
  }

  method WriteFour(buf: array<byte>, pos0: nat, a: byte, b: byte, c: byte, d: byte) returns (r: Written)
    requires pos0 <= buf.Length
    modifies buf
    ensures r.Panic? <==> pos0 + 4 > buf.Length
    ensures r.Done? ==> r.n == pos0 + 4 && buf[..r.n] == old(buf[..pos0]) + [a] + [b] + [c] + [d]
    ensures r.Done? ==> forall i :: r.n <= i < buf.Length ==> buf[i] == old(buf[i])
  {
    var pos :- Put(buf, pos0, [a]);
    pos :- Put(buf, pos, [b]);
    pos :- Put(buf, pos, [c]);
    pos :- Put(buf, pos, [d]);
    return Done(pos);
  }

  lemma {:induction false} NineBytes(
      before: Bytes, a: byte, b: byte, c: byte, d: byte, e: byte, f: byte, g: byte, h: byte, i: byte)
    ensures before + [a] + [b] + [c] + [d] + [e] + [f] + [g] + [h] + [i]
         == before + ([a] + [b, c, d, e, f, g, h, i])
  {
  }

  lemma {:induction false} FooterBytes(before: Bytes, alt: AltIndices)
    ensures before + [1] + alt.altPubkey + [2] + [alt.mayhemProgram] + [alt.solVault] + ([8] + Footer(alt).readonly)
         == before + ([1] + EncLookup(Footer(alt)))
  {
    SmallCounts();
    var w, r := Footer(alt).writable, Footer(alt).readonly;
    var head := before + [1] + alt.altPubkey;
    Assoc(head + [2], [alt.mayhemProgram], [alt.solVault]);
    Assoc(head, [2], w);
    Assoc(head, [2] + w, [8] + r);
    Assoc(before + [1], alt.altPubkey, ([2] + w) + ([8] + r));
    Assoc(before, [1], EncLookup(Footer(alt)));
  }

  // ---------------------------------------------------------------- whole message

  /** The six instructions, in order. */
  method WriteInstructions(buf: array<byte>, pos0: nat, inp: LaunchInputs) returns (r: Written)
    requires pos0 <= buf.Length
    modifies buf
    ensures r.Panic? <==> pos0 + 93 + |EncInstruction(CreateIx(inp))| > buf.Length
    ensures r.Done? ==>
      && r.n == pos0 + 93 + |EncInstruction(CreateIx(inp))|
      && buf[..r.n] == old(buf[..pos0]) + EncMany(EncInstruction, Instructions(inp))
    ensures r.Done? ==> forall i :: r.n <= i < buf.Length ==> buf[i] == old(buf[i])
  {
    ghost var before := buf[..pos0];
    var pos :- WriteBudget(buf, pos0, 3, Le(inp.cuPriceMicroLamports, 8));
    pos :- WriteBudget(buf, pos, 2, Le(inp.cuLimit, 4));
    pos :- WriteCreate(buf, pos, inp);
    pos :- WriteAta(buf, pos);
    pos :- WriteBuy(buf, pos, inp);
    pos :- WriteTip(buf, pos, inp);
    InstructionsBytes(inp);
    Assoc7(before, EncInstruction(PriceIx(inp)), EncInstruction(LimitIx(inp)), EncInstruction(CreateIx(inp)),
           EncInstruction(AtaIx()), EncInstruction(BuyIx(inp)), EncInstruction(TipIx(inp)));
    return Done(pos);
  }

  /** `write_create_v2_and_buy_message`, into any buffer: every write is in bounds
      exactly when the buffer reaches the end offset. Then what lies before the message
      and after it is untouched, and what the buffer held in between does not matter. */
  method WriteCreateV2AndBuyMessage(buf: array<byte>, p: Programs, inp: LaunchInputs) returns (r: Written)
    modifies buf
    ensures r.Panic? <==> LaunchEnd(inp) > buf.Length
    ensures r.Done? ==>
      r.n == LaunchEnd(inp) && buf[..r.n] == old(buf[..SIG_SECTION_LEN]) + EncV0(LaunchMsg(p, inp))
    ensures r.Done? ==> forall i :: r.n <= i < buf.Length ==> buf[i] == old(buf[i])
  {
    ghost var before := if SIG_SECTION_LEN <= buf.Length then buf[..SIG_SECTION_LEN] else [];
    SectionLengths(inp);
    var pos :- WriteFront(buf, p, inp);
    pos :- WriteInstructions(buf, pos, inp);
    pos :- WriteFooter(buf, pos, inp.alt);
    WholeMessage(before, p, inp);
    LaunchLength(p, inp);
    return Done(pos);
  }

  /** Header, static keys, blockhash, and the number of instructions. */
  method WriteFront(buf: array<byte>, p: Programs, inp: LaunchInputs) returns (r: Written)
    modifies buf
    ensures r.Panic? <==> SIG_SECTION_LEN + 582 > buf.Length
    ensures r.Done? ==>
      && r.n == SIG_SECTION_LEN + 582
      && buf[..r.n] == old(buf[..SIG_SECTION_LEN]) + ([V0_PREFIX] + (EncHeader(Header(2, 0, 5)) + Count(17)))
                       + EncMany(EncKey, StaticKeys(p, inp)) + inp.recentBlockhash + [6]
    ensures r.Done? ==> forall i :: r.n <= i < buf.Length ==> buf[i] == old(buf[i])
  {
    var pos :- WriteHeader(buf, SIG_SECTION_LEN);
    pos :- WriteKeys(buf, pos, StaticKeys(p, inp));
    pos :- Put(buf, pos, inp.recentBlockhash);
    pos :- Put(buf, pos, [6]);
    return Done(pos);
  }

  lemma {:induction false} SectionLengths(inp: LaunchInputs)
    ensures LaunchEnd(inp) == SIG_SECTION_LEN + 582 + 93 + |EncInstruction(CreateIx(inp))| + 45
  {
    CreateLength(inp);
  }

  lemma {:induction false} Assoc7(a: Bytes, b: Bytes, c: Bytes, d: Bytes, e: Bytes, f: Bytes, g: Bytes)
    ensures a + b + c + d + e + f + g == a + (b + (c + (d + (e + (f + g)))))
  {
    Assoc(a + b + c + d + e, f, g);
    Assoc6(a, b, c, d, e, f + g);
  }

  lemma {:induction false} WholeMessage(before: Bytes, p: Programs, inp: LaunchInputs)
    ensures
      var m := LaunchMsg(p, inp);
      before + ([V0_PREFIX] + (EncHeader(m.message.header) + Count(17)))
             + EncMany(EncKey, m.message.keys) + inp.recentBlockhash + [6]
             + EncMany(EncInstruction, m.message.instructions)
             + (Count(1) + EncMany(EncLookup, m.lookups))
      == before + EncV0(m)
  {
    var m := LaunchMsg(p, inp);
    SmallCounts();
    WholeBytes(before, [V0_PREFIX], EncHeader(m.message.header), Count(17), EncMany(EncKey, m.message.keys),
               inp.recentBlockhash, [6], EncMany(EncInstruction, m.message.instructions),
               Count(1) + EncMany(EncLookup, m.lookups));
  }

  lemma {:induction false} WholeBytes(
      before: Bytes, v: Bytes, h: Bytes, nk: Bytes, k: Bytes, b: Bytes, ni: Bytes, i: Bytes, f: Bytes)
    ensures before + (v + (h + nk)) + k + b + ni + i + f
         == before + (v + ((h + (nk + (k + (b + (ni + i))))) + f))
  {
    var x := before + v + h + nk;
    Assoc(before + v, h, nk);
    Assoc(before, v, h + nk);
    Assoc5(x, k, b, ni, i);
    Assoc(before + v + h, nk, k + (b + (ni + i)));
    Assoc(before + v, h, nk + (k + (b + (ni + i))));
    var body := h + (nk + (k + (b + (ni + i))));
    Assoc(before + v, body, f);
    Assoc(before, v, body + f);
  }

  // ---------------------------------------------------------------- signed transaction

  /** The reusable transaction buffer. */
  class BuiltLaunchTx {
    const buf: array<byte>
    var len: nat

    constructor ()
      ensures fresh(buf) && buf.Length == MAX_TX_SIZE && len == 0
    {
      buf := new byte[MAX_TX_SIZE](_ => 0);
      len := 0;
    }

    /** `build_signed_launch_tx`: out of bounds exactly when the texts take more than
        309 bytes. Otherwise, whatever an earlier launch left in the buffer, its first
        len bytes become the two signatures over the message, then the message. */
    method BuildSigned(inp: LaunchInputs, funder: SigningKey, mint: SigningKey, sign: Signer) returns (r: Written)
      requires buf.Length == MAX_TX_SIZE
      modifies this, buf
      ensures r.Panic? <==> inp.TextLen() > 309
      ensures r.Panic? ==> len == old(len)
      ensures r.Done? ==> r.n == len == LaunchEnd(inp) <= MAX_TX_SIZE
      ensures r.Done? ==>
        var msg := EncV0(LaunchMsg(InlinedPrograms(), inp));
        buf[..len] == Count(2) + (EncMany(EncSignature, [sign(funder, msg), sign(mint, msg)]) + msg)
    {
      var p := InlinedPrograms();
      FitsIff(inp);
      LaunchLength(p, inp);
      var end :- WriteCreateV2AndBuyMessage(buf, p, inp);
      var msg := buf[SIG_SECTION_LEN..end];
      assert msg == buf[..end][SIG_SECTION_LEN..];
      assert msg == EncV0(LaunchMsg(p, inp));
      var funderSig := sign(funder, msg);
      var mintSig := sign(mint, msg);
      WriteSignatures(buf, funderSig, mintSig, end, msg);
      len := end;
      return Done(end);
    }
  }

  /** The signature section: a count of two, the wallet's, the mint's; the message behind
      it stays. */
  method WriteSignatures(buf: array<byte>, walletSig: Signature, mintSig: Signature, end: nat, ghost msg: Bytes)
    requires SIG_SECTION_LEN <= end <= buf.Length && buf[SIG_SECTION_LEN..end] == msg
    modifies buf
    ensures buf[..end] == Count(2) + (EncMany(EncSignature, [walletSig, mintSig]) + msg)
  {
    var front := Put(buf, 0, [2]);
    front := Put(buf, front.n, walletSig);
    front := Put(buf, front.n, mintSig);
    assert front.n == SIG_SECTION_LEN;
    assert buf[SIG_SECTION_LEN..end] == msg;
    assert buf[..end] == buf[..SIG_SECTION_LEN] + msg;
    TwoSignatures(walletSig, mintSig, msg);
  }

  lemma {:induction false} TwoSignatures(a: Signature, b: Signature, msg: Bytes)
    ensures [] + [2] + a + b + msg == Count(2) + (EncMany(EncSignature, [a, b]) + msg)
  {
    SmallCounts();
    AllSignatures(Count(2), a, [b], msg);
    EncManyOne(EncSignature, b);
    assert [a] + [b] == [a, b];
  }
}
