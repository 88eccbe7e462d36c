# Verification model of the launcher

The launcher fetches a leader schedule, compresses it into a per-epoch region
table, sweeps and recycles its wallets, takes a token from a roster, and then
counts the data shreds of each slot. When a slot led from the focus country
reaches a threshold it sends one hand-encoded create-and-buy transaction. This
project models the deterministic code behind each of those steps in Dafny and
proves what the steps promise, over every input and every run.

`dafny verify dfyconfig.toml` checks everything. There is one module per
component:

| module | source | what it is about |
|---|---|---|
| `LeaderMap`, `LeaderWindow`, `LeaderBuild` | `src/leaders/` | the leader file: built, loaded, queried, and read through a sliding 64-bit window |
| `Fees`, `Quote`, `BondingCurve`, `QuoteLaws`, `CurveRuns` | `src/pumpfun/quote.rs`, `docs/pump-sdk/src/` | the launch quote, the SDK quotes and what a run of trades can gain |
| `WireFormat`, `TransferTx` | `src/keys/transaction.rs` | the Solana message format with a parser, and the sweep and distribution builders |
| `LaunchMessage`, `LaunchWriter` | `src/pumpfun/ix_builder/ix.rs`, `src/pumpfun/tx.rs` | the launch message: what it means, and the writes that produce it |
| `Sweep`, `SweepLaws`, `Recycle` | `src/keys/` | the chunked sweep, its ledger and its reports; the gate before keys are overwritten |
| `Roster` | `src/pumpfun/tokens.rs` | two files and the crash between their writes |
| `Calendar` | `src/keys/time.rs` | day counts to dates |
| `Trigger`, `LaunchDecision` | `src/shreds/` | the shred counter over packet traces, and the decision from schedule and trace to launch |
| `Incentives` | `docs/pump-sdk/src/tokenIncentives.ts` | volume shares |
| `Common`, `Words`, `Quotients` | | shared vocabulary, 64-bit words, quotient facts |

Code that updates state is a class or a method with loops, each tied by its
`ensures` to a specification function or to the property itself; the results are
lemmas about those functions. Machine integers are naturals with the source's
widths, casts and wrapping written out. Replies from the chain, hash-map
iteration order, key generation and signatures are arbitrary parameters.

## What does not hold as documented

Each of these is proved with its exact condition or with a concrete input.

- The window claims to cover the slot it was slid to. After a slide to a slot just
  outside the epoch it can stay blank over slots inside it (`LeaderWindow.SlideAnswers`,
  `LeaderWindow.NearMissStrands`, `LeaderWindow.StrandedRun`).
- The loader accepts a one-slot file whose end lies before its start
  (`LeaderMap.BackwardsEpochAccepted`); a window over it is then unsound when that
  slot is marked (`LeaderWindow.FreshWindowSoundIff`).
- `allowed_mask` is documented to set every code that matches a name. It stops at
  the first match of each name, so a table that repeats a tag loses codes
  (`LeaderMap.AllowedMaskAsDocumented`).
- The builder does not check country length, client length or key encoding, so it
  can write a file its own loader refuses (`LeaderBuild.BuiltFileLoads`).
- The launch builder checks no length: texts of more than 309 bytes make it write out
  of bounds (`LaunchWriter.BuiltLaunchTx.BuildSigned`).
- The quote asks its caller only for a positive budget; with an empty virtual sol
  reserve and a budget of exactly 3 it divides by zero (`Quote.QuotePanicsIff`).
- Key recycling deletes every json file in the day's directory, including ones the
  gate never asked about, and in a run that crosses midnight it does so in the next
  day's directory (`Recycle.StrayFileLosesUnread`); a short balance reply lets it skip
  wallets (`Recycle.ShortReplyLosesUnread`). `Recycle.RecycleSafeIff` says exactly when
  a run is safe.
- The sweep builder prints its signer count in the byte whose top bit marks a
  version: past 126 children the bytes no longer read as a legacy transaction
  (`TransferTx.SweepReadsBack`, `WireFormat.LegacyRoundTrip`). The distribution signs
  once, and lasts until its one-byte account indices run out, at 254 recipients
  (`TransferTx.DistributeReadsBack`).
- The sweep tests only what the eater will hold after a chunk. It sends a chunk whose
  fee the eater cannot pay first, and that chunk does not execute
  (`Sweep.UnpayableChunk`, `Sweep.LoopExecutesIff`).
- A pool line that still ends in a carriage return after reading changes when it is
  rewritten, and can become a key the disk holds already; `Roster.HydrateDuplicatesIff`
  says exactly when, and `Roster.CarriageReturnDuplicates` is an instance.
- A user's incentive share is counted by neither function between the end of the
  program and the end of that day (`Incentives.ShareDropsOutIff`).

## Model

| member | source | states |
|---|---|---|
| `LeaderMap.TagRoundTrip` | `src/leaders/cache.rs:66-87` | a name that fits the tag width packs, and unpacks to itself exactly when it holds no NUL |
| `LeaderMap.TagInjective` | `src/leaders/cache.rs:66-77` | packing never confuses two NUL-free names |
| `LeaderMap.TagCollision` | `src/leaders/cache.rs:66-77` | two names share a tag exactly when they differ by trailing NULs |
| `LeaderMap.AsStrStopsAtNul` | `src/leaders/cache.rs:79-87` | unpacking reads up to the first NUL and no further |
| `LeaderMap.PackNames` | `src/leaders/cache.rs:256-281` | a table packs entry by entry exactly when every name is non-empty and fits |
| `LeaderMap.LoadValidator` | `src/leaders/cache.rs:284-324` | a validator record loads exactly when its keys decode and its indices are in their tables, with the first failing check as the error |
| `LeaderMap.FromWire` | `src/leaders/cache.rs:221-348` | the loader accepts exactly the well-formed files, reports the first failing check in source order, and a loaded map carries the file's contents |
| `LeaderMap.FileAcceptedIff` | `src/leaders/cache.rs:221-348` | which files load, condition by condition: lengths, span, table sizes, name lengths, decodable keys, codes inside their tables or 255 |
| `LeaderMap.BackwardsEpochAccepted` | `src/leaders/cache.rs:230-238` | a file whose end precedes its start passes when it has one slot, and only then |
| `LeaderMap.FocusCountAgrees` | `src/leaders/bootstrap.rs:84-101` | the focus count is the number of slots on which the focus test answers true, except on a backwards epoch |
| `LeaderMap.AllowedMask` | `src/leaders/cache.rs:354-370` | bit c of the mask is set exactly when c is the first table position of some allowed name |
| `LeaderMap.AllowedMaskAsDocumented` | `src/leaders/cache.rs:350-370` | the documented meaning of the mask holds exactly when no allowed name matches a repeated tag |
| `LeaderWindow.ReadU64AtBitOffset` | `src/leaders/window.rs:150-168` | bit j of the word read is bit o+j of the stream for every offset and length, zero past the end |
| `LeaderWindow.ReadIsUnique` | `src/leaders/window.rs:150-168` | no other word has those 64 stream bits |
| `LeaderWindow.BuildPresenceBitmap` | `src/leaders/window.rs:44-56` | the bitmap has the right number of words and bit i is set exactly when slot code i is below 64 and allowed |
| `LeaderWindow.FraWindow.constructor` | `src/leaders/window.rs:79-89` | a fresh window sits at the epoch start with the first 64 bits loaded |
| `LeaderWindow.FraWindow.FromMap` | `src/leaders/window.rs:94-98` | the window built from a map has a bitmap marking exactly the slots whose code an allowed name selects |
| `LeaderWindow.FraWindow.ContainsSlot` | `src/leaders/window.rs:107-115` | the membership test, with its wrapped offset and masked shift, is the specification's |
| `LeaderWindow.FraWindow.SlideTo` | `src/leaders/window.rs:121-139` | one slide moves the window value exactly as specified, keeping bitmap and bounds |
| `LeaderWindow.RunSound` | `src/leaders/window.rs:79-139` | after any sequence of slides, a slot the window claims is inside the epoch and marked, wrap-around included |
| `LeaderWindow.SlideAnswers` | `src/leaders/window.rs:107-139` | after sliding to h the window claims h exactly when h is marked and the early return did not keep a blank mask |
| `LeaderWindow.SlideAnswersEach` | `src/leaders/window.rs:121-139` | every answer after a slide: unchanged when h was among the 64 slots covered; otherwise the bitmap for the 64 slots from 31 before h (not before the epoch) when h is in the epoch; otherwise none |
| `LeaderWindow.FreshAnswersEach` | `src/leaders/window.rs:79-89` | a fresh window answers like the bitmap for the first 64 slots of the epoch and denies the rest |
| `LeaderWindow.ReloadLasts` | `src/leaders/window.rs:121-139` | over any further slides inside those 64 slots the window keeps answering like the bitmap for all of them |
| `LeaderWindow.RunAnswers` | `src/leaders/window.rs:107-139` | the same after any earlier sequence of slides |
| `LeaderWindow.RunAnswersEach` | `src/leaders/window.rs:107-139` | the answer for every slot, after any run and one more slide |
| `LeaderWindow.NearMissStrands` | `src/leaders/window.rs:126-132` | an out-of-epoch slide strands some epoch slot exactly when it lands so near that the blank window around it reaches the epoch without wrapping |
| `LeaderWindow.RunComplete` | `src/leaders/window.rs:121-139` | on runs without such slides, sliding to h always makes the window agree with the bitmap on h |
| `LeaderWindow.StrandedRun` | `src/leaders/window.rs:121-132` | a two-slide run after which a marked slot is denied |
| `LeaderWindow.FreshWindowSoundIff` | `src/leaders/window.rs:79-89` | a fresh window respects the epoch bounds exactly when they are in order or its one slot is unmarked |
| `LeaderWindow.FocusBitmap` | `src/leaders/window.rs:94-98` | the bitmap built for one country marks exactly its focus slots |
| `LeaderWindow.WindowMatchesIsFocus` | `src/leaders/window.rs:94-139` | for one country, over every run of slides, the window agrees with the focus test up to the blank-window case |
| `LeaderWindow.ReloadMatchesIsFocus` | `src/leaders/window.rs:94-139` | after any run, a reload around h answers like the focus test for each of its 64 slots, the 31 before h included, and denies the rest |
| `LeaderBuild.ParseCountry` | `src/leaders/fetch.rs:411-420` | a country, when found, is non-empty and dash-free |
| `LeaderBuild.ParseCountrySound` | `src/leaders/fetch.rs:411-420` | a country that is returned is the second dash-separated part of the key |
| `LeaderBuild.ParseCountryComplete` | `src/leaders/fetch.rs:411-420` | any key with a second part yields it, unless that part is empty |
| `LeaderBuild.MergeMetas` | `src/leaders/fetch.rs:78-109` | the merged metadata of every identity is its last vote account, last usable country and client, and last reported flag |
| `LeaderBuild.CountryIsLatest` | `src/leaders/fetch.rs:78-109` | a validator has a country exactly when some entry names it as the second part of its key and no later entry names one |
| `LeaderBuild.VoteIsLatest` | `src/leaders/fetch.rs:78-109` | its vote account is the last one listed for it |
| `LeaderBuild.FlagIsLatest` | `src/leaders/fetch.rs:78-109` | its dz flag is set exactly when its last entry sets it |
| `LeaderBuild.ClientIsLatest` | `src/leaders/fetch.rs:78-109` | its client is what the last entry with a non-empty trimmed name says |
| `LeaderBuild.Intern` | `src/leaders/fetch.rs:122-174` | interning succeeds exactly when the distinct names fit the cap, and gives a repeat-free table of exactly those names with its inverse |
| `LeaderBuild.FillSlots` | `src/leaders/fetch.rs:207-220` | slot i gets the code of the last validator listing it, or the unknown code |
| `LeaderBuild.BuildValidators` | `src/leaders/fetch.rs:180-202` | one record per scheduled identity, in iteration order, with its table indices |
| `LeaderBuild.Build` | `src/leaders/fetch.rs:78-255` | building fails exactly when a cap is exceeded, and otherwise gives a file that fits the schedule and metadata |
| `LeaderBuild.SlotCodeOfLeader` | `src/leaders/fetch.rs:207-220` | with disjoint slot lists, a listed slot carries its own leader's code whatever the iteration order |
| `LeaderBuild.SlotCodeOfGap` | `src/leaders/fetch.rs:207-220` | an unlisted slot carries the unknown code |
| `LeaderBuild.SlotCodeOfLast` | `src/leaders/fetch.rs:207-220` | when lists overlap, the last lister in iteration order decides |
| `LeaderBuild.BuiltFileLoads` | `src/leaders/fetch.rs:115-255` | the loader accepts a built file exactly when countries, clients and keys fit its checks |
| `LeaderBuild.FocusIndex` | `src/leaders/bootstrap.rs:108-114` | the focus code resolved in a loaded map is the country's position in the built table |
| `LeaderBuild.IsFocusMeansLeaderInCountry` | `src/leaders/bootstrap.rs:84-93` | end to end: for disjoint schedules and any iteration order, the focus test is true of slot absoluteSlot - slotIndex + i exactly when a validator listing index i of the epoch has the country by its last usable entry, and of no slot outside the epoch |
| `LeaderBuild.BuildAndLoad` | `src/leaders/bootstrap.rs:23-60` | building, loading and resolving the focus country succeeds exactly for inputs within the caps that load; the resulting cache answers for the i-th slot of the epoch by schedule index i, and no outside the epoch |
| `LeaderBuild.CurrentSlotIsFocus` | `src/leaders/fetch.rs:115-116` | the slot the chain is at is decided by its own schedule index |
| `LeaderBuild.ValidatorLoaded` | `src/leaders/fetch.rs:180-202` | what a loaded validator record says, read off the fetched lists: both keys, region and client entries, flag |
| `Fees.FeeIsCeiling` | `docs/pump-sdk/src/fees.ts:101-107` | the fee is the least whole amount covering its share of the price |
| `Fees.FeeMonotone` | `docs/pump-sdk/src/fees.ts:101-107` | a larger amount never pays a smaller fee |
| `Fees.LastTierAt` | `docs/pump-sdk/src/fees.ts:92-96` | the backwards search returns the last tier at or below the market cap |
| `Fees.TierIsBracket` | `docs/pump-sdk/src/fees.ts:79-99` | with ascending thresholds the tier is the bracket holding the market cap, below all of them the first |
| `Quote.NetSolExact` | `src/pumpfun/quote.rs:56-66` | the net amount is the greatest whose two rounded-up fees fit the budget; the estimate overshoots by at most one and the decrement never underflows |
| `Quote.DocumentedFormulaAgrees` | `src/pumpfun/quote.rs:8-16` | the closed form equals the documented subtract-the-overshoot formula |
| `Quote.QuotePanicsIff` | `src/pumpfun/quote.rs:68-78` | the quote divides by zero exactly for an empty sol reserve and a budget of 3 |
| `Quote.QuoteIsExactQuotient` | `src/pumpfun/quote.rs:68-80` | no narrowing cast loses anything, and the tokens quoted are below the token reserve |
| `Quote.SwapBelowReserve` | `src/pumpfun/quote.rs:74-77` | a constant-product swap never empties the other reserve |
| `BondingCurve.ReverseCostFits` | `docs/pump-sdk/src/bondingCurve.ts:21-48` | the tokens s lamports buy, or fewer, cost at most s+1 lamports |
| `BondingCurve.LaunchQuoteLands` | `src/pumpfun/quote.rs:18-20` | landing: at the hardcoded rates the SDK's total cost of the quoted tokens is at most the quoted maximum, and is defined |
| `BondingCurve.LaunchQuoteBelowSdk` | `docs/pump-sdk/src/bondingCurve.ts:109-118` | the launch quote is never above the SDK forward quote before its clamp |
| `BondingCurve.ForwardThenReverse` | `docs/pump-sdk/src/bondingCurve.ts:95-170` | quoting tokens for a budget and pricing them back overshoots it by at most 2, for any fees up to 100% |
| `BondingCurve.TwoLamportsReached` | `docs/pump-sdk/src/bondingCurve.ts:95-170` | the bound 2 is attained |
| `BondingCurve.PublicRoundTrip` | `docs/pump-sdk/src/bondingCurve.ts:64-171` | the same through the exported functions, whenever both directions look up the same rates |
| `QuoteLaws.RatesLookedUp` | `docs/pump-sdk/src/fees.ts:46-99` | without a fee config the rates are the global ones; with one they are those of the last tier whose threshold the market cap vSol times supply over vTok reaches, below the first threshold the first; only an empty table fails |
| `QuoteLaws.NothingToQuote` | `docs/pump-sdk/src/bondingCurve.ts:77-93` | an amount of zero and a migrated curve quote zero |
| `QuoteLaws.FeeCharged` | `docs/pump-sdk/src/fees.ts:14-44` | the fee charged uses the mint supply in mayhem mode and a fixed supply otherwise, and the creator is paid on a new curve or where one is set |
| `QuoteLaws.BuyPrice` | `docs/pump-sdk/src/bondingCurve.ts:123-171` | on any curve, given or fresh, tokens are priced at the least lamports that grow the reserve product plus the least whole protocol and creator fees on that |
| `QuoteLaws.SellPrice` | `docs/pump-sdk/src/bondingCurve.ts:173-211` | selling gives the most lamports that keep the product, less those fees |
| `QuoteLaws.TokensBought` | `docs/pump-sdk/src/bondingCurve.ts:64-121` | a budget buys the most tokens that the greatest net amount with room for its fees takes out, up to the real reserve |
| `QuoteLaws.QuoteIsTight` | `docs/pump-sdk/src/bondingCurve.ts:64-171` | a budget quote is the most it can buy: it costs at most two lamports over the budget, and takes the whole real reserve or one token more costs the whole budget |
| `QuoteLaws.FeesNearShare` | `docs/pump-sdk/src/fees.ts:101-107` | the two fees lie between their exact share and two lamports more |
| `CurveRuns.RunProduct` | `docs/pump-sdk/src/bondingCurve.ts:21-62` | over any run of trades the reserve product never falls, and grows with any exact-token buy |
| `CurveRuns.StepIsQuoted` | `docs/pump-sdk/src/bondingCurve.ts:21-62` | each trade of a run moves the reserves by exactly what the SDK helpers quote: the least payment that grows the product, the most taken out that keeps it |
| `CurveRuns.NoFreeSol` | `docs/pump-sdk/src/bondingCurve.ts:21-62` | a run that hands back every token it took leaves the curve with no fewer lamports |
| `CurveRuns.OneBuyIsBest` | `docs/pump-sdk/src/bondingCurve.ts:21-34` | no run acquires t tokens for less than one buy, up to the added lamport |
| `CurveRuns.OneSellIsBest` | `docs/pump-sdk/src/bondingCurve.ts:50-62` | no run of trades gets more for t tokens than one sell |
| `CurveRuns.OneSpendIsBest` | `docs/pump-sdk/src/bondingCurve.ts:36-48` | no run of trades gets more tokens for s lamports than one purchase |
| `CurveRuns.BuyThenSellLoses` | `docs/pump-sdk/src/bondingCurve.ts:21-62` | buying t tokens and selling them back returns strictly less |
| `CurveRuns.PublicBuyThenSellLoses` | `docs/pump-sdk/src/bondingCurve.ts:123-211` | the same through the exported functions, at whatever fees the two calls look up |
| `CurveRuns.RoundTripCostsFees` | `docs/pump-sdk/src/bondingCurve.ts:123-211` | that round trip loses at least a lamport and the exact share of the purchase fees |
| `CurveRuns.SplittingNeverHelps` | `docs/pump-sdk/src/bondingCurve.ts:21-62` | splitting a buy of tokens, a buy for lamports or a sell in two is never better |
| `CurveRuns.TraderNeverProfits` | `docs/pump-sdk/src/fees.ts:39-43` | with any fees, a trader ending with at least his starting tokens has paid, never received |
| `WireFormat.ShortVecRoundTrip` | `src/keys/transaction.rs:104-115` | a compact-u16 length followed by anything reads back |
| `WireFormat.ShortVecCanonical` | `src/keys/transaction.rs:104-115` | the reader accepts only what the writer writes |
| `WireFormat.MessageRoundTrip` | `src/keys/transaction.rs:29-45` | parsing the part legacy and v0 messages share gives it back, whatever follows |
| `WireFormat.LegacyRoundTrip` | `src/keys/transaction.rs:29-45` | a legacy message reads back when it names fewer than 128 signers, and does not read at all otherwise |
| `WireFormat.ParsedKeys` | `src/keys/transaction.rs:31-34` | when the key count outgrows its 16 bits a reader sees only the first keys |
| `WireFormat.V0RoundTrip` | `src/pumpfun/ix_builder/ix.rs:325-364` | parsing an encoded v0 message gives it back |
| `WireFormat.TransactionRoundTrip` | `src/keys/transaction.rs:50-57` | parsing an encoded transaction gives it back exactly when its message reads as legacy |
| `WireFormat.SignaturesSeen` | `src/keys/transaction.rs:51-56` | a reader takes the signature count modulo 2^16 and the rest as a message |
| `TransferTx.PushShortVec` | `src/keys/transaction.rs:104-115` | the shift loop appends exactly the compact-u16 encoding |
| `TransferTx.PushInstructions` | `src/keys/transaction.rs:37-45` | the instruction loop appends the encodings of the transfers in order |
| `TransferTx.BuildMessage` | `src/keys/transaction.rs:20-45` | the built message is the encoding of the specified message |
| `TransferTx.BuildConsolidatedSweep` | `src/keys/transaction.rs:10-58` | the returned bytes encode the sweep transaction, signed by the eater and every child |
| `TransferTx.BuildDistribute` | `src/keys/transaction.rs:60-102` | the returned bytes encode the distribution transaction, signed by the sender |
| `TransferTx.SweepReadsBack` | `src/keys/transaction.rs:27-45` | for any number of children, the sweep reads back as exactly the intended transfers, each between accounts that may be written, if and only if there are at most 126 |
| `TransferTx.SweepParses` | `src/keys/transaction.rs:10-58` | the sweep bytes parse to a transaction with one signature per child and the eater's, the eater paying, unless the signer byte carries the version bit |
| `TransferTx.SweepAuthorises` | `src/keys/transaction.rs:27-57` | in the parsed sweep the eater and the children, and nothing else, may be written; the blockhash is the given one; the k-th signature is the k-th wallet's over the bytes that follow the signatures |
| `TransferTx.HeaderBytes` | `src/keys/transaction.rs:30` | the message starts with the signer count, no read-only signer and one other read-only account |
| `TransferTx.IndicesWrap` | `src/keys/transaction.rs:27-39` | each one-byte index is its position less whole multiples of 256 |
| `TransferTx.DistributeReadsBack` | `src/keys/transaction.rs:75-93` | for any number of recipients, the distribution reads back as exactly the intended transfers, each between accounts that may be written, if and only if there are at most 254 |
| `TransferTx.DistributeAuthorises` | `src/keys/transaction.rs:75-101` | in the parsed distribution the sender and the recipients, and nothing else, may be written; the sender alone signs, over the bytes after its signature |
| `TransferTx.SweepSize` | `src/keys/transaction.rs:7-8` | a sweep of n takes 166+113n bytes, and fits the network limit exactly when n is at most 9 |
| `TransferTx.DistributeSize` | `src/keys/transaction.rs:77-101` | a distribution to n takes 166+49n bytes, and fits exactly when n is at most 21 |
| `LaunchMessage.LaunchLength` | `src/pumpfun/ix_builder/ix.rs:310-531` | the end offset is 921 + shortvec(54+L) + L for L bytes of text |
| `LaunchMessage.FitsIff` | `src/pumpfun/tx.rs:16-25` | the message fits the transaction buffer exactly when L is at most 309 |
| `LaunchMessage.LaunchReadsBack` | `src/pumpfun/ix_builder/ix.rs:322-531` | a reader of the encoded message recovers every launch input field by field, with the program each instruction calls and its account list |
| `LaunchMessage.SignedLaunchReads` | `src/pumpfun/tx.rs:50-75` | the signed bytes carry two signatures for two required signers, the first two keys, the wallet and the mint; the rest reads back as the launch |
| `LaunchMessage.LaunchCalls` | `src/pumpfun/ix_builder/ix.rs:366-497` | with the inlined ids, which program each of the six parsed instructions calls, byte for byte, and the discriminators the create and the buy start with |
| `LaunchMessage.CreateReadsBack` | `src/pumpfun/ix_builder/ix.rs:395-430` | the create data parses back to name, symbol, uri, creator and both flags |
| `LaunchMessage.IndicesResolve` | `src/pumpfun/ix_builder/ix.rs:335-528` | every account index of every instruction resolves, and every invoked program is a static key |
| `LaunchMessage.AccountsResolve` | `src/pumpfun/ix_builder/ix.rs:205-256` | the bytes, parsed and resolved through static keys and lookup table, give the create, token-account, buy and tip calls the accounts their programs expect, in order |
| `LaunchMessage.WritableAccounts` | `src/pumpfun/ix_builder/ix.rs:338-356` | the accounts the header and footer make writable are exactly the first twelve keys and the two writable table entries |
| `LaunchWriter.Put` | `src/pumpfun/ix_builder/ix.rs:358-358` | a slice copy goes out of bounds exactly when it does not fit, and otherwise changes only its own bytes |
| `LaunchWriter.WriteShortVec` | `src/pumpfun/ix_builder/ix.rs:547-560` | the loop writes exactly the compact-u16 encoding in place and nothing past it |
| `LaunchWriter.WriteStr` | `src/pumpfun/ix_builder/ix.rs:536-541` | writes the length-prefixed string in place and nothing past it |
| `LaunchWriter.WriteKeys` | `src/pumpfun/ix_builder/ix.rs:357-360` | writes the keys in order |
| `LaunchWriter.WriteCreate` | `src/pumpfun/ix_builder/ix.rs:408-430` | writes the encoded create instruction |
| `LaunchWriter.WriteBuy` | `src/pumpfun/ix_builder/ix.rs:451-467` | writes the encoded buy instruction |
| `LaunchWriter.WriteFooter` | `src/pumpfun/ix_builder/ix.rs:499-528` | writes the encoded lookup-table footer |
| `LaunchWriter.WriteCreateV2AndBuyMessage` | `src/pumpfun/ix_builder/ix.rs:322-531` | in any buffer, some write is out of bounds exactly when the buffer ends before the end offset; otherwise, whatever it held, the writes leave the encoded message after the signature section and touch nothing else |
| `LaunchWriter.BuiltLaunchTx.BuildSigned` | `src/pumpfun/tx.rs:58-75` | building fails exactly when the texts take more than 309 bytes; otherwise the reused buffer ends up holding the two signatures over the message, then the message |
| `Sweep.Classify` | `src/keys/sweep.rs:36-50` | splits senders into skipped self-sends and work, dropping zero balances |
| `Sweep.SweepChunk` | `src/keys/sweep.rs:74-121` | one chunk's outcomes, attempt and new running balance |
| `Sweep.SweepAll` | `src/keys/sweep.rs:73-123` | the chunk loop produces the results and attempts of the specified run |
| `Sweep.ToEater` | `src/keys/sweep.rs:24-124` | the whole operation, with its early returns, debug mode and blockhash failure |
| `Sweep.OneOutcomeEach` | `src/keys/sweep.rs:36-122` | every funded sender gets exactly one outcome, with its own balance if sent, and no other sender gets any |
| `SweepLaws.WorkSplits` | `src/keys/sweep.rs:36-50` | filtering the work list keeps the order of the senders |
| `SweepLaws.SelvesSplit` | `src/keys/sweep.rs:36-50` | so does filtering the eater's own entries |
| `SweepLaws.StepDecided` | `src/keys/sweep.rs:75-121` | one chunk: nothing is sent below the rent minimum plus 5000 per signature; otherwise the next reply makes every wallet sent, with its balance and that signature, or failed with that error |
| `SweepLaws.LoopIsSweepRun` | `src/keys/sweep.rs:73-122` | the loop goes through the work nine at a time, each chunk decided on the balance and the number of sends the ones before it left |
| `SweepLaws.SweepReports` | `src/keys/sweep.rs:24-124` | everything the operation reports, in every case: self-sends first, debug skips, the blockhash error, or the chunk run |
| `Sweep.ChunkExecutes` | `src/keys/sweep.rs:75-97` | executing a chunk's bytes succeeds exactly when the eater can pay the fee, and then empties the chunk's wallets into the eater |
| `Sweep.LoopExecutesIff` | `src/keys/sweep.rs:73-122` | the accepted transactions of any run all execute if and only if the eater can pay the fee of the first accepted chunk out of its starting balance |
| `Sweep.FundedIsPayable` | `src/keys/sweep.rs:76-83` | a starting balance of ten signature fees is always enough |
| `Sweep.UnpayableChunk` | `src/keys/sweep.rs:77-91` | any chunk that passes the source's test on a balance below its fee does not execute |
| `Sweep.LoopOnLedger` | `src/keys/sweep.rs:73-122` | in any payable run, executing the accepted transactions succeeds, zeroes exactly the wallets reported sent and leaves the eater at the running balance |
| `Sweep.LoopConserves` | `src/keys/sweep.rs:73-122` | the running balance is the initial one plus everything sent minus 5000 per signature present in the accepted bytes |
| `Sweep.RentFloorHolds` | `src/keys/sweep.rs:77-91` | in any payable run every accepted transaction executes and leaves the eater at least the rent minimum |
| `Sweep.WorkHolds` | `src/keys/sweep.rs:36-50` | filtering a list of distinct wallets leaves the loop distinct funded wallets other than the eater |
| `Sweep.SweepSettles` | `src/keys/sweep.rs:24-124` | the whole operation on a ledger, for any sender list: executes iff payable, then empties exactly the wallets reported sent and keeps the rent floor |
| `Recycle.KeyStore.ResolveToday` | `src/keys/batch.rs:9-16` | a complete batch is loaded untouched, any other is recreated |
| `Recycle.KeyStore.CreateFreshBatch` | `src/keys/batch.rs:37-65` | clears every json and writes fresh keys 1 to count |
| `Recycle.WriteBatchFiles` | `src/keys/batch.rs:37-50` | writing a batch touches exactly files 1 to count |
| `Recycle.VerifyZeroBeforeRecycle` | `src/keys/wallets.rs:161-204` | the gate passes exactly when nothing is to be rotated or every position the reply covers reads empty or absent |
| `Recycle.CollectStranded` | `src/keys/wallets.rs:187-193` | the zip loop collects exactly the funded positions both lists reach |
| `Recycle.KeyStore.PrepareRun` | `src/keys/wallets.rs:31-153` | the sequence of effects on key files, the keys handed on, every early exit, and the date asked for again at rotation |
| `Recycle.OpenedFilesHold` | `src/keys/wallets.rs:32-36` | after opening, whatever was there, every singleton file and every numbered file exists and holds the key the run uses; an incomplete batch keeps no old json, a complete one is untouched |
| `Recycle.OpenedKeysAreNext` | `src/keys/batch.rs:9-50` | the keys that were not on file are the generator's next, one for each |
| `Recycle.RotatedFilesHold` | `src/keys/wallets.rs:129-141` | after a rotation the funder file and files 1 to count hold exactly the keys the run goes on with, no other json is there, and everything not rotated is as it was |
| `Recycle.RotatedKeysAreNext` | `src/keys/wallets.rs:129-141` | the keys rotated in are the generator's next, one for each |
| `Recycle.KeysAreOnFile` | `src/keys/wallets.rs:31-153` | wherever a run ended, opening the files it left loads every key, creates nothing and changes nothing, and what a finished run hands on are these keys |
| `Recycle.RunAt` | `src/keys/wallets.rs:129-141` | every place after a run: as it was, or a key generated in this run where a file belongs, or nothing |
| `Recycle.RotatesIff` | `src/keys/wallets.rs:37-141` | a run replaces keys exactly when it is not a debug run, nothing failed or came up short before the gate, and every queried wallet the reply covers is absent or empty |
| `Recycle.PreparedIff` | `src/keys/wallets.rs:31-153` | when a run hands its keys on, and whom a run stopped by the gate names |
| `Recycle.StrandedIff` | `src/keys/wallets.rs:187-193` | exactly the covered wallets with a positive balance are named, each with it |
| `Recycle.DestroyedIff` | `src/keys/wallets.rs:129-141` | a key with no second copy is gone after a run exactly when the run cleared its file |
| `Recycle.RecycleSafe` | `src/keys/wallets.rs:116-141` | when every file a run clears was asked about and answered for, it destroys no key whose wallet was not read back empty or absent, whatever the sweep did |
| `Recycle.RecycleSafeIff` | `src/keys/wallets.rs:116-141` | given that no key has a second copy, a run is safe if and only if that condition holds, midnight included |
| `Recycle.ShortReplyLosesUnread` | `src/keys/wallets.rs:188-193` | in any run that rotates on a reply of at most m entries, the m-th wallet asked about is destroyed unread |
| `Recycle.StrayFileLosesUnread` | `src/keys/batch.rs:52-65` | in any run that clears its directory, a json file that should not be there loses its key unread |
| `Recycle.UncleanLosesUnread` | `src/keys/batch.rs:52-65` | it takes nothing else to go wrong: a run with every call succeeding and every account absent does it |
| `Recycle.ShortReplyUnsafe` | `src/keys/wallets.rs:188-193` | the smallest instance: an empty reply rotates a loaded funder unread |
| `Roster.ReadPool` | `src/pumpfun/tokens.rs:159-169` | the reading loop keeps the non-blank lines in order |
| `Roster.JoinPool` | `src/pumpfun/tokens.rs:171-178` | the joining loop terminates every line with a newline |
| `Roster.PoolRoundTripIff` | `src/pumpfun/tokens.rs:159-178` | a pool reads back as written exactly when no line is blank, holds a newline or ends in a carriage return |
| `Roster.FillSlots` | `src/pumpfun/tokens.rs:103-106` | the zip loop gives each empty slot the next line and touches no other |
| `Roster.LinesTakeApart` | `src/pumpfun/tokens.rs:159-169` | text up to a newline is one line less a carriage return; what follows the last newline is a line as it stands |
| `Roster.BlanksDropped` | `src/pumpfun/tokens.rs:159-169` | blank lines and only they are left out, in order |
| `Roster.HydrateAnswers` | `src/pumpfun/tokens.rs:69-124` | every answer and write of a hydration, from the roster's empty slots and the pool's lines |
| `Roster.TokenFiles.LoadAndHydrate` | `src/pumpfun/tokens.rs:69-124` | the answer and both atomic writes, pool first, with every error path |
| `Roster.TokenFiles.Claim` | `src/pumpfun/tokens.rs:151-157` | marks one slot used and persists the roster |
| `Roster.TokenFiles.Run` | `src/main.rs:33-61` | a run's writes, the claim last and only outside debug mode after an upload |
| `Roster.FirstUnused` | `src/pumpfun/tokens.rs:141-146` | the pick is the first unused slot before the limit, and fails only when all are used |
| `Roster.HydrateConserves` | `src/pumpfun/tokens.rs:103-115` | between the writes exactly the consumed lines are missing; after both, every key is held as often as before |
| `Roster.RunKeepsSound` | `src/pumpfun/tokens.rs:108-115` | a run that stops after any atomic write keeps every key held at most once |
| `Roster.NoKeyTwice` | `src/pumpfun/tokens.rs:108-115` | over any history of runs and crashes from a sound start, no key is ever held twice |
| `Roster.SoundMeansDistinct` | `src/pumpfun/tokens.rs:108-115` | two slots never carry one key, and no slot carries a key still in the pool |
| `Roster.SlotNotInPool` | `src/pumpfun/tokens.rs:108-115` | no slot at all, the debug sentinel included, carries a key still in the pool |
| `Roster.HydrateAccounts` | `src/pumpfun/tokens.rs:103-115` | from any disk, how a hydration changes the number of copies of each key, carriage returns included |
| `Roster.HydrateDuplicatesIff` | `src/pumpfun/tokens.rs:103-115` | a disk that holds no key twice does so after a hydration exactly when some left-over line ends in a carriage return, is held without it, and that copy does not change in turn |
| `Roster.CarriageReturnDuplicates` | `src/pumpfun/tokens.rs:159-178` | an instance: two distinct pool lines that differ by a carriage return end up as one key handed out and pooled |
| `Roster.ClaimsIncrease` | `src/pumpfun/tokens.rs:133-157` | over any history, completed claims take strictly increasing slots and never the last one |
| `Roster.ClaimedIff` | `src/main.rs:33-61` | a run claims a slot exactly when it is not a debug run, its upload succeeds, its roster hydrates, and the slot is the first unused one short of the last |
| `Roster.ClaimMarksOne` | `src/pumpfun/tokens.rs:151-157` | a claim changes one flag and nothing else |
| `Roster.DebugSlotReserved` | `src/pumpfun/tokens.rs:126-147` | over any history, a debug run picks the last slot and no run claims it |
| `Calendar.YmdFromDays` | `src/keys/time.rs:30-53` | both walks end, the month index stays in the table, and the date is the one real date with the closed-form day number asked for |
| `Calendar.YearLength` | `src/keys/time.rs:21-37` | the closed form's years are 366 days exactly on leap years |
| `Calendar.EarlierIsLess` | `src/keys/time.rs:30-53` | day numbers order real dates as year, month, day do |
| `Calendar.DateIsUnique` | `src/keys/time.rs:30-53` | a day number belongs to one real date |
| `Calendar.EveryDateIsReached` | `src/keys/time.rs:30-53` | every real date from 1970 on has a day count, which no other date has, so the walk returns it for that count |
| `Calendar.FormatIsInjective` | `src/keys/time.rs:16-19` | two dates share a directory name only if they are equal |
| `Calendar.FormatReads` | `src/keys/time.rs:16-19` | year, month and day read back in decimal at their places; ten characters up to the year 9999 |
| `Calendar.NamesSortAsDates` | `src/keys/time.rs:16-19` | up to the year 9999 directory names sort as their dates |
| `Calendar.MonthLengths` | `src/keys/time.rs:21-25` | which months have 31, 30 and 29 days |
| `Calendar.KnownDates` | `src/keys/time.rs:59-83` | the day numbers the repository's tests name |
| `Trigger.DataVariants` | `src/shreds/wire.rs:82-104` | the capacity check rejects no data variant, and leaves 719 to 1083 bytes |
| `Trigger.VariantNibbles` | `src/shreds/wire.rs:82-104` | what each nibble of the variant byte decides, capacity included |
| `Trigger.SlotBytes` | `src/shreds/wire.rs:109-111` | the slot is bytes 65 to 72, least significant first, and needs 73 bytes |
| `Trigger.DataSlotIff` | `src/shreds/stream.rs:161-179` | which packets reach the slot counter |
| `Trigger.Handler.constructor` | `src/shreds/stream.rs:150-159` | the initial state |
| `Trigger.Handler.Handle` | `src/shreds/stream.rs:161-191` | what one packet does to the counters, the slot count and the launches |
| `Trigger.Receive` | `src/shreds/stream.rs:161-199` | a whole trace leaves the state of the folded specification |
| `Trigger.FiredIffReached` | `src/shreds/stream.rs:161-191` | after any trace the handler has fired exactly when some run of data shreds of one focus slot, dropped packets aside, reached the threshold |
| `Trigger.FiresOnce` | `src/shreds/stream.rs:182-191` | firing is permanent, happens on the packet that brings the first focus run to the threshold, and launches that slot once |
| `Trigger.LaunchesAreFocus` | `src/shreds/stream.rs:188-191` | only focus slots are ever launched |
| `Trigger.ZeroNeverFires` | `src/shreds/stream.rs:161-191` | a threshold of 0 never fires before the counter wraps |
| `Trigger.CountersAddUp` | `src/shreds/stream.rs:161-179` | the counters add up to the packets, plus one for each data shred too short for a slot |
| `Trigger.CountersTally` | `src/shreds/stream.rs:161-179` | each counter by itself: packets by the high nibble of byte 64, short data shreds counted as invalid as well |
| `LaunchDecision.FiredIffLeaderRow` | `src/shreds/stream.rs:182-191` | from schedule to trigger: the launcher has fired exactly when a slot whose scheduled leader is in the focus country had enough data shreds in a row |
| `LaunchDecision.Watch` | `src/shreds/stream.rs:161-199` | the same in running code: building, loading and handling a trace launches once exactly then, in a slot led from the country |
| `Incentives.CountedOnce` | `docs/pump-sdk/src/tokenIncentives.ts:5-113` | together the two functions add the share of the user's last day, from one side only, or nothing |
| `Incentives.AnswersIff` | `docs/pump-sdk/src/tokenIncentives.ts:5-113` | each function throws exactly when it reads a share of a day past the arrays |
| `Incentives.ShareIsGreatest` | `docs/pump-sdk/src/tokenIncentives.ts:48-59` | a share is the greatest whole part of the day's supply |
| `Incentives.DayIs` | `docs/pump-sdk/src/tokenIncentives.ts:27-45` | day k spans the k-th period after the start |
| `Incentives.ShareDropsOutIff` | `docs/pump-sdk/src/tokenIncentives.ts:78-80` | a counted share stops being counted exactly between the program's end and the end of that day |
| `Incentives.ShareDropsOut` | `docs/pump-sdk/src/tokenIncentives.ts:78-80` | a program in which that happens |
| `Incentives.DayConserved` | `docs/pump-sdk/src/tokenIncentives.ts:55-59` | any users whose volumes for a day are covered by its recorded volume are credited at most the day's supply |
| `Incentives.OnlyRoundingLost` | `docs/pump-sdk/src/tokenIncentives.ts:55-59` | once every share of a day is counted, less than one token per active user is lost, to rounding |
| `Incentives.SupplyConserved` | `docs/pump-sdk/src/tokenIncentives.ts:5-113` | at any instant any users, active on any days, are together credited at most the whole supply |

## Left out

- Network and I/O: RPC, gRPC, QUIC, UDP, HTTP and IPFS calls become arbitrary replies; timing, sleeps, logging and console output are not modelled.
- Cryptography and encodings: signatures, base58 and program-derived addresses are opaque; a key is its 32 bytes, and JSON files stand for the values they encode.
- Unreadable key files: reading a stored key is assumed to give back the key that was written; malformed key files and their errors are not modelled.
- File-system failures: each roster write is atomic and a crash falls between writes; `write_atomic` itself is taken as given, and failures of single deletes or writes inside a batch are not modelled.
- The curve subscription (`src/curve_sub/`), the sell and exact-sol builders and the remaining fixed layouts: they would repeat the launch-message result on constants.
- Randomness: fee-recipient picks and distribution jitter.
- `u64` overflow of totals and epoch bounds: stated as range preconditions, because the source's debug and release builds differ there.
- Trigger.Handler.Handle: the shred counter wraps as in a release build; the debug build's overflow panic is not modelled.
- LaunchMessage.LaunchReadsBack: says nothing for 54 + L of 65536 and more, where the printed create length is truncated; such a message is written nowhere, the buffer ends at L = 309.
- LaunchWriter.BuiltLaunchTx.BuildSigned: what a failed build leaves in the buffer is not stated, only that the recorded length does not change; the source unwinds there.
- WireFormat.LegacyRoundTrip: versions other than 0 are refused, not parsed; no builder here means to write one.
- LeaderBuild.MergeMetas: `str::trim` is a parameter, so which characters count as white space in a client name is left open.
- Incentives.CountedOnce: timestamps are whole seconds, as `new BN` truncates them; indices beyond 2^53, on which `toNumber` throws, are not modelled.
- CurveRuns.RunProduct: reserves move by the pre-fee quoted amounts; the on-chain program's own bookkeeping is not part of this model.
- Recycle.KeyStore.PrepareRun: the refill and distribution that follow rotation only move lamports, and are modelled as succeeding or failing without touching key files.
- Quote.QuoteBuyAtCreate: the documented rates are the constants in the source, not the values the chain reports.
