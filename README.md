# Raydium swap bot core, modelled in Dafny

This project models the parts of a Solana trading bot that decide what is sent to the chain:

- **Binary layouts** of `layouts.py`:
  - the Raydium AMM v4 swap payload (`SWAP_LAYOUT`), the withdraw payload (`LIQ_LAYOUT`) and the pool-info payload (`POOL_INFO_LAYOUT`);
  - the 728-byte AMM v4 pool state record (`AMM_INFO_LAYOUT_V4`);
  - the Metaplex `CreateMetadataAccountArgsV3` instruction record (`METADAT_STRUCTURE`), written in the Borsh binary format.

  Each layout has an encoder and a decoder, with round-trip and length lemmas. Encoders reject out-of-range values instead of truncating them.
- **Pool lookup and instruction builders** of `utils.py`:
  - the first-match search over pool records;
  - the local-snapshot-then-remote-directory fallback of `fetch_pool_keys`, with its `"failed"` sentinel. The snapshot file is the `PoolRegistry` class;
  - the 18-account swap instruction and the 22-account withdraw instruction;
  - the seeded wrapped-SOL account transaction.
- **The swap control flow** of `solana_api.py`:
  - `buy` and `sell`: their retry loop, their exception handlers and the rows they append to the transaction log;
  - the order in which instructions are appended to the transaction;
  - the balance scan of `sell`;
  - the token-creation transaction of `create_spl_token`, with its metadata record and its 7-account list.

  `Trader` is a class whose fields are the log rows and the transactions handed to `send_transaction`. Each of its methods is proved against a specification function: `BuyOnce`, `SellOnce`, `SplTokenSubmission` and the stage functions they are built from.

Modules: `Wrappers` (Option/Result), `Bytes` (little-endian unsigned integers), `Layouts`, `Metadata`, `Ledger` (addresses, account metas, instructions, the `Transaction` object), `Utils`, `SolanaApi`.

Addresses are symbolic terms. A key read from text is `Key(text)`. A derived address (`create_with_seed`, `get_associated_token_address`, `find_program_address`) is kept as the term that derives it. Two derived addresses are therefore equal exactly when their inputs are equal.

What the code does where its messages or the design say otherwise:

- **No retry.** The handlers for a timeout and for an RPC error print "Retrying...". However, the statements after them, which print the failure message and return False, sit inside the `while` body. So the first pass always decides the call, and at most one transaction is sent. `Trader.Buy` and `Trader.Sell` state this. `BuyOutcomes` and `SellOutcomes` show that a confirmation timeout returns False and logs no row.
- **Escaping `UnboundLocalError`.** Suppose an exception other than a timeout or an RPC error is raised before `amount_in` is assigned: the mint does not parse, or the pool lookup answers `"failed"` and `pool_keys['quote_decimals']` raises `TypeError`. The generic handler then reads `amount_in` and raises `UnboundLocalError`, which leaves `buy`/`sell` with no row logged. The owner lookup of the mint runs between the pool lookup and that subscript. If it raises an RPC error, its own handler returns False first (`FailedLookupEscapes`).
- **Wrapped-SOL account in `sell`.** `sell` looks up its wrapped-SOL account by awaiting the reply of the synchronous client. Awaiting such a value raises `TypeError`, and `get_token_account` catches it. The lookup therefore always takes its fallback: `sell` always prepends the creation of the associated wrapped-SOL account and always fetches a recent blockhash (`SellSubmission`).
- **Account counts.** The swap instruction has 18 accounts and the withdraw instruction 22, as the code builds them.
- **Empty signature.** `buy` returns True on an empty signature, while `sell` runs past the block and returns False.

## Model

| member | source | states |
|---|---|---|
| Bytes.LittleEndian | layouts.py:43-47 | Int64ul/BytesInteger: exactly `width` bytes, the low byte first; defined only for values below 256^width |
| Bytes.FromLittleEndian | layouts.py:86-94 | unsigned little-endian decoding; the result is below 256^len |
| Bytes.FromLittleEndianOfLittleEndian | layouts.py:43-47 | decoding an encoded value gives it back |
| Bytes.LittleEndianOfFromLittleEndian | layouts.py:86-94 | every byte string of a width is the encoding of the value it decodes to |
| Layouts.BuildField | layouts.py:54-114 | one field: an integer out of [0, 256^w) or a byte string of the wrong length is an error, never truncated; otherwise its encoding has the field's width |
| Layouts.ParseField | layouts.py:54-114 | reading one field gives a value that fits it |
| Layouts.Build | layouts.py:38-52 | Struct.build succeeds exactly when every value fits its field, and then has the layout's size |
| Layouts.Parse | layouts.py:38-52 | Struct.parse succeeds exactly when the input holds the layout's size; one value per field, each fitting it |
| Layouts.ParseBuild | layouts.py:38-52 | parse after build, with any trailing bytes, gives back the values |
| Layouts.BuildParse | layouts.py:38-52 | build after parse gives back the bytes the layout covers |
| Layouts.ParseFieldAt | layouts.py:54-114 | field i of a parsed record is read from the bytes at field i's offset |
| Layouts.BuildFieldAt | layouts.py:54-114 | the bytes at field i's offset of a built record are field i's encoding |
| Layouts.SmallLayoutSizes | layouts.py:38-52 | POOL_INFO is 2 bytes, SWAP 17 bytes (offsets 1 and 9), LIQ 9 bytes (offset 1) |
| Layouts.BuildPoolInfo | layouts.py:38-41 | two single bytes; an error exactly when either value is outside [0, 256) |
| Layouts.ParsePoolInfo | layouts.py:38-41 | succeeds exactly when the input has at least 2 bytes |
| Layouts.PoolInfoRoundTrip | layouts.py:38-41 | decoding the encoded pair gives it back |
| Layouts.BuildSwap | layouts.py:43-47 | an error exactly when the opcode or either amount is out of range; otherwise 17 bytes: the opcode, then each amount as 8 little-endian bytes |
| Layouts.ParseSwap | layouts.py:43-47 | succeeds exactly when the input has at least 17 bytes |
| Layouts.SwapRoundTrip | layouts.py:43-47 | decoding an encoded swap payload gives back the opcode and both amounts |
| Layouts.BuildLiq | layouts.py:49-52 | an error exactly when out of range; otherwise 9 bytes: the opcode, then the amount as 8 little-endian bytes |
| Layouts.ParseLiq | layouts.py:49-52 | succeeds exactly when the input has at least 9 bytes |
| Layouts.LiqRoundTrip | layouts.py:49-52 | decoding an encoded withdraw payload gives back the opcode and the amount |
| Layouts.AmmInfoSize | layouts.py:54-114 | the AMM record has 49 fields and 728 bytes |
| Layouts.AmmInfoU128Offsets | layouts.py:85-94 | the six 16-byte fields sit at offsets 224, 240, 256, 272, 296 and 312 |
| Layouts.AmmInfoDecodesU128 | layouts.py:86-94 | each 16-byte field parses as the unsigned little-endian integer at its offset |
| Layouts.AmmInfoRoundTrip | layouts.py:54-114 | build-then-parse gives back the 49 values; parsing succeeds exactly on 728 bytes or more, and parse-then-build gives back the first 728 bytes |
| Metadata.EncodeUInt | layouts.py:6-12 | U8/U16: an error exactly when out of range, otherwise the little-endian bytes |
| Metadata.DecodeUInt | layouts.py:6-12 | succeeds exactly when enough bytes remain |
| Metadata.DecodeUIntOf | layouts.py:6-12 | decoding an encoded integer gives it back with the rest of the input |
| Metadata.EncodeBool | layouts.py:15 | a Bool is one byte |
| Metadata.DecodeBool | layouts.py:15 | Flag: succeeds exactly when a byte remains, consumes exactly that byte, and any nonzero byte reads as true |
| Metadata.EncodeString | layouts.py:9-11 | String: a u32 length, then the bytes; an error exactly when the length does not fit in u32 |
| Metadata.DecodeString | layouts.py:9-11 | decoding consumes input |
| Metadata.DecodeStringOf | layouts.py:9-11 | decoding an encoded string gives it back |
| Metadata.EncodeUseMethod | layouts.py:23-28 | an enum index is one byte |
| Metadata.DecodeUseMethod | layouts.py:23-28 | only the indices 0, 1 and 2 decode |
| Metadata.UseMethodIndices | layouts.py:23-28 | Burn, Multiple and Single are 0, 1 and 2, and each decodes back |
| Metadata.EncodeCreator | layouts.py:14-16 | 34 bytes; an error exactly when the address is not 32 bytes or the share is not a u8 |
| Metadata.DecodeCreator | layouts.py:14-16 | decoding consumes input |
| Metadata.DecodeCreatorOf | layouts.py:14-16 | decoding an encoded creator gives it back |
| Metadata.EncodeCreatorList | layouts.py:13-17 | the elements back to back, 34 bytes each; an error exactly when one of them does not encode |
| Metadata.DecodeCreatorList | layouts.py:13-17 | decodes exactly the requested count |
| Metadata.DecodeCreatorListOf | layouts.py:13-17 | decoding encoded elements gives them back |
| Metadata.EncodeCreators | layouts.py:13-17 | Vec: a u32 element count, then the elements |
| Metadata.DecodeCreatorsOf | layouts.py:13-17 | decoding an encoded vector gives it back |
| Metadata.EncodeCollection | layouts.py:18-21 | an error exactly when the key does not fit in u32 |
| Metadata.DecodeCollectionOf | layouts.py:18-21 | decoding an encoded collection gives it back |
| Metadata.EncodeUses | layouts.py:22-31 | 17 bytes, the enum index first; an error exactly when a count is out of u64 range |
| Metadata.DecodeUsesOf | layouts.py:22-31 | decoding encoded uses gives them back |
| Metadata.EncodeCreatorsOption | layouts.py:13-17 | Option: the tag 0 for None, or 1 followed by the payload |
| Metadata.DecodeCreatorsOption | layouts.py:13-17 | Option parse: tag 0 reads None and consumes one byte; any nonzero tag reads a payload |
| Metadata.DecodeCreatorsOptionOf | layouts.py:13-17 | decoding an encoded option gives it back |
| Metadata.EncodeCollectionOption | layouts.py:18-21 | Option: the tag 0 for None, or 1 followed by the payload |
| Metadata.DecodeCollectionOption | layouts.py:18-21 | Option parse: tag 0 reads None and consumes one byte; any nonzero tag reads a payload |
| Metadata.DecodeCollectionOptionOf | layouts.py:18-21 | decoding an encoded option gives it back |
| Metadata.EncodeUsesOption | layouts.py:22-31 | Option: the tag 0 for None, or 1 followed by the payload |
| Metadata.DecodeUsesOption | layouts.py:22-31 | Option parse: tag 0 reads None and consumes one byte; any nonzero tag reads a payload |
| Metadata.DecodeUsesOptionOf | layouts.py:22-31 | decoding an encoded option gives it back |
| Metadata.EncodeStringOption | layouts.py:34 | Option(String): the tag 0 for None, or 1 followed by the string |
| Metadata.DecodeStringOption | layouts.py:34 | Option(String) parse: tag 0 reads None and consumes one byte; any nonzero tag reads a string |
| Metadata.DecodeStringOptionOf | layouts.py:34 | decoding an encoded option gives it back |
| Metadata.EncodeDataHead | layouts.py:9-12 | name, symbol, uri and fee encode exactly when the three lengths fit in u32 and the fee fits in u16 |
| Metadata.DecodeDataHeadOf | layouts.py:9-12 | decoding gives back the name, symbol, uri and fee |
| Metadata.EncodeDataTail | layouts.py:13-31 | at least the three option tags, creators' tag first; all three None is exactly [0, 0, 0] |
| Metadata.DecodeDataTailOf | layouts.py:13-31 | decoding gives back the creators, collection and uses |
| Metadata.EncodeData | layouts.py:8-32 | builds exactly when the head and the tail do; at least 17 bytes plus the three strings |
| Metadata.DecodeDataOf | layouts.py:8-32 | decoding an encoded Data record gives it back |
| Metadata.EncodeArgs | layouts.py:7-35 | builds exactly when Data and collectionDetails do; the isMutable byte follows Data |
| Metadata.DecodeArgsOf | layouts.py:7-35 | decoding encoded CreateMetadataAccountArgsV3 gives them back |
| Metadata.EncodeMetadataInstruction | layouts.py:5-6 | the first byte is the discriminator |
| Metadata.DecodeMetadataInstruction | layouts.py:5-36 | METADAT_STRUCTURE.parse: succeeds exactly when a first byte is followed by decodable arguments; that byte is the discriminator; trailing bytes are ignored |
| Metadata.MetadataRoundTrip | layouts.py:5-36 | METADAT_STRUCTURE: parsing the built record gives it back |
| Ledger.Transaction.constructor | solana_api.py:410 | Transaction(): no instructions and no recent blockhash yet |
| Ledger.Transaction.Add | solana_api.py:180 | tx.add appends its arguments in order and changes nothing else |
| Ledger.Transaction.SetRecentBlockhash | solana_api.py:176 | sets the blockhash and leaves the instructions and fee payer alone |
| Utils.PoolRegistry.constructor | utils.py:63-68 | the registry starts from the snapshot read from disk |
| SolanaApi.Trader.constructor | solana_api.py:538-554 | an empty transaction log and nothing sent yet |
| Utils.ExtractPoolInfo | utils.py:52-58 | "pool not found" exactly when no pool pairs the mint with wrapped SOL, in either direction; otherwise the first pool in list order that does |
| Utils.RefreshPrefersOfficial | utils.py:72-80 | searching official + unOfficial finds an official match first, and otherwise falls back to the unofficial list |
| Utils.PoolKeysOf | utils.py:84-103 | the decimal counts are copied unchanged |
| Utils.PoolKeysOfInjective | utils.py:84-103 | the mapping is injective: distinct directory records give distinct key sets, so no entry is dropped |
| Utils.Lookup | utils.py:79-103 | "failed" exactly when no pool pairs the mint with wrapped SOL |
| Utils.FoundKeysPairWithWrappedSol | utils.py:52-103 | returned keys have the mint on one side and wrapped SOL on the other |
| Utils.FetchedSnapshot | utils.py:63-78 | a local snapshot with a match is kept; otherwise it is replaced by official + unOfficial |
| Utils.FetchedKeys | utils.py:60-103 | a local match wins; otherwise an official match, then an unofficial one; "failed" only when no list matches |
| Utils.PoolRegistry.FetchPoolKeys | utils.py:60-103 | the new snapshot and the returned keys are those of FetchedSnapshot and Lookup; returned keys come from a pairing pool of the snapshot |
| Utils.SwapAccounts | utils.py:110-129 | 18 accounts: token program at 0, AMM id at 1, authority at 2, Serum program at 7, market authority at 14, source at 15, destination at 16, owner at 17; the owner is the only signer; entries 0, 2, 7, 14 and 17 exactly are read-only |
| Utils.MakeSwapInstruction | utils.py:105-139 | an error exactly when the amount is not a u64; otherwise sent to the AMM program with the 18 accounts, and its payload decodes to (9, amount, 0) |
| Utils.LiquidityRemoverAccounts | utils.py:152-188 | 22 accounts: the payer at 18 is the only signer; the withdraw-queue and LP-vault entries (8 and 9) are the all-ones system address; the LP, base and quote accounts are at 15, 16 and 17; entries 0, 2, 10, 14 and 18 exactly are read-only |
| Utils.MakeLiquidityRemoverInstruction | utils.py:149-190 | an error exactly when the amount is not a u64; otherwise its payload decodes to (4, amount) |
| Utils.SeedOf | utils.py:206 | the seed is the first 32 characters of the key text (all of it when shorter) |
| Utils.CreateAccountWithSeedArgs | utils.py:192-250 | exactly price 5,000,000, limit 10,000,000, create-with-seed funded with the rent-exempt minimum and 165 bytes, then initialize a wrapped-SOL account; the fee payer is the payer; the `amount` argument is unused |
| SolanaApi.Truncate | solana_api.py:63 | int(): rounds toward zero |
| SolanaApi.ScaledAmount | solana_api.py:63 | amount_in is the scaled amount rounded down; it is non-negative for a non-negative amount |
| SolanaApi.GetTokenAccount | solana_api.py:47-54 | the first account found with no instruction; when the lookup raises or finds none, the associated address plus the instruction that creates it |
| SolanaApi.SellTokenAccount | utils.py:141-147 | the first account found; None when the lookup raises or finds none |
| SolanaApi.TokenBalance | solana_api.py:147-153 | 0 when no holding has the mint |
| SolanaApi.TokenBalanceAt | solana_api.py:149-153 | the amount of the first holding of the mint is the balance |
| SolanaApi.ScanBalance | solana_api.py:147-153 | the loop with break returns TokenBalance |
| SolanaApi.Handle | solana_api.py:113-134 | a timeout or RPC error returns False with no row; any other exception logs a 'failed' row with '-' and amount_in and returns False, or escapes when amount_in is unbound |
| SolanaApi.BuyInstructions | solana_api.py:68-87 | the wrapped-SOL setup first, then the token-account creation when it was missing, then the swap, compute price 25232, compute limit 200337 and the close |
| SolanaApi.Confirm | solana_api.py:90-111 | a 'complete' row (signature, amount_in) exactly when the signature is non-empty and the confirmation arrives in time, and then True |
| SolanaApi.BuySwap | solana_api.py:72-111 | nothing is sent when the swap payload fails; otherwise the end of the block is Confirm |
| SolanaApi.BuyTry | solana_api.py:59-112 | an unparsable mint raises before the pool lookup; otherwise the snapshot is FetchedSnapshot; never falls through; a row only with a sent transaction and True; a raise before amount_in is bound sends and logs nothing |
| SolanaApi.BuyOnce | solana_api.py:56-134 | never None, at most one row, an escape sends and logs nothing, and the snapshot left behind |
| SolanaApi.BuyWithKeys | solana_api.py:60-111 | an exception before the send sends and logs nothing; otherwise Confirm with amount_in from quote_decimals |
| SolanaApi.SellInstructions | solana_api.py:170-181 | the optional wrapped-SOL creation, then the swap, price, limit and close |
| SolanaApi.SellSend | solana_api.py:173-205 | a failed blockhash query sends nothing; otherwise Confirm, falling through on an empty signature |
| SolanaApi.SellSwap | solana_api.py:155-205 | no source account or a failed payload sends nothing |
| SolanaApi.SellTry | solana_api.py:139-205 | as BuyTry; falling through means a transaction went out with an empty signature; a row exactly when the block returns True |
| SolanaApi.SellOnce | solana_api.py:136-227 | never None, at most one row, an escape sends and logs nothing, and the snapshot left behind |
| SolanaApi.SellWithKeys | solana_api.py:143-205 | a balance below amount_in returns False with nothing sent; otherwise Confirm with amount_in from base_decimals |
| SolanaApi.BuyOutcomes | solana_api.py:56-134 | never None; at most one row; True exactly when sent and the signature is empty or confirmed in time; an empty signature gives True and no row; a timeout gives False and no row |
| SolanaApi.BuySubmission | solana_api.py:68-90 | the sent transaction: the wrapped-SOL setup, the swap (9, amount_in, 0) from the wrapped-SOL account, then the close; signers are the payer and the wrapped-SOL keypair |
| SolanaApi.SellOutcomes | solana_api.py:136-227 | never None; at most one row; True exactly when confirmed after a non-empty signature, with one 'complete' row; an empty signature gives False |
| SolanaApi.SellRespectsBalance | solana_api.py:147-160 | a balance below amount_in gives False with no row and nothing sent; every sent swap is within the balance |
| SolanaApi.SellSubmission | solana_api.py:155-184 | exactly 5 instructions: create the wrapped-SOL account, swap from the token account, price, limit, close; a recent blockhash is set and the payer is the only signer |
| SolanaApi.SellSwapSubmission | solana_api.py:162-184 | the same transaction, once the balance check has passed |
| SolanaApi.FailedLookupEscapes | solana_api.py:60-134 | a "failed" pool lookup sends and logs nothing; buy and sell escape with UnboundLocalError, unless the owner lookup of the mint raised an RPC error or timeout first, and then they return False |
| SolanaApi.MetadataAccount | solana_api.py:473 | the PDA of the seeds b"metadata", the metadata program's key and the mint's key, in that order, under the metadata program |
| SolanaApi.MetadataRecord | solana_api.py:450-471 | CreateMetadataAccountV3 (33), the given name, symbol and uri, a seller fee of 500 basis points, the payer as the one verified creator with the whole share, no collection, no uses, no collection details, mutable |
| SolanaApi.MetadataRecordEncodes | solana_api.py:450-472 | the record builds exactly when the strings fit in u32 and the payer's key is 32 bytes |
| SolanaApi.MetadataAccounts | solana_api.py:476-484 | 7 accounts in order; signers exactly 2 and 3, writable exactly 0 and 3 |
| SolanaApi.SplTokenInstructions | solana_api.py:405-487 | an error exactly when the record does not build; otherwise 5 instructions, the last to the metadata program with the 7 accounts and a payload that decodes to the record |
| SolanaApi.SplTokenConsistent | solana_api.py:412-487 | a mint-sized account owned by the token program, a 9-decimal mint whose authorities are the payer, 10^10 minted into the ATA created third, metadata for that mint; every signer account is among the signers |
| SolanaApi.SplTokenSubmission | solana_api.py:403-500 | nothing is sent when the rent query raises or the record does not build; otherwise the 5 instructions, no fee payer, signed by the payer and the new token |
| SolanaApi.Trader.UpdateLog | solana_api.py:538-554 | appends exactly one row |
| SolanaApi.Trader.SendTransaction | solana_api.py:90 | records the transaction handed over, whatever the answer |
| SolanaApi.Trader.SendAndConfirm | solana_api.py:90-111 | outcome, row and submission are those of Confirm |
| SolanaApi.Trader.BuyTransaction | solana_api.py:68-87 | the instructions appended in place are BuyInstructions |
| SolanaApi.Trader.BuySwapStep | solana_api.py:72-111 | outcome, log and submissions are those of BuySwap |
| SolanaApi.Trader.BuyWithKeysStep | solana_api.py:60-111 | outcome, log and submissions are those of BuyWithKeys |
| SolanaApi.Trader.TryBuy | solana_api.py:59-112 | the try block matches BuyTry, including the pool snapshot it leaves |
| SolanaApi.Trader.Buy | solana_api.py:56-134 | MAX_RETRIES ≤ 0 returns None and changes nothing; otherwise the reply, the rows, the single submission and the snapshot are those of BuyOnce on the first attempt |
| SolanaApi.Trader.SellSendStep | solana_api.py:173-205 | outcome, log and submissions are those of SellSend |
| SolanaApi.Trader.SellSwapStep | solana_api.py:155-205 | outcome, log and submissions are those of SellSwap |
| SolanaApi.Trader.SellWithKeysStep | solana_api.py:143-205 | outcome, log and submissions are those of SellWithKeys, the balance from the scan |
| SolanaApi.Trader.TrySell | solana_api.py:139-205 | the try block matches SellTry |
| SolanaApi.Trader.Sell | solana_api.py:136-227 | MAX_RETRIES ≤ 0 returns None; otherwise SellOnce on the first attempt; at most one transaction is sent |
| SolanaApi.Trader.CreateSplToken | solana_api.py:403-500 | never logs; submits exactly SplTokenSubmission; exceptions are swallowed |

## Left out

- RPC and network calls are inputs, not calls. The answer of each RPC step of one attempt is a field of `BuyAttempt`/`SellAttempt`. `get_transaction_with_timeout` and `asyncio.wait_for` become `confirm: Option<Fault>`. The remote pool directory is a `PoolDirectory` value.
- A network failure while downloading the pool directory is not modelled: the remote directory is always available.
- Floating point is not modelled. `int(amount * 10 ** decimals)` uses exact reals with truncation toward zero (`ScaledAmount`), so float rounding is ignored.
- `liquidity_remove` (polling loops, float arithmetic, sleeps), `getBalance`, `liquidity_info`, `swap_bome`, `swap_sol` and `spl_token` are not part of this model. The same holds for `nft.py`, `main.py`, `tg.py` and `bot.py`, which are I/O glue.
- Key generation, base58 parsing, signing and address derivation are not computed. Addresses are symbolic terms. Whether the mint string parses is the `mintParses` input. `Pubkey.from_string` on directory entries is assumed to succeed.
- File I/O is not modelled: `all_pools.json` is the `PoolRegistry.snapshot` field. The CSV file is the `Trader.log` row sequence. The header row, a failed CSV write and the date text are not modelled, except for the date format, which is kept.
- The clock, `time.sleep(RETRY_DELAY)` and all `print` output are dropped. A `MAX_RETRIES` or `RETRY_DELAY` that does not parse as an integer is not modelled.
- Strings in the metadata record are their UTF-8 bytes; the encoding itself is not modelled.
- The wrapped-SOL account setup of the spl-token library (`_create_wrapped_native_account_args`) is the `WsolSetup` input: its account, keypair, fee payer and instructions.
- Any RPC step of the model may raise `Timeout`, while in the code only the `asyncio.wait_for` of the confirmation does. Letting the other steps raise it as well covers more runs than the code can take; each such run is handled as the timeout handler would handle it.
- The send options (`skip_preflight`, `skip_confirmation`) are not modelled. A solders `Signature` is a string whose truthiness is non-emptiness.
- SolanaApi.ScaledAmount: for negative `decimals` the scaling is exact division, not the float `10 ** -d`.
