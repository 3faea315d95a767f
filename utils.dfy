/** utils.py: the pool directory search, the pool-key record, the swap and withdraw instruction
    builders and the seeded wrapped-SOL account transaction. */
module Utils {
  import opened Wrappers
  import opened Bytes
  import Layouts
  import opened Ledger

  const AmmProgramId := Key("675kPX9MHTjS2zt1qfr1NYHuzeLXfQM9H24wFSUt1Mp8")
  const SerumProgramId := Key("srmqPvymJeFKQ4zGQed1GFppgkRHL9kaELCbyksJtPX")
  const WithdrawQueue := Key("11111111111111111111111111111111")
  const LpVault := Key("11111111111111111111111111111111")
  /** The wrapped-SOL mint as it is spelled in the pool directory. */
  const WrappedSolText := "So11111111111111111111111111111111111111112"

  /** One pool of the remote liquidity directory, restricted to the entries the bot reads. */
  datatype PoolRecord = PoolRecord(
    id: string,
    authority: string,
    baseMint: string,
    baseDecimals: int,
    quoteMint: string,
    quoteDecimals: int,
    lpMint: string,
    openOrders: string,
    targetOrders: string,
    baseVault: string,
    quoteVault: string,
    marketId: string,
    marketBaseVault: string,
    marketQuoteVault: string,
    marketAuthority: string,
    marketBids: string,
    marketAsks: string,
    marketEventQueue: string)

  /** The remote directory: its official and unofficial pool lists. */
  datatype PoolDirectory = PoolDirectory(official: seq<PoolRecord>, unOfficial: seq<PoolRecord>)

  /** The 18-entry key set fetch_pool_keys returns. */
  datatype PoolKeys = PoolKeys(
    ammId: Address,
    authority: Address,
    baseMint: Address,
    baseDecimals: int,
    quoteMint: Address,
    quoteDecimals: int,
    lpMint: Address,
    openOrders: Address,
    targetOrders: Address,
    baseVault: Address,
    quoteVault: Address,
    marketId: Address,
    marketBaseVault: Address,
    marketQuoteVault: Address,
    marketAuthority: Address,
    bids: Address,
    asks: Address,
    eventQueue: Address)

  /** What fetch_pool_keys returns: the key set, or the string "failed". */
  datatype PoolLookup = Keys(keys: PoolKeys) | Failed

  datatype LookupError = PoolNotFound(mint: string)

  /** A pool pairs the mint with wrapped SOL, with the mint on either side. */
  predicate PairsWithWrappedSol(pool: PoolRecord, mint: string) {
    || (pool.baseMint == mint && pool.quoteMint == WrappedSolText)
    || (pool.quoteMint == mint && pool.baseMint == WrappedSolText)
  }

  /** extract_pool_info: the first pool, in list order, that pairs the mint with wrapped SOL;
      "pool not found" when there is none. */
  function ExtractPoolInfo(pools: seq<PoolRecord>, mint: string): (r: Result<PoolRecord, LookupError>)
    ensures r.Err? <==> forall i :: 0 <= i < |pools| ==> !PairsWithWrappedSol(pools[i], mint)
    ensures r.Err? ==> r.error == PoolNotFound(mint)
    ensures r.Ok? ==> exists i :: 0 <= i < |pools| && pools[i] == r.value && PairsWithWrappedSol(pools[i], mint) &&
                                  forall j :: 0 <= j < i ==> !PairsWithWrappedSol(pools[j], mint)
  {
    if pools == [] then Err(PoolNotFound(mint))
    else if PairsWithWrappedSol(pools[0], mint) then Ok(pools[0])
    else
      var r := ExtractPoolInfo(pools[1..], mint);
      assert forall i :: 1 <= i < |pools| ==> pools[i] == pools[1..][i - 1];
      if r.Ok? then
        ghost var k :| 0 <= k < |pools[1..]| && pools[1..][k] == r.value && PairsWithWrappedSol(r.value, mint) &&
                      forall j :: 0 <= j < k ==> !PairsWithWrappedSol(pools[1..][j], mint);
        assert pools[k + 1] == r.value;
        r
      else r
  }

  /** Searching the official list followed by the unofficial one finds an official match first,
      and falls back to the unofficial list only when the official list has no match. */
  lemma {:induction false} RefreshPrefersOfficial(official: seq<PoolRecord>, unofficial: seq<PoolRecord>, mint: string)
    ensures ExtractPoolInfo(official + unofficial, mint) ==
            if ExtractPoolInfo(official, mint).Ok? then ExtractPoolInfo(official, mint)
            else ExtractPoolInfo(unofficial, mint)
  {
    if official == [] {
      assert official + unofficial == unofficial;
    } else {
      assert (official + unofficial)[0] == official[0];
      assert (official + unofficial)[1..] == official[1..] + unofficial;
      RefreshPrefersOfficial(official[1..], unofficial, mint);
    }
  }

  /** The key-set mapping of fetch_pool_keys: each address parsed from its own directory entry,
      the decimal counts copied. */
  function PoolKeysOf(p: PoolRecord): (k: PoolKeys)
    ensures k.baseDecimals == p.baseDecimals && k.quoteDecimals == p.quoteDecimals
  {
    PoolKeys(
      ammId := Key(p.id),
      authority := Key(p.authority),
      baseMint := Key(p.baseMint),
      baseDecimals := p.baseDecimals,
      quoteMint := Key(p.quoteMint),
      quoteDecimals := p.quoteDecimals,
      lpMint := Key(p.lpMint),
      openOrders := Key(p.openOrders),
      targetOrders := Key(p.targetOrders),
      baseVault := Key(p.baseVault),
      quoteVault := Key(p.quoteVault),
      marketId := Key(p.marketId),
      marketBaseVault := Key(p.marketBaseVault),
      marketQuoteVault := Key(p.marketQuoteVault),
      marketAuthority := Key(p.marketAuthority),
      bids := Key(p.marketBids),
      asks := Key(p.marketAsks),
      eventQueue := Key(p.marketEventQueue))
  }

  /** No directory entry is lost or used twice: the key set determines the record it came from.
      This follows from the shapes of the two records alone. */
  lemma PoolKeysOfInjective(p: PoolRecord, q: PoolRecord)
    ensures PoolKeysOf(p) == PoolKeysOf(q) ==> p == q
  {
  }

  /** The search of fetch_pool_keys over one pool list. */
  function Lookup(pools: seq<PoolRecord>, mint: string): (r: PoolLookup)
    ensures r.Failed? <==> forall i :: 0 <= i < |pools| ==> !PairsWithWrappedSol(pools[i], mint)
  {
    match ExtractPoolInfo(pools, mint)
    case Ok(p) => Keys(PoolKeysOf(p))
    case Err(_) => Failed
  }

  /** A key set that the lookup returns names the mint and wrapped SOL as its two sides. */
  lemma FoundKeysPairWithWrappedSol(pools: seq<PoolRecord>, mint: string)
    requires Lookup(pools, mint).Keys?
    ensures var k := Lookup(pools, mint).keys;
            || (k.baseMint == Key(mint) && k.quoteMint == WrappedSolMint)
            || (k.quoteMint == Key(mint) && k.baseMint == WrappedSolMint)
  {
    var p := ExtractPoolInfo(pools, mint).value;
    assert PairsWithWrappedSol(p, mint);
  }

  /** Whether a snapshot already holds a pool for the mint (the local fast path). */
  predicate HasLocalMatch(snapshot: Option<seq<PoolRecord>>, mint: string) {
    snapshot.Some? && Lookup(snapshot.value, mint).Keys?
  }

  /** The snapshot fetch_pool_keys leaves behind: the local one when it has a match for the mint,
      otherwise the remote directory, official pools first. */
  function FetchedSnapshot(snapshot: Option<seq<PoolRecord>>, mint: string, remote: PoolDirectory)
    : (r: Option<seq<PoolRecord>>)
    ensures r.Some?
    ensures HasLocalMatch(snapshot, mint) ==> r == snapshot
    ensures !HasLocalMatch(snapshot, mint) ==> r.value == remote.official + remote.unOfficial
  {
    if HasLocalMatch(snapshot, mint) then snapshot else Some(remote.official + remote.unOfficial)
  }

  /** The keys fetch_pool_keys returns: a local match wins; otherwise an official pool is preferred
      to an unofficial one; "failed" only when no list has a match. */
  lemma FetchedKeys(snapshot: Option<seq<PoolRecord>>, mint: string, remote: PoolDirectory)
    ensures var keys := Lookup(FetchedSnapshot(snapshot, mint, remote).value, mint);
            && (HasLocalMatch(snapshot, mint) ==> keys == Lookup(snapshot.value, mint))
            && (!HasLocalMatch(snapshot, mint) && Lookup(remote.official, mint).Keys? ==>
                  keys == Lookup(remote.official, mint))
            && (!HasLocalMatch(snapshot, mint) && Lookup(remote.official, mint).Failed? ==>
                  keys == Lookup(remote.unOfficial, mint))
  {
    RefreshPrefersOfficial(remote.official, remote.unOfficial, mint);
  }

  /** The local pool snapshot (all_pools.json) that fetch_pool_keys reads and rewrites. */
  class PoolRegistry {
    /** The snapshot's pools; None when the file is missing or cannot be read. */
    var snapshot: Option<seq<PoolRecord>>

    constructor (snapshot: Option<seq<PoolRecord>>)
      ensures this.snapshot == snapshot
    {
      this.snapshot := snapshot;
    }

    /** fetch_pool_keys: search the snapshot; when it is missing or has no match, replace it by the
        remote directory (official pools first) and search that; no match then gives "failed". */
    method FetchPoolKeys(mint: string, remote: PoolDirectory) returns (r: PoolLookup)
      modifies this
      ensures snapshot == FetchedSnapshot(old(snapshot), mint, remote)
      ensures r == Lookup(snapshot.value, mint)
      ensures r.Keys? ==> exists pool :: pool in snapshot.value && PairsWithWrappedSol(pool, mint) && r.keys == PoolKeysOf(pool)
    {
      if snapshot.Some? {
        var local := ExtractPoolInfo(snapshot.value, mint);
        if local.Ok? {
          return Keys(PoolKeysOf(local.value));
        }
      }
      var allPools := remote.official + remote.unOfficial;
      snapshot := Some(allPools);
      var found := ExtractPoolInfo(allPools, mint);
      if found.Err? {
        return Failed;
      }
      r := Keys(PoolKeysOf(found.value));
    }
  }

  // ---------------------------------------------------------------------------------------------
  // Instruction builders

  /** The 18 accounts of the AMM swap instruction, in the program's order. */
  function SwapAccounts(tokenProgram: Address, keys: PoolKeys, source: Address, dest: Address, owner: Address)
    : (metas: seq<AccountMeta>)
    ensures |metas| == 18
    ensures metas[15] == AccountMeta(source, false, true) && metas[16] == AccountMeta(dest, false, true)
    ensures metas[17] == AccountMeta(owner, true, false)
    ensures forall i :: 0 <= i < 18 ==> (metas[i].isSigner <==> i == 17)
    ensures forall i :: 0 <= i < 18 ==> (!metas[i].isWritable <==> i in {0, 2, 7, 14, 17})
    ensures metas[0].pubkey == tokenProgram && metas[1].pubkey == keys.ammId && metas[2].pubkey == keys.authority
    ensures metas[7].pubkey == SerumProgramId && metas[14].pubkey == keys.marketAuthority
  {
    [ AccountMeta(tokenProgram, false, false),
      AccountMeta(keys.ammId, false, true),
      AccountMeta(keys.authority, false, false),
      AccountMeta(keys.openOrders, false, true),
      AccountMeta(keys.targetOrders, false, true),
      AccountMeta(keys.baseVault, false, true),
      AccountMeta(keys.quoteVault, false, true),
      AccountMeta(SerumProgramId, false, false),
      AccountMeta(keys.marketId, false, true),
      AccountMeta(keys.bids, false, true),
      AccountMeta(keys.asks, false, true),
      AccountMeta(keys.eventQueue, false, true),
      AccountMeta(keys.marketBaseVault, false, true),
      AccountMeta(keys.marketQuoteVault, false, true),
      AccountMeta(keys.marketAuthority, false, false),
      AccountMeta(source, false, true),
      AccountMeta(dest, false, true),
      AccountMeta(owner, true, false) ]
  }

  /** make_swap_instruction: swap opcode 9 with the given amount and a zero minimum output, addressed
      to the AMM program. The token program is the owner of the mint's account, looked up by the
      caller. An amount that does not fit a u64 makes the payload build fail. */
  function MakeSwapInstruction(amountIn: int, source: Address, dest: Address, keys: PoolKeys,
                               tokenProgram: Address, owner: Address): (r: Result<Instr, Layouts.Error>)
    ensures r.Ok? <==> 0 <= amountIn < Layouts.U64Bound
    ensures r.Ok? ==> r.value.Invoke? && r.value.programId == AmmProgramId &&
                      r.value.accounts == SwapAccounts(tokenProgram, keys, source, dest, owner)
    ensures r.Ok? ==> Layouts.ParseSwap(r.value.data) == Ok(Layouts.Swap(9, amountIn, 0))
  {
    var data := Layouts.BuildSwap(Layouts.Swap(9, amountIn, 0));
    if data.Err? then Err(data.error)
    else
      Layouts.SwapRoundTrip(Layouts.Swap(9, amountIn, 0));
      Ok(Invoke(AmmProgramId, data.value, SwapAccounts(tokenProgram, keys, source, dest, owner)))
  }

  /** The 22 accounts of the AMM withdraw instruction, in the program's order. */
  function LiquidityRemoverAccounts(payer: Address, lpAccount: Address, quoteAccount: Address,
                                    baseAccount: Address, keys: PoolKeys, tokenProgram: Address)
    : (metas: seq<AccountMeta>)
    ensures |metas| == 22
    ensures metas[18] == AccountMeta(payer, true, false)
    ensures metas[8].pubkey == SystemProgramId && metas[9].pubkey == SystemProgramId
    ensures metas[15].pubkey == lpAccount && metas[16].pubkey == baseAccount && metas[17].pubkey == quoteAccount
    ensures forall i :: 0 <= i < 22 ==> (metas[i].isSigner <==> i == 18)
    ensures forall i :: 0 <= i < 22 ==> (!metas[i].isWritable <==> i in {0, 2, 10, 14, 18})
  {
    [ AccountMeta(tokenProgram, false, false),
      AccountMeta(keys.ammId, false, true),
      AccountMeta(keys.authority, false, false),
      AccountMeta(keys.openOrders, false, true),
      AccountMeta(keys.targetOrders, false, true),
      AccountMeta(keys.lpMint, false, true),
      AccountMeta(keys.baseVault, false, true),
      AccountMeta(keys.quoteVault, false, true),
      AccountMeta(WithdrawQueue, false, true),
      AccountMeta(LpVault, false, true),
      AccountMeta(SerumProgramId, false, false),
      AccountMeta(keys.marketId, false, true),
      AccountMeta(keys.marketBaseVault, false, true),
      AccountMeta(keys.marketQuoteVault, false, true),
      AccountMeta(keys.marketAuthority, false, false),
      AccountMeta(lpAccount, false, true),
      AccountMeta(baseAccount, false, true),
      AccountMeta(quoteAccount, false, true),
      AccountMeta(payer, true, false),
      AccountMeta(keys.eventQueue, false, true),
      AccountMeta(keys.bids, false, true),
      AccountMeta(keys.asks, false, true) ]
  }

  /** make_liquidity_remover_instruction: withdraw opcode 4 with the amount, addressed to the AMM program. */
  function MakeLiquidityRemoverInstruction(payer: Address, lpAccount: Address, quoteAccount: Address,
                                           baseAccount: Address, keys: PoolKeys, tokenProgram: Address,
                                           amount: int): (r: Result<Instr, Layouts.Error>)
    ensures r.Ok? <==> 0 <= amount < Layouts.U64Bound
    ensures r.Ok? ==> r.value.Invoke? && r.value.programId == AmmProgramId &&
                      r.value.accounts == LiquidityRemoverAccounts(payer, lpAccount, quoteAccount, baseAccount, keys, tokenProgram)
    ensures r.Ok? ==> Layouts.ParseLiq(r.value.data) == Ok(Layouts.Liq(4, amount))
  {
    var data := Layouts.BuildLiq(Layouts.Liq(4, amount));
    if data.Err? then Err(data.error)
    else
      Layouts.LiqRoundTrip(Layouts.Liq(4, amount));
      Ok(Invoke(AmmProgramId, data.value,
                LiquidityRemoverAccounts(payer, lpAccount, quoteAccount, baseAccount, keys, tokenProgram)))
  }

  // ---------------------------------------------------------------------------------------------
  // create_account_with_seed_args

  /** The seed: the first 32 characters of the new key's text (all of it when shorter). */
  function SeedOf(keyText: string): (seed: string)
    ensures |seed| == if |keyText| < 32 then |keyText| else 32
    ensures seed <= keyText
  {
    if |keyText| <= 32 then keyText else keyText[..32]
  }

  const SeedAccountPrice: nat := 5000000
  const SeedAccountLimit: nat := 10000000

  /** create_account_with_seed_args: a transaction paid by `payer` that sets the compute price and
      limit, creates the seeded account funded with exactly the rent-exempt minimum, and initialises
      it as a wrapped-SOL token account. The `amount` argument is overwritten and never used. The new
      keypair's text and the rent-exempt minimum (an RPC answer) are inputs. */
  method CreateAccountWithSeedArgs(programId: Address, owner: Address, payer: Address, amount: int,
                                   skipConfirmation: bool, commitment: string,
                                   newKeyText: string, rentExemptMinimum: nat)
    returns (seedPk: Address, txn: Transaction, payerOut: Address, newKeypair: Address, opts: TxOpts)
    ensures seedPk == WithSeed(payer, SeedOf(newKeyText), programId)
    ensures fresh(txn) && txn.feePayer == Some(payer) && txn.recentBlockhash == None
    ensures txn.instructions == [
              SetComputeUnitPrice(SeedAccountPrice),
              SetComputeUnitLimit(SeedAccountLimit),
              CreateAccountWithSeed(payer, seedPk, payer, SeedOf(newKeyText), rentExemptMinimum, TokenAccountSize, programId),
              InitializeAccount(seedPk, WrappedSolMint, owner, programId)]
    ensures payerOut == payer && newKeypair == Key(newKeyText)
    ensures opts == TxOpts(skipConfirmation, commitment)
  {
    newKeypair := Key(newKeyText);
    var seed := SeedOf(newKeyText);
    seedPk := WithSeed(payer, seed, programId);
    var lamports := rentExemptMinimum;
    txn := new Transaction(Some(payer));
    txn.Add([SetComputeUnitPrice(SeedAccountPrice)]);
    txn.Add([SetComputeUnitLimit(SeedAccountLimit)]);
    txn.Add([CreateAccountWithSeed(payer, seedPk, payer, seed, lamports, TokenAccountSize, programId)]);
    txn.Add([InitializeAccount(seedPk, WrappedSolMint, owner, programId)]);
    payerOut := payer;
    opts := TxOpts(skipConfirmation, commitment);
  }
}
