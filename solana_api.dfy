/** solana_api.py: the buy and sell swaps (one try per call, with the exception handlers that decide
    the reply and the CSV row), the balance scan of sell, and the SPL token creation transaction. */
module SolanaApi {
  import opened Wrappers
  import opened Bytes
  import Layouts
  import Metadata
  import opened Ledger
  import opened Utils

  // ---------------------------------------------------------------------------------------------
  // The environment: what RPC calls and library calls answer

  /** The exceptions the handlers of buy and sell tell apart: asyncio.TimeoutError, RPCException,
      and any other Exception. */
  datatype Fault = Timeout | RpcError | OtherError

  /** A call's answer, or the exception it raises. */
  datatype Answer<T> = Answer(value: T) | Raises(fault: Fault)

  /** What a call of buy or sell ends with: its return value, or the UnboundLocalError its generic
      handler raises when it reads `amount_in` before that variable was assigned. */
  datatype Reply = ReturnsTrue | ReturnsFalse | ReturnsNone | RaisesUnboundLocal

  /** The two timestamp formats of the log: '%Y-%m-%d %H:%M:%S' and '%Y-%m-%dT%H:%M:%S.%fZ'. */
  datatype DateFormat = SpaceSeparated | IsoMicros

  /** A row of transaction.csv: date, type, transaction_id, value, status. The clock is not modelled,
      only which format the date is written in. */
  datatype LogRow = LogRow(dateFormat: DateFormat, kind: string, txId: string, value: int, status: string)

  /** A transaction handed to send_transaction, with the keypairs that sign it. */
  datatype Submission = Submission(feePayer: Option<Address>, recentBlockhash: Option<string>,
                                   instructions: seq<Instr>, signers: seq<Address>)

  /** One entry of get_token_accounts_by_owner_json_parsed: the account's mint and raw amount. */
  datatype Holding = Holding(mint: string, amount: int)

  /** What _create_wrapped_native_account_args returns: the new wrapped-SOL account, its keypair and
      the transaction it started (fee payer and instructions). */
  datatype WsolSetup = WsolSetup(account: Address, keypair: Address, feePayer: Option<Address>, instructions: seq<Instr>)

  /** The answers one pass of buy's try block receives, in the order it asks. */
  datatype BuyAttempt = BuyAttempt(
    remote: PoolDirectory,                 // the remote pool directory, if fetch_pool_keys downloads it
    tokenProgram: Answer<Option<Address>>, // get_account_info_json_parsed(mint).value: its owner, or None
    rentExempt: Answer<nat>,               // get_min_balance_rent_for_exempt_for_account
    tokenAccounts: Answer<seq<Address>>,   // the async get_token_accounts_by_owner of get_token_account
    wsol: Answer<WsolSetup>,               // _create_wrapped_native_account_args
    swapProgram: Answer<Address>,          // make_swap_instruction's own owner lookup of the mint
    send: Answer<string>,                  // send_transaction: the signature
    confirm: Option<Fault>)                // the fault of the 15-second confirmation wait, if any

  /** The answers one pass of sell's try block receives, in the order it asks. */
  datatype SellAttempt = SellAttempt(
    remote: PoolDirectory,
    tokenProgram: Answer<Option<Address>>,
    holdings: Answer<seq<Holding>>,        // get_token_accounts_by_owner_json_parsed
    tokenAccounts: Answer<seq<Address>>,   // sell_get_token_account's lookup
    swapProgram: Answer<Address>,
    blockhash: Answer<string>,             // get_latest_blockhash
    send: Answer<string>,
    confirm: Option<Fault>)

  // ---------------------------------------------------------------------------------------------
  // Amount scaling

  function Pow10(n: nat): (p: nat)
    ensures p >= 1
  {
    if n == 0 then 1 else 10 * Pow10(n - 1)
  }

  /** int(x) of a number: the integer part, rounded toward zero. */
  function Truncate(x: real): (n: int)
    ensures x >= 0.0 ==> n as real <= x < n as real + 1.0
    ensures x < 0.0 ==> n as real - 1.0 < x <= n as real
  {
    if x >= 0.0 then x.Floor else -((-x).Floor)
  }

  /** int(amount * 10 ** decimals): the amount in the token's smallest unit, truncated toward zero.
      The arithmetic is exact here; the source computes it in floating point. */
  function ScaledAmount(amount: real, decimals: int): (n: int)
    ensures amount >= 0.0 ==> n >= 0
    ensures decimals >= 0 && amount >= 0.0 ==> n as real <= amount * Pow10(decimals) as real < n as real + 1.0
  {
    var scale: real := if decimals >= 0 then Pow10(decimals) as real else 1.0 / Pow10(-decimals) as real;
    assert scale > 0.0;
    Truncate(amount * scale)
  }

  // ---------------------------------------------------------------------------------------------
  // Token-account lookups

  /** get_token_account: the owner's first account for the mint; when the lookup raises or finds
      none, the associated token address together with the instruction that creates it. */
  function GetTokenAccount(owner: Address, mint: Address, lookup: Answer<seq<Address>>): (r: (Address, Option<Instr>))
    ensures r.1.None? <==> lookup.Answer? && |lookup.value| > 0
    ensures r.1.None? ==> r.0 == lookup.value[0]
    ensures r.1.Some? ==> r.1.value == CreateAssociatedTokenAccount(owner, owner, mint) &&
                          r.0 == AssociatedTokenAddress(r.1.value.owner, r.1.value.mint)
  {
    if lookup.Answer? && |lookup.value| > 0 then (lookup.value[0], None)
    else (AssociatedTokenAddress(owner, mint), Some(CreateAssociatedTokenAccount(owner, owner, mint)))
  }

  /** sell_get_token_account: the owner's first account for the mint, None when the lookup raises
      or finds none. */
  function SellTokenAccount(lookup: Answer<seq<Address>>): (r: Option<Address>)
    ensures r.Some? <==> lookup.Answer? && |lookup.value| > 0
    ensures r.Some? ==> r.value == lookup.value[0]
  {
    if lookup.Answer? && |lookup.value| > 0 then Some(lookup.value[0]) else None
  }

  /** sell's wrapped-SOL lookup awaits the reply of the synchronous client; awaiting a value that is
      not awaitable raises TypeError, which get_token_account catches, so the lookup always ends in
      its fallback branch. */
  const WsolLookupInSell: Answer<seq<Address>> := Raises(OtherError)

  /** The balance sell reads: the amount of the first holding of the mint, 0 when there is none. */
  function TokenBalance(holdings: seq<Holding>, mint: string): (b: int)
    ensures (forall j :: 0 <= j < |holdings| ==> holdings[j].mint != mint) ==> b == 0
  {
    if holdings == [] then 0
    else if holdings[0].mint == mint then holdings[0].amount
    else TokenBalance(holdings[1..], mint)
  }

  /** The balance of the first holding of the mint is the one read: earlier holdings of other
      mints and later holdings of any mint do not matter. */
  lemma {:induction false} TokenBalanceAt(holdings: seq<Holding>, mint: string, i: nat)
    requires i < |holdings| && holdings[i].mint == mint
    requires forall j :: 0 <= j < i ==> holdings[j].mint != mint
    ensures TokenBalance(holdings, mint) == holdings[i].amount
  {
    if i > 0 {
      assert holdings[0].mint != mint;
      assert forall j :: 0 <= j < i - 1 ==> holdings[1..][j] == holdings[j + 1];
      TokenBalanceAt(holdings[1..], mint, i - 1);
    }
  }

  /** The loop of sell over the owner's token accounts: stop at the first account of the mint. */
  method ScanBalance(holdings: seq<Holding>, mint: string) returns (balance: int)
    ensures balance == TokenBalance(holdings, mint)
  {
    balance := 0;
    var i := 0;
    while i < |holdings|
      invariant 0 <= i <= |holdings|
      invariant forall j :: 0 <= j < i ==> holdings[j].mint != mint
    {
      if holdings[i].mint == mint {
        balance := holdings[i].amount;
        TokenBalanceAt(holdings, mint, i);
        return;
      }
      i := i + 1;
    }
  }

  // ---------------------------------------------------------------------------------------------
  // One pass of the try block, and the exception handlers

  /** How the try block ends: with a return, by running to its end, or with an exception; for an
      exception, whether `amount_in` had been assigned and to what. */
  datatype TryOutcome = Returned(value: bool) | FellThrough | Raised(fault: Fault, amountIn: Option<int>)

  /** The try block's outcome with the row it logged, the transaction it sent and the pool snapshot
      it left. */
  datatype Trial = Trial(outcome: TryOutcome, row: Option<LogRow>, submission: Option<Submission>,
                         snapshot: Option<seq<PoolRecord>>)

  /** A whole call of buy or sell. */
  datatype Effect = Effect(reply: Reply, rows: seq<LogRow>, submission: Option<Submission>,
                           snapshot: Option<seq<PoolRecord>>)

  const BuyKind := "swap_bome"
  const SellKind := "swap_sol"
  const SwapPrice: nat := 25232
  const SwapLimit: nat := 200337

  /** The exception handlers and the statements after them. A timeout or an RPC error bumps the
      retry counter, and the loop body then returns False without a second pass; any other
      exception logs a 'failed' row with `amount_in` and returns False, or raises
      UnboundLocalError when `amount_in` was never assigned. */
  function Handle(t: Trial, failedFormat: DateFormat, kind: string): (e: Effect)
    ensures e.submission == t.submission && e.snapshot == t.snapshot
    ensures t.outcome.Returned? ==> e.reply == (if t.outcome.value then ReturnsTrue else ReturnsFalse) && e.rows == OptionSeq(t.row)
    ensures t.outcome == Raised(OtherError, None) ==> e.reply == RaisesUnboundLocal && e.rows == OptionSeq(t.row)
    ensures t.outcome.Raised? && t.outcome.fault != OtherError ==> e.reply == ReturnsFalse && e.rows == OptionSeq(t.row)
    ensures t.outcome.Raised? && t.outcome.fault == OtherError && t.outcome.amountIn.Some? ==>
              e.reply == ReturnsFalse &&
              e.rows == OptionSeq(t.row) + [LogRow(failedFormat, kind, "-", t.outcome.amountIn.value, "failed")]
    ensures t.outcome == FellThrough ==> e.reply == ReturnsFalse && e.rows == OptionSeq(t.row)
  {
    match t.outcome
    case Returned(b) => Effect(if b then ReturnsTrue else ReturnsFalse, OptionSeq(t.row), t.submission, t.snapshot)
    case FellThrough => Effect(ReturnsFalse, OptionSeq(t.row), t.submission, t.snapshot)
    case Raised(f, amountIn) =>
      if f != OtherError then Effect(ReturnsFalse, OptionSeq(t.row), t.submission, t.snapshot)
      else if amountIn.None? then Effect(RaisesUnboundLocal, OptionSeq(t.row), t.submission, t.snapshot)
      else Effect(ReturnsFalse, OptionSeq(t.row) + [LogRow(failedFormat, kind, "-", amountIn.value, "failed")],
                  t.submission, t.snapshot)
  }

  /** The instructions buy sends: the wrapped-SOL setup, the token account creation when it was
      missing, the swap, the compute price and limit, and the closing of the wrapped-SOL account. */
  function BuyInstructions(w: WsolSetup, createIx: Option<Instr>, swapIx: Instr, tokenProgram: Address, payer: Address)
    : (ixs: seq<Instr>)
    ensures |ixs| == |w.instructions| + |OptionSeq(createIx)| + 4
    ensures ixs[..|w.instructions|] == w.instructions
    ensures ixs[|w.instructions|..|w.instructions| + |OptionSeq(createIx)|] == OptionSeq(createIx)
    ensures ixs[|ixs| - 4] == swapIx && ixs[|ixs| - 1] == CloseAccount(w.account, payer, payer, tokenProgram)
    ensures ixs[|ixs| - 3] == SetComputeUnitPrice(SwapPrice) && ixs[|ixs| - 2] == SetComputeUnitLimit(SwapLimit)
  {
    w.instructions + OptionSeq(createIx) +
    [swapIx, SetComputeUnitPrice(SwapPrice), SetComputeUnitLimit(SwapLimit), CloseAccount(w.account, payer, payer, tokenProgram)]
  }

  /** The end of the try block of buy and sell, from send_transaction on: a signature is awaited
      with a timeout and then logged as 'complete'; an empty signature ends the block with `onEmpty`
      (buy returns True, sell runs on past the block). */
  function Confirm(snap: Option<seq<PoolRecord>>, amountIn: int, sub: Submission, kind: string, onEmpty: TryOutcome,
                   send: Answer<string>, confirm: Option<Fault>): (t: Trial)
    ensures t.submission == Some(sub) && t.snapshot == snap
    ensures t.row.Some? <==> send.Answer? && send.value != "" && confirm.None?
    ensures t.row.Some? ==> t.row.value == LogRow(SpaceSeparated, kind, send.value, amountIn, "complete") &&
                            t.outcome == Returned(true)
    ensures send.Raises? ==> t.outcome == Raised(send.fault, Some(amountIn))
    ensures send.Answer? && send.value == "" ==> t.outcome == onEmpty
    ensures send.Answer? && send.value != "" && confirm.Some? ==> t.outcome == Raised(confirm.value, Some(amountIn))
  {
    if send.Raises? then Trial(Raised(send.fault, Some(amountIn)), None, Some(sub), snap)
    else if send.value == "" then Trial(onEmpty, None, Some(sub), snap)
    else if confirm.Some? then Trial(Raised(confirm.value, Some(amountIn)), None, Some(sub), snap)
    else Trial(Returned(true), Some(LogRow(SpaceSeparated, kind, send.value, amountIn, "complete")), Some(sub), snap)
  }

  /** buy's try block from the swap instruction on. */
  function BuySwap(snap: Option<seq<PoolRecord>>, keys: PoolKeys, payer: Address, amountIn: int, tokenProgram: Address,
                   swapAccount: Address, createIx: Option<Instr>, w: WsolSetup, swapProgram: Address, a: BuyAttempt)
    : (t: Trial)
    ensures t.snapshot == snap
    ensures t.submission.None? ==> t.row.None? && t.outcome.Raised?
    ensures t.submission.Some? ==> t == Confirm(snap, amountIn, t.submission.value, BuyKind, Returned(true), a.send, a.confirm)
  {
    var swapIx := MakeSwapInstruction(amountIn, w.account, swapAccount, keys, swapProgram, payer);
    if swapIx.Err? then Trial(Raised(OtherError, Some(amountIn)), None, None, snap)
    else
      Confirm(snap, amountIn,
              Submission(w.feePayer, None, BuyInstructions(w, createIx, swapIx.value, tokenProgram, payer), [payer, w.keypair]),
              BuyKind, Returned(true), a.send, a.confirm)
  }

  /** buy's try block once the pool keys are known. */
  function BuyWithKeys(snap: Option<seq<PoolRecord>>, token: string, keys: PoolKeys, payer: Address,
                       amount: real, a: BuyAttempt): (t: Trial)
    ensures t.snapshot == snap
    ensures t.submission.None? ==> t.row.None? && t.outcome.Raised?
    ensures t.submission.Some? ==>
              t == Confirm(snap, ScaledAmount(amount, keys.quoteDecimals), t.submission.value, BuyKind, Returned(true),
                           a.send, a.confirm)
  {
    if a.tokenProgram.Raises? then Trial(Raised(a.tokenProgram.fault, None), None, None, snap)
    else
      var amountIn := ScaledAmount(amount, keys.quoteDecimals);
      if a.tokenProgram.value.None? then Trial(Raised(OtherError, Some(amountIn)), None, None, snap)
      else if a.rentExempt.Raises? then Trial(Raised(a.rentExempt.fault, Some(amountIn)), None, None, snap)
      else if a.wsol.Raises? then Trial(Raised(a.wsol.fault, Some(amountIn)), None, None, snap)
      else if a.swapProgram.Raises? then Trial(Raised(a.swapProgram.fault, Some(amountIn)), None, None, snap)
      else
        var (swapAccount, createIx) := GetTokenAccount(payer, Key(token), a.tokenAccounts);
        BuySwap(snap, keys, payer, amountIn, a.tokenProgram.value.value, swapAccount, createIx, a.wsol.value,
                a.swapProgram.value, a)
  }

  /** One pass of buy's try block. */
  function BuyTry(snapshot: Option<seq<PoolRecord>>, token: string, mintParses: bool, payer: Address,
                  amount: real, a: BuyAttempt): (t: Trial)
    ensures !mintParses ==> t == Trial(Raised(OtherError, None), None, None, snapshot)
    ensures mintParses ==> t.snapshot == FetchedSnapshot(snapshot, token, a.remote)
    ensures t.outcome != FellThrough
    ensures t.row.Some? ==> t.submission.Some? && t.outcome == Returned(true)
    ensures t.outcome.Raised? && t.outcome.amountIn.None? ==> t.submission.None? && t.row.None?
  {
    if !mintParses then Trial(Raised(OtherError, None), None, None, snapshot)
    else
      var snap := FetchedSnapshot(snapshot, token, a.remote);
      var poolKeys := Lookup(snap.value, token);
      // the owner lookup of the mint runs before pool_keys is first read
      if a.tokenProgram.Raises? then Trial(Raised(a.tokenProgram.fault, None), None, None, snap)
      // pool_keys['quote_decimals'] on the string "failed" raises TypeError
      else if poolKeys.Failed? then Trial(Raised(OtherError, None), None, None, snap)
      else BuyWithKeys(snap, token, poolKeys.keys, payer, amount, a)
  }

  /** A call of buy whose loop is entered: one pass of the try block and its handlers. */
  function BuyOnce(snapshot: Option<seq<PoolRecord>>, token: string, mintParses: bool, payer: Address,
                   amount: real, a: BuyAttempt): (e: Effect)
    ensures e.reply != ReturnsNone && |e.rows| <= 1
    ensures e.reply == RaisesUnboundLocal ==> e.rows == [] && e.submission.None?
    ensures e.snapshot == if mintParses then FetchedSnapshot(snapshot, token, a.remote) else snapshot
  {
    Handle(BuyTry(snapshot, token, mintParses, payer, amount, a), IsoMicros, BuyKind)
  }

  /** The instructions sell sends: the wrapped-SOL account creation when it was missing, the swap,
      the compute price and limit, then the closing of the wrapped-SOL account. */
  function SellInstructions(wsolIx: Option<Instr>, swapIx: Instr, wsolAccount: Address, tokenProgram: Address, payer: Address)
    : (ixs: seq<Instr>)
    ensures |ixs| == |OptionSeq(wsolIx)| + 4
    ensures ixs[..|OptionSeq(wsolIx)|] == OptionSeq(wsolIx)
    ensures ixs[|ixs| - 4] == swapIx && ixs[|ixs| - 1] == CloseAccount(wsolAccount, payer, payer, tokenProgram)
    ensures ixs[|ixs| - 3] == SetComputeUnitPrice(SwapPrice) && ixs[|ixs| - 2] == SetComputeUnitLimit(SwapLimit)
  {
    OptionSeq(wsolIx) + [swapIx, SetComputeUnitPrice(SwapPrice), SetComputeUnitLimit(SwapLimit)] +
    [CloseAccount(wsolAccount, payer, payer, tokenProgram)]
  }

  /** sell's try block from the transaction on. */
  function SellSend(snap: Option<seq<PoolRecord>>, payer: Address, amountIn: int, tokenProgram: Address, swapIx: Instr,
                    wsolAccount: Address, wsolIx: Option<Instr>, a: SellAttempt): (t: Trial)
    ensures t.snapshot == snap
    ensures t.submission.None? ==> t.row.None? && t.outcome.Raised?
    ensures t.submission.Some? ==> t == Confirm(snap, amountIn, t.submission.value, SellKind, FellThrough, a.send, a.confirm)
  {
    if wsolIx.Some? && a.blockhash.Raises? then Trial(Raised(a.blockhash.fault, Some(amountIn)), None, None, snap)
    else
      var blockhash := if wsolIx.Some? then Some(a.blockhash.value) else None;
      Confirm(snap, amountIn,
              Submission(None, blockhash, SellInstructions(wsolIx, swapIx, wsolAccount, tokenProgram, payer), [payer]),
              SellKind, FellThrough, a.send, a.confirm)
  }

  /** sell's try block once the balance check has passed. */
  function SellSwap(snap: Option<seq<PoolRecord>>, keys: PoolKeys, payer: Address, amountIn: int,
                    tokenProgram: Address, a: SellAttempt): (t: Trial)
    ensures t.snapshot == snap
    ensures t.submission.None? ==> t.row.None? && t.outcome.Raised?
    ensures t.submission.Some? ==> t == Confirm(snap, amountIn, t.submission.value, SellKind, FellThrough, a.send, a.confirm)
  {
    var swapAccount := SellTokenAccount(a.tokenAccounts);
    var (wsolAccount, wsolIx) := GetTokenAccount(payer, WrappedSolMint, WsolLookupInSell);
    if a.swapProgram.Raises? then Trial(Raised(a.swapProgram.fault, Some(amountIn)), None, None, snap)
    // a None source account cannot become an account meta
    else if swapAccount.None? then Trial(Raised(OtherError, Some(amountIn)), None, None, snap)
    else
      var swapIx := MakeSwapInstruction(amountIn, swapAccount.value, wsolAccount, keys, a.swapProgram.value, payer);
      if swapIx.Err? then Trial(Raised(OtherError, Some(amountIn)), None, None, snap)
      else SellSend(snap, payer, amountIn, tokenProgram, swapIx.value, wsolAccount, wsolIx, a)
  }

  /** sell's try block once the pool keys are known. */
  function SellWithKeys(snap: Option<seq<PoolRecord>>, token: string, keys: PoolKeys, payer: Address,
                        amount: real, a: SellAttempt): (t: Trial)
    ensures t.snapshot == snap
    ensures t.submission.None? ==> t.row.None? && (t.outcome.Raised? || t.outcome == Returned(false))
    ensures t.submission.Some? ==>
              t == Confirm(snap, ScaledAmount(amount, keys.baseDecimals), t.submission.value, SellKind, FellThrough,
                           a.send, a.confirm)
  {
    if a.tokenProgram.Raises? then Trial(Raised(a.tokenProgram.fault, None), None, None, snap)
    else
      var amountIn := ScaledAmount(amount, keys.baseDecimals);
      if a.tokenProgram.value.None? then Trial(Raised(OtherError, Some(amountIn)), None, None, snap)
      else if a.holdings.Raises? then Trial(Raised(a.holdings.fault, Some(amountIn)), None, None, snap)
      else if TokenBalance(a.holdings.value, token) < amountIn then Trial(Returned(false), None, None, snap)
      else SellSwap(snap, keys, payer, amountIn, a.tokenProgram.value.value, a)
  }

  /** One pass of sell's try block. */
  function SellTry(snapshot: Option<seq<PoolRecord>>, token: string, mintParses: bool, payer: Address,
                   amount: real, a: SellAttempt): (t: Trial)
    ensures !mintParses ==> t == Trial(Raised(OtherError, None), None, None, snapshot)
    ensures mintParses ==> t.snapshot == FetchedSnapshot(snapshot, token, a.remote)
    ensures t.outcome == FellThrough ==> t.submission.Some? && t.row.None? && a.send == Answer("")
    ensures t.row.Some? <==> t.outcome == Returned(true)
    ensures t.row.Some? ==> t.submission.Some?
    ensures t.outcome.Raised? && t.outcome.amountIn.None? ==> t.submission.None? && t.row.None?
  {
    if !mintParses then Trial(Raised(OtherError, None), None, None, snapshot)
    else
      var snap := FetchedSnapshot(snapshot, token, a.remote);
      var poolKeys := Lookup(snap.value, token);
      if a.tokenProgram.Raises? then Trial(Raised(a.tokenProgram.fault, None), None, None, snap)
      else if poolKeys.Failed? then Trial(Raised(OtherError, None), None, None, snap)
      else SellWithKeys(snap, token, poolKeys.keys, payer, amount, a)
  }

  /** A call of sell whose loop is entered. */
  function SellOnce(snapshot: Option<seq<PoolRecord>>, token: string, mintParses: bool, payer: Address,
                    amount: real, a: SellAttempt): (e: Effect)
    ensures e.reply != ReturnsNone && |e.rows| <= 1
    ensures e.reply == RaisesUnboundLocal ==> e.rows == [] && e.submission.None?
    ensures e.snapshot == if mintParses then FetchedSnapshot(snapshot, token, a.remote) else snapshot
  {
    Handle(SellTry(snapshot, token, mintParses, payer, amount, a), SpaceSeparated, SellKind)
  }

  // ---------------------------------------------------------------------------------------------
  // What one call of buy or sell can end with

  /** buy: it never returns None once its loop is entered; it returns True exactly when a
      transaction was sent and either the signature was empty or the confirmation came in time; a
      'complete' row is logged exactly when the confirmation came; a timeout of the confirmation is
      not retried; the escape with UnboundLocalError happens before anything is sent or logged. */
  lemma BuyOutcomes(snapshot: Option<seq<PoolRecord>>, token: string, mintParses: bool, payer: Address,
                    amount: real, a: BuyAttempt)
    ensures var e := BuyOnce(snapshot, token, mintParses, payer, amount, a);
            && e.reply != ReturnsNone
            && |e.rows| <= 1
            && (e.reply == RaisesUnboundLocal ==> e.rows == [] && e.submission.None?)
            && (e.reply == ReturnsTrue <==> e.submission.Some? && a.send.Answer? && (a.send.value == "" || a.confirm.None?))
            && (e.rows != [] && e.rows[0].status == "complete" <==>
                  e.submission.Some? && a.send.Answer? && a.send.value != "" && a.confirm.None?)
            && (e.rows != [] && e.rows[0].status == "complete" ==>
                  e.rows[0].txId == a.send.value && e.rows[0].kind == BuyKind && e.rows[0].dateFormat == SpaceSeparated)
            && (e.rows != [] && e.rows[0].status != "complete" ==>
                  e.rows[0].status == "failed" && e.rows[0].txId == "-" && e.rows[0].dateFormat == IsoMicros)
            && (e.submission.Some? && a.send.Answer? && a.send.value != "" && a.confirm == Some(Timeout) ==>
                  e.reply == ReturnsFalse && e.rows == [])
            && (e.submission.Some? && a.send.Answer? && a.send.value == "" ==> e.reply == ReturnsTrue && e.rows == [])
  {
  }

  /** The transaction buy sends: it starts with the wrapped-SOL setup, swaps opcode 9 for the
      scaled amount with no minimum output from the wrapped-SOL account into the token account,
      signed by the payer, and ends by closing the wrapped-SOL account back to the payer. */
  lemma BuySubmission(snapshot: Option<seq<PoolRecord>>, token: string, payer: Address, amount: real, a: BuyAttempt)
    requires BuyOnce(snapshot, token, true, payer, amount, a).submission.Some?
    ensures var sub := BuyOnce(snapshot, token, true, payer, amount, a).submission.value;
            var keys := Lookup(FetchedSnapshot(snapshot, token, a.remote).value, token);
            var ixs := sub.instructions;
            && keys.Keys? && a.wsol.Answer? && a.tokenProgram.Answer? && a.tokenProgram.value.Some? && a.swapProgram.Answer?
            && sub.signers == [payer, a.wsol.value.keypair] && sub.feePayer == a.wsol.value.feePayer
            && |ixs| >= 4 && ixs[..|a.wsol.value.instructions|] == a.wsol.value.instructions
            && ixs[|ixs| - 4].Invoke? && ixs[|ixs| - 4].programId == AmmProgramId
            && Layouts.ParseSwap(ixs[|ixs| - 4].data) == Ok(Layouts.Swap(9, ScaledAmount(amount, keys.keys.quoteDecimals), 0))
            && ixs[|ixs| - 4].accounts ==
                 SwapAccounts(a.swapProgram.value, keys.keys, a.wsol.value.account,
                              GetTokenAccount(payer, Key(token), a.tokenAccounts).0, payer)
            && ixs[|ixs| - 1] == CloseAccount(a.wsol.value.account, payer, payer, a.tokenProgram.value.value)
  {
    var snap := FetchedSnapshot(snapshot, token, a.remote);
    var keys := Lookup(snap.value, token);
    var t := BuyTry(snapshot, token, true, payer, amount, a);
    assert t.submission.Some?;
    assert keys.Keys?;
    assert t == BuyWithKeys(snap, token, keys.keys, payer, amount, a);
    var amountIn := ScaledAmount(amount, keys.keys.quoteDecimals);
    assert a.tokenProgram.Answer? && a.tokenProgram.value.Some?;
    assert a.rentExempt.Answer? && a.wsol.Answer? && a.swapProgram.Answer?;
    var (swapAccount, createIx) := GetTokenAccount(payer, Key(token), a.tokenAccounts);
    var w := a.wsol.value;
    var tp := a.tokenProgram.value.value;
    assert t == BuySwap(snap, keys.keys, payer, amountIn, tp, swapAccount, createIx, w, a.swapProgram.value, a);
    var swapIx := MakeSwapInstruction(amountIn, w.account, swapAccount, keys.keys, a.swapProgram.value, payer);
    assert swapIx.Ok?;
    var ixs := BuyInstructions(w, createIx, swapIx.value, tp, payer);
    assert t.submission.value == Submission(w.feePayer, None, ixs, [payer, w.keypair]);
  }

  /** sell: it returns True exactly when the confirmation came in time after a non-empty signature,
      and then logs the 'complete' row; an empty signature returns False without a row. */
  lemma SellOutcomes(snapshot: Option<seq<PoolRecord>>, token: string, mintParses: bool, payer: Address,
                     amount: real, a: SellAttempt)
    ensures var e := SellOnce(snapshot, token, mintParses, payer, amount, a);
            && e.reply != ReturnsNone
            && |e.rows| <= 1
            && (e.reply == RaisesUnboundLocal ==> e.rows == [] && e.submission.None?)
            && (e.reply == ReturnsTrue <==> e.submission.Some? && a.send.Answer? && a.send.value != "" && a.confirm.None?)
            && (e.rows != [] && e.rows[0].status == "complete" <==> e.reply == ReturnsTrue)
            && (e.reply == ReturnsTrue ==> e.rows == [LogRow(SpaceSeparated, SellKind, a.send.value, e.rows[0].value, "complete")])
            && (e.rows != [] && e.rows[0].status != "complete" ==>
                  e.rows[0].status == "failed" && e.rows[0].txId == "-" && e.rows[0].dateFormat == SpaceSeparated)
            && (e.submission.Some? && a.send.Answer? && a.send.value == "" ==> e.reply == ReturnsFalse && e.rows == [])
  {
  }

  /** sell sends nothing and logs nothing when the balance it read is below the amount, and every
      transaction it sends swaps no more than that balance. */
  lemma SellRespectsBalance(snapshot: Option<seq<PoolRecord>>, token: string, payer: Address, amount: real, a: SellAttempt)
    ensures var e := SellOnce(snapshot, token, true, payer, amount, a);
            var keys := Lookup(FetchedSnapshot(snapshot, token, a.remote).value, token);
            && (keys.Keys? && a.tokenProgram.Answer? && a.tokenProgram.value.Some? && a.holdings.Answer? &&
                TokenBalance(a.holdings.value, token) < ScaledAmount(amount, keys.keys.baseDecimals) ==>
                  e == Effect(ReturnsFalse, [], None, FetchedSnapshot(snapshot, token, a.remote)))
            && (e.submission.Some? ==>
                  keys.Keys? && a.holdings.Answer? &&
                  ScaledAmount(amount, keys.keys.baseDecimals) <= TokenBalance(a.holdings.value, token))
  {
  }

  /** The transaction sell sends: no fee payer; a recent blockhash and, first, the creation of the
      payer's wrapped-SOL associated account, because the lookup before it always falls back; then
      the swap from the token account into that account and the closing of it back to the payer. */
  lemma SellSubmission(snapshot: Option<seq<PoolRecord>>, token: string, payer: Address, amount: real, a: SellAttempt)
    requires SellOnce(snapshot, token, true, payer, amount, a).submission.Some?
    ensures var sub := SellOnce(snapshot, token, true, payer, amount, a).submission.value;
            var keys := Lookup(FetchedSnapshot(snapshot, token, a.remote).value, token);
            var wsolAccount := AssociatedTokenAddress(payer, WrappedSolMint);
            var ixs := sub.instructions;
            && keys.Keys? && a.tokenProgram.Answer? && a.tokenProgram.value.Some? && a.blockhash.Answer?
            && a.swapProgram.Answer? && SellTokenAccount(a.tokenAccounts).Some?
            && sub.feePayer == None && sub.recentBlockhash == Some(a.blockhash.value) && sub.signers == [payer]
            && |ixs| == 5
            && ixs[0] == CreateAssociatedTokenAccount(payer, payer, WrappedSolMint)
            && ixs[1].Invoke? && ixs[1].programId == AmmProgramId
            && Layouts.ParseSwap(ixs[1].data) == Ok(Layouts.Swap(9, ScaledAmount(amount, keys.keys.baseDecimals), 0))
            && ixs[1].accounts ==
                 SwapAccounts(a.swapProgram.value, keys.keys, SellTokenAccount(a.tokenAccounts).value, wsolAccount, payer)
            && ixs[2] == SetComputeUnitPrice(SwapPrice) && ixs[3] == SetComputeUnitLimit(SwapLimit)
            && ixs[4] == CloseAccount(wsolAccount, payer, payer, a.tokenProgram.value.value)
  {
    var snap := FetchedSnapshot(snapshot, token, a.remote);
    var keys := Lookup(snap.value, token);
    var t := SellTry(snapshot, token, true, payer, amount, a);
    assert t.submission.Some?;
    assert keys.Keys?;
    assert t == SellWithKeys(snap, token, keys.keys, payer, amount, a);
    var amountIn := ScaledAmount(amount, keys.keys.baseDecimals);
    assert a.tokenProgram.Answer? && a.tokenProgram.value.Some? && a.holdings.Answer?;
    var tp := a.tokenProgram.value.value;
    assert t == SellSwap(snap, keys.keys, payer, amountIn, tp, a);
    SellSwapSubmission(snap, keys.keys, payer, amountIn, tp, a);
  }

  /** The transaction of sell's try block past the balance check. */
  lemma SellSwapSubmission(snap: Option<seq<PoolRecord>>, keys: PoolKeys, payer: Address, amountIn: int,
                           tokenProgram: Address, a: SellAttempt)
    requires SellSwap(snap, keys, payer, amountIn, tokenProgram, a).submission.Some?
    ensures var sub := SellSwap(snap, keys, payer, amountIn, tokenProgram, a).submission.value;
            var wsolAccount := AssociatedTokenAddress(payer, WrappedSolMint);
            var ixs := sub.instructions;
            && a.blockhash.Answer? && a.swapProgram.Answer? && SellTokenAccount(a.tokenAccounts).Some?
            && sub.feePayer == None && sub.recentBlockhash == Some(a.blockhash.value) && sub.signers == [payer]
            && |ixs| == 5
            && ixs[0] == CreateAssociatedTokenAccount(payer, payer, WrappedSolMint)
            && ixs[1].Invoke? && ixs[1].programId == AmmProgramId
            && Layouts.ParseSwap(ixs[1].data) == Ok(Layouts.Swap(9, amountIn, 0))
            && ixs[1].accounts ==
                 SwapAccounts(a.swapProgram.value, keys, SellTokenAccount(a.tokenAccounts).value, wsolAccount, payer)
            && ixs[2] == SetComputeUnitPrice(SwapPrice) && ixs[3] == SetComputeUnitLimit(SwapLimit)
            && ixs[4] == CloseAccount(wsolAccount, payer, payer, tokenProgram)
  {
    var t := SellSwap(snap, keys, payer, amountIn, tokenProgram, a);
    var swapAccount := SellTokenAccount(a.tokenAccounts);
    var (wsolAccount, wsolIx) := GetTokenAccount(payer, WrappedSolMint, WsolLookupInSell);
    assert wsolIx == Some(CreateAssociatedTokenAccount(payer, payer, WrappedSolMint));
    assert wsolAccount == AssociatedTokenAddress(payer, WrappedSolMint);
    assert a.swapProgram.Answer? && swapAccount.Some?;
    var swapIx := MakeSwapInstruction(amountIn, swapAccount.value, wsolAccount, keys, a.swapProgram.value, payer);
    assert swapIx.Ok?;
    assert t == SellSend(snap, payer, amountIn, tokenProgram, swapIx.value, wsolAccount, wsolIx, a);
    assert a.blockhash.Answer?;
    var ixs := SellInstructions(wsolIx, swapIx.value, wsolAccount, tokenProgram, payer);
    assert t.submission.value == Submission(None, Some(a.blockhash.value), ixs, [payer]);
    assert ixs[..1] == [wsolIx.value];
  }

  /** A pool lookup that answers "failed" sends and logs nothing. buy and sell raise
      UnboundLocalError from their generic handler, unless the owner lookup of the mint, which runs
      first, raised an RPC error or a timeout: then they return False. */
  lemma FailedLookupEscapes(snapshot: Option<seq<PoolRecord>>, token: string, payer: Address, amount: real,
                            b: BuyAttempt, s: SellAttempt)
    requires Lookup(FetchedSnapshot(snapshot, token, b.remote).value, token).Failed?
    requires Lookup(FetchedSnapshot(snapshot, token, s.remote).value, token).Failed?
    ensures BuyOnce(snapshot, token, true, payer, amount, b) ==
              Effect(if b.tokenProgram.Raises? && b.tokenProgram.fault != OtherError then ReturnsFalse
                     else RaisesUnboundLocal,
                     [], None, FetchedSnapshot(snapshot, token, b.remote))
    ensures SellOnce(snapshot, token, true, payer, amount, s) ==
              Effect(if s.tokenProgram.Raises? && s.tokenProgram.fault != OtherError then ReturnsFalse
                     else RaisesUnboundLocal,
                     [], None, FetchedSnapshot(snapshot, token, s.remote))
  {
  }

  // ---------------------------------------------------------------------------------------------
  // create_spl_token: a new mint, its supply in the payer's account, and its Metaplex metadata

  const TokenMetadataProgram := Key("metaqbxxUerdq28cj1RbAWkYQm3ybzjb6a8bt518x1s")
  const SysvarRent := Key("SysvarRent111111111111111111111111111111111")
  /** The seed b"metadata". */
  const MetadataSeed: seq<Byte> := [109, 101, 116, 97, 100, 97, 116, 97]
  const NewTokenDecimals: nat := 9
  const NewTokenSupply: nat := 10000000000
  const NewTokenSellerFee: nat := 500

  /** The metadata account of a mint: the program address of ("metadata", program, mint). */
  function MetadataAccount(mint: Address): (pda: Address)
    ensures pda.ProgramAddress? && pda.program == TokenMetadataProgram && |pda.seeds| == 3
    ensures pda.seeds[0] == Literal(MetadataSeed) && pda.seeds[1] == KeyBytes(TokenMetadataProgram)
    ensures pda.seeds[2] == KeyBytes(mint)
  {
    ProgramAddress([Literal(MetadataSeed), KeyBytes(TokenMetadataProgram), KeyBytes(mint)], TokenMetadataProgram)
  }

  /** The metadata record create_spl_token builds: discriminator 33 (CreateMetadataAccountV3), a 5%
      seller fee, the payer as the one verified creator with the whole share, no collection, no uses,
      mutable, no collection details. */
  function MetadataRecord(name: seq<Byte>, symbol: seq<Byte>, uri: seq<Byte>, payerBytes: seq<Byte>)
    : (m: Metadata.MetadataInstruction)
    ensures m.instructionDiscriminator == 33 && m.createMetadataAccountArgsV3.isMutable
    ensures var d := m.createMetadataAccountArgsV3.data;
            && d.name == name && d.symbol == symbol && d.uri == uri
            && d.sellerFeeBasisPoints == 500
            && d.collection.None? && d.uses.None? && m.createMetadataAccountArgsV3.collectionDetails.None?
            && d.creators.Some? && |d.creators.value| == 1
            && d.creators.value[0].address == payerBytes && d.creators.value[0].verified
            && d.creators.value[0].share == 100
  {
    Metadata.MetadataInstruction(33, Metadata.CreateMetadataAccountArgsV3(
      Metadata.Data(name, symbol, uri, NewTokenSellerFee, Some([Metadata.Creator(payerBytes, true, 100)]), None, None),
      true, None))
  }

  /** The record encodes exactly when the three strings fit a u32 length prefix and the payer's key
      is 32 bytes long. */
  lemma MetadataRecordEncodes(name: seq<Byte>, symbol: seq<Byte>, uri: seq<Byte>, payerBytes: seq<Byte>)
    ensures Metadata.EncodeMetadataInstruction(MetadataRecord(name, symbol, uri, payerBytes)).Ok? <==>
              |name| < Metadata.U32Bound && |symbol| < Metadata.U32Bound && |uri| < Metadata.U32Bound &&
              |payerBytes| == 32
  {
    Metadata.Pow256Small();
    var m := MetadataRecord(name, symbol, uri, payerBytes);
    var d := m.createMetadataAccountArgsV3.data;
    var creator := Metadata.Creator(payerBytes, true, 100);
    assert Metadata.EncodeCreatorList([creator]).Ok? <==> Metadata.EncodeCreator(creator).Ok?;
    assert Metadata.EncodeCreators([creator]).Ok? <==> Metadata.EncodeCreatorList([creator]).Ok?;
    assert Metadata.EncodeDataTail(d).Ok? <==> Metadata.EncodeCreators([creator]).Ok?;
    assert Metadata.EncodeData(d).Ok? <==> Metadata.EncodeDataHead(d).Ok? && Metadata.EncodeDataTail(d).Ok?;
  }

  /** The seven accounts of the metadata instruction: the metadata account, the mint, the payer as
      mint authority, fee payer and update authority, the system program and the rent sysvar. */
  function MetadataAccounts(mint: Address, payer: Address): (metas: seq<AccountMeta>)
    ensures |metas| == 7
    ensures metas[0].pubkey == MetadataAccount(mint) && metas[1].pubkey == mint
    ensures metas[2].pubkey == payer && metas[3].pubkey == payer && metas[4].pubkey == payer
    ensures metas[5].pubkey == SystemProgramId && metas[6].pubkey == SysvarRent
    ensures forall i :: 0 <= i < 7 ==> (metas[i].isSigner <==> i in {2, 3})
    ensures forall i :: 0 <= i < 7 ==> (metas[i].isWritable <==> i in {0, 3})
  {
    [ AccountMeta(MetadataAccount(mint), false, true),
      AccountMeta(mint, false, false),
      AccountMeta(payer, true, false),
      AccountMeta(payer, true, true),
      AccountMeta(payer, false, false),
      AccountMeta(SystemProgramId, false, false),
      AccountMeta(SysvarRent, false, false) ]
  }

  /** The five instructions of the token creation transaction, or the error of METADAT_STRUCTURE.build
      when the record does not encode. */
  function SplTokenInstructions(name: seq<Byte>, symbol: seq<Byte>, uri: seq<Byte>, payer: Address,
                                payerBytes: seq<Byte>, newToken: Address, lamports: nat)
    : (r: Result<seq<Instr>, Metadata.Error>)
    ensures r.Ok? <==> Metadata.EncodeMetadataInstruction(MetadataRecord(name, symbol, uri, payerBytes)).Ok?
    ensures r.Ok? ==> |r.value| == 5 && r.value[4].Invoke? && r.value[4].programId == TokenMetadataProgram &&
                      r.value[4].accounts == MetadataAccounts(newToken, payer) &&
                      Metadata.DecodeMetadataInstruction(r.value[4].data) == Ok(MetadataRecord(name, symbol, uri, payerBytes))
  {
    var m := MetadataRecord(name, symbol, uri, payerBytes);
    var data := Metadata.EncodeMetadataInstruction(m);
    if data.Err? then Err(data.error)
    else
      Metadata.MetadataRoundTrip(m);
      Ok(SplTokenIxs(payer, newToken, lamports, data.value))
  }

  /** The five instructions, given the encoded metadata record. */
  function SplTokenIxs(payer: Address, newToken: Address, lamports: nat, metaData: seq<Byte>): (ixs: seq<Instr>)
  {
    [ CreateAccount(payer, newToken, lamports, MintLen, TokenProgramId),
      InitializeMint(newToken, NewTokenDecimals, payer, payer, TokenProgramId),
      CreateAssociatedTokenAccount(payer, payer, newToken),
      MintTo(NewTokenSupply, AssociatedTokenAddress(payer, newToken), newToken, payer, TokenProgramId),
      Invoke(TokenMetadataProgram, metaData, MetadataAccounts(newToken, payer)) ]
  }

  /** The token creation transaction is consistent: the new account is created with the size of a
      mint and owned by the token program, it becomes a mint with 9 decimals whose authorities are the
      payer, the whole supply is minted into the associated account the third instruction creates, the
      metadata account belongs to that mint, and every account the instructions need to sign for is
      among the signers, the payer and the new token. */
  lemma SplTokenConsistent(name: seq<Byte>, symbol: seq<Byte>, uri: seq<Byte>, payer: Address,
                           payerBytes: seq<Byte>, newToken: Address, lamports: nat)
    requires SplTokenInstructions(name, symbol, uri, payer, payerBytes, newToken, lamports).Ok?
    ensures var ixs := SplTokenInstructions(name, symbol, uri, payer, payerBytes, newToken, lamports).value;
            && ixs[0].CreateAccount? && ixs[1].InitializeMint? && ixs[2].CreateAssociatedTokenAccount? && ixs[3].MintTo?
            && ixs[0].from == payer && ixs[0].space == MintLen && ixs[0].owner == TokenProgramId && ixs[0].lamports == lamports
            && ixs[1].mint == ixs[0].to && ixs[1].decimals == NewTokenDecimals
            && ixs[1].mintAuthority == payer && ixs[1].freezeAuthority == payer
            && ixs[2].mint == ixs[0].to && ixs[2].owner == payer && ixs[2].payer == payer
            && ixs[3].mint == ixs[0].to && ixs[3].mintAuthority == payer && ixs[3].amount == NewTokenSupply
            && ixs[3].dest == AssociatedTokenAddress(ixs[2].owner, ixs[2].mint)
            && ixs[4].accounts[0].pubkey == MetadataAccount(ixs[0].to)
            && forall i :: 0 <= i < |ixs[4].accounts| && ixs[4].accounts[i].isSigner ==>
                 ixs[4].accounts[i].pubkey in [payer, newToken]
  {
    var ixs := SplTokenInstructions(name, symbol, uri, payer, payerBytes, newToken, lamports).value;
    var metas := MetadataAccounts(newToken, payer);
    assert ixs[4].accounts == metas;
    forall i | 0 <= i < |metas| && metas[i].isSigner
      ensures metas[i].pubkey in [payer, newToken]
    {
      assert i in {2, 3};
    }
  }

  /** What create_spl_token hands to send_transaction: nothing when the rent query raises or the
      metadata record does not encode; otherwise a transaction with no fee payer set, signed by the
      payer and the new token's keypair. */
  function SplTokenSubmission(name: seq<Byte>, symbol: seq<Byte>, uri: seq<Byte>, payer: Address,
                              payerBytes: seq<Byte>, newToken: Address, rent: Answer<nat>)
    : (sub: Option<Submission>)
    ensures sub.Some? <==> rent.Answer? &&
                           SplTokenInstructions(name, symbol, uri, payer, payerBytes, newToken, rent.value).Ok?
    ensures sub.Some? ==> sub.value.feePayer == None && sub.value.recentBlockhash == None &&
                          sub.value.signers == [payer, newToken] &&
                          sub.value.instructions == SplTokenInstructions(name, symbol, uri, payer, payerBytes, newToken, rent.value).value
  {
    if rent.Raises? then None
    else
      var ixs := SplTokenInstructions(name, symbol, uri, payer, payerBytes, newToken, rent.value);
      if ixs.Err? then None else Some(Submission(None, None, ixs.value, [payer, newToken]))
  }

  // ---------------------------------------------------------------------------------------------
  // The trading state: the CSV log, the transactions sent and the pool snapshot

  class Trader {
    /** The rows appended to transaction.csv. */
    var log: seq<LogRow>
    /** The transactions handed to send_transaction, in order. */
    var submitted: seq<Submission>
    /** The pool snapshot file fetch_pool_keys reads and rewrites. */
    const registry: PoolRegistry

    constructor (registry: PoolRegistry)
      ensures log == [] && submitted == [] && this.registry == registry
    {
      log := [];
      submitted := [];
      this.registry := registry;
    }

    /** update_log('transaction', row): appends one row to the CSV file. */
    method UpdateLog(row: LogRow)
      modifies this
      ensures log == old(log) + [row] && submitted == old(submitted)
    {
      log := log + [row];
    }

    /** send_transaction: records the transaction as submitted; the signature or the exception is
        the network's answer. */
    method SendTransaction(txn: Transaction, signers: seq<Address>, answer: Answer<string>) returns (sig: Answer<string>)
      modifies this
      ensures submitted == old(submitted) + [Submission(txn.feePayer, txn.recentBlockhash, txn.instructions, signers)]
      ensures log == old(log) && sig == answer
    {
      submitted := submitted + [Submission(txn.feePayer, txn.recentBlockhash, txn.instructions, signers)];
      sig := answer;
    }

    /** The end of the try block: send the transaction, await the confirmation, log the row. */
    method SendAndConfirm(txn: Transaction, signers: seq<Address>, amountIn: int, kind: string, onEmpty: TryOutcome,
                          send: Answer<string>, confirm: Option<Fault>) returns (outcome: TryOutcome)
      modifies this
      ensures var t := Confirm(registry.snapshot, amountIn,
                               Submission(txn.feePayer, txn.recentBlockhash, txn.instructions, signers),
                               kind, onEmpty, send, confirm);
              && outcome == t.outcome && log == old(log) + OptionSeq(t.row)
              && submitted == old(submitted) + OptionSeq(t.submission)
    {
      var sig := SendTransaction(txn, signers, send);
      if sig.Raises? {
        return Raised(sig.fault, Some(amountIn));
      }
      if sig.value == "" {
        return onEmpty;
      }
      if confirm.Some? {
        return Raised(confirm.value, Some(amountIn));
      }
      UpdateLog(LogRow(SpaceSeparated, kind, sig.value, amountIn, "complete"));
      return Returned(true);
    }

    /** The transaction buy assembles, paid for by the wrapped-SOL setup's fee payer. */
    static method BuyTransaction(w: WsolSetup, createIx: Option<Instr>, swapIx: Instr, tokenProgram: Address,
                                 payer: Address) returns (swapTx: Transaction)
      ensures fresh(swapTx)
      ensures swapTx.feePayer == w.feePayer && swapTx.recentBlockhash == None
      ensures swapTx.instructions == BuyInstructions(w, createIx, swapIx, tokenProgram, payer)
    {
      swapTx := new Transaction(w.feePayer);
      swapTx.Add(w.instructions);
      if createIx.Some? {
        swapTx.Add([createIx.value]);
      }
      assert swapTx.instructions == w.instructions + OptionSeq(createIx);
      swapTx.Add([swapIx, SetComputeUnitPrice(SwapPrice), SetComputeUnitLimit(SwapLimit),
                  CloseAccount(w.account, payer, payer, tokenProgram)]);
    }

    /** buy's try block from the swap instruction on. */
    method BuySwapStep(keys: PoolKeys, payer: Address, amountIn: int, tokenProgram: Address, swapAccount: Address,
                       createIx: Option<Instr>, w: WsolSetup, swapProgram: Address, a: BuyAttempt)
      returns (outcome: TryOutcome)
      modifies this
      ensures var t := BuySwap(registry.snapshot, keys, payer, amountIn, tokenProgram, swapAccount, createIx, w, swapProgram, a);
              && outcome == t.outcome && log == old(log) + OptionSeq(t.row)
              && submitted == old(submitted) + OptionSeq(t.submission)
    {
      var swapIx := MakeSwapInstruction(amountIn, w.account, swapAccount, keys, swapProgram, payer);
      if swapIx.Err? {
        return Raised(OtherError, Some(amountIn));
      }
      var swapTx := BuyTransaction(w, createIx, swapIx.value, tokenProgram, payer);
      outcome := SendAndConfirm(swapTx, [payer, w.keypair], amountIn, BuyKind, Returned(true), a.send, a.confirm);
    }

    /** buy's try block once the pool keys are known. */
    method BuyWithKeysStep(token: string, keys: PoolKeys, payer: Address, amount: real, a: BuyAttempt)
      returns (outcome: TryOutcome)
      modifies this
      ensures var t := BuyWithKeys(registry.snapshot, token, keys, payer, amount, a);
              && outcome == t.outcome && log == old(log) + OptionSeq(t.row)
              && submitted == old(submitted) + OptionSeq(t.submission)
    {
      var accountInfo := a.tokenProgram;
      if accountInfo.Raises? {
        return Raised(accountInfo.fault, None);
      }
      var amountIn := ScaledAmount(amount, keys.quoteDecimals);
      if accountInfo.value.None? {
        return Raised(OtherError, Some(amountIn));
      }
      if a.rentExempt.Raises? {
        return Raised(a.rentExempt.fault, Some(amountIn));
      }
      var (swapAccount, createIx) := GetTokenAccount(payer, Key(token), a.tokenAccounts);
      if a.wsol.Raises? {
        return Raised(a.wsol.fault, Some(amountIn));
      }
      if a.swapProgram.Raises? {
        return Raised(a.swapProgram.fault, Some(amountIn));
      }
      outcome := BuySwapStep(keys, payer, amountIn, accountInfo.value.value, swapAccount, createIx, a.wsol.value,
                             a.swapProgram.value, a);
    }

    /** The try block of buy. */
    method TryBuy(token: string, mintParses: bool, payer: Address, amount: real, a: BuyAttempt) returns (outcome: TryOutcome)
      modifies this, registry
      ensures var t := BuyTry(old(registry.snapshot), token, mintParses, payer, amount, a);
              && outcome == t.outcome && log == old(log) + OptionSeq(t.row)
              && submitted == old(submitted) + OptionSeq(t.submission) && registry.snapshot == t.snapshot
    {
      if !mintParses {
        return Raised(OtherError, None);
      }
      var poolKeys := registry.FetchPoolKeys(token, a.remote);
      if a.tokenProgram.Raises? {
        return Raised(a.tokenProgram.fault, None);
      }
      if poolKeys.Failed? {
        return Raised(OtherError, None);
      }
      outcome := BuyWithKeysStep(token, poolKeys.keys, payer, amount, a);
    }

    /** buy: the retry loop around the try block. Every path through the loop body returns, so the
        first attempt decides the call and at most one transaction is sent; when MAX_RETRIES is not
        positive the loop is skipped and the call returns None. */
    method Buy(token: string, mintParses: bool, payer: Address, amount: real, maxRetries: int,
               attempts: nat -> BuyAttempt) returns (reply: Reply)
      modifies this, registry
      ensures maxRetries <= 0 ==>
                reply == ReturnsNone && log == old(log) && submitted == old(submitted) &&
                registry.snapshot == old(registry.snapshot)
      ensures maxRetries > 0 ==>
                var e := BuyOnce(old(registry.snapshot), token, mintParses, payer, amount, attempts(0));
                && reply == e.reply && log == old(log) + e.rows
                && submitted == old(submitted) + OptionSeq(e.submission) && registry.snapshot == e.snapshot
      ensures |submitted| <= |old(submitted)| + 1
    {
      // A `return` inside the loop body sets `reply`, and the loop guard then ends the loop.
      reply := ReturnsNone;
      var retryCount := 0;
      while retryCount < maxRetries && reply == ReturnsNone
        invariant reply == ReturnsNone ==>
                    retryCount == 0 && log == old(log) && submitted == old(submitted) &&
                    registry.snapshot == old(registry.snapshot)
        invariant reply != ReturnsNone ==>
                    maxRetries > 0 &&
                    var e := BuyOnce(old(registry.snapshot), token, mintParses, payer, amount, attempts(0));
                    && reply == e.reply && log == old(log) + e.rows
                    && submitted == old(submitted) + OptionSeq(e.submission) && registry.snapshot == e.snapshot
        decreases if reply == ReturnsNone then 1 else 0
      {
        var outcome := TryBuy(token, mintParses, payer, amount, attempts(retryCount));
        match outcome {
          case Returned(b) =>
            reply := if b then ReturnsTrue else ReturnsFalse;
          case FellThrough =>
            reply := ReturnsFalse;
          case Raised(fault, amountIn) =>
            if fault != OtherError {
              // the retry delay is not modelled
              retryCount := retryCount + 1;
              reply := ReturnsFalse;
            } else if amountIn.None? {
              reply := RaisesUnboundLocal;
            } else {
              UpdateLog(LogRow(IsoMicros, BuyKind, "-", amountIn.value, "failed"));
              reply := ReturnsFalse;
            }
        }
      }
    }

    /** sell's try block from the transaction on. */
    method SellSendStep(payer: Address, amountIn: int, tokenProgram: Address, swapIx: Instr, wsolAccount: Address,
                        wsolIx: Option<Instr>, a: SellAttempt) returns (outcome: TryOutcome)
      modifies this
      ensures var t := SellSend(registry.snapshot, payer, amountIn, tokenProgram, swapIx, wsolAccount, wsolIx, a);
              && outcome == t.outcome && log == old(log) + OptionSeq(t.row)
              && submitted == old(submitted) + OptionSeq(t.submission)
    {
      var closeAcc := CloseAccount(wsolAccount, payer, payer, tokenProgram);
      var swapTx := new Transaction(None);
      if wsolIx.Some? {
        if a.blockhash.Raises? {
          return Raised(a.blockhash.fault, Some(amountIn));
        }
        swapTx.SetRecentBlockhash(a.blockhash.value);
        swapTx.Add([wsolIx.value]);
      }
      swapTx.Add([swapIx, SetComputeUnitPrice(SwapPrice), SetComputeUnitLimit(SwapLimit)]);
      swapTx.Add([closeAcc]);
      assert swapTx.instructions == SellInstructions(wsolIx, swapIx, wsolAccount, tokenProgram, payer);
      outcome := SendAndConfirm(swapTx, [payer], amountIn, SellKind, FellThrough, a.send, a.confirm);
    }

    /** sell's try block once the balance check has passed. */
    method SellSwapStep(keys: PoolKeys, payer: Address, amountIn: int, tokenProgram: Address, a: SellAttempt)
      returns (outcome: TryOutcome)
      modifies this
      ensures var t := SellSwap(registry.snapshot, keys, payer, amountIn, tokenProgram, a);
              && outcome == t.outcome && log == old(log) + OptionSeq(t.row)
              && submitted == old(submitted) + OptionSeq(t.submission)
    {
      var swapAccount := SellTokenAccount(a.tokenAccounts);
      var (wsolAccount, wsolIx) := GetTokenAccount(payer, WrappedSolMint, WsolLookupInSell);
      if a.swapProgram.Raises? {
        return Raised(a.swapProgram.fault, Some(amountIn));
      }
      if swapAccount.None? {
        return Raised(OtherError, Some(amountIn));
      }
      var swapIx := MakeSwapInstruction(amountIn, swapAccount.value, wsolAccount, keys, a.swapProgram.value, payer);
      if swapIx.Err? {
        return Raised(OtherError, Some(amountIn));
      }
      outcome := SellSendStep(payer, amountIn, tokenProgram, swapIx.value, wsolAccount, wsolIx, a);
    }

    /** sell's try block once the pool keys are known. */
    method SellWithKeysStep(token: string, keys: PoolKeys, payer: Address, amount: real, a: SellAttempt)
      returns (outcome: TryOutcome)
      modifies this
      ensures var t := SellWithKeys(registry.snapshot, token, keys, payer, amount, a);
              && outcome == t.outcome && log == old(log) + OptionSeq(t.row)
              && submitted == old(submitted) + OptionSeq(t.submission)
    {
      var accountInfo := a.tokenProgram;
      if accountInfo.Raises? {
        return Raised(accountInfo.fault, None);
      }
      var amountIn := ScaledAmount(amount, keys.baseDecimals);
      if accountInfo.value.None? {
        return Raised(OtherError, Some(amountIn));
      }
      if a.holdings.Raises? {
        return Raised(a.holdings.fault, Some(amountIn));
      }
      var balance := ScanBalance(a.holdings.value, token);
      if balance < amountIn {
        return Returned(false);
      }
      outcome := SellSwapStep(keys, payer, amountIn, accountInfo.value.value, a);
    }

    /** The try block of sell. */
    method TrySell(token: string, mintParses: bool, payer: Address, amount: real, a: SellAttempt) returns (outcome: TryOutcome)
      modifies this, registry
      ensures var t := SellTry(old(registry.snapshot), token, mintParses, payer, amount, a);
              && outcome == t.outcome && log == old(log) + OptionSeq(t.row)
              && submitted == old(submitted) + OptionSeq(t.submission) && registry.snapshot == t.snapshot
    {
      if !mintParses {
        return Raised(OtherError, None);
      }
      var poolKeys := registry.FetchPoolKeys(token, a.remote);
      if a.tokenProgram.Raises? {
        return Raised(a.tokenProgram.fault, None);
      }
      if poolKeys.Failed? {
        return Raised(OtherError, None);
      }
      outcome := SellWithKeysStep(token, poolKeys.keys, payer, amount, a);
    }

    /** sell: the retry loop around the try block; as in buy, the first attempt decides the call. */
    method Sell(token: string, mintParses: bool, payer: Address, amount: real, maxRetries: int,
                attempts: nat -> SellAttempt) returns (reply: Reply)
      modifies this, registry
      ensures maxRetries <= 0 ==>
                reply == ReturnsNone && log == old(log) && submitted == old(submitted) &&
                registry.snapshot == old(registry.snapshot)
      ensures maxRetries > 0 ==>
                var e := SellOnce(old(registry.snapshot), token, mintParses, payer, amount, attempts(0));
                && reply == e.reply && log == old(log) + e.rows
                && submitted == old(submitted) + OptionSeq(e.submission) && registry.snapshot == e.snapshot
      ensures |submitted| <= |old(submitted)| + 1
    {
      // A `return` inside the loop body sets `reply`, and the loop guard then ends the loop.
      reply := ReturnsNone;
      var retryCount := 0;
      while retryCount < maxRetries && reply == ReturnsNone
        invariant reply == ReturnsNone ==>
                    retryCount == 0 && log == old(log) && submitted == old(submitted) &&
                    registry.snapshot == old(registry.snapshot)
        invariant reply != ReturnsNone ==>
                    maxRetries > 0 &&
                    var e := SellOnce(old(registry.snapshot), token, mintParses, payer, amount, attempts(0));
                    && reply == e.reply && log == old(log) + e.rows
                    && submitted == old(submitted) + OptionSeq(e.submission) && registry.snapshot == e.snapshot
        decreases if reply == ReturnsNone then 1 else 0
      {
        var outcome := TrySell(token, mintParses, payer, amount, attempts(retryCount));
        match outcome {
          case Returned(b) =>
            reply := if b then ReturnsTrue else ReturnsFalse;
          case FellThrough =>
            reply := ReturnsFalse;
          case Raised(fault, amountIn) =>
            if fault != OtherError {
              // the retry delay is not modelled
              retryCount := retryCount + 1;
              reply := ReturnsFalse;
            } else if amountIn.None? {
              reply := RaisesUnboundLocal;
            } else {
              UpdateLog(LogRow(SpaceSeparated, SellKind, "-", amountIn.value, "failed"));
              reply := ReturnsFalse;
            }
        }
      }
    }

    /** create_spl_token: every exception is caught and printed, so the call always returns None;
        a send that raises has still handed the transaction over. */
    method CreateSplToken(name: seq<Byte>, symbol: seq<Byte>, uri: seq<Byte>, payer: Address, payerBytes: seq<Byte>,
                          newToken: Address, rent: Answer<nat>, send: Answer<string>)
      modifies this
      ensures log == old(log)
      ensures submitted == old(submitted) + OptionSeq(SplTokenSubmission(name, symbol, uri, payer, payerBytes, newToken, rent))
    {
      if rent.Raises? {
        return;
      }
      var lamports := rent.value;
      var tx := new Transaction(None);
      var createIx := CreateAccount(payer, newToken, lamports, MintLen, TokenProgramId);
      tx.Add([createIx]);
      var mintIx := InitializeMint(newToken, NewTokenDecimals, payer, payer, TokenProgramId);
      tx.Add([mintIx]);
      var associateIx := CreateAssociatedTokenAccount(payer, payer, newToken);
      tx.Add([associateIx]);
      var associateMintIx := MintTo(NewTokenSupply, AssociatedTokenAddress(payer, newToken), newToken, payer, TokenProgramId);
      tx.Add([associateMintIx]);
      assert tx.instructions == [createIx, mintIx, associateIx, associateMintIx];
      var metaData := Metadata.EncodeMetadataInstruction(MetadataRecord(name, symbol, uri, payerBytes));
      if metaData.Err? {
        return;
      }
      var metaIx := Invoke(TokenMetadataProgram, metaData.value, MetadataAccounts(newToken, payer));
      tx.Add([metaIx]);
      assert tx.instructions == SplTokenIxs(payer, newToken, lamports, metaData.value);
      var txId := SendTransaction(tx, [payer, newToken], send);
    }
  }
}
