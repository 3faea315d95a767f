/** The parts of the Solana client libraries the bot builds on: addresses, account metas,
    instructions and the transaction object that instructions are appended to. */
module Ledger {
  import opened Wrappers
  import opened Bytes

  /** An account address. A key read from text is Key(text); an address the libraries derive by
      hashing is kept as the term that derives it, so two derived addresses are equal exactly when
      they are derived from equal inputs. */
  datatype Address =
    | Key(text: string)
    | WithSeed(base: Address, seed: string, program: Address)   // Pubkey.create_with_seed
    | AssociatedTokenAddress(wallet: Address, mint: Address)     // get_associated_token_address
    | ProgramAddress(seeds: seq<Seed>, program: Address)        // Pubkey.find_program_address(...)[0]

  datatype Seed = Literal(bytes: seq<Byte>) | KeyBytes(key: Address)

  datatype AccountMeta = AccountMeta(pubkey: Address, isSigner: bool, isWritable: bool)

  /** An instruction. The ones the libraries build are named by their builder and its arguments;
      the ones the bot assembles itself are Invoke(program, data, accounts). */
  datatype Instr =
    | SetComputeUnitPrice(microLamports: nat)
    | SetComputeUnitLimit(units: nat)
    | CreateAccount(from: Address, to: Address, lamports: nat, space: nat, owner: Address)
    | CreateAccountWithSeed(from: Address, to: Address, base: Address, seed: string,
                            lamports: nat, space: nat, owner: Address)
    | InitializeAccount(account: Address, mint: Address, owner: Address, programId: Address)
    | InitializeMint(mint: Address, decimals: nat, mintAuthority: Address, freezeAuthority: Address,
                     programId: Address)
    | CreateAssociatedTokenAccount(payer: Address, owner: Address, mint: Address)
    | MintTo(amount: nat, dest: Address, mint: Address, mintAuthority: Address, programId: Address)
    | CloseAccount(account: Address, dest: Address, owner: Address, programId: Address)
    | Invoke(programId: Address, data: seq<Byte>, accounts: seq<AccountMeta>)

  /** The options a transaction is sent with. */
  datatype TxOpts = TxOpts(skipConfirmation: bool, preflightCommitment: string)

  const SystemProgramId := Key("11111111111111111111111111111111")
  const TokenProgramId := Key("TokenkegQfeZyiNwAJbNbGKPFXCWuBvf9Ss623VQ5DA")
  const WrappedSolMint := Key("So11111111111111111111111111111111111111112")
  /** Size in bytes of a token account (ACCOUNT_LAYOUT.sizeof()) and of a mint (MINT_LEN). */
  const TokenAccountSize: nat := 165
  const MintLen: nat := 82

  /** A transaction being assembled: instructions are appended in place. */
  class Transaction {
    var feePayer: Option<Address>
    var recentBlockhash: Option<string>
    var instructions: seq<Instr>

    constructor (payer: Option<Address>)
      ensures feePayer == payer && recentBlockhash == None && instructions == []
    {
      feePayer := payer;
      recentBlockhash := None;
      instructions := [];
    }

    /** Transaction.add(*ixs): appends the instructions in argument order. */
    method Add(ixs: seq<Instr>)
      modifies this
      ensures instructions == old(instructions) + ixs
      ensures feePayer == old(feePayer) && recentBlockhash == old(recentBlockhash)
    {
      instructions := instructions + ixs;
    }

    method SetRecentBlockhash(hash: string)
      modifies this
      ensures recentBlockhash == Some(hash)
      ensures feePayer == old(feePayer) && instructions == old(instructions)
    {
      recentBlockhash := Some(hash);
    }
  }
}
