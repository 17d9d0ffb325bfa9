# Neon EVM loader: precompile codec, legacy account view and transaction entry points

This project models four sequential pieces of the Neon EVM loader, the Solana program that runs Ethereum transactions, and proves their contracts.

- **Metaplex precompile** (`MetaplexPrecompile`, `metaplex.dfy`).
  - The ABI readers for `uint64`, `bytes32` keys and dynamic `string` arguments, with every bounds check and integer conversion.
  - The writers of `bool` and `string` return values, which fill a zeroed buffer in place.
  - The entry point's guards:
    - a non-zero value is refused;
    - callcode and delegatecall are refused;
    - the two creating methods are refused in static mode;
    - an unknown selector is refused.
  - Selector dispatch, and the trimming of trailing NUL bytes in the `uri`, `name` and `symbol` queries.
  - Round trips: what a writer produces is read back by the reader.
- **Legacy Solidity account view** (`LegacyAccount`, `solidity_account.dfy`).
  - A `SolidityAccount` class over a code buffer shared with the code account.
    - The buffer is an `array` of bytes.
    - Its storage trie is a `map` in which a missing key reads as zero.
  - The checks made when the view is built.
  - The code window `[32, 32 + code_size)`.
  - The storage lookups.
  - The in-place `update`:
    - it writes the lamports and nonce first;
    - it writes the code once, into an account that has none;
    - it gates the storage section;
    - it loops over the storage items.
- **Begin-or-continue from instruction** (`TransactionStep`, `transaction_step.dfy`).
  - Parsing of the 12-byte little-endian header, with its inverse.
  - Loading of the fixed accounts.
  - Migration of deprecated tags.
  - The begin path (HOLDER, STATE_FINALIZED), the continue path (STATE) and the rejection of any other tag.
  - The final in-place credit to the operator.
  - `Process` is an imperative method. It records a ghost trace of the events that happen. That trace is proved equal to a specification of the ordered steps, which stops at the first failure.
- **One-shot execution** (`TransactionExecute`, `transaction_execute.dfy`).
  - `Validate` is a loop with an early exit on the first blocked program-owned account.
  - `Execute` is a fixed sequence with a ghost trace of its effects:
    1. run the Machine once;
    2. allocate;
    3. apply;
    4. pay the treasury;
    5. record the operator's expenses;
    6. check the gas limit;
    7. log the gas;
    8. pay for the gas at the saturated cost;
    9. log the return value.

Shared pieces:
- `base.dfy` holds the byte codecs (big- and little-endian, with their round trips), `Result`/`Outcome` and the loader's error and tag types.
- `steps.dfy` holds the generic "ordered steps with early exit" specification (`Steps`) and a two-counter `Gasometer` class (`Gas`).

The collaborators are given to the model rather than computed by it:
- account loading, tag reading and migration;
- transaction decoding and signature recovery;
- the Machine, account storage, payments and metadata lookup;
- the begin and continue workers.

Each appears as a record of the outcomes it produces, or as a function parameter. The same goes for the layout and trie code the legacy account calls: packing the header, opening the storage trie and each insertion into it. The model covers every branch the source takes on those outcomes.

## Model

| member | source | states |
|---|---|---|
| MetaplexPrecompile.ReadU64 | evm_loader/program/src/executor/precompile_extension/metaplex.rs:28-36 | Fewer than 32 bytes gives `OutOfBounds`. Otherwise it succeeds exactly when the big-endian first word is below 2^64, and then returns that word. A larger word gives the conversion error. |
| MetaplexPrecompile.ReadU64OfEncoded | evm_loader/program/src/executor/precompile_extension/metaplex.rs:28-36 | Any value below 2^64, written as a 32-byte big-endian word, is read back whatever bytes follow. |
| MetaplexPrecompile.ReadPubkey | evm_loader/program/src/executor/precompile_extension/metaplex.rs:38-44 | It fails with `OutOfBounds` exactly when the input is shorter than 32 bytes. Otherwise it returns exactly bytes 0..32. |
| MetaplexPrecompile.ReadPubkeyOfKey | evm_loader/program/src/executor/precompile_extension/metaplex.rs:38-44 | A key placed at the head of the arguments is read back, whatever follows it. |
| MetaplexPrecompile.ReadString | evm_loader/program/src/executor/precompile_extension/metaplex.rs:46-69 | It fails with `OutOfBounds` when the head word is missing, when `offset+32` passes the end, when the length exceeds `max_length`, or when `offset+32+length` passes the end. A word too wide for `usize` gives the conversion error. On success it returns exactly `input[offset+32 .. offset+32+length]`, which is no longer than `max_length` and is valid UTF-8. In bounds, the only failure left is invalid UTF-8. |
| MetaplexPrecompile.ReadStringAtHead | evm_loader/program/src/executor/precompile_extension/metaplex.rs:47-69 | An input whose head word is 32, whose length word holds `\|s\|` and which carries `s` after that word reads back as `s`, whenever `\|s\| <= max_length` and `s` is valid UTF-8. |
| MetaplexPrecompile.ReadStringOfEncoded | evm_loader/program/src/executor/precompile_extension/metaplex.rs:47-69 | Round trip: reading the `to_solidity_string` encoding of valid text `s` at head position 0 returns `s`, whenever `\|s\| <= max_length`. |
| MetaplexPrecompile.EncodedBool | evm_loader/program/src/executor/precompile_extension/metaplex.rs:316-320 | 32 bytes, all zero except byte 31, which is 1 exactly when `v`. Read as a word, it is 1 or 0. |
| MetaplexPrecompile.ToSolidityBool | evm_loader/program/src/executor/precompile_extension/metaplex.rs:316-320 | Filling a zeroed 32-byte buffer and setting byte 31 yields exactly the `bool` encoding. |
| MetaplexPrecompile.PaddedLengthIsRoundedUp | evm_loader/program/src/executor/precompile_extension/metaplex.rs:328-332 | The data length reserved for `n` bytes is `n` rounded up to a multiple of 32, and at least 32. |
| MetaplexPrecompile.EncodedStringLayout | evm_loader/program/src/executor/precompile_extension/metaplex.rs:322-344 | Total length is 64 plus the padded length, a multiple of 32 and at least 96. Bytes 0..31 are zero and byte 31 is 0x20. Bytes 32..64 are the big-endian length. The text sits at byte 64 and everything after it is zero. |
| MetaplexPrecompile.EncodedStringWords | evm_loader/program/src/executor/precompile_extension/metaplex.rs:334-339 | The encoding's head word reads as the offset 32, and its length word as the text's length. |
| MetaplexPrecompile.ToSolidityString | evm_loader/program/src/executor/precompile_extension/metaplex.rs:322-344 | Filling a zeroed buffer of `64 + data_len` bytes in place yields exactly the `string` encoding. |
| MetaplexPrecompile.TrimEndNul | evm_loader/program/src/executor/precompile_extension/metaplex.rs:272 | `trim_end_matches('\0')`: the result is a prefix of the input that does not end in NUL, and every dropped byte is NUL. |
| MetaplexPrecompile.TrimEndNulValid | evm_loader/program/src/executor/precompile_extension/metaplex.rs:272 | Trimming trailing NULs from valid UTF-8 leaves valid UTF-8. |
| MetaplexPrecompile.TrimEndNulIdempotent | evm_loader/program/src/executor/precompile_extension/metaplex.rs:272 | Trimming twice trims nothing more. |
| MetaplexPrecompile.DropTrailingNul | evm_loader/program/src/executor/precompile_extension/metaplex.rs:272 | A trailing NUL is a whole character, so dropping it keeps the text valid UTF-8. |
| MetaplexPrecompile.ParseCall | evm_loader/program/src/executor/precompile_extension/metaplex.rs:80-144 | The checks come in order. A non-zero value is refused first. Then a contract other than the precompile's own address is refused. Then the two create selectors give `StaticModeViolation` in static mode before any argument is read. Any unlisted selector gives `UnknownPrecompileMethodSelector`. A query selector succeeds exactly when the key fits. A non-static `createMetadata` reads the key, then the strings at head positions 32, 64 and 96 (max 256, 256 and 1024). It returns the first reader's error, or succeeds with exactly the decoded key, name, symbol and uri. A non-static `createMasterEdition` reads the key, then the `uint64` word at 36. It returns `OutOfBounds` or the reader's error, or succeeds with exactly the key and that word. |
| MetaplexPrecompile.IsInitializedOutput | evm_loader/program/src/executor/precompile_extension/metaplex.rs:241-253 | A failed metadata lookup passes its error through. Otherwise the reply is the `bool` encoding of "metadata found". |
| MetaplexPrecompile.IsNftOutput | evm_loader/program/src/executor/precompile_extension/metaplex.rs:255-263 | A failed lookup passes its error through. Otherwise the reply is the `bool` encoding of "found and its token standard is NonFungible". |
| MetaplexPrecompile.UriOutput | evm_loader/program/src/executor/precompile_extension/metaplex.rs:265-273 | A failed lookup passes its error through. Otherwise the reply is the `string` encoding of the URI without trailing NULs, or of the empty text when there is no metadata. |
| MetaplexPrecompile.TokenNameOutput | evm_loader/program/src/executor/precompile_extension/metaplex.rs:275-283 | The same as `uri`, for the token name. |
| MetaplexPrecompile.SymbolOutput | evm_loader/program/src/executor/precompile_extension/metaplex.rs:285-293 | The same as `uri`, for the symbol. |
| MetaplexPrecompile.Metaplex | evm_loader/program/src/executor/precompile_extension/metaplex.rs:72-145 | A guard or decoding failure is returned as is. The two create calls return the creating handler's result. A query returns the lookup error, or the answer computed from the metadata looked up for the decoded mint. |
| MetaplexPrecompile.UriReplyDecodes | evm_loader/program/src/executor/precompile_extension/metaplex.rs:265-273 | A Solidity caller that decodes the `uri` reply gets the stored URI without its trailing NULs. |
| LegacyAccount.NewCheck | evm_loader/program/src/solidity_account.rs:31-44 | With `code_size == 0` it always passes. Otherwise it passes exactly when a code buffer is present, holds the code window, and `code_account` is not the all-zero key. Every failure is `InvalidAccountData`. |
| LegacyAccount.NewCheckAsWrittenAdmitsShortBuffer | evm_loader/program/src/solidity_account.rs:36 | The length check as written lets through a 1-byte buffer for `code_size == 1`, whose code window needs 33 bytes. |
| LegacyAccount.NewCheckAsWritten | evm_loader/program/src/solidity_account.rs:31-44 | The check as written: it passes exactly when `code_size == 0`, or when a buffer is present, holds at least `code_size` bytes, and `code_account` is not the all-zero key. Every failure is `InvalidAccountData`. |
| LegacyAccount.NewCheckStricter | evm_loader/program/src/solidity_account.rs:31-44 | The corrected check admits only buffers the written check admits, and fails with the same error wherever the written one fails. |
| LegacyAccount.SolidityAccount.New | evm_loader/program/src/solidity_account.rs:27-46 | An unpack error is passed through. Otherwise the view is built exactly when the buffer check passes, and then holds the given header, buffer and lamports. Every refusal is `InvalidAccountData`. |
| LegacyAccount.SolidityAccount.constructor | evm_loader/program/src/solidity_account.rs:45 | The view holds its arguments, and a non-empty code window lies inside the buffer. |
| LegacyAccount.SolidityAccount.GetCode | evm_loader/program/src/solidity_account.rs:156-173 | The code is `buffer[32..32+code_size]` when `code_size > 0` and a buffer exists. Otherwise it is empty. |
| LegacyAccount.SolidityAccount.CodeSize | evm_loader/program/src/solidity_account.rs:82-84 | `code_size()` equals the length of `get_code()`: the stored size when the buffer exists, else zero. |
| LegacyAccount.SolidityAccount.Storage | evm_loader/program/src/solidity_account.rs:175-197 | It gives `UninitializedAccount` when `code_size == 0` or there is no buffer. Otherwise it gives the error of opening the trie after the code, or the buffer's trie when that opens. |
| LegacyAccount.SolidityAccount.GetStorage | evm_loader/program/src/solidity_account.rs:90-94 | It returns the zero word when storage is unavailable (no code, or the trie does not open) or the key is absent. Otherwise it returns the stored value. |
| LegacyAccount.SolidityAccount.GetBasic | evm_loader/program/src/solidity_account.rs:68-73 | The balance is the lamports and the nonce is `trx_count`. |
| LegacyAccount.SolidityAccount.Update | evm_loader/program/src/solidity_account.rs:96-154 | The lamports cell and the nonce are written before any check, so they stay written on every error. A refused code step writes nothing more: header, code size, buffer and trie are as they were. Once the code step passes, a failed pack of the header ends the write with its error and leaves the trie alone. Otherwise the header is written. The storage section runs only on `reset_storage` or at least one item. It then needs `code_size != 0`, else `UninitializedAccount`. The trie starts at `32+code_size`, right after the code. A trie that does not open gives its error and stays unchanged. Otherwise the items are inserted in order over the old trie (or an empty one on reset). A failing insertion returns its error and keeps exactly the items before it. |
| LegacyAccount.SolidityAccount.WriteCode | evm_loader/program/src/solidity_account.rs:118-131 | The step fails with `AccountAlreadyInitialized` when `code_size != 0`, with `NotEnoughAccountKeys` when there is no buffer, and with `AccountDataTooSmall` when the length is not a `u32`. On any failure nothing changes. Otherwise `code_size := \|code\|` and `buffer[32..32+\|code\|] == code`, and no other byte changes. |
| LegacyAccount.SolidityAccount.WriteStorage | evm_loader/program/src/solidity_account.rs:138-150 | `code_size == 0` gives `UninitializedAccount` with the trie unchanged. Otherwise the trie opens at `32+code_size`, inside the buffer, and a failed open gives its error with the trie unchanged. Then the items are inserted in order over the old trie, or an empty one on reset. The first failing insertion returns its error and leaves exactly the earlier items inserted. |
| LegacyAccount.InsertedLastWins | evm_loader/program/src/solidity_account.rs:146-149 | After the insertion loop, a key holds the value of the last item that mentions it. |
| LegacyAccount.InsertedUntouched | evm_loader/program/src/solidity_account.rs:146-149 | The insertion loop leaves every key that no item mentions as it was. |
| TransactionStep.ParseHeader | evm_loader/program/src/instruction/transaction_step_from_instruction.rs:21-24 | The treasury index and the step count are below 2^32. The message is everything after byte 12. |
| TransactionStep.ParseEncodedHeader | evm_loader/program/src/instruction/transaction_step_from_instruction.rs:21-24 | Parsing an instruction built from a treasury index, a step count, any unique index and a message recovers the index, the count and the message. |
| TransactionStep.EncodeParsedHeader | evm_loader/program/src/instruction/transaction_step_from_instruction.rs:21-24 | Every instruction of at least 12 bytes is the encoding of its parsed fields and its skipped bytes 8..12. |
| TransactionStep.ParseIgnoresUniqueIndex | evm_loader/program/src/instruction/transaction_step_from_instruction.rs:23 | Bytes 8..12 do not influence the parsed header. |
| TransactionStep.RouteOf | evm_loader/program/src/instruction/transaction_step_from_instruction.rs:50-80 | The begin path is taken exactly for HOLDER and STATE_FINALIZED, the continue path exactly for STATE, and any other tag is rejected. |
| TransactionStep.LoadAccounts | evm_loader/program/src/instruction/transaction_step_from_instruction.rs:28-31 | It loads the operator, the treasury of the parsed index, the operator's balance account and the system program, in order, stopping at the first failure. |
| TransactionStep.ReadStorageTag | evm_loader/program/src/instruction/transaction_step_from_instruction.rs:45-48 | It reads the tag and migrates it when deprecated. On success it returns the tag the dispatch sees. |
| TransactionStep.Admit | evm_loader/program/src/instruction/transaction_step_from_instruction.rs:52-53 | It decodes the message and then recovers the caller, returning the signer. |
| TransactionStep.Charge | evm_loader/program/src/instruction/transaction_step_from_instruction.rs:58-63 | A fresh gasometer starts at zero and records the transaction and lookup-table costs. The lamports freed by the legacy migration are refunded to it, and the same amount is returned as `excessive_lamports`. |
| TransactionStep.Launch | evm_loader/program/src/instruction/transaction_step_from_instruction.rs:65-67 | It creates the state account, then runs `do_begin` with the gasometer's gas and refund and the origin. |
| TransactionStep.Begin | evm_loader/program/src/instruction/transaction_step_from_instruction.rs:51-68 | The trace and outcome are those of the begin steps. On success the returned excess is the migration's. |
| TransactionStep.Continue | evm_loader/program/src/instruction/transaction_step_from_instruction.rs:69-79 | It restores the state account and seeds a fresh gasometer with the gas it used. It records one transaction cost and runs `do_continue` with the step count. |
| TransactionStep.Process | evm_loader/program/src/instruction/transaction_step_from_instruction.rs:14-86 | The event trace and outcome are exactly those of the ordered step specification. The operator's lamports grow by the credited amount on success and are unchanged on failure. |
| TransactionStep.ProcessPhases | evm_loader/program/src/instruction/transaction_step_from_instruction.rs:14-86 | The phases run in order: accounts, tag, dispatch, credit. The run stops in the first phase that fails, and the credit comes last on success. |
| TransactionStep.LoadPhaseOutcome | evm_loader/program/src/instruction/transaction_step_from_instruction.rs:28-31 | Account loading passes exactly when all four accounts load, and then all four load events happen in order. |
| TransactionStep.TagPhaseOutcome | evm_loader/program/src/instruction/transaction_step_from_instruction.rs:45-48 | The layout is migrated exactly when the tag read is deprecated. The dispatch sees the migrated tag for deprecated tags and the read tag otherwise. |
| TransactionStep.AdmitPhaseOutcome | evm_loader/program/src/instruction/transaction_step_from_instruction.rs:52-53 | Admission passes exactly when decoding and recovery succeed. |
| TransactionStep.StartPhaseOutcome | evm_loader/program/src/instruction/transaction_step_from_instruction.rs:58-67 | Starting a transaction takes these steps in order:<br>1. a gasometer from zero;<br>2. the transaction cost;<br>3. the lookup-table cost;<br>4. the legacy migration;<br>5. the refund of the migration's excess;<br>6. the state account;<br>7. `do_begin` with that gas and refund. |
| TransactionStep.BeginPhaseOutcome | evm_loader/program/src/instruction/transaction_step_from_instruction.rs:51-68 | The begin path is admission, then, only if admission passes, the start of the transaction. |
| TransactionStep.ContinuePhaseOutcome | evm_loader/program/src/instruction/transaction_step_from_instruction.rs:69-79 | The continue path restores the state account and starts a gasometer from its used gas. It records one transaction cost and runs `do_continue` with the step count, the seeded gas and a zero refund. |
| TransactionStep.BeginPathSucceeds | evm_loader/program/src/instruction/transaction_step_from_instruction.rs:51-67 | On a successful begin path the message after byte 12 is decoded, and the gasometer starts at zero. The migration excess is refunded. `do_begin` gets the two costs, the refund and the origin, but no step count. The operator is credited last with exactly the refunded amount. |
| TransactionStep.BeginPathNeverContinues | evm_loader/program/src/instruction/transaction_step_from_instruction.rs:50-68 | The begin path never restores a state account, never runs `do_continue` and never rejects the tag. |
| TransactionStep.ContinuePathSucceeds | evm_loader/program/src/instruction/transaction_step_from_instruction.rs:69-78 | On a successful continue path the gasometer is seeded with the state's used gas. `do_continue` gets the step count from bytes 4..8 and that gas plus one transaction cost. The operator is credited 0, last. |
| TransactionStep.ContinuePathNeverMigrates | evm_loader/program/src/instruction/transaction_step_from_instruction.rs:69-79 | The continue path never migrates legacy accounts, never refunds, never begins and never rejects, so the credited excess stays 0. |
| TransactionStep.InvalidTagRejected | evm_loader/program/src/instruction/transaction_step_from_instruction.rs:80-83 | Any other tag makes the instruction fail. Neither worker runs and the operator is never credited. |
| TransactionStep.InvalidTagReported | evm_loader/program/src/instruction/transaction_step_from_instruction.rs:80 | Once the accounts load and the tag resolves, the error is `AccountInvalidTag(storage key, HOLDER)` and the rejection is the last event. |
| TransactionStep.RejectDispatch | evm_loader/program/src/instruction/transaction_step_from_instruction.rs:80 | The reject route is a single failing step carrying `AccountInvalidTag(storage key, HOLDER)`. |
| TransactionStep.CreditLastOnSuccess | evm_loader/program/src/instruction/transaction_step_from_instruction.rs:83 | On success the operator's credit is the last event. |
| TransactionStep.NoCreditOnFailure | evm_loader/program/src/instruction/transaction_step_from_instruction.rs:81-83 | On failure the operator is never credited. |
| TransactionStep.DispatchNeverCredits | evm_loader/program/src/instruction/transaction_step_from_instruction.rs:50-81 | None of the three routes credits the operator itself. |
| TransactionExecute.Validate | evm_loader/program/src/instruction/transaction_execute.rs:12-24 | It passes exactly when every account is owned by another program or is not blocked. Otherwise the error is `AccountBlocked(key)` for the first program-owned blocked account, or the error from reading its blocked flag. |
| TransactionExecute.ChainId | evm_loader/program/src/instruction/transaction_execute.rs:32 | The transaction's chain id, or the default chain id when it has none. |
| TransactionExecute.GasCost | evm_loader/program/src/instruction/transaction_execute.rs:65 | `used_gas * gas_price` when that fits 256 bits, else the largest 256-bit value. |
| TransactionExecute.RunMachinePhase | evm_loader/program/src/instruction/transaction_execute.rs:36-47 | It opens the storage, creates the Machine and runs it once with the step budget `u64::MAX`. On success it returns the exit reason. |
| TransactionExecute.CommitPhase | evm_loader/program/src/instruction/transaction_execute.rs:49-55 | It allocates, then applies, then pays the treasury, stopping at the first failure. A `NotReady` allocation fails with `AccountSpaceAllocationFailure`. |
| TransactionExecute.GasPhase | evm_loader/program/src/instruction/transaction_execute.rs:57-68 | It records the operator's expenses on the gasometer and then checks the gas limit. It logs the gas, pays the saturated cost on the chain id and logs the return value. The gasometer's used gas grows by exactly the expenses. |
| TransactionExecute.Execute | evm_loader/program/src/instruction/transaction_execute.rs:26-71 | The effect trace and outcome are exactly those of the ordered step specification. The gasometer is charged the operator's expenses exactly when their record happens, and its refund is untouched. |
| TransactionExecute.ExecutePhases | evm_loader/program/src/instruction/transaction_execute.rs:26-71 | The Machine, commit and gas phases run in order, and the run stops in the first phase that fails. |
| TransactionExecute.MachinePhaseOutcome | evm_loader/program/src/instruction/transaction_execute.rs:36-47 | The Machine phase passes exactly when storage, Machine and run succeed. The Machine runs once with budget `u64::MAX`. |
| TransactionExecute.CommitPhaseOutcome | evm_loader/program/src/instruction/transaction_execute.rs:49-55 | The commit phase passes exactly when allocation is `Ready` and the apply and treasury payment succeed. Changes are applied exactly when allocation is `Ready`, right after it. |
| TransactionExecute.GasPhaseOutcome | evm_loader/program/src/instruction/transaction_execute.rs:57-68 | The gas phase passes exactly when the used gas is within the limit and the gas payment succeeds. Over the limit it fails with `OutOfGas(gas_limit, used_gas)` right after the check. |
| TransactionExecute.NotReadyAppliesNothing | evm_loader/program/src/instruction/transaction_execute.rs:49-52 | An allocation that is not `Ready` fails the execution, and nothing after the allocation happens: no apply and no payment. |
| TransactionExecute.ApplyFollowsReadyAllocation | evm_loader/program/src/instruction/transaction_execute.rs:42-54 | Changes are applied only after a `Ready` allocation, which itself follows the single Machine run. |
| TransactionExecute.OutOfGasBeforePayment | evm_loader/program/src/instruction/transaction_execute.rs:58-66 | Gas above the limit fails the execution, and neither the GAS log nor the gas payment happens. |
| TransactionExecute.OutOfGasAfterCommit | evm_loader/program/src/instruction/transaction_execute.rs:54-60 | When the earlier steps passed, gas above the limit fails with `OutOfGas(gas_limit, used_gas)`, after the changes were applied and the treasury paid. |
| TransactionExecute.ExecuteSucceeds | evm_loader/program/src/instruction/transaction_execute.rs:26-71 | Execution succeeds exactly when these all hold:<br>- every collaborator succeeds;<br>- allocation is `Ready`;<br>- the used gas is within the limit. |
| TransactionExecute.ExecuteSuccessEffects | evm_loader/program/src/instruction/transaction_execute.rs:54-68 | A successful execution has every effect, in this order:<br>1. apply;<br>2. treasury payment;<br>3. operator expenses;<br>4. gas-limit check;<br>5. GAS log;<br>6. the gas payment of the saturated cost on the transaction's chain;<br>7. the return value log. |

## Left out

- The `create_metadata`, `create_master_edition` and `metadata` handlers (metaplex.rs:147-239, 295-313). They build instructions for the token-metadata program, derive addresses, read the rent sysvar and deserialize foreign accounts. The entry point takes the creating handlers' result and the metadata lookup as parameters.
- The `maybe_async` / `.await` plumbing. It adds no behaviour to a sequential model.
- `AccountData::unpack` and `pack`. The account layout is not shown. The unpacked header is an input to `New`, and `Update` stores the header as the account's data.
- The storage trie (`Hamt`) and `AccountData::pack`. When `Hamt::new`, `Hamt::insert` or `pack` fail is decided by byte layouts that are not shown. Their outcomes are inputs to `Storage`, `GetStorage` and `Update`, and every error they return is passed through. A failing insertion is assumed to leave the trie as the earlier insertions left it.
- The storage trie's contents. It is not shown, and it is a map from key to value whose missing keys read as zero. Its byte layout inside the buffer is not modelled. The position where it opens, `32 + code_size`, is recorded.
- `code_hash`. It hashes the code with Keccak-256, a hash library.
- The trivial getters `get_signer`, `get_ether`, `get_nonce`, `get_solana_address`, `get_seeds` and `get_code_account`. They read a header field, which the model exposes directly.
- `Rc<RefCell<…>>` borrows. The shared code buffer is a single array object, and a failing `try_borrow_mut` of the operator's lamports is not modelled.
- Logging: `msg!`, `debug_print!`, `println!`, and the HASH, MINER and GAS `sol_log_data` records. The GAS log and the return value log appear only as events in the trace.
- The bytecode Machine, the executor's actions, and the account storage's allocate, apply and transfer internals. Their outcomes are inputs.
- The gasometer's pricing of a Solana transaction, of lookup tables and of operator expenses. The costs are inputs to the record methods.
- Transaction decoding (`from_rlp`) and signature recovery. They are functions given to the model.
- `do_begin`, `do_continue`, `StateAccount`, and the migration of holder and legacy accounts. They are given as outcomes, and the gas, refund, origin and step count they receive are recorded.
- The byte values of the account tags. They are not part of the shown source, so tags are an enumeration.
- `DEFAULT_CHAIN_ID` is a build-time constant and is a parameter of `Execute`.
- Panics on too few accounts (`accounts[0..5]`) are not modelled: the fixed accounts are loaded by collaborators.
- The instruction must be at least 12 bytes. `array_ref!` and the slicing at bytes 12.. panic on a shorter one, so this is a precondition of `Process`.
- The input of `metaplex()` must be at least 4 bytes. `split_at(4)` panics on a shorter one, so this is a precondition of `ParseCall` and `Metaplex`.
- evm_loader/lib/src/tracing/tracers/mod.rs is not part of this model. It is a factory that boxes a tracer.
- TransactionStep.Process: does not model `u64` overflow of the operator's lamports on the final credit. The credit is an unbounded addition.
- LegacyAccount.SolidityAccount.Update: requires the nonce to fit 64 bits, where `as_u64` panics otherwise. It also requires the code window `[32, 32+|code|)` to fit the buffer when the code length is a `u32`, where the copy panics otherwise. These panics are preconditions rather than modelled failures.
- LegacyAccount.SolidityAccount.New: uses the corrected buffer check (see Findings) rather than the written one.
- Gas.Gasometer: keeps used gas and refunded lamports as unbounded integers. The 256-bit arithmetic of the source gasometer is not shown.

## Findings

| source | as written | input that shows it | evidently intended | confidence | as-written member | corrected member |
|---|---|---|---|---|---|---|
| evm_loader/program/src/solidity_account.rs:36 | `new` refuses a code buffer only when it is shorter than `code_size`. But `code()` and `storage()` slice `[32..32+code_size]` and `[32+code_size..]`. | `code_size = 1`, a non-zero `code_account`, and a 1-byte code buffer: `new` succeeds, and a later `get_code()` slices past the end. | The buffer must hold at least `32 + code_size` bytes. | not executed | LegacyAccount.NewCheckAsWrittenAdmitsShortBuffer | LegacyAccount.NewCheck |
