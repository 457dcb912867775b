# Compounder transaction core, modelled in Dafny

This is a model of the Nibiru compounder agent. The agent claims rewards from a staking contract, then re-stakes across the validators listed in a CSV file. The model covers the agent's transaction core:

- **Escalation controller** (`executeMessage`): sends a message set. It retries with a scaled fee after an "insufficient fee" error, and with a scaled gas limit after a committed result whose log says "out of gas". It stops after `CompounderGasMaxAttempts` attempts.
- **`ClaimRewards` and `Compound`**:
  - Compound has a balance gate.
  - It parses the CSV rows into `StakeMsg{Share, Validator}`.
  - Both start the controller at attempt 1 with the configured fee and gas limit.
- **Chain client** (utils/chain_helper.go):
  - `GetOrAddAccount`: lookup-or-insert on an in-memory keyring.
  - `SendMsg`: builds, signs and broadcasts one transaction, then polls the node until the transaction is committed or the wait times out.
  - `SendMsgWithCheck`: turns a failed committed result into an error.

Files:

- `wrappers.dfy`:
  - `Option`, `Result` and `Call`.
  - `Call` distinguishes a Go `panic` (`Panicked`) from a returned value.
- `text.dfy`: the Go library behaviour the core relies on.
  - `strings.Contains`;
  - `strconv.ParseUint(s, 10, 64)`, a decimal parser with a 2^64-1 range check;
  - decimal formatting.
- `messages.dfy`: the messages sent, `Coin`, `StakeMsg` and `MsgExecuteContract`. The contract payload is a structured value.
- `chain_helper.dfy`:
  - classes `Keyring`, `TxBuilder` and `ChainClient`;
  - the specification function `Send` of one `SendMsg` call, and `Confirm` for its poll loop;
  - lemmas about both.
- `compounder.dfy`:
  - `ExecuteMessage`, a recursive function that returns every `SendMsg` call it made and the outcome;
  - `ClaimRewards`;
  - `Compound`, a method with the CSV loop;
  - lemmas about the retry sequence and the row parser.

The chain and the SDK are parameters:

- `ExecuteMessage` receives `send: Chain`, the chain's reply to a `SendMsg` with given options at a given attempt.
- `SendMsg` receives `Backend`, a record of functions: message packing, the account query, `tx.Sign`, the encoder, `BroadcastTx` and `GetTx`.
- Key derivation is a `Derivation` function that may fail.
- The random mnemonic of `NewMnemonic` is a parameter.
- The account balance and the CSV records (or the error of opening or reading the file) are inputs of `Compound`.

Points where the code's behaviour is easy to misread, and which the model follows as written:

- `Compound` keeps back 1 unibi (`AmountOf("unibi") - 1`, compounder.go:92), although the comment at compounder.go:91 says "1 nibi". The stake amount is computed only for this sign check. The stake call carries the CSV shares, not the balance.
- An "insufficient fee" retry is triggered only by the text of an error returned by `SendMsg`. This covers a broadcast rejection, whose text is the raw log. A committed result with that text in its log is terminal.
- When the retries are exhausted on "out of gas", the outcome keeps the committed transaction's height and hash alongside the error.
- The error return after `GetAddress` (utils/chain_helper.go:116-118) can never be taken. `MustGetAddress` at line 113 has already panicked on the same failure, so `Send` has no such branch.
- `sdk.NewInt64Coin` panics on a negative fee, and `sdk.NewCoins` drops a zero fee. `FeeCoins` models both.
- config/config.go:45 ignores the error of parsing the initial fee, so a missing or malformed value gives fee 0. Every "insufficient fee" retry then resends fee 0, because the ceiling of 0 times the multiplier is 0 (`ExecuteMessageZeroFeeStays`), and the attempts are used up without any change.

## Model

| member | source | states |
|---|---|---|
| Compounder.ExecuteMessage | compounder.go:165-233 | a run makes at least one and at most max(1, maxAttempts - attempt + 1) `SendMsg` calls, and its first call uses the options given (termination bound) |
| Compounder.ExecuteMessageStep | compounder.go:171-221 | between consecutive calls: the attempt was below the maximum; after an "insufficient fee" error only the fee changes, to ceil(fee * multiplier); otherwise the reply was an "out of gas" result and only the gas limit changes, to ceil(gasLimit * multiplier) |
| Compounder.ExecuteMessageKeepsMessages | compounder.go:184-221 | every call of a run sends the same messages with the same signer |
| Compounder.ExecuteMessageOutcome | compounder.go:171-232 | the outcome follows the last reply: success gives (height, hash, no error); "insufficient fee" ends the run only at the attempt limit, after the maximum number of calls, with (0, "", text); "out of gas" ends it only at the limit with (height, hash, log); any other error or failed result is terminal with (0, "", text or log) |
| Compounder.ExecuteMessageSucceeds | compounder.go:230-231 | the run ends without error exactly when the last reply is a committed transaction with code 0 |
| Compounder.ExecuteMessageNeverLowers | compounder.go:184-212 | with a multiplier of at least one and a non-negative fee and gas limit in the first call, fee and gas limit never decrease between calls |
| Compounder.ExecuteMessageZeroFeeStays | compounder.go:184-194 | a run whose first call has fee 0 sends fee 0 in every call, so an "insufficient fee" retry cannot raise it |
| Compounder.ScaleCeil | compounder.go:185 | the scaled value is the least integer not below x * num / den |
| Compounder.ScaleCeilNotBelow | compounder.go:185 | a multiplier of at least one never lowers a non-negative value |
| Compounder.ScaleCeilAbove | compounder.go:212 | a multiplier above one strictly raises a positive value |
| Compounder.ClaimRewards | compounder.go:55-85 | panics exactly when the account has no address; otherwise the result is the controller's run started at attempt 1 with one claim call from the account's address, the account as signer, the configured gas limit and the initial fee, so it makes at most max(1, maxAttempts) calls |
| Compounder.ParseStakeRow | compounder.go:116-127 | a row shorter than two fields panics; a share that parses gives StakeMsg(share, row[0]); one that does not gives nothing |
| Compounder.ParseStakeRows | compounder.go:114-128 | the rows parse without panic exactly when every row has two fields; at most one message per row, every share within uint64 |
| Compounder.ParseStakeRowsAppend | compounder.go:115-128 | rows are processed in file order: parsing a + b gives a's messages followed by b's, and a panic in a is the result |
| Compounder.ParseSingleRow | compounder.go:115-128 | a one-row file gives exactly that row's contribution |
| Compounder.SkipsUnparseableShare | compounder.go:117-121 | a row whose share does not parse is skipped and the following rows are still read |
| Compounder.KeepsParsedShare | compounder.go:123-127 | a row whose share parses contributes exactly StakeMsg(share, validator) in its place |
| Compounder.ParseExampleFile | compounder.go:113-128 | header, (val1,10), (val2,x), (val3,5) gives [StakeMsg(10,val1), StakeMsg(5,val3)] |
| Compounder.Compound | compounder.go:87-163 | no address panics; a unibi balance below the 1-unibi reserve stops before the CSV is read or anything is sent; a CSV error stops; an empty file panics on the header slice; a short row panics; otherwise all parsed stake messages go in one contract call, run from attempt 1 with the configured fee and gas limit |
| Text.Contains | compounder.go:173 | true exactly when the pattern occurs at some index of the string |
| Text.ContainsInfix | utils/chain_helper.go:184 | prefix + pattern + suffix contains the pattern |
| Text.ParseUint64 | compounder.go:117 | a string is accepted exactly when it is non-empty, all base-10 digits and denotes at most 2^64-1, and the accepted value is the number its digits denote |
| Text.CanonicalIsFormatted | compounder.go:117 | every digit string without a leading zero is the decimal text of the number it denotes, so with the round-trip and leading-zero lemmas the value of every accepted string is fixed |
| Text.ParseFormatRoundTrip | compounder.go:117 | parsing the decimal text of n gives n when n fits in uint64 and a range error otherwise |
| Text.ParseLeadingZero | compounder.go:117 | a leading zero does not change what a non-empty string parses to |
| Text.FormatDecimalDigits | utils/chain_helper.go:184 | the decimal text of n is all digits and denotes n |
| ChainHelper.MustGetAddress | utils/chain_helper.go:241-253 | returns the record's address when it can be obtained and panics with its error otherwise |
| ChainHelper.Keyring.Key | utils/chain_helper.go:70-76 | "key not found" exactly when nothing is stored under the name; the stored record when it decodes; another error otherwise |
| ChainHelper.Keyring.NewAccount | utils/chain_helper.go:79-89 | the derived record is stored under the name on success; the keyring is unchanged on failure |
| ChainHelper.Keyring.NewMnemonic | utils/chain_helper.go:91-101 | as NewAccount, with the generated mnemonic |
| ChainHelper.ChainClient.constructor | utils/chain_helper.go:45-60 | a client for the chain id with an empty in-memory keyring |
| ChainHelper.ChainClient.GetOrAddAccount | utils/chain_helper.go:69-103 | a stored record is returned with the keyring unchanged; an undecodable entry panics; otherwise the record derived from the first mnemonic (or the generated one when none is given) is stored under the name, or the derivation failure panics; a returned record is afterwards stored under the name |
| ChainHelper.FeeCoins | utils/chain_helper.go:112 | a negative fee panics, a zero fee gives no coin, a positive fee one unibi coin of that amount |
| ChainHelper.TxBuilder.SetMsgs | utils/chain_helper.go:107-110 | the messages are set unless packing them fails, in which case the builder is unchanged |
| ChainHelper.TxBuilder.SetGasLimit | utils/chain_helper.go:111 | only the gas limit changes |
| ChainHelper.TxBuilder.SetFeeAmount | utils/chain_helper.go:112 | only the fee changes |
| ChainHelper.TxBuilder.SetFeePayer | utils/chain_helper.go:113 | only the fee payer changes |
| ChainHelper.TxBuilder.SetSignature | utils/chain_helper.go:129 | only the signature changes |
| ChainHelper.Confirm | utils/chain_helper.go:160-177 | at most 60 polls; a response is the answer of the last poll, the first one that found the transaction committed; otherwise the reply is the timeout error after all 60 polls, none of which found it |
| ChainHelper.Send | utils/chain_helper.go:105-178 | nothing is broadcast without a signed document, no poll happens without a broadcast, and a panic happens before signing |
| ChainHelper.SendBuildFailures | utils/chain_helper.go:107-138 | a failing build step ends the call before any broadcast: packing, signing and encoding errors are returned as they are, a negative fee panics, a signer without an address and a failed account query panic with their own error; when packing, fee, address and account query succeed, a document is signed |
| ChainHelper.SendSignsWithQueriedNumbers | utils/chain_helper.go:111-129 | the signed document carries the account number and sequence just queried for the signer's address, plus the caller's messages, gas limit and fee, with the signer as fee payer |
| ChainHelper.SendBroadcastsOnlyAfterBuild | utils/chain_helper.go:107-148 | bytes are broadcast only after packing and signing succeeded, and they are the encoding of the signed transaction; without a broadcast there is no poll and no response |
| ChainHelper.SendBroadcastRejected | utils/chain_helper.go:149-154 | a transport error or a non-zero broadcast code ends the call with that error (the raw log for a code) and no poll |
| ChainHelper.SendResponseIsFirstCommitted | utils/chain_helper.go:163-171 | a response is returned only after a broadcast accepted with code 0, and it is the first committed poll answer, unchanged whatever its code |
| ChainHelper.SendTimesOut | utils/chain_helper.go:172-175 | if no poll finds the transaction, the result is the timeout error after exactly 60 polls |
| ChainHelper.ConfirmOnThirdPoll | utils/chain_helper.go:163-171 | a result found on the third poll with code 0 is returned after three polls with its height and hash |
| ChainHelper.TransactionErrorCarries | utils/chain_helper.go:184 | the error text of a failed transaction contains its code in decimal and its log |
| ChainHelper.CheckResponse | utils/chain_helper.go:180-189 | a response with a non-zero code becomes the error "transaction error. code: C, log: L "; everything else, panics included, passes through; no response with a non-zero code ever comes out |
| ChainHelper.ChainClient.SendMsg | utils/chain_helper.go:105-178 | the imperative build, sign, broadcast and poll loop returns exactly the result of the Send specification |
| ChainHelper.ChainClient.SendMsgWithCheck | utils/chain_helper.go:180-189 | returns SendMsg's result classified by CheckResponse |

Helpers that the rows above describe through the members using them, without a row of their own: `ChainHelper.TransactionError` (the `Sprintf` at utils/chain_helper.go:184, described by `TransactionErrorCarries` and `CheckResponse`), `Compounder.AmountOf` (`balance.AmountOf` at compounder.go:92, used by `Compound`), `ChainHelper.Keyring.constructor` (`keyring.NewInMemory` at utils/chain_helper.go:49, used by `ChainClient.constructor`), `ChainHelper.TxBuilder.constructor` and `TxBuilder.GetTx` (`NewTxBuilder` and `GetTx` at utils/chain_helper.go:106 and :135, used by `ChainClient.SendMsg`), and the predicates `Compounder.InsufficientFee` and `Compounder.OutOfGas` (the tests at compounder.go:173 and :198-200, used by the `ExecuteMessage` rows).

## Left out

- Compounder.ScaleCeil: computes the exact rational ceiling of x * num / den. The source multiplies by a float64 and converts back to `int64`/`uint64`, which can round differently or overflow for large values. `num`/`den` must be the float64's exact value: with 11/10 the model gives 110 for 100, while `math.Ceil(float64(100) * 1.1)` is 111 because 1.1 is not exact in binary.
- Compounder.ExecuteMessage: fee and gas limit are unbounded integers. The source's `int64` fee and `uint64` gas limit can wrap when converted back from float64.
- ChainHelper.Confirm: `MaxPolls` = 60 is an idealisation in which every `GetTx` answers well within one tick. Wall-clock timing is not modelled, so the model does not capture these cases:
  - the 60th tick and the 60-second timer are ready together, and `select` may take the timer first (59 polls);
  - a `GetTx` slower than a tick makes the ticker drop ticks, so fewer polls happen before the timer fires;
  - after the timer has fired, `select` may still take a pending tick, so more than 60 polls are possible;
  - `GetTx` runs on `context.Background()` without a deadline, so a call that never returns blocks the loop past the 60 seconds.
- Compounder.ExecuteMessage: its `send` parameter gives only the returned `(response, error)` pair. A panic inside `SendMsg` (no signer address, failed account query, negative fee) aborts the process; that is modelled in `Send`, not in the controller.
- The gRPC connection (`GetGRPCConnection`, TLS credentials, the one-minute blocking dial) is network I/O and is not modelled.
- `QueryAccountBalance` is an RPC wrapper and is not modelled; the balance is an input of `Compound`.
- `GetAccountNumbers` is the `account` field of `Backend`. Its two panics, on a query error and on an unpacking error, are one failure.
- Key derivation, `tx.Sign`, protobuf encoding and `UnpackAny` are cryptography and library code. They are parameters that may fail. `tx.Sign`'s lookup of the signing key in the keyring is part of the signing function.
- The keyring's refusal to store a second key with an address already present is part of the derivation failure.
- `json.Marshal` of the claim and stake payloads is library serialisation. Its panic cannot occur for these maps. The payload is the structured `ContractCall`.
- Reading the CSV file is an input: the records, or the error from opening or reading the file. `encoding/csv`'s own checks, such as a consistent field count, are part of that error.
- `NewCompounder` and `cmd/main.go` (claim, sleep 10 s, compound) are wiring around the modelled operations and are not modelled. `NewCompounder` always passes exactly one mnemonic to `GetOrAddAccount`.
- `config/config.go` (environment loading, with parse errors ignored) is not modelled; its values are the fields of `Config`.
- `SetChainPrefixes` and `ExtractMsg` (unused) are not modelled.
- All `slog` logging is left out. This includes the "successful" lines that are logged even after an error.
