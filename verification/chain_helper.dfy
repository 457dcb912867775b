/** The chain client (utils/chain_helper.go): an in-memory keyring of signing
    keys, and `SendMsg`, which builds, signs and broadcasts one transaction
    and then polls the node until the transaction is committed or the wait
    times out.

    Everything behind the chain's gRPC endpoints and the SDK's cryptography
    is a parameter of type `Backend`: packing messages, querying the account,
    signing, encoding, broadcasting and looking a transaction up. Panics are
    `Call.Panicked`; errors returned to the caller are `Reply.Err`. */
module ChainHelper {
  import opened Wrappers
  import opened Text
  import opened Messages

  // ----- keys -----

  /** A key record of the keyring. `address` is what `GetAddress` yields: the
      bech32 account address of the stored public key, or the error raised
      when the stored public key cannot be unpacked. */
  datatype Record = Record(name: string, address: Result<string>)

  /** What the keyring holds under a name: a record, or an item that cannot
      be decoded. */
  datatype Entry = Stored(record: Record) | Unreadable(reason: string)

  /** The answer of `keyring.Key(uid)`. */
  datatype Lookup = KeyFound(record: Record) | KeyNotFound | LookupFailed(reason: string)

  /** Deriving the key named by the first argument from the mnemonic given as
      the second (BIP-44 path, secp256k1): opaque, and it may fail. */
  type Derivation = (string, string) -> Result<Record>

  /** `record.MustGetAddress()` (and `GetAddressStr`): the signer's address,
      or a panic when the address cannot be obtained. */
  function MustGetAddress(record: Record): (r: Call<string>)
    ensures r.Returned? <==> record.address.Success?
    ensures r.Returned? ==> r.value == record.address.value
    ensures r.Panicked? ==> r.reason == record.address.error
  {
    match record.address
    case Success(address) => Returned(address)
    case Failure(e) => Panicked(e)
  }

  /** `keyring.NewInMemory`: a store of named key records. */
  class Keyring {
    var entries: map<string, Entry>

    constructor ()
      ensures entries == map[]
    {
      entries := map[];
    }

    /** `Key(uid)`: the record stored under `uid`, "key not found" when there
        is none, and another error when the stored item cannot be decoded. */
    method Key(uid: string) returns (r: Lookup)
      ensures r.KeyNotFound? <==> uid !in entries
      ensures r.KeyFound? <==> uid in entries && entries[uid].Stored?
      ensures r.KeyFound? ==> r.record == entries[uid].record
      ensures r.LookupFailed? ==> r.reason == entries[uid].reason
    {
      if uid !in entries {
        return KeyNotFound;
      }
      match entries[uid]
      case Stored(record) => return KeyFound(record);
      case Unreadable(reason) => return LookupFailed(reason);
    }

    /** `NewAccount(uid, mnemonic, ...)`: derive a key and store it under `uid`. */
    method NewAccount(uid: string, mnemonic: string, derive: Derivation) returns (r: Result<Record>)
      modifies this
      ensures r == derive(uid, mnemonic)
      ensures entries == if r.Success? then old(entries)[uid := Stored(r.value)] else old(entries)
    {
      r := derive(uid, mnemonic);
      if r.Success? {
        entries := entries[uid := Stored(r.value)];
      }
    }

    /** `NewMnemonic(uid, ...)`: derive a key from a freshly generated mnemonic
        (given here as `generated`, since it is random) and store it. */
    method NewMnemonic(uid: string, generated: string, derive: Derivation) returns (r: Result<Record>, mnemonic: string)
      modifies this
      ensures mnemonic == generated && r == derive(uid, generated)
      ensures entries == if r.Success? then old(entries)[uid := Stored(r.value)] else old(entries)
    {
      mnemonic := generated;
      r := NewAccount(uid, generated, derive);
    }
  }

  // ----- transactions -----

  /** `sdk.TxResponse`: the node's answer about a transaction. */
  datatype TxResponse = TxResponse(code: nat, rawLog: string, height: int, txHash: string)

  /** The `(*sdk.TxResponse, error)` pair that `SendMsg` returns. */
  datatype Reply = Err(text: string) | Resp(resp: TxResponse)

  /** The answer to one `GetTx` poll: a transport error, a response without a
      transaction result, or the committed transaction's result. */
  datatype PollReply = PollFailed(error: string) | NoResult | Committed(resp: TxResponse)

  datatype AccountNumbers = AccountNumbers(number: nat, sequence: nat)

  type Signature = seq<bv8>

  /** The transaction a `TxBuilder` holds. */
  datatype Tx = Tx(msgs: seq<Msg>, gasLimit: int, fee: seq<Coin>, feePayer: string, signature: Option<Signature>)

  /** What `tx.Sign` signs: the chain, the signer's account number and
      sequence, the signing key's name and the unsigned transaction. */
  datatype SignDoc = SignDoc(chainId: string, accountNumber: nat, sequence: nat, keyName: string, tx: Tx)

  /** The chain node and the SDK routines `SendMsg` calls.
      - packMsgs: the error `SetMsgs` returns for these messages, if any;
      - account: the account query for an address (failure covers both the
        query and the unpacking of its answer);
      - sign: `tx.Sign` with the keyring's key of the given name;
      - encode: the transaction encoder;
      - broadcast: `BroadcastTx` in sync mode (failure = transport error);
      - getTx: the answer to the k-th `GetTx` poll (k = 0, 1, ...) for a hash. */
  datatype Backend = Backend(
    packMsgs: seq<Msg> -> Option<string>,
    account: string -> Result<AccountNumbers>,
    sign: SignDoc -> Result<Signature>,
    encode: Tx -> Result<seq<bv8>>,
    broadcast: seq<bv8> -> Result<TxResponse>,
    getTx: (string, nat) -> PollReply)

  /** `utils.SendMsgOptions`. */
  datatype SendMsgOptions = SendMsgOptions(messages: seq<Msg>, signer: Record, gasLimit: int, fee: int)

  const FeeDenom := "unibi"

  /** `sdk.NewCoins(sdk.NewInt64Coin("unibi", fee))`: a negative amount
      panics, a zero amount is dropped from the coin set. */
  function FeeCoins(fee: int): (r: Call<seq<Coin>>)
    ensures r.Panicked? <==> fee < 0
    ensures r.Returned? ==> (r.value == [] <==> fee == 0)
    ensures r.Returned? && fee > 0 ==> r.value == [Coin(FeeDenom, fee)]
  {
    if fee < 0 then Panicked("negative coin amount")
    else if fee == 0 then Returned([])
    else Returned([Coin(FeeDenom, fee)])
  }

  /** `client.TxConfig.NewTxBuilder()`: a transaction under construction. */
  class TxBuilder {
    var msgs: seq<Msg>
    var gasLimit: int
    var fee: seq<Coin>
    var feePayer: string
    var signature: Option<Signature>

    constructor ()
      ensures GetTx() == Tx([], 0, [], "", None)
    {
      msgs, gasLimit, fee, feePayer, signature := [], 0, [], "", None;
    }

    function GetTx(): (tx: Tx)
      reads this
    {
      Tx(msgs, gasLimit, fee, feePayer, signature)
    }

    /** Sets the messages unless they cannot be packed. */
    method SetMsgs(ms: seq<Msg>, pack: seq<Msg> -> Option<string>) returns (err: Option<string>)
      modifies this
      ensures err == pack(ms)
      ensures GetTx() == if err.None? then old(GetTx()).(msgs := ms) else old(GetTx())
    {
      err := pack(ms);
      if err.None? {
        msgs := ms;
      }
    }

    method SetGasLimit(limit: int)
      modifies this
      ensures GetTx() == old(GetTx()).(gasLimit := limit)
    {
      gasLimit := limit;
    }

    method SetFeeAmount(coins: seq<Coin>)
      modifies this
      ensures GetTx() == old(GetTx()).(fee := coins)
    {
      fee := coins;
    }

    method SetFeePayer(payer: string)
      modifies this
      ensures GetTx() == old(GetTx()).(feePayer := payer)
    {
      feePayer := payer;
    }

    /** What a successful `tx.Sign(..., overwrite = true)` leaves behind. */
    method SetSignature(sig: Signature)
      modifies this
      ensures GetTx() == old(GetTx()).(signature := Some(sig))
    {
      signature := Some(sig);
    }
  }

  // ----- confirmation -----

  /** The confirm loop waits on a 60-second timer and polls on a 1-second
      ticker, so it polls at most 60 times. */
  const TimeoutSeconds: nat := 60
  const TickSeconds: nat := 1
  const MaxPolls: nat := TimeoutSeconds / TickSeconds
  const TimeoutError := "create transaction timeout error"

  /** The reply of the confirm loop and the number of polls made so far. */
  datatype Confirmation = Confirmation(reply: Reply, polls: nat)

  /** The confirm loop from poll `k` on: poll errors and empty answers are
      ignored, the first committed result is the reply whatever its code,
      and when no poll before the timeout finds one the reply is the
      timeout error. */
  function Confirm(be: Backend, hash: string, k: nat): (c: Confirmation)
    requires k <= MaxPolls
    ensures k <= c.polls <= MaxPolls
    ensures c.reply.Resp? ==>
      && k < c.polls
      && be.getTx(hash, c.polls - 1) == Committed(c.reply.resp)
      && forall j :: k <= j < c.polls - 1 ==> !be.getTx(hash, j).Committed?
    ensures c.reply.Err? ==>
      && c.reply.text == TimeoutError
      && c.polls == MaxPolls
      && forall j :: k <= j < MaxPolls ==> !be.getTx(hash, j).Committed?
    decreases MaxPolls - k
  {
    if k == MaxPolls then Confirmation(Err(TimeoutError), k)
    else
      match be.getTx(hash, k)
      case Committed(resp) => Confirmation(Resp(resp), k + 1)
      case _ => Confirm(be, hash, k + 1)
  }

  // ----- SendMsg -----

  /** What one `SendMsg` call does: the document it signed (if it got that
      far), the bytes it broadcast (if any), how many polls it made, and its
      result. */
  datatype SendRun = SendRun(signed: Option<SignDoc>, broadcast: Option<seq<bv8>>, polls: nat, result: Call<Reply>)

  /** The phases of `SendMsg` in order: set the messages, gas limit, fee and
      fee payer; query the account number and sequence; sign; encode;
      broadcast; confirm. The address check after the fee payer is set can
      never fail, since `MustGetAddress` has already panicked in that case. */
  function Send(chainId: string, be: Backend, options: SendMsgOptions): (run: SendRun)
    ensures run.broadcast.Some? ==> run.signed.Some?
    ensures run.polls <= MaxPolls && (run.broadcast.None? ==> run.polls == 0)
    ensures run.result.Panicked? ==> run.signed.None?
  {
    match be.packMsgs(options.messages)
    case Some(e) => SendRun(None, None, 0, Returned(Err(e)))
    case None =>
      match FeeCoins(options.fee)
      case Panicked(p) => SendRun(None, None, 0, Panicked(p))
      case Returned(fee) =>
        match MustGetAddress(options.signer)
        case Panicked(p) => SendRun(None, None, 0, Panicked(p))
        case Returned(address) =>
          match be.account(address)
          case Failure(e) => SendRun(None, None, 0, Panicked(e))
          case Success(numbers) =>
            var doc := SignDoc(chainId, numbers.number, numbers.sequence, options.signer.name,
                               Tx(options.messages, options.gasLimit, fee, address, None));
            match be.sign(doc)
            case Failure(e) => SendRun(Some(doc), None, 0, Returned(Err(e)))
            case Success(sig) =>
              match be.encode(doc.tx.(signature := Some(sig)))
              case Failure(e) => SendRun(Some(doc), None, 0, Returned(Err(e)))
              case Success(bytes) =>
                match be.broadcast(bytes)
                case Failure(e) => SendRun(Some(doc), Some(bytes), 0, Returned(Err(e)))
                case Success(accepted) =>
                  if accepted.code != 0 then SendRun(Some(doc), Some(bytes), 0, Returned(Err(accepted.rawLog)))
                  else
                    var c := Confirm(be, accepted.txHash, 0);
                    SendRun(Some(doc), Some(bytes), c.polls, Returned(c.reply))
  }

  /** Every call signs with the account number and sequence it has just
      queried for the signer's address, over the caller's messages, gas limit
      and fee, with the signer as fee payer. */
  lemma SendSignsWithQueriedNumbers(chainId: string, be: Backend, options: SendMsgOptions)
    ensures var run := Send(chainId, be, options);
      run.signed.Some? ==>
        && options.signer.address.Success?
        && var address := options.signer.address.value;
        && be.account(address).Success?
        && FeeCoins(options.fee).Returned?
        && run.signed.value == SignDoc(chainId, be.account(address).value.number, be.account(address).value.sequence,
                                       options.signer.name,
                                       Tx(options.messages, options.gasLimit, FeeCoins(options.fee).value, address, None))
  {
  }

  /** Nothing is broadcast unless every build step succeeded: the bytes sent
      are the encoding of the signed document, and without a broadcast there
      is no poll. */
  lemma SendBroadcastsOnlyAfterBuild(chainId: string, be: Backend, options: SendMsgOptions)
    ensures var run := Send(chainId, be, options);
      && (run.broadcast.Some? ==>
            && run.signed.Some?
            && be.packMsgs(options.messages).None?
            && be.sign(run.signed.value).Success?
            && be.encode(run.signed.value.tx.(signature := Some(be.sign(run.signed.value).value)))
               == Success(run.broadcast.value))
      && (run.broadcast.None? ==> run.polls == 0 && (run.result.Returned? ==> run.result.value.Err?))
  {
  }

  /** Each build step that fails ends the call before anything is broadcast,
      with that step's own outcome: a packing, signing or encoding error is
      returned as it is; a negative fee, a signer without an address and a
      failed account query panic, the latter two with their own error. When
      every step up to the account query succeeds, a document is signed. */
  lemma SendBuildFailures(chainId: string, be: Backend, options: SendMsgOptions)
    ensures var run := Send(chainId, be, options);
      && (be.packMsgs(options.messages).Some? ==>
            run.broadcast.None? && run.result == Returned(Err(be.packMsgs(options.messages).value)))
      && (be.packMsgs(options.messages).None? && options.fee < 0 ==>
            run.broadcast.None? && run.result.Panicked?)
      && (be.packMsgs(options.messages).None? && 0 <= options.fee && options.signer.address.Failure? ==>
            run.broadcast.None? && run.result == Panicked(options.signer.address.error))
      && (be.packMsgs(options.messages).None? && 0 <= options.fee && options.signer.address.Success? &&
          be.account(options.signer.address.value).Failure? ==>
            run.broadcast.None? && run.result == Panicked(be.account(options.signer.address.value).error))
      && (be.packMsgs(options.messages).None? && 0 <= options.fee && options.signer.address.Success? &&
          be.account(options.signer.address.value).Success? ==>
            run.signed.Some?)
      && (run.signed.Some? && be.sign(run.signed.value).Failure? ==>
            run.broadcast.None? && run.result == Returned(Err(be.sign(run.signed.value).error)))
      && (run.signed.Some? && be.sign(run.signed.value).Success? &&
          be.encode(run.signed.value.tx.(signature := Some(be.sign(run.signed.value).value))).Failure? ==>
            run.broadcast.None? &&
            run.result == Returned(Err(be.encode(run.signed.value.tx.(signature := Some(be.sign(run.signed.value).value))).error)))
  {
  }

  /** A broadcast transport error or a non-zero broadcast code ends the call
      with an error and no poll; for a non-zero code the error is the log. */
  lemma SendBroadcastRejected(chainId: string, be: Backend, options: SendMsgOptions)
    ensures var run := Send(chainId, be, options);
      run.broadcast.Some? ==>
        match be.broadcast(run.broadcast.value)
        case Failure(e) => run.polls == 0 && run.result == Returned(Err(e))
        case Success(accepted) =>
          accepted.code != 0 ==> run.polls == 0 && run.result == Returned(Err(accepted.rawLog))
  {
  }

  /** A response comes back only for a broadcast accepted with code zero, and
      it is the answer of the last poll made, the first one that found the
      transaction committed; it is returned unchanged whatever its code. */
  lemma SendResponseIsFirstCommitted(chainId: string, be: Backend, options: SendMsgOptions)
    ensures var run := Send(chainId, be, options);
      run.result.Returned? && run.result.value.Resp? ==>
        && run.broadcast.Some?
        && be.broadcast(run.broadcast.value).Success?
        && var accepted := be.broadcast(run.broadcast.value).value;
        && accepted.code == 0
        && 0 < run.polls <= MaxPolls
        && be.getTx(accepted.txHash, run.polls - 1) == Committed(run.result.value.resp)
        && forall j :: 0 <= j < run.polls - 1 ==> !be.getTx(accepted.txHash, j).Committed?
  {
  }

  /** When the broadcast is accepted and none of the polls before the timeout
      finds the transaction, the call fails with the timeout error after
      exactly `MaxPolls` polls and no response. */
  lemma SendTimesOut(chainId: string, be: Backend, options: SendMsgOptions)
    ensures var run := Send(chainId, be, options);
      run.broadcast.Some? && be.broadcast(run.broadcast.value).Success? &&
      be.broadcast(run.broadcast.value).value.code == 0 &&
      (forall j :: 0 <= j < MaxPolls ==> !be.getTx(be.broadcast(run.broadcast.value).value.txHash, j).Committed?)
      ==> run.polls == MaxPolls && run.result == Returned(Err(TimeoutError))
  {
    var run := Send(chainId, be, options);
    if run.broadcast.Some? && be.broadcast(run.broadcast.value).Success? && be.broadcast(run.broadcast.value).value.code == 0 {
      var c := Confirm(be, be.broadcast(run.broadcast.value).value.txHash, 0);
      if c.reply.Resp? {
        assert be.getTx(be.broadcast(run.broadcast.value).value.txHash, c.polls - 1).Committed?;
      }
    }
  }

  /** A transaction found committed on the third poll, with code zero, is
      returned after three polls, carrying its height and hash. */
  lemma ConfirmOnThirdPoll(be: Backend, hash: string, resp: TxResponse)
    requires !be.getTx(hash, 0).Committed? && !be.getTx(hash, 1).Committed?
    requires be.getTx(hash, 2) == Committed(resp) && resp.code == 0
    ensures Confirm(be, hash, 0) == Confirmation(Resp(resp), 3)
  {
    assert Confirm(be, hash, 2) == Confirmation(Resp(resp), 3);
  }

  /** The text `SendMsgWithCheck` gives to a committed transaction that failed. */
  function TransactionError(code: nat, rawLog: string): (text: string) {
    "transaction error. code: " + FormatDecimal(code) + ", log: " + rawLog + " "
  }

  /** The error text of a failed transaction carries both its code and its log. */
  lemma TransactionErrorCarries(code: nat, rawLog: string)
    ensures Contains(TransactionError(code, rawLog), FormatDecimal(code))
    ensures Contains(TransactionError(code, rawLog), rawLog)
  {
    var head := "transaction error. code: ";
    var text := TransactionError(code, rawLog);
    assert text == head + FormatDecimal(code) + (", log: " + rawLog + " ");
    ContainsInfix(head, FormatDecimal(code), ", log: " + rawLog + " ");
    assert text == (head + FormatDecimal(code) + ", log: ") + rawLog + " ";
    ContainsInfix(head + FormatDecimal(code) + ", log: ", rawLog, " ");
  }

  /** `SendMsgWithCheck`'s classification of `SendMsg`'s result: a response
      with a non-zero code becomes an error carrying the code and the log;
      everything else passes through unchanged. */
  function CheckResponse(c: Call<Reply>): (r: Call<Reply>)
    ensures r.Returned? && r.value.Resp? ==> r.value.resp.code == 0
    ensures r.Panicked? <==> c.Panicked?
    ensures c.Returned? && c.value.Resp? && c.value.resp.code != 0 ==>
      r == Returned(Err(TransactionError(c.value.resp.code, c.value.resp.rawLog)))
    ensures !(c.Returned? && c.value.Resp? && c.value.resp.code != 0) ==> r == c
  {
    match c
    case Returned(Resp(resp)) =>
      if resp.code != 0 then Returned(Err(TransactionError(resp.code, resp.rawLog))) else c
    case _ => c
  }

  /** `ChainClient`: the chain id and the in-memory keyring. */
  class ChainClient {
    const chainId: string
    const keyring: Keyring

    /** `NewChainClient`: a client with an empty in-memory keyring. */
    constructor (chainId: string)
      ensures this.chainId == chainId && fresh(keyring) && keyring.entries == map[]
    {
      this.chainId := chainId;
      keyring := new Keyring();
    }

    /** `GetOrAddAccount(uid, mnemonicOpt...)`: the record stored under `uid`
        if there is one; otherwise a new record derived from the first
        mnemonic given (the others are ignored), or from a generated mnemonic
        when none is given, and stored under `uid`. A lookup error other than
        "key not found", and a failed derivation, panic. */
    method GetOrAddAccount(uid: string, mnemonicOpt: seq<string>, derive: Derivation, generated: string)
      returns (r: Call<Record>)
      modifies keyring
      ensures uid in old(keyring.entries) ==> keyring.entries == old(keyring.entries)
      ensures uid in old(keyring.entries) && old(keyring.entries)[uid].Stored? ==>
        r == Returned(old(keyring.entries)[uid].record)
      ensures uid in old(keyring.entries) && old(keyring.entries)[uid].Unreadable? ==>
        r == Panicked(old(keyring.entries)[uid].reason)
      ensures uid !in old(keyring.entries) ==>
        var mnemonic := if |mnemonicOpt| > 0 then mnemonicOpt[0] else generated;
        match derive(uid, mnemonic)
        case Success(record) =>
          r == Returned(record) && keyring.entries == old(keyring.entries)[uid := Stored(record)]
        case Failure(e) =>
          r == Panicked(e) && keyring.entries == old(keyring.entries)
      ensures r.Returned? ==> uid in keyring.entries && keyring.entries[uid] == Stored(r.value)
    {
      var found := keyring.Key(uid);
      match found
      case KeyFound(record) =>
        return Returned(record);
      case LookupFailed(reason) =>
        return Panicked(reason);
      case KeyNotFound =>
        var made: Result<Record>;
        if |mnemonicOpt| > 0 {
          made := keyring.NewAccount(uid, mnemonicOpt[0], derive);
        } else {
          var mnemonic;
          made, mnemonic := keyring.NewMnemonic(uid, generated, derive);
        }
        if made.Failure? {
          return Panicked(made.error);
        }
        return Returned(made.value);
    }

    /** `SendMsg`: build, sign, broadcast and confirm one transaction. */
    method SendMsg(options: SendMsgOptions, be: Backend) returns (r: Call<Reply>)
      ensures r == Send(chainId, be, options).result
    {
      var builder := new TxBuilder();
      var err := builder.SetMsgs(options.messages, be.packMsgs);
      if err.Some? {
        return Returned(Err(err.value));
      }
      builder.SetGasLimit(options.gasLimit);
      var fee := FeeCoins(options.fee);
      if fee.Panicked? {
        return Panicked(fee.reason);
      }
      builder.SetFeeAmount(fee.value);
      var payer := MustGetAddress(options.signer);
      if payer.Panicked? {
        return Panicked(payer.reason);
      }
      builder.SetFeePayer(payer.value);
      var numbers := be.account(payer.value);
      if numbers.Failure? {
        return Panicked(numbers.error);
      }
      var doc := SignDoc(chainId, numbers.value.number, numbers.value.sequence, options.signer.name, builder.GetTx());
      var sig := be.sign(doc);
      if sig.Failure? {
        return Returned(Err(sig.error));
      }
      builder.SetSignature(sig.value);
      var bytes := be.encode(builder.GetTx());
      if bytes.Failure? {
        return Returned(Err(bytes.error));
      }
      var accepted := be.broadcast(bytes.value);
      if accepted.Failure? {
        return Returned(Err(accepted.error));
      }
      if accepted.value.code != 0 {
        return Returned(Err(accepted.value.rawLog));
      }
      var hash := accepted.value.txHash;
      var polls := 0;
      while polls < MaxPolls
        invariant polls <= MaxPolls
        invariant Confirm(be, hash, polls).reply == Confirm(be, hash, 0).reply
      {
        var answer := be.getTx(hash, polls);
        if answer.Committed? {
          return Returned(Resp(answer.resp));
        }
        polls := polls + 1;
      }
      return Returned(Err(TimeoutError));
    }

    /** `SendMsgWithCheck`: `SendMsg`, then a non-zero result code becomes an error. */
    method SendMsgWithCheck(options: SendMsgOptions, be: Backend) returns (r: Call<Reply>)
      ensures r == CheckResponse(Send(chainId, be, options).result)
    {
      r := SendMsg(options, be);
      if r.Returned? && r.value.Resp? && r.value.resp.code != 0 {
        r := Returned(Err(TransactionError(r.value.resp.code, r.value.resp.rawLog)));
      }
    }
  }
}
