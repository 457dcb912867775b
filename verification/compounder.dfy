/** The compounding agent (compounder.go): the fee/gas escalation controller
    `executeMessage`, and the two operations built on it, `ClaimRewards` and
    `Compound`.

    The chain client's `SendMsg` is a parameter of type `Chain`: the reply the
    chain gives to a submission with the given options at the given attempt. */
module Compounder {
  import opened Wrappers
  import opened Text
  import opened Messages
  import opened ChainHelper

  type Positive = n: int | n > 0 witness 1

  /** `CompounderGasMultiplier`, a float64 in the source, as the ratio num/den. */
  datatype Multiplier = Multiplier(num: int, den: Positive)

  /** `math.Ceil(float64(x) * multiplier)`: the least integer r with
      r >= x * num / den. */
  function ScaleCeil(x: int, m: Multiplier): (r: int)
    ensures x * m.num <= r * m.den
    ensures (r - 1) * m.den < x * m.num
  {
    var a := x * m.num;
    var r := (a + m.den - 1) / m.den;
    assert r * m.den + (a + m.den - 1) % m.den == a + m.den - 1;
    assert (r - 1) * m.den == r * m.den - m.den;
    r
  }

  /** With a multiplier of at least one, escalation never lowers a
      non-negative fee or gas limit. */
  lemma ScaleCeilNotBelow(x: int, m: Multiplier)
    requires 0 <= x && m.den <= m.num
    ensures x <= ScaleCeil(x, m)
  {
  }

  /** With a multiplier above one, escalation strictly raises a positive fee
      or gas limit. */
  lemma ScaleCeilAbove(x: int, m: Multiplier)
    requires 0 < x && m.den < m.num
    ensures x < ScaleCeil(x, m)
  {
  }

  /** The configuration values the core reads: contract address, initial gas
      limit and fee, maximum number of attempts and escalation multiplier. */
  datatype Config = Config(contractAddress: string, gasLimit: int, feeInitial: int, maxAttempts: int, multiplier: Multiplier)

  /** `Compounder`: the configuration and the signing account. */
  datatype Compounder = Compounder(cfg: Config, account: Record)

  /** The chain's reply to a `SendMsg` with the given options at the given attempt. */
  type Chain = (SendMsgOptions, int) -> Reply

  /** `executeMessage`'s `(int64, string, error)` result. */
  datatype Outcome = Outcome(height: int, txHash: string, err: Option<string>)

  /** One run of the controller: the options of every `SendMsg` call, in
      order, and the outcome. */
  datatype Execution = Execution(calls: seq<SendMsgOptions>, outcome: Outcome)

  const InsufficientFeeText := "insufficient fee"
  const OutOfGasText := "out of gas"

  /** A send error that asks for a higher fee. */
  predicate InsufficientFee(reply: Reply) {
    reply.Err? && Contains(reply.text, InsufficientFeeText)
  }

  /** A committed transaction that failed for lack of gas. */
  predicate OutOfGas(reply: Reply) {
    reply.Resp? && reply.resp.code != 0 && Contains(reply.resp.rawLog, OutOfGasText)
  }

  /** The most `SendMsg` calls a run starting at `attempt` can make:
      max(1, maxAttempts - attempt + 1). */
  function CallBound(maxAttempts: int, attempt: int): (n: nat)
    ensures n >= 1
  {
    if attempt < maxAttempts then maxAttempts - attempt + 1 else 1
  }

  /** `executeMessage(options, attempt)`: send; on an "insufficient fee" error
      retry with the fee scaled, on a failed result whose log says "out of
      gas" retry with the gas limit scaled, while `attempt` is below the
      maximum; anything else ends the run. */
  function ExecuteMessage(cfg: Config, send: Chain, options: SendMsgOptions, attempt: int): (e: Execution)
    ensures 1 <= |e.calls| <= CallBound(cfg.maxAttempts, attempt)
    ensures e.calls[0] == options
    decreases if attempt < cfg.maxAttempts then cfg.maxAttempts - attempt else 0
  {
    match send(options, attempt)
    case Err(text) =>
      if Contains(text, InsufficientFeeText) then
        if attempt >= cfg.maxAttempts then Execution([options], Outcome(0, "", Some(text)))
        else
          var next := ExecuteMessage(cfg, send, options.(fee := ScaleCeil(options.fee, cfg.multiplier)), attempt + 1);
          Execution([options] + next.calls, next.outcome)
      else Execution([options], Outcome(0, "", Some(text)))
    case Resp(resp) =>
      if resp.code != 0 then
        if Contains(resp.rawLog, OutOfGasText) then
          if attempt >= cfg.maxAttempts then Execution([options], Outcome(resp.height, resp.txHash, Some(resp.rawLog)))
          else
            var next := ExecuteMessage(cfg, send, options.(gasLimit := ScaleCeil(options.gasLimit, cfg.multiplier)), attempt + 1);
            Execution([options] + next.calls, next.outcome)
        else Execution([options], Outcome(0, "", Some(resp.rawLog)))
      else Execution([options], Outcome(resp.height, resp.txHash, None))
  }

  /** Between two consecutive calls exactly one thing changes: after an
      "insufficient fee" reply the fee is scaled, after an "out of gas"
      result the gas limit is scaled; and a retry only happens below the
      maximum attempt. */
  lemma {:induction false} ExecuteMessageStep(cfg: Config, send: Chain, options: SendMsgOptions, attempt: int, i: nat)
    requires i + 1 < |ExecuteMessage(cfg, send, options, attempt).calls|
    ensures var calls := ExecuteMessage(cfg, send, options, attempt).calls;
      var reply := send(calls[i], attempt + i);
      && attempt + i < cfg.maxAttempts
      && (InsufficientFee(reply) ==> calls[i + 1] == calls[i].(fee := ScaleCeil(calls[i].fee, cfg.multiplier)))
      && (!InsufficientFee(reply) ==>
            OutOfGas(reply) && calls[i + 1] == calls[i].(gasLimit := ScaleCeil(calls[i].gasLimit, cfg.multiplier)))
    decreases i
  {
    var reply := send(options, attempt);
    if i > 0 {
      if InsufficientFee(reply) {
        ExecuteMessageStep(cfg, send, options.(fee := ScaleCeil(options.fee, cfg.multiplier)), attempt + 1, i - 1);
      } else {
        ExecuteMessageStep(cfg, send, options.(gasLimit := ScaleCeil(options.gasLimit, cfg.multiplier)), attempt + 1, i - 1);
      }
    }
  }

  /** Every call sends the same messages with the same signer. */
  lemma {:induction false} ExecuteMessageKeepsMessages(cfg: Config, send: Chain, options: SendMsgOptions, attempt: int, i: nat)
    requires i < |ExecuteMessage(cfg, send, options, attempt).calls|
    ensures var calls := ExecuteMessage(cfg, send, options, attempt).calls;
      calls[i].messages == options.messages && calls[i].signer == options.signer
    decreases i
  {
    var reply := send(options, attempt);
    if i > 0 {
      if InsufficientFee(reply) {
        ExecuteMessageKeepsMessages(cfg, send, options.(fee := ScaleCeil(options.fee, cfg.multiplier)), attempt + 1, i - 1);
      } else {
        ExecuteMessageKeepsMessages(cfg, send, options.(gasLimit := ScaleCeil(options.gasLimit, cfg.multiplier)), attempt + 1, i - 1);
      }
    }
  }

  /** The outcome is decided by the reply to the last call:
      - success gives its height and hash and no error;
      - an "insufficient fee" error or an "out of gas" result is the last
        call only once the attempts are exhausted (the run then made the
        most calls it can), and gives the error text, resp. the height, hash
        and log;
      - any other error, and any other failed result, gives no height, no
        hash and the error text, resp. the log. */
  lemma {:induction false} ExecuteMessageOutcome(cfg: Config, send: Chain, options: SendMsgOptions, attempt: int)
    ensures var e := ExecuteMessage(cfg, send, options, attempt);
      var n := |e.calls| - 1;
      var reply := send(e.calls[n], attempt + n);
      && (reply.Resp? && reply.resp.code == 0 ==> e.outcome == Outcome(reply.resp.height, reply.resp.txHash, None))
      && (InsufficientFee(reply) ==>
            attempt + n >= cfg.maxAttempts && |e.calls| == CallBound(cfg.maxAttempts, attempt) &&
            e.outcome == Outcome(0, "", Some(reply.text)))
      && (OutOfGas(reply) ==>
            attempt + n >= cfg.maxAttempts && |e.calls| == CallBound(cfg.maxAttempts, attempt) &&
            e.outcome == Outcome(reply.resp.height, reply.resp.txHash, Some(reply.resp.rawLog)))
      && (reply.Err? && !InsufficientFee(reply) ==> e.outcome == Outcome(0, "", Some(reply.text)))
      && (reply.Resp? && reply.resp.code != 0 && !OutOfGas(reply) ==> e.outcome == Outcome(0, "", Some(reply.resp.rawLog)))
    decreases if attempt < cfg.maxAttempts then cfg.maxAttempts - attempt else 0
  {
    var e := ExecuteMessage(cfg, send, options, attempt);
    var reply := send(options, attempt);
    if attempt < cfg.maxAttempts && (InsufficientFee(reply) || OutOfGas(reply)) {
      var next := if InsufficientFee(reply) then options.(fee := ScaleCeil(options.fee, cfg.multiplier))
                  else options.(gasLimit := ScaleCeil(options.gasLimit, cfg.multiplier));
      var e' := ExecuteMessage(cfg, send, next, attempt + 1);
      assert e.calls == [options] + e'.calls && e.outcome == e'.outcome;
      assert e.calls[|e.calls| - 1] == e'.calls[|e'.calls| - 1];
      ExecuteMessageOutcome(cfg, send, next, attempt + 1);
    }
  }

  /** The run succeeds (no error) exactly when the last call's reply is a
      committed transaction with code zero. */
  lemma ExecuteMessageSucceeds(cfg: Config, send: Chain, options: SendMsgOptions, attempt: int)
    ensures var e := ExecuteMessage(cfg, send, options, attempt);
      var n := |e.calls| - 1;
      var reply := send(e.calls[n], attempt + n);
      e.outcome.err.None? <==> reply.Resp? && reply.resp.code == 0
  {
    ExecuteMessageOutcome(cfg, send, options, attempt);
  }

  /** With a multiplier of at least one and a non-negative fee and gas limit
      in the first call, the fee and the gas limit never decrease from one
      call to the next. */
  lemma {:induction false} ExecuteMessageNeverLowers(cfg: Config, send: Chain, options: SendMsgOptions, attempt: int, i: nat)
    requires cfg.multiplier.den <= cfg.multiplier.num
    requires 0 <= options.fee && 0 <= options.gasLimit
    requires i + 1 < |ExecuteMessage(cfg, send, options, attempt).calls|
    ensures var calls := ExecuteMessage(cfg, send, options, attempt).calls;
      calls[i].fee <= calls[i + 1].fee && calls[i].gasLimit <= calls[i + 1].gasLimit
    decreases i
  {
    ScaleCeilNotBelow(options.fee, cfg.multiplier);
    ScaleCeilNotBelow(options.gasLimit, cfg.multiplier);
    if i == 0 {
      ExecuteMessageStep(cfg, send, options, attempt, 0);
    } else if InsufficientFee(send(options, attempt)) {
      ExecuteMessageNeverLowers(cfg, send, options.(fee := ScaleCeil(options.fee, cfg.multiplier)), attempt + 1, i - 1);
    } else {
      ExecuteMessageNeverLowers(cfg, send, options.(gasLimit := ScaleCeil(options.gasLimit, cfg.multiplier)), attempt + 1, i - 1);
    }
  }

  /** A run that starts with a zero fee sends a zero fee in every call: the
      ceiling of 0 times the multiplier is 0, so each "insufficient fee"
      retry repeats the same fee. */
  lemma {:induction false} ExecuteMessageZeroFeeStays(cfg: Config, send: Chain, options: SendMsgOptions, attempt: int, i: nat)
    requires options.fee == 0
    requires i < |ExecuteMessage(cfg, send, options, attempt).calls|
    ensures ExecuteMessage(cfg, send, options, attempt).calls[i].fee == 0
    decreases i
  {
    if i > 0 {
      var reply := send(options, attempt);
      assert ScaleCeil(0, cfg.multiplier) == 0;
      if InsufficientFee(reply) {
        ExecuteMessageZeroFeeStays(cfg, send, options.(fee := ScaleCeil(options.fee, cfg.multiplier)), attempt + 1, i - 1);
      } else {
        ExecuteMessageZeroFeeStays(cfg, send, options.(gasLimit := ScaleCeil(options.gasLimit, cfg.multiplier)), attempt + 1, i - 1);
      }
    }
  }

  /** `ClaimRewards`: send the contract's claim call from the account's
      address, starting the controller at attempt 1 with one message, the
      account as signer, the configured gas limit and the initial fee. The
      error it ends with is only logged. */
  function ClaimRewards(c: Compounder, send: Chain): (r: Call<Execution>)
    ensures r.Panicked? <==> c.account.address.Failure?
    ensures r.Returned? ==>
      var msg := MsgExecuteContract(c.account.address.value, c.cfg.contractAddress, ClaimRewardsCall, []);
      && r.value == ExecuteMessage(c.cfg, send, SendMsgOptions([msg], c.account, c.cfg.gasLimit, c.cfg.feeInitial), 1)
      && r.value.calls[0] == SendMsgOptions([msg], c.account, c.cfg.gasLimit, c.cfg.feeInitial)
      && 1 <= |r.value.calls| <= CallBound(c.cfg.maxAttempts, 1)
  {
    match MustGetAddress(c.account)
    case Panicked(p) => Panicked(p)
    case Returned(sender) =>
      var msg := MsgExecuteContract(sender, c.cfg.contractAddress, ClaimRewardsCall, []);
      Returned(ExecuteMessage(c.cfg, send, SendMsgOptions([msg], c.account, c.cfg.gasLimit, c.cfg.feeInitial), 1))
  }

  // ----- Compound -----

  const IndexOutOfRange := "index out of range"
  const SliceOutOfRange := "slice bounds out of range"

  /** One CSV row: the validator is field 0 and the share is field 1 parsed
      as a base-10 uint64; a share that does not parse makes the row
      contribute nothing; a row too short to index panics. */
  function ParseStakeRow(row: seq<string>): (r: Call<Option<StakeMsg>>)
    ensures r.Panicked? <==> |row| < 2
    ensures r.Returned? && r.value.Some? ==>
      ParseUint64(row[1]) == Some(r.value.value.share) && r.value.value.validator == row[0]
    ensures r.Returned? && r.value.None? ==> ParseUint64(row[1]).None?
  {
    if |row| < 2 then Panicked(IndexOutOfRange)
    else
      match ParseUint64(row[1])
      case None => Returned(None)
      case Some(share) => Returned(Some(StakeMsg(share, row[0])))
  }

  /** The stake messages of the data rows, in file order. */
  function ParseStakeRows(rows: seq<seq<string>>): (r: Call<seq<StakeMsg>>)
    ensures r.Returned? <==> forall i :: 0 <= i < |rows| ==> |rows[i]| >= 2
    ensures r.Returned? ==> |r.value| <= |rows|
    ensures r.Returned? ==> forall m :: m in r.value ==> m.share <= MaxUint64
  {
    if rows == [] then Returned([])
    else
      var init := rows[..|rows| - 1];
      assert forall i :: 0 <= i < |init| ==> init[i] == rows[i];
      match ParseStakeRows(init)
      case Panicked(p) => Panicked(p)
      case Returned(msgs) =>
        match ParseStakeRow(rows[|rows| - 1])
        case Panicked(p) => Panicked(p)
        case Returned(None) => Returned(msgs)
        case Returned(Some(m)) => Returned(msgs + [m])
  }

  /** Parsing a file in two parts: a panic in the first part is the result;
      otherwise the second part's messages follow the first part's. */
  lemma {:induction false} ParseStakeRowsAppend(a: seq<seq<string>>, b: seq<seq<string>>)
    ensures ParseStakeRows(a + b) ==
      match ParseStakeRows(a)
      case Panicked(p) => Panicked(p)
      case Returned(x) =>
        match ParseStakeRows(b)
        case Panicked(q) => Panicked(q)
        case Returned(y) => Returned(x + y)
  {
    if b == [] {
      assert a + b == a;
      match ParseStakeRows(a)
      case Panicked(p) =>
      case Returned(x) => assert x + [] == x;
    } else {
      var b' := b[..|b| - 1];
      var last := b[|b| - 1];
      assert (a + b)[..|a + b| - 1] == a + b';
      assert (a + b)[|a + b| - 1] == last;
      ParseStakeRowsAppend(a, b');
      match ParseStakeRows(a)
      case Panicked(p) =>
      case Returned(x) =>
        match ParseStakeRows(b')
        case Panicked(q) =>
        case Returned(y) =>
          match ParseStakeRow(last)
          case Panicked(q) =>
          case Returned(None) =>
          case Returned(Some(m)) => assert x + y + [m] == x + (y + [m]);
    }
  }

  /** A file of one data row. */
  lemma ParseSingleRow(row: seq<string>)
    ensures ParseStakeRows([row]) ==
      match ParseStakeRow(row)
      case Panicked(p) => Panicked(p)
      case Returned(None) => Returned([])
      case Returned(Some(m)) => Returned([m])
  {
    var rows: seq<seq<string>> := [row];
    var empty: seq<seq<string>> := [];
    assert rows[..|rows| - 1] == empty;
    assert rows[|rows| - 1] == row;
    assert ParseStakeRows(empty) == Returned([]);
    match ParseStakeRow(row)
    case Panicked(p) =>
    case Returned(None) =>
    case Returned(Some(m)) => assert [] + [m] == [m];
  }

  /** A row whose share does not parse is skipped and the rows after it are
      still read. */
  lemma SkipsUnparseableShare(a: seq<seq<string>>, row: seq<string>, b: seq<seq<string>>)
    requires |row| >= 2 && ParseUint64(row[1]).None?
    ensures ParseStakeRows(a + [row] + b) == ParseStakeRows(a + b)
  {
    ParseStakeRowsAppend(a + [row], b);
    ParseStakeRowsAppend(a, [row]);
    ParseStakeRowsAppend(a, b);
    ParseSingleRow(row);
    match ParseStakeRows(a)
    case Panicked(p) =>
    case Returned(x) => assert x + [] == x;
  }

  /** A row whose share parses contributes exactly one message, in its place. */
  lemma KeepsParsedShare(a: seq<seq<string>>, row: seq<string>, b: seq<seq<string>>, x: seq<StakeMsg>, y: seq<StakeMsg>)
    requires |row| >= 2 && ParseUint64(row[1]).Some?
    requires ParseStakeRows(a) == Returned(x) && ParseStakeRows(b) == Returned(y)
    ensures ParseStakeRows(a + [row] + b) == Returned(x + [StakeMsg(ParseUint64(row[1]).value, row[0])] + y)
  {
    ParseStakeRowsAppend(a + [row], b);
    ParseStakeRowsAppend(a, [row]);
    ParseSingleRow(row);
  }

  /** A header, two good rows and a malformed one between them give the two
      assignments in file order. */
  lemma ParseExampleFile()
    ensures var records := [["validator", "weight"], ["val1", "10"], ["val2", "x"], ["val3", "5"]];
      ParseStakeRows(records[1..]) == Returned([StakeMsg(10, "val1"), StakeMsg(5, "val3")])
  {
    var records := [["validator", "weight"], ["val1", "10"], ["val2", "x"], ["val3", "5"]];
    assert records[1..] == [["val1", "10"]] + [["val2", "x"]] + [["val3", "5"]];
    assert "10" == FormatDecimal(10);
    assert "5" == FormatDecimal(5);
    ParseFormatRoundTrip(10);
    ParseFormatRoundTrip(5);
    assert !IsDigits("x") by { assert !IsDigit("x"[0]); }
    ParseSingleRow(["val1", "10"]);
    ParseSingleRow(["val3", "5"]);
    SkipsUnparseableShare([["val1", "10"]], ["val2", "x"], [["val3", "5"]]);
    ParseStakeRowsAppend([["val1", "10"]], [["val3", "5"]]);
    assert ParseStakeRows([["val1", "10"]]) == Returned([StakeMsg(10, "val1")]);
    assert ParseStakeRows([["val3", "5"]]) == Returned([StakeMsg(5, "val3")]);
    assert [StakeMsg(10, "val1")] + [StakeMsg(5, "val3")] == [StakeMsg(10, "val1"), StakeMsg(5, "val3")];
  }

  /** `balance.AmountOf(denom)`. */
  function AmountOf(balance: map<string, nat>, denom: string): (amount: nat) {
    if denom in balance then balance[denom] else 0
  }

  /** The staking denomination whose balance `Compound` reads. */
  const Unibi := "unibi"

  /** The amount `Compound` keeps back for fees: one unibi. */
  const FeeReserve: nat := 1

  /** What one `Compound` call did. */
  datatype CompoundRun =
    | InsufficientBalance(unibi: nat)
    | CsvUnreadable(error: string)
    | Aborted(reason: string)
    | Submitted(stakeMsgs: seq<StakeMsg>, execution: Execution)

  /** `Compound`: give up when the unibi balance minus the fee reserve is
      negative; otherwise read the CSV file (`csv`: the records or the error
      of opening or reading it), skip the header, turn each data row into a
      stake message, and send them all in one contract call through the
      controller, starting at attempt 1. */
  method Compound(c: Compounder, balance: map<string, nat>, csv: Result<seq<seq<string>>>, send: Chain)
    returns (run: CompoundRun)
    ensures c.account.address.Failure? ==> run == Aborted(c.account.address.error)
    ensures c.account.address.Success? && AmountOf(balance, Unibi) < FeeReserve ==>
      run == InsufficientBalance(AmountOf(balance, Unibi))
    ensures c.account.address.Success? && AmountOf(balance, Unibi) >= FeeReserve ==>
      match csv
      case Failure(e) => run == CsvUnreadable(e)
      case Success(records) =>
        if records == [] then run == Aborted(SliceOutOfRange)
        else
          match ParseStakeRows(records[1..])
          case Panicked(p) => run == Aborted(p)
          case Returned(msgs) =>
            var msg := MsgExecuteContract(c.account.address.value, c.cfg.contractAddress, StakeCall(msgs), []);
            run == Submitted(msgs, ExecuteMessage(c.cfg, send, SendMsgOptions([msg], c.account, c.cfg.gasLimit, c.cfg.feeInitial), 1))
    ensures run.Submitted? ==> AmountOf(balance, Unibi) > 0 && |run.execution.calls| <= CallBound(c.cfg.maxAttempts, 1)
  {
    var sender := MustGetAddress(c.account);
    if sender.Panicked? {
      return Aborted(sender.reason);
    }
    var stakeAmount := AmountOf(balance, Unibi) - FeeReserve;
    if stakeAmount < 0 {
      return InsufficientBalance(AmountOf(balance, Unibi));
    }
    if csv.Failure? {
      return CsvUnreadable(csv.error);
    }
    var records := csv.value;
    if records == [] {
      return Aborted(SliceOutOfRange);
    }
    var rows := records[1..];
    var stakeMsgs: seq<StakeMsg> := [];
    var i := 0;
    while i < |rows|
      invariant i <= |rows|
      invariant ParseStakeRows(rows[..i]) == Returned(stakeMsgs)
    {
      var record := rows[i];
      assert rows[..i + 1] == rows[..i] + [record];
      ParseStakeRowsAppend(rows[..i], [record]);
      var single: seq<seq<string>> := [record];
      assert single[..0] == [];
      if |record| < 2 {
        assert rows == rows[..i + 1] + rows[i + 1..];
        ParseStakeRowsAppend(rows[..i + 1], rows[i + 1..]);
        return Aborted(IndexOutOfRange);
      }
      var validatorAddress := record[0];
      var share := ParseUint64(record[1]);
      if share.None? {
        i := i + 1;
        continue;
      }
      stakeMsgs := stakeMsgs + [StakeMsg(share.value, validatorAddress)];
      i := i + 1;
    }
    assert rows[..i] == rows;
    var msg := MsgExecuteContract(sender.value, c.cfg.contractAddress, StakeCall(stakeMsgs), []);
    var options := SendMsgOptions([msg], c.account, c.cfg.gasLimit, c.cfg.feeInitial);
    return Submitted(stakeMsgs, ExecuteMessage(c.cfg, send, options, 1));
  }
}
