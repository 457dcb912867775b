/** The chain messages the agent builds. The JSON encoding of the contract
    payload is not modelled: the payload is kept as a structured value. */
module Messages {

  /** `sdk.Coin`: an amount of one denomination. */
  datatype Coin = Coin(denom: string, amount: nat)

  /** One stake assignment read from the CSV file: a validator and its share. */
  datatype StakeMsg = StakeMsg(share: nat, validator: string)

  /** The two contract calls: `{"claim_rewards": {}}` and
      `{"stake": {"stake_msgs": [...]}}`. */
  datatype ContractCall = ClaimRewardsCall | StakeCall(stakeMsgs: seq<StakeMsg>)

  /** `wasmtypes.MsgExecuteContract`: a contract call sent by `sender`. */
  datatype Msg = MsgExecuteContract(sender: string, contract: string, call: ContractCall, funds: seq<Coin>)
}
