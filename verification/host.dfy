/** The host-environment values the token layer builds and reads: addresses,
    coins, log attributes, outbound messages with their cw20 payloads, the
    standard error, and the read-only query capability. */
module Host {
  import opened Results
  import opened Json
  import opened Numeric

  /** `Addr::unchecked` performs no validation, so an address is any string. */
  type Addr = string

  datatype Coin = Coin(denom: string, amount: Uint128)

  /** One key/value pair of an audit-log event. */
  datatype Attribute = Attribute(key: string, value: string)

  /** The execute messages of the cw20 token protocol this layer sends. */
  datatype Cw20ExecuteMsg =
    | Transfer(recipient: Addr, amount: Uint128)
    | TransferFrom(owner: Addr, recipient: Addr, amount: Uint128)
    | Burn(amount: Uint128)

  /** The cw20 query this layer makes. */
  datatype Cw20QueryMsg = BalanceQuery(address: Addr)

  /** The outbound messages this layer can produce. */
  datatype CosmosMsg =
    | BankSend(toAddress: Addr, coins: seq<Coin>)
    | BankBurn(coins: seq<Coin>)
    | WasmExecute(contractAddr: Addr, msg: Cw20ExecuteMsg, funds: seq<Coin>)

  datatype StdError =
    | ParseErr(cause: DecodeError)   // a document did not have the expected shape
    | QueryErr(reason: string)       // the queried collaborator failed; opaque here

  type StdResult<T> = Result<T, StdError>

  /** The read-only query capability handed in by the environment: a bank
      balance lookup by (address, denomination), and a smart query to a
      contract that answers with a JSON document. */
  datatype Querier = Querier(
    queryBalance: (Addr, string) -> StdResult<Coin>,
    queryWasmSmart: (Addr, Cw20QueryMsg) -> StdResult<JValue>)
}
