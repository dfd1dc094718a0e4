/** A token held natively by the ledger under a denomination. */
module Native {
  import opened Results
  import opened Json
  import opened Numeric
  import opened Host

  datatype NativeToken = NativeToken(denom: string)

  function New(denom: string): (t: NativeToken)
    ensures t.denom == denom
    ensures Encode(t) == JStr(denom)
  {
    NativeToken(denom)
  }

  /** Serialised as the bare denomination string, not as an object. */
  function Encode(t: NativeToken): (j: JValue)
    ensures j.JStr? && j.str == t.denom
    ensures Decode(j) == Ok(t)
  {
    JStr(t.denom)
  }

  /** Deserialised from any JSON string, which becomes the denomination. */
  function Decode(j: JValue): (r: Result<NativeToken, DecodeError>)
    ensures r.Ok? <==> j.JStr?
    ensures r.Ok? ==> r.value.denom == j.str
    ensures r.Err? ==> r.error == InvalidType("a string")
  {
    match j
    case JStr(s) => Ok(NativeToken(s))
    case _ => Err(InvalidType("a string"))
  }

  /** Decoding succeeds only on the encoding of what it returns. */
  lemma DecodeOnlyEncodings(j: JValue, t: NativeToken)
    ensures Decode(j) == Ok(t) <==> j == Encode(t)
  {
  }

  /** A bank transfer of exactly one coin of this denomination. */
  function Send(t: NativeToken, target: Addr, amount: Uint128): (r: StdResult<CosmosMsg>)
    ensures r.Ok? && r.value.BankSend?
    ensures r.value.toAddress == target
    ensures r.value.coins == [Coin(t.denom, amount)]
  {
    Ok(BankSend(target, [Coin(t.denom, amount)]))
  }

  /** A bank burn of exactly one coin of this denomination; it names no recipient. */
  function Burn(t: NativeToken, amount: Uint128): (r: StdResult<CosmosMsg>)
    ensures r.Ok? && r.value.BankBurn?
    ensures r.value.coins == [Coin(t.denom, amount)]
  {
    Ok(BankBurn([Coin(t.denom, amount)]))
  }

  /** The bank balance of `address` in this denomination: the amount of the
      coin the querier answers with, or the querier's error unchanged. */
  function Balance(t: NativeToken, address: Addr, deps: Querier): (r: StdResult<Uint128>)
    ensures r.Ok? <==> deps.queryBalance(address, t.denom).Ok?
    ensures r.Ok? ==> r.value == deps.queryBalance(address, t.denom).value.amount
    ensures r.Err? ==> r.error == deps.queryBalance(address, t.denom).error
  {
    match deps.queryBalance(address, t.denom)
    case Ok(coin) => Ok(coin.amount)
    case Err(e) => Err(e)
  }

  /** The audit-log attributes: the kind tag, then the denomination. */
  function Attributes(t: NativeToken): (attrs: seq<Attribute>)
    ensures |attrs| == 2
    ensures attrs[0] == Attribute("type", "native")
    ensures attrs[1] == Attribute("denom", t.denom)
  {
    [Attribute("type", "native"), Attribute("denom", t.denom)]
  }
}
