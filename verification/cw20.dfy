/** A token whose balances are kept by an external cw20 contract. */
module Cw20 {
  import opened Results
  import opened Json
  import opened Numeric
  import opened Host

  datatype Cw20Token = Cw20Token(address: Addr)

  function New(address: Addr): (t: Cw20Token)
    ensures t.address == address
    ensures Encode(t) == JStr(address)
  {
    Cw20Token(address)
  }

  /** Serialised as the bare contract address string, not as an object. */
  function Encode(t: Cw20Token): (j: JValue)
    ensures j.JStr? && j.str == t.address
    ensures Decode(j) == Ok(t)
  {
    JStr(t.address)
  }

  /** Deserialised from any JSON string, taken unchecked as the address. */
  function Decode(j: JValue): (r: Result<Cw20Token, DecodeError>)
    ensures r.Ok? <==> j.JStr?
    ensures r.Ok? ==> r.value.address == j.str
    ensures r.Err? ==> r.error == InvalidType("a string")
  {
    match j
    case JStr(s) => Ok(Cw20Token(s))
    case _ => Err(InvalidType("a string"))
  }

  /** Decoding succeeds only on the encoding of what it returns. */
  lemma DecodeOnlyEncodings(j: JValue, t: Cw20Token)
    ensures Decode(j) == Ok(t) <==> j == Encode(t)
  {
  }

  /** Executes `transfer_from` on the token contract, attaching no funds. */
  function TransferFrom(t: Cw20Token, owner: Addr, recipient: Addr, amount: Uint128): (r: StdResult<CosmosMsg>)
    ensures r.Ok? && r.value.WasmExecute?
    ensures r.value.contractAddr == t.address && r.value.funds == []
    ensures r.value.msg == Cw20ExecuteMsg.TransferFrom(owner, recipient, amount)
  {
    Ok(WasmExecute(t.address, Cw20ExecuteMsg.TransferFrom(owner, recipient, amount), []))
  }

  /** Executes `transfer` on the token contract, attaching no funds. */
  function Send(t: Cw20Token, target: Addr, amount: Uint128): (r: StdResult<CosmosMsg>)
    ensures r.Ok? && r.value.WasmExecute?
    ensures r.value.contractAddr == t.address && r.value.funds == []
    ensures r.value.msg == Transfer(target, amount)
  {
    Ok(WasmExecute(t.address, Transfer(target, amount), []))
  }

  /** Executes `burn` on the token contract, attaching no funds. */
  function Burn(t: Cw20Token, amount: Uint128): (r: StdResult<CosmosMsg>)
    ensures r.Ok? && r.value.WasmExecute?
    ensures r.value.contractAddr == t.address && r.value.funds == []
    ensures r.value.msg == Cw20ExecuteMsg.Burn(amount)
  {
    Ok(WasmExecute(t.address, Cw20ExecuteMsg.Burn(amount), []))
  }

  /** Every `balance` entry among `entries` holds a readable `Uint128`. */
  predicate BalanceValuesReadable(entries: seq<(string, JValue)>) {
    forall i :: 0 <= i < |entries| && entries[i].0 == "balance" ==> DecodeUint128(entries[i].1).Ok?
  }

  /** Consumes the entries of a balance response in order: the `balance` entry
      is read once (a second one is an error), every other entry is skipped. */
  function DecodeBalanceEntries(entries: seq<(string, JValue)>, seen: Option<Uint128>): (r: Result<Option<Uint128>, DecodeError>)
    ensures CountKey(entries, "balance") == 0 ==> r == Ok(seen)
    ensures r.Ok? ==> CountKey(entries, "balance") + (if seen.Some? then 1 else 0) <= 1
    ensures r.Ok? && seen.Some? ==> r.value == seen
    ensures r.Ok? && r.value.None? ==> seen.None? && CountKey(entries, "balance") == 0
    ensures r.Ok? && r.value.Some? && seen.None? ==>
      exists i :: 0 <= i < |entries| && entries[i].0 == "balance" && DecodeUint128(entries[i].1) == Ok(r.value.value)
    ensures CountKey(entries, "balance") + (if seen.Some? then 1 else 0) <= 1 && BalanceValuesReadable(entries)
      ==> r.Ok?
    decreases |entries|
  {
    if |entries| == 0 then Ok(seen)
    else if entries[0].0 == "balance" then
      if seen.Some? then Err(DuplicateField("balance"))
      else
        var n :- DecodeUint128(entries[0].1);
        DecodeBalanceEntries(entries[1..], Some(n))
    else DecodeBalanceEntries(entries[1..], seen)
  }

  /** The minimal balance response, read as `cosmwasm_std::from_json` reads a
      struct: an object whose one required field is `balance`; any other field
      is ignored. The read value is the one the `balance` field holds. */
  function DecodeBalanceResponse(j: JValue): (r: Result<Uint128, DecodeError>)
    ensures r.Ok? ==> j.JObj? && CountKey(j.entries, "balance") == 1
    ensures r.Ok? ==> exists i :: 0 <= i < |j.entries| && j.entries[i].0 == "balance" && DecodeUint128(j.entries[i].1) == r
    ensures j.JObj? && CountKey(j.entries, "balance") == 1 && BalanceValuesReadable(j.entries) ==> r.Ok?
    ensures j.JObj? && CountKey(j.entries, "balance") == 0 ==> r == Err(MissingField("balance"))
  {
    match j
    case JObj(entries) =>
      var seen :- DecodeBalanceEntries(entries, None);
      if seen.None? then Err(MissingField("balance")) else Ok(seen.value)
    case _ => Err(InvalidType("a balance response"))
  }

  /** No entry of `entries` is named `balance`. */
  predicate OnlyOtherFields(entries: seq<(string, JValue)>) {
    forall i :: 0 <= i < |entries| ==> entries[i].0 != "balance"
  }

  /** Fields other than `balance` in the response do not affect the result. */
  lemma BalanceIgnoresOtherFields(before: seq<(string, JValue)>, after: seq<(string, JValue)>, n: Uint128)
    requires OnlyOtherFields(before) && OnlyOtherFields(after)
    ensures DecodeBalanceResponse(JObj(before + [("balance", EncodeUint128(n))] + after)) == Ok(n)
  {
    var entry := ("balance", EncodeUint128(n));
    var tail := [entry] + after;
    assert before + [entry] + after == before + tail;
    SkipUnrelated(before, tail, None);
    assert tail[0] == entry && tail[1..] == after;
    assert DecodeBalanceEntries(tail, None) == DecodeBalanceEntries(after, Some(n));
    SkipUnrelated(after, [], Some(n));
    assert after + [] == after;
    assert DecodeBalanceEntries(before + tail, None) == Ok(Some(n));
  }

  /** Entries without a `balance` key are skipped over. */
  lemma {:induction false} SkipUnrelated(skipped: seq<(string, JValue)>, rest: seq<(string, JValue)>, seen: Option<Uint128>)
    requires OnlyOtherFields(skipped)
    ensures DecodeBalanceEntries(skipped + rest, seen) == DecodeBalanceEntries(rest, seen)
    decreases |skipped|
  {
    if |skipped| > 0 {
      assert skipped[0].0 != "balance";
      assert (skipped + rest)[1..] == skipped[1..] + rest;
      assert OnlyOtherFields(skipped[1..]) by {
        forall i | 0 <= i < |skipped| - 1 ensures skipped[1..][i] == skipped[i + 1] { }
      }
      SkipUnrelated(skipped[1..], rest, seen);
    } else {
      assert skipped + rest == rest;
    }
  }

  /** The balance of `address` held by this token contract: one smart query to
      the contract with `balance { address }`, reduced to its `balance` field;
      a query error is passed on unchanged, a malformed response is a parse error. */
  function Balance(t: Cw20Token, address: Addr, deps: Querier): (r: StdResult<Uint128>)
    ensures var q := deps.queryWasmSmart(t.address, BalanceQuery(address));
      && (q.Err? ==> r == Err(q.error))
      && (q.Ok? && DecodeBalanceResponse(q.value).Err? ==> r == Err(ParseErr(DecodeBalanceResponse(q.value).error)))
      && (q.Ok? && DecodeBalanceResponse(q.value).Ok? ==> r == Ok(DecodeBalanceResponse(q.value).value))
  {
    match deps.queryWasmSmart(t.address, BalanceQuery(address))
    case Err(e) => Err(e)
    case Ok(response) =>
      match DecodeBalanceResponse(response)
      case Ok(n) => Ok(n)
      case Err(e) => Err(ParseErr(e))
  }

  /** The audit-log attributes: the kind tag `cw20`, then the contract address. */
  function Attributes(t: Cw20Token): (attrs: seq<Attribute>)
    ensures |attrs| == 2
    ensures attrs[0] == Attribute("type", "cw20")
    ensures attrs[1] == Attribute("address", t.address)
  {
    [Attribute("type", "cw20"), Attribute("address", t.address)]
  }
}
