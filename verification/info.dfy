/** The closed set of token kinds, its persistence key, its tagged JSON form,
    and dispatch of the token operations to whichever kind it holds. */
module Info {
  import opened Results
  import opened Json
  import opened Numeric
  import opened Host
  import N = Native
  import C = Cw20

  datatype TokenInfo = Cw20(cw20: C.Cw20Token) | Native(native: N.NativeToken)

  type U8 = x: int | 0 <= x < 256

  /** The persistence key: a one-byte discriminant and the identifying string. */
  type TokenKey = (U8, string)

  function NewCw20(address: Addr): (info: TokenInfo)
    ensures info.Cw20? && info.cw20.address == address
    ensures Key(info) == (0, address)
  {
    Cw20(C.New(address))
  }

  function NewNative(denom: string): (info: TokenInfo)
    ensures info.Native? && info.native.denom == denom
    ensures Key(info) == (1, denom)
  {
    Native(N.New(denom))
  }

  /** Discriminant 0 with the contract address for cw20, 1 with the denomination
      for native; reading the key back gives the same token kind. */
  function Key(info: TokenInfo): (k: TokenKey)
    ensures k.0 == 0 || k.0 == 1
    ensures info.Cw20? ==> k == (0, info.cw20.address)
    ensures info.Native? ==> k == (1, info.native.denom)
    ensures FromKey(k) == info
  {
    match info
    case Cw20(t) => (0, t.address)
    case Native(t) => (1, t.denom)
  }

  /** Total: discriminant 0 is cw20 and every other discriminant falls back to
      native, so an unknown discriminant is never reported. */
  function FromKey(k: TokenKey): (info: TokenInfo)
    ensures info.Cw20? <==> k.0 == 0
    ensures info.Cw20? ==> info.cw20.address == k.1
    ensures info.Native? ==> info.native.denom == k.1
  {
    var (id, data) := k;
    if id == 0 then Cw20(C.New(data)) else Native(N.New(data))
  }

  /** The key survives a trip through `FromKey` exactly when its discriminant
      is 0 or 1: the fallback folds every other discriminant onto 1. */
  lemma KeyOfFromKey(k: TokenKey)
    ensures Key(FromKey(k)) == k <==> k.0 <= 1
    ensures k.0 != 0 ==> Key(FromKey(k)) == (1, k.1)
  {
  }

  /** `FromKey` is not injective: discriminants 1 and 2 name the same native token. */
  lemma FromKeyNotInjective(s: string)
    ensures (2, s) != (1, s) && FromKey((2, s)) == FromKey((1, s))
  {
  }

  /** Decodes the value under a known tag. */
  function DecodeVariant(tag: string, v: JValue): (r: Result<TokenInfo, DecodeError>)
    ensures r.Ok? <==> (tag == "cw20" || tag == "native") && v.JStr?
    ensures r.Ok? ==> Key(r.value) == (if tag == "cw20" then 0 else 1, v.str)
  {
    if tag == "cw20" then
      var t :- C.Decode(v);
      Ok(Cw20(t))
    else if tag == "native" then
      var t :- N.Decode(v);
      Ok(Native(t))
    else Err(UnknownVariant(tag))
  }

  /** The externally tagged form: a one-entry object `{"cw20": address}` or
      `{"native": denom}`. */
  function Encode(info: TokenInfo): (j: JValue)
    ensures j.JObj? && |j.entries| == 1
    ensures j.entries[0].0 == (if info.Cw20? then "cw20" else "native")
    ensures j.entries[0].1 == JStr(Key(info).1)
    ensures Decode(j) == Ok(info)
  {
    match info
    case Cw20(t) => JObj([("cw20", C.Encode(t))])
    case Native(t) => JObj([("native", N.Encode(t))])
  }

  /** Accepts exactly a one-entry object whose tag is `cw20` or `native` and
      whose value is a string: an empty object, an unknown tag, a value of
      another kind, a second entry, or a bare tag string are all refused. */
  function Decode(j: JValue): (r: Result<TokenInfo, DecodeError>)
    ensures r.Ok? <==>
      && j.JObj? && |j.entries| == 1
      && (j.entries[0].0 == "cw20" || j.entries[0].0 == "native")
      && j.entries[0].1.JStr?
    ensures j.JObj? && |j.entries| == 0 ==> r == Err(ExpectedEnumEntry)
    ensures j.JObj? && |j.entries| > 0 && j.entries[0].0 != "cw20" && j.entries[0].0 != "native"
      ==> r == Err(UnknownVariant(j.entries[0].0))
    ensures r.Ok? ==> Key(r.value) == (if j.entries[0].0 == "cw20" then 0 else 1, j.entries[0].1.str)
  {
    match j
    case JObj(entries) =>
      if |entries| == 0 then Err(ExpectedEnumEntry)
      else
        var info :- DecodeVariant(entries[0].0, entries[0].1);
        if |entries| > 1 then Err(TrailingEntries) else Ok(info)
    case JStr(tag) =>
      if tag == "cw20" || tag == "native" then Err(InvalidType("a newtype variant"))
      else Err(UnknownVariant(tag))
    case _ => Err(InvalidType("an enum"))
  }

  /** The two kinds written with the same string differ only in their tag. */
  lemma EncodingExamples()
    ensures Encode(NewCw20("some_token")) == JObj([("cw20", JStr("some_token"))])
    ensures Encode(NewNative("some_token")) == JObj([("native", JStr("some_token"))])
  {
  }

  /** Decoding succeeds only on the encoding of what it returns. */
  lemma DecodeOnlyEncodings(j: JValue, info: TokenInfo)
    ensures Decode(j) == Ok(info) <==> j == Encode(info)
  {
  }

  function Send(info: TokenInfo, target: Addr, amount: Uint128): (r: StdResult<CosmosMsg>)
    ensures r.Ok?
    ensures r.value.WasmExecute? <==> info.Cw20?
    ensures info.Cw20? ==> r.value.contractAddr == info.cw20.address
  {
    match info
    case Cw20(t) => C.Send(t, target, amount)
    case Native(t) => N.Send(t, target, amount)
  }

  function Burn(info: TokenInfo, amount: Uint128): (r: StdResult<CosmosMsg>)
    ensures r.Ok?
    ensures r.value.WasmExecute? <==> info.Cw20?
    ensures info.Cw20? ==> r.value.contractAddr == info.cw20.address
  {
    match info
    case Cw20(t) => C.Burn(t, amount)
    case Native(t) => N.Burn(t, amount)
  }

  function Balance(info: TokenInfo, address: Addr, deps: Querier): (r: StdResult<Uint128>)
    ensures info.Native? ==> (r.Ok? <==> deps.queryBalance(address, info.native.denom).Ok?)
    ensures info.Cw20? && deps.queryWasmSmart(info.cw20.address, BalanceQuery(address)).Err?
      ==> r == Err(deps.queryWasmSmart(info.cw20.address, BalanceQuery(address)).error)
  {
    match info
    case Cw20(t) => C.Balance(t, address, deps)
    case Native(t) => N.Balance(t, address, deps)
  }

  /** Two attributes; the `type` tag tells the kinds apart and the second value
      is the same identifying string the persistence key carries. */
  function Attributes(info: TokenInfo): (attrs: seq<Attribute>)
    ensures |attrs| == 2 && attrs[0].key == "type"
    ensures attrs[0].value == "cw20" <==> info.Cw20?
    ensures attrs[0].value == "native" <==> info.Native?
    ensures attrs[1].key == (if info.Cw20? then "address" else "denom")
    ensures attrs[1].value == Key(info).1
  {
    match info
    case Cw20(t) => C.Attributes(t)
    case Native(t) => N.Attributes(t)
  }

  /** Dispatch adds no logic: each operation returns the held kind's result
      for the same arguments. */
  lemma DispatchForwards(info: TokenInfo, target: Addr, amount: Uint128, deps: Querier)
    ensures info.Cw20? ==>
      && Send(info, target, amount) == C.Send(info.cw20, target, amount)
      && Burn(info, amount) == C.Burn(info.cw20, amount)
      && Balance(info, target, deps) == C.Balance(info.cw20, target, deps)
      && Attributes(info) == C.Attributes(info.cw20)
    ensures info.Native? ==>
      && Send(info, target, amount) == N.Send(info.native, target, amount)
      && Burn(info, amount) == N.Burn(info.native, amount)
      && Balance(info, target, deps) == N.Balance(info.native, target, deps)
      && Attributes(info) == N.Attributes(info.native)
  {
  }

  /** The log attributes identify the token: distinct tokens log differently. */
  lemma AttributesInjective(a: TokenInfo, b: TokenInfo)
    ensures Attributes(a) == Attributes(b) <==> a == b
  {
  }
}
