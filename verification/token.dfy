/** A token kind paired with an amount: the unit calling code passes around. */
module Token {
  import opened Results
  import opened Json
  import opened Numeric
  import opened Host
  import I = Info
  import N = Native
  import opened Ledger

  datatype Token = Token(info: I.TokenInfo, amount: Uint128)

  /** A bank coin always becomes a native token of the same denomination and amount. */
  function FromCoin(c: Coin): (t: Token)
    ensures t.info.Native? && t.info.native.denom == c.denom
    ensures t.amount == c.amount
  {
    Token(I.NewNative(c.denom), c.amount)
  }

  /** Sending a token made from a coin sends exactly that coin. */
  lemma FromCoinSendsCoin(c: Coin, target: Addr)
    ensures Send(FromCoin(c), target) == Ok(BankSend(target, [c]))
  {
  }

  /** Moves the whole amount of this token to `target`. */
  function Send(t: Token, target: Addr): (r: StdResult<CosmosMsg>)
    ensures r.Ok? && Meaning(r.value) == Some(Move(t.info, target, t.amount))
  {
    SendMeaning(t.info, target, t.amount);
    I.Send(t.info, target, t.amount)
  }

  /** Destroys the whole amount of this token. */
  function Burn(t: Token): (r: StdResult<CosmosMsg>)
    ensures r.Ok? && Meaning(r.value) == Some(Destroy(t.info, t.amount))
  {
    BurnMeaning(t.info, t.amount);
    I.Burn(t.info, t.amount)
  }

  /** The kind's attributes unchanged, then one `amount` attribute whose value
      is the canonical decimal numeral that reads back as the amount. */
  function Attributes(t: Token): (attrs: seq<Attribute>)
    ensures |attrs| == |I.Attributes(t.info)| + 1
    ensures attrs[..|attrs| - 1] == I.Attributes(t.info)
    ensures attrs[|attrs| - 1].key == "amount"
    ensures Canonical(attrs[|attrs| - 1].value)
    ensures ParseUint128(attrs[|attrs| - 1].value) == Ok(t.amount)
  {
    ParseDecimal(t.amount);
    I.Attributes(t.info) + [Attribute("amount", Decimal(t.amount))]
  }

  /** The log attributes identify both the token and the amount. */
  lemma AttributesInjective(a: Token, b: Token)
    ensures Attributes(a) == Attributes(b) <==> a == b
  {
  }

  /** The key of the token kind; the amount plays no part, and reading the key
      back with the same amount gives the token again. */
  function Key(t: Token): (k: I.TokenKey)
    ensures k == I.Key(t.info)
    ensures FromKey(k, t.amount) == t
  {
    I.Key(t.info)
  }

  /** Tokens of the same kind share a key whatever their amounts. */
  lemma KeyIgnoresAmount(t: Token, u: Token)
    ensures Key(t) == Key(u) <==> t.info == u.info
  {
  }

  /** Rebuilds the token kind from the key and carries `amount` through unchanged. */
  function FromKey(k: I.TokenKey, amount: Uint128): (t: Token)
    ensures t.amount == amount
    ensures t.info == I.FromKey(k)
    ensures t.info.Cw20? <==> k.0 == 0
  {
    Token(I.FromKey(k), amount)
  }

  /** The derived struct form: `{"info": <kind>, "amount": "<decimal>"}`. */
  function Encode(t: Token): (j: JValue)
    ensures j.JObj? && |j.entries| == 2
    ensures j.entries[0] == ("info", I.Encode(t.info))
    ensures j.entries[1].0 == "amount" && j.entries[1].1 == JStr(Decimal(t.amount))
    ensures Decode(j) == Ok(t)
  {
    var entries := [("info", I.Encode(t.info)), ("amount", EncodeUint128(t.amount))];
    var full := Fields(Some(t.info), Some(t.amount));
    assert entries[1..][1..] == [];
    assert DecodeFields(entries[1..], Fields(Some(t.info), None)) == Ok(full);
    assert DecodeFields(entries, Fields(None, None)) == Ok(full);
    JObj(entries)
  }

  /** The fields read so far while walking an object. */
  datatype Fields = Fields(info: Option<I.TokenInfo>, amount: Option<Uint128>)

  /** Every `info` entry holds a readable token kind and every `amount` entry a readable `Uint128`. */
  predicate FieldValuesReadable(entries: seq<(string, JValue)>) {
    && (forall i :: 0 <= i < |entries| && entries[i].0 == "info" ==> I.Decode(entries[i].1).Ok?)
    && (forall i :: 0 <= i < |entries| && entries[i].0 == "amount" ==> DecodeUint128(entries[i].1).Ok?)
  }

  /** Walks the entries in order: a known field seen twice is an error, a value
      that does not decode is that value's error, unknown fields are skipped. */
  function DecodeFields(entries: seq<(string, JValue)>, acc: Fields): (r: Result<Fields, DecodeError>)
    ensures CountKey(entries, "info") == 0 && CountKey(entries, "amount") == 0 ==> r == Ok(acc)
    ensures r.Ok? ==> CountKey(entries, "info") + (if acc.info.Some? then 1 else 0) <= 1
    ensures r.Ok? ==> CountKey(entries, "amount") + (if acc.amount.Some? then 1 else 0) <= 1
    ensures r.Ok? ==> (r.value.info.Some? <==> acc.info.Some? || CountKey(entries, "info") > 0)
    ensures r.Ok? ==> (r.value.amount.Some? <==> acc.amount.Some? || CountKey(entries, "amount") > 0)
    ensures r.Ok? && acc.info.Some? ==> r.value.info == acc.info
    ensures r.Ok? && acc.amount.Some? ==> r.value.amount == acc.amount
    ensures r.Ok? && acc.info.None? && r.value.info.Some? ==>
      exists i :: 0 <= i < |entries| && entries[i].0 == "info" && I.Decode(entries[i].1) == Ok(r.value.info.value)
    ensures r.Ok? && acc.amount.None? && r.value.amount.Some? ==>
      exists i :: 0 <= i < |entries| && entries[i].0 == "amount" && DecodeUint128(entries[i].1) == Ok(r.value.amount.value)
    ensures && CountKey(entries, "info") + (if acc.info.Some? then 1 else 0) <= 1
            && CountKey(entries, "amount") + (if acc.amount.Some? then 1 else 0) <= 1
            && FieldValuesReadable(entries)
      ==> r.Ok?
    decreases |entries|
  {
    if |entries| == 0 then Ok(acc)
    else
      var (key, v) := entries[0];
      if key == "info" then
        if acc.info.Some? then Err(DuplicateField("info"))
        else
          var info :- I.Decode(v);
          DecodeFields(entries[1..], acc.(info := Some(info)))
      else if key == "amount" then
        if acc.amount.Some? then Err(DuplicateField("amount"))
        else
          var amount :- DecodeUint128(v);
          DecodeFields(entries[1..], acc.(amount := Some(amount)))
      else DecodeFields(entries[1..], acc)
  }

  /** Accepts an object carrying each of `info` and `amount` exactly once, in
      any order and beside any other fields, or the two-element array form. */
  function Decode(j: JValue): (r: Result<Token, DecodeError>)
    ensures r.Ok? ==> j.JObj? || (j.JArr? && |j.items| == 2)
    ensures r.Ok? && j.JObj? ==> CountKey(j.entries, "info") == 1 && CountKey(j.entries, "amount") == 1
    ensures r.Ok? && j.JObj? ==>
      && (exists i :: 0 <= i < |j.entries| && j.entries[i].0 == "info" && I.Decode(j.entries[i].1) == Ok(r.value.info))
      && (exists i :: 0 <= i < |j.entries| && j.entries[i].0 == "amount" && DecodeUint128(j.entries[i].1) == Ok(r.value.amount))
    ensures r.Ok? && j.JArr? ==> I.Decode(j.items[0]) == Ok(r.value.info) && DecodeUint128(j.items[1]) == Ok(r.value.amount)
    ensures j.JObj? && CountKey(j.entries, "info") == 1 && CountKey(j.entries, "amount") == 1 && FieldValuesReadable(j.entries)
      ==> r.Ok?
    ensures j.JObj? && CountKey(j.entries, "info") == 0 && DecodeFields(j.entries, Fields(None, None)).Ok?
      ==> r == Err(MissingField("info"))
  {
    match j
    case JObj(entries) =>
      var fields :- DecodeFields(entries, Fields(None, None));
      if fields.info.None? then Err(MissingField("info"))
      else if fields.amount.None? then Err(MissingField("amount"))
      else Ok(Token(fields.info.value, fields.amount.value))
    case JArr(items) =>
      if |items| == 0 then Err(InvalidLength(0))
      else
        var info :- I.Decode(items[0]);
        if |items| == 1 then Err(InvalidLength(1))
        else
          var amount :- DecodeUint128(items[1]);
          if |items| > 2 then Err(TrailingElements) else Ok(Token(info, amount))
    case _ => Err(InvalidType("struct Token"))
  }

  /** No entry of `entries` is named `info` or `amount`. */
  predicate OnlyUnknownFields(entries: seq<(string, JValue)>) {
    forall i :: 0 <= i < |entries| ==> entries[i].0 != "info" && entries[i].0 != "amount"
  }

  /** Entries named neither `info` nor `amount` are skipped over. */
  lemma {:induction false} SkipUnknown(skipped: seq<(string, JValue)>, rest: seq<(string, JValue)>, acc: Fields)
    requires OnlyUnknownFields(skipped)
    ensures DecodeFields(skipped + rest, acc) == DecodeFields(rest, acc)
    decreases |skipped|
  {
    if |skipped| > 0 {
      assert skipped[0].0 != "info" && skipped[0].0 != "amount";
      assert OnlyUnknownFields(skipped[1..]) by {
        forall i | 0 <= i < |skipped| - 1 ensures skipped[1..][i] == skipped[i + 1] { }
      }
      assert (skipped + rest)[1..] == skipped[1..] + rest;
      SkipUnknown(skipped[1..], rest, acc);
    } else {
      assert skipped + rest == rest;
    }
  }

  /** The object entry that carries `t`'s amount, or else its token kind. */
  function FieldEntry(t: Token, amountField: bool): (string, JValue) {
    if amountField then ("amount", EncodeUint128(t.amount)) else ("info", I.Encode(t.info))
  }

  /** The known entry for one field, read into a walk that has not met it yet. */
  lemma ReadField(t: Token, amountField: bool, rest: seq<(string, JValue)>, acc: Fields)
    requires if amountField then acc.amount.None? else acc.info.None?
    ensures DecodeFields([FieldEntry(t, amountField)] + rest, acc)
         == DecodeFields(rest, if amountField then acc.(amount := Some(t.amount)) else acc.(info := Some(t.info)))
  {
    var entries := [FieldEntry(t, amountField)] + rest;
    assert entries[0] == FieldEntry(t, amountField);
    assert entries[1..] == rest;
  }

  /** Reads `[first] + between + [second] + after` where the two named entries
      are the only known ones and hold the encodings of `t`'s fields. */
  lemma ReadTwoFields(t: Token, amountFirst: bool, between: seq<(string, JValue)>, after: seq<(string, JValue)>)
    requires OnlyUnknownFields(between)
    requires OnlyUnknownFields(after)
    ensures DecodeFields([FieldEntry(t, amountFirst)] + (between + ([FieldEntry(t, !amountFirst)] + after)), Fields(None, None))
         == Ok(Fields(Some(t.info), Some(t.amount)))
  {
    var full := Fields(Some(t.info), Some(t.amount));
    var half := if amountFirst then Fields(None, Some(t.amount)) else Fields(Some(t.info), None);
    var tail := [FieldEntry(t, !amountFirst)] + after;
    ReadField(t, amountFirst, between + tail, Fields(None, None));
    SkipUnknown(between, tail, half);
    ReadField(t, !amountFirst, after, half);
    SkipUnknown(after, [], full);
    assert after + [] == after;
    assert DecodeFields(after, full) == Ok(full);
  }

  /** An object body holding `t`'s two fields, in the order `amountFirst`
      picks, with other entries before, between and after them. */
  function Arranged(t: Token, amountFirst: bool, before: seq<(string, JValue)>,
                    between: seq<(string, JValue)>, after: seq<(string, JValue)>): seq<(string, JValue)>
  {
    before + ([FieldEntry(t, amountFirst)] + (between + ([FieldEntry(t, !amountFirst)] + after)))
  }

  /** Fields other than `info` and `amount`, wherever they stand, are ignored,
      and the two known fields may come in either order. */
  lemma DecodeIgnoresUnknownFields(t: Token, amountFirst: bool, before: seq<(string, JValue)>,
                                   between: seq<(string, JValue)>, after: seq<(string, JValue)>)
    requires OnlyUnknownFields(before)
    requires OnlyUnknownFields(between)
    requires OnlyUnknownFields(after)
    ensures Decode(JObj(Arranged(t, amountFirst, before, between, after))) == Ok(t)
  {
    var tail := [FieldEntry(t, amountFirst)] + (between + ([FieldEntry(t, !amountFirst)] + after));
    var full := Fields(Some(t.info), Some(t.amount));
    ReadTwoFields(t, amountFirst, between, after);
    SkipUnknown(before, tail, Fields(None, None));
    assert DecodeFields(before + tail, Fields(None, None)) == Ok(full);
  }

  /** The array form of the struct decodes to the same token. */
  lemma DecodeArrayForm(t: Token)
    ensures Decode(JArr([I.Encode(t.info), EncodeUint128(t.amount)])) == Ok(t)
  {
  }

  /** A converted bank balance record keeps its denomination and amount. */
  lemma FromCoinExample()
    ensures FromCoin(Coin("uluna", 500)) == Token(I.Native(N.NativeToken("uluna")), 500)
  {
  }
}
