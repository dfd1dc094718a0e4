# Token abstraction layer — a Dafny model

This project models the token layer of CosmosCoin: one interface for moving,
burning, querying and logging two kinds of value on a CosmWasm chain.

- A **native token** is held by the chain's bank module under a denomination.
- A **cw20 token** is held by an external cw20 contract, named by its address.

The closed enum `TokenInfo` holds exactly one of the two kinds. It dispatches
the four operations of the `GenericToken` trait (`send`, `burn`, `balance`,
`attributes`) to that kind. It also packs itself into a `(u8, String)`
persistence key and has an externally tagged JSON form. `Token` pairs a
`TokenInfo` with a `Uint128` amount.

Modules, leaves first:

- `Results`: `Option` and `Result`.
- `Json`: a JSON document as a value tree (`JValue`) and the decoders' error kinds.
- `Numeric`: `Uint128` as a `nat` below 2^128. It holds the decimal rendering
  (`Display`), the parser (`u128::from_str`) and the JSON string form.
- `Host`: the host values the layer builds or reads. These are addresses,
  coins, log attributes, outbound messages with cw20 payloads, `StdError`,
  and the query capability.
- `Native`, `Cw20`: the two token kinds (`src/native.rs`, `src/cw20.rs`).
- `Info`: the `TokenInfo` enum, its key and its dispatch (`src/info.rs`).
- `Ledger`: an independent reading of an outbound message as a ledger effect:
  a move, a delegated move or a burn of one amount of one token. The dispatch
  lemmas are stated against this reading.
- `Token`: the `Token` struct (`src/token.rs`).

Decisions worth knowing:

- `from_key` keeps the source's fallback. Discriminant 0 is cw20 and every
  other discriminant is native. `Info.KeyOfFromKey` and
  `Info.FromKeyNotInjective` state what this costs.
- JSON decoding follows serde's behaviour for these derives. The tagged enum
  reads the tag, then the value, then refuses a second entry. The derived
  `Token` struct reads fields in order: a repeated field is an error, an
  unknown field is ignored, and the two-element array form is also accepted.
  A `Uint128` is read from a JSON string with an optional `+` and leading
  zeros allowed. So the `Token` decoder is more lenient than an exact-shape
  reading; the code is followed here.
- The token, token-kind and leaf decoders follow serde_json, the library the
  repository's own serialisation tests use. serde_json also reads a struct
  from a JSON array, so the `Token` decoder accepts the two-element array form.
  The cw20 balance response is read by CosmWasm's `from_json`, and the model
  reads it from an object only.
- A denomination is not checked to be non-empty, because the code does not check it.

## Model

| member | source | states |
|---|---|---|
| Numeric.Decimal | src/token.rs:32 | the amount is rendered as a canonical decimal numeral (no leading zero except "0") whose digits denote the amount again |
| Numeric.CanonicalIsDecimal | src/token.rs:32 | every canonical numeral is the rendering of the number it denotes, so the rendering is the unique canonical form |
| Numeric.ParseUint128 | src/token.rs:6-9 | the amount parser accepts exactly an optional '+' then at least one digit denoting a value below 2^128, returns the value those digits denote (so "+5" and "05" read as 5), and reports any other text as an invalid number |
| Numeric.ParseDecimal | src/token.rs:32 | reading the rendering of any Uint128 from 0 to 2^128-1 gives it back |
| Numeric.ParseCanonical | src/token.rs:6-9 | on a canonical numeral the parser returns n exactly when the numeral is n's rendering |
| Numeric.DecodeUint128 | src/token.rs:6-9 | an amount is read only from a JSON string, by the amount parser; any other JSON kind is an invalid-type error |
| Numeric.EncodeUint128 | src/token.rs:6-9 | the JSON form of an amount is a string holding its canonical numeral, and it decodes back to the amount |
| Native.New | src/native.rs:30-34 | the new token carries the given denomination and serialises to it as a bare string |
| Native.Encode | src/native.rs:11-18 | serialises to the bare denomination string, not an object, and decodes back to the same token |
| Native.Decode | src/native.rs:20-27 | succeeds exactly on JSON strings, taking the string as the denomination; anything else is an invalid-type error |
| Native.DecodeOnlyEncodings | src/native.rs:11-27 | decoding yields t exactly when the document is t's encoding |
| Native.Send | src/native.rs:38-46 | always a bank send to the target of exactly one coin of this denomination and amount, naming no contract |
| Native.Burn | src/native.rs:48-55 | always a bank burn of exactly one coin of this denomination and amount, with no recipient |
| Native.Balance | src/native.rs:57-61 | succeeds exactly when the bank query for (address, denom) succeeds, returning the queried coin's amount, else that query's error unchanged |
| Native.Attributes | src/native.rs:63-68 | exactly two attributes in order: type = native, then denom = the denomination |
| Cw20.New | src/cw20.rs:30-33 | the new token carries the given address and serialises to it as a bare string |
| Cw20.Encode | src/cw20.rs:12-19 | serialises to the bare address string, not an object, and decodes back to the same token |
| Cw20.Decode | src/cw20.rs:21-28 | succeeds exactly on JSON strings, taking the string unchecked as the address |
| Cw20.DecodeOnlyEncodings | src/cw20.rs:12-28 | decoding yields t exactly when the document is t's encoding |
| Cw20.TransferFrom | src/cw20.rs:35-45 | an execute on the token's own contract with payload transfer_from {owner, recipient, amount} and no funds |
| Cw20.Send | src/cw20.rs:49-58 | an execute on the token's own contract with payload transfer {recipient: target, amount} and no funds |
| Cw20.Burn | src/cw20.rs:60-66 | an execute on the token's own contract with payload burn {amount} and no funds |
| Cw20.DecodeBalanceEntries | src/cw20.rs:87-91 | reading the response fields in order never succeeds with a repeated balance field, returns the value a balance field holds, skips fields named otherwise, and succeeds whenever balance appears at most once with a readable value |
| Cw20.DecodeBalanceResponse | src/cw20.rs:87-91 | succeeds exactly on an object with one balance field whose value reads as a Uint128, returning that value; an object without a balance field is a missing-field error |
| Cw20.BalanceIgnoresOtherFields | src/cw20.rs:87-91 | whatever other fields surround one balance field, the response reads as that balance |
| Cw20.Balance | src/cw20.rs:68-77 | makes the smart query balance {address} to the token's own contract; passes its error on, turns a malformed response into a parse error, else returns only the balance field |
| Cw20.Attributes | src/cw20.rs:79-84 | exactly two attributes in order: type = cw20, then address = the contract address |
| Info.NewCw20 | src/info.rs:16-18 | builds the cw20 kind for the address, whose key is (0, address) |
| Info.NewNative | src/info.rs:20-22 | builds the native kind for the denomination, whose key is (1, denom) |
| Info.Key | src/info.rs:24-29 | the key is (0, address) for cw20 and (1, denom) for native, so the discriminant is 0 or 1, and from_key rebuilds the same token kind |
| Info.FromKey | src/info.rs:31-38 | total: discriminant 0 gives cw20 with the string as address, every other discriminant gives native with the string as denomination |
| Info.KeyOfFromKey | src/info.rs:24-38 | key(from_key(k)) == k exactly when the discriminant is 0 or 1; any other discriminant comes back as (1, s) |
| Info.FromKeyNotInjective | src/info.rs:34-37 | keys (2, s) and (1, s) differ but rebuild the same native token |
| Info.DecodeVariant | src/info.rs:6-11 | a variant value decodes exactly under tag cw20 or native with a string value, giving the kind the tag names |
| Info.Encode | src/info.rs:6-11 | a one-entry object tagged cw20 or native by kind, holding the identifying string, that decodes back to the same value |
| Info.Decode | src/info.rs:6-11 | succeeds exactly on a one-entry object tagged cw20 or native with a string value; an empty object or an unknown tag is refused with its own error |
| Info.EncodingExamples | src/info.rs:6-11 | cw20 "some_token" encodes as {"cw20": "some_token"} and native "some_token" as {"native": "some_token"} |
| Info.DecodeOnlyEncodings | src/info.rs:6-11 | decoding yields x exactly when the document is x's encoding |
| Info.Send | src/info.rs:42-47 | always succeeds; the message is a contract execute exactly for cw20, and then targets the token's own address |
| Info.Burn | src/info.rs:49-54 | always succeeds; the message is a contract execute exactly for cw20, and then targets the token's own address |
| Info.Balance | src/info.rs:56-61 | native succeeds exactly when its bank query does; a failing cw20 smart query's error is returned unchanged |
| Info.Attributes | src/info.rs:63-68 | two attributes; the type tag is cw20 or native by kind, and the second value is the same string the key carries |
| Info.DispatchForwards | src/info.rs:41-68 | send, burn, balance and attributes each equal the held kind's result for the same arguments |
| Info.AttributesInjective | src/info.rs:63-68 | two token kinds log the same attributes exactly when they are equal |
| Ledger.SendMeaning | src/info.rs:42-47 | for either kind, send is read as a move of exactly that amount of that token to the target |
| Ledger.BurnMeaning | src/info.rs:49-54 | for either kind, burn is read as destroying exactly that amount of that token |
| Ledger.TransferFromMeaning | src/cw20.rs:35-45 | transfer_from is read as a delegated move of the amount of this cw20 token from owner to recipient |
| Ledger.SendDetermined | src/info.rs:42-54 | a send message determines its token, target and amount, and no send equals any burn |
| Token.FromCoin | src/token.rs:12-19 | a bank coin always becomes a native token of the same denomination and amount, never cw20 |
| Token.FromCoinSendsCoin | src/token.rs:12-24 | sending a token converted from a coin emits a bank send of exactly that coin |
| Token.FromCoinExample | src/token.rs:12-19 | the record (uluna, 500) becomes the native token uluna with amount 500 |
| Token.Send | src/token.rs:22-24 | always succeeds and is read as moving the token's whole amount of its kind to the target |
| Token.Burn | src/token.rs:26-28 | always succeeds and is read as destroying the token's whole amount of its kind |
| Token.Attributes | src/token.rs:30-34 | the kind's attributes unchanged, then exactly one amount attribute whose value is a canonical numeral that reads back as the amount, for every amount including 0 |
| Token.AttributesInjective | src/token.rs:30-34 | two tokens log the same attributes exactly when they are equal in kind and amount |
| Token.Key | src/token.rs:36-38 | the key is the kind's key, and from_key with the token's amount rebuilds the token |
| Token.KeyIgnoresAmount | src/token.rs:36-38 | two tokens share a key exactly when their kinds are equal, whatever the amounts |
| Token.FromKey | src/token.rs:40-45 | carries the amount through unchanged and rebuilds the kind from the key, cw20 exactly for discriminant 0 |
| Token.Encode | src/token.rs:6-10 | the object {"info": kind encoding, "amount": decimal string} in field order, which decodes back to the token |
| Token.DecodeFields | src/token.rs:6-10 | reading fields in order never succeeds with info or amount repeated, keeps values already read, takes each new value from a field of that name, and succeeds whenever no field repeats and every known field is readable |
| Token.Decode | src/token.rs:6-10 | succeeds only on an object with info and amount exactly once each, or on a two-element array, and the token is built from the values those fields hold; an object with both fields once and readable always succeeds; an object lacking info is a missing-field error |
| Token.DecodeIgnoresUnknownFields | src/token.rs:6-10 | the two fields may come in either order, and fields named neither info nor amount, before, between or after them, do not change the decoded token |
| Token.DecodeArrayForm | src/token.rs:6-10 | the array form [kind, amount] decodes to the same token |

## Left out

- The `GenericToken` trait of `src/lib.rs` has no Dafny counterpart as a type. Each kind has a function per trait operation with the trait's signature, and `Info` dispatches by `match`. The rest of `src/lib.rs` is module wiring.
- `to_json_binary` and the cw20_base message types are a foreign crate. The payload is the structured `Cw20ExecuteMsg`, and its byte encoding is not modelled.
- Cw20.Send, Cw20.Burn, Cw20.TransferFrom: these always return `Ok`. The source propagates a failure of `to_json_binary`, which the model treats as total.
- The querier is host I/O. `Querier` holds two function values: the bank balance lookup and the smart query. The smart query returns the response already parsed into a JSON value, so the request's serialisation and the raw response bytes are not modelled.
- JSON text (quoting, escaping, whitespace) is not modelled. Encodings and decodings are stated on the `JValue` tree. JSON numbers are kept only as an opaque literal, because nothing here reads them.
- Error messages are not reproduced. `DecodeError` records only the kind of failure.
- The `JsonSchema` derives are not modelled.
