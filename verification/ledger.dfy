/** What an outbound message asks the ledger to do, read independently of how
    the token layer builds it: a move, a delegated move, or a burn of one
    amount of one token. A message of any other shape has no such meaning. */
module Ledger {
  import opened Results
  import opened Numeric
  import opened Host
  import I = Info
  import N = Native
  import C = Cw20

  datatype Effect =
    | Move(token: I.TokenInfo, to: Addr, amount: Uint128)
    | MoveFrom(token: I.TokenInfo, owner: Addr, to: Addr, amount: Uint128)
    | Destroy(token: I.TokenInfo, amount: Uint128)

  function Meaning(m: CosmosMsg): Option<Effect> {
    match m
    case BankSend(to, coins) =>
      if |coins| == 1 then Some(Move(I.Native(N.NativeToken(coins[0].denom)), to, coins[0].amount)) else None
    case BankBurn(coins) =>
      if |coins| == 1 then Some(Destroy(I.Native(N.NativeToken(coins[0].denom)), coins[0].amount)) else None
    case WasmExecute(contract, msg, funds) =>
      if |funds| != 0 then None
      else
        var token := I.Cw20(C.Cw20Token(contract));
        match msg
        case Transfer(recipient, amount) => Some(Move(token, recipient, amount))
        case TransferFrom(owner, recipient, amount) => Some(MoveFrom(token, owner, recipient, amount))
        case Burn(amount) => Some(Destroy(token, amount))
  }

  /** `send` moves exactly `amount` of this token to `target`, for either kind. */
  lemma SendMeaning(info: I.TokenInfo, target: Addr, amount: Uint128)
    ensures I.Send(info, target, amount).Ok?
    ensures Meaning(I.Send(info, target, amount).value) == Some(Move(info, target, amount))
  {
  }

  /** `burn` destroys exactly `amount` of this token, for either kind. */
  lemma BurnMeaning(info: I.TokenInfo, amount: Uint128)
    ensures I.Burn(info, amount).Ok?
    ensures Meaning(I.Burn(info, amount).value) == Some(Destroy(info, amount))
  {
  }

  /** `transfer_from` moves `amount` of this cw20 token from `owner` to `recipient`. */
  lemma TransferFromMeaning(t: C.Cw20Token, owner: Addr, recipient: Addr, amount: Uint128)
    ensures Meaning(C.TransferFrom(t, owner, recipient, amount).value)
      == Some(MoveFrom(I.Cw20(t), owner, recipient, amount))
  {
  }

  /** A send message determines its token, recipient and amount, and is never a burn. */
  lemma SendDetermined(a: I.TokenInfo, ta: Addr, na: Uint128, b: I.TokenInfo, tb: Addr, nb: Uint128)
    ensures I.Send(a, ta, na) == I.Send(b, tb, nb) <==> a == b && ta == tb && na == nb
    ensures I.Send(a, ta, na) != I.Burn(b, nb)
  {
  }
}
