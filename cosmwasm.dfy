/** The few host types of the contract runtime that the minting core touches. */
module Cosmwasm {
  /** A bech32 account address, kept as its string form. */
  type Addr = string

  datatype Coin = Coin(denom: string, amount: nat)

  /** An outbound bank instruction: send `amount` from the contract's balance to `toAddress`. */
  datatype BankMsg = Send(toAddress: Addr, amount: seq<Coin>)

  /** Who sent the transaction and what funds came with it. */
  datatype MessageInfo = MessageInfo(sender: Addr, funds: seq<Coin>)

  datatype StdError = GenericErr(msg: string) | NotFound(kind: string)
}
