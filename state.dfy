/** The contract's one persisted record. */
module CollectionState {
  import opened Cosmwasm

  datatype MintPrice = MintPrice(denom: string, amount: nat)

  /**
   * `tokens` is the pool of metadata entries not yet minted; the last entry
   * is the next one handed out.
   */
  datatype State = State(owner: Addr, tokens: seq<string>, mintPrice: MintPrice)
}
