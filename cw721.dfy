/**
 * The parts of the cw721 base library the minting core relies on: the token
 * record, the library's error type and the per-owner count that the owner
 * index yields.
 */
module Cw721 {
  import opened Wrappers
  import opened Cosmwasm

  datatype Expiration = AtHeight(height: nat) | AtTime(nanos: nat) | Never

  datatype Approval = Approval(spender: Addr, expires: Expiration)

  /** The empty extension payload. */
  datatype Empty = Empty

  datatype TokenInfo = TokenInfo(owner: Addr, approvals: seq<Approval>, tokenUri: Option<string>, extension: Option<Empty>)

  datatype ContractError = Std(err: StdError) | Claimed

  /** Base-contract instantiation parameters, handed on unchanged. */
  datatype Cw721Init = Cw721Init(name: string, symbol: string, minter: string)

  datatype MintMsg = MintMsg(tokenId: string, owner: string, tokenUri: Option<string>, extension: Option<Empty>)

  /** The token keys whose record names `who` as owner. */
  function OwnedKeys(ledger: map<string, TokenInfo>, who: Addr): set<string> {
    set k | k in ledger && ledger[k].owner == who
  }

  /** How many tokens `who` owns: what iterating the owner index for `who` counts. */
  function Owned(ledger: map<string, TokenInfo>, who: Addr): (count: nat)
    ensures count <= |ledger|
  {
    var ks := OwnedKeys(ledger, who);
    assert ks <= ledger.Keys;
    SubsetCard(ks, ledger.Keys);
    |ks|
  }

  lemma SubsetCard<T>(a: set<T>, b: set<T>)
    requires a <= b
    ensures |a| <= |b|
  {
    assert b == a + (b - a);
  }

  /** Registering a fresh key raises its owner's count by one and nobody else's. */
  lemma OwnedAfterInsert(ledger: map<string, TokenInfo>, key: string, info: TokenInfo, who: Addr)
    requires key !in ledger
    ensures Owned(ledger[key := info], who) == Owned(ledger, who) + (if info.owner == who then 1 else 0)
  {
    var before := OwnedKeys(ledger, who);
    var after := OwnedKeys(ledger[key := info], who);
    if info.owner == who {
      assert after == before + {key};
    } else {
      assert after == before;
    }
  }
}
