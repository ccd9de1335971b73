/**
 * The contract's entry points: `instantiate` stores the collection state,
 * `execute` routes `BatchMint` to the batch-mint engine and hands every other
 * message to the cw721 base library.
 *
 * Storage is the class `MintContract`; each entry point is a method on it,
 * proved against a pure transaction function over a `Storage` snapshot.
 */
module Contract {
  import opened Wrappers
  import opened Decimal
  import opened Cosmwasm
  import opened Cw721
  import opened CollectionState

  /** How many tokens one wallet may hold once a batch mint is done. */
  const MaxPerWallet: nat := 10
  const WalletCapMsg := "a single wallet cannot own more than 10 tokens"
  const OutOfTokensMsg := "contract is out of tokens"
  /** The kind named by the error that loading a missing state record gives. */
  const StateKind := "State"

  datatype InstantiateMsg = InstantiateMsg(base: Cw721Init, tokens: seq<string>, mintPrice: MintPrice)

  datatype ExecuteMsg =
    | BatchMint(amount: nat)
    | Mint(mint: MintMsg)
    | Approve(spender: string, tokenId: string, expires: Option<Expiration>)
    | Revoke(spender: string, tokenId: string)
    | ApproveAll(operator: string, expires: Option<Expiration>)
    | RevokeAll(operator: string)
    | TransferNft(recipient: string, tokenId: string)
    | SendNft(contract: string, tokenId: string, msg: seq<bv8>)

  datatype InstantiateResponse = InstantiateResponse(owner: Addr, tokenCount: nat)

  /** The attributes and the one bank message of a successful batch mint. */
  datatype MintResponse = MintResponse(action: string, minter: Addr, tokenIds: seq<nat>, messages: seq<BankMsg>)

  /** What `execute` did: ran the batch-mint engine, or handed the message to cw721. */
  datatype Dispatched = BatchMinted(result: Result<MintResponse, ContractError>) | Delegated(msg: ExecuteMsg)

  /** Everything in storage the core reads or writes: the state cell, cw721's token counter and token map. */
  datatype Storage = Storage(state: Option<State>, tokenCount: nat, ledger: map<string, TokenInfo>)

  /** Storage before anything is instantiated. */
  const Fresh := Storage(None, 0, map[])

  /** The storage a transaction leaves behind, and what it returns. */
  datatype Tx<+T> = Tx(storage: Storage, result: Result<T, ContractError>)

  /** Storage and collected ids after some passes of the mint loop. */
  datatype Progress = Progress(storage: Storage, tokenIds: seq<nat>)

  /** What `n` tokens cost at `price`. */
  function TotalPrice(price: MintPrice, n: nat): nat {
    price.amount * n
  }

  /** The record a batch mint registers: owned by the caller, no approvals, the popped metadata as URI. */
  function NewToken(caller: Addr, uri: string): TokenInfo {
    TokenInfo(caller, [], Some(uri), None)
  }

  /** `instantiate`: the sender becomes owner, the pool and price are stored as given. */
  function InstantiateTx(s: Storage, info: MessageInfo, msg: InstantiateMsg): (t: Tx<InstantiateResponse>)
    ensures t.storage.state.Some?
    ensures t.storage.state.value.owner == info.sender
    ensures t.storage.state.value.tokens == msg.tokens && t.storage.state.value.mintPrice == msg.mintPrice
    ensures t.storage.tokenCount == s.tokenCount && t.storage.ledger == s.ledger
    ensures t.result == Ok(InstantiateResponse(info.sender, |t.storage.state.value.tokens|))
  {
    var tokenCount := |msg.tokens|;
    Tx(s.(state := Some(State(info.sender, msg.tokens, msg.mintPrice))), Ok(InstantiateResponse(info.sender, tokenCount)))
  }

  /**
   * One pass of the mint loop: load the state, pop the last metadata entry,
   * take the id after the counter, register it unless the key is taken,
   * and advance the counter.
   */
  function MintStep(s: Storage, caller: Addr): (r: Result<Storage, ContractError>)
    ensures r.Ok? <==> s.state.Some? && |s.state.value.tokens| > 0 && DecimalString(s.tokenCount + 1) !in s.ledger
    ensures s.state.None? ==> r == Err(Std(NotFound(StateKind)))
    ensures s.state.Some? && s.state.value.tokens == [] ==> r == Err(Std(GenericErr(OutOfTokensMsg)))
    ensures s.state.Some? && |s.state.value.tokens| > 0 && DecimalString(s.tokenCount + 1) in s.ledger ==> r == Err(Claimed)
    ensures r.Ok? ==> var t := s.state.value.tokens;
      && r.value.state == Some(s.state.value.(tokens := t[..|t| - 1]))
      && r.value.tokenCount == s.tokenCount + 1
      && r.value.ledger == s.ledger[DecimalString(s.tokenCount + 1) := NewToken(caller, t[|t| - 1])]
  {
    match s.state
    case None => Err(Std(NotFound(StateKind)))
    case Some(st) =>
      if |st.tokens| == 0 then Err(Std(GenericErr(OutOfTokensMsg)))
      else
        var tokenUri := st.tokens[|st.tokens| - 1];
        var id := s.tokenCount + 1;
        var key := DecimalString(id);
        if key in s.ledger then Err(Claimed)
        else Ok(Storage(Some(st.(tokens := st.tokens[..|st.tokens| - 1])), id, s.ledger[key := NewToken(caller, tokenUri)]))
  }

  /** One more pass after a loop result: an error stays, otherwise MintStep runs and its id is recorded. */
  function NextPass(before: Result<Progress, ContractError>, caller: Addr): (r: Result<Progress, ContractError>)
    ensures before.Err? ==> r == before
    ensures before.Ok? ==> (r.Ok? <==> MintStep(before.value.storage, caller).Ok?)
    ensures r.Ok? ==>
      && r.value.storage.tokenCount == before.value.storage.tokenCount + 1
      && |r.value.tokenIds| == |before.value.tokenIds| + 1
  {
    match before
    case Err(e) => Err(e)
    case Ok(p) => match MintStep(p.storage, caller)
      case Err(e) => Err(e)
      case Ok(s') => Ok(Progress(s', p.tokenIds + [p.storage.tokenCount + 1]))
  }

  /** The first `k` passes of the mint loop; the first failing pass ends it. */
  function MintLoop(s: Storage, caller: Addr, k: nat): (r: Result<Progress, ContractError>)
    ensures r.Ok? ==> r.value.storage.tokenCount == s.tokenCount + k && |r.value.tokenIds| == k
  {
    if k == 0 then Ok(Progress(s, [])) else NextPass(MintLoop(s, caller, k - 1), caller)
  }

  /** Once a pass has failed, running more passes gives the same error. */
  lemma {:induction false} LoopErrorPersists(s: Storage, caller: Addr, k: nat, m: nat)
    requires k <= m && MintLoop(s, caller, k).Err?
    ensures MintLoop(s, caller, m) == MintLoop(s, caller, k)
    decreases m
  {
    if m > k {
      LoopErrorPersists(s, caller, k, m - 1);
    }
  }

  /**
   * `batch_mint` as one transaction: the wallet cap, `n` loop passes, the
   * final state load and the payment to the owner. The host discards every
   * write of a failed transaction, so an error leaves storage as it was.
   */
  function BatchMintTx(s: Storage, caller: Addr, n: nat): (t: Tx<MintResponse>)
    ensures t.result.Err? ==> t.storage == s
    ensures Owned(s.ledger, caller) + n > MaxPerWallet ==> t == Tx(s, Err(Std(GenericErr(WalletCapMsg))))
  {
    if Owned(s.ledger, caller) + n > MaxPerWallet then Tx(s, Err(Std(GenericErr(WalletCapMsg))))
    else match MintLoop(s, caller, n)
      case Err(e) => Tx(s, Err(e))
      case Ok(p) => match p.storage.state
        case None => Tx(s, Err(Std(NotFound(StateKind))))
        case Some(st) =>
          var payment := Send(st.owner, [Coin(st.mintPrice.denom, TotalPrice(st.mintPrice, n))]);
          Tx(p.storage, Ok(MintResponse("mint", caller, p.tokenIds, [payment])))
  }

  /** The contract's storage, updated in place by its entry points. */
  class MintContract {
    var state: Option<State>
    var tokenCount: nat
    var ledger: map<string, TokenInfo>

    function Snapshot(): Storage
      reads this
    {
      Storage(state, tokenCount, ledger)
    }

    constructor ()
      ensures Snapshot() == Fresh
    {
      state := None;
      tokenCount := 0;
      ledger := map[];
    }

    method Instantiate(info: MessageInfo, msg: InstantiateMsg) returns (r: Result<InstantiateResponse, ContractError>)
      modifies this
      ensures Snapshot() == InstantiateTx(old(Snapshot()), info, msg).storage
      ensures r == InstantiateTx(old(Snapshot()), info, msg).result
    {
      var count := |msg.tokens|;
      var owner := info.sender;
      state := Some(State(info.sender, msg.tokens, msg.mintPrice));
      r := Ok(InstantiateResponse(owner, count));
    }

    /** The host's rollback of a failed transaction: put back the storage it started from. */
    method Rollback(journal: Storage)
      modifies this
      ensures Snapshot() == journal
    {
      state, tokenCount, ledger := journal.state, journal.tokenCount, journal.ledger;
    }

    /**
     * One pass of the mint loop, done in place. On an error the state may
     * already hold the popped pool; the caller rolls the transaction back.
     */
    method MintPass(caller: Addr) returns (r: Result<nat, ContractError>)
      modifies this
      ensures var step := MintStep(old(Snapshot()), caller);
        && (r.Ok? <==> step.Ok?)
        && (r.Err? ==> r.error == step.error)
        && (r.Ok? ==> r.value == old(tokenCount) + 1 && Snapshot() == step.value)
      ensures r.Err? && (old(state).None? || old(state).value.tokens == []) ==> Snapshot() == old(Snapshot())
      ensures r.Err? && old(state).Some? && |old(state).value.tokens| > 0 ==>
        var st := old(state).value;
        Snapshot() == old(Snapshot()).(state := Some(st.(tokens := st.tokens[..|st.tokens| - 1])))
    {
      if state.None? {
        return Err(Std(NotFound(StateKind)));
      }
      var st := state.value;
      if |st.tokens| == 0 {
        return Err(Std(GenericErr(OutOfTokensMsg)));
      }
      var tokenUri := st.tokens[|st.tokens| - 1];
      st := st.(tokens := st.tokens[..|st.tokens| - 1]);
      state := Some(st);
      var token := NewToken(caller, tokenUri);
      var id := tokenCount + 1;
      var key := DecimalString(id);
      if key in ledger {
        return Err(Claimed);
      }
      ledger := ledger[key := token];
      tokenCount := tokenCount + 1;
      r := Ok(id);
    }

    /**
     * The `for _ in 0..n` loop of `batch_mint`: `n` passes in place,
     * collecting the minted ids, stopping at the first pass that fails.
     */
    method MintLoopInPlace(caller: Addr, n: nat) returns (r: Result<seq<nat>, ContractError>)
      modifies this
      ensures var loop := MintLoop(old(Snapshot()), caller, n);
        && (r.Ok? <==> loop.Ok?)
        && (r.Err? ==> r.error == loop.error)
        && (r.Ok? ==> r.value == loop.value.tokenIds && Snapshot() == loop.value.storage)
    {
      ghost var start := Snapshot();
      var tokenIds: seq<nat> := [];
      var i := 0;
      while i < n
        invariant i <= n
        invariant MintLoop(start, caller, i) == Ok(Progress(Snapshot(), tokenIds))
      {
        var pass := MintPass(caller);
        if pass.Err? {
          LoopErrorPersists(start, caller, i + 1, n);
          return Err(pass.error);
        }
        tokenIds := tokenIds + [pass.value];
        i := i + 1;
      }
      r := Ok(tokenIds);
    }

    method BatchMint(info: MessageInfo, n: nat) returns (r: Result<MintResponse, ContractError>)
      modifies this
      ensures Snapshot() == BatchMintTx(old(Snapshot()), info.sender, n).storage
      ensures r == BatchMintTx(old(Snapshot()), info.sender, n).result
    {
      var journal := Snapshot();
      var ownedTokens := Owned(ledger, info.sender);
      if ownedTokens + n > MaxPerWallet {
        return Err(Std(GenericErr(WalletCapMsg)));
      }
      var minted := MintLoopInPlace(info.sender, n);
      if minted.Err? {
        r := Err(minted.error);
        Rollback(journal);
        return;
      }
      if state.None? {
        r := Err(Std(NotFound(StateKind)));
        Rollback(journal);
        return;
      }
      var st := state.value;
      var payment := Send(st.owner, [Coin(st.mintPrice.denom, TotalPrice(st.mintPrice, n))]);
      r := Ok(MintResponse("mint", info.sender, minted.value, [payment]));
    }

    method Execute(info: MessageInfo, msg: ExecuteMsg) returns (d: Dispatched)
      modifies this
      ensures msg.BatchMint? ==>
        && d == BatchMinted(BatchMintTx(old(Snapshot()), info.sender, msg.amount).result)
        && Snapshot() == BatchMintTx(old(Snapshot()), info.sender, msg.amount).storage
      ensures !msg.BatchMint? ==> d == Delegated(msg)
    {
      match msg {
        case BatchMint(amount) =>
          var r := BatchMint(info, amount);
          d := BatchMinted(r);
        case _ =>
          d := Delegated(msg);
      }
    }
  }
}
