/**
 * What batch minting guarantees: the wallet cap, LIFO consumption of the
 * metadata pool, consecutive ids with no overwrite, the single payment,
 * the exact failure cases, and the same facts over a whole run of calls.
 */
module MintProperties {
  import opened Wrappers
  import opened Decimal
  import opened Cosmwasm
  import opened Cw721
  import opened CollectionState
  import opened Contract

  /** None of the ids `c + 1 .. c + k` is a key of `ledger`. */
  ghost predicate FreeIds(ledger: map<string, TokenInfo>, c: nat, k: nat) {
    forall id: nat :: c < id <= c + k ==> DecimalString(id) !in ledger
  }

  /** The keys of the ids `c + 1 .. c + k`. */
  ghost function MintedKeys(c: nat, k: nat): set<string> {
    set id: nat | c < id <= c + k :: DecimalString(id)
  }

  /** `ids` is `first, first + 1, ...` with no gap. */
  ghost predicate Consecutive(ids: seq<nat>, first: nat) {
    forall j :: 0 <= j < |ids| ==> ids[j] == first + j
  }

  /** The ids `first .. first + k - 1` in ascending order. */
  ghost function IdRange(first: nat, k: nat): (ids: seq<nat>)
    ensures |ids| == k && Consecutive(ids, first)
  {
    if k == 0 then [] else IdRange(first, k - 1) + [first + k - 1]
  }

  /** The ledger after `k` passes from counter `c` over pool `t`: id `c + j` gets the `j`-th entry from the end. */
  ghost function MintedLedger(ledger: map<string, TokenInfo>, caller: Addr, t: seq<string>, c: nat, k: nat): map<string, TokenInfo>
    requires k <= |t|
  {
    if k == 0 then ledger
    else MintedLedger(ledger, caller, t, c, k - 1)[DecimalString(c + k) := NewToken(caller, t[|t| - k])]
  }

  /** The keys after `k` passes are the old keys and the keys of the `k` new ids. */
  lemma {:induction false} MintedLedgerKeys(ledger: map<string, TokenInfo>, caller: Addr, t: seq<string>, c: nat, k: nat)
    requires k <= |t|
    ensures MintedLedger(ledger, caller, t, c, k).Keys == ledger.Keys + MintedKeys(c, k)
    decreases k
  {
    if k == 0 {
      assert MintedKeys(c, 0) == {};
    } else {
      MintedLedgerKeys(ledger, caller, t, c, k - 1);
      assert MintedKeys(c, k) == MintedKeys(c, k - 1) + {DecimalString(c + k)};
    }
  }

  /** The next id's key is not among those the first `k - 1` passes minted. */
  lemma NextKeyFresh(ledger: map<string, TokenInfo>, caller: Addr, t: seq<string>, c: nat, k: nat)
    requires 0 < k <= |t| && FreeIds(ledger, c, k)
    ensures DecimalString(c + k) !in MintedLedger(ledger, caller, t, c, k - 1)
  {
    forall id: nat | c < id < c + k
      ensures DecimalString(id) != DecimalString(c + k)
    {
      DecimalStringInjective(id, c + k);
    }
    MintedLedgerKeys(ledger, caller, t, c, k - 1);
  }

  /** Minting over free ids keeps every earlier record. */
  lemma {:induction false} MintedLedgerKeeps(ledger: map<string, TokenInfo>, caller: Addr, t: seq<string>, c: nat, k: nat)
    requires k <= |t| && FreeIds(ledger, c, k)
    ensures forall key :: key in ledger ==>
      key in MintedLedger(ledger, caller, t, c, k) && MintedLedger(ledger, caller, t, c, k)[key] == ledger[key]
    decreases k
  {
    if k > 0 {
      MintedLedgerKeeps(ledger, caller, t, c, k - 1);
    }
  }

  /** Minting `k` tokens over free ids gives the caller exactly `k` more and every other wallet none. */
  lemma {:induction false} MintedLedgerOwned(ledger: map<string, TokenInfo>, caller: Addr, t: seq<string>, c: nat, k: nat, who: Addr)
    requires k <= |t| && FreeIds(ledger, c, k)
    ensures Owned(MintedLedger(ledger, caller, t, c, k), who) == Owned(ledger, who) + (if who == caller then k else 0)
    decreases k
  {
    if k > 0 {
      var before := MintedLedger(ledger, caller, t, c, k - 1);
      var key := DecimalString(c + k);
      var token := NewToken(caller, t[|t| - k]);
      assert MintedLedger(ledger, caller, t, c, k) == before[key := token];
      MintedLedgerOwned(ledger, caller, t, c, k - 1, who);
      NextKeyFresh(ledger, caller, t, c, k);
      OwnedAfterInsert(before, key, token, who);
    }
  }

  /**
   * The storage after `k` successful passes: the last `k` pool entries
   * popped, the counter advanced by `k`, and the ledger MintedLedger describes.
   */
  ghost function Popped(s: Storage, caller: Addr, k: nat): Storage
    requires s.state.Some? && k <= |s.state.value.tokens|
  {
    var st := s.state.value;
    var t := st.tokens;
    Storage(Some(st.(tokens := t[..|t| - k])), s.tokenCount + k, MintedLedger(s.ledger, caller, t, s.tokenCount, k))
  }

  /** One more pass from the loop result after `k - 1` passes gives the result after `k`. */
  lemma {:induction false} PassFromPopped(s: Storage, caller: Addr, k: nat)
    requires s.state.Some? && 0 < k <= |s.state.value.tokens| && FreeIds(s.ledger, s.tokenCount, k)
    ensures NextPass(Ok(Progress(Popped(s, caller, k - 1), IdRange(s.tokenCount + 1, k - 1))), caller)
      == Ok(Progress(Popped(s, caller, k), IdRange(s.tokenCount + 1, k)))
  {
    var t := s.state.value.tokens;
    var t1 := t[..|t| - (k - 1)];
    NextKeyFresh(s.ledger, caller, t, s.tokenCount, k);
    assert t1[|t1| - 1] == t[|t| - k];
    assert t1[..|t1| - 1] == t[..|t| - k];
    assert MintStep(Popped(s, caller, k - 1), caller) == Ok(Popped(s, caller, k));
  }

  /**
   * `k` passes over a pool of at least `k` entries with unclaimed ids succeed:
   * they pop the last `k` entries, advance the counter by `k`, collect the ids
   * `c + 1 .. c + k` and leave the ledger that MintedLedger describes.
   */
  lemma {:induction false} MintLoopShape(s: Storage, caller: Addr, k: nat)
    requires s.state.Some? && k <= |s.state.value.tokens| && FreeIds(s.ledger, s.tokenCount, k)
    ensures MintLoop(s, caller, k) == Ok(Progress(Popped(s, caller, k), IdRange(s.tokenCount + 1, k)))
    decreases k
  {
    if k == 0 {
      var t := s.state.value.tokens;
      assert t[..|t|] == t;
    } else {
      MintLoopShape(s, caller, k - 1);
      PassFromPopped(s, caller, k);
    }
  }

  /** The loop's only-if half: a successful run needs the state, enough pool and unclaimed ids. */
  lemma {:induction false} MintLoopNeeds(s: Storage, caller: Addr, k: nat)
    requires k > 0 && MintLoop(s, caller, k).Ok?
    ensures s.state.Some? && k <= |s.state.value.tokens| && FreeIds(s.ledger, s.tokenCount, k)
    decreases k
  {
    if k == 1 {
      assert MintLoop(s, caller, 0) == Ok(Progress(s, []));
      assert MintStep(s, caller).Ok?;
    } else {
      assert MintLoop(s, caller, k - 1).Ok?;
      MintLoopNeeds(s, caller, k - 1);
      MintLoopShape(s, caller, k - 1);
      var p := MintLoop(s, caller, k - 1).value;
      assert MintStep(p.storage, caller).Ok?;
      MintedLedgerKeeps(s.ledger, caller, s.state.value.tokens, s.tokenCount, k - 1);
      assert DecimalString(s.tokenCount + k) !in s.ledger;
    }
  }

  /** `k` passes succeed exactly when there is nothing to do, or the state, pool and ids allow it. */
  lemma MintLoopSucceedsIff(s: Storage, caller: Addr, k: nat)
    ensures MintLoop(s, caller, k).Ok? <==>
      k == 0 || (s.state.Some? && k <= |s.state.value.tokens| && FreeIds(s.ledger, s.tokenCount, k))
  {
    if k > 0 {
      if MintLoop(s, caller, k).Ok? {
        MintLoopNeeds(s, caller, k);
      } else if s.state.Some? && k <= |s.state.value.tokens| && FreeIds(s.ledger, s.tokenCount, k) {
        MintLoopShape(s, caller, k);
      }
    }
  }

  /** The three ways the loop fails, each with its own error. */
  lemma MintLoopNoState(s: Storage, caller: Addr, k: nat)
    requires k > 0 && s.state.None?
    ensures MintLoop(s, caller, k) == Err(Std(NotFound(StateKind)))
  {
    assert MintLoop(s, caller, 0) == Ok(Progress(s, []));
    LoopErrorPersists(s, caller, 1, k);
  }

  lemma MintLoopOutOfTokens(s: Storage, caller: Addr, k: nat)
    requires s.state.Some? && |s.state.value.tokens| < k && FreeIds(s.ledger, s.tokenCount, |s.state.value.tokens|)
    ensures MintLoop(s, caller, k) == Err(Std(GenericErr(OutOfTokensMsg)))
  {
    var m := |s.state.value.tokens|;
    MintLoopShape(s, caller, m);
    assert MintLoop(s, caller, m + 1) == Err(Std(GenericErr(OutOfTokensMsg)));
    LoopErrorPersists(s, caller, m + 1, k);
  }

  lemma MintLoopClaimed(s: Storage, caller: Addr, k: nat, j: nat)
    requires s.state.Some? && 0 < j <= k && j <= |s.state.value.tokens|
    requires FreeIds(s.ledger, s.tokenCount, j - 1) && DecimalString(s.tokenCount + j) in s.ledger
    ensures MintLoop(s, caller, k) == Err(Claimed)
  {
    var t := s.state.value.tokens;
    MintLoopShape(s, caller, j - 1);
    var p := MintLoop(s, caller, j - 1).value;
    MintedLedgerKeeps(s.ledger, caller, t, s.tokenCount, j - 1);
    assert p.storage.tokenCount == s.tokenCount + (j - 1);
    assert DecimalString(s.tokenCount + j) in p.storage.ledger;
    assert MintStep(p.storage, caller) == Err(Claimed);
    LoopErrorPersists(s, caller, j, k);
  }

  /**
   * Cap enforcement with the loop's conditions: a batch mint succeeds exactly
   * when the caller stays within the cap, the state exists, the pool holds `n`
   * entries and none of the `n` ids is taken.
   */
  lemma BatchMintSucceedsIff(s: Storage, caller: Addr, n: nat)
    ensures BatchMintTx(s, caller, n).result.Ok? <==>
      && Owned(s.ledger, caller) + n <= MaxPerWallet
      && s.state.Some? && n <= |s.state.value.tokens| && FreeIds(s.ledger, s.tokenCount, n)
  {
    MintLoopSucceedsIff(s, caller, n);
    if Owned(s.ledger, caller) + n <= MaxPerWallet && s.state.Some? && n <= |s.state.value.tokens| && FreeIds(s.ledger, s.tokenCount, n) {
      MintLoopShape(s, caller, n);
    }
  }

  /**
   * What a successful batch mint does: the pool loses its last `n` entries,
   * owner and price stay, the counter advances by `n`, the ids `c + 1 .. c + n`
   * are reported in ascending order, and one payment of `n` times the price
   * goes to the owner.
   */
  lemma BatchMintEffect(s: Storage, caller: Addr, n: nat)
    requires BatchMintTx(s, caller, n).result.Ok?
    ensures s.state.Some? && n <= |s.state.value.tokens| && FreeIds(s.ledger, s.tokenCount, n)
    ensures var st := s.state.value; var t := st.tokens;
      BatchMintTx(s, caller, n) == Tx(
        Storage(Some(State(st.owner, t[..|t| - n], st.mintPrice)), s.tokenCount + n, MintedLedger(s.ledger, caller, t, s.tokenCount, n)),
        Ok(MintResponse("mint", caller, IdRange(s.tokenCount + 1, n), [Send(st.owner, [Coin(st.mintPrice.denom, TotalPrice(st.mintPrice, n))])])))
  {
    BatchMintSucceedsIff(s, caller, n);
    MintLoopShape(s, caller, n);
  }

  /** A successful batch mint keeps every earlier record and adds exactly the keys of the minted ids. */
  lemma BatchMintKeepsRecords(s: Storage, caller: Addr, n: nat)
    requires BatchMintTx(s, caller, n).result.Ok?
    ensures var after := BatchMintTx(s, caller, n).storage.ledger;
      && after.Keys == s.ledger.Keys + MintedKeys(s.tokenCount, n)
      && (forall key :: key in s.ledger ==> after[key] == s.ledger[key])
  {
    BatchMintEffect(s, caller, n);
    var t := s.state.value.tokens;
    assert BatchMintTx(s, caller, n).storage.ledger == MintedLedger(s.ledger, caller, t, s.tokenCount, n);
    MintedLedgerKeys(s.ledger, caller, t, s.tokenCount, n);
    MintedLedgerKeeps(s.ledger, caller, t, s.tokenCount, n);
  }

  /** The `j`-th of `ids` is a key of `ledger` holding a token of `caller` with the `j`-th entry of `t` from the end. */
  ghost predicate LastInFirstOut(ledger: map<string, TokenInfo>, caller: Addr, t: seq<string>, ids: seq<nat>)
    requires |ids| <= |t|
  {
    forall j :: 0 <= j < |ids| ==>
      DecimalString(ids[j]) in ledger && ledger[DecimalString(ids[j])] == NewToken(caller, t[|t| - 1 - j])
  }

  lemma {:induction false} MintedLedgerLifo(ledger: map<string, TokenInfo>, caller: Addr, t: seq<string>, c: nat, k: nat)
    requires k <= |t|
    ensures LastInFirstOut(MintedLedger(ledger, caller, t, c, k), caller, t, IdRange(c + 1, k))
    decreases k
  {
    if k > 0 {
      MintedLedgerLifo(ledger, caller, t, c, k - 1);
      var before := IdRange(c + 1, k - 1);
      forall j | 0 <= j < k - 1
        ensures DecimalString(before[j]) != DecimalString(c + k)
      {
        DecimalStringInjective(before[j], c + k);
      }
    }
  }

  /**
   * Last in, first out: the `j`-th id a successful batch mint reports is
   * owned by the caller, has no approvals, and carries the `j`-th pool entry
   * from the end.
   */
  lemma BatchMintLifo(s: Storage, caller: Addr, n: nat)
    requires BatchMintTx(s, caller, n).result.Ok?
    ensures s.state.Some? && n <= |s.state.value.tokens| && |BatchMintTx(s, caller, n).result.value.tokenIds| == n
    ensures LastInFirstOut(BatchMintTx(s, caller, n).storage.ledger, caller, s.state.value.tokens, BatchMintTx(s, caller, n).result.value.tokenIds)
  {
    BatchMintEffect(s, caller, n);
    MintedLedgerLifo(s.ledger, caller, s.state.value.tokens, s.tokenCount, n);
  }

  /** A successful batch mint gives the caller exactly `n` more tokens, never past the cap, and nobody else any. */
  lemma BatchMintOwned(s: Storage, caller: Addr, n: nat, who: Addr)
    requires BatchMintTx(s, caller, n).result.Ok?
    ensures var after := BatchMintTx(s, caller, n).storage.ledger;
      && Owned(after, caller) == Owned(s.ledger, caller) + n <= MaxPerWallet
      && (who != caller ==> Owned(after, who) == Owned(s.ledger, who))
  {
    BatchMintEffect(s, caller, n);
    var t := s.state.value.tokens;
    MintedLedgerOwned(s.ledger, caller, t, s.tokenCount, n, caller);
    MintedLedgerOwned(s.ledger, caller, t, s.tokenCount, n, who);
  }

  /** A zero-count mint succeeds when the state exists, mints nothing and pays zero. */
  lemma BatchMintZero(s: Storage, caller: Addr)
    requires s.state.Some? && Owned(s.ledger, caller) <= MaxPerWallet
    ensures var tx := BatchMintTx(s, caller, 0);
      && tx.storage == s
      && tx.result == Ok(MintResponse("mint", caller, [], [Send(s.state.value.owner, [Coin(s.state.value.mintPrice.denom, 0)])]))
  {
    assert MintLoop(s, caller, 0) == Ok(Progress(s, []));
  }

  /** Without a stored state every mint within the cap fails, even one of zero tokens. */
  lemma BatchMintUninitialized(s: Storage, caller: Addr, n: nat)
    requires s.state.None? && Owned(s.ledger, caller) + n <= MaxPerWallet
    ensures BatchMintTx(s, caller, n) == Tx(s, Err(Std(NotFound(StateKind))))
  {
    if n > 0 {
      MintLoopNoState(s, caller, n);
    } else {
      assert MintLoop(s, caller, 0) == Ok(Progress(s, []));
    }
  }

  /** Asking for more than the pool holds fails with "contract is out of tokens" and changes nothing. */
  lemma BatchMintOutOfTokens(s: Storage, caller: Addr, n: nat)
    requires Owned(s.ledger, caller) + n <= MaxPerWallet
    requires s.state.Some? && |s.state.value.tokens| < n && FreeIds(s.ledger, s.tokenCount, |s.state.value.tokens|)
    ensures BatchMintTx(s, caller, n) == Tx(s, Err(Std(GenericErr(OutOfTokensMsg))))
  {
    MintLoopOutOfTokens(s, caller, n);
  }

  /** An id already in the ledger is never overwritten: the mint fails with Claimed and changes nothing. */
  lemma BatchMintClaimed(s: Storage, caller: Addr, n: nat, j: nat)
    requires Owned(s.ledger, caller) + n <= MaxPerWallet
    requires s.state.Some? && 0 < j <= n && j <= |s.state.value.tokens|
    requires FreeIds(s.ledger, s.tokenCount, j - 1) && DecimalString(s.tokenCount + j) in s.ledger
    ensures BatchMintTx(s, caller, n) == Tx(s, Err(Claimed))
  {
    MintLoopClaimed(s, caller, n, j);
  }

  /** With `m` entries left and free ids, minting `m` succeeds and minting `m + 1` fails. */
  lemma ExhaustionBoundary(s: Storage, caller: Addr)
    requires s.state.Some? && FreeIds(s.ledger, s.tokenCount, |s.state.value.tokens|)
    requires Owned(s.ledger, caller) + |s.state.value.tokens| + 1 <= MaxPerWallet
    ensures BatchMintTx(s, caller, |s.state.value.tokens|).result.Ok?
    ensures BatchMintTx(s, caller, |s.state.value.tokens| + 1) == Tx(s, Err(Std(GenericErr(OutOfTokensMsg))))
  {
    BatchMintSucceedsIff(s, caller, |s.state.value.tokens|);
    BatchMintOutOfTokens(s, caller, |s.state.value.tokens| + 1);
  }

  /** A batch-mint request: who sent it and how many tokens it asks for. */
  datatype Call = Call(sender: Addr, amount: nat)

  /** The storage one request leaves and the ids it minted (none when it failed). */
  ghost function Outcome(s: Storage, call: Call): Progress {
    var tx := BatchMintTx(s, call.sender, call.amount);
    Progress(tx.storage, if tx.result.Ok? then tx.result.value.tokenIds else [])
  }

  /** A run of batch-mint transactions, collecting the ids of the successful ones in order. */
  ghost function Run(s: Storage, calls: seq<Call>): Progress
    decreases |calls|
  {
    if calls == [] then Progress(s, [])
    else
      var first := Outcome(s, calls[0]);
      var rest := Run(first.storage, calls[1..]);
      Progress(rest.storage, first.tokenIds + rest.tokenIds)
  }

  /** `s'` is `s` with `k` entries taken off the end of the pool and the counter `k` further; owner and price equal. */
  ghost predicate Advanced(s: Storage, s': Storage, k: nat) {
    && s.state.Some? && k <= |s.state.value.tokens|
    && s'.state == Some(s.state.value.(tokens := s.state.value.tokens[..|s.state.value.tokens| - k]))
    && s'.tokenCount == s.tokenCount + k
  }

  lemma AdvancedTrans(s: Storage, s1: Storage, s2: Storage, k1: nat, k2: nat)
    requires Advanced(s, s1, k1) && Advanced(s1, s2, k2)
    ensures Advanced(s, s2, k1 + k2)
  {
    var t := s.state.value.tokens;
    var t1 := t[..|t| - k1];
    assert t1[..|t1| - k2] == t[..|t| - (k1 + k2)];
  }

  /** One request either mints the next ids after the counter, taking as many pool entries, or changes nothing. */
  lemma OutcomeShape(s: Storage, call: Call)
    requires s.state.Some?
    ensures Advanced(s, Outcome(s, call).storage, |Outcome(s, call).tokenIds|)
    ensures Consecutive(Outcome(s, call).tokenIds, s.tokenCount + 1)
    ensures Outcome(s, call).tokenIds == [] ==> Outcome(s, call).storage == s
  {
    var tx := BatchMintTx(s, call.sender, call.amount);
    if tx.result.Ok? {
      BatchMintEffect(s, call.sender, call.amount);
      assert |tx.result.value.tokenIds| == call.amount;
    } else {
      assert s.state.value.tokens[..|s.state.value.tokens|] == s.state.value.tokens;
    }
  }

  /**
   * Over any run, the ids minted are the next ones after the counter with no
   * gap or repeat, the counter advances by as many, the pool loses exactly as
   * many entries from its end, and owner and price stay.
   */
  lemma {:induction false} RunShape(s: Storage, calls: seq<Call>)
    requires s.state.Some?
    ensures Advanced(s, Run(s, calls).storage, |Run(s, calls).tokenIds|)
    ensures Consecutive(Run(s, calls).tokenIds, s.tokenCount + 1)
    decreases |calls|
  {
    if calls == [] {
      assert s.state.value.tokens[..|s.state.value.tokens|] == s.state.value.tokens;
    } else {
      var first := Outcome(s, calls[0]);
      OutcomeShape(s, calls[0]);
      RunShape(first.storage, calls[1..]);
      var rest := Run(first.storage, calls[1..]);
      AdvancedTrans(s, first.storage, rest.storage, |first.tokenIds|, |rest.tokenIds|);
      var ids := first.tokenIds + rest.tokenIds;
      forall j | 0 <= j < |ids|
        ensures ids[j] == s.tokenCount + 1 + j
      {
        if j >= |first.tokenIds| {
          assert ids[j] == rest.tokenIds[j - |first.tokenIds|];
        }
      }
    }
  }

  /** From instantiation on, the collection mints ids 1, 2, 3, ... and never more than its initial pool. */
  lemma CollectionLifetime(info: MessageInfo, msg: InstantiateMsg, calls: seq<Call>)
    ensures var r := Run(InstantiateTx(Fresh, info, msg).storage, calls);
      |r.tokenIds| <= |msg.tokens| && Consecutive(r.tokenIds, 1)
  {
    RunShape(InstantiateTx(Fresh, info, msg).storage, calls);
  }

  /** Storage after instantiation by "O" with pool ["a", "b", "c"] at 1 uToken per token. */
  ghost function ScenarioStart(base: Cw721Init): Storage {
    InstantiateTx(Fresh, MessageInfo("O", []), InstantiateMsg(base, ["a", "b", "c"], MintPrice("uToken", 1))).storage
  }

  /** Storage after "C" has minted ids 1 and 2 from that pool. */
  ghost function ScenarioAfterMint(): Storage {
    Storage(Some(State("O", ["a"], MintPrice("uToken", 1))), 2, map["1" := NewToken("C", "c"), "2" := NewToken("C", "b")])
  }

  /**
   * "C" mints 2 from the pool: ids 1 and 2, carrying "c" then "b", the pool is
   * left with ["a"], and 2 uToken go to "O".
   */
  lemma LifoScenarioFirstMint(base: Cw721Init)
    ensures BatchMintTx(ScenarioStart(base), "C", 2)
      == Tx(ScenarioAfterMint(), Ok(MintResponse("mint", "C", [1, 2], [Send("O", [Coin("uToken", 2)])])))
  {
    var t := ["a", "b", "c"];
    var s0 := ScenarioStart(base);
    assert OwnedKeys(s0.ledger, "C") == {};
    assert DecimalString(1) == "1" && DecimalString(2) == "2";
    BatchMintSucceedsIff(s0, "C", 2);
    BatchMintEffect(s0, "C", 2);
    assert MintedLedger(map[], "C", t, 0, 1) == map["1" := NewToken("C", "c")];
    assert IdRange(1, 1) == [1];
    assert t[..1] == ["a"];
    var tx := BatchMintTx(s0, "C", 2);
    assert tx.storage.state == Some(State("O", ["a"], MintPrice("uToken", 1)));
    assert tx.storage.ledger == map["1" := NewToken("C", "c"), "2" := NewToken("C", "b")];
    assert tx.result.value.tokenIds == [1, 2];
  }

  /** A second request by "C" for 2 finds one entry left, fails with "contract is out of tokens" and changes nothing. */
  lemma LifoScenarioSecondMint()
    ensures BatchMintTx(ScenarioAfterMint(), "C", 2) == Tx(ScenarioAfterMint(), Err(Std(GenericErr(OutOfTokensMsg))))
  {
  }

  /** A wallet holding 9 tokens may mint one more, reaching the cap of 10, and no further. */
  lemma CapScenario(s: Storage, caller: Addr)
    requires Owned(s.ledger, caller) == 9
    requires s.state.Some? && |s.state.value.tokens| >= 1 && DecimalString(s.tokenCount + 1) !in s.ledger
    ensures var tx := BatchMintTx(s, caller, 1);
      && tx.result.Ok?
      && BatchMintTx(tx.storage, caller, 1) == Tx(tx.storage, Err(Std(GenericErr(WalletCapMsg))))
  {
    BatchMintSucceedsIff(s, caller, 1);
    BatchMintOwned(s, caller, 1, caller);
  }
}
