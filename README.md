# Squares-dao batch mint, modelled in Dafny

Squares-dao is a CosmWasm NFT collection built on cw721-base. When it is
instantiated it stores a `State` record: the owner (the instantiating
address), a pool of metadata entries, and a mint price. Its one piece of
its own logic is `batch_mint`. A caller asks for `n` tokens. The contract
refuses the call if the caller would then own more than 10 tokens. It then
runs `n` passes. Each pass pops the last metadata entry off the pool,
registers a token under the id after cw721's counter (failing if that id
is already claimed) and advances the counter. Finally it returns the minted
ids and one bank transfer of `n` times the price to the owner. Every other
execute message goes to cw721-base unchanged.

The project has seven modules:

- `Wrappers` (`wrappers.dfy`): `Option` and `Result`.
- `Decimal` (`decimal.dfy`): the decimal rendering of an id, which is the key of the token map. Its inverse `ParseDecimal` proves that distinct ids give distinct keys.
- `Cosmwasm` (`cosmwasm.dfy`): addresses, coins, the bank message, message info and the standard errors the core raises.
- `Cw721` (`cw721.dfy`): cw721-base's token record and errors, and `Owned`, the number of tokens an address holds. `Owned` is what counting the owner index yields.
- `CollectionState` (`state.dfy`): the `State` record and the mint price.
- `Contract` (`contract.dfy`): the entry points, in two forms:
  - pure transaction functions over a `Storage` snapshot: `InstantiateTx`, `MintStep`, `MintLoop` and `BatchMintTx`;
  - the class `MintContract`, whose fields are the stored state, the counter and the token map. Its methods change those fields in place. `Instantiate` and `BatchMint` are proved equal to their transaction functions, and `Execute` to `BatchMintTx` on a `BatchMint` message. The loop methods `MintPass` and `MintLoopInPlace` are proved equal to `MintStep` and `MintLoop` in their result, and in the storage they leave on success. `MintPass` also states the storage a failed pass leaves. After an error, `BatchMint` restores the storage with `Rollback`.
- `MintProperties` (`properties.dfy`), which proves what batch minting guarantees about those functions:
  - the exact conditions for success and each error;
  - last-in-first-out use of the pool;
  - consecutive ids;
  - no overwrite of existing records;
  - owner counts and the payment;
  - the effect of any run of batch-mint requests after instantiation.

The host discards every write of a transaction that returns an error. The
model follows that rule: `BatchMintTx` leaves storage as it was on every
error, and `MintContract.BatchMint` keeps a journal of the storage and
restores it with `Rollback`.

`src/state.rs:9-12` declares `State` with only `owner` and
`tokens: Vec<CustomNFT>`. The code that uses it does more:

- it stores and reads a `mint_price` with `denom` and `amount` (src/contract.rs:29, 133-134);
- it puts the popped pool element where a token URI string goes (src/contract.rs:109).

The model follows the code. `State` has `mintPrice: MintPrice(denom, amount)`, and the pool is `seq<string>`.

## Model

| member | source | states |
|---|---|---|
| Decimal.DecimalString | src/contract.rs:116 | the key of id `n` is a non-empty string of digits that starts with '0' only when `n` is 0 |
| Decimal.ParseDecimalString | src/contract.rs:116 | reading the rendered key of `n` back as a decimal number gives `n` |
| Decimal.DecimalStringInjective | src/contract.rs:113-119 | two ids with the same key are the same id, so a fresh id never lands on an existing key |
| Cw721.Owned | src/contract.rs:83-89 | the count of ledger records whose owner is the address, which is what the owner-index count yields; it is at most the number of records. How minting changes it is `Cw721.OwnedAfterInsert` |
| Cw721.OwnedAfterInsert | src/contract.rs:106-119 | registering a record under a fresh key raises its owner's count by one and leaves every other count unchanged |
| Contract.InstantiateTx | src/contract.rs:21-38 | the stored state has the sender as owner, the given pool and price; counter and ledger are untouched; the reply names the sender and the pool size |
| Contract.MintContract.Instantiate | src/contract.rs:15-39 | the in-place instantiate leaves the storage and reply that `InstantiateTx` describes |
| Contract.MintStep | src/contract.rs:99-122 | one pass succeeds exactly when the state exists, the pool is non-empty and the next id is unclaimed; no state gives NotFound, an empty pool gives "contract is out of tokens", a taken next id gives Claimed; on success the last pool entry is popped, the counter goes up by one and the new id maps to a record of the caller with no approvals, that entry as URI and no extension |
| Contract.NextPass | src/contract.rs:99-122 | one pass on top of a loop result: an earlier error is kept; otherwise it succeeds exactly when `MintStep` does, and then the counter and the id list each grow by one. Its closed form is `MintProperties.PassFromPopped` |
| Contract.MintLoop | src/contract.rs:97-123 | the first `k` passes; a success has advanced the counter by `k` and collected `k` ids. When it succeeds is `MintProperties.MintLoopSucceedsIff`, and what it leaves is `MintProperties.MintLoopShape` |
| Contract.LoopErrorPersists | src/contract.rs:98-123 | once a pass fails, running more passes gives the same error: the first failure ends the loop |
| Contract.BatchMintTx | src/contract.rs:76-137 | every error leaves storage exactly as it was; over the cap the call fails with the wallet-cap error before anything is loaded |
| Contract.MintContract.Rollback | src/contract.rs:99-105 | restores the snapshot taken when the transaction began, discarding the pops saved by the failed passes |
| Contract.MintContract.MintPass | src/contract.rs:99-122 | the in-place pass fails exactly when `MintStep` fails, with the same error; on success it returns the id after the old counter and leaves `MintStep`'s storage; a failure before the pop leaves storage as it was, and a failure after it (a claimed id) leaves the pool popped and saved with counter and ledger unchanged |
| Contract.MintContract.MintLoopInPlace | src/contract.rs:97-123 | the in-place loop of `n` passes yields the ids and storage of `MintLoop`, or its first error |
| Contract.MintContract.BatchMint | src/contract.rs:76-137 | the in-place batch mint leaves the storage and returns the result that `BatchMintTx` gives, rolling back on every error |
| Contract.MintContract.Execute | src/contract.rs:48-73 | `BatchMint { amount }` runs the batch mint with the sender as caller and `n = amount`; every other message is handed on unchanged |
| MintProperties.IdRange | src/contract.rs:113-122 | the ids `first .. first + k - 1` are `k` consecutive numbers |
| MintProperties.MintedLedgerKeys | src/contract.rs:113-120 | after `k` passes the ledger's keys are the old keys plus the keys of ids `c + 1 .. c + k` |
| MintProperties.NextKeyFresh | src/contract.rs:113-119 | over free ids, the key a pass writes is not yet in the ledger the earlier passes left |
| MintProperties.MintedLedgerKeeps | src/contract.rs:114-119 | over free ids, every record in the ledger before a run keeps its key and its value |
| MintProperties.MintedLedgerOwned | src/contract.rs:106-119 | over free ids, `k` passes raise the caller's count by `k` and leave every other address's count unchanged |
| MintProperties.PassFromPopped | src/contract.rs:99-122 | with the state present, at least `k` pool entries and the `k` next ids free, one more pass from the loop result after `k - 1` passes gives the result after `k` passes |
| MintProperties.MintLoopShape | src/contract.rs:97-123 | with the state present, at least `k` pool entries and free ids, `k` passes succeed, pop the last `k` entries, advance the counter by `k` and report ids `c + 1 .. c + k` in order |
| MintProperties.MintLoopNeeds | src/contract.rs:97-123 | a successful run of `k > 0` passes implies the state exists, the pool held at least `k` entries and the `k` ids were free |
| MintProperties.MintLoopSucceedsIff | src/contract.rs:97-123 | `k` passes succeed if and only if `k` is 0 or the state, the pool size and the free ids allow it |
| MintProperties.MintLoopNoState | src/contract.rs:99 | with no stored state the first pass fails with NotFound |
| MintProperties.MintLoopOutOfTokens | src/contract.rs:100-104 | with the state present and the ids up to the pool's size free, asking for more passes than the pool holds fails with "contract is out of tokens" |
| MintProperties.MintLoopClaimed | src/contract.rs:114-119 | with the state present, at least `j` pool entries and the first `j - 1` ids free, if the `j`-th id is already a key, the loop fails with Claimed |
| MintProperties.BatchMintSucceedsIff | src/contract.rs:83-123 | a batch mint succeeds if and only if the caller stays within 10 tokens, the state exists, the pool holds `n` entries and the `n` next ids are free |
| MintProperties.BatchMintEffect | src/contract.rs:97-136 | a successful batch mint keeps owner and price, drops the last `n` pool entries, advances the counter by `n`, reports ids `c + 1 .. c + n`, builds the ledger of those `n` passes, and sends one coin of the price's denom for `n` times its amount to the owner |
| MintProperties.BatchMintKeepsRecords | src/contract.rs:114-119 | after a successful batch mint the ledger keys are the old keys plus the new ids' keys, and every old record is unchanged |
| MintProperties.MintedLedgerLifo | src/contract.rs:100-122 | the `j`-th id of `k` passes holds a record of the caller whose URI is the `j`-th pool entry from the end |
| MintProperties.BatchMintLifo | src/contract.rs:98-122 | the `j`-th reported id of a successful batch mint is in the ledger, owned by the caller, with no approvals, no extension, and the `j`-th pool entry from the end as URI |
| MintProperties.BatchMintOwned | src/contract.rs:83-95 | a successful batch mint gives the caller exactly `n` more tokens, never more than 10 in total, and changes nobody else's count |
| MintProperties.BatchMintZero | src/contract.rs:125-136 | with the state present and the caller within the cap, minting 0 tokens succeeds, changes nothing and pays 0 to the owner |
| MintProperties.BatchMintUninitialized | src/contract.rs:99 | without a stored state every batch mint within the cap fails with NotFound and changes nothing, including `n = 0` |
| MintProperties.BatchMintOutOfTokens | src/contract.rs:99-104 | with the caller within the cap for `n` more tokens, the state present and the ids up to the pool's size free, asking for more tokens than the pool holds fails with "contract is out of tokens" and changes nothing |
| MintProperties.BatchMintClaimed | src/contract.rs:114-119 | with the caller within the cap for `n` more, the state present, at least `j <= n` pool entries and the first `j - 1` ids free, if the `j`-th id is already a key, the batch mint fails with Claimed and overwrites nothing |
| MintProperties.ExhaustionBoundary | src/contract.rs:98-104 | with `m` entries left, the ids up to `m` after the counter free and `m + 1` more tokens still within the caller's cap, minting `m` succeeds and minting `m + 1` fails with "contract is out of tokens" |
| MintProperties.OutcomeShape | src/contract.rs:76-137 | from a stored state, a request that reports `k` ids (`k` may be 0) has taken `k` entries off the end of the pool and advanced the counter by `k`, and its ids are the `k` after the counter, in order; owner and price stay; a request that reports no id leaves the whole storage, ledger included, as it was |
| MintProperties.RunShape | src/contract.rs:76-137 | from a stored state, over any sequence of requests the ids reported are the next ones after the counter, with no gap or repeat; the pool loses exactly that many entries from its end; owner and price stay |
| MintProperties.CollectionLifetime | src/contract.rs:21-31 | after instantiation, any run of batch mints mints ids 1, 2, 3, ... and never more tokens than the initial pool |
| MintProperties.LifoScenarioFirstMint | src/contract.rs:98-136 | from the pool ["a","b","c"], minting 2 gives ids 1 and 2 carrying "c" and "b", leaves ["a"] and pays 2 uToken to the owner |
| MintProperties.LifoScenarioSecondMint | src/contract.rs:99-104 | a second request for 2 then fails with "contract is out of tokens" and changes nothing |
| MintProperties.CapScenario | src/contract.rs:91-95 | with the state present, a non-empty pool and the next id free, a wallet holding 9 tokens can mint one more and then no further |

## Left out

- The cw721 pass-through operations (`Mint`, `Approve`, `Revoke`, `ApproveAll`, `RevokeAll`, `TransferNft`, `SendNft`) and `query`. They call into cw721-base, which is not part of this model. `Execute` reports such a message as handed on and makes no claim about storage.
- The base-contract half of `instantiate` (src/contract.rs:33-34): contract info, minter validation and its errors. cw721-base is not part of this model. Its response attributes are also left out.
- Contract.InstantiateTx: does not model a failure of `STATE.save` or of the base instantiate. Both are host or library errors that the core does not raise itself.
- Storage plumbing: `STATE.load` and `save`, `Item`, the indexed map, and serde and JSON-schema derives. Storage is three fields, and the owner-index count is the function `Owned`.
- The error kind of a missing state record is written `"State"`. The host's exact type-name string is not modelled.
- Contract.BatchMintTx: `n`, the owned count, the counter and the price are unbounded `nat`. The `u64` addition `owned_tokens + n`, the `u64` product `mint_price.amount * n` and the `u128` conversion are not modelled for overflow. The price is only ever multiplied by `n <= 10`.
- Contract.MintResponse: the response attributes are kept as values (action, minter, ids as numbers). The `to_string` and `join(",")` formatting of the id list into one attribute is left out. The keys in the ledger do use the decimal rendering.
- Executing the bank transfer is left out. The model returns it as a message. `info.funds` is never examined, as in the source.
- Contract.MintContract.MintLoopInPlace: the storage after a failed pass is not stated (only the result is), because `BatchMint` rolls it back. `MintPass` does state it, for each single pass.
- The host's transaction rollback is modelled by `MintContract.Rollback` restoring a journal snapshot, not by a storage layer.
- Client-side parts, deployment scripts and the message schema are not part of this model.
