# Parameter store `Param`, modelled in Dafny

`Param` (contracts/param/lib.rs) is an ink! smart contract that holds protocol-wide
configuration for one owner. Its storage has five parts:

- a collateral ratio (`u32`) per asset account;
- a synthetic-asset status (`u8`) per asset account;
- a leverage pair `(min, max)`;
- an interest rate and a transaction rate;
- the owner account.

Anyone may read. Only the owner may write. An account argument equal to
`AccountId::default()` (the all-zero account, here `Sentinel`) is refused. A refused
call panics, and the host reverts it.

The model has three modules:

- `ParamModel` (param_model.dfy): the storage as a value (`Config`) and the messages as a datatype (`Message`).
  - `Query` answers the `&self` messages.
  - `Update` runs the `&mut self` messages: the owner check first, then the sentinel check, then the write.
  - `Step` handles one call.
  - `Run` handles a sequence of calls as the host serialises them.
- `ParamProperties` (param_properties.dfy): write-then-read round trips, idempotent removal, the ownership hand-over, and invariants kept by every sequence of calls.
- `ParamContract` (param_contract.dfy): the contract as a class.
  - Its fields are the storage fields. Update methods change only the field they write (``modifies this`field``).
  - Each update method takes the caller as an argument. It returns `Err(Unauthorized)` or `Err(InvalidKey)` for the failed assertion, and then leaves the state unchanged.
  - Each update method is tied to `Step` on the state before and after the call.
  - The reads are functions over the fields.

The host supplies "who is calling" (`Self::env().caller()`, lib.rs:31 and lib.rs:148). Here it is a parameter.

## Model

| member | source | states |
|---|---|---|
| ParamModel.Query | contracts/param/lib.rs:35-130 | Answers all seven reads (`get_collateral_asset`, `is_effective_collateral_asset`, `get_synthetic_asset`, `is_effective_synthetic_asset`, `get_leverage_ratio`, `get_interest_rate`, `get_transaction_rate`). Reads never change the store. A read keyed by an asset fails with `InvalidKey` exactly when the key is the sentinel. An absent asset reads as 0. `is_effective_*` is true exactly when the key is stored. The scalar getters return the stored field. |
| ParamModel.Update | contracts/param/lib.rs:42-149 | Covers all eight updates (the set and remove messages of both maps, the three scalar setters, `transfer_ownership`). A successful update is exactly `Apply`'s write. Every update is refused with `Unauthorized` when the caller is not the owner, and this check runs before the sentinel check. Otherwise a sentinel argument gives `InvalidKey`. Both refusals leave the store unchanged. Each field changes only under the message that writes it. No update adds a sentinel key or installs a sentinel owner. |
| ParamModel.Init | contracts/param/lib.rs:24-33 | The storage `new` builds: both maps empty, leverage (1, 10), interest rate 0, transaction rate 3, and the deployer as owner. It has no sentinel key. |
| ParamModel.Apply | contracts/param/lib.rs:47-144 | The write an update performs once its checks have passed (lib.rs:47, 55, 81, 89, 112, 124, 136, 144). A set adds or overwrites one key with the given value and keeps every other entry as it was. A remove drops one key and keeps every other entry as it was. Each scalar setter and `transfer_ownership` overwrite exactly their field. Nothing outside the written field changes, and a write whose account argument is not the sentinel keeps the store free of sentinel keys. |
| ParamContract.Param.IsOwner | contracts/param/lib.rs:147-149 | The `is_owner` guard. A caller that is not the owner is refused every update with `Unauthorized` and the store stays as it was. The owner gets `Ok` on every update whose account argument is not the sentinel. |
| ParamModel.Step | contracts/param/lib.rs:22-150 | One call: a read or a refused call leaves the store as it was; a call by anyone but the owner changes nothing; "no sentinel key" and "owner is not the sentinel" are preserved. |
| ParamContract.Param.constructor | contracts/param/lib.rs:23-33 | Builds empty maps, leverage (1, 10), interest rate 0, transaction rate 3, and makes the deploying caller the owner (equal to `Init(caller)`). |
| ParamContract.Param.GetCollateralAsset | contracts/param/lib.rs:35-40 | Fails with `InvalidKey` iff the asset is the sentinel. Otherwise returns the stored ratio, or 0 when none is stored. Agrees with `Query`. |
| ParamContract.Param.SetCollateralAsset | contracts/param/lib.rs:42-48 | Checks the owner, then the sentinel. On success the asset maps to `ratio` and only the collateral map changes. On failure nothing changes. Agrees with `Step`. |
| ParamContract.Param.RemoveCollateralAsset | contracts/param/lib.rs:50-56 | Same checks. On success the asset is absent afterwards, which is a no-op when it was already absent. Only the collateral map changes. Agrees with `Step`. |
| ParamContract.Param.IsEffectiveCollateralAsset | contracts/param/lib.rs:58-67 | Fails with `InvalidKey` iff the asset is the sentinel. Otherwise true exactly when the asset has an entry, whatever its value. |
| ParamContract.Param.GetSyntheticAsset | contracts/param/lib.rs:69-74 | As `GetCollateralAsset`, on the synthetic map. |
| ParamContract.Param.SetSyntheticAsset | contracts/param/lib.rs:76-82 | As `SetCollateralAsset`, on the synthetic map. |
| ParamContract.Param.RemoveSyntheticAsset | contracts/param/lib.rs:84-90 | As `RemoveCollateralAsset`, on the synthetic map. |
| ParamContract.Param.IsEffectiveSyntheticAsset | contracts/param/lib.rs:92-101 | As `IsEffectiveCollateralAsset`, on the synthetic map. |
| ParamContract.Param.GetLeverageRatio | contracts/param/lib.rs:103-106 | Returns the pair that `Query` answers. |
| ParamContract.Param.SetLeverageRatio | contracts/param/lib.rs:108-113 | Owner only. Stores `(min, max)` with no check between them, and only that field changes. |
| ParamContract.Param.GetInterestRate | contracts/param/lib.rs:115-118 | Returns the rate that `Query` answers. |
| ParamContract.Param.SetInterestRate | contracts/param/lib.rs:120-125 | Owner only. Only the interest rate changes. |
| ParamContract.Param.GetTransactionRate | contracts/param/lib.rs:127-130 | Returns the rate that `Query` answers. |
| ParamContract.Param.SetTransactionRate | contracts/param/lib.rs:132-137 | Owner only. Only the transaction rate changes. |
| ParamContract.Param.TransferOwnership | contracts/param/lib.rs:139-149 | Checks the owner, then refuses a sentinel new owner. On success only `owner` changes, to `newOwner`. |
| ParamContract.Handoff | contracts/param/lib.rs:108-149 | On a fresh store deployed by any `a` other than a non-sentinel `b` (the deployer is not checked, so `a` may be the sentinel): `a` sets the leverage pair to (2, 5), which succeeds, and reads it back. A write by `b` is refused, so the transaction rate stays at 3. The hand-over from `a` to `b` succeeds; afterwards a write by `a` is refused and the same write by `b` succeeds. |
| ParamProperties.InitialStore | contracts/param/lib.rs:23-33 | In a fresh store every non-sentinel asset reads as 0 and is not effective. The scalars read (1, 10), 0 and 3. The owner is the deployer. There is no sentinel key. |
| ParamProperties.EffectiveMeansStored | contracts/param/lib.rs:58-67 | "Effective" means "has an entry". A non-zero read implies an entry. On both maps, a stored 0 reads as 0 but is effective. |
| ParamProperties.SetCollateralAssetThenRead | contracts/param/lib.rs:42-48 | After the owner sets `(asset, ratio)`, the asset reads `ratio` and is effective. Reads of every other asset are unchanged, and the new store differs from the old only in that entry. |
| ParamProperties.SetSyntheticAssetThenRead | contracts/param/lib.rs:76-82 | The same for the synthetic map. |
| ParamProperties.RemoveCollateralAssetThenRead | contracts/param/lib.rs:50-56 | After the owner removes an asset, it reads 0 and is not effective. Removing an absent asset changes nothing, a second removal is a successful no-op, and other assets are unaffected. |
| ParamProperties.RemoveSyntheticAssetThenRead | contracts/param/lib.rs:84-90 | The same for the synthetic map. |
| ParamProperties.SetScalarsThenRead | contracts/param/lib.rs:103-137 | Each scalar setter by the owner overwrites only its field, and the matching getter returns the new value. The leverage pair is accepted even when `min > max`. |
| ParamProperties.SentinelArgumentRefused | contracts/param/lib.rs:44-45 | A sentinel account argument never changes the store. A read answers `InvalidKey`. An update answers `Unauthorized` when the caller is not the owner, and `InvalidKey` otherwise. |
| ParamProperties.TransferOwnershipHandsOver | contracts/param/lib.rs:139-149 | After the owner transfers to `newOwner`, only `owner` has changed. Every update by the previous owner is refused with `Unauthorized`. The same update by `newOwner` answers as it would have answered the previous owner. |
| ParamProperties.RunKeepsNoSentinelKeys | contracts/param/lib.rs:42-90 | No sequence of calls gives either map a sentinel key: every write to a map key is guarded by the sentinel check (lib.rs:45, 53, 79, 87). |
| ParamProperties.RunKeepsOwnerNotSentinel | contracts/param/lib.rs:139-149 | No sequence of calls makes a non-sentinel owner the sentinel: `owner` is written only by `transfer_ownership`, after the sentinel check on `new_owner` (lib.rs:142). |
| ParamProperties.ReachableStore | contracts/param/lib.rs:24-33 | Every store reached from deployment has no sentinel key. Its owner is the sentinel only if the deployer was. |
| ParamProperties.RunByNonOwnersChangesNothing | contracts/param/lib.rs:147-149 | A sequence of calls none of which comes from the current owner leaves the store exactly as it was. |
| ParamProperties.RunWithoutTransferKeepsOwner | contracts/param/lib.rs:139-145 | The owner changes only through `transfer_ownership`. |

## Left out

- The ink! macros, the `no_std` and `ink-as-dependency` feature gates, and the storage layout and persistence of `ink_storage::collections::HashMap`. The maps are Dafny `map`s.
- The 32-byte `AccountId` and its SCALE encoding. `Account` is an equality type with one distinguished `Sentinel`.
- How the host authenticates the caller and reverts a panicking call. Only the observable effect is modelled: an `Err` result with the state unchanged.
- Integer widths are bounded subset types (`u8`, `u32`). The contract does no arithmetic, so no overflow can arise.
- The constructor does not check that the deployer is not the sentinel. So "owner is not the sentinel" is stated only for stores whose deployer was not the sentinel (`ReachableStore`).
