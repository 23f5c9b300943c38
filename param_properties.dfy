/**
 * What the parameter store promises, stated over `ParamModel`: the
 * round trips between writes and reads, idempotent removal, the ownership
 * hand-over, and the invariants every sequence of calls preserves.
 */
module ParamProperties {
  import opened ParamModel

  /** A freshly deployed store: every asset reads as zero and not effective, and the scalars hold their defaults. */
  lemma InitialStore(deployer: Account, asset: Account)
    requires asset != Sentinel
    ensures Query(Init(deployer), GetCollateralAsset(asset)) == Ok(Number(0))
    ensures Query(Init(deployer), IsEffectiveCollateralAsset(asset)) == Ok(Flag(false))
    ensures Query(Init(deployer), GetSyntheticAsset(asset)) == Ok(Number(0))
    ensures Query(Init(deployer), IsEffectiveSyntheticAsset(asset)) == Ok(Flag(false))
    ensures Query(Init(deployer), GetLeverageRatio) == Ok(Pair(1, 10))
    ensures Query(Init(deployer), GetInterestRate) == Ok(Number(0))
    ensures Query(Init(deployer), GetTransactionRate) == Ok(Number(3))
    ensures Init(deployer).owner == deployer
    ensures NoSentinelKeys(Init(deployer))
  {
  }

  /** A stored entry is effective whatever its value, so "effective" and "reads as non-zero" differ exactly on stored zeros. */
  lemma EffectiveMeansStored(s: Config, asset: Account)
    requires asset != Sentinel
    ensures Query(s, IsEffectiveCollateralAsset(asset)) == Ok(Flag(asset in s.collateralAssets))
    ensures Query(s, IsEffectiveSyntheticAsset(asset)) == Ok(Flag(asset in s.syntheticAssets))
    ensures Query(s, GetCollateralAsset(asset)) != Ok(Number(0)) ==> asset in s.collateralAssets
    ensures Query(s, GetSyntheticAsset(asset)) != Ok(Number(0)) ==> asset in s.syntheticAssets
    ensures asset in s.collateralAssets && s.collateralAssets[asset] == 0 ==>
              Query(s, GetCollateralAsset(asset)) == Ok(Number(0)) &&
              Query(s, IsEffectiveCollateralAsset(asset)) == Ok(Flag(true))
    ensures asset in s.syntheticAssets && s.syntheticAssets[asset] == 0 ==>
              Query(s, GetSyntheticAsset(asset)) == Ok(Number(0)) &&
              Query(s, IsEffectiveSyntheticAsset(asset)) == Ok(Flag(true))
  {
  }

  /** Owner writes a ratio: the asset reads it back and is effective; nothing else changes. */
  lemma SetCollateralAssetThenRead(s: Config, asset: Account, ratio: u32, other: Account)
    requires asset != Sentinel
    ensures var e := Step(s, s.owner, SetCollateralAsset(asset, ratio));
      && e.reply == Ok(Unit)
      && e.post == s.(collateralAssets := s.collateralAssets[asset := ratio])
      && Query(e.post, GetCollateralAsset(asset)) == Ok(Number(ratio))
      && Query(e.post, IsEffectiveCollateralAsset(asset)) == Ok(Flag(true))
      && (other != asset ==>
            && Query(e.post, GetCollateralAsset(other)) == Query(s, GetCollateralAsset(other))
            && Query(e.post, IsEffectiveCollateralAsset(other)) == Query(s, IsEffectiveCollateralAsset(other)))
  {
  }

  /** Owner writes a status: the asset reads it back and is effective; nothing else changes. */
  lemma SetSyntheticAssetThenRead(s: Config, asset: Account, status: u8, other: Account)
    requires asset != Sentinel
    ensures var e := Step(s, s.owner, SetSyntheticAsset(asset, status));
      && e.reply == Ok(Unit)
      && e.post == s.(syntheticAssets := s.syntheticAssets[asset := status])
      && Query(e.post, GetSyntheticAsset(asset)) == Ok(Number(status))
      && Query(e.post, IsEffectiveSyntheticAsset(asset)) == Ok(Flag(true))
      && (other != asset ==>
            && Query(e.post, GetSyntheticAsset(other)) == Query(s, GetSyntheticAsset(other))
            && Query(e.post, IsEffectiveSyntheticAsset(other)) == Query(s, IsEffectiveSyntheticAsset(other)))
  {
  }

  /**
   * Owner removes an asset: it reads as zero and is not effective; removing an
   * absent asset succeeds and changes nothing, so removing twice is removing once.
   */
  lemma RemoveCollateralAssetThenRead(s: Config, asset: Account, other: Account)
    requires asset != Sentinel
    ensures var e := Step(s, s.owner, RemoveCollateralAsset(asset));
      && e.reply == Ok(Unit)
      && e.post == s.(collateralAssets := s.collateralAssets - {asset})
      && Query(e.post, GetCollateralAsset(asset)) == Ok(Number(0))
      && Query(e.post, IsEffectiveCollateralAsset(asset)) == Ok(Flag(false))
      && (asset !in s.collateralAssets ==> e.post == s)
      && Step(e.post, s.owner, RemoveCollateralAsset(asset)) == Effect(Ok(Unit), e.post)
      && (other != asset ==>
            && Query(e.post, GetCollateralAsset(other)) == Query(s, GetCollateralAsset(other))
            && Query(e.post, IsEffectiveCollateralAsset(other)) == Query(s, IsEffectiveCollateralAsset(other)))
  {
  }

  /**
   * Owner removes a synthetic asset: it reads as zero and is not effective;
   * removing an absent asset succeeds and changes nothing.
   */
  lemma RemoveSyntheticAssetThenRead(s: Config, asset: Account, other: Account)
    requires asset != Sentinel
    ensures var e := Step(s, s.owner, RemoveSyntheticAsset(asset));
      && e.reply == Ok(Unit)
      && e.post == s.(syntheticAssets := s.syntheticAssets - {asset})
      && Query(e.post, GetSyntheticAsset(asset)) == Ok(Number(0))
      && Query(e.post, IsEffectiveSyntheticAsset(asset)) == Ok(Flag(false))
      && (asset !in s.syntheticAssets ==> e.post == s)
      && Step(e.post, s.owner, RemoveSyntheticAsset(asset)) == Effect(Ok(Unit), e.post)
      && (other != asset ==>
            && Query(e.post, GetSyntheticAsset(other)) == Query(s, GetSyntheticAsset(other))
            && Query(e.post, IsEffectiveSyntheticAsset(other)) == Query(s, IsEffectiveSyntheticAsset(other)))
  {
  }

  /**
   * The scalar setters overwrite their field and nothing else; the leverage pair
   * is stored as given, with no check that `min <= max`.
   */
  lemma SetScalarsThenRead(s: Config, min: u8, max: u8, rate: u8)
    ensures var e := Step(s, s.owner, SetLeverageRatio(min, max));
      e == Effect(Ok(Unit), s.(leverageRatio := (min, max))) && Query(e.post, GetLeverageRatio) == Ok(Pair(min, max))
    ensures var e := Step(s, s.owner, SetInterestRate(rate));
      e == Effect(Ok(Unit), s.(interestRate := rate)) && Query(e.post, GetInterestRate) == Ok(Number(rate))
    ensures var e := Step(s, s.owner, SetTransactionRate(rate));
      e == Effect(Ok(Unit), s.(transactionRate := rate)) && Query(e.post, GetTransactionRate) == Ok(Number(rate))
  {
  }

  /** The sentinel as an account argument is refused whoever calls, but only after the owner check. */
  lemma SentinelArgumentRefused(s: Config, caller: Account, m: Message)
    requires m.HasSentinelArgument()
    ensures Step(s, caller, m).post == s
    ensures Step(s, caller, m).reply == Err(if m.IsUpdate() && caller != s.owner then Unauthorized else InvalidKey)
  {
  }

  /**
   * The owner hands over to `newOwner`; afterwards every update by the previous
   * owner is refused, and the same update by `newOwner` answers as it would have
   * answered the previous owner before.
   */
  lemma TransferOwnershipHandsOver(s: Config, newOwner: Account, m: Message)
    requires newOwner != Sentinel && m.IsUpdate()
    ensures var e := Step(s, s.owner, TransferOwnership(newOwner));
      && e == Effect(Ok(Unit), s.(owner := newOwner))
      && (newOwner != s.owner ==> Step(e.post, s.owner, m) == Effect(Err(Unauthorized), e.post))
      && Step(e.post, newOwner, m).reply == Step(s, s.owner, m).reply
  {
  }

  /** Whatever the calls, neither map ever gains the sentinel as a key. */
  lemma {:induction false} RunKeepsNoSentinelKeys(s: Config, calls: seq<Call>)
    requires NoSentinelKeys(s)
    ensures NoSentinelKeys(Run(s, calls))
    decreases |calls|
  {
    if calls != [] {
      RunKeepsNoSentinelKeys(Step(s, calls[0].caller, calls[0].message).post, calls[1..]);
    }
  }

  /** Whatever the calls, a non-sentinel owner is never replaced by the sentinel. */
  lemma {:induction false} RunKeepsOwnerNotSentinel(s: Config, calls: seq<Call>)
    requires s.owner != Sentinel
    ensures Run(s, calls).owner != Sentinel
    decreases |calls|
  {
    if calls != [] {
      RunKeepsOwnerNotSentinel(Step(s, calls[0].caller, calls[0].message).post, calls[1..]);
    }
  }

  /**
   * Every store reached from deployment has no sentinel key; its owner is not the
   * sentinel provided the deployer was not (the constructor does not check it).
   */
  lemma ReachableStore(deployer: Account, calls: seq<Call>)
    ensures NoSentinelKeys(Run(Init(deployer), calls))
    ensures deployer != Sentinel ==> Run(Init(deployer), calls).owner != Sentinel
  {
    RunKeepsNoSentinelKeys(Init(deployer), calls);
    if deployer != Sentinel {
      RunKeepsOwnerNotSentinel(Init(deployer), calls);
    }
  }

  /** Calls none of which comes from the owner leave the store exactly as it was. */
  lemma {:induction false} RunByNonOwnersChangesNothing(s: Config, calls: seq<Call>)
    requires forall i :: 0 <= i < |calls| ==> calls[i].caller != s.owner
    ensures Run(s, calls) == s
    decreases |calls|
  {
    if calls != [] {
      assert Step(s, calls[0].caller, calls[0].message).post == s;
      assert forall i :: 0 <= i < |calls[1..]| ==> calls[1..][i] == calls[i + 1];
      RunByNonOwnersChangesNothing(s, calls[1..]);
    }
  }

  /** The owner changes only through `transfer_ownership`. */
  lemma {:induction false} RunWithoutTransferKeepsOwner(s: Config, calls: seq<Call>)
    requires forall i :: 0 <= i < |calls| ==> !calls[i].message.TransferOwnership?
    ensures Run(s, calls).owner == s.owner
    decreases |calls|
  {
    if calls != [] {
      var e := Step(s, calls[0].caller, calls[0].message);
      assert e.post.owner == s.owner;
      assert forall i :: 0 <= i < |calls[1..]| ==> calls[1..][i] == calls[i + 1];
      RunWithoutTransferKeepsOwner(e.post, calls[1..]);
    }
  }
}
