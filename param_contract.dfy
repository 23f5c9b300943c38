/**
 * The contract `Param` of contracts/param/lib.rs as an object whose fields are
 * the storage struct's fields. Each message is a method (updates) or a function
 * (reads) that takes the caller explicitly. A refused update returns `Err` and
 * leaves every field as it was, which is what the host's revert guarantees.
 * Every update is tied to `ParamModel.Step`, so the lemmas of `ParamProperties`
 * hold of the object.
 */
module ParamContract {
  import opened ParamModel

  /** The reply an update gives, as `Step` records it. */
  function UpdateReply(r: Result<()>): Result<Reply> {
    match r
    case Ok(_) => Ok(Unit)
    case Err(error) => Err(error)
  }

  class Param {
    var collateralAssets: map<Account, u32>
    var syntheticAssets: map<Account, u8>
    var leverageRatio: (u8, u8)
    var interestRate: u8
    var transactionRate: u8
    var owner: Account

    /** The storage as a value. */
    function State(): Config
      reads this
    {
      Config(collateralAssets, syntheticAssets, leverageRatio, interestRate, transactionRate, owner)
    }

    /** `new`: empty maps, leverage (1, 10), interest rate 0, transaction rate 3, owned by the deployer. */
    constructor (caller: Account)
      ensures State() == Init(caller)
      ensures collateralAssets == map[] && syntheticAssets == map[]
      ensures leverageRatio == (1, 10) && interestRate == 0 && transactionRate == 3
      ensures owner == caller
    {
      collateralAssets := map[];
      syntheticAssets := map[];
      leverageRatio := (1, 10);
      interestRate := 0;
      transactionRate := 3;
      owner := caller;
    }

    /** `is_owner`: the caller is the current owner. */
    predicate IsOwner(caller: Account)
      reads this
      ensures !IsOwner(caller) ==>
                forall m: Message :: m.IsUpdate() ==> Update(State(), caller, m) == Effect(Err(Unauthorized), State())
      ensures IsOwner(caller) ==>
                forall m: Message :: m.IsUpdate() && !m.HasSentinelArgument() ==> Update(State(), caller, m).reply == Ok(Unit)
    {
      owner == caller
    }

    function GetCollateralAsset(asset: Account): (r: Result<u32>)
      reads this
      ensures r.Err? <==> asset == Sentinel
      ensures r.Err? ==> r.error == InvalidKey
      ensures r.Ok? && asset in collateralAssets ==> r.value == collateralAssets[asset]
      ensures r.Ok? && asset !in collateralAssets ==> r.value == 0
      ensures Query(State(), Message.GetCollateralAsset(asset)) == if r.Ok? then Ok(Number(r.value)) else Err(r.error)
    {
      if asset == Sentinel then Err(InvalidKey)
      else if asset in collateralAssets then Ok(collateralAssets[asset])
      else Ok(0)
    }

    method SetCollateralAsset(caller: Account, asset: Account, ratio: u32) returns (r: Result<()>)
      modifies this`collateralAssets
      ensures r == if caller != owner then Err(Unauthorized) else if asset == Sentinel then Err(InvalidKey) else Ok(())
      ensures collateralAssets == if r.Ok? then old(collateralAssets)[asset := ratio] else old(collateralAssets)
      ensures Step(old(State()), caller, Message.SetCollateralAsset(asset, ratio)) == Effect(UpdateReply(r), State())
    {
      if !IsOwner(caller) {
        return Err(Unauthorized);
      }
      if asset == Sentinel {
        return Err(InvalidKey);
      }
      collateralAssets := collateralAssets[asset := ratio];
      r := Ok(());
    }

    method RemoveCollateralAsset(caller: Account, asset: Account) returns (r: Result<()>)
      modifies this`collateralAssets
      ensures r == if caller != owner then Err(Unauthorized) else if asset == Sentinel then Err(InvalidKey) else Ok(())
      ensures collateralAssets == if r.Ok? then old(collateralAssets) - {asset} else old(collateralAssets)
      ensures Step(old(State()), caller, Message.RemoveCollateralAsset(asset)) == Effect(UpdateReply(r), State())
    {
      if !IsOwner(caller) {
        return Err(Unauthorized);
      }
      if asset == Sentinel {
        return Err(InvalidKey);
      }
      collateralAssets := collateralAssets - {asset};
      r := Ok(());
    }

    function IsEffectiveCollateralAsset(asset: Account): (r: Result<bool>)
      reads this
      ensures r.Err? <==> asset == Sentinel
      ensures r.Err? ==> r.error == InvalidKey
      ensures r.Ok? ==> (r.value <==> asset in collateralAssets)
      ensures Query(State(), Message.IsEffectiveCollateralAsset(asset)) == if r.Ok? then Ok(Flag(r.value)) else Err(r.error)
    {
      if asset == Sentinel then Err(InvalidKey) else Ok(asset in collateralAssets)
    }

    function GetSyntheticAsset(asset: Account): (r: Result<u8>)
      reads this
      ensures r.Err? <==> asset == Sentinel
      ensures r.Err? ==> r.error == InvalidKey
      ensures r.Ok? && asset in syntheticAssets ==> r.value == syntheticAssets[asset]
      ensures r.Ok? && asset !in syntheticAssets ==> r.value == 0
      ensures Query(State(), Message.GetSyntheticAsset(asset)) == if r.Ok? then Ok(Number(r.value)) else Err(r.error)
    {
      if asset == Sentinel then Err(InvalidKey)
      else if asset in syntheticAssets then Ok(syntheticAssets[asset])
      else Ok(0)
    }

    method SetSyntheticAsset(caller: Account, asset: Account, status: u8) returns (r: Result<()>)
      modifies this`syntheticAssets
      ensures r == if caller != owner then Err(Unauthorized) else if asset == Sentinel then Err(InvalidKey) else Ok(())
      ensures syntheticAssets == if r.Ok? then old(syntheticAssets)[asset := status] else old(syntheticAssets)
      ensures Step(old(State()), caller, Message.SetSyntheticAsset(asset, status)) == Effect(UpdateReply(r), State())
    {
      if !IsOwner(caller) {
        return Err(Unauthorized);
      }
      if asset == Sentinel {
        return Err(InvalidKey);
      }
      syntheticAssets := syntheticAssets[asset := status];
      r := Ok(());
    }

    method RemoveSyntheticAsset(caller: Account, asset: Account) returns (r: Result<()>)
      modifies this`syntheticAssets
      ensures r == if caller != owner then Err(Unauthorized) else if asset == Sentinel then Err(InvalidKey) else Ok(())
      ensures syntheticAssets == if r.Ok? then old(syntheticAssets) - {asset} else old(syntheticAssets)
      ensures Step(old(State()), caller, Message.RemoveSyntheticAsset(asset)) == Effect(UpdateReply(r), State())
    {
      if !IsOwner(caller) {
        return Err(Unauthorized);
      }
      if asset == Sentinel {
        return Err(InvalidKey);
      }
      syntheticAssets := syntheticAssets - {asset};
      r := Ok(());
    }

    function IsEffectiveSyntheticAsset(asset: Account): (r: Result<bool>)
      reads this
      ensures r.Err? <==> asset == Sentinel
      ensures r.Err? ==> r.error == InvalidKey
      ensures r.Ok? ==> (r.value <==> asset in syntheticAssets)
      ensures Query(State(), Message.IsEffectiveSyntheticAsset(asset)) == if r.Ok? then Ok(Flag(r.value)) else Err(r.error)
    {
      if asset == Sentinel then Err(InvalidKey) else Ok(asset in syntheticAssets)
    }

    function GetLeverageRatio(): (r: (u8, u8))
      reads this
      ensures Query(State(), Message.GetLeverageRatio) == Ok(Pair(r.0, r.1))
    {
      leverageRatio
    }

    /** Stores the pair as given: nothing relates `min` and `max`. */
    method SetLeverageRatio(caller: Account, min: u8, max: u8) returns (r: Result<()>)
      modifies this`leverageRatio
      ensures r == if caller != owner then Err(Unauthorized) else Ok(())
      ensures leverageRatio == if r.Ok? then (min, max) else old(leverageRatio)
      ensures Step(old(State()), caller, Message.SetLeverageRatio(min, max)) == Effect(UpdateReply(r), State())
    {
      if !IsOwner(caller) {
        return Err(Unauthorized);
      }
      leverageRatio := (min, max);
      r := Ok(());
    }

    function GetInterestRate(): (r: u8)
      reads this
      ensures Query(State(), Message.GetInterestRate) == Ok(Number(r))
    {
      interestRate
    }

    method SetInterestRate(caller: Account, rate: u8) returns (r: Result<()>)
      modifies this`interestRate
      ensures r == if caller != owner then Err(Unauthorized) else Ok(())
      ensures interestRate == if r.Ok? then rate else old(interestRate)
      ensures Step(old(State()), caller, Message.SetInterestRate(rate)) == Effect(UpdateReply(r), State())
    {
      if !IsOwner(caller) {
        return Err(Unauthorized);
      }
      interestRate := rate;
      r := Ok(());
    }

    function GetTransactionRate(): (r: u8)
      reads this
      ensures Query(State(), Message.GetTransactionRate) == Ok(Number(r))
    {
      transactionRate
    }

    method SetTransactionRate(caller: Account, rate: u8) returns (r: Result<()>)
      modifies this`transactionRate
      ensures r == if caller != owner then Err(Unauthorized) else Ok(())
      ensures transactionRate == if r.Ok? then rate else old(transactionRate)
      ensures Step(old(State()), caller, Message.SetTransactionRate(rate)) == Effect(UpdateReply(r), State())
    {
      if !IsOwner(caller) {
        return Err(Unauthorized);
      }
      transactionRate := rate;
      r := Ok(());
    }

    /** Hands every write privilege to `newOwner` at once; the caller keeps none. */
    method TransferOwnership(caller: Account, newOwner: Account) returns (r: Result<()>)
      modifies this`owner
      ensures r == if caller != old(owner) then Err(Unauthorized) else if newOwner == Sentinel then Err(InvalidKey) else Ok(())
      ensures owner == if r.Ok? then newOwner else old(owner)
      ensures Step(old(State()), caller, Message.TransferOwnership(newOwner)) == Effect(UpdateReply(r), State())
    {
      if !IsOwner(caller) {
        return Err(Unauthorized);
      }
      if newOwner == Sentinel {
        return Err(InvalidKey);
      }
      owner := newOwner;
      r := Ok(());
    }
  }

  /**
   * A deployment driven through the object: the owner sets the leverage pair, a
   * stranger's write is refused and leaves the default, the owner hands over,
   * after which the old owner is refused and the new owner's write lands.
   */
  method Handoff(a: Account, b: Account)
    returns (leverageWrite: Result<()>, leverage: (u8, u8), strangerWrite: Result<()>, rateAfterRefusal: u8,
             transfer: Result<()>, oldOwnerWrite: Result<()>, newOwnerWrite: Result<()>, finalRate: u8)
    requires b != Sentinel && a != b
    ensures leverageWrite == Ok(()) && leverage == (2, 5)
    ensures strangerWrite == Err(Unauthorized) && rateAfterRefusal == 3
    ensures transfer == Ok(()) && oldOwnerWrite == Err(Unauthorized)
    ensures newOwnerWrite == Ok(()) && finalRate == 1
  {
    var p := new Param(a);
    leverageWrite := p.SetLeverageRatio(a, 2, 5);
    leverage := p.GetLeverageRatio();
    strangerWrite := p.SetTransactionRate(b, 9);
    rateAfterRefusal := p.GetTransactionRate();
    transfer := p.TransferOwnership(a, b);
    oldOwnerWrite := p.SetInterestRate(a, 1);
    newOwnerWrite := p.SetInterestRate(b, 1);
    finalRate := p.GetInterestRate();
  }
}
