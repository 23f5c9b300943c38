/**
 * The parameter store `Param` (contracts/param/lib.rs) as a value: its storage,
 * the messages it answers, and what one message does to the storage.
 *
 * The host supplies the caller of every message; here it is an explicit
 * argument. A failed `assert_eq!`/`assert_ne!` aborts the call and the host
 * reverts it, so a failure is an `Err` whose storage is the storage before.
 */
module ParamModel {

  type u8 = x: int | 0 <= x < 0x100
  type u32 = x: int | 0 <= x < 0x1_0000_0000

  /** An account identifier; `Sentinel` is `AccountId::default()`, the all-zero account. */
  datatype Account = Sentinel | Principal(id: nat)

  /** Which assertion stopped a call. */
  datatype Error =
    | Unauthorized  // `is_owner`: the caller is not the owner
    | InvalidKey    // `assert_ne!(_, Default::default())`: an account argument is the sentinel

  datatype Result<+T> = Ok(value: T) | Err(error: Error)

  /** The storage struct `Param`. */
  datatype Config = Config(
    collateralAssets: map<Account, u32>,
    syntheticAssets: map<Account, u8>,
    leverageRatio: (u8, u8),
    interestRate: u8,
    transactionRate: u8,
    owner: Account)

  /** The storage the constructor `new` builds when `deployer` instantiates the contract. */
  function Init(deployer: Account): (s: Config)
    ensures s.owner == deployer
    ensures |s.collateralAssets| == 0 && |s.syntheticAssets| == 0
    ensures NoSentinelKeys(s)
    ensures s.leverageRatio == (1, 10) && s.interestRate == 0 && s.transactionRate == 3
  {
    Config(map[], map[], (1, 10), 0, 3, deployer)
  }

  /** The messages of the contract, with their arguments. */
  datatype Message =
    | GetCollateralAsset(asset: Account)
    | SetCollateralAsset(asset: Account, ratio: u32)
    | RemoveCollateralAsset(asset: Account)
    | IsEffectiveCollateralAsset(asset: Account)
    | GetSyntheticAsset(asset: Account)
    | SetSyntheticAsset(asset: Account, status: u8)
    | RemoveSyntheticAsset(asset: Account)
    | IsEffectiveSyntheticAsset(asset: Account)
    | GetLeverageRatio
    | SetLeverageRatio(min: u8, max: u8)
    | GetInterestRate
    | SetInterestRate(interestRate: u8)
    | GetTransactionRate
    | SetTransactionRate(transactionRate: u8)
    | TransferOwnership(newOwner: Account)
  {
    /** The `&mut self` messages; every one of them starts with `is_owner`. */
    predicate IsUpdate() {
      || SetCollateralAsset? || RemoveCollateralAsset?
      || SetSyntheticAsset? || RemoveSyntheticAsset?
      || SetLeverageRatio? || SetInterestRate? || SetTransactionRate?
      || TransferOwnership?
    }

    /** The messages whose `asset` argument is an asset key. */
    predicate NamesAsset() {
      || GetCollateralAsset? || SetCollateralAsset? || RemoveCollateralAsset? || IsEffectiveCollateralAsset?
      || GetSyntheticAsset? || SetSyntheticAsset? || RemoveSyntheticAsset? || IsEffectiveSyntheticAsset?
    }

    /** An account argument of the message is the sentinel, which the message rejects. */
    predicate HasSentinelArgument() {
      (NamesAsset() && asset == Sentinel) || (TransferOwnership? && newOwner == Sentinel)
    }
  }

  /** What a successful message returns; `Unit` for the updates. */
  datatype Reply = Unit | Number(n: nat) | Flag(flag: bool) | Pair(min: u8, max: u8)

  /** The reply of one call and the storage after it. */
  datatype Effect = Effect(reply: Result<Reply>, post: Config)

  /** Neither asset map has the sentinel as a key. */
  predicate NoSentinelKeys(s: Config) {
    Sentinel !in s.collateralAssets && Sentinel !in s.syntheticAssets
  }

  /** The `&self` messages: they answer from the storage and never change it. */
  function Query(s: Config, m: Message): (r: Result<Reply>)
    requires !m.IsUpdate()
    ensures r.Err? <==> m.HasSentinelArgument()
    ensures r.Err? ==> r.error == InvalidKey
    ensures r.Ok? && m.GetCollateralAsset? ==>
              r.value.Number? && r.value.n == (if m.asset in s.collateralAssets then s.collateralAssets[m.asset] else 0)
    ensures r.Ok? && m.GetSyntheticAsset? ==>
              r.value.Number? && r.value.n == (if m.asset in s.syntheticAssets then s.syntheticAssets[m.asset] else 0)
    ensures r.Ok? && m.IsEffectiveCollateralAsset? ==> r.value == Flag(m.asset in s.collateralAssets)
    ensures r.Ok? && m.IsEffectiveSyntheticAsset? ==> r.value == Flag(m.asset in s.syntheticAssets)
    ensures m.GetLeverageRatio? ==> r == Ok(Pair(s.leverageRatio.0, s.leverageRatio.1))
    ensures m.GetInterestRate? ==> r == Ok(Number(s.interestRate))
    ensures m.GetTransactionRate? ==> r == Ok(Number(s.transactionRate))
  {
    match m
    case GetCollateralAsset(asset) =>
      if asset == Sentinel then Err(InvalidKey)
      else Ok(Number(if asset in s.collateralAssets then s.collateralAssets[asset] else 0))
    case IsEffectiveCollateralAsset(asset) =>
      if asset == Sentinel then Err(InvalidKey) else Ok(Flag(asset in s.collateralAssets))
    case GetSyntheticAsset(asset) =>
      if asset == Sentinel then Err(InvalidKey)
      else Ok(Number(if asset in s.syntheticAssets then s.syntheticAssets[asset] else 0))
    case IsEffectiveSyntheticAsset(asset) =>
      if asset == Sentinel then Err(InvalidKey) else Ok(Flag(asset in s.syntheticAssets))
    case GetLeverageRatio => Ok(Pair(s.leverageRatio.0, s.leverageRatio.1))
    case GetInterestRate => Ok(Number(s.interestRate))
    case GetTransactionRate => Ok(Number(s.transactionRate))
  }

  /** The storage write an update performs once both of its checks have passed. */
  function Apply(s: Config, m: Message): (r: Config)
    requires m.IsUpdate()
    ensures m.SetCollateralAsset? ==>
              && r == s.(collateralAssets := r.collateralAssets)
              && r.collateralAssets.Keys == s.collateralAssets.Keys + {m.asset}
              && r.collateralAssets[m.asset] == m.ratio
              && forall a :: a in s.collateralAssets && a != m.asset ==> r.collateralAssets[a] == s.collateralAssets[a]
    ensures m.RemoveCollateralAsset? ==>
              && r == s.(collateralAssets := r.collateralAssets)
              && r.collateralAssets.Keys == s.collateralAssets.Keys - {m.asset}
              && forall a :: a in r.collateralAssets ==> r.collateralAssets[a] == s.collateralAssets[a]
    ensures m.SetSyntheticAsset? ==>
              && r == s.(syntheticAssets := r.syntheticAssets)
              && r.syntheticAssets.Keys == s.syntheticAssets.Keys + {m.asset}
              && r.syntheticAssets[m.asset] == m.status
              && forall a :: a in s.syntheticAssets && a != m.asset ==> r.syntheticAssets[a] == s.syntheticAssets[a]
    ensures m.RemoveSyntheticAsset? ==>
              && r == s.(syntheticAssets := r.syntheticAssets)
              && r.syntheticAssets.Keys == s.syntheticAssets.Keys - {m.asset}
              && forall a :: a in r.syntheticAssets ==> r.syntheticAssets[a] == s.syntheticAssets[a]
    ensures m.SetLeverageRatio? ==> r == s.(leverageRatio := (m.min, m.max))
    ensures m.SetInterestRate? ==> r == s.(interestRate := m.interestRate)
    ensures m.SetTransactionRate? ==> r == s.(transactionRate := m.transactionRate)
    ensures m.TransferOwnership? ==> r == s.(owner := m.newOwner)
    ensures NoSentinelKeys(s) && !m.HasSentinelArgument() ==> NoSentinelKeys(r)
  {
    match m
    case SetCollateralAsset(asset, ratio) => s.(collateralAssets := s.collateralAssets[asset := ratio])
    case RemoveCollateralAsset(asset) => s.(collateralAssets := s.collateralAssets - {asset})
    case SetSyntheticAsset(asset, status) => s.(syntheticAssets := s.syntheticAssets[asset := status])
    case RemoveSyntheticAsset(asset) => s.(syntheticAssets := s.syntheticAssets - {asset})
    case SetLeverageRatio(min, max) => s.(leverageRatio := (min, max))
    case SetInterestRate(rate) => s.(interestRate := rate)
    case SetTransactionRate(rate) => s.(transactionRate := rate)
    case TransferOwnership(newOwner) => s.(owner := newOwner)
  }

  /**
   * The `&mut self` messages: `is_owner` first, then the sentinel check on the
   * account argument, then the write. Each field changes only under the
   * messages that write it.
   */
  function Update(s: Config, caller: Account, m: Message): (e: Effect)
    requires m.IsUpdate()
    ensures caller != s.owner ==> e == Effect(Err(Unauthorized), s)
    ensures caller == s.owner && m.HasSentinelArgument() ==> e == Effect(Err(InvalidKey), s)
    ensures caller == s.owner && !m.HasSentinelArgument() ==> e == Effect(Ok(Unit), Apply(s, m))
    ensures NoSentinelKeys(s) ==> NoSentinelKeys(e.post)
    ensures s.owner != Sentinel ==> e.post.owner != Sentinel
    ensures e.post.collateralAssets != s.collateralAssets ==> m.SetCollateralAsset? || m.RemoveCollateralAsset?
    ensures e.post.syntheticAssets != s.syntheticAssets ==> m.SetSyntheticAsset? || m.RemoveSyntheticAsset?
    ensures e.post.leverageRatio != s.leverageRatio ==> m.SetLeverageRatio?
    ensures e.post.interestRate != s.interestRate ==> m.SetInterestRate?
    ensures e.post.transactionRate != s.transactionRate ==> m.SetTransactionRate?
    ensures e.post.owner != s.owner ==> m.TransferOwnership?
  {
    if caller != s.owner then Effect(Err(Unauthorized), s)
    else if m.HasSentinelArgument() then Effect(Err(InvalidKey), s)
    else Effect(Ok(Unit), Apply(s, m))
  }

  /** One call of message `m` by `caller` against storage `s`. */
  function Step(s: Config, caller: Account, m: Message): (e: Effect)
    ensures !m.IsUpdate() ==> e.post == s
    ensures e.reply.Err? ==> e.post == s
    ensures caller != s.owner ==> e.post == s
    ensures NoSentinelKeys(s) ==> NoSentinelKeys(e.post)
    ensures s.owner != Sentinel ==> e.post.owner != Sentinel
  {
    if m.IsUpdate() then Update(s, caller, m) else Effect(Query(s, m), s)
  }

  /** A call as the host delivers it: the caller and the message. */
  datatype Call = Call(caller: Account, message: Message)

  /** The storage after the host has run `calls` one after another, starting from `s`. */
  function Run(s: Config, calls: seq<Call>): Config
    decreases |calls|
  {
    if calls == [] then s else Run(Step(s, calls[0].caller, calls[0].message).post, calls[1..])
  }
}
