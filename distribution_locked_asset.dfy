/** The locked-asset module of sc-distribution-rs/src/locked_asset.rs: the
    shared engine of LockedAsset, whose unlock_assets is refused while the
    global operation of the contract is ongoing. The flag is the one of
    GlobalOp, read through a reference the contract shares. */
module DistributionLockedAsset {
  import opened Common
  import opened GlobalOp
  import opened LockedAsset

  class DistributionLockedAssetModule {
    const op: GlobalOperation
    const assets: LockedAssetModule

    constructor (op: GlobalOperation, assets: LockedAssetModule)
      ensures this.op == op && this.assets == assets
    {
      this.op := op;
      this.assets := assets;
    }

    /** unlock_assets: "Global operation is ongoing" while the flag is set,
      otherwise the unlock of LockedAsset. */
    method UnlockAssets(caller: Address, paymentToken: TokenId, paymentNonce: Nonce, amount: nat, ms: seq<Milestone>, now: nat)
      returns (o: Outcome, fx: seq<Effect>)
      modifies assets
      ensures op.ongoing ==> o == Fail("Global operation is ongoing") && fx == [] && assets.nonce == old(assets.nonce)
      ensures !op.ongoing ==> (UnlockStep(o, fx, assets.nonce)
        == UnlockTransition(assets.lockedTokenId, assets.assetTokenId, old(assets.nonce), caller, paymentToken, paymentNonce, amount, ms, now))
      ensures assets.lockedTokenId == old(assets.lockedTokenId) && assets.assetTokenId == old(assets.assetTokenId)
      ensures op.ongoing == old(op.ongoing)
    {
      if op.ongoing {
        return Fail("Global operation is ongoing"), [];
      }
      o, fx := assets.UnlockAssets(caller, paymentToken, paymentNonce, amount, ms, now);
    }
  }
}
