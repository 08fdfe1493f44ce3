# MultiversX distribution contracts — a Dafny model

This project models the token-distribution smart contracts of
mx-distribution-sc:

- the **community distribution** contract (sc-distribution-rs). Its owner plans
  rounds of a distributed token under a global-operation flag and assigns
  per-user amounts. Users claim what their rounds have spread so far. The
  contract also keeps an older liquidity proxy and an unlock endpoint for
  locked assets.
- the **locked-asset engine**, shared by several contracts. A locked-asset
  position is an SFT batch whose attributes carry an unlock schedule (epochs
  with percentages). Unlocking pays out the matured share, re-locks the rest
  under a rescaled schedule, and burns the payment.
- the **liquidity proxy** (common/modules/src/proxy_pair.rs). Users escrow
  tokens, then add liquidity to an allow-listed DEX pair. Locked assets are
  paid in by minting the underlying asset, and the LP tokens come back wrapped
  in an SFT that remembers the invested locked assets. Removing liquidity
  unwraps it.
- the **locked-asset factory**. Whitelisted callers create locked positions.
  The schedule is either the default one shifted to the current epoch, or a
  custom one. A cache maps attributes to batch nonces, so a repeated schedule
  adds quantity to an existing batch.
- the **locked-rewards** contract. A user locks MEX for a chosen number of
  epochs and receives a locked position of the deposit plus a bonus. The bonus
  percentage is the one for the largest configured epoch count below the lock
  time.
- the **DEX rewards-lock** contract. It records MEX deposits per (address,
  epoch), hands out one NFT per deposit, and lists a user's deposits over a
  range of epochs.

How the model is built:

- Values are datatypes: milestones, schedules, token attributes, escrow keys,
  community rounds and user asset keys. Contract state the source changes in
  place is a `class` whose methods carry `modifies` clauses.
- Every host action (mint, burn, transfer, SFT create and add-quantity,
  calls into a pair) is a value of `Common.Effect`. An endpoint returns the
  effects it performs.
- A failing endpoint returns no effects and leaves its state unchanged. This
  is the host's rollback of an aborted transaction.
- Host answers are parameters: the current epoch, the caller, the payment,
  the pair's replies, whether a transfer or an identifier check succeeds, and
  an issue callback.
- Each method is tied to a specification function. The properties are lemmas
  about those functions: conservation of tokens, the unlock arithmetic,
  idempotence of the residual schedule, escrow bookkeeping and the
  completeness of the listings.

The unlock-schedule engine is copied three times in the source
(common/modules/src/locked_asset.rs, sc-distribution-rs/src/locked_asset.rs and
sc-locked-asset-factory/src/locked_asset.rs); the copies agree and are modelled
once, in module `Schedule`.

## Model

| member | source | states |
|---|---|---|
| Common.TransferIfPositive | common/modules/src/proxy_pair.rs:514-560 | a transfer happens exactly when the amount is positive, and is then a single transfer of that token, nonce and amount |
| Common.BurnIfPositive | common/modules/src/asset.rs:43-51 | a burn happens exactly when the amount is positive, and then burns exactly that amount of the token |
| Common.MintIfPositive | common/modules/src/asset.rs:12-20 | a mint happens exactly when the amount is positive, and then mints exactly that amount of the token |
| GlobalOp.GlobalOperation.constructor | common/modules/src/global_op.rs:14-15 | a fresh flag reads "not ongoing" |
| GlobalOp.GlobalOperation.Start | common/modules/src/global_op.rs:6-8 | after start the operation is ongoing |
| GlobalOp.GlobalOperation.Stop | common/modules/src/global_op.rs:10-12 | after stop the operation is not ongoing |
| GlobalOp.GlobalOperation.RequireNotOngoing | common/modules/src/global_op.rs:17-20 | passes exactly when no operation is ongoing, else fails with "Global operation ongoing" |
| GlobalOp.GlobalOperation.RequireOngoing | common/modules/src/global_op.rs:22-25 | passes exactly when an operation is ongoing, else fails with "Global operation not ongoing" |
| GlobalOp.GuardsAreComplementary | common/modules/src/global_op.rs:17-25 | in every state exactly one of the two guards passes |
| Schedule.GetUnlockAmount | common/modules/src/locked_asset.rs:122-131 | the unlocked amount is the floor of amount times the matured percentage over 100; it is at most the amount when that percentage is at most 100, and 0 for an empty schedule |
| Schedule.GetUnlockPercent | common/modules/src/locked_asset.rs:133-145 | the loop returns the sum of the percentages of the milestones whose epoch is strictly before the current epoch |
| Schedule.CreateNewUnlockMilestones | common/modules/src/locked_asset.rs:147-174 | the loops return the residual schedule: empty when everything matured, else the unmatured milestones rescaled to the remaining share, with the rounding shortfall added to the first one; a panic of the source is an error |
| Schedule.ValidateUnlockMilestones | sc-locked-asset-factory/src/locked_asset.rs:164-186 | the loop returns the verdict of the validation function, including its three error messages |
| Schedule.PartitionSum | common/modules/src/locked_asset.rs:133-174 | the percentages of a schedule split exactly into the matured share and the sum over the milestones that are kept |
| Schedule.PartitionMultiset | common/modules/src/locked_asset.rs:147-174 | every milestone is either matured or kept, never both, and none is lost |
| Schedule.KeptMembers | common/modules/src/locked_asset.rs:158-159 | a milestone is kept if and only if it is in the schedule and its epoch is at or after the current epoch |
| Schedule.MaturedMembers | common/modules/src/locked_asset.rs:139-141 | a milestone has matured if and only if it is in the schedule and its epoch is strictly before the current epoch |
| Schedule.KeptIncreasing | common/modules/src/locked_asset.rs:158-167 | keeping the unmatured milestones preserves strictly increasing epochs |
| Schedule.NothingMatured | common/modules/src/locked_asset.rs:139-141 | when every epoch is at or after now, nothing has matured and every milestone is kept |
| Schedule.RescaleByHundred | common/modules/src/locked_asset.rs:160-164 | rescaling to a remaining share of 100 leaves byte-sized percentages unchanged |
| Schedule.RescaleShape | common/modules/src/locked_asset.rs:158-167 | rescaling keeps each epoch and sets each percentage to percent*100/remaining truncated to a byte |
| Schedule.RescaleBounds | common/modules/src/locked_asset.rs:158-171 | the rescaled sum is bounded above by the exact scaled sum and below by it minus one per milestone |
| Schedule.RescaledPercentsAtMost100 | common/modules/src/locked_asset.rs:158-167 | when the kept percentages fit in the remaining share, every rescaled percentage is at most 100 |
| Schedule.RescaledSum | common/modules/src/locked_asset.rs:158-171 | the rescaled percentages sum to at most 100, and to more than 100 minus their count when the kept ones fill the remaining share |
| Schedule.AddShortfallSum | common/modules/src/locked_asset.rs:168-172 | adding the shortfall to the first milestone makes the percentages sum to exactly 100 and changes nothing else |
| Schedule.ResidualWellDefined | common/modules/src/locked_asset.rs:147-174 | on a schedule summing to 100 the residual computation never panics, and it is empty exactly when everything has matured |
| Schedule.ResidualKeepsUnmatured | common/modules/src/locked_asset.rs:152-167 | a non-empty residual has the kept milestones' epochs, all at or after now, and past the first the rescaled percentages |
| Schedule.ResidualSumsTo100 | common/modules/src/locked_asset.rs:168-172 | a non-empty residual sums to exactly 100, and its first percentage is 100 minus the rest and at most 100 |
| Schedule.ResidualShortfallBound | common/modules/src/locked_asset.rs:158-172 | after rescaling, the shortfall to 100 lies below the number of kept milestones, so the final addition never underflows |
| Schedule.ResidualIdempotent | common/modules/src/locked_asset.rs:147-174 | recomputing the residual of a residual at the same epoch returns it unchanged |
| Schedule.EmptyScheduleResidualTraps | common/modules/src/locked_asset.rs:153-172 | an empty schedule has 100 remaining, so the source indexes an empty vector and panics |
| Schedule.ResidualIncreasing | common/modules/src/locked_asset.rs:158-167 | the residual of a schedule with increasing positive epochs again has increasing positive epochs |
| Schedule.ResidualPercentsAtMost100 | common/modules/src/locked_asset.rs:158-172 | the residual of a schedule summing to at most 100 has every percentage at most 100 |
| Schedule.ResidualStaysValid | sc-locked-asset-factory/src/locked_asset.rs:164-186 | a non-empty valid schedule has a residual, and that residual is empty or again passes validation |
| Schedule.MilestoneCheckPasses | sc-locked-asset-factory/src/locked_asset.rs:170-181 | the loop's checks pass exactly for strictly increasing epochs above the previous epoch, with every percentage at most 100 |
| Schedule.ValidScheduleCharacterization | sc-locked-asset-factory/src/locked_asset.rs:164-186 | a schedule passes validation if and only if its epochs increase strictly from above 0, every percentage is at most 100, and a non-empty one sums to 100 |
| Schedule.WorkedExample | common/modules/src/locked_asset.rs:122-174 | for 30% at epoch 10 and 70% at epoch 20, at epoch 15 one unlocks 30%, 300 of 1000, and the residual is 100% at epoch 20 |
| LockedAsset.PlanUnlock | common/modules/src/locked_asset.rs:92-120 | the error order is bad payment token, then "Cannot unlock more than locked", then "Method called too soon"; an accepted unlock frees the computed amount, which is positive, and re-locks exactly the rest under the residual schedule |
| LockedAsset.IssueNftCheck | sc-locked-asset-factory/src/lib.rs:115-119 | issuing passes exactly for the owner while no locked token is stored, with "Permission denied" and "NFT already issued" otherwise |
| LockedAsset.SetLocalRolesCheck | sc-locked-asset-factory/src/lib.rs:165-167 | setting roles passes exactly for the owner, the stored locked token and a non-empty role list, with the three messages in the source's order |
| LockedAsset.LockedAssetModule.constructor | common/modules/src/locked_asset.rs:182-186 | a new module stores the two token ids and nonce 0 |
| LockedAsset.LockedAssetModule.SetLockedTokenId | sc-locked-asset-factory/src/lib.rs:139-145 | storing the issued token id changes nothing else |
| LockedAsset.LockedAssetModule.IssueNftCallback | sc-locked-asset-factory/src/lib.rs:139-156 | a successful issue stores the token id; a failed one refunds the payment to the owner and keeps the old id |
| LockedAsset.LockedAssetModule.IncreaseNonce | common/modules/src/locked_asset.rs:176-180 | the stored nonce goes up by one and the new nonce is returned |
| LockedAsset.LockedAssetModule.CreateAndSend | common/modules/src/locked_asset.rs:35-70 | a positive amount creates one new batch at the next nonce and sends it; a zero amount does nothing |
| LockedAsset.LockedAssetModule.CreateAndSendMultiple | common/modules/src/locked_asset.rs:17-33 | the loop performs one create-and-send per (amount, schedule) pair, over the shorter list, and numbers the batches consecutively |
| LockedAsset.LockedAssetModule.UnlockAssets | common/modules/src/locked_asset.rs:92-120 | the endpoint performs the unlock transition: on success it mints and sends the unlocked asset, re-locks the rest, burns the payment, and advances the nonce only when a batch was created |
| LockedAsset.MultipleStopsAtShorter | common/modules/src/locked_asset.rs:24-32 | pairing stops at the shorter of the two lists, and at most that many batches are created |
| LockedAsset.MultipleEffectsShape | common/modules/src/locked_asset.rs:17-33 | each created batch is sent in full: two effects per batch, and the quantity created equals the quantity sent |
| LockedAsset.FullScheduleUnlock | common/modules/src/locked_asset.rs:92-120 | on a schedule summing to 100 an unlock succeeds exactly when its amount is positive, otherwise it is "too soon", and nothing is re-locked exactly when the residual is empty |
| LockedAsset.UnlockLogTotals | common/modules/src/locked_asset.rs:104-118 | an unlock mints and sends the unlocked amount, creates and sends the remaining amount, and burns the whole payment |
| LockedAsset.UnlockConserves | common/modules/src/locked_asset.rs:92-120 | an accepted unlock is conservative: unlocked asset plus re-locked quantity equals the burned payment, and all of it reaches the caller |
| LockedAsset.UnlockWorkedExample | common/modules/src/locked_asset.rs:92-174 | unlocking 1000 at epoch 15 from 30%@10 and 70%@20 frees 300 and re-locks 700 at 100%@20 |
| DistributionLockedAsset.DistributionLockedAssetModule.constructor | sc-distribution-rs/src/locked_asset.rs:18-22 | the endpoint shares the contract's global flag and locked-asset state |
| DistributionLockedAsset.DistributionLockedAssetModule.UnlockAssets | sc-distribution-rs/src/locked_asset.rs:119-152 | fails with "Global operation is ongoing" during an operation, changing nothing; otherwise it is the shared unlock transition |
| Distribution.EsdtDistribution.constructor | sc-distribution-rs/src/lib.rs:14-17 | a new contract stores its token, has no rounds and no user assets, and no operation is ongoing |
| Distribution.EsdtDistribution.StartPlanning | sc-distribution-rs/src/lib.rs:19-24 | owner-only; the owner starts the global operation |
| Distribution.EsdtDistribution.EndPlanning | sc-distribution-rs/src/lib.rs:26-31 | owner-only; the owner stops the global operation |
| Distribution.EsdtDistribution.SetCommunityDistrib | sc-distribution-rs/src/lib.rs:33-63 | the guards decide, in order: owner, operation ongoing, a spread epoch at or after now, a spread epoch later than the front round's, a valid schedule; on success a new round with its whole amount still to plan goes in front, keeping the rounds ordered |
| Distribution.EsdtDistribution.ValidateUnlockMilestones | sc-distribution-rs/src/lib.rs:187-205 | the loop returns the distribution's validation verdict |
| Distribution.EsdtDistribution.AddAllUserAssetsToMap | sc-distribution-rs/src/lib.rs:207-256 | a wrong spread epoch fails; otherwise allocation either fails and rolls back, or adds every entry and lowers the front round's remaining amount by their sum |
| Distribution.EsdtDistribution.SetPerUserDistributedAssets | sc-distribution-rs/src/lib.rs:65-76 | the guards in order (owner, operation ongoing, rounds present, entries present); once they pass, the outcome is exactly add_all_user_assets_to_map's: "Bad spread epoch" for a spread epoch other than the front round's, else the allocation's own error or a pass with the new map and remaining amount; a failure changes nothing |
| Distribution.EsdtDistribution.SetPerUserDistributedLockedAssets | sc-distribution-rs/src/lib.rs:78-98 | like the unlocked variant, with the extra guard that the front round has unlock milestones; once all guards pass, the outcome is exactly the locked allocation's |
| Distribution.EsdtDistribution.CalculateUserAssets | sc-distribution-rs/src/lib.rs:258-290 | the loop returns the user's amounts and schedules over the claimable window and removes the entries when asked; a view leaves the map unchanged |
| Distribution.EsdtDistribution.SumOf | sc-distribution-rs/src/lib.rs:369-375 | the loop returns the sum of the list |
| Distribution.EsdtDistribution.ClaimAssets | sc-distribution-rs/src/lib.rs:100-109 | guarded by "not ongoing" and "rounds present", and succeeds exactly when both hold; pays the sum of the user's claimable unlocked amounts by mint and transfer, and deletes the claimed entries |
| Distribution.EsdtDistribution.ClaimLockedAssets | sc-distribution-rs/src/lib.rs:111-120 | same guards, and succeeds exactly when they hold; returns the sum of the locked amounts and deletes those entries |
| Distribution.EsdtDistribution.CalculateAssetsView | sc-distribution-rs/src/lib.rs:146-163 | same guards, and succeeds exactly when they hold; returns that sum and changes no state |
| Distribution.EsdtDistribution.BiggestUnclaimableEpoch | sc-distribution-rs/src/lib.rs:292-298 | is the spread epoch of the first round past the claim window (the fifth round), or 0 when there are no more rounds than the window holds |
| Distribution.EsdtDistribution.UndoLastCommunityDistrib | sc-distribution-rs/src/lib.rs:128-135 | passes exactly for the owner during an operation with rounds present, and then drops the front round only |
| Distribution.EsdtDistribution.UndoUserAssetsBetweenEpochs | sc-distribution-rs/src/lib.rs:137-144 | four guards including "Bad input values", and it succeeds exactly when all four pass; a refused call removes nothing; on success it removes only entries in the range, returns their count, and removes all of them unless gas ran low |
| Distribution.EsdtDistribution.ClearUnclaimableAssets | sc-distribution-rs/src/lib.rs:122-126 | the undo guards ("Permission denied", "Global Operation not ongoing", "Empty community assets list"), and it succeeds exactly when they pass; a refused call removes nothing; on success it removes only entries with a spread epoch up to the biggest unclaimable epoch and returns their count; it removes nothing when that epoch is 0, and every such entry unless gas ran low |
| Distribution.EsdtDistribution.RemoveAssetEntriesBetweenEpochs | sc-distribution-rs/src/lib.rs:300-326 | an upper bound of 0 or an inverted range removes nothing; otherwise only entries in range are removed and counted, and all of them when the gas checks never stop the scan |
| Distribution.EsdtDistribution.RemoveKeys | sc-distribution-rs/src/lib.rs:321-323 | the loop removes exactly the collected keys from the map |
| Distribution.CollectInRange | sc-distribution-rs/src/lib.rs:307-319 | the loop collects distinct keys whose epoch lies in the range, and all of them when it is not stopped early |
| Distribution.NewFrontKeepsOrder | sc-distribution-rs/src/lib.rs:33-63 | a new round with a later spread epoch and its whole amount unplanned keeps the rounds ordered newest first, and within their totals |
| Distribution.ValidationVariantsAgree | sc-distribution-rs/src/lib.rs:187-205 | the distribution's validation, which checks order first and sums separately, accepts exactly the schedules the factory's validation accepts |
| Distribution.OrderCheckPasses | sc-distribution-rs/src/lib.rs:192-200 | the order loop passes exactly for strictly increasing epochs above the previous one |
| Distribution.AllocateSucceedsIff | sc-distribution-rs/src/lib.rs:207-256 | allocation succeeds if and only if the entries fit the remaining amount, name distinct users, and hit no existing key |
| Distribution.AllocateConserves | sc-distribution-rs/src/lib.rs:207-256 | a successful allocation takes exactly the entries' total from the round, keeps the old entries, and stores each entry's amount under its key |
| Distribution.ScanShrinks | sc-distribution-rs/src/lib.rs:258-290 | the scan only removes entries, never changes a value, and returns at most one amount per round |
| Distribution.ViewKeepsMap | sc-distribution-rs/src/lib.rs:280-286 | a scan without deletion leaves the map unchanged |
| Distribution.ScanClears | sc-distribution-rs/src/lib.rs:280-286 | a deleting scan leaves no entry of the user for any round spread by now |
| Distribution.ScanFindsNothing | sc-distribution-rs/src/lib.rs:258-290 | with no entries of the user in the spread rounds, the scan finds nothing |
| Distribution.ClaimTwiceFindsNothing | sc-distribution-rs/src/lib.rs:100-120 | claiming again at the same epoch right after a claim finds nothing more |
| Distribution.ScanIgnoresOtherKeys | sc-distribution-rs/src/lib.rs:274-286 | removing a key no round of the scan looks up does not change what it finds |
| Distribution.ViewMatchesClaim | sc-distribution-rs/src/lib.rs:146-163 | on ordered rounds, the view reports exactly what a claim would collect |
| Distribution.ClearSparesClaimWindow | sc-distribution-rs/src/lib.rs:122-126 | on ordered rounds, either the biggest unclaimable epoch is 0, so clearing removes nothing, or every round in the claim window has a later spread epoch; either way clearing never removes a claimable entry |
| ProxyPair.Credit | common/modules/src/proxy_pair.rs:562-573 | the escrow of that key goes up by the amount and no other key changes |
| ProxyPair.Debit | common/modules/src/proxy_pair.rs:581-596 | fails exactly on underflow; otherwise lowers that key by the amount, clears an emptied entry, and changes no other key |
| ProxyPair.AddLiquidityCheck | common/modules/src/proxy_pair.rs:125-147 | the guards pass exactly when: no operation is ongoing, the pair is intermediated, the tokens differ, exactly one is an SFT, one is the locked token, and both escrows are positive |
| ProxyPair.Reconcile | common/modules/src/proxy_pair.rs:184-226 | fails with "Add liquidity did not return asset token id" exactly when the pair used neither side as the asset, and otherwise only with an underflow; once a side is the asset it succeeds exactly when that side's amount covers what the pair consumed and each debited escrow key holds what the pair used from it (both uses counted when the keys coincide); on success the consumed and unused minted assets add up to the asset side's amount, and the locked nonce is that side's |
| ProxyPair.RemoveLiquidityPlan | common/modules/src/proxy_pair.rs:239-293 | succeeds exactly when all the guards pass, the invested floor share is positive and one side of the returned position is the asset; when everything but the last holds, the error is "Bad tokens received from pair SC"; on success the invested locked amount is the floor share of the wrapped amount, and the asset and fungible sides are taken from the position |
| ProxyPair.Reclaim | common/modules/src/proxy_pair.rs:99-112 | reclaiming both keys clears both escrows and leaves every other key unchanged |
| ProxyPair.ProxyPairModule.constructor | common/modules/src/proxy_pair.rs:606-624 | a new proxy has no pairs, no escrow and wrapped-LP nonce 0 |
| ProxyPair.ProxyPairModule.AddPairToIntermediate | common/modules/src/proxy_pair.rs:69-74 | owner-only; the owner adds the pair |
| ProxyPair.ProxyPairModule.RemoveIntermediatedPair | common/modules/src/proxy_pair.rs:76-82 | owner-only and the pair must be present; then it is removed |
| ProxyPair.ProxyPairModule.AcceptEsdtPaymentProxy | common/modules/src/proxy_pair.rs:84-97 | the guards in order; on success the caller's escrow for the paid token and nonce grows by the amount |
| ProxyPair.ProxyPairModule.IncreaseTemporaryFunds | common/modules/src/proxy_pair.rs:562-573 | the escrow is credited |
| ProxyPair.ProxyPairModule.SendTemporaryFundsBack | common/modules/src/proxy_pair.rs:470-479 | the whole escrow of the key is sent back and cleared |
| ProxyPair.ProxyPairModule.ReclaimTemporaryFundsProxy | common/modules/src/proxy_pair.rs:99-112 | guarded by "not ongoing"; returns both escrows to the caller and clears them |
| ProxyPair.ProxyPairModule.IncreaseNonce | common/modules/src/proxy_pair.rs:575-579 | the wrapped-LP nonce goes up by one and the new nonce is returned |
| ProxyPair.ProxyPairModule.CreateAndSendWrappedLpToken | common/modules/src/proxy_pair.rs:404-468 | creates a wrapped-LP batch recording the LP token, its amount, the locked assets invested and their nonce, and sends it at the next nonce |
| ProxyPair.ProxyPairModule.AddLiquidityProxy | common/modules/src/proxy_pair.rs:114-237 | the endpoint performs the add-liquidity transition, and escrow never holds zero entries |
| ProxyPair.ProxyPairModule.RemoveLiquidityProxy | common/modules/src/proxy_pair.rs:239-325 | a failed plan returns its error with no effects; a successful one performs the removal effects |
| ProxyPair.ReconcileDebitsUsed | common/modules/src/proxy_pair.rs:184-226 | reconciliation debits each escrow by exactly what the pair used from that side and changes no other key |
| ProxyPair.AddLiquidityOutcome | common/modules/src/proxy_pair.rs:114-237 | an accepted add-liquidity passed the guards and called the pair with the escrowed amounts in the source's argument order; it creates and sends one wrapped-LP batch at the next nonce, consumes no more than was escrowed, and keeps escrow free of zero entries |
| ProxyPair.RemoveCleanupConserves | common/modules/src/proxy_pair.rs:295-323 | the caller gets min(received, invested) locked assets and the rest of the received asset; the same min of asset is burned, and sent plus burned locked assets equal the invested amount |
| ProxyPair.ReclaimReturnsEscrow | common/modules/src/proxy_pair.rs:99-112 | the caller receives exactly both escrowed amounts of a token, counting one key once |
| DistributionProxyPair.RequireNotOngoingAsWritten | sc-distribution-rs/src/proxy_pair.rs:399-405 | this guard passes exactly while the global operation is ongoing |
| DistributionProxyPair.StoreDebit | sc-distribution-rs/src/proxy_pair.rs:386-397 | fails exactly on underflow; otherwise stores the difference, even a zero one, and changes no other key |
| DistributionProxyPair.DistAddLiquidityCheck | sc-distribution-rs/src/proxy_pair.rs:112-128 | the guards pass exactly when: operation ongoing (as written), the pair is intermediated, the payment is an SFT of the locked token, and it is non-zero |
| DistributionProxyPair.DistReconcile | sc-distribution-rs/src/proxy_pair.rs:151-192 | fails with "Add liquidity did not return asset token id" exactly when the pair used neither side as the asset, and otherwise only with an underflow; once a side is the asset it succeeds exactly when the payment covers what the pair consumed and each debited escrow key (the payment's, and the other token at nonce 0) holds what the pair used from it; on success the consumed amount is the asset side's and at most the payment |
| DistributionProxyPair.DistributionProxyPairModule.constructor | sc-distribution-rs/src/proxy_pair.rs:415-434 | a new proxy has no pairs and no escrow |
| DistributionProxyPair.DistributionProxyPairModule.AddPairToIntermediate | sc-distribution-rs/src/proxy_pair.rs:57-62 | owner-only; the owner adds the pair |
| DistributionProxyPair.DistributionProxyPairModule.AcceptEsdtPaymentProxy | sc-distribution-rs/src/proxy_pair.rs:64-80 | the guards in order, with only fungible payments accepted; then the payment is forwarded to the pair and credited to escrow |
| DistributionProxyPair.DistributionProxyPairModule.IncreaseTemporaryFunds | sc-distribution-rs/src/proxy_pair.rs:367-378 | the escrow is credited |
| DistributionProxyPair.DistributionProxyPairModule.ReclaimTemporaryFundsProxy | sc-distribution-rs/src/proxy_pair.rs:82-100 | guards as written; it reclaims from the pair, returns and clears both escrows, and burns the asset balance |
| DistributionProxyPair.DistributionProxyPairModule.AddLiquidityProxy | sc-distribution-rs/src/proxy_pair.rs:102-203 | the endpoint performs the distribution's add-liquidity transition |
| DistributionProxyPair.DecreaseVariantsDiffer | sc-distribution-rs/src/proxy_pair.rs:386-397 | emptying an escrow removes the entry in the common proxy, but stores a zero entry in this one |
| DistributionProxyPair.DistAddLiquidityOutcome | sc-distribution-rs/src/proxy_pair.rs:102-203 | an accepted call had a positive locked SFT payment; the escrowed locked key grows by the unconsumed part; the consumed locked assets are burned and a wrapped LP with their milestones is created; nothing is transferred |
| LockedAssetFactory.InitCheck | sc-locked-asset-factory/src/lib.rs:17-29 | deployment passes exactly for a non-empty valid default schedule, and an empty one fails with "Empty param" |
| LockedAssetFactory.DefaultMilestones | sc-locked-asset-factory/src/lib.rs:174-185 | the default schedule is the configured one with every epoch shifted by the current epoch |
| LockedAssetFactory.ForwardCheck | sc-locked-asset-factory/src/lib.rs:48-55 | the guards pass exactly for a whitelisted caller, an issued token and a positive amount, with the messages in the source's order |
| LockedAssetFactory.CustomForwardCheck | sc-locked-asset-factory/src/lib.rs:81-88 | the same guards, plus "Empty param" for an empty custom schedule |
| LockedAssetFactory.ShiftKeepsSum | sc-locked-asset-factory/src/lib.rs:174-185 | shifting the default schedule keeps its percentage sum |
| LockedAssetFactory.DefaultScheduleStaysValid | sc-locked-asset-factory/src/lib.rs:174-185 | a shifted valid schedule is still valid, and none of it has matured at the current epoch |
| LockedAssetFactory.ForwardDelivers | sc-locked-asset-factory/src/lib.rs:57-69 | creating and forwarding sends the recipient exactly the amount and adds exactly that much locked token, whether through a new batch or the cached one |
| LockedAssetFactory.ForwardKeepsCacheValid | sc-locked-asset-factory/src/lib.rs:57-69 | after a forward the attributes are cached and every cached nonce names a batch already created; on a miss the new batch's nonce is above every nonce cached before, so no earlier attributes share it |
| LockedAssetFactory.RepeatReusesNonce | sc-locked-asset-factory/src/lib.rs:57-69 | a second forward with the same attributes adds quantity to the same batch and creates none |
| LockedAssetFactory.CustomScheduleIsNotValidated | sc-locked-asset-factory/src/lib.rs:74-105 | on any non-empty schedule the custom check's verdict is the shared guards', so a schedule that fails validation (30% in total) is still accepted |
| LockedAssetFactory.LockedAssetFactoryContract.constructor | sc-locked-asset-factory/src/lib.rs:17-29 | a new factory stores the owner, the default schedule and the asset token, with no whitelist, no cache and no locked token |
| LockedAssetFactory.LockedAssetFactoryContract.Init | sc-locked-asset-factory/src/lib.rs:17-29 | deployment fails exactly as the init check says, and otherwise yields a fresh factory |
| LockedAssetFactory.LockedAssetFactoryContract.Whitelist | sc-locked-asset-factory/src/lib.rs:31-37 | owner-only; the owner adds the address |
| LockedAssetFactory.LockedAssetFactoryContract.RemoveWhitelist | sc-locked-asset-factory/src/lib.rs:39-45 | owner-only; the owner removes the address |
| LockedAssetFactory.LockedAssetFactoryContract.Forward | sc-locked-asset-factory/src/lib.rs:57-69 | on a cache hit, adds quantity to that batch and sends it; on a miss, creates a new batch, sends it and caches its nonce |
| LockedAssetFactory.LockedAssetFactoryContract.CreateAndForward | sc-locked-asset-factory/src/lib.rs:47-72 | guarded by the forward check; forwards under the default schedule shifted to now |
| LockedAssetFactory.LockedAssetFactoryContract.CreateAndForwardCustomSchedule | sc-locked-asset-factory/src/lib.rs:74-105 | guarded by the custom check; forwards under the given schedule |
| EpochRewards.AddReward | sc-locked-rewards/src/lib.rs:95-106 | refused exactly for an epoch already present; otherwise sets that epoch and keeps every other one |
| EpochRewards.RemoveReward | sc-locked-rewards/src/lib.rs:108-119 | refused exactly for an absent epoch; otherwise removes it and keeps every other one |
| EpochRewards.RewardTable.constructor | sc-locked-rewards/src/lib.rs:38-42 | the init loop inserts every (epoch, percentage) pair in order |
| EpochRewards.RewardTable.AddEpochReward | sc-dex-rewards-lock/src/lib.rs:81-92 | owner-only, then the add-reward rule |
| EpochRewards.RewardTable.RemoveEpochReward | sc-dex-rewards-lock/src/lib.rs:94-105 | owner-only, then the remove-reward rule |
| EpochRewards.LastPairWins | sc-dex-rewards-lock/src/lib.rs:43-46 | the initial table holds exactly the epochs of the pairs, each with the percentage of its last pair |
| EpochRewards.AddThenRemove | sc-locked-rewards/src/lib.rs:95-119 | adding a new epoch and removing it again restores the table |
| LockedRewards.LatestRewardEpoch | sc-locked-rewards/src/lib.rs:227-236 | the largest configured epoch count strictly below the lock time, or 0 when there is none |
| LockedRewards.LatestIsUnique | sc-locked-rewards/src/lib.rs:227-236 | any epoch with those two properties is the one found |
| LockedRewards.Earnings | sc-locked-rewards/src/lib.rs:187-197 | the earnings are the floor of the deposit times that epoch's percentage over 100 |
| LockedRewards.PlanLock | sc-locked-rewards/src/lib.rs:123-158 | the guards in order; a plan uses the percentage of the latest epoch, adds the floor bonus to the deposit, and locks it all until now plus the lock time |
| LockedRewards.FindLatestRewardEpoch | sc-locked-rewards/src/lib.rs:227-236 | the loop over the keys finds the latest reward epoch |
| LockedRewards.GetAllLockRewardOptions | sc-locked-rewards/src/lib.rs:199-210 | lists each configured epoch exactly once, with its percentage |
| LockedRewards.LockedRewardsContract.constructor | sc-locked-rewards/src/lib.rs:21-44 | stores the owner and MEX token with no locked token, and fills the table from the pairs |
| LockedRewards.LockedRewardsContract.Init | sc-locked-rewards/src/lib.rs:21-44 | fails on an invalid token or no pairs, and otherwise yields a fresh contract |
| LockedRewards.LockedRewardsContract.LockMexTokens | sc-locked-rewards/src/lib.rs:123-169 | a failed plan changes nothing; otherwise it creates and sends the locked position at the next nonce and burns the deposited MEX |
| LockedRewards.LockedRewardsContract.CalculateEarnings | sc-locked-rewards/src/lib.rs:187-197 | returns the earnings for the deposit and the epochs waited |
| LockedRewards.BonusIsEarnings | sc-locked-rewards/src/lib.rs:145-146 | the bonus of a lock equals the earnings view for the same amount and lock time |
| LockedRewards.LockNeedsReward | sc-locked-rewards/src/lib.rs:139-143 | after the token guards, a lock fails exactly when no percentage is stored for the latest epoch; without an entry for 0, that is when no configured epoch is below the lock time |
| LockedRewards.LockedPositionMatures | sc-locked-rewards/src/lib.rs:147-158 | the locked amount is at least the deposit; nothing unlocks up to now plus the lock time, everything unlocks after it, and the schedule is valid |
| DexRewardsLock.Deposited | sc-dex-rewards-lock/src/lib.rs:126-130 | a deposit adds the amount to the (caller, epoch) entry and changes no other entry |
| DexRewardsLock.DepositsInRange | sc-dex-rewards-lock/src/lib.rs:168-189 | the listing of an empty range is empty |
| DexRewardsLock.LockCheck | sc-dex-rewards-lock/src/lib.rs:116-121 | the guards pass exactly for an issued NFT, the MEX token and a positive amount, with the messages in the source's order |
| DexRewardsLock.DexRewardsLockContract.constructor | sc-dex-rewards-lock/src/lib.rs:20-49 | stores the owner, the token and the precision, with no NFT, no deposits, and the table filled from the pairs |
| DexRewardsLock.DexRewardsLockContract.Init | sc-dex-rewards-lock/src/lib.rs:27-38 | fails for an invalid token, a precision below 100 or no pairs, and otherwise yields a fresh contract |
| DexRewardsLock.DexRewardsLockContract.IssueNft | sc-dex-rewards-lock/src/lib.rs:53-79 | owner-only |
| DexRewardsLock.DexRewardsLockContract.IssueNftCallback | sc-dex-rewards-lock/src/lib.rs:229-261 | a successful issue stores the NFT id; a failed one refunds the owner |
| DexRewardsLock.DexRewardsLockContract.LockMexTokens | sc-dex-rewards-lock/src/lib.rs:109-151 | the guards, then a failed NFT send aborts and changes nothing; on success the deposit is recorded and one NFT naming the caller and epoch is created and sent |
| DexRewardsLock.DexRewardsLockContract.GetAllDepositsForAddress | sc-dex-rewards-lock/src/lib.rs:168-189 | the loop over the epochs returns the listing of the user's deposits in range |
| DexRewardsLock.ListingIsSound | sc-dex-rewards-lock/src/lib.rs:181-186 | every listed entry lies in the range, carries its stored amount and is non-zero, and the epochs strictly ascend |
| DexRewardsLock.ListingIsComplete | sc-dex-rewards-lock/src/lib.rs:181-186 | every non-zero deposit in the range is listed |
| DexRewardsLock.LockIsListed | sc-dex-rewards-lock/src/lib.rs:126-130 | a deposit at an epoch in the range shows in the listing with the accumulated amount |

## Left out

- Asynchronous issuing and role setting. `issueNft` and `setLocalRoles` start an asynchronous call. Only their guards and the issue callback are modelled; the system call itself belongs to the host.
- common/modules/src/proxy_farm.rs and sc-proxy-dex are not part of this model.
- Attribute decoding. The attributes of a paid SFT (its schedule, or its wrapped-LP record) are a parameter. Only the variant check of the source's decode is modelled, as "Decoding error".
- Integer width. BigUint is an unbounded `nat`. A u64 subtraction that would underflow aborts with `Err`. The `as u8` cast of a rescaled percentage is modelled as `% 256`. Three `u8` accumulators are summed unbounded instead, so their wrap-around above 255 is not modelled:
  - `unlock_percent` of `get_unlock_percent` (common/modules/src/locked_asset.rs:138-144), in `Schedule.UnlockedPercent`;
  - `percents_sum` of `validate_unlock_milestones` (sc-locked-asset-factory/src/locked_asset.rs:168-180), in `Schedule.SumPercents` as used by `Schedule.ValidateSchedule`. A build that wraps would accept [(1,100),(2,100),(3,100),(4,56)], whose sum 356 is 100 modulo 256; the model rejects it with "Percents do not sum up to 100";
  - `sum_of_new_percents` of `create_new_unlock_milestones` (common/modules/src/locked_asset.rs:168-172), in `Schedule.AddShortfall`. `Schedule.ResidualShortfallBound` shows that on a schedule summing to 100 this sum stays at most 100.
- Schedule.ValidScheduleCharacterization: holds for the unbounded percentage sum; with `u8` wrap-around the validation also accepts schedules whose sum is 100 modulo 256.
- Distribution.ValidationVariantsAgree: holds for the unbounded percentage sum of the factory's validation. The distribution's own validation sums into a `u64` (sc-distribution-rs/src/lib.rs:191), which the model's unbounded sum matches. Under `u8` wrap-around the factory's validation would also accept sums of 356 and 612, and the two would disagree.
- Gas. The periodic gas check of the removal scan is the parameter `lowGasAt` (the positions where the scan may stop). Gas limits of calls are not modelled.
- Transfer failures. A failed transfer to a pair ("Failed to transfer to pair") is not modelled; such calls are taken to succeed. The exception is the NFT send of the DEX rewards lock, given as `sendOk`.
- Host checks. The identifier check `is_valid_esdt_identifier` is a parameter `tokenValid`.
- The DEX rewards lock's NFT nonce. It is a counter of created NFTs standing for the nonce the host assigns.
- The DEX rewards lock's `mint_mex_tokens` (sc-dex-rewards-lock/src/lib.rs:193-199) is never called, and is left out.
- The DEX rewards lock's callback also requests roles. That request is a host call and is left out.
- Map iteration order. The host's iteration order of storage maps is not modelled. `CollectInRange` and `FindLatestRewardEpoch` visit keys in an arbitrary order. `GetAllLockRewardOptions` promises each epoch with its percentage, but not the order.
- The token argument of the common `create_and_send_locked_assets` is always the stored locked token, and is modelled that way.
- `increase_nonce` of sc-distribution-rs/src/proxy_pair.rs is never called, and is left out.
- The locked-rewards `unlockAssets` endpoint only delegates to the shared unlock. `LockedAsset.LockedAssetModule.UnlockAssets` models it.
- The optional address argument of `getAllDepositsForAddress` is resolved by the caller and passed as a parameter.
- Deployment failure. A failed `init` aborts deployment; `Init` returns no contract instead.
- The view getters of the distribution contract and of the proxies only read one stored value, and have no contract.
- LockedRewards.GetAllLockRewardOptions: does not state the order of the options, because it depends on the host's map order.
- DexRewardsLock.DepositsInRange: its own contract states only the empty range, because what the listing contains is stated by `ListingIsSound` and `ListingIsComplete`.

## Notes on the source

- After add-liquidity, the escrow of each leg is debited only by what the pair used (common/modules/src/proxy_pair.rs:184-226), so an unused remainder stays in escrow until it is reclaimed (`ReconcileDebitsUsed`).
- Four oddities are modelled as written:
  - The guard named "not ongoing" in sc-distribution-rs/src/proxy_pair.rs passes only while an operation is ongoing (`RequireNotOngoingAsWritten`).
  - That file's decrease stores a zero balance instead of clearing it (`DecreaseVariantsDiffer`).
  - The common proxy passes the pair its amounts as (first amount, second amount, first minimum, second minimum) (`AddLiquidityOutcome`).
  - `claimLockedAssets` deletes the claimed entries but pays nothing.
- Missing helpers:
  - The common proxy calls `send_tokens` and `burn_tokens` on the common locked-asset module, which does not define them. They are modelled after sc-distribution-rs/src/locked_asset.rs:74-97.
  - The common proxy reads `self.locked_asset().token_id()` (common/modules/src/proxy_pair.rs:135,263), but the common locked-asset module declares only `locked_asset_token_id`. It is modelled as the stored locked token id, as `token_id` is in sc-distribution-rs/src/locked_asset.rs:213-215.
  - The proxy of sc-distribution-rs/src/proxy_pair.rs calls `burn` and `burn_balance` on its asset module (lines 98, 157 and 175), which sc-distribution-rs/src/asset.rs does not define. They are modelled after common/modules/src/asset.rs:34-51: `burn` of a positive amount as `BurnIfPositive`, and `burn_balance` as the effect `BurnBalance`, which burns the contract's whole balance of the asset.
  - common/modules/src/locked_asset.rs:105 and sc-locked-asset-factory/src/locked_asset.rs:88 call `mint_and_send_assets`, which their asset modules do not define. It is modelled after sc-distribution-rs/src/lib.rs:328-343: for a positive amount, a mint (`MintIfPositive`) followed by a transfer (`TransferIfPositive`).
  - The factory caches the result of `create_and_send_locked_assets` as a nonce, although that function returns nothing. It is modelled as caching the nonce of the batch just created.
  - The factory's add-quantity helper and its cache module are not shown. They are modelled as an add-quantity followed by a transfer, and as a map from attributes to nonces.
- The factory's custom-schedule endpoint does not validate the schedule (`CustomScheduleIsNotValidated`).
- The schedule engine panics on an empty schedule, because it indexes an empty vector (`EmptyScheduleResidualTraps`).
