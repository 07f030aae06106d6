/** `CrossChainBridge` (interoperability.go): a transfer is a "Lock" block on
    chain A followed by a "Mint" block on chain B. Both chains may be the same
    object, in which case it receives both blocks, in that order. */
module Interoperability {
  import opened Wrappers
  import Blockchain

  class CrossChainBridge {
    const chainA: Blockchain.Blockchain
    const chainB: Blockchain.Blockchain

    /** `NewCrossChainBridge`. */
    constructor (chainA: Blockchain.Blockchain, chainB: Blockchain.Blockchain)
      ensures this.chainA == chainA && this.chainB == chainB
    {
      this.chainA := chainA;
      this.chainB := chainB;
    }

    /** `TransferAsset` at time `now`. Failed appends are ignored and the
        transfer always reports success. */
    method TransferAsset(assetData: string, now: int) returns (o: Outcome)
      requires chainA.Valid() && chainB.Valid()
      modifies chainA, chainB
      ensures o == Pass
      ensures chainA.Valid() && chainB.Valid()
      ensures chainA != chainB ==>
                && Blockchain.Appended(chainA.digest, old(chainA.blocks), chainA.blocks, "Lock asset: " + assetData, now)
                && Blockchain.Appended(chainB.digest, old(chainB.blocks), chainB.blocks, "Mint asset: " + assetData, now)
      ensures chainA == chainB ==>
                exists mid :: && Blockchain.Appended(chainA.digest, old(chainA.blocks), mid, "Lock asset: " + assetData, now)
                              && Blockchain.Appended(chainB.digest, mid, chainA.blocks, "Mint asset: " + assetData, now)
    {
      var _ := chainA.AddBlock("Lock asset: " + assetData, now);
      ghost var mid := chainA.blocks;
      var _ := chainB.AddBlock("Mint asset: " + assetData, now);
      assert chainA == chainB ==> Blockchain.Appended(chainB.digest, mid, chainA.blocks, "Mint asset: " + assetData, now);
      o := Pass;
    }

    /** `VerifyTransfer`: every transfer is reported as verified. */
    method VerifyTransfer(assetData: string) returns (r: Result<bool>)
      ensures r == Ok(true)
    {
      r := Ok(true);
    }
  }
}
