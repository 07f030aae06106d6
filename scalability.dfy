/** `Sidechain` (scalability.go): a chain that starts empty, with no genesis
    block, and mines every block it appends, the first one included. */
module Scalability {
  import opened Blockchain

  /** The shape of every sidechain built by `NewSidechain` and `AddBlock`. */
  ghost predicate SidechainValid(digest: Digest, blocks: seq<Block>)
  {
    && (|blocks| > 0 ==> blocks[0].prevHash == "")
    && Indexed(blocks)
    && Linked(blocks)
    && HashesIntact(digest, blocks)
    && MinedFrom(blocks, 0)
  }

  class Sidechain {
    const name: string
    const digest: Digest
    var blocks: seq<Block>

    ghost predicate Valid()
      reads this
    {
      AlwaysSealable(digest) && SidechainValid(digest, blocks)
    }

    /** `NewSidechain`. */
    constructor (name: string, digest: Digest)
      requires AlwaysSealable(digest)
      ensures Valid() && this.name == name && this.digest == digest && blocks == []
    {
      this.name := name;
      this.digest := digest;
      blocks := [];
    }

    /** `AddBlock` at time `now`: mine a block on top of the tip (or on "" when
        the chain is empty) and append it. It cannot fail. */
    method AddBlock(data: string, now: int)
      requires Valid()
      modifies this
      ensures Valid()
      ensures |blocks| == old(|blocks|) + 1 && blocks[..old(|blocks|)] == old(blocks)
      ensures var b := blocks[old(|blocks|)];
              && b.index == old(|blocks|)
              && b.prevHash == (if old(blocks) == [] then "" else old(blocks[|blocks| - 1].hash))
              && b.data == data && b.timestamp == now
              && b.nonce >= 0 && FirstSealingNonce(digest, b, 0)
    {
      var prevHash := "";
      if |blocks| > 0 {
        prevHash := blocks[|blocks| - 1].hash;
      }
      var newBlock := Block(|blocks|, now, data, prevHash, "", 0);
      assert SealableFrom(digest, newBlock);
      newBlock := MineBlock(digest, newBlock);
      blocks := blocks + [newBlock];
    }
  }
}
