/** The hash-linked block chain of blockchain.go: blocks, the block digest,
    the proof-of-work search and the append-only chain object.

    SHA-256 over the block record is not modelled: a chain is given its digest
    as a function value of the five hashed fields (index, timestamp, data,
    previous hash, nonce). The proof-of-work loop of the source has no bound; the
    model proves it terminates under the stated hypothesis that every candidate
    block has some nonce, at or above its own, whose digest meets the target. */
module Blockchain {
  import opened Wrappers

  /** Number of leading '0' characters a mined hash must carry. */
  const Difficulty: nat := 3

  const GenesisData := "Genesis Block"

  datatype Block = Block(index: int, timestamp: int, data: string, prevHash: string, hash: string, nonce: int)

  /** The hex digest of a block record, as a function of the five hashed fields. */
  type Digest = (int, int, string, string, int) -> string

  /** `calculateHash`: the digest of every field except the stored hash itself. */
  function CalculateHash(digest: Digest, b: Block): string
  {
    digest(b.index, b.timestamp, b.data, b.prevHash, b.nonce)
  }

  /** The string of `n` zero digits that `mineBlock` builds as its prefix. */
  function Zeros(n: nat): (s: string)
    ensures |s| == n
    ensures forall i :: 0 <= i < n ==> s[i] == '0'
  {
    if n == 0 then "" else Zeros(n - 1) + "0"
  }

  /** A hash meets the proof-of-work target when it starts with `Difficulty` zeros. */
  predicate MeetsTarget(h: string)
  {
    |h| >= Difficulty && h[..Difficulty] == Zeros(Difficulty)
  }

  function WithNonce(b: Block, n: int): Block
  {
    b.(nonce := n)
  }

  /** Some nonce at or above `b.nonce` seals `b`: the search in `MineBlock` ends. */
  ghost predicate SealableFrom(digest: Digest, b: Block)
  {
    exists n: int :: n >= b.nonce && MeetsTarget(CalculateHash(digest, WithNonce(b, n)))
  }

  /** The hypothesis mining relies on: every digest is at least `Difficulty`
      characters long, so `hash[:difficulty]` never panics, and every candidate
      block has a sealing nonce at or above its own, so the search ends. */
  ghost predicate AlwaysSealable(digest: Digest)
  {
    && (forall i, t, d, p, n :: |digest(i, t, d, p, n)| >= Difficulty)
    && forall b: Block :: SealableFrom(digest, b)
  }

  /** No nonce from `from` up to (not including) `b.nonce` meets the target:
      `b.nonce` is the first sealing nonce of the search that started at `from`. */
  ghost predicate FirstSealingNonce(digest: Digest, b: Block, from: int)
  {
    forall n :: from <= n < b.nonce ==> !MeetsTarget(CalculateHash(digest, WithNonce(b, n)))
  }

  /** `mineBlock`: count the nonce up from the candidate's own until the digest
      meets the target, then store that digest as the block's hash. */
  method MineBlock(digest: Digest, block: Block) returns (mined: Block)
    requires SealableFrom(digest, block)
    ensures mined == block.(nonce := mined.nonce, hash := mined.hash)
    ensures mined.nonce >= block.nonce
    ensures mined.hash == CalculateHash(digest, mined)
    ensures MeetsTarget(mined.hash)
    ensures FirstSealingNonce(digest, mined, block.nonce)
  {
    ghost var target :| target >= block.nonce && MeetsTarget(CalculateHash(digest, WithNonce(block, target)));
    var b := block;
    while true
      invariant b == WithNonce(block, b.nonce)
      invariant block.nonce <= b.nonce <= target
      invariant forall n :: block.nonce <= n < b.nonce ==>
                  !MeetsTarget(CalculateHash(digest, WithNonce(block, n)))
      decreases target - b.nonce
    {
      var hash := CalculateHash(digest, b);
      if MeetsTarget(hash) {
        b := b.(hash := hash);
        break;
      }
      b := b.(nonce := b.nonce + 1);
    }
    mined := b;
    assert forall n :: WithNonce(mined, n) == WithNonce(block, n).(hash := mined.hash);
  }

  /** The genesis block of `NewBlockchain`: hashed, but not mined. */
  function Genesis(digest: Digest, now: int): (g: Block)
    ensures g.index == 0 && g.timestamp == now && g.data == GenesisData
    ensures g.prevHash == "" && g.nonce == 0
    ensures g.hash == CalculateHash(digest, g)
  {
    var b := Block(0, now, GenesisData, "", "", 0);
    b.(hash := CalculateHash(digest, b))
  }

  predicate IsGenesis(b: Block)
  {
    b.index == 0 && b.data == GenesisData && b.prevHash == "" && b.nonce == 0
  }

  /** Block i sits at position i. */
  ghost predicate Indexed(blocks: seq<Block>)
  {
    forall i :: 0 <= i < |blocks| ==> blocks[i].index == i
  }

  /** Every block names its predecessor's hash. */
  ghost predicate Linked(blocks: seq<Block>)
  {
    forall i :: 0 < i < |blocks| ==> blocks[i].prevHash == blocks[i - 1].hash
  }

  /** Every stored hash is the digest of its block's fields. */
  ghost predicate HashesIntact(digest: Digest, blocks: seq<Block>)
  {
    forall i :: 0 <= i < |blocks| ==> blocks[i].hash == CalculateHash(digest, blocks[i])
  }

  /** Every block from position `from` on was mined. */
  ghost predicate MinedFrom(blocks: seq<Block>, from: nat)
  {
    forall i :: from <= i < |blocks| ==> MeetsTarget(blocks[i].hash)
  }

  /** The shape of every chain built by `NewBlockchain` and `AddBlock`
      (the empty chain is Go's zero-value `Blockchain{}`). */
  ghost predicate ChainValid(digest: Digest, blocks: seq<Block>)
  {
    && (|blocks| > 0 ==> IsGenesis(blocks[0]))
    && Indexed(blocks)
    && Linked(blocks)
    && HashesIntact(digest, blocks)
    && MinedFrom(blocks, 1)
  }

  /** What a successful or failed `AddBlock(data)` at time `now` did to a chain:
      nothing to an empty chain, otherwise exactly one new tip linked to the old one. */
  ghost predicate Appended(digest: Digest, before: seq<Block>, after: seq<Block>, data: string, now: int)
  {
    if before == [] then after == []
    else
      && |after| == |before| + 1
      && after[..|before|] == before
      && after[|before|].index == before[|before| - 1].index + 1
      && after[|before|].prevHash == before[|before| - 1].hash
      && after[|before|].timestamp == now
      && after[|before|].data == data
      && after[|before|].nonce >= 0
      && FirstSealingNonce(digest, after[|before|], 0)
  }

  /** A prefix of a valid chain is a valid chain. */
  lemma PrefixValid(digest: Digest, blocks: seq<Block>, k: nat)
    requires ChainValid(digest, blocks) && k <= |blocks|
    ensures ChainValid(digest, blocks[..k])
  {
  }

  /** Sealing a candidate that names the tip keeps the chain valid. */
  lemma ExtendValid(digest: Digest, blocks: seq<Block>, b: Block)
    requires ChainValid(digest, blocks) && |blocks| > 0
    requires b.index == blocks[|blocks| - 1].index + 1
    requires b.prevHash == blocks[|blocks| - 1].hash
    requires b.hash == CalculateHash(digest, b) && MeetsTarget(b.hash)
    ensures ChainValid(digest, blocks + [b])
  {
  }

  /** The digest never maps two different records to one hash. The source's
      digest is not of this kind (its record encoding is lossy); the lemma below
      says what a collision-free digest would buy. */
  ghost predicate CollisionFree(digest: Digest)
  {
    forall i1, t1, d1, p1, n1, i2, t2, d2, p2, n2 ::
      digest(i1, t1, d1, p1, n1) == digest(i2, t2, d2, p2, n2) ==>
        i1 == i2 && t1 == t2 && d1 == d2 && p1 == p2 && n1 == n2
  }

  /** Under a collision-free digest the tip's hash determines the whole chain:
      no earlier block can be altered without changing the tip's hash. */
  lemma {:induction false} TipDeterminesChain(digest: Digest, s1: seq<Block>, s2: seq<Block>)
    requires CollisionFree(digest)
    requires ChainValid(digest, s1) && ChainValid(digest, s2)
    requires |s1| > 0 && |s2| > 0
    requires s1[|s1| - 1].hash == s2[|s2| - 1].hash
    ensures s1 == s2
    decreases |s1|
  {
    var t1, t2 := s1[|s1| - 1], s2[|s2| - 1];
    assert CalculateHash(digest, t1) == CalculateHash(digest, t2);
    assert t1 == t2;
    if |s1| > 1 {
      var p1, p2 := s1[..|s1| - 1], s2[..|s2| - 1];
      assert |s2| == |s1| by {
        assert t1.index == |s1| - 1 && t2.index == |s2| - 1;
      }
      PrefixValid(digest, s1, |s1| - 1);
      PrefixValid(digest, s2, |s2| - 1);
      assert p1[|p1| - 1].hash == t1.prevHash == t2.prevHash == p2[|p2| - 1].hash;
      TipDeterminesChain(digest, p1, p2);
      assert s1 == p1 + [t1] && s2 == p2 + [t2];
    } else {
      assert t2.index == 0;
      assert |s2| == 1;
    }
  }

  /** `Blockchain`: the ordered, append-only sequence of blocks. */
  class Blockchain {
    var blocks: seq<Block>
    const digest: Digest

    ghost predicate Valid()
      reads this
    {
      AlwaysSealable(digest) && ChainValid(digest, blocks)
    }

    /** `NewBlockchain`: a chain holding only the genesis block. */
    constructor (digest: Digest, now: int)
      requires AlwaysSealable(digest)
      ensures Valid() && this.digest == digest
      ensures blocks == [Genesis(digest, now)]
    {
      this.digest := digest;
      blocks := [Genesis(digest, now)];
    }

    /** Go's zero value `&Blockchain{}`: a chain with no blocks at all. */
    constructor Zero(digest: Digest)
      requires AlwaysSealable(digest)
      ensures Valid() && this.digest == digest && blocks == []
    {
      this.digest := digest;
      blocks := [];
    }

    /** `AddBlock`: link a new block to the tip, mine it and append it. */
    method AddBlock(data: string, now: int) returns (o: Outcome)
      requires Valid()
      modifies this
      ensures Valid()
      ensures Appended(digest, old(blocks), blocks, data, now)
      ensures o == if old(blocks) == [] then Fail("blockchain has no genesis block") else Pass
    {
      if |blocks| == 0 {
        return Fail("blockchain has no genesis block");
      }
      var prevBlock := blocks[|blocks| - 1];
      var newBlock := Block(prevBlock.index + 1, now, data, prevBlock.hash, "", 0);
      assert SealableFrom(digest, newBlock);
      newBlock := MineBlock(digest, newBlock);
      ExtendValid(digest, blocks, newBlock);
      blocks := blocks + [newBlock];
      o := Pass;
    }

    /** `GetBlocks`: the current sequence; reading changes nothing. */
    method GetBlocks() returns (bs: seq<Block>)
      requires Valid()
      ensures bs == blocks
      ensures ChainValid(digest, bs)
    {
      bs := blocks;
    }
  }
}
