/** The mock host's chain: a window over its last blocks that slides as the chain grows. */
module HostWindow {
  import opened Basics

  datatype Block = Block(height: Height, time: nat)

  /** The block that follows: one higher, and later by the block time. */
  function NextBlock(b: Block, blockTime: nat): Block {
    Block(b.height.(number := b.height.number + 1), b.time + blockTime)
  }

  /** A chain of blocks, each following the one before. */
  predicate IsChain(blocks: seq<Block>, blockTime: nat) {
    forall i :: 0 < i < |blocks| ==> blocks[i] == NextBlock(blocks[i - 1], blockTime)
  }

  /** One block directly above another. */
  predicate Follows(a: Block, b: Block) {
    b.height == a.height.(number := a.height.number + 1)
  }

  predicate Sequential(blocks: seq<Block>) {
    forall i :: 0 < i < |blocks| ==> Follows(blocks[i - 1], blocks[i])
  }

  function Min(a: nat, b: nat): nat {
    if a < b then a else b
  }

  /** The last `n` elements. */
  function Suffix<T>(s: seq<T>, n: nat): seq<T>
    requires n <= |s|
  {
    s[|s| - n..]
  }

  lemma {:induction false} ChainHeights(blocks: seq<Block>, blockTime: nat, i: nat, j: nat)
    requires IsChain(blocks, blockTime) && i <= j < |blocks|
    ensures blocks[j].height == blocks[i].height.(number := blocks[i].height.number + (j - i))
    ensures blocks[j].time == blocks[i].time + (j - i) * blockTime
    decreases j - i
  {
    if i < j {
      ChainHeights(blocks, blockTime, i, j - 1);
      assert blocks[j] == NextBlock(blocks[j - 1], blockTime);
      assert (j - i) * blockTime == (j - 1 - i) * blockTime + blockTime;
    }
  }

  class Host {
    const maxHistorySize: nat
    const blockTime: nat
    var history: seq<Block>
    /** Every block the host ever had. */
    ghost var chain: seq<Block>

    ghost predicate Valid()
      reads this
    {
      && 0 < maxHistorySize
      && chain != [] && chain[0].height.number >= 1
      && IsChain(chain, blockTime)
      && history == Suffix(chain, Min(maxHistorySize, |chain|))
    }

    /** Start with as many blocks up to `latest` as the window and the height allow, oldest first. */
    constructor (maxHistorySize: nat, latest: Height, latestTime: nat, blockTime: nat)
      requires maxHistorySize > 0 && latest.number > 0
      requires (Min(maxHistorySize, latest.number) - 1) * blockTime <= latestTime
      ensures Valid() && this.maxHistorySize == maxHistorySize && this.blockTime == blockTime
      ensures chain == history && |history| == Min(maxHistorySize, latest.number)
      ensures history[|history| - 1] == Block(latest, latestTime)
    {
      this.maxHistorySize, this.blockTime := maxHistorySize, blockTime;
      var n := Min(maxHistorySize, latest.number);
      var blocks: seq<Block> := [];
      for i := n downto 0
        invariant |blocks| == n - i && IsChain(blocks, blockTime)
        invariant blocks != [] ==> blocks[0].height.number >= 1
        invariant i < n ==> i * blockTime <= latestTime
        invariant i < n ==> blocks[|blocks| - 1] == Block(latest.(number := latest.number - i),
                                                          latestTime - i * blockTime)
      {
        Product(i, n - 1, blockTime);
        assert (i + 1) * blockTime == i * blockTime + blockTime;
        blocks := blocks + [Block(latest.(number := latest.number - i), latestTime - i * blockTime)];
      }
      history := blocks;
      chain := blocks;
    }

    function LatestHeight(): Height
      requires history != []
      reads this
    {
      history[|history| - 1].height
    }

    /** Add a block: push it, or rotate the full window and overwrite its last place. */
    method AdvanceHostChainHeight()
      requires Valid()
      modifies this
      ensures Valid()
      ensures chain == old(chain) + [NextBlock(old(chain)[|old(chain)| - 1], blockTime)]
    {
      var latest := history[|history| - 1];
      var newBlock := NextBlock(latest, blockTime);
      if |history| >= maxHistorySize {
        history := history[1..] + [history[0]];
        history := history[maxHistorySize - 1 := newBlock];
      } else {
        history := history + [newBlock];
      }
      chain := chain + [newBlock];
      assert history == Suffix(chain, Min(maxHistorySize, |chain|));
    }

    /** Look a block up by its height inside the revision. */
    method HostBlock(target: nat) returns (r: Option<Block>)
      requires Valid()
      ensures var oldest := history[0].height.number;
        r.Some? <==> oldest <= target <= LatestHeight().number
      ensures r.Some? ==> r.value in chain && r.value.height == LatestHeight().(number := target)
      ensures r.Some? ==> forall b <- chain :: b.height.number == target ==> b == r.value
    {
      var latest := LatestHeight().number;
      WindowHeights();
      if target > latest || target <= latest - |history| {
        return None;
      }
      var index := |history| + target - latest - 1;
      ghost var offset := |chain| - |history|;
      ChainHeights(chain, blockTime, offset, offset + index);
      assert history[index] == chain[offset + index];
      forall b <- chain | b.height.number == target ensures b == history[index] {
        var i :| 0 <= i < |chain| && chain[i] == b;
        ChainHeights(chain, blockTime, 0, i);
        ChainHeights(chain, blockTime, 0, offset + index);
      }
      return Some(history[index]);
    }

    /** The window's heights are consecutive and never go below one, so no index is out of range. */
    lemma WindowHeights()
      requires Valid()
      ensures Sequential(history) && |history| <= maxHistorySize
      ensures |history| <= LatestHeight().number
      ensures forall b <- history :: b.height == LatestHeight().(number := b.height.number)
      ensures history[0].height.number == LatestHeight().number - |history| + 1
    {
      var offset := |chain| - |history|;
      forall i | 0 <= i < |history| ensures history[i].height == LatestHeight().(number := history[i].height.number) {
        ChainHeights(chain, blockTime, offset + i, |chain| - 1);
      }
      ChainHeights(chain, blockTime, 0, |chain| - 1);
      ChainHeights(chain, blockTime, offset, |chain| - 1);
    }

    /** The host's own check of its window, written for any window. */
    method Validate() returns (ok: bool)
      ensures ok <==> |history| <= maxHistorySize && Sequential(history)
    {
      if |history| > maxHistorySize {
        return false;
      }
      var i := 1;
      while i < |history|
        invariant 1 <= i
        invariant forall j :: 0 < j < i && j < |history| ==> Follows(history[j - 1], history[j])
      {
        if !Follows(history[i - 1], history[i]) {
          return false;
        }
        i := i + 1;
      }
      return true;
    }

    /** Advance block by block to a height of the same revision. */
    method WithHeight(target: nat)
      requires Valid() && LatestHeight().number <= target
      modifies this
      ensures Valid() && LatestHeight() == old(LatestHeight()).(number := target)
      ensures old(chain) <= chain && |chain| == |old(chain)| + (target - old(LatestHeight()).number)
    {
      ghost var start := LatestHeight().number;
      while LatestHeight().number < target
        invariant Valid() && start <= LatestHeight().number <= target
        invariant LatestHeight() == old(LatestHeight()).(number := LatestHeight().number)
        invariant old(chain) <= chain && |chain| == |old(chain)| + (LatestHeight().number - start)
        decreases target - LatestHeight().number
      {
        AdvanceHostChainHeight();
      }
    }
  }

  lemma Product(i: nat, n: nat, t: nat)
    requires i <= n
    ensures 0 <= i * t <= n * t
  {
  }
}
