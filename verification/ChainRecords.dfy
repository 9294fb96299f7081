/** What the chain records of each block besides its place in the tree, kept right from the genesis on. */
module ChainRecords {
  import opened Words
  import opened BlockTree
  import opened BloomIndex
  import opened ChainIndex
  import opened Uncles

  /** The parent lists its new child. */
  function Filed(records: map<Hash, Record>, h: Hash, parent: Hash, cited: seq<Hash>, author: nat, time: int)
    : map<Hash, Record>
    requires parent in records
  {
    var p := records[parent];
    records[parent := p.(children := p.children + [h])][h := Record([], cited, author, time)]
  }

  /** The new block has its record, its parent lists it as the last child, and the others are as they were. */
  ghost predicate FiledNext(records: map<Hash, Record>, records': map<Hash, Record>, h: Hash, parent: Hash, r: Record)
    requires parent in records && parent != h
  {
    && records'.Keys == records.Keys + {h} && records'[h] == r
    && records'[parent].children == records[parent].children + [h] && records'[parent].cited == records[parent].cited
    && records'[parent].author == records[parent].author && records'[parent].time == records[parent].time
    && forall k :: k in records && k != parent && k != h ==> records'[k] == records[k]
  }

  /** A block that follows its parent in number and time may be stored. */
  lemma FiledKeeps(c: Chain, h: Hash, b: Block, cited: seq<Hash>, author: nat, time: int)
    requires ChainOk(c) && Fits(c.tree, c.genesis, h, b) && b.number < MAX_NUMBER && c.records[b.parent].time < time
    ensures ChainOk(Chain(c.tree[h := b], c.genesis, Filed(c.records, h, b.parent, cited, author, time)))
  {
    GrowWellFormed(c.tree, c.genesis, h, b);
    var c' := Chain(c.tree[h := b], c.genesis, Filed(c.records, h, b.parent, cited, author, time));
    forall k
      ensures Recorded(c', k)
    {
      assert Recorded(c, k) && Linked(c.tree, c.genesis, k);
    }
  }

  /** Every block but the genesis is among the children of its parent. */
  ghost predicate AllListed(c: Chain)
    requires ChainOk(c)
  {
    forall k {:trigger ListedAt(c, k)} :: ListedAt(c, k)
  }

  ghost predicate ListedAt(c: Chain, k: Hash)
    requires ChainOk(c)
  {
    assert Recorded(c, k) && Linked(c.tree, c.genesis, k);
    k in c.tree && k != c.genesis ==> k in c.records[c.tree[k].parent].children
  }

  lemma FiledLists(c: Chain, h: Hash, b: Block, cited: seq<Hash>, author: nat, time: int)
    requires ChainOk(c) && AllListed(c) && Fits(c.tree, c.genesis, h, b) && h !in c.records
    requires b.number < MAX_NUMBER && c.records[b.parent].time < time
    ensures var c' := Chain(c.tree[h := b], c.genesis, Filed(c.records, h, b.parent, cited, author, time));
            ChainOk(c') && AllListed(c')
  {
    FiledKeeps(c, h, b, cited, author, time);
    var c' := Chain(c.tree[h := b], c.genesis, Filed(c.records, h, b.parent, cited, author, time));
    forall k
      ensures ListedAt(c', k)
    {
      assert ListedAt(c, k) && Recorded(c, k) && Linked(c.tree, c.genesis, k);
    }
  }

  datatype Stored = InvalidTimestamp | Checked(result: ImportResult)
  {
    predicate Accepted() { Checked? && result.Imported? }
  }

  /** A chain together with its records. */
  class RecordedChain {
    const chain: BlockChain
    var records: map<Hash, Record>

    ghost function View(): Chain
      reads this, chain
    {
      Chain(chain.blocks, chain.genesis, records)
    }

    ghost predicate Valid()
      reads this, chain, chain.blooms
    {
      chain.Valid() && ChainOk(View()) && AllListed(View()) && records.Keys == chain.blocks.Keys
    }

    constructor (genesis: Hash, difficulty: nat, gasUsed: nat, bloom: Bloom, tieBreakingGas: bool, author: nat,
                 time: int)
      requires genesis != 0 && difficulty < TWO_256
      ensures Valid() && fresh(chain) && fresh(chain.blooms)
      ensures chain.head == genesis && chain.blocks.Keys == {genesis}
    {
      chain := new BlockChain(genesis, difficulty, gasUsed, bloom, tieBreakingGas);
      records := map[genesis := Record([], [], author, time)];
      new;
      assert forall h :: Linked(chain.blocks, genesis, h) && Recorded(View(), h);
    }

    method File(h: Hash, parent: Hash, cited: seq<Hash>, author: nat, time: int)
      requires parent in records && h !in records
      modifies this`records
      ensures records == Filed(old(records), h, parent, cited, author, time)
      ensures FiledNext(old(records), records, h, parent, Record([], cited, author, time))
    {
      records := Filed(records, h, parent, cited, author, time);
    }

    /** Import a block that names `cited` as its uncles, unless it is no later than its parent. */
    method Import(h: Hash, number: nat, parent: Hash, difficulty: nat, gasUsed: nat, bloom: Bloom, cited: seq<Hash>,
                  author: nat, time: int)
      returns (r: Stored)
      requires Valid() && h != 0 && number < MAX_NUMBER
      modifies this, chain, chain.blooms
      ensures Valid()
      ensures r.InvalidTimestamp? <==>
                h !in old(chain.blocks) && parent in old(chain.blocks) && time <= old(records)[parent].time
      ensures !r.Accepted() ==> View() == old(View())
      ensures r.Accepted() ==>
                && chain.blocks.Keys == old(chain.blocks.Keys) + {h}
                && parent in old(records) && parent != h
                && FiledNext(old(records), records, h, parent, Record([], cited, author, time))
    {
      if h !in chain.blocks && parent in chain.blocks && time <= records[parent].time {
        return Stored.InvalidTimestamp;
      }
      ghost var c := View();
      assert Recorded(c, parent);
      var result := chain.Import(h, number, parent, difficulty, gasUsed, bloom);
      if result.Imported? {
        FiledLists(c, h, chain.blocks[h], cited, author, time);
        File(h, parent, cited, author, time);
      }
      r := Checked(result);
    }
  }
}
