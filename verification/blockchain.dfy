/** Every block that is ever made, by identifier: hashing is injective. */
module Worlds {
  import opened Types
  import opened Forests

  type World = map<Id, Block>

  /** A block carries a certificate for its parent and is above it; the view in the certificate is the parent's. */
  ghost predicate WellFormed(w: World) {
    && GENESIS !in w
    && forall id :: id in w ==>
         var b := w[id];
         && b.id == id && b.hasQC && b.prevId == b.qc.blockId && b.qc.view < b.view
         && (b.prevId == GENESIS ==> b.qc.view == 0)
         && (b.prevId != GENESIS ==> b.prevId in w && w[b.prevId].view == b.qc.view)
  }

  ghost predicate OnePerView(w: World) {
    forall x, y :: x in w && y in w && w[x].view == w[y].view ==> x == y
  }

  /** The forest holds blocks of the world, at their own levels. */
  ghost predicate Conforms(f: Forest, w: World) {
    forall id :: id in f.vertices ==>
      && (id == GENESIS ==> f.vertices[id].level == 0 && f.vertices[id].vertex.None?)
      && (id != GENESIS ==> id in w && f.vertices[id].level == w[id].view)
      && (f.vertices[id].vertex.Some? ==> f.vertices[id].vertex == Some(w[id]))
  }

  lemma AddConforms(f: Forest, w: World, b: Block)
    requires WellFormed(w) && Conforms(f, w) && b.id in w && w[b.id] == b
    ensures Conforms(Add(f, b), w)
  {
  }

  lemma CutConforms(f: Forest, w: World, level: nat)
    requires Conforms(f, w)
    ensures Conforms(Cut(f, level), w)
  {
  }

  lemma ConformsRising(f: Forest, w: World)
    requires WellFormed(w) && Conforms(f, w)
    ensures Rising(f)
  {
  }
}

/** Storing, certifying and committing blocks: blockchain/blockchain.go. */
module BlockChains {
  import opened Types
  import opened Tally
  import opened Quorums
  import opened Forests

  datatype Chain = Chain(n: nat, forest: Forest, votes: Votes)

  function GetParent(f: Forest, id: Id): Option<Block> {
    match GetVertex(f, id)
    case None => None
    case Some(b) => GetVertex(f, b.prevId)
  }

  /** The blocks a commit reports: the block and its held ancestors above the lowest level, newest first. */
  function CommitPath(f: Forest, b: Block): seq<Block>
    decreases b.view
  {
    if b.view <= f.lowest then []
    else
      [b] + match GetVertex(f, b.prevId)
            case None => []
            case Some(p) => if p.view < b.view then CommitPath(f, p) else []
  }

  ghost function IdsOf(bs: seq<Block>): set<Id> {
    set i | 0 <= i < |bs| :: bs[i].id
  }

  /** `CommitPanic` is a commit that does not return: it panics, or its walk through the forest does not end. */
  datatype CommitResult =
    | NoBlock
    | BadLevel
    | CommitPanic
    | Committed(chain: Chain, committed: seq<Block>, forked: seq<Block>)

  /** Reports the path, forgets its votes and prunes below the block. */
  ghost function CommitBlock(c: Chain, id: Id): CommitResult {
    match GetVertex(c.forest, id)
    case None => NoBlock
    case Some(b) =>
      match Prune(c.forest, b.view)
      case TooLow => BadLevel
      case PrunePanic => CommitPanic
      case PruneEndless => CommitPanic
      case Pruned(f, forked, _) =>
        var path := CommitPath(c.forest, b);
        Committed(Chain(c.n, f, c.votes - IdsOf(path)), path, forked)
  }

  // ---------------------------------------------------------------- the path of a commit

  // A path of held blocks from `b` down, each the parent of the one before, all above the lowest level, that
  // cannot be extended.
  ghost predicate Linked(f: Forest, p: seq<Block>, i: nat) {
    i + 1 < |p| ==> GetVertex(f, p[i].prevId) == Some(p[i + 1]) && p[i + 1].view < p[i].view
  }

  ghost predicate LongestPath(f: Forest, b: Block, p: seq<Block>) {
    if b.view <= f.lowest then p == []
    else
      && |p| > 0 && p[0] == b
      && (forall i :: 0 <= i < |p| ==> p[i].view > f.lowest)
      && (forall i: nat :: Linked(f, p, i))
      && (GetVertex(f, p[|p| - 1].prevId).Some? ==> GetVertex(f, p[|p| - 1].prevId).value.view <= f.lowest)
  }

  /** The commit path is the longest held ancestor path, and the only one. */
  lemma CommitPathIsLongest(f: Forest, b: Block, p: seq<Block>)
    requires Descending(f) && GetVertex(f, b.id) == Some(b)
    ensures p == CommitPath(f, b) <==> LongestPath(f, b, p)
  {
    CommitPathIsPath(f, b);
    if LongestPath(f, b, p) {
      LongestPathUnique(f, b, p);
    }
  }

  lemma HeldParent(f: Forest, b: Block)
    requires Descending(f) && GetVertex(f, b.id) == Some(b)
    ensures GetVertex(f, b.prevId).Some? ==>
              var q := GetVertex(f, b.prevId).value;
              q.view < b.view && GetVertex(f, q.id) == Some(q) && CommitPath(f, b) ==
              if b.view <= f.lowest then [] else [b] + CommitPath(f, q)
  {
    assert f.vertices[b.id].vertex.value == b;
    if GetVertex(f, b.prevId).Some? {
      assert f.vertices[b.prevId].vertex.value == GetVertex(f, b.prevId).value;
    }
  }

  lemma {:induction false} CommitPathIsPath(f: Forest, b: Block)
    requires Descending(f) && GetVertex(f, b.id) == Some(b)
    ensures LongestPath(f, b, CommitPath(f, b))
    decreases b.view
  {
    HeldParent(f, b);
    if b.view > f.lowest && GetVertex(f, b.prevId).Some? {
      var q := GetVertex(f, b.prevId).value;
      CommitPathIsPath(f, q);
      ExtendPath(f, b, q, CommitPath(f, q));
    }
  }

  lemma {:induction false} LongestPathUnique(f: Forest, b: Block, p: seq<Block>)
    requires Descending(f) && GetVertex(f, b.id) == Some(b) && LongestPath(f, b, p)
    ensures p == CommitPath(f, b)
    decreases b.view
  {
    HeldParent(f, b);
    if b.view > f.lowest {
      assert p == [b] + p[1..];
      if GetVertex(f, b.prevId).Some? {
        var q := GetVertex(f, b.prevId).value;
        ShortenPath(f, b, q, p);
        LongestPathUnique(f, q, p[1..]);
      } else {
        assert Linked(f, p, 0);
      }
    }
  }

  lemma ShortenPath(f: Forest, b: Block, q: Block, p: seq<Block>)
    requires b.view > f.lowest && GetVertex(f, b.prevId) == Some(q)
    requires LongestPath(f, b, p)
    ensures LongestPath(f, q, p[1..])
  {
    assert Linked(f, p, 0);
    forall i: nat ensures Linked(f, p[1..], i) {
      assert Linked(f, p, i + 1);
    }
  }

  lemma ExtendPath(f: Forest, b: Block, q: Block, p: seq<Block>)
    requires b.view > f.lowest && GetVertex(f, b.prevId) == Some(q) && q.view < b.view
    requires LongestPath(f, q, p)
    ensures LongestPath(f, b, [b] + p)
  {
    var r := [b] + p;
    forall i: nat ensures Linked(f, r, i) {
      if i > 0 {
        assert p != [] ==> Linked(f, p, i - 1);
      }
    }
  }

  /** Committing the same block again reports nothing and changes nothing. */
  lemma RecommitIsSilent(c: Chain, id: Id)
    requires Indexed(c.forest) && Rising(c.forest) && CommitBlock(c, id).Committed?
    ensures var d := CommitBlock(c, id).chain; CommitBlock(d, id) == Committed(d, [], [])
  {
    var b := GetVertex(c.forest, id).value;
    var d := CommitBlock(c, id).chain;
    assert c.forest.vertices[id].vertex.value == b;
    NothingToMark(c.forest, b.view);
    SecondCut(c.forest, b.view);
    assert d.votes - IdsOf([]) == d.votes;
  }

  lemma NothingToMark(f: Forest, level: nat)
    requires Indexed(f) && Rising(f) && Mark(f, level).Marked? && level >= f.lowest
    ensures Mark(Cut(f, level), level) == Marked({})
  {
    var g := Cut(f, level);
    if level > 1 {
      assert At(g, level) == At(f, level);
      var v := First(f, level).value;
      assert f.vertices[At(f, level)[0]].vertex == Some(v);
      CutVertexMap(f, level, v.prevId);
    }
  }

  lemma SecondCut(f: Forest, level: nat)
    ensures Cut(Cut(f, level), level) == Cut(f, level)
  {
  }

  // ---------------------------------------------------------------- the object

  datatype CommitOutcome = NotFound | PruneFailed | Died | Reported(committed: seq<Block>, forked: seq<Block>)

  class BlockChain {
    const forrest: LevelledForest
    const quorum: Quorum

    ghost function Model(): Chain
      reads this, forrest, quorum
    {
      Chain(quorum.total, forrest.Model(), quorum.votes)
    }

    ghost predicate Valid()
      reads this, forrest
    {
      forrest.Valid()
    }

    constructor (n: nat)
      ensures Valid() && fresh(forrest) && fresh(quorum)
      ensures Model() == Chain(n, EMPTY, map[])
    {
      forrest := new LevelledForest();
      quorum := new Quorum(n);
    }

    method AddBlock(b: Block)
      requires Valid()
      modifies forrest
      ensures Valid() && Model() == old(Model()).(forest := Add(old(Model()).forest, b))
    {
      forrest.AddVertex(b);
    }

    method AddVote(vote: Vote) returns (qc: Option<QC>)
      requires Valid()
      modifies quorum
      ensures Valid()
      ensures Model() == old(Model()).(votes := Record(quorum.total, old(Model()).votes, Cast(vote)))
      ensures qc == Built(quorum.total, old(quorum.votes), vote)
    {
      qc := quorum.Add(vote);
    }

    function GetBlockByID(id: Id): Option<Block>
      reads this, forrest
    {
      forrest.Lookup(id)
    }

    function GetParentBlock(id: Id): Option<Block>
      reads this, forrest
      ensures GetParentBlock(id) == GetParent(forrest.Model(), id)
    {
      match forrest.Lookup(id)
      case None => None
      case Some(b) => forrest.Lookup(b.prevId)
    }

    /** Held parents are below their children, so that the walk along them ends. */
    method Commit(id: Id) returns (r: CommitOutcome)
      requires Valid() && Descending(forrest.Model())
      modifies forrest, quorum
      ensures Valid()
      ensures match CommitBlock(old(Model()), id)
              case NoBlock => r.NotFound? && Model() == old(Model())
              case BadLevel => r.PruneFailed? && Model() == old(Model())
              case CommitPanic => r.Died? && forrest.Model() == old(forrest.Model())
              case Committed(c, committed, forked) => r == Reported(committed, forked) && Model() == c
    {
      var found := forrest.Lookup(id);
      if found.None? { return NotFound; }
      var b := found.value;
      var committed := CollectPath(b);
      ghost var f := forrest.Model();
      if b.view < f.lowest {
        assert quorum.votes == old(quorum.votes) - {};
      }
      var pruned := forrest.PruneUpToLevel(b.view);
      match pruned
      case LevelTooLow => return PruneFailed;
      case Crashed => return Died;
      case Hung => return Died;
      case Done(forked, _) => return Reported(committed, forked);
    }

    /** The commit loop: walks up to the lowest level, deleting the votes of every block on the way. */
    method CollectPath(b: Block) returns (committed: seq<Block>)
      requires Valid() && Descending(forrest.Model()) && GetVertex(forrest.Model(), b.id) == Some(b)
      modifies quorum
      ensures committed == CommitPath(forrest.Model(), b)
      ensures quorum.votes == old(quorum.votes) - IdsOf(committed)
    {
      hide Indexed, Descending, CommitPath, IdsOf;
      committed := [];
      var block := b;
      ghost var f := forrest.Model();
      NoVotesGone(quorum.votes);
      while block.view > forrest.LowestLevel
        invariant forrest.Model() == f && Descending(f) && GetVertex(f, block.id) == Some(block)
        invariant CommitPath(f, b) == committed + CommitPath(f, block)
        invariant quorum.votes == old(quorum.votes) - IdsOf(committed)
        decreases block.view
      {
        PathStep(f, block);
        VotesStep(old(quorum.votes), committed, block);
        committed := committed + [block];
        if block.id in quorum.votes {
          quorum.votes := quorum.votes - {block.id};
        }
        var parent := forrest.Lookup(block.prevId);
        if parent.None? { return; }
        block := parent.value;
      }
      PathEnd(f, block);
    }
  }

  lemma PathStep(f: Forest, b: Block)
    requires Descending(f) && GetVertex(f, b.id) == Some(b) && b.view > f.lowest
    ensures match GetVertex(f, b.prevId)
            case None => CommitPath(f, b) == [b]
            case Some(q) =>
              q.view < b.view && GetVertex(f, q.id) == Some(q) && CommitPath(f, b) == [b] + CommitPath(f, q)
  {
    HeldParent(f, b);
  }

  lemma PathEnd(f: Forest, b: Block)
    requires b.view <= f.lowest
    ensures CommitPath(f, b) == []
  {
  }

  lemma NoVotesGone(votes: Votes)
    ensures votes - IdsOf([]) == votes
  {
  }

  lemma VotesStep(votes: Votes, bs: seq<Block>, b: Block)
    ensures votes - IdsOf(bs + [b]) == votes - IdsOf(bs) - {b.id}
  {
    var all := bs + [b];
    forall x ensures x in IdsOf(all) <==> x in IdsOf(bs) || x == b.id {
      if x in IdsOf(bs) {
        var i :| 0 <= i < |bs| && bs[i].id == x;
        assert all[i].id == x;
      }
      if x == b.id {
        assert all[|bs|].id == x;
      }
    }
  }
}
