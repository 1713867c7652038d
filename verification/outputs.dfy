/** What a replica holds and reports, in terms of the blocks that were ever made. */
module Outputs {
  import opened Types
  import opened Forests
  import opened Worlds
  import opened BlockChains
  import opened Safety

  /** The commit rule fired on the certificate `qc` and picked `block`. */
  datatype Decided = Decided(block: Block, qc: QC)

  /** A block of the world, whatever certificate it carries. */
  ghost predicate Known(w: World, b: Block) {
    b.id in w && w[b.id].view == b.view && w[b.id].prevId == b.prevId
  }

  ghost predicate ForestKnown(w: World, f: Forest) {
    forall id :: GetVertex(f, id).Some? ==> GetVertex(f, id).value.id == id && Known(w, GetVertex(f, id).value)
  }

  lemma AddKnown(w: World, f: Forest, b: Block)
    requires ForestKnown(w, f) && Known(w, b)
    ensures ForestKnown(w, Add(f, b))
  {
    forall id | GetVertex(Add(f, b), id).Some?
      ensures GetVertex(Add(f, b), id).value.id == id && Known(w, GetVertex(Add(f, b), id).value)
    {
      AddVertexMap(f, b, id);
    }
  }

  lemma CutKnown(w: World, f: Forest, level: nat)
    requires ForestKnown(w, f)
    ensures ForestKnown(w, Cut(f, level))
  {
    forall id | GetVertex(Cut(f, level), id).Some? ensures GetVertex(Cut(f, level), id) == GetVertex(f, id) {
      CutVertexMap(f, level, id);
    }
  }

  lemma KnownDescending(w: World, f: Forest)
    requires Ordered(w) && ForestKnown(w, f)
    ensures Descending(f)
  {
    forall id | id in f.vertices && f.vertices[id].vertex.Some?
      ensures var b := f.vertices[id].vertex.value;
              b.id == id && (GetVertex(f, b.prevId).Some? ==> GetVertex(f, b.prevId).value.view < b.view)
    {
      assert GetVertex(f, id) == f.vertices[id].vertex;
    }
  }

  lemma ParentKnown(w: World, f: Forest, id: Id)
    requires Ordered(w) && ForestKnown(w, f) && GetParent(f, id).Some?
    ensures id in w && w[id].prevId in w && GetParent(f, id).value.id == w[id].prevId
    ensures GetParent(f, id).value.view == w[w[id].prevId].view < w[id].view
  {
  }

  lemma {:induction false} PathDescends(w: World, f: Forest, b: Block, i: nat)
    requires Ordered(w) && ForestKnown(w, f) && Known(w, b) && i < |CommitPath(f, b)|
    ensures Descends(w, b.id, CommitPath(f, b)[i].id)
    decreases b.view
  {
    if i > 0 {
      PathDescends(w, f, GetVertex(f, b.prevId).value, i - 1);
    }
  }

  /** What a commit reports descends from the committed block; what it keeps is known. */
  lemma CommitKnown(w: World, c: Chain, id: Id)
    requires Ordered(w) && ForestKnown(w, c.forest) && CommitBlock(c, id).Committed?
    ensures var r := CommitBlock(c, id);
            && ForestKnown(w, r.chain.forest) && r.chain.n == c.n && r.chain.votes == c.votes - IdsOf(r.committed)
            && forall i :: 0 <= i < |r.committed| ==> Descends(w, id, r.committed[i].id)
  {
    hide Descends, CommitPath, IdsOf;
    var b := GetVertex(c.forest, id).value;
    assert Known(w, b) && b.id == id;
    forall i | 0 <= i < |CommitPath(c.forest, b)| ensures Descends(w, id, CommitPath(c.forest, b)[i].id) {
      PathDescends(w, c.forest, b, i);
    }
    CutKnown(w, c.forest, b.view);
  }

  lemma KeptKnown(w: World, c: Chain, id: Id)
    requires Ordered(w) && ForestKnown(w, c.forest)
    ensures CommitBlock(c, id).Committed? ==> ForestKnown(w, CommitBlock(c, id).chain.forest)
  {
    hide ForestKnown, CommitBlock, Ordered, Descends;
    if CommitBlock(c, id).Committed? {
      CommitKnown(w, c, id);
    }
  }

  /** The block is an ancestor of a decided one. */
  ghost predicate IsDecided(w: World, ds: seq<Decided>, b: Block)
    requires Ordered(w)
  {
    exists j :: 0 <= j < |ds| && Descends(w, ds[j].block.id, b.id)
  }

  ghost predicate AllDecided(w: World, ds: seq<Decided>, committed: seq<Block>)
    requires Ordered(w)
  {
    forall i :: 0 <= i < |committed| ==> IsDecided(w, ds, committed[i])
  }

  lemma OutputGrows(w: World, ds: seq<Decided>, committed: seq<Block>, d: Decided, path: seq<Block>)
    requires Ordered(w) && AllDecided(w, ds, committed)
    requires forall i :: 0 <= i < |path| ==> Descends(w, d.block.id, path[i].id)
    ensures AllDecided(w, ds + [d], committed + path) && AllDecided(w, ds + [d], committed)
  {
    var es, cs := ds + [d], committed + path;
    forall i | 0 <= i < |cs| ensures IsDecided(w, es, cs[i]) {
      if i < |committed| {
        assert IsDecided(w, ds, committed[i]);
        var j :| 0 <= j < |ds| && Descends(w, ds[j].block.id, committed[i].id);
        assert es[j] == ds[j];
      } else {
        assert es[|ds|] == d && Descends(w, d.block.id, path[i - |committed|].id);
      }
    }
    forall i | 0 <= i < |committed| ensures IsDecided(w, es, committed[i]) {
      assert cs[i] == committed[i] && IsDecided(w, es, cs[i]);
    }
  }
}
