/** A simple picture of a forest, for following concrete runs: the held blocks, and nothing else but the placeholder of
    the genesis block. */
module Drawings {
  import opened Types
  import opened Forests
  import opened BlockChains

  ghost predicate HeldOk(held: map<Id, Block>) {
    forall id :: id in held ==>
      && held[id].id == id && id != GENESIS && held[id].view >= 1
      && (held[id].prevId in held ==> held[held[id].prevId].view < held[id].view)
  }

  ghost predicate Occupied(held: map<Id, Block>, l: nat) {
    exists id :: id in held && held[id].view == l
  }

  ghost predicate Heads(f: Forest, held: map<Id, Block>) {
    && (forall l: nat :: Occupied(held, l) ==> First(f, l).Some? && First(f, l).value.view == l)
    && (forall l: nat :: l >= 1 && !Occupied(held, l) ==> At(f, l) == [])
  }

  ghost predicate Holds(f: Forest, held: map<Id, Block>) {
    && (forall id :: GetVertex(f, id) == if id in held then Some(held[id]) else None)
    && (forall id :: id in f.vertices ==> id == GENESIS || (id in held && f.vertices[id].level == held[id].view))
  }

  /** Every held block is filed at its own level, and a level that is not empty starts with a held block. */
  ghost predicate Drawn(f: Forest, held: map<Id, Block>, low: nat) {
    f.lowest == low && HeldOk(held) && Holds(f, held) && Heads(f, held)
  }

  lemma EmptyDrawn()
    ensures Drawn(EMPTY, map[], 0)
  {
  }

  // ---------------------------------------------------------------- storing

  /** The block is new, and its parent is held or is the genesis block. */
  ghost predicate Joins(held: map<Id, Block>, low: nat, b: Block) {
    && b.id !in held && b.id != GENESIS && b.view >= 1 && b.view >= low
    && (|| (b.prevId in held && held[b.prevId].view < b.view)
        || (b.prevId == GENESIS && b.qc.view == 0))
    && (forall id :: id in held ==> held[id].prevId != b.id)
  }

  /** The containers after a block joins. */
  lemma AddShape(f: Forest, held: map<Id, Block>, low: nat, b: Block)
    requires Drawn(f, held, low) && Joins(held, low, b)
    ensures var g := Add(f, b);
            && g.lowest == low && At(g, b.view) == At(f, b.view) + [b.id]
            && b.id in g.vertices && g.vertices[b.id].level == b.view
            && (forall l: nat :: l >= 1 && l != b.view ==> At(g, l) == At(f, l))
            && (forall id :: id in g.vertices && id != b.id && id != GENESIS ==>
                  id in f.vertices && g.vertices[id].level == f.vertices[id].level)
  {
    assert b.id !in f.vertices;
    assert b.prevId in held ==> GetVertex(f, b.prevId) == Some(held[b.prevId]) && b.prevId in f.vertices;
    hide Heads;
  }

  lemma AddVertices(f: Forest, held: map<Id, Block>, low: nat, b: Block, id: Id)
    requires Drawn(f, held, low) && Joins(held, low, b)
    ensures GetVertex(Add(f, b), id) == if id == b.id then Some(b) else if id in held then Some(held[id]) else None
  {
    assert b.id !in f.vertices;
    AddVertexMap(f, b, id);
    hide Heads, Add;
  }

  lemma OccupiedMore(held: map<Id, Block>, b: Block, l: nat)
    requires b.id !in held
    ensures Occupied(held[b.id := b], l) <==> Occupied(held, l) || l == b.view
  {
    var more := held[b.id := b];
    assert more[b.id] == b && forall id :: id in held ==> more[id] == held[id];
  }

  lemma AddHeads(f: Forest, held: map<Id, Block>, low: nat, b: Block)
    requires Drawn(f, held, low) && Joins(held, low, b)
    ensures Heads(Add(f, b), held[b.id := b])
  {
    hide Add, Occupied;
    AddShape(f, held, low, b);
    var g, more := Add(f, b), held[b.id := b];
    forall l: nat ensures Occupied(more, l) ==> First(g, l).Some? && First(g, l).value.view == l {
      OccupiedMore(held, b, l);
      if Occupied(held, l) {
        assert l >= 1 by { OccupiedLevel(held, l); }
        assert At(g, l)[0] == At(f, l)[0];
        AddVertices(f, held, low, b, At(f, l)[0]);
      } else if l == b.view {
        AddVertices(f, held, low, b, b.id);
      }
    }
    forall l: nat | l >= 1 && !Occupied(more, l) ensures At(g, l) == [] {
      OccupiedMore(held, b, l);
    }
  }

  lemma OccupiedLevel(held: map<Id, Block>, l: nat)
    requires HeldOk(held) && Occupied(held, l)
    ensures l >= 1
  {
  }

  lemma AddHolds(f: Forest, held: map<Id, Block>, low: nat, b: Block)
    requires Drawn(f, held, low) && Joins(held, low, b)
    ensures Holds(Add(f, b), held[b.id := b]) && Add(f, b).lowest == low
  {
    AddShape(f, held, low, b);
    hide Add, Heads, Joins, HeldOk;
    forall id ensures GetVertex(Add(f, b), id)
                      == if id in held[b.id := b] then Some(held[b.id := b][id]) else None {
      AddVertices(f, held, low, b, id);
    }
  }

  lemma AddHeldOk(held: map<Id, Block>, low: nat, b: Block)
    requires HeldOk(held) && Joins(held, low, b)
    ensures HeldOk(held[b.id := b])
  {
  }

  lemma AddDrawn(f: Forest, held: map<Id, Block>, low: nat, b: Block)
    requires Drawn(f, held, low) && Joins(held, low, b)
    ensures Drawn(Add(f, b), held[b.id := b], low)
  {
    hide Add, Heads, Holds, HeldOk, Joins;
    AddHolds(f, held, low, b);
    AddHeads(f, held, low, b);
    AddHeldOk(held, low, b);
  }

  // ---------------------------------------------------------------- committing

  ghost function Above(held: map<Id, Block>, level: nat): map<Id, Block> {
    map id | id in held && held[id].view >= level :: held[id]
  }

  lemma {:induction false} MarkDrawn(f: Forest, held: map<Id, Block>, low: nat, l: nat, unseen: set<Id>)
    requires Drawn(f, held, low) && Occupied(held, l)
    requires forall id :: id in held && held[id].view <= l ==> id in unseen
    ensures MarkFrom(f, l, unseen).Marked?
    decreases l
  {
    var v := First(f, l).value;
    assert At(f, l)[0] in held && held[At(f, l)[0]] == v;
    if v.prevId in held {
      var p := held[v.prevId];
      assert Occupied(held, p.view);
      MarkDrawn(f, held, low, p.view, unseen - {At(f, l)[0]});
    }
  }

  lemma CutHeads(f: Forest, held: map<Id, Block>, low: nat, level: nat)
    requires Drawn(f, held, low) && level >= 1
    ensures Heads(Cut(f, level), Above(held, level))
  {
    var g, more := Cut(f, level), Above(held, level);
    forall l: nat ensures Occupied(more, l) ==> First(g, l).Some? && First(g, l).value.view == l {
      AboveOccupied(held, level, l);
      if Occupied(more, l) {
        assert At(g, l) == At(f, l);
        CutVertexMap(f, level, At(f, l)[0]);
      }
    }
    hide First, Occupied;
    forall l: nat | l >= 1 && !Occupied(more, l) ensures At(g, l) == [] {
      AboveOccupied(held, level, l);
    }
  }

  lemma AboveOccupied(held: map<Id, Block>, level: nat, l: nat)
    ensures Occupied(Above(held, level), l) <==> Occupied(held, l) && l >= level
  {
    var more := Above(held, level);
    assert forall id :: id in held && held[id].view >= level ==> id in more && more[id] == held[id];
  }

  lemma CutDrawn(f: Forest, held: map<Id, Block>, low: nat, level: nat)
    requires Drawn(f, held, low) && level >= 1
    ensures Drawn(Cut(f, level), Above(held, level), level)
  {
    CutHeads(f, held, low, level);
    hide Heads;
    forall id ensures GetVertex(Cut(f, level), id)
                      == if id in Above(held, level) then Some(Above(held, level)[id]) else None {
      CutVertexMap(f, level, id);
    }
  }

  /** A held block above the lowest level can be committed. */
  lemma CommitDrawn(c: Chain, held: map<Id, Block>, low: nat, b: Block)
    requires Drawn(c.forest, held, low) && b.id in held && held[b.id] == b && b.view > low
    ensures var r := CommitBlock(c, b.id);
            && r.Committed? && b in r.committed && r.chain.n == c.n
            && r.chain.votes == c.votes - IdsOf(r.committed)
            && Drawn(r.chain.forest, Above(held, b.view), b.view)
  {
    assert GetVertex(c.forest, b.id) == Some(b) && Occupied(held, b.view);
    assert forall id :: id in held ==> GetVertex(c.forest, id).Some? && id in c.forest.vertices;
    MarkDrawn(c.forest, held, low, b.view, c.forest.vertices.Keys);
    CutDrawn(c.forest, held, low, b.view);
    assert CommitPath(c.forest, b)[0] == b;
    hide Drawn, Above, Cut, IdsOf, MarkFrom;
  }

  /** A commit reports nothing above the committed block. */
  lemma {:induction false} PathBelow(f: Forest, held: map<Id, Block>, low: nat, b: Block, i: nat)
    requires Drawn(f, held, low) && b.id in held && held[b.id] == b && i < |CommitPath(f, b)|
    ensures var x := CommitPath(f, b)[i]; x.id in held && held[x.id] == x && x.view <= b.view
    decreases b.view
  {
    hide Heads;
    if i > 0 {
      assert b.prevId in held && held[b.prevId].view < b.view;
      PathBelow(f, held, low, held[b.prevId], i - 1);
    }
  }

  lemma CommitBelow(c: Chain, held: map<Id, Block>, low: nat, b: Block)
    requires Drawn(c.forest, held, low) && b.id in held && held[b.id] == b && CommitBlock(c, b.id).Committed?
    ensures forall id :: id in IdsOf(CommitBlock(c, b.id).committed) ==> id in held && held[id].view <= b.view
  {
    var path := CommitPath(c.forest, b);
    assert GetVertex(c.forest, b.id) == Some(b);
    forall i | 0 <= i < |path| ensures path[i].id in held && held[path[i].id].view <= b.view {
      PathBelow(c.forest, held, low, b, i);
    }
    hide Drawn, CommitPath;
  }
}
