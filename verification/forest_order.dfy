/** The order in which consistent blocks reach the forest does not matter. */
module ForestOrder {
  import opened Types
  import opened Forests

  /** The blocks agree on one level per identifier, for themselves and for the parents they name, and an
      identifier stands for one block. */
  ghost predicate Consistent(s: set<Block>, lv: Id -> nat) {
    && (forall b :: b in s ==> b.view == lv(b.id) && b.qc.view == lv(b.prevId))
    && (forall b, c :: b in s && c in s && b.id == c.id ==> b == c)
  }

  ghost predicate Agrees(f: Forest, lv: Id -> nat) {
    forall id :: id in f.vertices ==>
      f.vertices[id].level == lv(id) && (f.vertices[id].vertex.Some? ==> f.vertices[id].vertex.value.id == id)
  }

  ghost function AddAll(f: Forest, bs: seq<Block>): Forest {
    if bs == [] then f else Add(AddAll(f, bs[..|bs| - 1]), bs[|bs| - 1])
  }

  ghost function Elements(bs: seq<Block>): set<Block> {
    set b | b in bs
  }

  ghost function ChildSet(f: Forest, id: Id): set<Id> {
    if id in f.vertices then set c | c in f.vertices[id].children else {}
  }

  ghost predicate Links(f: Forest, b: Block) {
    Accepts(f, b) && b.view > f.lowest && b.qc.view >= f.lowest
  }

  // What is in the forest once the blocks of `s` have been added to `f`, said without any order.

  ghost predicate Gains(f: Forest, s: set<Block>, id: Id) {
    exists b :: b in s && ((Accepts(f, b) && b.id == id) || (Links(f, b) && b.prevId == id))
  }

  ghost predicate Holds(f: Forest, s: set<Block>, id: Id, v: Block) {
    GetVertex(f, id) == Some(v) || (v in s && v.id == id && Accepts(f, v))
  }

  ghost predicate HasChild(f: Forest, s: set<Block>, id: Id, c: Id) {
    c in ChildSet(f, id) || exists b :: b in s && Links(f, b) && b.prevId == id && b.id == c
  }

  ghost predicate IsResult(g: Forest, f: Forest, s: set<Block>, lv: Id -> nat) {
    && g.lowest == f.lowest && Agrees(g, lv)
    && (forall id :: id in g.vertices <==> id in f.vertices || Gains(f, s, id))
    && (forall id, v :: GetVertex(g, id) == Some(v) <==> Holds(f, s, id, v))
    && (forall id, c :: c in ChildSet(g, id) <==> HasChild(f, s, id, c))
  }

  lemma RegisterEffect(g: Forest, b: Block, lv: Id -> nat)
    requires Agrees(g, lv) && Accepts(g, b) && b.view == lv(b.id) && b.qc.view == lv(b.prevId)
    ensures var h := Add(g, b);
            && Agrees(h, lv)
            && (forall id :: id in h.vertices <==> id in g.vertices || id == b.id || (Links(g, b) && id == b.prevId))
            && (forall id, c :: c in ChildSet(h, id)
                  <==> c in ChildSet(g, id) || (Links(g, b) && id == b.prevId && c == b.id))
  {
  }

  lemma StepResult(g: Forest, f: Forest, s: set<Block>, lv: Id -> nat, b: Block)
    requires Agrees(f, lv) && IsResult(g, f, s, lv)
    requires Consistent(s + {b}, lv)
    ensures IsResult(Add(g, b), f, s + {b}, lv)
  {
    var h, t := Add(g, b), s + {b};
    assert b in t;
    forall id ensures Gains(f, t, id)
        <==> Gains(f, s, id) || (Accepts(f, b) && b.id == id) || (Links(f, b) && b.prevId == id) {
      if Gains(f, s, id) {
        var x :| x in s && ((Accepts(f, x) && x.id == id) || (Links(f, x) && x.prevId == id));
        assert x in t;
      }
    }
    forall id, c ensures HasChild(f, t, id, c)
        <==> HasChild(f, s, id, c) || (Links(f, b) && b.prevId == id && b.id == c) {
      if HasChild(f, s, id, c) && c !in ChildSet(f, id) {
        var x :| x in s && Links(f, x) && x.prevId == id && x.id == c;
        assert x in t;
      }
    }
    if Accepts(g, b) {
      assert Accepts(f, b) by {
        if GetVertex(f, b.id).Some? {
          assert Holds(f, s, b.id, GetVertex(f, b.id).value);
          assert GetVertex(g, b.id) == GetVertex(f, b.id);
        }
      }
      RegisterEffect(g, b, lv);
      forall id, v ensures GetVertex(h, id) == Some(v) <==> Holds(f, t, id, v) {
        AddVertexMap(g, b, id);
        assert GetVertex(g, id) == Some(v) <==> Holds(f, s, id, v);
      }
    } else if Accepts(f, b) {
      // already stored, so `b` is one of the blocks of `s`
      var v := GetVertex(g, b.id).value;
      assert Holds(f, s, b.id, v);
      assert v in t && v.id == b.id;
      assert s + {b} == s;
    } else {
      forall id, v ensures GetVertex(h, id) == Some(v) <==> Holds(f, t, id, v) {
        assert GetVertex(g, id) == Some(v) <==> Holds(f, s, id, v);
      }
    }
  }

  lemma {:induction false} AddAllResult(f: Forest, bs: seq<Block>, lv: Id -> nat)
    requires Agrees(f, lv) && Consistent(Elements(bs), lv)
    ensures IsResult(AddAll(f, bs), f, Elements(bs), lv)
  {
    if bs != [] {
      var m := |bs| - 1;
      assert bs == bs[..m] + [bs[m]];
      assert Elements(bs) == Elements(bs[..m]) + {bs[m]};
      AddAllResult(f, bs[..m], lv);
      StepResult(AddAll(f, bs[..m]), f, Elements(bs[..m]), lv, bs[m]);
    }
  }

  /** Equal up to the order of the lists: the same containers with the same levels, blocks and children, and
      the same containers listed at each level. */
  ghost predicate SameForest(g: Forest, h: Forest) {
    && g.lowest == h.lowest
    && g.vertices.Keys == h.vertices.Keys
    && (forall id :: id in g.vertices ==> g.vertices[id].level == h.vertices[id].level)
    && (forall id :: GetVertex(g, id) == GetVertex(h, id))
    && (forall id :: ChildSet(g, id) == ChildSet(h, id))
    && (forall l: nat, id :: id in At(g, l) <==> id in At(h, l))
  }

  lemma {:induction false} AddAllIndexed(f: Forest, bs: seq<Block>)
    requires Indexed(f)
    ensures Indexed(AddAll(f, bs))
  {
    if bs != [] {
      AddAllIndexed(f, bs[..|bs| - 1]);
      AddIndexed(AddAll(f, bs[..|bs| - 1]), bs[|bs| - 1]);
    }
  }

  lemma LevelsFollow(g: Forest, h: Forest)
    requires Indexed(g) && Indexed(h) && g.vertices.Keys == h.vertices.Keys
    requires forall id :: id in g.vertices ==> g.vertices[id].level == h.vertices[id].level
    ensures forall l: nat, id :: id in At(g, l) ==> id in At(h, l)
  {
    forall l: nat, id | id in At(g, l) ensures id in At(h, l) {
      var i :| 0 <= i < |At(g, l)| && At(g, l)[i] == id;
      assert id in h.vertices && h.vertices[id].level == l;
    }
  }

  /** Two deliveries of the same blocks, in any order and with any repetitions, give the same forest: children
      that arrive before their parent wait under a placeholder that the parent fills later. */
  lemma OrderIndependent(f: Forest, bs: seq<Block>, cs: seq<Block>, lv: Id -> nat)
    requires Indexed(f) && Agrees(f, lv)
    requires Elements(bs) == Elements(cs) && Consistent(Elements(bs), lv)
    ensures SameForest(AddAll(f, bs), AddAll(f, cs))
  {
    var g, h, s := AddAll(f, bs), AddAll(f, cs), Elements(bs);
    AddAllResult(f, bs, lv);
    AddAllResult(f, cs, lv);
    AddAllIndexed(f, bs);
    AddAllIndexed(f, cs);
    forall id ensures id in g.vertices <==> id in h.vertices {}
    forall id ensures GetVertex(g, id) == GetVertex(h, id) {
      if GetVertex(g, id).Some? {
        assert Holds(f, s, id, GetVertex(g, id).value);
      } else if GetVertex(h, id).Some? {
        assert Holds(f, s, id, GetVertex(h, id).value);
      }
    }
    forall id ensures ChildSet(g, id) == ChildSet(h, id) {
      forall c ensures c in ChildSet(g, id) <==> c in ChildSet(h, id) {
        assert c in ChildSet(g, id) <==> HasChild(f, s, id, c);
      }
    }
    LevelsFollow(g, h);
    LevelsFollow(h, g);
  }
}
