/** The levelled forest of blocks: blockchain/leveled_forrest.go.
    A container is named by its identifier instead of by a pointer. */
module Forests {
  import opened Types

  /** A container without a vertex is a placeholder: some held block names it as its parent. */
  datatype Container = Container(level: nat, children: seq<Id>, vertex: Option<Block>)

  datatype Forest = Forest(vertices: map<Id, Container>, atLevel: map<nat, seq<Id>>, lowest: nat)

  const EMPTY := Forest(map[], map[], 0)

  // ---------------------------------------------------------------- operations on values

  function GetVertex(f: Forest, id: Id): Option<Block> {
    if id in f.vertices then f.vertices[id].vertex else None
  }

  function At(f: Forest, l: nat): seq<Id> {
    if l in f.atLevel then f.atLevel[l] else []
  }

  /** Finds the container of `id`, or makes a placeholder for it at `level`. */
  function Ensure(f: Forest, id: Id, level: nat): Forest {
    if id in f.vertices then f
    else Forest(f.vertices[id := Container(level, [], None)], f.atLevel[level := At(f, level) + [id]], f.lowest)
  }

  /** Lists the container of `b` among its parent's children, unless the parent is below the lowest level. */
  function Register(f: Forest, b: Block): Forest
    requires b.id in f.vertices
  {
    if f.vertices[b.id].level <= f.lowest || b.qc.view < f.lowest then f
    else
      var g := Ensure(f, b.prevId, b.qc.view);
      var p := g.vertices[b.prevId];
      g.(vertices := g.vertices[b.prevId := p.(children := p.children + [b.id])])
  }

  predicate Accepts(f: Forest, b: Block) {
    b.view >= f.lowest && GetVertex(f, b.id).None?
  }

  /** Stores a block; a block below the lowest level or already stored changes nothing. */
  function Add(f: Forest, b: Block): Forest {
    if !Accepts(f, b) then f
    else
      var g := Ensure(f, b.id, b.view);
      Register(g.(vertices := g.vertices[b.id := g.vertices[b.id].(vertex := Some(b))]), b)
  }

  /** The levels of the ancestors found from a level. `Panic` is where the source reads a vertex that is not there;
      `Endless` is where its walk comes to a container for the second time and goes round for ever. */
  datatype Marks = Marked(levels: set<nat>) | Panic | Endless

  function First(f: Forest, l: nat): Option<Block> {
    if At(f, l) == [] then None else GetVertex(f, At(f, l)[0])
  }

  /** The walk from level `l`; `unseen` holds the containers it has not been at yet. */
  function MarkFrom(f: Forest, l: nat, unseen: set<Id>): Marks
    decreases unseen
  {
    if l < f.lowest || l <= 1 then Marked({})
    else if First(f, l).None? then Panic
    else if At(f, l)[0] !in unseen then Endless
    else
      match GetVertex(f, First(f, l).value.prevId)
      case None => Marked({})
      case Some(p) =>
        if p.view < f.lowest then Marked({})
        else
          match MarkFrom(f, p.view, unseen - {At(f, l)[0]})
          case Marked(ls) => Marked(ls + {p.view})
          case other => other
  }

  function Mark(f: Forest, l: nat): Marks {
    MarkFrom(f, l, f.vertices.Keys)
  }

  function FullOf(f: Forest, ids: seq<Id>): seq<Block> {
    if ids == [] then []
    else
      var last := |ids| - 1;
      FullOf(f, ids[..last]) + match GetVertex(f, ids[last]) case None => [] case Some(v) => [v]
  }

  /** The blocks between two levels that are not on a marked level, lowest level first. */
  function Forks(f: Forest, marks: set<nat>, lo: nat, hi: nat): seq<Block> {
    if hi <= lo then []
    else Forks(f, marks, lo, hi - 1) + if hi - 1 in marks || hi - 1 <= 1 then [] else FullOf(f, At(f, hi - 1))
  }

  function KeptVertices(f: Forest, level: nat): map<Id, Container> {
    map id | id in f.vertices && f.vertices[id].level >= level :: f.vertices[id]
  }

  function KeptLevels(f: Forest, level: nat): map<nat, seq<Id>> {
    map l | l in f.atLevel && l >= level :: f.atLevel[l]
  }

  function Cut(f: Forest, level: nat): Forest {
    Forest(KeptVertices(f, level), KeptLevels(f, level), level)
  }

  datatype PruneResult = TooLow | PrunePanic | PruneEndless | Pruned(forest: Forest, forked: seq<Block>, count: int)

  /** Drops everything below `level` and reports the blocks dropped from levels that hold no ancestor. */
  function Prune(f: Forest, level: nat): PruneResult {
    if level < f.lowest then TooLow
    else
      match Mark(f, level)
      case Panic => PrunePanic
      case Endless => PruneEndless
      case Marked(ls) =>
        Pruned(Cut(f, level), Forks(f, ls, f.lowest, level), |f.vertices| - |KeptVertices(f, level)|)
  }

  // ---------------------------------------------------------------- the two indexes agree

  ghost predicate NoDuplicates(ids: seq<Id>) {
    forall i, j :: 0 <= i < j < |ids| ==> ids[i] != ids[j]
  }

  /** Every container is listed exactly once, at its own level, and none is below the lowest level. */
  ghost predicate Indexed(f: Forest) {
    && (forall l: nat, i :: 0 <= i < |At(f, l)| ==> At(f, l)[i] in f.vertices && f.vertices[At(f, l)[i]].level == l)
    && (forall id :: id in f.vertices ==> f.vertices[id].level >= f.lowest && id in At(f, f.vertices[id].level))
    && (forall l :: l in f.atLevel ==> l >= f.lowest && NoDuplicates(f.atLevel[l]))
  }

  lemma EnsureIndexed(f: Forest, id: Id, level: nat)
    requires Indexed(f) && level >= f.lowest
    ensures Indexed(Ensure(f, id, level))
  {
    var g := Ensure(f, id, level);
    if id !in f.vertices {
      assert forall l: nat :: At(g, l) == if l == level then At(f, l) + [id] else At(f, l);
      assert id !in At(f, level);
      assert NoDuplicates(At(f, level) + [id]);
      forall x | x in g.vertices ensures g.vertices[x].level >= g.lowest && x in At(g, g.vertices[x].level) {
        if x == id {
          assert g.atLevel[level][|At(f, level)|] == id;
        } else if f.vertices[x].level == level {
          assert x in At(f, level) + [id];
        }
      }
    }
  }

  /** Adding any block keeps the indexes in agreement, whatever its level and parent claim. */
  lemma AddIndexed(f: Forest, b: Block)
    requires Indexed(f)
    ensures Indexed(Add(f, b))
  {
    if Accepts(f, b) {
      EnsureIndexed(f, b.id, b.view);
      var g := Ensure(f, b.id, b.view);
      var h := g.(vertices := g.vertices[b.id := g.vertices[b.id].(vertex := Some(b))]);
      SameShape(g, h);
      if !(h.vertices[b.id].level <= h.lowest || b.qc.view < h.lowest) {
        EnsureIndexed(h, b.prevId, b.qc.view);
        SameShape(Ensure(h, b.prevId, b.qc.view), Register(h, b));
      }
    }
  }

  lemma SameShape(f: Forest, g: Forest)
    requires Indexed(f)
    requires g.vertices.Keys == f.vertices.Keys && g.atLevel == f.atLevel && g.lowest == f.lowest
    requires forall id :: id in f.vertices ==> g.vertices[id].level == f.vertices[id].level
    ensures Indexed(g)
  {
    assert forall l: nat :: At(g, l) == At(f, l);
    forall id | id in g.vertices ensures id in At(g, g.vertices[id].level) {
      assert id in f.vertices;
    }
  }

  lemma CutIndexed(f: Forest, level: nat)
    requires Indexed(f) && level >= f.lowest
    ensures Indexed(Cut(f, level))
  {
    var g := Cut(f, level);
    assert forall l: nat :: At(g, l) == if l >= level then At(f, l) else [];
    forall id | id in g.vertices ensures id in At(g, g.vertices[id].level) {
      assert id in At(f, f.vertices[id].level);
    }
  }

  datatype Change = AddChange(block: Block) | PruneChange(level: nat)

  ghost function Apply(f: Forest, c: Change): Forest {
    match c
    case AddChange(b) => Add(f, b)
    case PruneChange(l) => match Prune(f, l) case Pruned(g, _, _) => g case _ => f
  }

  ghost function ApplyAll(f: Forest, cs: seq<Change>): Forest {
    if cs == [] then f else Apply(ApplyAll(f, cs[..|cs| - 1]), cs[|cs| - 1])
  }

  /** Every sequence of additions and prunings, with no condition on the blocks, keeps the two indexes equal. */
  lemma {:induction false} ForestAlwaysIndexed(cs: seq<Change>)
    ensures Indexed(ApplyAll(EMPTY, cs))
  {
    if cs != [] {
      var m := |cs| - 1;
      ForestAlwaysIndexed(cs[..m]);
      var f := ApplyAll(EMPTY, cs[..m]);
      match cs[m]
      case AddChange(b) => AddIndexed(f, b);
      case PruneChange(l) => if l >= f.lowest { CutIndexed(f, l); }
    }
  }

  // ---------------------------------------------------------------- what the operations do to held blocks

  /** After an addition a held block is one that was held before, or the new one. */
  lemma AddVertexMap(f: Forest, b: Block, id: Id)
    ensures GetVertex(Add(f, b), id) == if Accepts(f, b) && id == b.id then Some(b) else GetVertex(f, id)
    ensures Add(f, b).lowest == f.lowest
  {
  }

  lemma CutVertexMap(f: Forest, level: nat, id: Id)
    ensures GetVertex(Cut(f, level), id)
         == if id in f.vertices && f.vertices[id].level >= level then GetVertex(f, id) else None
  {
  }

  /** Held parents are strictly lower than their children. */
  ghost predicate Descending(f: Forest) {
    forall id :: id in f.vertices && f.vertices[id].vertex.Some? ==>
      var b := f.vertices[id].vertex.value;
      b.id == id && (GetVertex(f, b.prevId).Some? ==> GetVertex(f, b.prevId).value.view < b.view)
  }

  /** And no block is above the level it is filed under. */
  ghost predicate Rising(f: Forest) {
    forall id :: id in f.vertices && f.vertices[id].vertex.Some? ==>
      var b := f.vertices[id].vertex.value;
      && b.id == id && b.view <= f.vertices[id].level
      && (GetVertex(f, b.prevId).Some? ==> GetVertex(f, b.prevId).value.view < b.view)
  }

  /** What a block must satisfy to be added: it rises above its parent and stays below its children. */
  ghost predicate Fits(f: Forest, b: Block) {
    Accepts(f, b) ==>
      && b.prevId != b.id
      && (b.id in f.vertices ==> b.view <= f.vertices[b.id].level)
      && (GetVertex(f, b.prevId).Some? ==> GetVertex(f, b.prevId).value.view < b.view)
      && (forall id :: id in f.vertices && f.vertices[id].vertex.Some? && f.vertices[id].vertex.value.prevId == b.id
            ==> b.view < f.vertices[id].vertex.value.view)
  }

  lemma FitsIfRising(f: Forest, b: Block)
    requires Rising(f) && Rising(Add(f, b))
    ensures Fits(f, b)
  {
    if Accepts(f, b) {
      var g := Add(f, b);
      AddVertexMap(f, b, b.id);
      AddVertexMap(f, b, b.prevId);
      assert b.id in g.vertices && g.vertices[b.id].vertex == Some(b);
      forall id | id in f.vertices && f.vertices[id].vertex.Some? && f.vertices[id].vertex.value.prevId == b.id
        ensures b.view < f.vertices[id].vertex.value.view
      {
        AddVertexMap(f, b, id);
        assert id in g.vertices && g.vertices[id].vertex.Some?;
      }
    }
  }

  /** A forest stays rising if and only if the new block fits. */
  lemma AddRising(f: Forest, b: Block)
    requires Rising(f)
    ensures Rising(Add(f, b)) <==> Fits(f, b)
  {
    if Rising(Add(f, b)) {
      FitsIfRising(f, b);
    }
    if Fits(f, b) && Accepts(f, b) {
      var g := Add(f, b);
      forall id | id in g.vertices && g.vertices[id].vertex.Some?
        ensures var v := g.vertices[id].vertex.value;
                && v.id == id && v.view <= g.vertices[id].level
                && (GetVertex(g, v.prevId).Some? ==> GetVertex(g, v.prevId).value.view < v.view)
      {
        var v := g.vertices[id].vertex.value;
        AddVertexMap(f, b, id);
        AddVertexMap(f, b, v.prevId);
        if id != b.id {
          assert id in f.vertices && f.vertices[id].vertex == Some(v);
        }
      }
    }
  }

  lemma CutRising(f: Forest, level: nat)
    requires Rising(f)
    ensures Rising(Cut(f, level))
  {
    var g := Cut(f, level);
    forall id | id in g.vertices && g.vertices[id].vertex.Some?
      ensures var v := g.vertices[id].vertex.value;
              GetVertex(g, v.prevId).Some? ==> GetVertex(g, v.prevId).value.view < v.view
    {
      CutVertexMap(f, level, f.vertices[id].vertex.value.prevId);
    }
  }

  // ---------------------------------------------------------------- the walk on a rising forest

  /** The walk as it is when every step leads down. */
  function MarkDown(f: Forest, l: nat): Marks
    decreases l
  {
    if l < f.lowest || l <= 1 then Marked({})
    else
      match First(f, l)
      case None => Panic
      case Some(v) =>
        match GetVertex(f, v.prevId)
        case None => Marked({})
        case Some(p) =>
          if p.view < f.lowest then Marked({})
          else if p.view >= l then Endless
          else
            match MarkDown(f, p.view)
            case Marked(ls) => Marked(ls + {p.view})
            case other => other
  }

  /** The first block of a level is not above the level, and its parent is below. */
  lemma FirstFalls(f: Forest, l: nat)
    requires Indexed(f) && Rising(f) && First(f, l).Some?
    ensures At(f, l)[0] in f.vertices && f.vertices[At(f, l)[0]].level == l
    ensures var p := GetVertex(f, First(f, l).value.prevId); p.Some? ==> p.value.view < l
  {
    assert At(f, l)[0] in f.vertices;
  }

  lemma {:induction false} MarkFalls(f: Forest, l: nat, unseen: set<Id>)
    requires Indexed(f) && Rising(f)
    requires forall id :: id in f.vertices && f.vertices[id].level <= l ==> id in unseen
    ensures MarkFrom(f, l, unseen) == MarkDown(f, l)
    decreases l
  {
    if l >= f.lowest && l > 1 && First(f, l).Some? {
      FirstFalls(f, l);
      var p := GetVertex(f, First(f, l).value.prevId);
      if p.Some? {
        MarkFalls(f, p.value.view, unseen - {At(f, l)[0]});
      }
    }
  }

  /** If parents are below their children, the walk ends. */
  lemma WalkEnds(f: Forest, l: nat)
    requires Indexed(f) && Rising(f)
    ensures Mark(f, l) == MarkDown(f, l) && !Mark(f, l).Endless?
  {
    MarkFalls(f, l, f.vertices.Keys);
    DownEnds(f, l);
  }

  lemma {:induction false} DownEnds(f: Forest, l: nat)
    requires Indexed(f) && Rising(f)
    ensures !MarkDown(f, l).Endless?
    decreases l
  {
    if l >= f.lowest && l > 1 && First(f, l).Some? {
      FirstFalls(f, l);
      var p := GetVertex(f, First(f, l).value.prevId);
      if p.Some? {
        DownEnds(f, p.value.view);
      }
    }
  }

  // ---------------------------------------------------------------- the walk on any forest

  /** The level with which the walk goes on. */
  ghost function NextLevel(f: Forest, l: nat): Option<nat> {
    if l < f.lowest || l <= 1 || First(f, l).None? then None
    else
      match GetVertex(f, First(f, l).value.prevId)
      case None => None
      case Some(p) => if p.view < f.lowest then None else Some(p.view)
  }

  /** The walk from level `l` takes `k` steps. */
  ghost predicate Goes(f: Forest, l: nat, k: nat)
    decreases k
  {
    k == 0 || (NextLevel(f, l).Some? && Goes(f, NextLevel(f, l).value, k - 1))
  }

  ghost predicate Closed(f: Forest, levels: set<nat>) {
    forall l :: l in levels ==> NextLevel(f, l).Some? && NextLevel(f, l).value in levels
  }

  lemma {:induction false} ClosedGoes(f: Forest, levels: set<nat>, l: nat, k: nat)
    requires Closed(f, levels) && l in levels
    ensures Goes(f, l, k)
    decreases k
  {
    if k > 0 {
      ClosedGoes(f, levels, NextLevel(f, l).value, k - 1);
    }
  }

  /** The levels the walk has been at, and what it has seen there. */
  ghost predicate Visited(f: Forest, levels: set<nat>, l: nat, unseen: set<Id>) {
    && (forall v :: v in levels ==> NextLevel(f, v).Some? && NextLevel(f, v).value in levels + {l})
    && (forall id :: id in f.vertices && id !in unseen ==>
          exists v :: v in levels && At(f, v) != [] && At(f, v)[0] == id)
  }

  lemma VisitedMore(f: Forest, levels: set<nat>, l: nat, unseen: set<Id>)
    requires Visited(f, levels, l, unseen) && NextLevel(f, l).Some?
    ensures Visited(f, levels + {l}, NextLevel(f, l).value, unseen - {At(f, l)[0]})
  {
    var more := levels + {l};
    forall id | id in f.vertices && id !in unseen - {At(f, l)[0]}
      ensures exists v :: v in more && At(f, v) != [] && At(f, v)[0] == id
    {
      if id == At(f, l)[0] {
        assert l in more;
      } else {
        var v :| v in levels && At(f, v) != [] && At(f, v)[0] == id;
        assert v in more;
      }
    }
  }

  /** A walk that comes to a container for the second time stays among the levels it has been at. */
  lemma {:induction false} EndlessCloses(f: Forest, levels: set<nat>, l: nat, unseen: set<Id>) returns (all: set<nat>)
    requires Visited(f, levels, l, unseen) && MarkFrom(f, l, unseen).Endless?
    ensures Closed(f, all) && l in all && levels <= all
    decreases unseen
  {
    var id := At(f, l)[0];
    assert id in f.vertices;
    if id !in unseen {
      var v :| v in levels && At(f, v) != [] && At(f, v)[0] == id;
      assert NextLevel(f, l) == NextLevel(f, v);
      all := levels + {l};
    } else {
      VisitedMore(f, levels, l, unseen);
      all := EndlessCloses(f, levels + {l}, NextLevel(f, l).value, unseen - {id});
    }
  }

  lemma {:induction false} EndedStops(f: Forest, l: nat, unseen: set<Id>) returns (k: nat)
    requires !MarkFrom(f, l, unseen).Endless?
    ensures !Goes(f, l, k)
    decreases unseen
  {
    if NextLevel(f, l).None? {
      k := 1;
    } else {
      k := EndedStops(f, NextLevel(f, l).value, unseen - {At(f, l)[0]});
      k := k + 1;
    }
  }

  /** Exactly the walks that never stop are found to be endless. */
  lemma EndlessIff(f: Forest, l: nat)
    ensures Mark(f, l).Endless? <==> forall k: nat :: Goes(f, l, k)
  {
    if Mark(f, l).Endless? {
      var all := EndlessCloses(f, {}, l, f.vertices.Keys);
      forall k: nat ensures Goes(f, l, k) {
        ClosedGoes(f, all, l, k);
      }
    } else {
      var k := EndedStops(f, l, f.vertices.Keys);
    }
  }

  // ---------------------------------------------------------------- the object

  /** `Hung` stands for a walk that never ends: the source does not return. */
  datatype PruneOutcome = LevelTooLow | Crashed | Hung | Done(forked: seq<Block>, count: int)

  class LevelledForest {
    var vertices: map<Id, Container>
    var verticesAtLevel: map<nat, seq<Id>>
    var LowestLevel: nat

    ghost function Model(): Forest
      reads this
    {
      Forest(vertices, verticesAtLevel, LowestLevel)
    }

    ghost predicate Valid()
      reads this
    {
      Indexed(Model())
    }

    constructor ()
      ensures Valid() && Model() == EMPTY
    {
      vertices, verticesAtLevel, LowestLevel := map[], map[], 0;
    }

    function Lookup(id: Id): Option<Block>
      reads this
      ensures Lookup(id) == GetVertex(Model(), id)
    {
      if id in vertices then vertices[id].vertex else None
    }

    method GetOrCreateVertexContainer(id: Id, level: nat) returns (c: Container)
      modifies this
      ensures Model() == Ensure(old(Model()), id, level)
      ensures id in vertices && c == vertices[id]
    {
      if id !in vertices {
        vertices := vertices[id := Container(level, [], None)];
        var vtcs := if level in verticesAtLevel then verticesAtLevel[level] else [];
        verticesAtLevel := verticesAtLevel[level := vtcs + [id]];
      }
      c := vertices[id];
    }

    method RegisterWithParent(b: Block)
      requires b.id in vertices
      modifies this
      ensures Model() == Register(old(Model()), b)
    {
      if vertices[b.id].level <= LowestLevel { return; }
      if b.qc.view < LowestLevel { return; }
      var p := GetOrCreateVertexContainer(b.prevId, b.qc.view);
      vertices := vertices[b.prevId := p.(children := p.children + [b.id])];
    }

    method AddVertex(b: Block)
      requires Valid()
      modifies this
      ensures Valid() && Model() == Add(old(Model()), b)
    {
      AddIndexed(Model(), b);
      if b.view < LowestLevel { return; }
      var c := GetOrCreateVertexContainer(b.id, b.view);
      if c.vertex.Some? { return; }
      vertices := vertices[b.id := c.(vertex := Some(b))];
      RegisterWithParent(b);
    }

    /** The first loop of pruning: goes from `level` through the parents and collects their levels. At a container
        where the loop has been before, the source goes round for ever; here that is reported. */
    method FindCommittedLevels(level: nat) returns (marks: Marks)
      requires Valid()
      ensures marks == Mark(Model(), level)
    {
      var committed: set<nat> := {};
      var seen: set<Id> := {};
      var l: nat := level;
      assert vertices.Keys - {} == vertices.Keys;
      while l >= LowestLevel && l > 1
        invariant Mark(Model(), level) == Adjoin(MarkFrom(Model(), l, vertices.Keys - seen), committed)
        decreases vertices.Keys - seen
      {
        if l !in verticesAtLevel || |verticesAtLevel[l]| == 0 { return Panic; }
        var first := verticesAtLevel[l][0];
        assert first in verticesAtLevel[l];
        if vertices[first].vertex.None? { return Panic; }
        if first in seen { return Endless; }
        var parent := Lookup(vertices[first].vertex.value.prevId);
        if parent.None? || parent.value.view < LowestLevel { break; }
        MarksAdjoin(MarkFrom(Model(), parent.value.view, vertices.Keys - seen - {first}), {parent.value.view},
                    committed);
        assert vertices.Keys - seen - {first} == vertices.Keys - (seen + {first});
        seen := seen + {first};
        committed := committed + {parent.value.view};
        l := parent.value.view;
      }
      return Marked(committed);
    }

    method PruneUpToLevel(level: nat) returns (r: PruneOutcome)
      requires Valid()
      modifies this
      ensures Valid()
      ensures match Prune(old(Model()), level)
              case TooLow => r.LevelTooLow? && Model() == old(Model())
              case PrunePanic => r.Crashed? && Model() == old(Model())
              case PruneEndless => r.Hung? && Model() == old(Model())
              case Pruned(f, forked, count) => r == Done(forked, count) && Model() == f
    {
      if level < LowestLevel { return LevelTooLow; }
      var marks := FindCommittedLevels(level);
      if marks.Panic? { return Crashed; }
      if marks.Endless? { return Hung; }
      ghost var f := Model();
      var forked, count := DropLevels(level, marks.levels, f);
      LowestLevel := level;
      CutIndexed(f, level);
      return Done(forked, count);
    }

    /** The second loop of pruning: deletes the levels below `level` one by one. */
    method DropLevels(level: nat, committedLevels: set<nat>, ghost f: Forest)
      returns (forked: seq<Block>, count: int)
      requires f == Model() && Indexed(f) && level >= LowestLevel
      modifies this`vertices, this`verticesAtLevel
      ensures vertices == KeptVertices(f, level) && verticesAtLevel == KeptLevels(f, level)
      ensures forked == Forks(f, committedLevels, f.lowest, level)
      ensures count == |f.vertices| - |vertices|
    {
      hide KeptVertices, KeptLevels, Indexed, FullOf;
      CutNothing(f);
      forked, count := [], 0;
      var l: nat := LowestLevel;
      while l < level
        invariant f.lowest <= l <= level
        invariant vertices == KeptVertices(f, l) && verticesAtLevel == KeptLevels(f, l)
        invariant forked == Forks(f, committedLevels, f.lowest, l)
        invariant count == |f.vertices| - |vertices|
      {
        var more, n := PruneLevel(l, l in committedLevels || l <= 1, f);
        ForksStep(f, committedLevels, l);
        forked, count, l := forked + more, count + n, l + 1;
      }
    }

    /** Deletes one level and collects its blocks unless the level is committed. */
    method PruneLevel(l: nat, committed: bool, ghost f: Forest) returns (forked: seq<Block>, count: int)
      requires Indexed(f)
      requires vertices == KeptVertices(f, l) && verticesAtLevel == KeptLevels(f, l)
      modifies this`vertices, this`verticesAtLevel
      ensures vertices == KeptVertices(f, l + 1) && verticesAtLevel == KeptLevels(f, l + 1)
      ensures forked == if committed then [] else FullOf(f, At(f, l))
      ensures count == old(|vertices|) - |vertices|
    {
      var ids := if l in verticesAtLevel then verticesAtLevel[l] else [];
      assert ids == At(f, l);
      LevelHeld(f, l);
      CutOneLevel(f, l);
      vertices, forked, count := Sweep(vertices, ids, committed, f);
      verticesAtLevel := verticesAtLevel - {l};
    }

    /** The inner loop: goes through the containers of a level. */
    static method Sweep(all: map<Id, Container>, ids: seq<Id>, committed: bool, ghost f: Forest)
      returns (rest: map<Id, Container>, forked: seq<Block>, count: int)
      requires NoDuplicates(ids)
      requires forall i :: 0 <= i < |ids| ==> ids[i] in all && all[ids[i]].vertex == GetVertex(f, ids[i])
      ensures rest == all - Prefix(ids, |ids|)
      ensures forked == if committed then [] else FullOf(f, ids)
      ensures count == |all| - |rest|
    {
      hide Prefix, FullOf, NoDuplicates;
      SweepStart(f, all, ids);
      rest, forked, count := all, [], 0;
      var k := 0;
      while k < |ids|
        invariant 0 <= k <= |ids|
        invariant rest == all - Prefix(ids, k)
        invariant forked == if committed then [] else FullOf(f, ids[..k])
        invariant count == |all| - |rest|
      {
        SweepStep(f, all, ids, k);
        if !committed && all[ids[k]].vertex.Some? {
          forked := forked + [all[ids[k]].vertex.value];
        }
        RemoveOne(rest, ids[k]);
        rest := rest - {ids[k]};
        count, k := count + 1, k + 1;
      }
    }
  }

  /** More levels, if the walk ended. */
  ghost function Adjoin(marks: Marks, more: set<nat>): Marks {
    match marks
    case Marked(ls) => Marked(ls + more)
    case other => other
  }

  lemma MarksAdjoin(marks: Marks, x: set<nat>, y: set<nat>)
    ensures Adjoin(Adjoin(marks, x), y) == Adjoin(marks, y + x)
  {
    if marks.Marked? {
      assert marks.levels + x + y == marks.levels + (y + x);
    }
  }

  // ---------------------------------------------------------------- one level at a time

  ghost function Prefix(ids: seq<Id>, k: nat): set<Id>
    requires k <= |ids|
  {
    set id | id in ids[..k]
  }

  lemma PrefixStep(ids: seq<Id>, k: nat)
    requires NoDuplicates(ids) && k < |ids|
    ensures ids[k] !in Prefix(ids, k)
    ensures Prefix(ids, k + 1) == Prefix(ids, k) + {ids[k]}
  {
    assert ids[..k + 1] == ids[..k] + [ids[k]];
  }

  lemma SweepStart(f: Forest, all: map<Id, Container>, ids: seq<Id>)
    ensures all - Prefix(ids, 0) == all && FullOf(f, ids[..0]) == [] && ids[..|ids|] == ids
  {
  }

  lemma SweepStep(f: Forest, all: map<Id, Container>, ids: seq<Id>, k: nat)
    requires NoDuplicates(ids) && k < |ids|
    requires ids[k] in all
    ensures ids[k] in all - Prefix(ids, k)
    ensures all - Prefix(ids, k) - {ids[k]} == all - Prefix(ids, k + 1)
    ensures FullOf(f, ids[..k + 1])
         == FullOf(f, ids[..k]) + match GetVertex(f, ids[k]) case None => [] case Some(v) => [v]
  {
    PrefixStep(ids, k);
    assert ids[..k + 1][..k] == ids[..k];
  }

  lemma RemoveOne<K, V>(m: map<K, V>, k: K)
    requires k in m
    ensures |m - {k}| == |m| - 1
  {
    assert m.Keys == (m - {k}).Keys + {k};
  }

  lemma ForksStep(f: Forest, marks: set<nat>, l: nat)
    requires f.lowest <= l
    ensures Forks(f, marks, f.lowest, l + 1)
         == Forks(f, marks, f.lowest, l) + if l in marks || l <= 1 then [] else FullOf(f, At(f, l))
  {
  }

  lemma CutNothing(f: Forest)
    requires Indexed(f)
    ensures KeptVertices(f, f.lowest) == f.vertices && KeptLevels(f, f.lowest) == f.atLevel
  {
    forall id | id in f.vertices ensures id in KeptVertices(f, f.lowest) {
      assert f.vertices[id].level >= f.lowest;
    }
  }

  lemma LevelHeld(f: Forest, l: nat)
    requires Indexed(f)
    ensures NoDuplicates(At(f, l))
    ensures forall i :: 0 <= i < |At(f, l)| ==>
              At(f, l)[i] in KeptVertices(f, l) && KeptVertices(f, l)[At(f, l)[i]].vertex == GetVertex(f, At(f, l)[i])
  {
  }

  lemma CutOneLevel(f: Forest, l: nat)
    requires Indexed(f)
    ensures KeptVertices(f, l) - Prefix(At(f, l), |At(f, l)|) == KeptVertices(f, l + 1)
    ensures KeptLevels(f, l) - {l} == KeptLevels(f, l + 1)
  {
    forall id | id in f.vertices ensures id in Prefix(At(f, l), |At(f, l)|) <==> f.vertices[id].level == l {
      assert id in At(f, f.vertices[id].level);
    }
  }
}
