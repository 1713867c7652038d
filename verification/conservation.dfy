/** What becomes of every block that is added: it is committed, reported as forked, or still waiting. */
module Conservation {
  import opened Types
  import opened Tally
  import opened Quorums
  import opened Forests
  import opened Worlds
  import opened BlockChains

  datatype Op = AddOp(block: Block) | CommitOp(id: Id)

  /** The forest with the totals of what it took in and what it reported. */
  datatype Book = Book(forest: Forest, accepted: multiset<Block>, committed: multiset<Block>, forked: multiset<Block>)

  const NEW_BOOK := Book(EMPTY, multiset{}, multiset{}, multiset{})

  ghost function Act(k: Book, op: Op): Book {
    match op
    case AddOp(b) =>
      k.(forest := Add(k.forest, b), accepted := k.accepted + if Accepts(k.forest, b) then multiset{b} else multiset{})
    case CommitOp(id) =>
      match CommitBlock(Chain(0, k.forest, map[]), id)
      case Committed(c, path, forks) =>
        k.(forest := c.forest, committed := k.committed + multiset(path), forked := k.forked + multiset(forks))
      case _ => k
  }

  ghost function ActAll(ops: seq<Op>): Book {
    if ops == [] then NEW_BOOK else Act(ActAll(ops[..|ops| - 1]), ops[|ops| - 1])
  }

  /** The held parents lead from `b` to the lowest level, that is to the block committed last. */
  ghost predicate Reaches(f: Forest, b: Block)
    decreases b.view
  {
    b.view == f.lowest
    || (GetVertex(f, b.prevId).Some?
        && var p := GetVertex(f, b.prevId).value;
           f.lowest <= p.view < b.view && Reaches(f, p))
  }

  ghost predicate ExtendsLast(f: Forest, id: Id) {
    GetVertex(f, id).Some? ==> f.lowest <= 1 || Reaches(f, GetVertex(f, id).value)
  }

  // ---------------------------------------------------------------- one container per level

  ghost predicate Sound(f: Forest, w: World) {
    WellFormed(w) && OnePerView(w) && Indexed(f) && Conforms(f, w)
  }

  ghost predicate Same(i: int, k: int) { i == k }

  lemma AllEqual(ids: seq<Id>, k: nat)
    requires NoDuplicates(ids) && k < |ids|
    requires forall i :: 0 <= i < |ids| ==> ids[i] == ids[k]
    ensures ids == [ids[k]]
  {
    forall i | 0 <= i < |ids| ensures Same(i, k) {
      assert ids[i] == ids[k];
    }
    assert Same(0, k) && Same(|ids| - 1, k);
  }

  /** Two containers of one level are the same container. */
  lemma LevelIsSingle(f: Forest, w: World, l: nat)
    requires Sound(f, w) && At(f, l) != []
    ensures At(f, l) == [At(f, l)[0]] && At(f, l)[0] in f.vertices && f.vertices[At(f, l)[0]].level == l
  {
    var ids := At(f, l);
    forall i | 0 <= i < |ids| ensures ids[i] == ids[0] {
      assert f.vertices[ids[i]].level == l && f.vertices[ids[0]].level == l;
    }
    AllEqual(ids, 0);
  }

  lemma OnlyOne(f: Forest, w: World, b: Block)
    requires Sound(f, w) && GetVertex(f, b.id) == Some(b)
    ensures b.id in f.vertices && f.vertices[b.id].level == b.view && At(f, b.view) == [b.id]
    ensures b.id in w && w[b.id] == b
  {
    assert b.id in At(f, f.vertices[b.id].level);
    LevelIsSingle(f, w, b.view);
  }

  /** In a level there is one block or none. */
  lemma LevelBlocks(f: Forest, w: World, l: nat, x: Block)
    requires Sound(f, w)
    ensures multiset(FullOf(f, At(f, l)))[x] == if x.view == l && GetVertex(f, x.id) == Some(x) then 1 else 0
  {
    var ids := At(f, l);
    if GetVertex(f, x.id) == Some(x) {
      OnlyOne(f, w, x);
    }
    if ids != [] {
      LevelIsSingle(f, w, l);
      assert FullOf(f, ids[..0]) == [];
    }
  }

  lemma JoinCount<T>(s: seq<T>, t: seq<T>, x: T)
    ensures multiset(s + t)[x] == multiset(s)[x] + multiset(t)[x]
  {
  }

  ghost function ForkCount(f: Forest, marks: set<nat>, lo: nat, hi: nat, x: Block): nat {
    if lo <= x.view < hi && x.view !in marks && x.view > 1 && GetVertex(f, x.id) == Some(x) then 1 else 0
  }

  lemma {:induction false} ForksCount(f: Forest, w: World, marks: set<nat>, lo: nat, hi: nat, x: Block)
    requires Sound(f, w)
    ensures multiset(Forks(f, marks, lo, hi))[x] == ForkCount(f, marks, lo, hi, x)
    decreases hi
  {
    hide Sound, FullOf, At;
    if hi > lo {
      var l := hi - 1;
      ForksCount(f, w, marks, lo, l, x);
      LevelBlocks(f, w, l, x);
      if l in marks || l <= 1 {
        assert Forks(f, marks, lo, hi) == Forks(f, marks, lo, l);
      } else {
        JoinCount(Forks(f, marks, lo, l), FullOf(f, At(f, l)), x);
      }
    }
  }

  lemma {:induction false} PathCount(f: Forest, b: Block, x: Block)
    ensures multiset(CommitPath(f, b))[x] == if x in CommitPath(f, b) then 1 else 0
    ensures x in CommitPath(f, b) ==> f.lowest < x.view <= b.view && (x == b || x.view < b.view)
    ensures x in CommitPath(f, b) && GetVertex(f, b.id) == Some(b) && Rising(f) ==> GetVertex(f, x.id) == Some(x)
    decreases b.view
  {
    if b.view > f.lowest && GetVertex(f, b.prevId).Some? && GetVertex(f, b.prevId).value.view < b.view {
      var p := GetVertex(f, b.prevId).value;
      PathCount(f, p, x);
      assert f.vertices[b.prevId].vertex == Some(p);
    }
  }

  /** Marking never runs into a missing vertex, and it marks only levels below the start. */
  lemma {:induction false} MarkDefined(f: Forest, w: World, b: Block)
    requires Sound(f, w) && GetVertex(f, b.id) == Some(b)
    ensures MarkDown(f, b.view).Marked? && forall l :: l in MarkDown(f, b.view).levels ==> f.lowest <= l < b.view
    decreases b.view
  {
    OnlyOne(f, w, b);
    if GetVertex(f, b.prevId).Some? {
      MarkDefined(f, w, GetVertex(f, b.prevId).value);
    }
  }

  lemma MarkStep(f: Forest, w: World, b: Block, p: Block)
    requires Sound(f, w) && GetVertex(f, b.id) == Some(b) && GetVertex(f, b.prevId) == Some(p)
    requires f.lowest <= p.view
    ensures p.view < b.view && MarkDown(f, p.view).Marked? && GetVertex(f, p.id) == Some(p)
    ensures MarkDown(f, b.view) == Marked(MarkDown(f, p.view).levels + {p.view})
  {
    OnlyOne(f, w, b);
    MarkDefined(f, w, p);
  }

  /** The walk that marks levels and the walk that reports blocks visit the same blocks. */
  lemma {:induction false} MarksArePath(f: Forest, w: World, b: Block, x: Block)
    requires Sound(f, w) && GetVertex(f, b.id) == Some(b) && b.view >= f.lowest
    requires GetVertex(f, x.id) == Some(x) && x.view > 1
    ensures MarkDown(f, b.view).Marked?
    ensures f.lowest < x.view < b.view ==> (x.view in MarkDown(f, b.view).levels <==> x in CommitPath(f, b))
    ensures x.view == f.lowest < b.view ==> (x.view in MarkDown(f, b.view).levels <==> Reaches(f, b))
    decreases b.view
  {
    hide Sound;
    MarkDefined(f, w, b);
    OnlyOne(f, w, b);
    if GetVertex(f, b.prevId).Some? {
      var p := GetVertex(f, b.prevId).value;
      if p.view >= f.lowest {
        MarkStep(f, w, b, p);
        MarksArePath(f, w, p, x);
        PathCount(f, p, x);
        SameLevel(f, w, p, x);
        MarkDefined(f, w, p);
      }
    }
  }

  lemma SameLevel(f: Forest, w: World, b: Block, x: Block)
    requires Sound(f, w) && GetVertex(f, b.id) == Some(b) && GetVertex(f, x.id) == Some(x)
    ensures b.view == x.view ==> b == x
  {
    OnlyOne(f, w, b);
    OnlyOne(f, w, x);
  }

  // ---------------------------------------------------------------- the balance

  /** The blocks still waiting: held above the lowest level. */
  ghost predicate Pending(f: Forest, b: Block) {
    GetVertex(f, b.id) == Some(b) && b.view > f.lowest
  }

  /** Every block of a view above 1 is accounted for: taken in as often as it was reported or is waiting. */
  ghost predicate Balanced(k: Book) {
    forall b: Block :: b.view > 1 ==>
      k.accepted[b] == k.committed[b] + k.forked[b] + if Pending(k.forest, b) then 1 else 0
  }

  /** The last committed block is held, and a reported block never comes back. */
  ghost predicate Anchored(k: Book, w: World) {
    && Sound(k.forest, w)
    && (k.forest.lowest > 1 ==>
          exists id :: id in w && w[id].view == k.forest.lowest && GetVertex(k.forest, id) == Some(w[id]))
    && (forall b: Block :: b.view > 1 && k.committed[b] + k.forked[b] > 0 ==>
          b.view < k.forest.lowest || GetVertex(k.forest, b.id) == Some(b))
  }

  lemma AnchorIsOnly(k: Book, w: World, b: Block)
    requires Anchored(k, w) && b.id in w && w[b.id] == b && b.view == k.forest.lowest > 1
    ensures GetVertex(k.forest, b.id) == Some(b)
  {
  }

  lemma AddStep(k: Book, w: World, b: Block)
    requires Anchored(k, w) && Balanced(k) && b.id in w && w[b.id] == b
    ensures Anchored(Act(k, AddOp(b)), w) && Balanced(Act(k, AddOp(b)))
  {
    var m := Act(k, AddOp(b));
    AddConforms(k.forest, w, b);
    AddIndexed(k.forest, b);
    forall x: Id ensures GetVertex(m.forest, x)
        == if Accepts(k.forest, b) && x == b.id then Some(b) else GetVertex(k.forest, x) {
      AddVertexMap(k.forest, b, x);
    }
    if b.view == k.forest.lowest > 1 {
      AnchorIsOnly(k, w, b);
    }
  }

  /** A commit of a held block goes through. */
  lemma CommitGoesThrough(f: Forest, w: World, id: Id)
    requires Sound(f, w) && GetVertex(f, id).Some?
    ensures var b := GetVertex(f, id).value;
            && GetVertex(f, b.id) == Some(b) && b.view >= f.lowest && MarkDown(f, b.view).Marked?
            && CommitBlock(Chain(0, f, map[]), id)
               == Committed(Chain(0, Cut(f, b.view), map[]), CommitPath(f, b),
                            Forks(f, MarkDown(f, b.view).levels, f.lowest, b.view))
  {
    hide Sound, CommitPath, IdsOf, Forks, KeptVertices, KeptLevels, MarkDown, Mark;
    var b := GetVertex(f, id).value;
    HeldSound(f, w, id);
    MarkDefined(f, w, b);
    assert Mark(f, b.view) == MarkDown(f, b.view) by { MarkSound(f, w, b.view); }
    var none: Votes := map[];
    assert none - IdsOf(CommitPath(f, b)) == none;
  }

  /** A held block is filed under its own identifier, at its own level. */
  lemma HeldSound(f: Forest, w: World, id: Id)
    requires Sound(f, w) && GetVertex(f, id).Some?
    ensures var b := GetVertex(f, id).value; b.id == id && b.view >= f.lowest
  {
    assert id in f.vertices;
    assert f.vertices[id].vertex == Some(w[id]) && f.vertices[id].level == w[id].view;
  }

  lemma MarkSound(f: Forest, w: World, level: nat)
    requires Sound(f, w)
    ensures Mark(f, level) == MarkDown(f, level) && Rising(f)
  {
    ConformsRising(f, w);
    hide Indexed, Conforms, Rising, MarkDown, Mark;
    WalkEnds(f, level);
  }

  /** A held block is in the path or among the forks, as the marks say. */
  lemma PathOrFork(f: Forest, w: World, b: Block, x: Block)
    requires Sound(f, w) && GetVertex(f, b.id) == Some(b) && b.view >= f.lowest && x.view > 1
    requires MarkDown(f, b.view).Marked?
    ensures (if x in CommitPath(f, b) then 1 else 0) + ForkCount(f, MarkDown(f, b.view).levels, f.lowest, b.view, x)
         == (if Pending(f, x) && x.view <= b.view then 1 else 0)
            + (if GetVertex(f, x.id) == Some(x) && x.view == f.lowest && !Reaches(f, b) then 1 else 0)
  {
    hide Sound, Rising, MarkDown, GetVertex, Reaches, CommitPath;
    PathCount(f, b, x);
    MarkSound(f, w, b.view);
    PathEmpty(f, b);
    if GetVertex(f, x.id) == Some(x) {
      MarksArePath(f, w, b, x);
      SameLevel(f, w, b, x);
    }
  }

  /** At the lowest level there is no path, and nothing to reach. */
  lemma PathEmpty(f: Forest, b: Block)
    ensures b.view <= f.lowest ==> CommitPath(f, b) == []
    ensures b.view > f.lowest ==> b in CommitPath(f, b)
    ensures b.view == f.lowest ==> Reaches(f, b)
  {
    if b.view > f.lowest {
      assert CommitPath(f, b)[0] == b;
    }
  }

  /** What one commit reports, block by block. */
  lemma CommitReports(f: Forest, w: World, id: Id, x: Block)
    requires Sound(f, w) && GetVertex(f, id).Some? && x.view > 1
    ensures CommitBlock(Chain(0, f, map[]), id).Committed?
    ensures var b, r := GetVertex(f, id).value, CommitBlock(Chain(0, f, map[]), id);
            && r.chain.forest == Cut(f, b.view) && f.lowest <= b.view
            && multiset(r.committed)[x] + multiset(r.forked)[x]
               == (if Pending(f, x) && x.view <= b.view then 1 else 0)
                  + (if GetVertex(f, x.id) == Some(x) && x.view == f.lowest && !Reaches(f, b) then 1 else 0)
  {
    hide Sound, Rising, MarkDown, CommitPath, Forks, Reaches, CommitBlock, Cut, Pending, ForkCount;
    var b := GetVertex(f, id).value;
    CommitGoesThrough(f, w, id);
    ForksCount(f, w, MarkDown(f, b.view).levels, f.lowest, b.view, x);
    PathCount(f, b, x);
    PathOrFork(f, w, b, x);
  }

  /** The effect of a commit on the book, block by block. */
  lemma CommitEffect(k: Book, w: World, id: Id, x: Block)
    requires Sound(k.forest, w) && GetVertex(k.forest, id).Some? && x.view > 1
    ensures var f, m, b := k.forest, Act(k, CommitOp(id)), GetVertex(k.forest, id).value;
            && m.forest == Cut(f, b.view) && f.lowest <= b.view && m.accepted == k.accepted
            && m.committed[x] + m.forked[x] == k.committed[x] + k.forked[x]
                 + (if Pending(f, x) && x.view <= b.view then 1 else 0)
                 + (if GetVertex(f, x.id) == Some(x) && x.view == f.lowest && !Reaches(f, b) then 1 else 0)
            && (GetVertex(m.forest, x.id) == Some(x) <==> GetVertex(f, x.id) == Some(x) && x.view >= b.view)
  {
    hide Sound, CommitBlock, Cut, Reaches, Pending;
    CommitReports(k.forest, w, id, x);
    CutHolds(k.forest, w, GetVertex(k.forest, id).value.view, x);
  }

  lemma CutHolds(f: Forest, w: World, level: nat, x: Block)
    requires Sound(f, w)
    ensures GetVertex(Cut(f, level), x.id) == Some(x) <==> GetVertex(f, x.id) == Some(x) && x.view >= level
  {
    hide Sound, Cut;
    CutVertexMap(f, level, x.id);
    if GetVertex(f, x.id) == Some(x) {
      OnlyOne(f, w, x);
    }
  }

  /** After a commit the committed block is held at the lowest level. */
  lemma CommitKeepsSound(k: Book, w: World, id: Id)
    requires Sound(k.forest, w) && GetVertex(k.forest, id).Some?
    ensures var m, b := Act(k, CommitOp(id)), GetVertex(k.forest, id).value;
            && Sound(m.forest, w) && m.forest.lowest == b.view
            && b.id == id && id in w && w[id] == b && GetVertex(m.forest, id) == Some(b)
  {
    var f, b := k.forest, GetVertex(k.forest, id).value;
    CommitGoesThrough(f, w, id);
    OnlyOne(f, w, b);
    CutConforms(f, w, b.view);
    CutIndexed(f, b.view);
    CutVertexMap(f, b.view, id);
    assert Cut(f, b.view).lowest == b.view;
    hide CommitBlock, Cut, Indexed, Conforms, MarkDown, CommitPath, Forks, WellFormed, OnePerView;
  }

  lemma CommitAnchored(k: Book, w: World, id: Id)
    requires Anchored(k, w) && GetVertex(k.forest, id).Some?
    ensures Anchored(Act(k, CommitOp(id)), w)
  {
    hide Sound, Act, GetVertex, Reaches;
    var m := Act(k, CommitOp(id));
    CommitKeepsSound(k, w, id);
    forall x: Block | x.view > 1 && m.committed[x] + m.forked[x] > 0
      ensures x.view < m.forest.lowest || GetVertex(m.forest, x.id) == Some(x)
    {
      CommitEffect(k, w, id, x);
    }
  }

  /** A commit keeps the account exact if and only if the committed block extends the one committed last. */
  lemma CommitStep(k: Book, w: World, id: Id)
    requires Anchored(k, w) && Balanced(k)
    ensures Balanced(Act(k, CommitOp(id))) <==> ExtendsLast(k.forest, id)
  {
    if GetVertex(k.forest, id).Some? {
      if ExtendsLast(k.forest, id) {
        CommitBalances(k, w, id);
      } else {
        CommitUnbalances(k, w, id);
      }
    }
  }

  lemma CommitBalances(k: Book, w: World, id: Id)
    requires Anchored(k, w) && Balanced(k) && GetVertex(k.forest, id).Some? && ExtendsLast(k.forest, id)
    ensures Balanced(Act(k, CommitOp(id)))
  {
    var m := Act(k, CommitOp(id));
    forall x: Block | x.view > 1
      ensures m.accepted[x] == m.committed[x] + m.forked[x] + if Pending(m.forest, x) then 1 else 0
    {
      CommitEffect(k, w, id, x);
    }
  }

  lemma CommitUnbalances(k: Book, w: World, id: Id)
    requires Anchored(k, w) && Balanced(k) && GetVertex(k.forest, id).Some? && !ExtendsLast(k.forest, id)
    ensures !Balanced(Act(k, CommitOp(id)))
  {
    var last :| last in w && w[last].view == k.forest.lowest && GetVertex(k.forest, last) == Some(w[last]);
    CommitEffect(k, w, id, w[last]);
  }

  // ---------------------------------------------------------------- whole runs

  ghost predicate InOrder(ops: seq<Op>, w: World) {
    forall i :: 0 <= i < |ops| ==>
      match ops[i]
      case AddOp(b) => b.id in w && w[b.id] == b
      case CommitOp(id) => ExtendsLast(ActAll(ops[..i]).forest, id)
  }

  ghost predicate AtMostOnce(k: Book) {
    forall b: Block :: b.view > 1 ==> k.accepted[b] <= 1
  }

  lemma AddOnce(k: Book, w: World, b: Block)
    requires Anchored(k, w) && Balanced(k) && AtMostOnce(k)
    ensures AtMostOnce(Act(k, AddOp(b)))
  {
    hide Sound, Add;
  }

  lemma OpBalances(k: Book, w: World, op: Op)
    requires Anchored(k, w) && Balanced(k) && AtMostOnce(k)
    requires op.AddOp? ==> op.block.id in w && w[op.block.id] == op.block
    requires op.CommitOp? ==> ExtendsLast(k.forest, op.id)
    ensures Anchored(Act(k, op), w) && Balanced(Act(k, op)) && AtMostOnce(Act(k, op))
  {
    hide Anchored, Balanced, ExtendsLast, CommitPath, IdsOf, Forks, Mark, Cut;
    match op
    case AddOp(b) =>
      AddStep(k, w, b);
      AddOnce(k, w, b);
    case CommitOp(id) =>
      CommitStep(k, w, id);
      if GetVertex(k.forest, id).Some? { CommitAnchored(k, w, id); }
  }

  lemma {:induction false} RunBalances(ops: seq<Op>, w: World)
    requires WellFormed(w) && OnePerView(w) && InOrder(ops, w)
    ensures Anchored(ActAll(ops), w) && Balanced(ActAll(ops)) && AtMostOnce(ActAll(ops))
  {
    if ops != [] {
      var m := |ops| - 1;
      assert InOrder(ops[..m], w) by {
        forall i | 0 <= i < m ensures ops[..m][i] == ops[i] && ops[..m][..i] == ops[..i] {}
      }
      hide Anchored, Balanced, AtMostOnce, Act, ExtendsLast, WellFormed, OnePerView;
      RunBalances(ops[..m], w);
      OpBalances(ActAll(ops[..m]), w, ops[m]);
    }
  }

  /** Over every run with one block per view in which each commit extends the last one, a block that was taken in
      is reported committed once, or reported forked once, or is still waiting and unreported. */
  lemma ReportedExactlyOnce(ops: seq<Op>, w: World, b: Block)
    requires WellFormed(w) && OnePerView(w) && InOrder(ops, w)
    requires b.view > 1 && b in ActAll(ops).accepted
    ensures var k := ActAll(ops);
            || (k.committed[b] == 1 && k.forked[b] == 0 && !Pending(k.forest, b))
            || (k.committed[b] == 0 && k.forked[b] == 1 && !Pending(k.forest, b))
            || (k.committed[b] == 0 && k.forked[b] == 0 && Pending(k.forest, b))
  {
    RunBalances(ops, w);
  }

  // ---------------------------------------------------------------- the error return of a commit

  ghost predicate KnownBlocks(ops: seq<Op>, w: World) {
    forall i :: 0 <= i < |ops| && ops[i].AddOp? ==> ops[i].block.id in w && w[ops[i].block.id] == ops[i].block
  }

  lemma {:induction false} RunConforms(ops: seq<Op>, w: World)
    requires WellFormed(w) && KnownBlocks(ops, w)
    ensures Indexed(ActAll(ops).forest) && Conforms(ActAll(ops).forest, w)
  {
    if ops != [] {
      var m := |ops| - 1;
      RunConforms(ops[..m], w);
      assert ops[m].AddOp? ==> ops[m].block.id in w && w[ops[m].block.id] == ops[m].block;
      OpForest(ActAll(ops[..m]), ops[m]);
      hide Indexed, Conforms, WellFormed, Act, Add, Cut;
      match ops[m]
      case AddOp(b) => AddConforms(ActAll(ops[..m]).forest, w, b);
      case CommitOp(_) => forall l { CutConforms(ActAll(ops[..m]).forest, w, l); }
    }
  }

  /** One operation adds a block, cuts the forest, or leaves it as it is. */
  lemma OpForest(k: Book, op: Op)
    requires Indexed(k.forest)
    ensures Indexed(Act(k, op).forest)
    ensures op.AddOp? ==> Act(k, op).forest == Add(k.forest, op.block)
    ensures op.CommitOp? ==>
              || Act(k, op).forest == k.forest
              || (GetVertex(k.forest, op.id).Some?
                  && Act(k, op).forest == Cut(k.forest, GetVertex(k.forest, op.id).value.view))
  {
    hide Indexed, Add, KeptVertices, KeptLevels, Mark, Forks, CommitPath, IdsOf;
    match op
    case AddOp(b) => AddIndexed(k.forest, b);
    case CommitOp(id) =>
      if GetVertex(k.forest, id).Some? && GetVertex(k.forest, id).value.view >= k.forest.lowest {
        CutIndexed(k.forest, GetVertex(k.forest, id).value.view);
      }
  }

  /** The two indexes agree after every run, whatever the blocks. */
  lemma {:induction false} RunIndexed(ops: seq<Op>)
    ensures Indexed(ActAll(ops).forest)
  {
    if ops != [] {
      RunIndexed(ops[..|ops| - 1]);
      OpForest(ActAll(ops[..|ops| - 1]), ops[|ops| - 1]);
      hide Indexed, Act;
    }
  }

  /** After every run of additions and commits, of any blocks: a commit takes the error return if and only if its block
      is held with a view below the view committed last. Such a block is filed above its own view. */
  lemma TooLowIff(ops: seq<Op>, id: Id)
    ensures var f := ActAll(ops).forest;
            CommitBlock(Chain(0, f, map[]), id).BadLevel?
            <==> GetVertex(f, id).Some? && GetVertex(f, id).value.view < f.lowest <= f.vertices[id].level
  {
    RunIndexed(ops);
    var f := ActAll(ops).forest;
    assert id in f.vertices ==> f.lowest <= f.vertices[id].level;
    hide ActAll, Indexed, Mark, Forks, CommitPath, IdsOf, Cut;
  }

  /** If blocks and certificates agree on views, then after every run of additions and commits, in any order and
      with any forks, committing a block never fails because its level was pruned. */
  lemma CommitNeverTooLow(ops: seq<Op>, w: World, id: Id)
    requires WellFormed(w) && KnownBlocks(ops, w)
    ensures !CommitBlock(Chain(0, ActAll(ops).forest, map[]), id).BadLevel?
  {
    RunConforms(ops, w);
    var f := ActAll(ops).forest;
    assert GetVertex(f, id).Some? ==> f.vertices[id].level == GetVertex(f, id).value.view >= f.lowest;
    hide ActAll, Mark, Forks, CommitPath;
  }

  lemma FourOps(a: Op, b: Op, c: Op, d: Op)
    ensures ActAll([a, b, c, d]) == Act(Act(Act(Act(NEW_BOOK, a), b), c), d)
  {
    hide Act, NEW_BOOK;
    var ops := [a, b, c, d];
    assert ops[..3] == [a, b, c] && [a, b, c][..2] == [a, b] && [a, b][..1] == [a] && [a][..0] == [];
    assert ActAll([a]) == Act(ActAll([]), a);
    assert ActAll([a, b]) == Act(ActAll([a]), b);
    assert ActAll([a, b, c]) == Act(ActAll([a, b]), c);
  }

  const CHILD := Block(1, 9, 2, QC(0, 5, 2, {}, true), true, 1)
  const LATE := Block(2, 3, GENESIS, GENESIS_QC, true, 1)
  const OTHER := Block(3, 4, GENESIS, GENESIS_QC, true, 1)

  lemma LateForest()
    ensures var f := Add(Add(Add(EMPTY, CHILD), LATE), OTHER);
            && f.lowest == 0 && GetVertex(f, 3) == Some(OTHER) && Mark(f, 4).Marked?
            && GetVertex(Cut(f, 4), 2) == Some(LATE)
  {
    var f := Add(Add(Add(EMPTY, CHILD), LATE), OTHER);
    assert At(f, 4) == [3] && GetVertex(f, GENESIS).None?;
    assert 2 in f.vertices && f.vertices[2].level == 5;
  }

  /** Agreement on views is needed: a block that was first named, as a parent, with a higher view than its own stays
      filed at that level; it outlives a pruning of its own view and can then not be committed. */
  lemma WrongLevelFails() returns (ops: seq<Op>, id: Id)
    ensures CommitBlock(Chain(0, ActAll(ops).forest, map[]), id).BadLevel?
  {
    LateForest();
    hide Add, Mark, Cut, Forks, CommitPath, IdsOf;
    ops := [AddOp(CHILD), AddOp(LATE), AddOp(OTHER), CommitOp(3)];
    id := 2;
    FourOps(ops[0], ops[1], ops[2], ops[3]);
    var f := Add(Add(Add(EMPTY, CHILD), LATE), OTHER);
    hide ActAll;
    assert ActAll(ops).forest == Cut(f, 4);
    assert Cut(f, 4).lowest == 4 by { CutLowest(f, 4); }
  }

  lemma CutLowest(f: Forest, l: nat)
    ensures Cut(f, l).lowest == l
  {
  }
}
