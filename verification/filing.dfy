/** A forest that was filed by wrong views in certificates, in which a commit never returns. */
module Filing {
  import opened Types
  import opened Tally
  import opened Quorums
  import opened Forests
  import opened Worlds
  import opened BlockChains
  import opened Safety
  import opened Outputs

  // ---------------------------------------------------------------- a view below the parent's

  const GENESIS_CERT := QC(4, 0, GENESIS, {}, false)
  const Q5 := Block(5, 5, GENESIS, GENESIS_CERT, true, 4)
  const P7 := Block(7, 7, GENESIS, GENESIS_CERT, true, 4)
  const Y8 := Block(8, 8, 5, QC(4, 5, 5, {}, false), true, 4)
  const X9 := Block(9, 9, 7, QC(4, 7, 7, {}, false), true, 4)
  const C10 := Block(10, 10, 9, QC(4, 5, 9, {}, false), true, 4)
  const D11 := Block(11, 11, 8, QC(4, 7, 8, {}, false), true, 4)

  const LOOP: World := map[5 := Q5, 7 := P7, 8 := Y8, 9 := X9, 10 := C10, 11 := D11]

  /** Children before parents, and two of them name their parents with too low a view. */
  ghost function LowFiled(): Forest {
    Add(Add(Add(Add(EMPTY, C10), D11), X9), Y8)
  }

  /** Two children come before their parents and have them filed too low. */
  lemma FiledLow()
    ensures var f := Add(Add(EMPTY, C10), D11);
            && f.lowest == 0 && f.vertices.Keys == {8, 9, 10, 11} && At(f, 5) == [9] && At(f, 7) == [8]
            && GetVertex(f, 9).None? && GetVertex(f, 8).None?
            && f.vertices[9].level == 5 && f.vertices[8].level == 7
  {
    var f := Add(EMPTY, C10);
    assert At(f, 5) == [9] && At(f, 7) == [] && f.vertices.Keys == {9, 10} && f.vertices[9].level == 5;
  }

  /** Levels 5 and 7 start with containers of higher blocks. */
  ghost predicate Heads(f: Forest) {
    At(f, 5) != [] && At(f, 5)[0] == 9 && At(f, 7) != [] && At(f, 7)[0] == 8
  }

  lemma HeadsKept(f: Forest, b: Block)
    requires Heads(f)
    ensures Heads(Add(f, b)) && Add(f, b).lowest == f.lowest
  {
  }

  lemma FiledBelow()
    ensures var f := LowFiled();
            && f.lowest == 0 && Heads(f) && GetVertex(f, 9) == Some(X9) && GetVertex(f, 8) == Some(Y8)
            && GetVertex(f, 7).None? && GetVertex(f, 5).None?
  {
    FiledLow();
    var f := Add(Add(EMPTY, C10), D11);
    HeadsKept(f, X9);
    HeadsKept(Add(f, X9), Y8);
    AddVertexMap(f, X9, 9);
    AddVertexMap(f, X9, 8);
    AddVertexMap(f, X9, 7);
    AddVertexMap(f, X9, 5);
    var g := Add(f, X9);
    hide Add, Heads;
    AddVertexMap(g, Y8, 9);
    AddVertexMap(g, Y8, 8);
    AddVertexMap(g, Y8, 7);
    AddVertexMap(g, Y8, 5);
  }

  lemma LoopTable()
    ensures LOOP.Keys == {5, 7, 8, 9, 10, 11} && GENESIS !in LOOP
    ensures LOOP[5] == Q5 && LOOP[7] == P7 && LOOP[8] == Y8 && LOOP[9] == X9 && LOOP[10] == C10 && LOOP[11] == D11
  {
  }

  lemma LoopIsOrdered()
    ensures Ordered(LOOP) && forall id :: id in LOOP ==> LOOP[id].prevId == LOOP[id].qc.blockId
  {
    LoopTable();
    hide LOOP;
    assert forall id :: id in LOOP ==> id in {5, 7, 8, 9, 10, 11};
  }

  lemma LoopHeld()
    ensures var f := Add(Add(LowFiled(), P7), Q5);
            && f.lowest == 0 && Heads(f) && GetVertex(f, 9) == Some(X9) && GetVertex(f, 8) == Some(Y8)
            && GetVertex(f, 7) == Some(P7) && GetVertex(f, 5) == Some(Q5)
  {
    FiledBelow();
    var f := LowFiled();
    hide LowFiled, Add, Heads;
    HeadsKept(f, P7);
    HeadsKept(Add(f, P7), Q5);
    forall id ensures GetVertex(Add(f, P7), id) == if id == 7 then Some(P7) else GetVertex(f, id) {
      AddVertexMap(f, P7, id);
    }
    forall id ensures GetVertex(Add(Add(f, P7), Q5), id) == if id == 5 then Some(Q5) else GetVertex(Add(f, P7), id) {
      AddVertexMap(Add(f, P7), Q5, id);
    }
  }

  /** A commit need not return. All blocks are above their parents and carry certificates for them, but two of these
      carry views below the parents'; with these blocks, in this order, the walk down from the committed block climbs
      and goes round for ever. */
  lemma LowLabelHangs(n: nat, votes: Votes)
    ensures Ordered(LOOP) && forall id :: id in LOOP ==> LOOP[id].prevId == LOOP[id].qc.blockId
    ensures Mark(Add(Add(LowFiled(), P7), Q5), 7).Endless?
    ensures CommitBlock(Chain(n, Add(Add(LowFiled(), P7), Q5), votes), 7).CommitPanic?
  {
    LoopIsOrdered();
    LoopHeld();
    var f := Add(Add(LowFiled(), P7), Q5);
    hide LowFiled, Add, LOOP, Ordered;
    var all := f.vertices.Keys;
    assert MarkFrom(f, 7, all - {8} - {9}).Endless?;
    assert MarkFrom(f, 5, all - {8}).Endless?;
    assert MarkFrom(f, 7, all).Endless?;
  }
}
