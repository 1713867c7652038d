/** What concrete runs of four replicas amount to. Replica 4 is faulty. */
module Witnesses {
  import opened Types
  import opened Tally
  import opened Worlds
  import opened Safety
  import opened Outputs
  import opened HotStuffs
  import opened HotStuffInvariant
  import opened HotStuffRuns

  function Cert(view: View, id: Id): QC {
    QC(4, view, id, {2, 3, 4}, true)
  }

  /** A certificate that does not pass the check. */
  function Bad(view: View, id: Id): QC {
    QC(4, view, id, {}, false)
  }

  function Made(id: Id, view: View, qc: QC): Block {
    Block(id, view, qc.blockId, qc, true, 4)
  }

  ghost predicate IsFour(c: Setup) {
    c.n == 4 && c.faulty == {4}
  }

  lemma FourIsProper()
    ensures {4} <= Nodes(4) && |{4}| == 1
  {
  }

  // ---------------------------------------------------------------- votes

  /** The votes of the three replicas that are not faulty. */
  ghost predicate Voted(g: Network, v1: seq<Ballot>, v2: seq<Ballot>, v3: seq<Ballot>) {
    g.Keys == {1, 2, 3} && g[1].journal == v1 && g[2].journal == v2 && g[3].journal == v3
  }

  /** Replicas 2 and 3 voted for the block. */
  ghost predicate BothVoted(g: Network, id: Id) {
    2 in g && 3 in g && VotedFor(g[2].journal, id) && VotedFor(g[3].journal, id)
  }

  /** Together with the faulty one they certify it. */
  lemma BothCertify(c: Setup, g: Network, id: Id)
    requires IsFour(c) && BothVoted(g, id)
    ensures IsQuorum(Elect(c, g), {2, 3, 4}, id) && Certified(Elect(c, g), id)
  {
    var e := Elect(c, g);
    forall x | x in {2, 3, 4} ensures Signed(e, x, id) && x in Nodes(4) {
      assert x != 4 ==> e.logs[x] == g[x].journal;
    }
    assert |{2, 3, 4}| == 3;
    hide Signed;
  }

  lemma OrderedVotes(g: Network, v1: seq<Ballot>, v2: seq<Ballot>, v3: seq<Ballot>)
    requires Voted(g, v1, v2, v3) && InOrder(v1) && InOrder(v2) && InOrder(v3)
    ensures VotesInOrder(g)
  {
    hide InOrder;
  }

  ghost predicate CoveredBlock(w: World, id: Id, v2: seq<Ballot>, v3: seq<Ballot>) {
    id in w && (w[id].prevId == GENESIS || (VotedFor(v2, w[id].prevId) && VotedFor(v3, w[id].prevId)))
  }

  /** Every parent was voted for by replicas 2 and 3. */
  ghost predicate Covered(w: World, votes: seq<Ballot>, v2: seq<Ballot>, v3: seq<Ballot>) {
    forall i :: 0 <= i < |votes| ==> CoveredBlock(w, votes[i].id, v2, v3)
  }

  lemma VotesCovered(c: Setup, g: Network, v1: seq<Ballot>, v2: seq<Ballot>, v3: seq<Ballot>)
    requires IsFour(c) && Voted(g, v1, v2, v3)
    requires Covered(c.w, v1, v2, v3) && Covered(c.w, v2, v2, v3) && Covered(c.w, v3, v2, v3)
    ensures VotesJustified(c, g)
  {
    var e := Elect(c, g);
    forall r, i | r in e.logs && 0 <= i < |e.logs[r]| ensures JustifiedBallot(e, 0, e.logs[r][i]) {
      var p := c.w[e.logs[r][i].id].prevId;
      if p != GENESIS {
        BothCertify(c, g, p);
      }
    }
  }

  lemma VotedThere(votes: seq<Ballot>)
    ensures forall i :: 0 <= i < |votes| ==> VotedFor(votes, votes[i].id)
  {
  }

  lemma VotedAt(votes: seq<Ballot>, n: nat, i: nat)
    requires i < n <= |votes|
    ensures VotedFor(votes[..n], votes[i].id)
  {
    assert votes[..n][i] == votes[i];
  }

  lemma VotedLonger(votes: seq<Ballot>, more: seq<Ballot>, id: Id)
    requires votes <= more && VotedFor(votes, id)
    ensures VotedFor(more, id)
  {
    var i :| 0 <= i < |votes| && votes[i].id == id;
    assert more[i] == votes[i];
  }

  // ---------------------------------------------------------------- commits

  ghost predicate CommittedAt(g: Network, r: Node, b: Block) { r in g && b in g[r].committed }

  /** Two blocks that are not on one chain were committed. */
  ghost predicate Split(c: Setup, g: Network)
    requires Ordered(c.w)
  {
    exists r, i, q, j :: r in g && q in g && 0 <= i < |g[r].committed| && 0 <= j < |g[q].committed|
                         && !OnOneChain(c.w, g[r].committed[i].id, g[q].committed[j].id)
  }

  lemma SplitBy(c: Setup, g: Network, r: Node, a: Block, q: Node, b: Block)
    requires Ordered(c.w) && CommittedAt(g, r, a) && CommittedAt(g, q, b)
    requires !OnOneChain(c.w, a.id, b.id)
    ensures Split(c, g)
  {
    hide OnOneChain;
    var i :| 0 <= i < |g[r].committed| && g[r].committed[i] == a;
    var j :| 0 <= j < |g[q].committed| && g[q].committed[j] == b;
  }

  // ---------------------------------------------------------------- chains

  lemma TwoRoots(w: World, a: Id, b: Id)
    requires Ordered(w) && a in w && b in w && a != b && w[a].prevId == GENESIS && w[b].prevId == GENESIS
    ensures !OnOneChain(w, a, b)
  {
  }

  lemma TwoBranches(w: World, root: Id, a: Id, b: Id)
    requires Ordered(w) && root in w && a in w && b in w && a != b && root != a && root != b
    requires w[root].prevId == GENESIS && w[a].prevId == root && w[b].prevId == root
    ensures !OnOneChain(w, a, b)
  {
    assert !Descends(w, root, a) && !Descends(w, root, b);
  }

  // Two blocks in every view.

  const A1 := Made(1, 1, GENESIS_QC)
  const A2 := Made(2, 2, Cert(1, 1))
  const A3 := Made(3, 3, Cert(2, 2))
  const B1 := Made(11, 1, GENESIS_QC)
  const B2 := Made(12, 2, Cert(1, 11))
  const B3 := Made(13, 3, Cert(2, 12))

  const FORKED: World := map[1 := A1, 2 := A2, 3 := A3, 11 := B1, 12 := B2, 13 := B3]

  lemma ForkedTable()
    ensures FORKED.Keys == {1, 2, 3, 11, 12, 13} && GENESIS !in FORKED
    ensures FORKED[1] == A1 && FORKED[2] == A2 && FORKED[3] == A3
    ensures FORKED[11] == B1 && FORKED[12] == B2 && FORKED[13] == B3
  {
  }

  lemma ForkedIsOrdered()
    ensures Ordered(FORKED) && !OnOneChain(FORKED, 1, 11)
  {
    ForkedTable();
    hide FORKED;
    assert forall id :: id in FORKED ==> id in {1, 2, 3, 11, 12, 13};
    TwoRoots(FORKED, 1, 11);
  }
}
