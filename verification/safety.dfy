/** The voting argument shared by the chained protocols: what votes in order, by replicas that respect their
    locks, can certify. */
module Safety {
  import opened Types
  import opened Tally
  import opened Worlds

  /** A vote as its sender recorded it: `pref` is the sender's lock when the vote was cast. */
  datatype Ballot = Ballot(view: View, id: Id, pref: View)

  /** The blocks, the replicas, and the votes that the replicas which are not faulty have cast so far. */
  datatype Electorate = Electorate(w: World, n: nat, faulty: set<Node>, logs: map<Node, seq<Ballot>>)

  /** A block is strictly above its parent, and only the first blocks have no parent in the world. */
  ghost predicate Ordered(w: World) {
    && GENESIS !in w
    && forall id :: id in w ==>
         && w[id].id == id && w[id].view >= 1
         && (w[id].prevId == GENESIS || (w[id].prevId in w && w[w[id].prevId].view < w[id].view))
  }

  ghost predicate Fair(e: Electorate) {
    && e.faulty <= Nodes(e.n) && 3 * |e.faulty| < e.n
    && e.logs.Keys == Nodes(e.n) - e.faulty
    && Ordered(e.w)
  }

  ghost predicate VotedFor(log: seq<Ballot>, id: Id) {
    exists i :: 0 <= i < |log| && log[i].id == id
  }

  /** A faulty replica may sign anything; any other one signs the blocks it voted for. */
  ghost predicate Signed(e: Electorate, node: Node, id: Id) {
    node in e.faulty || (node in e.logs && VotedFor(e.logs[node], id))
  }

  ghost predicate IsQuorum(e: Electorate, s: set<Node>, id: Id) {
    s <= Nodes(e.n) && |s| > e.n * 2 / 3 && forall x :: x in s ==> Signed(e, x, id)
  }

  ghost predicate Certified(e: Electorate, id: Id) {
    exists s :: IsQuorum(e, s, id)
  }

  /** Each vote is for a known block; above view 2 the block's parent is known and at least as high as the lock. */
  ghost predicate BallotOk(e: Electorate, b: Ballot) {
    && b.id in e.w && b.view == e.w[b.id].view
    && (b.view > 2 ==> e.w[b.id].prevId in e.w && e.w[e.w[b.id].prevId].view >= b.pref)
  }

  ghost predicate LogOk(e: Electorate, log: seq<Ballot>) {
    && (forall i :: 0 <= i < |log| ==> BallotOk(e, log[i]))
    && (forall i, j :: 0 <= i < j < |log| ==> log[i].pref <= log[j].pref)
  }

  ghost predicate LogsOk(e: Electorate) {
    forall r :: r in e.logs ==> LogOk(e, e.logs[r])
  }

  /** Every replica votes in strictly rising views, except that it may repeat a vote. */
  ghost predicate InOrder(log: seq<Ballot>) {
    forall i, j :: 0 <= i < j < |log| ==> log[i].view < log[j].view || log[i].id == log[j].id
  }

  ghost predicate AllInOrder(e: Electorate) {
    forall r :: r in e.logs ==> InOrder(e.logs[r])
  }

  /** Above the view `floor`, votes went only to blocks whose parent is certified. */
  ghost predicate Justified(e: Electorate, floor: View) {
    forall r, i :: r in e.logs && 0 <= i < |e.logs[r]| ==> JustifiedBallot(e, floor, e.logs[r][i])
  }

  ghost predicate JustifiedBallot(e: Electorate, floor: View, b: Ballot) {
    b.id in e.w && e.w[b.id].view > floor && e.w[b.id].prevId != GENESIS ==> Certified(e, e.w[b.id].prevId)
  }

  // ---------------------------------------------------------------- chains

  /** `b` is on the chain that ends in `a`. */
  ghost predicate Descends(w: World, a: Id, b: Id)
    requires Ordered(w)
    decreases if a in w then w[a].view else 0
  {
    a == b || (a in w && w[a].prevId in w && Descends(w, w[a].prevId, b))
  }

  ghost predicate OnOneChain(w: World, a: Id, b: Id)
    requires Ordered(w)
  {
    Descends(w, a, b) || Descends(w, b, a)
  }

  lemma {:induction false} DescendsTrans(w: World, a: Id, b: Id, c: Id)
    requires Ordered(w) && Descends(w, a, b) && Descends(w, b, c)
    ensures Descends(w, a, c)
    decreases if a in w then w[a].view else 0
  {
    if a != b {
      DescendsTrans(w, w[a].prevId, b, c);
    }
  }

  /** Two blocks below a common one are on one chain. */
  lemma {:induction false} Linear(w: World, a: Id, b: Id, c: Id)
    requires Ordered(w) && Descends(w, a, b) && Descends(w, a, c)
    ensures OnOneChain(w, b, c)
    decreases if a in w then w[a].view else 0
  {
    if a != b && a != c {
      Linear(w, w[a].prevId, b, c);
    }
  }

  /** Blocks below two blocks of one chain are on one chain. */
  lemma CommonChain(w: World, a: Id, b: Id, x: Id, y: Id)
    requires Ordered(w) && OnOneChain(w, a, b) && Descends(w, a, x) && Descends(w, b, y)
    ensures OnOneChain(w, x, y)
  {
    if Descends(w, a, b) {
      DescendsTrans(w, a, b, y);
      Linear(w, a, x, y);
    } else {
      DescendsTrans(w, b, a, x);
      Linear(w, b, x, y);
    }
  }

  // ---------------------------------------------------------------- certificates

  lemma VotedBoth(e: Electorate, a: Id, b: Id) returns (r: Node, i: nat, j: nat)
    requires Fair(e) && Certified(e, a) && Certified(e, b)
    ensures r in e.logs && i < |e.logs[r]| && j < |e.logs[r]|
    ensures e.logs[r][i].id == a && e.logs[r][j].id == b
  {
    var s :| IsQuorum(e, s, a);
    var t :| IsQuorum(e, t, b);
    r := HonestWitness(e.n, e.faulty, s, t);
    assert Signed(e, r, a) && Signed(e, r, b);
    i :| 0 <= i < |e.logs[r]| && e.logs[r][i].id == a;
    j :| 0 <= j < |e.logs[r]| && e.logs[r][j].id == b;
  }

  lemma CertifiedKnown(e: Electorate, a: Id)
    requires Fair(e) && LogsOk(e) && Certified(e, a)
    ensures a in e.w
  {
    hide Certified, Fair;
    var r, i, j := VotedBoth(e, a, a);
    assert LogOk(e, e.logs[r]) && BallotOk(e, e.logs[r][i]);
  }

  /** At most one block of a view is ever certified. */
  lemma CertifiedUnique(e: Electorate, a: Id, b: Id)
    requires Fair(e) && LogsOk(e) && AllInOrder(e)
    requires Certified(e, a) && Certified(e, b)
    ensures a in e.w && b in e.w
    ensures e.w[a].view == e.w[b].view ==> a == b
  {
    hide Certified, Fair;
    var r, i, j := VotedBoth(e, a, b);
    assert InOrder(e.logs[r]) && LogOk(e, e.logs[r]);
    assert BallotOk(e, e.logs[r][i]) && BallotOk(e, e.logs[r][j]);
  }

  lemma ParentCertified(e: Electorate, a: Id, floor: View)
    requires Fair(e) && LogsOk(e) && Justified(e, floor) && Certified(e, a)
    ensures a in e.w && (e.w[a].view > floor && e.w[a].prevId != GENESIS ==> Certified(e, e.w[a].prevId))
  {
    CertifiedKnown(e, a);
    hide Certified, Fair, LogsOk;
    var r, i, j := VotedBoth(e, a, a);
    assert JustifiedBallot(e, floor, e.logs[r][i]);
  }

  /** Every vote for `top` was cast under a lock at the view `v` or above (a lock at view 1 says nothing, since every
      parent has a view of at least 1). */
  ghost predicate LockedOn(e: Electorate, top: Id, v: View) {
    forall r, i :: r in e.logs && 0 <= i < |e.logs[r]| && e.logs[r][i].id == top ==> v <= 1 || e.logs[r][i].pref >= v
  }

  /** Some replica voted for `top` and later for `x`, so the parent of `x` passed its lock. */
  lemma ParentAboveLock(e: Electorate, top: Id, x: Id, v: View)
    requires Fair(e) && LogsOk(e) && AllInOrder(e)
    requires Certified(e, top) && Certified(e, x) && LockedOn(e, top, v)
    requires top in e.w && x in e.w && 2 <= e.w[top].view < e.w[x].view
    ensures e.w[x].prevId in e.w && v <= e.w[e.w[x].prevId].view < e.w[x].view
  {
    hide Certified;
    var r, i, j := VotedBoth(e, top, x);
    var log := e.logs[r];
    assert InOrder(log) && LogOk(e, log) && BallotOk(e, log[i]) && BallotOk(e, log[j]);
    assert i < j && log[i].pref <= log[j].pref;
  }

  /** The lock induction: once a block `top` is certified by votes locked on `base`, every certified block that is
      higher than `top` descends from `base`, provided those between `base` and `top` do. */
  lemma {:induction false} LockInduction(e: Electorate, base: Id, top: Id, x: Id)
    requires Fair(e) && LogsOk(e) && AllInOrder(e) && Justified(e, 2)
    requires base in e.w && Certified(e, top) && Certified(e, x)
    requires top in e.w && e.w[top].view >= 2 && LockedOn(e, top, e.w[base].view)
    requires forall y :: y in e.w && Certified(e, y) && e.w[base].view <= e.w[y].view <= e.w[top].view
               ==> Descends(e.w, y, base)
    requires x in e.w && e.w[x].view >= e.w[base].view
    ensures Descends(e.w, x, base)
    decreases e.w[x].view
  {
    if e.w[x].view > e.w[top].view {
      ParentAboveLock(e, top, x, e.w[base].view);
      ParentCertified(e, x, 2);
      hide LogsOk, AllInOrder, LockedOn, Certified, Justified;
      LockInduction(e, base, top, e.w[x].prevId);
    }
  }

  /** `ids` are linked blocks of consecutive views, the last one first. */
  ghost predicate Consecutive(w: World, ids: seq<Id>) {
    && |ids| > 0 && ids[0] in w
    && (forall i :: 0 <= i < |ids| ==> ids[i] in w && w[ids[i]].view == w[ids[0]].view - i)
    && (forall i :: 0 < i < |ids| ==> w[ids[i - 1]].prevId == ids[i])
  }

  lemma {:induction false} ConsecutiveChain(w: World, ids: seq<Id>, k: nat)
    requires Ordered(w) && Consecutive(w, ids) && k < |ids|
    ensures Descends(w, ids[k], ids[|ids| - 1])
    decreases |ids| - k
  {
    if k + 1 < |ids| {
      ConsecutiveChain(w, ids, k + 1);
      assert w[ids[k + 1 - 1]].prevId == ids[k + 1];
    }
  }

  /** If votes went only to blocks with certified parents, a certified block has certified ancestors. */
  lemma {:induction false} CertifiedDown(e: Electorate, ids: seq<Id>, k: nat)
    requires Fair(e) && LogsOk(e) && Justified(e, 0) && Consecutive(e.w, ids) && k < |ids| && Certified(e, ids[0])
    ensures Certified(e, ids[k])
  {
    if k > 0 {
      CertifiedDown(e, ids, k - 1);
      hide Certified, LogsOk, Justified;
      ParentCertified(e, ids[k - 1], 0);
      assert e.w[ids[k - 1]].prevId == ids[k];
    }
  }

  /** A decision: consecutive linked certified blocks, the highest one certified by votes locked on the lowest. */
  ghost predicate Decision(e: Electorate, ids: seq<Id>) {
    && Consecutive(e.w, ids) && |ids| >= 2
    && (forall k :: 0 <= k < |ids| ==> Certified(e, ids[k]))
    && LockedOn(e, ids[0], e.w[ids[|ids| - 1]].view)
  }

  /** After a decision every certified block at or above the decided one extends it. */
  lemma DecisionBinds(e: Electorate, ids: seq<Id>, x: Id)
    requires Fair(e) && LogsOk(e) && AllInOrder(e) && Justified(e, 2) && Decision(e, ids) && Certified(e, x)
    ensures x in e.w
    ensures e.w[x].view >= e.w[ids[|ids| - 1]].view ==> Descends(e.w, x, ids[|ids| - 1])
  {
    hide LogsOk, AllInOrder, LockedOn, Justified, Certified;
    var last := |ids| - 1;
    CertifiedKnown(e, x);
    if e.w[x].view >= e.w[ids[last]].view {
      forall y | y in e.w && Certified(e, y) && e.w[ids[last]].view <= e.w[y].view <= e.w[ids[0]].view
        ensures Descends(e.w, y, ids[last])
      {
        var k := e.w[ids[0]].view - e.w[y].view;
        assert e.w[ids[last]].view == e.w[ids[0]].view - last;
        ConsecutiveChain(e.w, ids, k);
        CertifiedUnique(e, y, ids[k]);
      }
      assert e.w[ids[last]].view == e.w[ids[0]].view - last && e.w[ids[last]].view >= 1;
      LockInduction(e, ids[last], ids[0], x);
    }
  }

  /** Two decided blocks are on one chain. */
  lemma DecisionsAgree(e: Electorate, a: seq<Id>, b: seq<Id>)
    requires Fair(e) && LogsOk(e) && AllInOrder(e) && Justified(e, 2) && Decision(e, a) && Decision(e, b)
    ensures OnOneChain(e.w, a[|a| - 1], b[|b| - 1])
  {
    DecisionBinds(e, a, b[|b| - 1]);
    DecisionBinds(e, b, a[|a| - 1]);
  }

  // ---------------------------------------------------------------- more votes

  /** The same replicas, with more votes. */
  ghost predicate Grows(e: Electorate, d: Electorate) {
    && d.w == e.w && d.n == e.n && d.faulty == e.faulty && d.logs.Keys == e.logs.Keys
    && forall r :: r in e.logs ==> e.logs[r] <= d.logs[r]
  }

  lemma SignedGrows(e: Electorate, d: Electorate, x: Node, id: Id)
    requires Grows(e, d) && Signed(e, x, id)
    ensures Signed(d, x, id)
  {
    if x !in e.faulty {
      var i :| 0 <= i < |e.logs[x]| && e.logs[x][i].id == id;
      assert d.logs[x][i] == e.logs[x][i];
    }
  }

  lemma QuorumGrows(e: Electorate, d: Electorate, s: set<Node>, id: Id)
    requires Grows(e, d) && IsQuorum(e, s, id)
    ensures IsQuorum(d, s, id)
  {
    forall x | x in s ensures Signed(d, x, id) {
      SignedGrows(e, d, x, id);
    }
  }

  lemma CertifiedGrows(e: Electorate, d: Electorate, id: Id)
    requires Grows(e, d) && Certified(e, id)
    ensures Certified(d, id)
  {
    hide Grows, IsQuorum;
    var q :| IsQuorum(e, q, id);
    QuorumGrows(e, d, q, id);
  }

  lemma JustifiedGrows(e: Electorate, d: Electorate, floor: View, b: Ballot)
    requires Grows(e, d) && JustifiedBallot(e, floor, b)
    ensures JustifiedBallot(d, floor, b)
  {
    hide Certified;
    if b.id in e.w && Certified(e, e.w[b.id].prevId) {
      CertifiedGrows(e, d, e.w[b.id].prevId);
    }
  }

  lemma JustifiedAbove(e: Electorate, floor: View)
    requires Justified(e, 0)
    ensures Justified(e, floor)
  {
    forall r, i | r in e.logs && 0 <= i < |e.logs[r]| ensures JustifiedBallot(e, floor, e.logs[r][i]) {
      assert JustifiedBallot(e, 0, e.logs[r][i]);
    }
  }
}
