/** Concrete runs of two-chain HotStuff with four replicas, one of them faulty. For each condition of the agreement
    theorem there is a run that meets the other three and in which blocks of two chains are committed. Replica 4 is
    faulty; it leads every view but 10, which replica 1 leads. */
module TwoChainWitness {
  import opened Types
  import opened Tally
  import opened Quorums
  import opened Forests
  import opened Worlds
  import opened BlockChains
  import opened Pacemakers
  import opened Safety
  import opened Outputs
  import opened HotStuffs
  import opened HotStuffLogs
  import opened HotStuffRuns
  import opened TwoChain
  import opened TwoChainRuns
  import opened Drawings
  import opened Witnesses

  function Leader(v: View): Node { if v == 10 then 1 else 4 }

  ghost function Four(w: World): Setup {
    Setup(w, 4, {4}, Leader)
  }

  // ---------------------------------------------------------------- what a replica looks like on the way

  /** The current view, the lock, the blocks held above level `low`, the votes cast, the decisions, and some of the
      committed blocks. */
  datatype Sketch = Sketch(
    view: View, pref: View, low: nat, held: map<Id, Block>, votes: seq<Ballot>,
    decided: seq<Decided>, out: set<Block>)

  ghost predicate Quiet(s: Replica, me: Node) {
    && s.id == me && 1 <= me <= 3 && !s.halted && s.leaderOf == Leader && s.lastVotedView == 0
    && s.bufferedQCs == map[] && s.bufferedBlocks == map[]
  }

  ghost predicate Reported(ds: seq<Decided>, committed: seq<Block>, decided: seq<Decided>, out: set<Block>) {
    ds == decided && forall b :: b in out ==> b in committed
  }

  ghost predicate Looks(s: Replica, me: Node, k: Sketch) {
    && Quiet(s, me) && Drawn(s.chain.forest, k.held, k.low) && Reported(s.decisions, s.committed, k.decided, k.out)
    && s.pm.curView == k.view && s.preferredView == k.pref && s.journal == k.votes
  }

  lemma HeldParent(f: Forest, held: map<Id, Block>, low: nat, id: Id)
    requires Drawn(f, held, low)
    ensures GetParent(f, id)
         == if id in held && held[id].prevId in held then Some(held[held[id].prevId]) else None
  {
    hide Heads;
  }

  // ---------------------------------------------------------------- one block

  /** `ok` says whether the replica accepts the certificate: it is well signed, or names the replica itself. */
  ghost function Vet(k: Sketch, ok: bool, qc: QC): Sketch {
    if qc.view < k.view || !ok then k
    else k.(view := qc.view + 1, pref := if qc.view < 2 then k.pref else Max(k.pref, qc.view))
  }

  ghost predicate Fresh(k: Sketch, ok: bool, b: Block) {
    && b.hasQC && b.view <= k.view + 1 && b.proposer == Leader(b.view) && b.proposer == 4
    && Joins(k.held, k.low, b) && b.view >= Vet(k, ok, b.qc).view && b.view != 9
    && (b.qc.view < 2 || b.qc.blockId in k.held || !ok || b.qc.view < k.view)
  }

  ghost function Storing(k: Sketch, ok: bool, b: Block): Sketch {
    Vet(k, ok, b.qc).(held := k.held[b.id := b])
  }

  ghost predicate Tried(b: Block) { b.qc.view >= 2 && b.qc.view + 1 == b.view }

  ghost function Pick(held: map<Id, Block>, qc: QC): Option<Block> {
    if qc.blockId in held && held[qc.blockId].prevId in held && held[held[qc.blockId].prevId].view + 1 == qc.view
    then Some(held[held[qc.blockId].prevId]) else None
  }

  ghost function Committing(k: Sketch, b: Block, p: Block): Sketch {
    k.(low := p.view, held := Above(k.held, p.view), decided := k.decided + [Decided(p, b.qc)], out := k.out + {p})
  }

  ghost function Voting(k: Sketch, b: Block): Sketch {
    if b.view <= 2 || (b.prevId in k.held && k.held[b.prevId].view >= k.pref)
    then k.(votes := k.votes + [Ballot(b.view, b.id, k.pref)]) else k
  }

  ghost function AfterBlock(k: Sketch, ok: bool, b: Block): Sketch {
    var l := Storing(k, ok, b);
    if !Tried(b) then Voting(l, b)
    else match Pick(l.held, b.qc) case None => l case Some(p) => Voting(Committing(l, b, p), b)
  }

  ghost predicate Smooth(k: Sketch, ok: bool, b: Block) {
    var l := Storing(k, ok, b);
    && Fresh(k, ok, b)
    && (Tried(b) && Pick(l.held, b.qc).Some? ==> Pick(l.held, b.qc).value.view > k.low)
  }

  lemma VetLooks(s: Replica, me: Node, k: Sketch, ok: bool, b: Block)
    requires Looks(s, me, k) && Fresh(k, ok, b) && ok == (b.qc.valid || b.qc.leader == me)
    ensures Looks(OnQC(UpdateHighQC(s, b.qc), b.qc), me, Vet(k, ok, b.qc))
  {
    assert b.qc.blockId in k.held ==> GetVertex(s.chain.forest, b.qc.blockId).Some?;
    hide Drawn, GetVertex, Joins, Reported;
  }

  lemma StoreLooks(s: Replica, me: Node, k: Sketch, b: Block)
    requires Looks(s, me, k) && Joins(k.held, k.low, b)
    ensures Looks(s.(chain := s.chain.(forest := Add(s.chain.forest, b))), me, k.(held := k.held[b.id := b]))
  {
    AddDrawn(s.chain.forest, k.held, k.low, b);
    hide Drawn, Joins, Add;
  }

  lemma PickLooks(f: Forest, held: map<Id, Block>, low: nat, b: Block)
    requires Drawn(f, held, low)
    ensures CommitRule2(f, b) == Pick(held, b.qc)
    ensures Pick(held, b.qc).Some? ==> var p := Pick(held, b.qc).value; p.id in held && held[p.id] == p
  {
    HeldParent(f, held, low, b.qc.blockId);
    hide Holds, Heads, GetParent;
  }

  lemma ReportedMore(s: Replica, k: Sketch, d: Decided, cs: seq<Block>)
    requires Reported(s.decisions, s.committed, k.decided, k.out) && d.block in cs
    ensures Reported(s.decisions + [d], s.committed + cs, k.decided + [d], k.out + {d.block})
  {
  }

  lemma CommitLooks(s: Replica, me: Node, k: Sketch, b: Block, p: Block)
    requires Looks(s, me, k) && Tried(b) && Pick(k.held, b.qc) == Some(p) && p.view > k.low
    ensures CommitOn(s, b).0 && Looks(CommitOn(s, b).1, me, Committing(k, b, p))
  {
    PickLooks(s.chain.forest, k.held, k.low, b);
    CommitDrawn(s.chain, k.held, k.low, p);
    var r := CommitBlock(s.chain, p.id);
    ReportedMore(s, k, Decided(p, b.qc), r.committed);
    hide Drawn, Pick, CommitBlock, Above, CommitRule2, IdsOf;
  }

  lemma TryLooks(s: Replica, me: Node, k: Sketch, b: Block)
    requires Looks(s, me, k) && (Tried(b) && Pick(k.held, b.qc).Some? ==> Pick(k.held, b.qc).value.view > k.low)
    ensures var (ok, t) := CommitOn(s, b);
            && ok == !(Tried(b) && Pick(k.held, b.qc).None?)
            && Looks(t, me,
                     if Tried(b) && Pick(k.held, b.qc).Some? then Committing(k, b, Pick(k.held, b.qc).value) else k)
  {
    if Tried(b) && Pick(k.held, b.qc).Some? {
      CommitLooks(s, me, k, b, Pick(k.held, b.qc).value);
    } else {
      PickLooks(s.chain.forest, k.held, k.low, b);
    }
    hide Looks, Pick, CommitBlock, Finish, CommitRule2, Drawn;
  }

  /** The sketch after the commit, if there is one. */
  ghost function Tidied(k: Sketch, ok: bool, b: Block): Sketch {
    var l := Storing(k, ok, b);
    if Tried(b) && Pick(l.held, b.qc).Some? then Committing(l, b, Pick(l.held, b.qc).value) else l
  }

  /** Nothing was waiting for the block. */
  lemma NoReplay(s: Replica, me: Node, k: Sketch, id: Id)
    requires Looks(s, me, k)
    ensures Replay2(s, id) == s
  {
    hide Drawn, Reported;
  }

  lemma LooksOf(s: Replica, me: Node, k: Sketch)
    requires Looks(s, me, k)
    ensures s.pm.curView == k.view && s.leaderOf == Leader && s.id == me && 1 <= me <= 3
  {
    hide Drawn, Reported;
  }

  lemma VetHeld(k: Sketch, ok: bool, qc: QC)
    ensures Vet(k, ok, qc).held == k.held && Vet(k, ok, qc).low == k.low
  {
  }

  lemma TakeUpLooks(s: Replica, me: Node, k: Sketch, ok: bool, b: Block)
    requires Looks(s, me, k) && Smooth(k, ok, b) && ok == (b.qc.valid || b.qc.leader == me)
    ensures TakeUp2(s, b).0 == !(Tried(b) && Pick(Storing(k, ok, b).held, b.qc).None?)
    ensures Looks(TakeUp2(s, b).1, me, Tidied(k, ok, b))
  {
    hide Looks, OnQC, UpdateHighQC, Add, CommitOn, Replay2, Pick, Tried, Joins, Vet;
    VetLooks(s, me, k, ok, b);
    VetHeld(k, ok, b.qc);
    var s2 := OnQC(UpdateHighQC(s, b.qc), b.qc);
    StoreLooks(s2, me, Vet(k, ok, b.qc), b);
    var s3 := s2.(chain := s2.chain.(forest := Add(s2.chain.forest, b)));
    TryLooks(s3, me, Storing(k, ok, b), b);
    var s4 := CommitOn(s3, b).1;
    NoReplay(s4, me, Tidied(k, ok, b), b.id);
    LooksOf(s2, me, Vet(k, ok, b.qc));
    LooksOf(s, me, k);
  }

  lemma RuleLooks(s: Replica, me: Node, k: Sketch, b: Block)
    requires Looks(s, me, k) && (b.id in k.held ==> k.held[b.id] == b) && (b.view <= 2 || b.id in k.held)
    ensures VotingRule(s, b) <==> b.view <= 2 || (b.prevId in k.held && k.held[b.prevId].view >= k.pref)
  {
    HeldParent(s.chain.forest, k.held, k.low, b.id);
    hide Drawn, GetParent, Reported;
  }

  lemma VoteLooks(s: Replica, me: Node, k: Sketch, b: Block)
    requires Looks(s, me, k) && (b.id in k.held ==> k.held[b.id] == b) && (b.view <= 2 || b.id in k.held) && b.view != 9
    ensures Looks(if VotingRule(s, b) then CastVote2(s, b) else s, me, Voting(k, b))
  {
    RuleLooks(s, me, k, b);
    hide Drawn, VotingRule, OnVote2, Reported;
  }

  lemma StillHeld(k: Sketch, ok: bool, b: Block)
    requires Smooth(k, ok, b)
    ensures var l := Tidied(k, ok, b); b.id in l.held ==> l.held[b.id] == b
    ensures b.view > 2 ==> b.id in Tidied(k, ok, b).held
  {
    hide Vet, Joins;
  }

  lemma BlockLooks(s: Replica, me: Node, k: Sketch, ok: bool, b: Block)
    requires Looks(s, me, k) && Smooth(k, ok, b) && ok == (b.qc.valid || b.qc.leader == me)
    ensures Filed(s.bufferedBlocks) && Looks(OnBlock2(s, b), me, AfterBlock(k, ok, b))
  {
    TakeUpLooks(s, me, k, ok, b);
    StillHeld(k, ok, b);
    var s1 := TakeUp2(s, b).1;
    VoteLooks(s1, me, Tidied(k, ok, b), b);
    assert OnOne2(s, b).1.bufferedBlocks == map[] by { hide TakeUp2, VotingRule, CastVote2, Drawn, Reported, Voting; }
    hide TakeUp2, VotingRule, CastVote2, Drawn, Reported, Pick, Smooth, Vet, Voting, Committing, Tried;
  }

  /** The timer of a replica runs out: two views pass, and its own message is already too old to count. */
  lemma TimeoutLooks(s: Replica, me: Node, k: Sketch)
    requires Looks(s, me, k)
    ensures Looks(OnLocalTmo2(s, k.view), me, k.(view := k.view + 2))
  {
    hide Drawn, Reported;
  }

  // ---------------------------------------------------------------- steps of the network

  lemma RunSnoc(c: Setup, evs: seq<Event2>, ev: Event2)
    ensures Run2(c, evs + [ev]) == Step2(c, Run2(c, evs), ev)
  {
    assert (evs + [ev])[..|evs|] == evs;
  }

  lemma LooksAlive(s: Replica, me: Node, k: Sketch)
    requires Looks(s, me, k)
    ensures !s.halted && Filed(s.bufferedBlocks) && s.pm.curView == k.view && s.journal == k.votes
  {
    hide Drawn, Reported;
  }

  /** Nothing but the replica `r` changed. */
  ghost predicate Beside(g: Network, h: Network, r: Node) {
    g.Keys == h.Keys && forall q :: q in g && q != r ==> h[q] == g[q]
  }

  /** One replica is handed a block. */
  lemma HandOne(c: Setup, evs: seq<Event2>, r: Node, k: Sketch, ok: bool, b: Block) returns (more: seq<Event2>)
    requires r in Run2(c, evs) && Looks(Run2(c, evs)[r], r, k) && Smooth(k, ok, b) && Fitting(c.w, b)
    requires ok == (b.qc.valid || b.qc.leader == r)
    ensures var g, h := Run2(c, evs), Run2(c, more);
            && Beside(g, h, r) && r in h && Looks(h[r], r, AfterBlock(k, ok, b))
  {
    hide Run2, OnBlock2, Looks, Smooth, AfterBlock, Filed, Fitting;
    var ev := Net(BlockTo(r, b));
    more := evs + [ev];
    RunSnoc(c, evs, ev);
    LooksAlive(Run2(c, evs)[r], r, k);
    BlockLooks(Run2(c, evs)[r], r, k, ok, b);
  }

  lemma WaitOne(c: Setup, evs: seq<Event2>, r: Node, k: Sketch) returns (more: seq<Event2>)
    requires r in Run2(c, evs) && Looks(Run2(c, evs)[r], r, k)
    ensures var g, h := Run2(c, evs), Run2(c, more);
            && Beside(g, h, r) && r in h && Looks(h[r], r, k.(view := k.view + 2))
  {
    hide Run2, Looks, OnLocalTmo2, Filed;
    var ev := Net(TimeoutAt(r));
    more := evs + [ev];
    RunSnoc(c, evs, ev);
    LooksAlive(Run2(c, evs)[r], r, k);
    TimeoutLooks(Run2(c, evs)[r], r, k);
  }

  /** The three replicas look like this. */
  ghost predicate Are(g: Network, x: Sketch, y: Sketch, z: Sketch) {
    g.Keys == {1, 2, 3} && Looks(g[1], 1, x) && Looks(g[2], 2, y) && Looks(g[3], 3, z)
  }

  ghost function Put(r: Node, x: Sketch, y: Sketch, z: Sketch, n: Sketch): (Sketch, Sketch, Sketch) {
    if r == 1 then (n, y, z) else if r == 2 then (x, n, z) else (x, y, n)
  }

  ghost function Of(r: Node, x: Sketch, y: Sketch, z: Sketch): Sketch {
    if r == 1 then x else if r == 2 then y else z
  }

  /** A block takes the replica `r` from one sketch to the next. */
  ghost predicate Next(w: World, r: Node, k: Sketch, b: Block, l: Sketch) {
    var ok := b.qc.valid || b.qc.leader == r;
    Smooth(k, ok, b) && Fitting(w, b) && AfterBlock(k, ok, b) == l
  }

  lemma Hand(c: Setup, evs: seq<Event2>, r: Node, x: Sketch, y: Sketch, z: Sketch, b: Block, l: Sketch)
    returns (more: seq<Event2>)
    requires 1 <= r <= 3 && Are(Run2(c, evs), x, y, z) && Next(c.w, r, Of(r, x, y, z), b, l)
    ensures var (x', y', z') := Put(r, x, y, z, l); Are(Run2(c, more), x', y', z')
  {
    hide Run2, Looks, Smooth, AfterBlock, Fitting;
    more := HandOne(c, evs, r, Of(r, x, y, z), b.qc.valid || b.qc.leader == r, b);
  }

  lemma Wait(c: Setup, evs: seq<Event2>, r: Node, x: Sketch, y: Sketch, z: Sketch) returns (more: seq<Event2>)
    requires 1 <= r <= 3 && Are(Run2(c, evs), x, y, z)
    ensures var k := Of(r, x, y, z);
            var (x', y', z') := Put(r, x, y, z, k.(view := k.view + 2)); Are(Run2(c, more), x', y', z')
  {
    hide Run2, Looks;
    more := WaitOne(c, evs, r, Of(r, x, y, z));
  }

  /** Everyone is handed a block. */
  lemma HandAll(c: Setup, evs: seq<Event2>, k: Sketch, b: Block, l: Sketch) returns (more: seq<Event2>)
    requires Are(Run2(c, evs), k, k, k) && Next(c.w, 1, k, b, l) && Next(c.w, 2, k, b, l) && Next(c.w, 3, k, b, l)
    ensures Are(Run2(c, more), l, l, l)
  {
    hide Run2, Are, Next;
    more := Hand(c, evs, 1, k, k, k, b, l);
    more := Hand(c, more, 2, l, k, k, b, l);
    more := Hand(c, more, 3, l, l, k, b, l);
  }

  /** Replicas 2 and 3 are handed a block. */
  lemma HandPair(c: Setup, evs: seq<Event2>, x: Sketch, k: Sketch, b: Block, l: Sketch) returns (more: seq<Event2>)
    requires Are(Run2(c, evs), x, k, k) && Next(c.w, 2, k, b, l) && Next(c.w, 3, k, b, l)
    ensures Are(Run2(c, more), x, l, l)
  {
    hide Run2, Are, Next;
    more := Hand(c, evs, 2, x, k, k, b, l);
    more := Hand(c, more, 3, x, l, k, b, l);
  }

  lemma WaitPair(c: Setup, evs: seq<Event2>, x: Sketch, k: Sketch) returns (more: seq<Event2>)
    requires Are(Run2(c, evs), x, k, k)
    ensures var l := k.(view := k.view + 2); Are(Run2(c, more), x, l, l)
  {
    hide Run2, Are;
    more := Wait(c, evs, 2, x, k, k);
    more := Wait(c, more, 3, x, k.(view := k.view + 2), k);
  }

  const START := Sketch(0, 0, 0, map[], [], [], {})

  lemma FreshLooks(r: Node)
    requires 1 <= r <= 3
    ensures Looks(HotStuffs.Fresh(r, 4, Leader), r, START)
  {
    EmptyDrawn();
    hide Drawn;
  }

  lemma StartLooks(w: World)
    ensures Are(Run2(Four(w), []), START, START, START)
  {
    var g := Run2(Four(w), []);
    assert Nodes(4) - {4} == {1, 2, 3};
    FreshLooks(1);
    FreshLooks(2);
    FreshLooks(3);
    hide Looks;
    assert g[1] == HotStuffs.Fresh(1, 4, Leader) && g[2] == HotStuffs.Fresh(2, 4, Leader);
    assert g[3] == HotStuffs.Fresh(3, 4, Leader);
  }

  // ---------------------------------------------------------------- what a run amounts to

  ghost predicate AllLocked(w: World, votes: seq<Ballot>) {
    forall i :: 0 <= i < |votes| ==> Locked2(w, votes[i])
  }

  /** Replicas 2 and 3 voted for the blocks that the decisions are based on, and the certificates carry their views. */
  ghost predicate Based(w: World, u: seq<Ballot>, v: seq<Ballot>, decided: seq<Decided>) {
    forall i :: 0 <= i < |decided| ==>
      var qc := decided[i].qc;
      VotedFor(u, qc.blockId) && VotedFor(v, qc.blockId) && qc.blockId in w && qc.view == w[qc.blockId].view
  }

  lemma AreVoted(g: Network, x: Sketch, y: Sketch, z: Sketch)
    requires Are(g, x, y, z)
    ensures Voted(g, x.votes, y.votes, z.votes)
    ensures forall b :: b in x.out ==> CommittedAt(g, 1, b)
    ensures forall b :: b in y.out ==> CommittedAt(g, 2, b)
  {
    hide Drawn, Quiet;
  }

  lemma LockedVotes(c: Setup, g: Network, v1: seq<Ballot>, v2: seq<Ballot>, v3: seq<Ballot>)
    requires Voted(g, v1, v2, v3) && AllLocked(c.w, v1) && AllLocked(c.w, v2) && AllLocked(c.w, v3)
    ensures VotesLocked2(c, g)
  {
    hide Locked2;
  }

  lemma AreCertified(c: Setup, g: Network, x: Sketch, y: Sketch, z: Sketch)
    requires IsFour(c) && Are(g, x, y, z)
    requires Based(c.w, y.votes, z.votes, x.decided) && Based(c.w, y.votes, z.votes, y.decided)
    requires Based(c.w, y.votes, z.votes, z.decided)
    ensures CommitsCertified(c, g)
  {
    hide Drawn, Quiet, VotedFor, Certified, Elect, IsQuorum;
    forall r, k | r in g && 0 <= k < |g[r].decisions| ensures ForCertified(Elect(c, g), g[r].decisions[k].qc) {
      var decided := Of(r, x, y, z).decided;
      assert g[r].decisions[k] == decided[k];
      BothCertify(c, g, decided[k].qc.blockId);
      assert Elect(c, g).w == c.w by { WorldOf(c, g); }
    }
  }

  lemma WorldOf(c: Setup, g: Network)
    ensures Elect(c, g).w == c.w
  {
  }

  /** A run that splits the chain is not disciplined. */
  lemma SplitUndisciplined(c: Setup, evs: seq<Event2>)
    requires Proper(c) && Split(c, Run2(c, evs))
    ensures !Disciplined2(c, Run2(c, evs))
  {
    hide Run2, Disciplined2, OnOneChain;
    var g := Run2(c, evs);
    var r, i, q, j :| r in g && q in g && 0 <= i < |g[r].committed| && 0 <= j < |g[q].committed|
                      && !OnOneChain(c.w, g[r].committed[i].id, g[q].committed[j].id);
    if Disciplined2(c, g) {
      Agreement2(c, evs, r, i, q, j);
    }
  }

  // ---------------------------------------------------------------- one world for most runs

  const R1 := Made(1, 1, GENESIS_QC)
  const P2 := Made(2, 2, Cert(1, 1))
  const P3 := Made(3, 3, Cert(2, 2))
  const P4 := Made(4, 4, Cert(3, 3))
  const X5 := Made(5, 5, Cert(1, 1))
  const X6 := Made(6, 6, Cert(5, 5))
  const X7 := Made(7, 7, Cert(6, 6))
  const Y3 := Made(13, 3, Cert(1, 1))
  const Y4 := Made(14, 4, Bad(3, 13))
  const Y5 := Made(15, 5, Bad(4, 14))
  const Y6 := Made(16, 6, Bad(1, 15))
  const Z6 := Made(26, 6, Bad(5, 5))
  const Z6B := Made(27, 6, Bad(5, 5))
  const L8 := Made(8, 8, Cert(1, 1))
  const L10 := Made(9, 10, Cert(8, 8))
  const L11 := Made(10, 11, Bad(50, 9))

  const TREE: World :=
    map[1 := R1, 2 := P2, 3 := P3, 4 := P4, 5 := X5, 6 := X6, 7 := X7,
        8 := L8, 9 := L10, 10 := L11, 13 := Y3, 14 := Y4, 15 := Y5, 16 := Y6, 26 := Z6, 27 := Z6B]

  lemma FirstTable()
    ensures 1 in TREE && TREE[1].view == 1 && TREE[1].prevId == GENESIS && GENESIS !in TREE
    ensures 2 in TREE && TREE[2].view == 2 && TREE[2].prevId == 1
    ensures 3 in TREE && TREE[3].view == 3 && TREE[3].prevId == 2
    ensures 4 in TREE && TREE[4].view == 4 && TREE[4].prevId == 3
    ensures 5 in TREE && TREE[5].view == 5 && TREE[5].prevId == 1
    ensures 6 in TREE && TREE[6].view == 6 && TREE[6].prevId == 5
    ensures 7 in TREE && TREE[7].view == 7 && TREE[7].prevId == 6
  {
  }

  lemma SecondTable()
    ensures 8 in TREE && TREE[8].view == 8 && TREE[8].prevId == 1
    ensures 9 in TREE && TREE[9].view == 10 && TREE[9].prevId == 8
    ensures 10 in TREE && TREE[10].view == 11 && TREE[10].prevId == 9
    ensures 13 in TREE && TREE[13].view == 3 && TREE[13].prevId == 1
    ensures 14 in TREE && TREE[14].view == 4 && TREE[14].prevId == 13
    ensures 15 in TREE && TREE[15].view == 5 && TREE[15].prevId == 14
    ensures 16 in TREE && TREE[16].view == 6 && TREE[16].prevId == 15
    ensures 26 in TREE && TREE[26].view == 6 && TREE[26].prevId == 5
    ensures 27 in TREE && TREE[27].view == 6 && TREE[27].prevId == 5
    ensures forall id :: id in TREE ==>
              TREE[id].id == id && id in {1, 2, 3, 4, 5, 6, 7, 8, 9, 10, 13, 14, 15, 16, 26, 27}
  {
  }

  lemma TreeIsProper()
    ensures Proper(Four(TREE)) && !OnOneChain(TREE, 2, 5) && !OnOneChain(TREE, 13, 2)
  {
    FourIsProper();
    FirstTable();
    SecondTable();
    hide TREE;
    TwoBranches(TREE, 1, 2, 5);
    TwoBranches(TREE, 1, 13, 2);
  }

  // ---------------------------------------------------------------- a disciplined run

  const TRUNK: seq<Ballot> := [Ballot(1, 1, 0), Ballot(2, 2, 0), Ballot(3, 3, 2), Ballot(4, 4, 3)]

  const D1 := [Decided(R1, Cert(2, 2))]
  const D2 := D1 + [Decided(P2, Cert(3, 3))]

  const T1 := Sketch(1, 0, 0, map[1 := R1], TRUNK[..1], [], {})
  const T2 := Sketch(2, 0, 0, map[1 := R1, 2 := P2], TRUNK[..2], [], {})
  const T3 := Sketch(3, 2, 1, map[1 := R1, 2 := P2, 3 := P3], TRUNK[..3], D1, {R1})
  const T4 := Sketch(4, 3, 2, map[2 := P2, 3 := P3, 4 := P4], TRUNK, D2, {R1, P2})

  lemma TrunkStart(r: Node)
    requires 1 <= r <= 3
    ensures Next(TREE, r, START, R1, T1) && Next(TREE, r, T1, P2, T2)
  {
    FirstTable();
    hide TREE;
  }

  lemma TrunkThird(r: Node)
    requires 1 <= r <= 3
    ensures Next(TREE, r, T2, P3, T3)
  {
    FirstTable();
    hide TREE;
    assert Above(map[1 := R1, 2 := P2, 3 := P3], 1) == map[1 := R1, 2 := P2, 3 := P3];
  }

  lemma TrunkFourth(r: Node)
    requires 1 <= r <= 3
    ensures Next(TREE, r, T3, P4, T4)
  {
    FirstTable();
    hide TREE;
    assert Above(map[1 := R1, 2 := P2, 3 := P3, 4 := P4], 2) == map[2 := P2, 3 := P3, 4 := P4];
  }

  lemma TrunkOrder()
    ensures InOrder(TRUNK)
  {
  }

  lemma TrunkLocked()
    ensures AllLocked(TREE, TRUNK)
  {
    FirstTable();
    hide TREE;
  }

  lemma TrunkVoted()
    ensures VotedFor(TRUNK, 1) && VotedFor(TRUNK, 2) && VotedFor(TRUNK, 3)
  {
    assert TRUNK[0].id == 1 && TRUNK[1].id == 2 && TRUNK[2].id == 3;
  }

  lemma TrunkCovered()
    ensures Covered(TREE, TRUNK, TRUNK, TRUNK)
  {
    FirstTable();
    TrunkVoted();
    hide TREE, VotedFor;
  }

  lemma TrunkRun(c: Setup) returns (evs: seq<Event2>)
    requires c == Four(TREE)
    ensures Are(Run2(c, evs), T2, T2, T2)
  {
    StartLooks(TREE);
    TrunkStart(1);
    TrunkStart(2);
    TrunkStart(3);
    hide TREE, Run2, Are, Next;
    evs := HandAll(c, [], START, R1, T1);
    evs := HandAll(c, evs, T1, P2, T2);
  }

  lemma StraightRun(c: Setup) returns (evs: seq<Event2>)
    requires c == Four(TREE)
    ensures Are(Run2(c, evs), T4, T4, T4)
  {
    TrunkThird(1);
    TrunkThird(2);
    TrunkThird(3);
    TrunkFourth(1);
    TrunkFourth(2);
    TrunkFourth(3);
    hide TREE, Run2, Are, Next;
    evs := TrunkRun(c);
    evs := HandAll(c, evs, T2, P3, T3);
    evs := HandAll(c, evs, T3, P4, T4);
  }

  /** All conditions can hold in a run that commits. */
  lemma StraightRunCommits() returns (c: Setup, evs: seq<Event2>)
    ensures Proper(c) && Disciplined2(c, Run2(c, evs)) && CommittedAt(Run2(c, evs), 1, P2)
  {
    c := Four(TREE);
    TreeIsProper();
    TrunkOrder();
    TrunkLocked();
    TrunkVoted();
    TrunkCovered();
    FirstTable();
    hide TREE, Run2, Are, Ordered, InOrder, AllLocked, TRUNK, VotedFor, Covered, OnOneChain;
    evs := StraightRun(c);
    AreVoted(Run2(c, evs), T4, T4, T4);
    OrderedVotes(Run2(c, evs), TRUNK, TRUNK, TRUNK);
    LockedVotes(c, Run2(c, evs), TRUNK, TRUNK, TRUNK);
    VotesCovered(c, Run2(c, evs), TRUNK, TRUNK, TRUNK);
    AreCertified(c, Run2(c, evs), T4, T4, T4);
  }

  // ---------------------------------------------------------------- votes without the lock

  const LOOSE: seq<Ballot> :=
    [Ballot(1, 1, 0), Ballot(2, 2, 0), Ballot(3, 3, 0), Ballot(5, 5, 0), Ballot(6, 6, 0), Ballot(7, 7, 6)]
  const LONE: seq<Ballot> := [Ballot(1, 1, 0), Ballot(2, 2, 0), Ballot(3, 3, 0), Ballot(4, 4, 0)]

  const P3L := P3.(qc := Bad(2, 2))
  const X6L := X6.(qc := QC(4, 4, 5, {2, 3, 4}, true))

  const DL := [Decided(R1, Bad(2, 2))]

  const U3 := Sketch(2, 0, 1, map[1 := R1, 2 := P2, 3 := P3L], LOOSE[..3], DL, {R1})
  const U4 := Sketch(4, 0, 2, map[2 := P2, 3 := P3L, 4 := P4], LONE,
                     DL + [Decided(P2, Cert(3, 3))], {R1, P2})
  const U5 := Sketch(4, 0, 1, map[1 := R1, 2 := P2, 3 := P3L, 5 := X5], LOOSE[..4], DL, {R1})
  const U6 := Sketch(6, 0, 1, map[1 := R1, 2 := P2, 3 := P3L, 5 := X5, 6 := X6L], LOOSE[..5], DL, {R1})
  const U7 := Sketch(7, 6, 5, map[5 := X5, 6 := X6L, 7 := X7], LOOSE, DL + [Decided(X5, Cert(6, 6))], {R1, X5})

  lemma LooseThird(r: Node)
    requires 1 <= r <= 3
    ensures Next(TREE, r, T2, P3L, U3)
  {
    FirstTable();
    hide TREE;
    assert Above(map[1 := R1, 2 := P2, 3 := P3L], 1) == map[1 := R1, 2 := P2, 3 := P3L];
    assert TRUNK[..2] == LOOSE[..2];
  }

  lemma LooseFourth()
    ensures Next(TREE, 1, U3.(view := 4), P4, U4)
  {
    FirstTable();
    hide TREE;
    assert Above(map[1 := R1, 2 := P2, 3 := P3L, 4 := P4], 2) == map[2 := P2, 3 := P3L, 4 := P4];
    assert LOOSE[..3] == LONE[..3];
  }

  lemma LooseBranch(r: Node)
    requires 2 <= r <= 3
    ensures Next(TREE, r, U3.(view := 4), X5, U5) && Next(TREE, r, U5.(view := 6), X6L, U6)
  {
    FirstTable();
    hide TREE;
  }

  lemma LooseLast(r: Node)
    requires 2 <= r <= 3
    ensures Next(TREE, r, U6, X7, U7)
  {
    FirstTable();
    hide TREE;
    assert Above(map[1 := R1, 2 := P2, 3 := P3L, 5 := X5, 6 := X6L, 7 := X7], 5) == map[5 := X5, 6 := X6L, 7 := X7];
  }

  lemma LooseOrder()
    ensures InOrder(LOOSE) && InOrder(LONE)
  {
  }

  lemma LooseVotes()
    ensures Covered(TREE, LOOSE, LOOSE, LOOSE) && Covered(TREE, LONE, LOOSE, LOOSE)
    ensures VotedFor(LOOSE, 2) && VotedFor(LOOSE, 3) && VotedFor(LOOSE, 6)
  {
    FirstTable();
    VotedThere(LOOSE);
    assert VotedFor(LOOSE, LOOSE[0].id) && VotedFor(LOOSE, LOOSE[1].id) && VotedFor(LOOSE, LOOSE[2].id);
    assert VotedFor(LOOSE, LOOSE[3].id) && VotedFor(LOOSE, LOOSE[4].id);
    hide TREE, VotedFor;
  }

  lemma LooseRun(c: Setup) returns (evs: seq<Event2>)
    requires c == Four(TREE)
    ensures Are(Run2(c, evs), U4, U7, U7)
  {
    LooseThird(1);
    LooseThird(2);
    LooseThird(3);
    LooseFourth();
    LooseBranch(2);
    LooseBranch(3);
    LooseLast(2);
    LooseLast(3);
    hide TREE, Run2, Are, Next;
    evs := TrunkRun(c);
    evs := HandAll(c, evs, T2, P3L, U3);
    evs := Wait(c, evs, 1, U3, U3, U3);
    evs := Hand(c, evs, 1, U3.(view := 4), U3, U3, P4, U4);
    evs := WaitPair(c, evs, U4, U3);
    evs := HandPair(c, evs, U4, U3.(view := 4), X5, U5);
    evs := WaitPair(c, evs, U4, U5);
    evs := HandPair(c, evs, U4, U5.(view := 6), X6L, U6);
    evs := HandPair(c, evs, U4, U6, X7, U7);
  }

  /** The lock cannot be dropped: a block whose certificate is set aside is voted for under the old lock. */
  lemma LockIsNeeded() returns (c: Setup, evs: seq<Event2>)
    ensures Proper(c) && Split(c, Run2(c, evs)) && !VotesLocked2(c, Run2(c, evs))
    ensures VotesInOrder(Run2(c, evs)) && VotesJustified(c, Run2(c, evs)) && CommitsCertified(c, Run2(c, evs))
  {
    c := Four(TREE);
    TreeIsProper();
    LooseOrder();
    LooseVotes();
    FirstTable();
    hide TREE, Run2, Are, Ordered, InOrder, OnOneChain, LOOSE, LONE, VotedFor, Covered;
    evs := LooseRun(c);
    AreVoted(Run2(c, evs), U4, U7, U7);
    OrderedVotes(Run2(c, evs), LONE, LOOSE, LOOSE);
    VotesCovered(c, Run2(c, evs), LONE, LOOSE, LOOSE);
    AreCertified(c, Run2(c, evs), U4, U7, U7);
    SplitBy(c, Run2(c, evs), 1, P2, 2, X5);
    SplitUndisciplined(c, evs);
  }

  // ---------------------------------------------------------------- two votes in one view

  const TWICE: seq<Ballot> := [Ballot(1, 1, 0), Ballot(1, 11, 0), Ballot(2, 2, 0), Ballot(2, 12, 0)]
  const FIRST: seq<Ballot> := TWICE + [Ballot(3, 3, 2)]
  const OTHER: seq<Ballot> := TWICE + [Ballot(3, 13, 2)]

  const O1 := Sketch(1, 0, 0, map[1 := A1], TWICE[..1], [], {})
  const O2 := Sketch(1, 0, 0, map[1 := A1, 11 := B1], TWICE[..2], [], {})
  const O3 := Sketch(2, 0, 0, map[1 := A1, 11 := B1, 2 := A2], TWICE[..3], [], {})
  const O4 := Sketch(2, 0, 0, map[1 := A1, 11 := B1, 2 := A2, 12 := B2], TWICE, [], {})
  const OA := Sketch(3, 2, 1, map[1 := A1, 11 := B1, 2 := A2, 12 := B2, 3 := A3], FIRST,
                     [Decided(A1, Cert(2, 2))], {A1})
  const OB := Sketch(3, 2, 1, map[1 := A1, 11 := B1, 2 := A2, 12 := B2, 13 := B3], OTHER,
                     [Decided(B1, Cert(2, 12))], {B1})

  lemma ForkedIsProper()
    ensures Proper(Four(FORKED)) && !OnOneChain(FORKED, 1, 11)
  {
    FourIsProper();
    ForkedIsOrdered();
    hide FORKED, Ordered, OnOneChain;
  }

  lemma TwiceStart(r: Node)
    requires 1 <= r <= 3
    ensures Next(FORKED, r, START, A1, O1) && Next(FORKED, r, O1, B1, O2)
  {
  }

  lemma TwiceMore(r: Node)
    requires 1 <= r <= 3
    ensures Next(FORKED, r, O2, A2, O3) && Next(FORKED, r, O3, B2, O4)
  {
  }

  lemma TwiceLast()
    ensures Next(FORKED, 1, O4, A3, OA) && Next(FORKED, 2, O4, B3, OB)
  {
    assert Above(OA.held, 1) == OA.held && Above(OB.held, 1) == OB.held;
  }

  lemma TwiceVotes()
    ensures AllLocked(FORKED, TWICE) && AllLocked(FORKED, FIRST) && AllLocked(FORKED, OTHER)
  {
  }

  lemma TwiceCovered()
    ensures VotedFor(TWICE, 1) && VotedFor(TWICE, 11) && VotedFor(TWICE, 2) && VotedFor(TWICE, 12)
    ensures VotedFor(OTHER, 1) && VotedFor(OTHER, 11) && VotedFor(OTHER, 2) && VotedFor(OTHER, 12)
  {
    VotedThere(TWICE);
    VotedThere(OTHER);
    assert VotedFor(TWICE, TWICE[0].id) && VotedFor(TWICE, TWICE[1].id);
    assert VotedFor(TWICE, TWICE[2].id) && VotedFor(TWICE, TWICE[3].id);
    assert VotedFor(OTHER, OTHER[0].id) && VotedFor(OTHER, OTHER[1].id);
    assert VotedFor(OTHER, OTHER[2].id) && VotedFor(OTHER, OTHER[3].id);
    hide VotedFor;
  }

  lemma TwiceParents()
    ensures Covered(FORKED, TWICE, OTHER, TWICE) && Covered(FORKED, FIRST, OTHER, TWICE)
    ensures Covered(FORKED, OTHER, OTHER, TWICE)
  {
    TwiceCovered();
    hide VotedFor;
  }

  lemma TwiceRun(c: Setup) returns (evs: seq<Event2>)
    requires c == Four(FORKED)
    ensures Are(Run2(c, evs), OA, OB, O4)
  {
    StartLooks(FORKED);
    TwiceStart(1);
    TwiceStart(2);
    TwiceStart(3);
    TwiceMore(1);
    TwiceMore(2);
    TwiceMore(3);
    TwiceLast();
    hide FORKED, Run2, Are, Next;
    evs := HandAll(c, [], START, A1, O1);
    evs := HandAll(c, evs, O1, B1, O2);
    evs := HandAll(c, evs, O2, A2, O3);
    evs := HandAll(c, evs, O3, B2, O4);
    evs := Hand(c, evs, 1, O4, O4, O4, A3, OA);
    evs := Hand(c, evs, 2, OA, O4, O4, B3, OB);
  }

  /** Votes in order cannot be dropped: replicas vote twice in a view. */
  lemma OrderIsNeeded() returns (c: Setup, evs: seq<Event2>)
    ensures Proper(c) && Split(c, Run2(c, evs)) && !VotesInOrder(Run2(c, evs))
    ensures VotesLocked2(c, Run2(c, evs)) && VotesJustified(c, Run2(c, evs)) && CommitsCertified(c, Run2(c, evs))
  {
    c := Four(FORKED);
    ForkedIsProper();
    ForkedTable();
    TwiceVotes();
    TwiceCovered();
    TwiceParents();
    hide FORKED, Run2, Are, Ordered, AllLocked, OnOneChain, TWICE, FIRST, OTHER, VotedFor, Covered;
    evs := TwiceRun(c);
    AreVoted(Run2(c, evs), OA, OB, O4);
    LockedVotes(c, Run2(c, evs), FIRST, OTHER, TWICE);
    VotesCovered(c, Run2(c, evs), FIRST, OTHER, TWICE);
    AreCertified(c, Run2(c, evs), OA, OB, O4);
    SplitBy(c, Run2(c, evs), 1, A1, 2, B1);
    SplitUndisciplined(c, evs);
  }

  // ---------------------------------------------------------------- a vote on an unverified certificate

  const BLIND: seq<Ballot> := [Ballot(1, 1, 0), Ballot(2, 2, 0), Ballot(3, 3, 2), Ballot(6, 6, 5), Ballot(7, 7, 6)]

  /** A block for each of the two, with a certificate that names its recipient. */
  function Own(me: Node): Block {
    Made(24 + me, 6, QC(me, 5, 5, {}, false))
  }

  const X6B := X6.(qc := Bad(4, 5))

  const J5 := Sketch(5, 2, 1, map[1 := R1, 2 := P2, 3 := P3, 5 := X5], BLIND[..3], D1, {R1})

  ghost function J6(me: Node): Sketch {
    Sketch(6, 5, 1, map[1 := R1, 2 := P2, 3 := P3, 5 := X5, 24 + me := Own(me)], BLIND[..3], D1, {R1})
  }

  ghost function J7(me: Node): Sketch {
    Sketch(6, 5, 1, map[1 := R1, 2 := P2, 3 := P3, 5 := X5, 24 + me := Own(me), 6 := X6B], BLIND[..4], D1, {R1})
  }

  ghost function J8(me: Node): Sketch {
    Sketch(7, 6, 5, map[5 := X5, 24 + me := Own(me), 6 := X6B, 7 := X7], BLIND,
           D1 + [Decided(X5, Cert(6, 6))], {R1, X5})
  }

  lemma BlindStart(me: Node)
    requires 2 <= me <= 3
    ensures Next(TREE, me, T3.(view := 5), X5, J5) && Next(TREE, me, J5, Own(me), J6(me))
  {
    FirstTable();
    SecondTable();
    hide TREE;
    assert TRUNK[..3] == BLIND[..3];
  }

  lemma BlindMore(me: Node)
    requires 2 <= me <= 3
    ensures Next(TREE, me, J6(me), X6B, J7(me))
  {
    FirstTable();
    hide TREE;
  }

  lemma BlindLast(me: Node)
    requires 2 <= me <= 3
    ensures Next(TREE, me, J7(me), X7, J8(me))
  {
    FirstTable();
    hide TREE;
    assert Above(J7(me).held[7 := X7], 5) == J8(me).held;
  }

  lemma ThirdView()
    ensures T3.view == 3
  {
  }

  /** One replica stores a block without voting for it, takes a certificate in its own name for it, and votes on. */
  lemma BlindPath(c: Setup, evs: seq<Event2>, me: Node, y: Sketch, z: Sketch) returns (more: seq<Event2>)
    requires c == Four(TREE) && 2 <= me <= 3 && Are(Run2(c, evs), T4, y, z) && Of(me, T4, y, z) == T3
    ensures var (x', y', z') := Put(me, T4, y, z, J8(me)); Are(Run2(c, more), x', y', z')
  {
    BlindStart(me);
    BlindMore(me);
    BlindLast(me);
    hide TREE, Run2, Are, Next, T4, T3, J5, J6, J7, J8, BLIND;
    more := Wait(c, evs, me, T4, y, z);
    assert T3.view + 2 == 5 by { ThirdView(); }
    var (x0, y0, z0) := Put(me, T4, y, z, T3.(view := 5));
    more := Hand(c, more, me, x0, y0, z0, X5, J5);
    var (x1, y1, z1) := Put(me, T4, y, z, J5);
    more := Hand(c, more, me, x1, y1, z1, Own(me), J6(me));
    var (x2, y2, z2) := Put(me, T4, y, z, J6(me));
    more := Hand(c, more, me, x2, y2, z2, X6B, J7(me));
    var (x3, y3, z3) := Put(me, T4, y, z, J7(me));
    more := Hand(c, more, me, x3, y3, z3, X7, J8(me));
  }

  lemma BlindRun(c: Setup) returns (evs: seq<Event2>)
    requires c == Four(TREE)
    ensures Are(Run2(c, evs), T4, J8(2), J8(3))
  {
    TrunkThird(1);
    TrunkThird(2);
    TrunkThird(3);
    TrunkFourth(1);
    hide TREE, Run2, Are, Next, T3, T4, J8;
    evs := TrunkRun(c);
    evs := HandAll(c, evs, T2, P3, T3);
    evs := Hand(c, evs, 1, T3, T3, T3, P4, T4);
    evs := BlindPath(c, evs, 2, T3, T3);
    evs := BlindPath(c, evs, 3, J8(2), T3);
  }

  lemma BlindOrder()
    ensures InOrder(BLIND)
  {
  }

  lemma BlindLocked()
    ensures AllLocked(TREE, BLIND)
  {
    FirstTable();
    hide TREE;
  }

  lemma BlindVoted()
    ensures VotedFor(BLIND, 2) && VotedFor(BLIND, 3) && VotedFor(BLIND, 6)
  {
    assert BLIND[1].id == 2 && BLIND[2].id == 3 && BLIND[3].id == 6;
  }

  /** Certified parents cannot be dropped. */
  lemma JustificationIsNeeded() returns (c: Setup, evs: seq<Event2>)
    ensures Proper(c) && Split(c, Run2(c, evs)) && !VotesJustified(c, Run2(c, evs))
    ensures VotesInOrder(Run2(c, evs)) && VotesLocked2(c, Run2(c, evs)) && CommitsCertified(c, Run2(c, evs))
  {
    c := Four(TREE);
    TreeIsProper();
    TrunkOrder();
    TrunkLocked();
    BlindOrder();
    BlindLocked();
    BlindVoted();
    FirstTable();
    hide TREE, Run2, Are, Ordered, InOrder, AllLocked, OnOneChain, TRUNK, BLIND, VotedFor;
    evs := BlindRun(c);
    AreVoted(Run2(c, evs), T4, J8(2), J8(3));
    OrderedVotes(Run2(c, evs), TRUNK, BLIND, BLIND);
    LockedVotes(c, Run2(c, evs), TRUNK, BLIND, BLIND);
    AreCertified(c, Run2(c, evs), T4, J8(2), J8(3));
    SplitBy(c, Run2(c, evs), 1, P2, 2, X5);
    SplitUndisciplined(c, evs);
  }

  // ---------------------------------------------------------------- a commit on an unverified certificate

  const ASIDE: seq<Ballot> := [Ballot(1, 1, 0), Ballot(3, 13, 0)]

  const E3 := Sketch(3, 0, 0, map[1 := R1, 13 := Y3], ASIDE, [], {})
  const E4 := Sketch(3, 0, 0, map[1 := R1, 13 := Y3, 14 := Y4], ASIDE, [], {})

  lemma AsideSketches()
    ensures Next(TREE, 1, T1.(view := 3), Y3, E3) && Next(TREE, 1, E3, Y4, E4)
  {
    FirstTable();
    SecondTable();
    hide TREE;
    assert TRUNK[..1] == ASIDE[..1];
  }

  /** A child that names its parent with a low view has the parent filed at that level: committing below it drops the
      parent again. */
  lemma StrayForest(f: Forest)
    requires Drawn(f, E4.held, 0)
    ensures var g := Add(Add(f, Y6), Y5);
            && g.lowest == 0 && GetVertex(Add(f, Y6), 15).None? && GetVertex(Add(f, Y6), 16) == Some(Y6)
            && GetVertex(g, 13) == Some(Y3) && GetVertex(g, 14) == Some(Y4) && GetVertex(g, 1) == Some(R1)
            && At(g, 3) == At(f, 3) && 15 in g.vertices && g.vertices[15].level == 1
  {
    assert GetVertex(f, 1) == Some(R1) && GetVertex(f, 13) == Some(Y3) && GetVertex(f, 14) == Some(Y4);
    assert 15 !in f.vertices && 16 !in f.vertices && 14 in f.vertices;
    hide Heads, HeldOk;
    var f1 := Add(f, Y6);
    AddVertexMap(f, Y6, 15);
    AddVertexMap(f, Y6, 16);
    AddVertexMap(f, Y6, 13);
    AddVertexMap(f, Y6, 14);
    AddVertexMap(f, Y6, 1);
    assert At(f1, 3) == At(f, 3) && 15 in f1.vertices && f1.vertices[15].level == 1 && f1.lowest == 0;
    AddVertexMap(f1, Y5, 13);
    AddVertexMap(f1, Y5, 14);
    AddVertexMap(f1, Y5, 1);
  }

  lemma ThirdLevel(f: Forest)
    requires Drawn(f, E4.held, 0)
    ensures At(f, 3) != [] && At(f, 3)[0] == 13
  {
    assert E4.held[13].view == 3 && Occupied(E4.held, 3);
    assert First(f, 3).Some?;
    assert At(f, 3)[0] in E4.held;
  }

  lemma StrayMark(f: Forest, g: Forest)
    requires Drawn(f, E4.held, 0) && At(g, 3) == At(f, 3)
    requires g.lowest == 0 && GetVertex(g, 13) == Some(Y3) && GetVertex(g, 1) == Some(R1)
    ensures Mark(g, 3).Marked?
  {
    hide Drawn;
    ThirdLevel(f);
    assert MarkFrom(g, 1, g.vertices.Keys - {13}) == Marked({});
    assert 13 in g.vertices.Keys;
  }

  lemma StrayPath(g: Forest)
    requires g.lowest == 0
    ensures Y3 in CommitPath(g, Y3)
  {
    assert CommitPath(g, Y3)[0] == Y3;
  }

  lemma StrayRule(g: Forest)
    requires GetVertex(g, 13) == Some(Y3) && GetVertex(g, 14) == Some(Y4)
    ensures CommitRule2(g, Y5) == Some(Y3)
  {
  }

  lemma StrayCommit(f: Forest, n: nat, votes: Votes)
    requires Drawn(f, E4.held, 0)
    ensures var g := Add(Add(f, Y6), Y5);
            var r := CommitBlock(Chain(n, g, votes), 13);
            && CommitRule2(g, Y5) == Some(Y3) && r.Committed? && Y3 in r.committed
            && GetVertex(r.chain.forest, 15).None?
  {
    hide Add, Drawn, Mark, CommitPath, IdsOf, Forks, CommitRule2, First, At, Cut, GetVertex;
    var g := Add(Add(f, Y6), Y5);
    StrayForest(f);
    StrayMark(f, g);
    StrayPath(g);
    StrayRule(g);
    assert GetVertex(Cut(g, 3), 15).None? by { CutVertexMap(g, 3, 15); }
  }

  lemma StrayTakeUp(s: Replica, b: Block)
    requires s.id == 1 && s.leaderOf == Leader && s.pm.curView == 5 && b.hasQC && 5 <= b.view <= 6 && b.proposer == 4
    requires !b.qc.valid && b.qc.leader == 4
    ensures TakeUp2(s, b)
         == var (ok, t) := CommitOn(UpdateHighQC(s, b.qc).(chain := s.chain.(forest := Add(s.chain.forest, b))), b);
            if !ok then (false, t) else (true, Replay2(t, b.id))
  {
    hide Add, CommitOn, Replay2;
    assert OnQC(UpdateHighQC(s, b.qc), b.qc) == UpdateHighQC(s, b.qc);
  }

  lemma MissingRefused(s: Replica, b: Block)
    requires GetVertex(s.chain.forest, b.id).None? && b.view > 2
    ensures !VotingRule(s, b)
  {
  }

  lemma NotVoted(s: Replica, b: Block, t: Replica)
    requires Filed(s.bufferedBlocks) && TakeUp2(s, b) == (true, t) && !VotingRule(t, b)
    ensures OnBlock2(s, b) == t
  {
    hide TakeUp2, VotingRule;
  }

  /** The child of a missing block is stored, and nothing else happens. */
  lemma StrayFirst(s: Replica)
    requires Looks(s, 1, E4.(view := 5))
    ensures Filed(s.bufferedBlocks)
    ensures OnBlock2(s, Y6) == UpdateHighQC(s, Y6.qc).(chain := s.chain.(forest := Add(s.chain.forest, Y6)))
  {
    StrayForest(s.chain.forest);
    StrayTakeUp(s, Y6);
    LooksAlive(s, 1, E4.(view := 5));
    hide Add, Drawn, TakeUp2, Reported, OnBlock2, Filed;
    var t := UpdateHighQC(s, Y6.qc).(chain := s.chain.(forest := Add(s.chain.forest, Y6)));
    assert CommitOn(t, Y6) == (true, t) && Replay2(t, 16) == t;
    assert !VotingRule(t, Y6);
    NotVoted(s, Y6, t);
  }

  lemma StrayFinish(s: Replica, f: Forest)
    requires Quiet(s, 1) && Drawn(f, E4.held, 0) && s.chain.forest == Add(Add(f, Y6), Y5)
    ensures var (ok, t) := CommitOn(s, Y5);
            && ok && t.journal == s.journal && Y3 in t.committed && t.bufferedQCs == map[]
            && GetVertex(t.chain.forest, 15).None?
  {
    StrayCommit(f, s.chain.n, s.chain.votes);
    hide Add, Drawn, CommitBlock, CommitRule2, GetVertex;
    assert s.chain == Chain(s.chain.n, Add(Add(f, Y6), Y5), s.chain.votes);
  }

  /** The missing block comes; it commits, is dropped with what was pruned, and is not voted for. */
  lemma StraySecond(s: Replica, f: Forest)
    requires Quiet(s, 1) && s.pm.curView == 5 && Drawn(f, E4.held, 0) && s.chain.forest == Add(f, Y6)
    ensures Filed(s.bufferedBlocks)
    ensures var t := OnBlock2(s, Y5); t.journal == s.journal && Y3 in t.committed
  {
    StrayTakeUp(s, Y5);
    var s1 := UpdateHighQC(s, Y5.qc).(chain := s.chain.(forest := Add(s.chain.forest, Y5)));
    StrayFinish(s1, f);
    var t := CommitOn(s1, Y5).1;
    MissingRefused(t, Y5);
    hide Add, Drawn, TakeUp2, CommitOn, GetVertex, VotingRule, OnBlock2;
    assert Replay2(t, 15) == t;
    NotVoted(s, Y5, t);
  }

  lemma StrayBoth(s: Replica)
    requires Looks(s, 1, E4.(view := 5))
    ensures !s.halted && Filed(s.bufferedBlocks)
    ensures var t := OnBlock2(s, Y6);
            && !t.halted && Filed(t.bufferedBlocks)
            && var u := OnBlock2(t, Y5); u.journal == s.journal && Y3 in u.committed
  {
    LooksAlive(s, 1, E4.(view := 5));
    StrayFirst(s);
    var t := OnBlock2(s, Y6);
    assert Quiet(t, 1) && t.pm.curView == 5 && Drawn(s.chain.forest, E4.held, 0);
    StraySecond(t, s.chain.forest);
  }

  lemma HandAny(c: Setup, evs: seq<Event2>, r: Node, b: Block) returns (more: seq<Event2>)
    requires var g := Run2(c, evs); r in g && !g[r].halted && Filed(g[r].bufferedBlocks)
    requires Fitting(c.w, b)
    ensures Run2(c, more) == Run2(c, evs)[r := OnBlock2(Run2(c, evs)[r], b)]
  {
    more := evs + [Net(BlockTo(r, b))];
    RunSnoc(c, evs, Net(BlockTo(r, b)));
    hide Run2, OnBlock2, Filed, Fitting;
  }

  lemma StrayFits()
    ensures Fitting(TREE, Y5) && Fitting(TREE, Y6)
  {
    SecondTable();
    hide TREE;
  }

  lemma StrayRun(c: Setup, evs: seq<Event2>) returns (more: seq<Event2>, t: Replica)
    requires c.w == TREE && 1 in Run2(c, evs) && Looks(Run2(c, evs)[1], 1, E4.(view := 5))
    ensures Run2(c, more) == Run2(c, evs)[1 := t] && t.journal == Run2(c, evs)[1].journal && Y3 in t.committed
  {
    StrayFits();
    StrayBoth(Run2(c, evs)[1]);
    hide TREE, Looks, OnBlock2, Run2, Filed, Fitting, E4, Y3, Y5, Y6;
    more := HandAny(c, evs, 1, Y6);
    more := HandAny(c, more, 1, Y5);
    t := Run2(c, more)[1];
  }

  lemma Replaced(g: Network, v1: seq<Ballot>, v2: seq<Ballot>, v3: seq<Ballot>, t: Replica, b: Block)
    requires Voted(g, v1, v2, v3) && t.journal == v1 && CommittedAt(g, 2, b)
    ensures Voted(g[1 := t], v1, v2, v3) && CommittedAt(g[1 := t], 2, b)
  {
  }

  lemma AsideEnd(c: Setup, evs: seq<Event2>, y: Sketch, b: Block) returns (more: seq<Event2>)
    requires c.w == TREE && Are(Run2(c, evs), E4.(view := 5), y, y) && b in y.out
    ensures Voted(Run2(c, more), ASIDE, y.votes, y.votes)
    ensures CommittedAt(Run2(c, more), 1, Y3) && CommittedAt(Run2(c, more), 2, b)
  {
    AreVoted(Run2(c, evs), E4.(view := 5), y, y);
    assert E4.(view := 5).votes == ASIDE;
    hide TREE, Looks, Run2, Y3, E4, ASIDE;
    var t;
    more, t := StrayRun(c, evs);
    Replaced(Run2(c, evs), ASIDE, y.votes, y.votes, t, b);
  }

  lemma AsideRun(c: Setup) returns (evs: seq<Event2>)
    requires c == Four(TREE)
    ensures Voted(Run2(c, evs), ASIDE, TRUNK, TRUNK)
    ensures CommittedAt(Run2(c, evs), 1, Y3) && CommittedAt(Run2(c, evs), 2, P2)
  {
    StartLooks(TREE);
    TrunkStart(1);
    TrunkStart(2);
    TrunkStart(3);
    TrunkThird(2);
    TrunkThird(3);
    TrunkFourth(2);
    TrunkFourth(3);
    AsideSketches();
    hide TREE, Run2, Are, Next, TRUNK, ASIDE, Voted, CommittedAt;
    evs := HandAll(c, [], START, R1, T1);
    evs := HandPair(c, evs, T1, T1, P2, T2);
    evs := HandPair(c, evs, T1, T2, P3, T3);
    evs := HandPair(c, evs, T1, T3, P4, T4);
    evs := Wait(c, evs, 1, T1, T4, T4);
    evs := Hand(c, evs, 1, T1.(view := 3), T4, T4, Y3, E3);
    evs := Hand(c, evs, 1, E3, T4, T4, Y4, E4);
    evs := Wait(c, evs, 1, E4, T4, T4);
    evs := AsideEnd(c, evs, T4, P2);
  }

  lemma AsideVotes()
    ensures InOrder(ASIDE) && AllLocked(TREE, ASIDE) && Covered(TREE, ASIDE, TRUNK, TRUNK)
  {
    FirstTable();
    SecondTable();
    TrunkVoted();
    hide TREE, TRUNK, VotedFor;
  }

  /** Certified commits cannot be dropped: the commit rule is tried on certificates that did not pass the check. */
  lemma CertifiedCommitsAreNeeded() returns (c: Setup, evs: seq<Event2>)
    ensures Proper(c) && Split(c, Run2(c, evs)) && !CommitsCertified(c, Run2(c, evs))
    ensures VotesInOrder(Run2(c, evs)) && VotesLocked2(c, Run2(c, evs)) && VotesJustified(c, Run2(c, evs))
  {
    c := Four(TREE);
    TreeIsProper();
    TrunkOrder();
    TrunkLocked();
    TrunkCovered();
    AsideVotes();
    hide TREE, Run2, Ordered, InOrder, AllLocked, OnOneChain, TRUNK, ASIDE, Covered;
    evs := AsideRun(c);
    OrderedVotes(Run2(c, evs), ASIDE, TRUNK, TRUNK);
    LockedVotes(c, Run2(c, evs), ASIDE, TRUNK, TRUNK);
    VotesCovered(c, Run2(c, evs), ASIDE, TRUNK, TRUNK);
    SplitBy(c, Run2(c, evs), 1, Y3, 2, P2);
    SplitUndisciplined(c, evs);
  }

  // ---------------------------------------------------------------- a certificate with another view

  const H5 := Made(5, 5, Cert(3, 3))
  const C4 := Made(14, 4, Cert(2, 2))
  const C5 := Made(15, 5, Cert(4, 14))
  const C6 := Made(16, 6, Cert(4, 14))
  const C7 := Made(17, 7, Cert(5, 16))
  const C8 := Made(18, 8, Cert(7, 17))
  // Blocks whose certificates are for other blocks than their parents, or that are not voted for.
  const Q4 := Block(24, 4, 2, Cert(3, 3), true, 4)
  const Q5 := Block(25, 5, 3, Cert(4, 5), true, 4)
  const Q6 := Made(26, 6, Cert(5, 5))
  const Q7 := Made(27, 7, Cert(6, 16))

  const BUSH: World :=
    map[1 := R1, 2 := P2, 3 := P3, 4 := P4, 5 := H5, 14 := C4, 15 := C5, 16 := C6, 17 := C7, 18 := C8,
        24 := Q4, 25 := Q5, 26 := Q6, 27 := Q7]

  lemma BushTrunk()
    ensures 1 in BUSH && BUSH[1].view == 1 && BUSH[1].prevId == GENESIS && GENESIS !in BUSH
    ensures 2 in BUSH && BUSH[2].view == 2 && BUSH[2].prevId == 1
    ensures 3 in BUSH && BUSH[3].view == 3 && BUSH[3].prevId == 2
    ensures 4 in BUSH && BUSH[4].view == 4 && BUSH[4].prevId == 3
    ensures 5 in BUSH && BUSH[5].view == 5 && BUSH[5].prevId == 3
    ensures 24 in BUSH && BUSH[24].view == 4 && BUSH[24].prevId == 2
    ensures 25 in BUSH && BUSH[25].view == 5 && BUSH[25].prevId == 3
  {
  }

  lemma BushBranch()
    ensures 14 in BUSH && BUSH[14].view == 4 && BUSH[14].prevId == 2
    ensures 15 in BUSH && BUSH[15].view == 5 && BUSH[15].prevId == 14
    ensures 16 in BUSH && BUSH[16].view == 6 && BUSH[16].prevId == 14
    ensures 17 in BUSH && BUSH[17].view == 7 && BUSH[17].prevId == 16
    ensures 18 in BUSH && BUSH[18].view == 8 && BUSH[18].prevId == 17
    ensures 26 in BUSH && BUSH[26].view == 6 && BUSH[26].prevId == 5
    ensures 27 in BUSH && BUSH[27].view == 7 && BUSH[27].prevId == 16
    ensures forall id :: id in BUSH ==>
              BUSH[id].id == id && id in {1, 2, 3, 4, 5, 14, 15, 16, 17, 18, 24, 25, 26, 27}
  {
  }

  lemma BushIsProper()
    ensures Proper(Four(BUSH)) && !OnOneChain(BUSH, 3, 16)
  {
    FourIsProper();
    BushTrunk();
    BushBranch();
    hide BUSH;
    assert !Descends(BUSH, 1, 3) && !Descends(BUSH, 1, 16);
    assert !Descends(BUSH, 2, 3) && !Descends(BUSH, 2, 16);
    assert !Descends(BUSH, 14, 3);
  }

  const LATE: seq<Ballot> :=
    [Ballot(1, 1, 0), Ballot(2, 2, 0), Ballot(3, 3, 2), Ballot(4, 14, 2), Ballot(5, 5, 3), Ballot(6, 16, 4),
     Ballot(7, 17, 6), Ballot(8, 18, 7)]
  const EARLY: seq<Ballot> := [Ballot(1, 1, 0), Ballot(2, 2, 0), Ballot(3, 3, 2), Ballot(4, 4, 3), Ballot(5, 5, 3)]

  const E5 := T4.(held := map[2 := P2, 3 := P3, 4 := P4, 5 := H5], votes := EARLY)
  const E6 := Sketch(5, 4, 3, map[3 := P3, 4 := P4, 5 := H5, 25 := Q5], EARLY,
                     D2 + [Decided(P3, Cert(4, 5))], {R1, P2, P3})

  const V4 := Sketch(3, 2, 1, map[1 := R1, 2 := P2, 3 := P3, 14 := C4], LATE[..4], D1, {R1})
  const W4 := Sketch(4, 3, 2, map[2 := P2, 3 := P3, 14 := C4, 24 := Q4], LATE[..4], D2, {R1, P2})
  const V5 := W4.(held := W4.held[5 := H5], votes := LATE[..5])
  const W5 := V5.(view := 5, pref := 4, held := V5.held[15 := C5])
  const V6 := W5.(held := W5.held[16 := C6], votes := LATE[..6])
  const W6 := V6.(view := 6, pref := 5, held := V6.held[26 := Q6])
  const W7 := W6.(view := 7, pref := 6, held := W6.held[27 := Q7])
  const V7 := W7.(held := W7.held[17 := C7], votes := LATE[..7])
  const V8 := Sketch(8, 7, 6, map[16 := C6, 26 := Q6, 27 := Q7, 17 := C7, 18 := C8], LATE,
                     D2 + [Decided(C6, Cert(7, 17))], {R1, P2, C6})

  lemma BushStart(r: Node)
    requires 1 <= r <= 3
    ensures Next(BUSH, r, START, R1, T1) && Next(BUSH, r, T1, P2, T2)
  {
    BushTrunk();
    hide BUSH;
  }

  lemma BushThird(r: Node)
    requires 1 <= r <= 3
    ensures Next(BUSH, r, T2, P3, T3)
  {
    BushTrunk();
    hide BUSH;
    assert Above(map[1 := R1, 2 := P2, 3 := P3], 1) == map[1 := R1, 2 := P2, 3 := P3];
  }

  lemma EarlyFourth()
    ensures Next(BUSH, 1, T3, P4, T4) && Next(BUSH, 1, T4, H5, E5)
  {
    BushTrunk();
    hide BUSH;
    assert Above(map[1 := R1, 2 := P2, 3 := P3, 4 := P4], 2) == map[2 := P2, 3 := P3, 4 := P4];
    assert TRUNK + [Ballot(5, 5, 3)] == EARLY;
  }

  lemma EarlyLast()
    ensures Next(BUSH, 1, E5, Q5, E6)
  {
    BushTrunk();
    hide BUSH;
    assert Above(E5.held[25 := Q5], 3) == E6.held;
  }

  lemma LateFourth(r: Node)
    requires 2 <= r <= 3
    ensures Next(BUSH, r, T3, C4, V4)
  {
    BushBranch();
    hide BUSH;
    assert TRUNK[..3] == LATE[..3];
  }

  lemma LatePruned(r: Node)
    requires 2 <= r <= 3
    ensures Next(BUSH, r, V4, Q4, W4)
  {
    BushTrunk();
    hide BUSH, LATE;
    assert Above(V4.held[24 := Q4], 2) == W4.held;
  }

  lemma LateFifth(r: Node)
    requires 2 <= r <= 3
    ensures Next(BUSH, r, W4, H5, V5) && Next(BUSH, r, V5, C5, W5)
  {
    BushTrunk();
    BushBranch();
    hide BUSH;
  }

  lemma LateSixth(r: Node)
    requires 2 <= r <= 3
    ensures Next(BUSH, r, W5, C6, V6)
  {
    BushBranch();
    hide BUSH;
  }

  lemma LateUnvoted(r: Node)
    requires 2 <= r <= 3
    ensures Next(BUSH, r, V6, Q6, W6)
  {
    BushBranch();
    hide BUSH, LATE;
  }

  lemma LateSeventh(r: Node)
    requires 2 <= r <= 3
    ensures Next(BUSH, r, W6, Q7, W7)
  {
    BushBranch();
    hide BUSH, LATE;
  }

  /** What replicas 2 and 3 hold before and after the last vote but one. */
  const NEAR: map<Id, Block> :=
    map[2 := P2, 3 := P3, 14 := C4, 24 := Q4, 5 := H5, 15 := C5, 16 := C6, 26 := Q6, 27 := Q7]
  const FULL: map<Id, Block> := NEAR[17 := C7]

  lemma NearHeld()
    ensures W7 == Sketch(7, 6, 2, NEAR, LATE[..6], D2, {R1, P2})
  {
  }

  lemma NearTop()
    ensures 17 !in NEAR && 16 in NEAR && NEAR[16] == C6
    ensures forall id :: id in NEAR ==> NEAR[id].prevId != 17
  {
  }

  lemma NearVote()
    ensures W7.votes + [Ballot(7, 17, 6)] == V7.votes
  {
  }

  lemma LateEighth(r: Node)
    requires 2 <= r <= 3
    ensures Next(BUSH, r, W7, C7, V7)
  {
    BushBranch();
    NearHeld();
    NearTop();
    NearVote();
    LateHeld();
    hide BUSH, NEAR, W7, V7, LATE;
    assert Storing(W7, true, C7) == Sketch(7, 6, 2, NEAR[17 := C7], W7.votes, D2, {R1, P2});
  }

  lemma LateHeld()
    ensures V7 == Sketch(7, 6, 2, FULL, LATE[..7], D2, {R1, P2})
  {
  }

  lemma LateAbove()
    ensures Above(FULL[18 := C8], 6) == V8.held
  {
  }

  lemma LateTop()
    ensures 18 !in FULL && 17 in FULL && FULL[17] == C7 && 16 in FULL && FULL[16] == C6
    ensures forall id :: id in FULL ==> FULL[id].prevId != 18
  {
  }

  lemma LateVote()
    ensures V7.votes + [Ballot(8, 18, 7)] == LATE
  {
  }

  lemma LateLast(r: Node)
    requires 2 <= r <= 3
    ensures Next(BUSH, r, V7, C8, V8)
  {
    BushBranch();
    LateHeld();
    LateAbove();
    LateTop();
    LateVote();
    hide BUSH, FULL, V7, Above, LATE;
    assert Pick(FULL[18 := C8], C8.qc) == Some(C6);
    assert Storing(V7, true, C8) == Sketch(8, 7, 2, FULL[18 := C8], V7.votes, D2, {R1, P2});
  }

  /** Two of the three vote for a block of the other branch between the two blocks of the first. */
  lemma LateStart(c: Setup) returns (evs: seq<Event2>)
    requires c == Four(BUSH)
    ensures Are(Run2(c, evs), E6, T3, T3)
  {
    StartLooks(BUSH);
    BushStart(1);
    BushStart(2);
    BushStart(3);
    BushThird(1);
    BushThird(2);
    BushThird(3);
    EarlyFourth();
    EarlyLast();
    hide BUSH, Run2, Are, Next;
    evs := HandAll(c, [], START, R1, T1);
    evs := HandAll(c, evs, T1, P2, T2);
    evs := HandAll(c, evs, T2, P3, T3);
    evs := Hand(c, evs, 1, T3, T3, T3, P4, T4);
    evs := Hand(c, evs, 1, T4, T3, T3, H5, E5);
    evs := Hand(c, evs, 1, E5, T3, T3, Q5, E6);
  }

  lemma LateNext(r: Node)
    requires 2 <= r <= 3
    ensures Next(BUSH, r, T3, C4, V4) && Next(BUSH, r, V4, Q4, W4) && Next(BUSH, r, W4, H5, V5)
    ensures Next(BUSH, r, V5, C5, W5) && Next(BUSH, r, W5, C6, V6) && Next(BUSH, r, V6, Q6, W6)
    ensures Next(BUSH, r, W6, Q7, W7) && Next(BUSH, r, W7, C7, V7) && Next(BUSH, r, V7, C8, V8)
  {
    hide BUSH, Next;
    LateFourth(r);
    LatePruned(r);
    LateFifth(r);
    LateSixth(r);
    LateUnvoted(r);
    LateSeventh(r);
    LateEighth(r);
    LateLast(r);
  }

  lemma LateRun(c: Setup) returns (evs: seq<Event2>)
    requires c == Four(BUSH)
    ensures Are(Run2(c, evs), E6, V8, V8)
  {
    hide BUSH, Run2, Are, Next, E6, T3, V4, W4, V5, W5, V6, W6, W7, V7, V8;
    LateNext(2);
    LateNext(3);
    evs := LateStart(c);
    evs := HandPair(c, evs, E6, T3, C4, V4);
    evs := HandPair(c, evs, E6, V4, Q4, W4);
    evs := HandPair(c, evs, E6, W4, H5, V5);
    evs := HandPair(c, evs, E6, V5, C5, W5);
    evs := HandPair(c, evs, E6, W5, C6, V6);
    evs := HandPair(c, evs, E6, V6, Q6, W6);
    evs := HandPair(c, evs, E6, W6, Q7, W7);
    evs := HandPair(c, evs, E6, W7, C7, V7);
    evs := HandPair(c, evs, E6, V7, C8, V8);
  }

  lemma LateOrder()
    ensures InOrder(LATE) && InOrder(EARLY)
  {
  }

  lemma LateLocked()
    ensures AllLocked(BUSH, LATE) && AllLocked(BUSH, EARLY)
  {
    BushTrunk();
    BushBranch();
    hide BUSH;
  }

  lemma LateVoted()
    ensures VotedFor(LATE, 1) && VotedFor(LATE, 2) && VotedFor(LATE, 3) && VotedFor(LATE, 14) && VotedFor(LATE, 5)
    ensures VotedFor(LATE, 16) && VotedFor(LATE, 17)
  {
    VotedThere(LATE);
    assert VotedFor(LATE, LATE[0].id) && VotedFor(LATE, LATE[1].id) && VotedFor(LATE, LATE[2].id);
    assert VotedFor(LATE, LATE[3].id) && VotedFor(LATE, LATE[4].id) && VotedFor(LATE, LATE[5].id);
    assert VotedFor(LATE, LATE[6].id);
    hide VotedFor;
  }

  lemma LateCovered()
    ensures Covered(BUSH, LATE, LATE, LATE)
  {
    BushTrunk();
    BushBranch();
    LateVoted();
    hide BUSH, VotedFor;
  }

  lemma EarlyCovered()
    ensures Covered(BUSH, EARLY, LATE, LATE)
  {
    BushTrunk();
    LateVoted();
    hide BUSH, VotedFor, LATE;
  }

  /** The decisions are on certified blocks. */
  lemma AreBased(c: Setup, g: Network, x: Sketch, y: Sketch, z: Sketch)
    requires IsFour(c) && Are(g, x, y, z)
    requires forall d :: d in x.decided + y.decided + z.decided ==>
               VotedFor(y.votes, d.qc.blockId) && VotedFor(z.votes, d.qc.blockId)
    ensures forall r, k :: r in g && 0 <= k < |g[r].decisions| ==>
              Certified(Elect(c, g), g[r].decisions[k].qc.blockId)
  {
    hide Drawn, Quiet, VotedFor, Certified, Elect, IsQuorum;
    forall r, k | r in g && 0 <= k < |g[r].decisions| ensures Certified(Elect(c, g), g[r].decisions[k].qc.blockId) {
      var d := g[r].decisions[k];
      assert d in Of(r, x, y, z).decided;
      BothCertify(c, g, d.qc.blockId);
    }
  }

  lemma LateDecided(d: Decided)
    requires d in E6.decided + V8.decided + V8.decided
    ensures VotedFor(LATE, d.qc.blockId)
  {
    LateVoted();
    hide VotedFor, LATE;
    assert E6.decided == [Decided(R1, Cert(2, 2)), Decided(P2, Cert(3, 3)), Decided(P3, Cert(4, 5))];
    assert V8.decided == [Decided(R1, Cert(2, 2)), Decided(P2, Cert(3, 3)), Decided(C6, Cert(7, 17))];
  }

  /** The view in the certificate matters, too: all commits are on certified blocks, and a certificate with another view
      than that of its block, in a child of yet another one, makes a replica commit across a gap. */
  lemma LabelsAreNeeded() returns (c: Setup, evs: seq<Event2>)
    ensures Proper(c) && Split(c, Run2(c, evs)) && !CommitsCertified(c, Run2(c, evs))
    ensures VotesInOrder(Run2(c, evs)) && VotesLocked2(c, Run2(c, evs)) && VotesJustified(c, Run2(c, evs))
    ensures var g := Run2(c, evs);
            forall r, k :: r in g && 0 <= k < |g[r].decisions| ==>
              Certified(Elect(c, g), g[r].decisions[k].qc.blockId)
  {
    c := Four(BUSH);
    BushIsProper();
    LateOrder();
    LateLocked();
    LateCovered();
    EarlyCovered();
    forall d | d in E6.decided + V8.decided + V8.decided ensures VotedFor(LATE, d.qc.blockId) {
      LateDecided(d);
    }
    hide BUSH, Run2, Are, Ordered, InOrder, AllLocked, OnOneChain, LATE, EARLY, VotedFor, Covered, Certified, Elect;
    evs := LateRun(c);
    AreVoted(Run2(c, evs), E6, V8, V8);
    OrderedVotes(Run2(c, evs), EARLY, LATE, LATE);
    LockedVotes(c, Run2(c, evs), EARLY, LATE, LATE);
    VotesCovered(c, Run2(c, evs), EARLY, LATE, LATE);
    AreBased(c, Run2(c, evs), E6, V8, V8);
    SplitBy(c, Run2(c, evs), 1, P3, 2, C6);
    SplitUndisciplined(c, evs);
  }

  // ---------------------------------------------------------------- a proposal with a low label

  /** A replica that has seen nothing but its timer. */
  ghost predicate Idle(s: Replica, v: View) {
    Quiet(s, 1) && s.chain.forest == EMPTY && s.highQC == GENESIS_QC && s.pm.curView == v
  }

  lemma IdleWaits(c: Setup, evs: seq<Event2>, v: View) returns (more: seq<Event2>)
    requires 1 in Run2(c, evs) && Idle(Run2(c, evs)[1], v)
    ensures 1 in Run2(c, more) && Idle(Run2(c, more)[1], v + 2)
  {
    more := evs + [Net(TimeoutAt(1))];
    RunSnoc(c, evs, Net(TimeoutAt(1)));
    hide Run2;
  }

  /** Its highest certificate is then taken from a block before anything is checked. */
  lemma IdleBlock(s: Replica)
    requires Idle(s, 10)
    ensures Filed(s.bufferedBlocks) && OnBlock2(s, L11).highQC == L11.qc && OnBlock2(s, L11).pm.curView == 10
  {
    var s1 := UpdateHighQC(s, L11.qc);
    assert OnQC(s1, L11.qc) == s1;
    var t := s1.(chain := s1.chain.(forest := Add(s1.chain.forest, L11)));
    assert CommitOn(t, L11) == (true, t) && Replay2(t, 10) == t;
    AddVertexMap(EMPTY, L11, 9);
    assert !VotingRule(t, L11);
    hide Add, OnQC, CommitOn, Replay2, VotingRule;
    NotVoted(s, L11, t);
  }

  lemma IdleRun(c: Setup) returns (evs: seq<Event2>)
    requires c == Four(TREE)
    ensures 1 in Run2(c, evs) && Idle(Run2(c, evs)[1], 10)
  {
    assert Run2(c, [])[1] == HotStuffs.Fresh(1, 4, Leader);
    assert Idle(Run2(c, [])[1], 0);
    hide TREE, Run2, Idle;
    evs := IdleWaits(c, [], 0);
    evs := IdleWaits(c, evs, 2);
    evs := IdleWaits(c, evs, 4);
    evs := IdleWaits(c, evs, 6);
    evs := IdleWaits(c, evs, 8);
  }

  lemma LowLabelFits()
    ensures Fitting(TREE, L11)
  {
    SecondTable();
    hide TREE;
  }

  /** A correct leader can propose a block that is not above the block it extends, with the view before its own in the
      certificate: the block that makes the commit rule skip a view. */
  lemma LowLabelProposal(id: Id) returns (c: Setup, evs: seq<Event2>)
    ensures Proper(c) && 1 in Run2(c, evs) && Run2(c, evs)[1].pm.curView == 10 && c.leaderOf(10) == 1
    ensures var b := Proposal2(Run2(c, evs)[1], 10, id);
            && b.qc.blockId in c.w && c.w[b.qc.blockId].prevId in c.w
            && c.w[c.w[b.qc.blockId].prevId].view + 2 == c.w[b.qc.blockId].view == b.view == b.qc.view + 1
  {
    c := Four(TREE);
    TreeIsProper();
    SecondTable();
    LowLabelFits();
    hide TREE, Run2, Ordered, Fitting, OnBlock2, Filed;
    evs := IdleRun(c);
    IdleBlock(Run2(c, evs)[1]);
    evs := HandAny(c, evs, 1, L11);
  }
}
