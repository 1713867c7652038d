/** Concrete runs of four replicas, one of them faulty. None of the conditions of the agreement theorem can be dropped:
    for each there is a run without forged signatures that meets the other three and in which blocks of two chains are
    committed. Replica 4 is faulty; it leads every view but 12, which replica 1 leads. */
module HotStuffWitness {
  import opened Types
  import opened Tally
  import opened Quorums
  import opened Timeouts
  import opened Forests
  import opened Worlds
  import opened BlockChains
  import opened Pacemakers
  import opened Safety
  import opened Outputs
  import opened HotStuffs
  import opened HotStuffLogs
  import opened HotStuffInvariant
  import opened HotStuffRuns
  import HotStuffFacts
  import opened Drawings
  import opened Witnesses

  function Leader(v: View): Node { if v == 12 then 1 else 4 }

  ghost function Four(w: World): Setup {
    Setup(w, 4, {4}, Leader)
  }

  // ---------------------------------------------------------------- what a replica looks like on the way

  /** The current view, the lock, the blocks held and the votes cast; nothing is committed yet. */
  datatype Sketch = Sketch(view: View, pref: View, held: map<Id, Block>, votes: seq<Ballot>)

  ghost predicate Quiet(s: Replica, me: Node) {
    && s.id == me && 1 <= me <= 3 && !s.halted && s.leaderOf == Leader && s.lastVotedView == 0
    && s.bufferedQCs == map[] && s.bufferedBlocks == map[] && s.decisions == []
    && s.pm.n == 4 && forall v :: Senders(s.pm.timeouts, v) <= {me, 4}
  }

  ghost predicate Looks(s: Replica, me: Node, k: Sketch) {
    && Quiet(s, me) && Drawn(s.chain.forest, k.held, 0) && s.highQC.view <= k.view
    && s.pm.curView == k.view && s.preferredView == k.pref && s.journal == k.votes
  }

  lemma HeldParent(f: Forest, held: map<Id, Block>, id: Id)
    requires Drawn(f, held, 0)
    ensures GetParent(f, id)
         == if id in held && held[id].prevId in held then Some(held[held[id].prevId]) else None
  {
    hide Heads;
  }

  // ---------------------------------------------------------------- certificates

  ghost predicate Foreign(qc: QC) { qc.leader == 0 || qc.leader == 4 }

  /** The lock after the certificate. */
  ghost function LockAfter(k: Sketch, qc: QC): View {
    if qc.view <= 2 || qc.blockId !in k.held || k.held[qc.blockId].prevId !in k.held then k.pref
    else Max(k.pref, k.held[k.held[qc.blockId].prevId].view)
  }

  ghost predicate Skipped(k: Sketch, qc: QC) { qc.view < k.view || !qc.valid }

  ghost function Vet(k: Sketch, qc: QC): Sketch {
    if Skipped(k, qc) then k else k.(view := qc.view + 1, pref := LockAfter(k, qc))
  }

  /** The certificate completes a three-chain that starts with `b`. */
  ghost predicate Completes(k: Sketch, qc: QC, b: Block) {
    && qc.blockId in k.held && k.held[qc.blockId].prevId in k.held
    && var p := k.held[k.held[qc.blockId].prevId];
       p.prevId in k.held && b == k.held[p.prevId] && b.view + 1 == p.view && p.view + 1 == qc.view
  }

  /** The certificate has its block and that block's parent at hand, and does not complete a three-chain. */
  ghost predicate LocksOnly(k: Sketch, qc: QC) {
    || qc.view <= 2
    || (&& qc.blockId in k.held && k.held[qc.blockId].prevId in k.held
        && var p := k.held[k.held[qc.blockId].prevId];
           !(p.prevId in k.held && k.held[p.prevId].view + 1 == p.view && p.view + 1 == qc.view))
  }

  lemma RuleOn(f: Forest, held: map<Id, Block>, qc: QC)
    requires Drawn(f, held, 0)
    ensures qc.blockId in held && held[qc.blockId].prevId in held ==>
              var p := held[held[qc.blockId].prevId];
              CommitRule(f, qc) == if p.prevId in held && held[p.prevId].view + 1 == p.view && p.view + 1 == qc.view
                                   then Some(held[p.prevId]) else None
  {
    HeldParent(f, held, qc.blockId);
    if qc.blockId in held && held[qc.blockId].prevId in held {
      HeldParent(f, held, held[qc.blockId].prevId);
    }
    hide Holds, Heads, GetParent;
  }

  /** A certificate that locks at most: only the view, the lock and the highest certificate move. */
  lemma CertificateLooks(s: Replica, me: Node, k: Sketch, qc: QC)
    requires Looks(s, me, k) && Foreign(qc) && (Skipped(k, qc) || LocksOnly(k, qc))
    ensures Looks(OnCertificate(s, qc), me, Vet(k, qc))
  {
    HeldParent(s.chain.forest, k.held, qc.blockId);
    RuleOn(s.chain.forest, k.held, qc);
    hide Drawn, CommitRule, GetParent, Finish, Senders;
  }

  // ---------------------------------------------------------------- blocks

  ghost predicate Votes(k: Sketch, b: Block) {
    b.view <= 2 || (b.prevId in k.held && k.held[b.prevId].view >= k.pref)
  }

  ghost function Storing(k: Sketch, b: Block): Sketch {
    Vet(k, b.qc).(held := k.held[b.id := b])
  }

  ghost function AfterBlock(k: Sketch, b: Block): Sketch {
    var l := Storing(k, b);
    if Votes(l, b) then l.(votes := k.votes + [Ballot(b.view, b.id, l.pref)]) else l
  }

  /** The block is taken up. */
  ghost predicate Smooth(k: Sketch, b: Block) {
    && b.qc.view < b.view <= k.view + 1 && b.hasQC && b.proposer == 4 && Foreign(b.qc) && b.view < 11
    && Joins(k.held, 0, b) && b.view >= Vet(k, b.qc).view
    && (Skipped(k, b.qc) || LocksOnly(k, b.qc))
  }

  lemma TakeUpLooks(s: Replica, me: Node, k: Sketch, b: Block)
    requires Looks(s, me, k) && Smooth(k, b)
    ensures TakeUp(s, b).0 && Looks(TakeUp(s, b).1, me, Storing(k, b))
  {
    var s1 := UpdateHighQC(s, b.qc);
    assert Looks(s1, me, k) by { hide Drawn, Senders; }
    CertificateLooks(s1, me, k, b.qc);
    AddDrawn(OnCertificate(s1, b.qc).chain.forest, k.held, 0, b);
    hide Drawn, OnCertificate, Add, Senders, LocksOnly, Joins;
  }

  lemma VoteLooks(s: Replica, me: Node, k: Sketch, b: Block)
    requires Looks(s, me, k) && b.id in k.held && k.held[b.id] == b
    ensures VotingRule(s, b) <==> Votes(k, b)
  {
    HeldParent(s.chain.forest, k.held, b.id);
    hide Drawn, GetParent, Senders;
  }

  lemma CastLooks(s: Replica, me: Node, k: Sketch, b: Block)
    requires Looks(s, me, k) && b.view < 11
    ensures Looks(CastVote(s, b), me, k.(votes := k.votes + [Ballot(b.view, b.id, k.pref)]))
  {
    hide Drawn, OnVote, Senders;
  }

  lemma SmoothView(k: Sketch, b: Block)
    requires Smooth(k, b)
    ensures b.view < 11 && Foreign(b.qc)
  {
  }

  lemma OneLooks(s: Replica, me: Node, k: Sketch, b: Block)
    requires Looks(s, me, k) && Smooth(k, b)
    ensures Looks(OnOne(s, b).1, me, AfterBlock(k, b))
  {
    hide TakeUp, Drawn, VotingRule, Senders, Looks, CastVote, Smooth, Votes, Vet;
    SmoothView(k, b);
    TakeUpLooks(s, me, k, b);
    var s1 := TakeUp(s, b).1;
    VoteLooks(s1, me, Storing(k, b), b);
    CastLooks(s1, me, Storing(k, b), b);
    assert Storing(k, b).votes == k.votes by { VetVotes(k, b.qc); }
  }

  lemma VetVotes(k: Sketch, qc: QC)
    ensures Vet(k, qc).votes == k.votes
  {
  }

  /** One block handed to a replica that is ready for it. */
  lemma BlockLooks(s: Replica, me: Node, k: Sketch, b: Block)
    requires Looks(s, me, k) && Smooth(k, b)
    ensures Looks(OnBlock(s, b), me, AfterBlock(k, b))
  {
    hide OnOne, Drawn, Senders, AfterBlock, Smooth;
    OneLooks(s, me, k, b);
  }

  // ---------------------------------------------------------------- timeouts

  lemma LoneTimeout(p: Pm, me: Node, tmo: Tmo)
    requires p.n == 4 && (forall v :: Senders(p.timeouts, v) <= {me, 4}) && tmo.node in {me, 4}
    ensures AddTimeout(p, tmo).1.None? && forall v :: Senders(AddTimeout(p, tmo).0.timeouts, v) <= {me, 4}
    ensures AddTimeout(p, tmo).0.curView == p.curView && AddTimeout(p, tmo).0.n == p.n
  {
    var after := Record(4, p.timeouts, Sent(tmo));
    forall v ensures Senders(after, v) <= {me, 4} {
      assert Senders(p.timeouts, v) <= {me, 4};
    }
    SubsetSize(Senders(after, tmo.view), {me, 4});
    assert |{me, 4}| <= 2;
  }

  /** The timer of a replica runs out. */
  lemma TimeoutLooks(s: Replica, me: Node, k: Sketch)
    requires Looks(s, me, k)
    ensures Looks(OnLocalTmo(s, k.view), me, k.(view := k.view + 1))
  {
    hide Drawn, Finish, CommitRule, UpdatePreferredView, AddTimeout, Senders;
    var s1 := Advanced(s, k.view);
    var tmo := Tmo(k.view + 1, me, s1.highQC);
    assert OnCertificate(s1, tmo.highQC) == s1;
    LoneTimeout(s1.pm, me, tmo);
  }

  /** A timeout message of the faulty replica with a certificate that locks. */
  lemma MessageLooks(s: Replica, me: Node, k: Sketch, qc: QC)
    requires Looks(s, me, k) && Foreign(qc) && (Skipped(k, qc) || LocksOnly(k, qc))
    ensures Looks(OnTmo(s, Tmo(qc.view + 1, 4, qc)), me, Vet(k, qc))
  {
    CertificateLooks(s, me, k, qc);
    var t := OnCertificate(s, qc);
    LoneTimeout(t.pm, me, Tmo(qc.view + 1, 4, qc));
    hide OnCertificate, Drawn, AddTimeout, Senders, Vet, LocksOnly;
  }

  /** The certificate is accepted and completes a three-chain that starts with `b`. */
  ghost predicate Ripe(k: Sketch, me: Node, qc: QC, b: Block) {
    && Completes(k, qc, b) && (qc.valid || qc.leader == me) && qc.view >= k.view && qc.view >= 3
    && b.id in k.held && k.held[b.id] == b && b.view >= 1
  }

  lemma RipeFires(s: Replica, me: Node, k: Sketch, qc: QC, b: Block)
    requires Looks(s, me, k) && Ripe(k, me, qc, b)
    ensures UpdatePreferredView(s, qc).Some? && CommitRule(s.chain.forest, qc) == Some(b)
    ensures CommitBlock(s.chain, b.id).Committed? && b in CommitBlock(s.chain, b.id).committed
  {
    HeldParent(s.chain.forest, k.held, qc.blockId);
    RuleOn(s.chain.forest, k.held, qc);
    CommitDrawn(s.chain, k.held, 0, b);
    hide Drawn, GetParent, CommitRule, CommitBlock, Senders;
  }

  lemma RipeFinishes(s: Replica, me: Node, k: Sketch, qc: QC, b: Block)
    requires Looks(s, me, k) && Ripe(k, me, qc, b)
    ensures UpdatePreferredView(s, qc).Some?
    ensures OnCertificate(s, qc)
         == Finish(UpdateHighQC(Advanced(UpdatePreferredView(s, qc).value, qc.view), qc), Decided(b, qc))
  {
    RipeFires(s, me, k, qc, b);
    hide Drawn, GetParent, CommitRule, CommitBlock, Completes, Senders, Finish;
    assert UpdatePreferredView(s, qc).value.chain == s.chain;
  }

  lemma LockKeeps(s: Replica, qc: QC)
    requires UpdatePreferredView(s, qc).Some?
    ensures var t := UpdateHighQC(Advanced(UpdatePreferredView(s, qc).value, qc.view), qc);
            && t.chain == s.chain && t.halted == s.halted && t.journal == s.journal && t.committed == s.committed
            && t.decisions == s.decisions && t.pm == Advance(s.pm, qc.view)
  {
    hide GetParent;
  }

  /** The replica has committed, once. */
  ghost predicate Done(s: Replica, votes: seq<Ballot>, b: Block, qc: QC) {
    s.journal == votes && b in s.committed && s.decisions == [Decided(b, qc)]
  }

  lemma RipeCommits(s: Replica, me: Node, k: Sketch, qc: QC, b: Block)
    requires Looks(s, me, k) && Ripe(k, me, qc, b)
    ensures var t := OnCertificate(s, qc);
            && Done(t, k.votes, b, qc) && !t.halted
            && t.pm.curView == qc.view + 1 && t.pm.n == 4 && t.pm.timeouts == s.pm.timeouts
  {
    hide OnCertificate, UpdatePreferredView, UpdateHighQC, Drawn, CommitRule, CommitBlock, Completes, Senders;
    RipeFires(s, me, k, qc, b);
    RipeFinishes(s, me, k, qc, b);
    LockKeeps(s, qc);
  }

  /** A ripe certificate in a timeout message for the view after it. */
  lemma CommitLooks(s: Replica, me: Node, k: Sketch, qc: QC, b: Block)
    requires Looks(s, me, k) && Ripe(k, me, qc, b)
    ensures Done(OnTmo(s, Tmo(qc.view + 1, 4, qc)), k.votes, b, qc)
  {
    RipeCommits(s, me, k, qc, b);
    var t := OnCertificate(s, qc);
    LoneTimeout(t.pm, me, Tmo(qc.view + 1, 4, qc));
    hide OnCertificate, Drawn, Ripe, AddTimeout, Senders;
  }

  // ---------------------------------------------------------------- steps of the network

  /** A timeout message of the faulty replica with the certificate. */
  ghost function Showing(r: Node, qc: QC): Event { TmoTo(r, Tmo(qc.view + 1, 4, qc)) }

  lemma RunSnoc(c: Setup, evs: seq<Event>, ev: Event)
    ensures Run(c, evs + [ev]) == Step(c, Run(c, evs), ev)
  {
    assert (evs + [ev])[..|evs|] == evs;
  }

  lemma LooksFiled(s: Replica, me: Node, k: Sketch)
    requires Looks(s, me, k)
    ensures !s.halted && Filed(s.bufferedBlocks) && s.pm.curView == k.view && s.journal == k.votes && 1 <= me <= 3
    ensures s.decisions == []
  {
    hide Drawn, Senders;
  }

  /** Whatever was delivered and passes the check is backed, and nothing carries the name of its recipient. */
  ghost predicate Clean(c: Setup, evs: seq<Event>) {
    AllGenuine(c, evs) && OwnNames(c, evs)
  }

  lemma CleanMore(c: Setup, evs: seq<Event>, ev: Event)
    requires Genuine(Elect(c, Run(c, evs)), ev)
    ensures AllGenuine(c, evs) ==> AllGenuine(c, evs + [ev])
    ensures OwnNames(c, evs) && OwnName(Elect(c, Run(c, evs)), ev) ==> OwnNames(c, evs + [ev])
  {
    hide Run, Elect, Genuine, OwnName;
    var more := evs + [ev];
    forall i | 0 <= i < |more|
      ensures more[..i] == if i < |evs| then evs[..i] else evs
    {
    }
  }

  lemma UnforgedMore(c: Setup, evs: seq<Event>, ev: Event)
    requires AllUnforged(c, evs) && Unforged(Elect(c, Run(c, evs)), ev)
    ensures AllUnforged(c, evs + [ev])
    ensures OwnNames(c, evs) && OwnName(Elect(c, Run(c, evs)), ev) ==> OwnNames(c, evs + [ev])
  {
    hide Run, Elect, Unforged, OwnName;
    var more := evs + [ev];
    forall i | 0 <= i < |more|
      ensures more[..i] == if i < |evs| then evs[..i] else evs
    {
    }
  }

  lemma EmptyClean(c: Setup)
    ensures Clean(c, [])
  {
  }

  /** What passes the check was signed by replicas 2 and 3, with these votes, and carries the view of its block. */
  ghost predicate Backs(w: World, u: seq<Ballot>, v: seq<Ballot>, qc: QC) {
    || !qc.valid || qc == GENESIS_QC
    || (&& qc.signers == {2, 3, 4} && qc.blockId in w && qc.view == w[qc.blockId].view
        && VotedFor(u, qc.blockId) && VotedFor(v, qc.blockId))
  }

  lemma BacksLonger(w: World, u: seq<Ballot>, v: seq<Ballot>, u': seq<Ballot>, v': seq<Ballot>, qc: QC)
    requires Backs(w, u, v, qc) && u <= u' && v <= v'
    ensures Backs(w, u', v', qc)
  {
    hide VotedFor;
    if VotedFor(u, qc.blockId) && VotedFor(v, qc.blockId) {
      VotedLonger(u, u', qc.blockId);
      VotedLonger(v, v', qc.blockId);
    }
  }

  lemma BacksBacked(c: Setup, g: Network, u: seq<Ballot>, v: seq<Ballot>, qc: QC)
    requires IsFour(c) && 2 in g && 3 in g && g[2].journal == u && g[3].journal == v && Backs(c.w, u, v, qc)
    ensures qc.valid ==> Backed(Elect(c, g), qc)
  {
    hide VotedFor, IsQuorum;
    if qc.valid && qc != GENESIS_QC {
      BothCertify(c, g, qc.blockId);
    }
  }

  lemma CleanBlock(c: Setup, evs: seq<Event>, r: Node, u: seq<Ballot>, v: seq<Ballot>, b: Block)
    requires IsFour(c) && Clean(c, evs) && 1 <= r <= 3 && Foreign(b.qc) && Backs(c.w, u, v, b.qc)
    requires var g := Run(c, evs); 2 in g && 3 in g && g[2].journal == u && g[3].journal == v
    ensures Clean(c, evs + [BlockTo(r, b)])
  {
    hide Run, Elect, AllGenuine, OwnNames, Backed;
    assert b.qc.valid ==> Backed(Elect(c, Run(c, evs)), b.qc) by { BacksBacked(c, Run(c, evs), u, v, b.qc); }
    CleanMore(c, evs, BlockTo(r, b));
  }

  lemma CleanTmo(c: Setup, evs: seq<Event>, r: Node, u: seq<Ballot>, v: seq<Ballot>, qc: QC)
    requires IsFour(c) && Clean(c, evs) && 1 <= r <= 3 && Foreign(qc) && Backs(c.w, u, v, qc)
    requires var g := Run(c, evs); 2 in g && 3 in g && g[2].journal == u && g[3].journal == v
    ensures Clean(c, evs + [Showing(r, qc)])
  {
    hide Run, Elect, AllGenuine, OwnNames, Backed;
    assert qc.valid ==> Backed(Elect(c, Run(c, evs)), qc) by { BacksBacked(c, Run(c, evs), u, v, qc); }
    CleanMore(c, evs, Showing(r, qc));
  }

  /** The three replicas look like this. */
  ghost predicate Are(g: Network, x: Sketch, y: Sketch, z: Sketch) {
    g.Keys == {1, 2, 3} && Looks(g[1], 1, x) && Looks(g[2], 2, y) && Looks(g[3], 3, z)
  }

  ghost function Put(r: Node, x: Sketch, y: Sketch, z: Sketch, n: Sketch): (Sketch, Sketch, Sketch) {
    if r == 1 then (n, y, z) else if r == 2 then (x, n, z) else (x, y, n)
  }

  ghost function Of(r: Node, x: Sketch, y: Sketch, z: Sketch): Sketch {
    if r == 1 then x else if r == 2 then y else z
  }

  lemma AreVotes(g: Network, x: Sketch, y: Sketch, z: Sketch)
    requires Are(g, x, y, z)
    ensures Voted(g, x.votes, y.votes, z.votes)
    ensures g[1].decisions == [] && g[2].decisions == [] && g[3].decisions == []
  {
    hide Looks;
    LooksFiled(g[1], 1, x);
    LooksFiled(g[2], 2, y);
    LooksFiled(g[3], 3, z);
  }

  lemma BlockStep(c: Setup, evs: seq<Event>, r: Node, k: Sketch, b: Block)
    requires r in Run(c, evs) && Looks(Run(c, evs)[r], r, k) && Fitting(c.w, b) && Smooth(k, b)
    ensures Filed(Run(c, evs)[r].bufferedBlocks)
    ensures Run(c, evs + [BlockTo(r, b)]) == Run(c, evs)[r := OnBlock(Run(c, evs)[r], b)]
    ensures Looks(OnBlock(Run(c, evs)[r], b), r, AfterBlock(k, b))
  {
    hide Run, OnBlock, Looks, Smooth, AfterBlock, Fitting, Filed;
    RunSnoc(c, evs, BlockTo(r, b));
    LooksFiled(Run(c, evs)[r], r, k);
    BlockLooks(Run(c, evs)[r], r, k, b);
  }

  /** A block takes a replica from one sketch to the next. */
  ghost predicate Next(w: World, k: Sketch, b: Block, l: Sketch) {
    Smooth(k, b) && Known(w, b) && AfterBlock(k, b) == l
  }

  lemma NextVotes(w: World, k: Sketch, b: Block, l: Sketch)
    requires Next(w, k, b, l)
    ensures k.votes <= l.votes && Foreign(b.qc) && Fitting(w, b) && Smooth(k, b)
  {
    hide Joins, LocksOnly;
  }

  lemma Hand(c: Setup, evs: seq<Event>, r: Node, x: Sketch, y: Sketch, z: Sketch, b: Block, l: Sketch)
    returns (more: seq<Event>)
    requires IsFour(c) && 1 <= r <= 3 && Are(Run(c, evs), x, y, z) && Next(c.w, Of(r, x, y, z), b, l)
    requires Backs(c.w, y.votes, z.votes, b.qc) && Clean(c, evs)
    ensures Clean(c, more) && var (x', y', z') := Put(r, x, y, z, l); Are(Run(c, more), x', y', z')
  {
    hide Run, Looks, Smooth, AfterBlock, Fitting, Clean, Backs, OnBlock;
    var k := Of(r, x, y, z);
    NextVotes(c.w, k, b, l);
    AreVotes(Run(c, evs), x, y, z);
    more := evs + [BlockTo(r, b)];
    CleanBlock(c, evs, r, y.votes, z.votes, b);
    BlockStep(c, evs, r, k, b);
  }

  lemma Wait(c: Setup, evs: seq<Event>, r: Node, x: Sketch, y: Sketch, z: Sketch) returns (more: seq<Event>)
    requires 1 <= r <= 3 && Are(Run(c, evs), x, y, z) && Clean(c, evs)
    ensures Clean(c, more)
    ensures var k := Of(r, x, y, z);
            var (x', y', z') := Put(r, x, y, z, k.(view := k.view + 1)); Are(Run(c, more), x', y', z')
  {
    hide Run, Looks, AllGenuine, OwnNames, OnLocalTmo, Filed, Elect;
    var k := Of(r, x, y, z);
    var ev := TimeoutAt(r);
    more := evs + [ev];
    RunSnoc(c, evs, ev);
    CleanMore(c, evs, ev);
    LooksFiled(Run(c, evs)[r], r, k);
    TimeoutLooks(Run(c, evs)[r], r, k);
  }

  /** The faulty replica sends a certificate that locks. */
  lemma Send(c: Setup, evs: seq<Event>, r: Node, x: Sketch, y: Sketch, z: Sketch, qc: QC) returns (more: seq<Event>)
    requires IsFour(c) && 1 <= r <= 3 && Are(Run(c, evs), x, y, z) && Clean(c, evs)
    requires Foreign(qc) && LocksOnly(Of(r, x, y, z), qc) && Backs(c.w, y.votes, z.votes, qc)
    ensures Clean(c, more)
    ensures var (x', y', z') := Put(r, x, y, z, Vet(Of(r, x, y, z), qc)); Are(Run(c, more), x', y', z')
  {
    hide Run, Looks, Clean, OnTmo, Filed, Backs, Vet, LocksOnly;
    var k := Of(r, x, y, z);
    AreVotes(Run(c, evs), x, y, z);
    more := evs + [Showing(r, qc)];
    CleanTmo(c, evs, r, y.votes, z.votes, qc);
    RunSnoc(c, evs, Showing(r, qc));
    LooksFiled(Run(c, evs)[r], r, k);
    MessageLooks(Run(c, evs)[r], r, k, qc);
  }

  /** Everyone is handed a block. */
  lemma HandAll(c: Setup, evs: seq<Event>, k: Sketch, b: Block, l: Sketch) returns (more: seq<Event>)
    requires IsFour(c) && Are(Run(c, evs), k, k, k) && Next(c.w, k, b, l)
    requires Backs(c.w, k.votes, k.votes, b.qc) && Clean(c, evs)
    ensures Are(Run(c, more), l, l, l) && Clean(c, more)
  {
    NextVotes(c.w, k, b, l);
    BacksLonger(c.w, k.votes, k.votes, l.votes, k.votes, b.qc);
    hide Run, Are, Next, Clean, Backs;
    more := Hand(c, evs, 1, k, k, k, b, l);
    more := Hand(c, more, 2, l, k, k, b, l);
    more := Hand(c, more, 3, l, l, k, b, l);
  }

  /** Replicas 2 and 3 are handed a block. */
  lemma HandPair(c: Setup, evs: seq<Event>, x: Sketch, k: Sketch, b: Block, l: Sketch) returns (more: seq<Event>)
    requires IsFour(c) && Are(Run(c, evs), x, k, k) && Next(c.w, k, b, l)
    requires Backs(c.w, k.votes, k.votes, b.qc) && Clean(c, evs)
    ensures Are(Run(c, more), x, l, l) && Clean(c, more)
  {
    NextVotes(c.w, k, b, l);
    BacksLonger(c.w, k.votes, k.votes, l.votes, k.votes, b.qc);
    hide Run, Are, Next, Clean, Backs;
    more := Hand(c, evs, 2, x, k, k, b, l);
    more := Hand(c, more, 3, x, l, k, b, l);
  }

  lemma WaitPair(c: Setup, evs: seq<Event>, x: Sketch, k: Sketch) returns (more: seq<Event>)
    requires Are(Run(c, evs), x, k, k) && Clean(c, evs)
    ensures var l := k.(view := k.view + 1); Are(Run(c, more), x, l, l) && Clean(c, more)
  {
    hide Run, Are, Clean;
    more := Wait(c, evs, 2, x, k, k);
    more := Wait(c, more, 3, x, k.(view := k.view + 1), k);
  }

  lemma WaitAll(c: Setup, evs: seq<Event>, k: Sketch) returns (more: seq<Event>)
    requires Are(Run(c, evs), k, k, k) && Clean(c, evs)
    ensures var l := k.(view := k.view + 1); Are(Run(c, more), l, l, l) && Clean(c, more)
  {
    hide Run, Are, Clean;
    var l := k.(view := k.view + 1);
    more := Wait(c, evs, 1, k, k, k);
    more := Wait(c, more, 2, l, k, k);
    more := Wait(c, more, 3, l, l, k);
  }

  const START := Sketch(0, 0, map[], [])

  lemma FreshLooks(r: Node)
    requires 1 <= r <= 3
    ensures Looks(Fresh(r, 4, Leader), r, START)
  {
    EmptyDrawn();
    hide Drawn;
  }

  lemma StartLooks(w: World)
    ensures Are(Run(Four(w), []), START, START, START)
  {
    var g := Run(Four(w), []);
    assert Nodes(4) - {4} == {1, 2, 3};
    FreshLooks(1);
    FreshLooks(2);
    FreshLooks(3);
    hide Looks, Fresh;
    assert g[1] == Fresh(1, 4, Leader) && g[2] == Fresh(2, 4, Leader) && g[3] == Fresh(3, 4, Leader);
  }

  // ---------------------------------------------------------------- the end of a run

  lemma CommitAt(c: Setup, evs: seq<Event>, r: Node, k: Sketch, qc: QC, b: Block) returns (t: Replica)
    requires r in Run(c, evs) && Looks(Run(c, evs)[r], r, k) && Ripe(k, r, qc, b)
    ensures Run(c, evs + [Showing(r, qc)]) == Run(c, evs)[r := t] && Done(t, k.votes, b, qc)
  {
    hide Looks, Run, OnTmo, Ripe, Filed, Done;
    RunSnoc(c, evs, Showing(r, qc));
    LooksFiled(Run(c, evs)[r], r, k);
    CommitLooks(Run(c, evs)[r], r, k, qc, b);
    t := OnTmo(Run(c, evs)[r], Tmo(qc.view + 1, 4, qc));
  }

  /** Replica 1 committed `a` on `p` and replica 2 committed `b` on `q`; these are all the votes. */
  ghost predicate Ended(g: Network, a: Block, p: QC, b: Block, q: QC, v1: seq<Ballot>, v2: seq<Ballot>) {
    && g.Keys == {1, 2, 3} && Done(g[1], v1, a, p) && Done(g[2], v2, b, q)
    && g[3].journal == v2 && g[3].decisions == []
  }

  /** First replica 2 commits and then replica 1. */
  lemma ShowBoth(c: Setup, evs: seq<Event>, x: Sketch, y: Sketch, p: QC, a: Block, q: QC, b: Block)
    returns (mid: seq<Event>)
    requires IsFour(c) && Are(Run(c, evs), x, y, y) && Clean(c, evs) && Ripe(x, 1, p, a) && Ripe(y, 2, q, b)
    requires Foreign(q) && Backs(c.w, y.votes, y.votes, q)
    ensures Clean(c, mid) && Voted(Run(c, mid), x.votes, y.votes, y.votes)
    ensures Ended(Run(c, mid + [Showing(1, p)]), a, p, b, q, x.votes, y.votes)
  {
    hide Run, Looks, Ripe, Clean, Backs, Showing;
    AreVotes(Run(c, evs), x, y, y);
    mid := evs + [Showing(2, q)];
    CleanTmo(c, evs, 2, y.votes, y.votes, q);
    var t := CommitAt(c, evs, 2, y, q, b);
    assert Run(c, mid)[1] == Run(c, evs)[1];
    var u := CommitAt(c, mid, 1, x, p, a);
  }

  /** The certificate that replica 1 is shown is backed, too. */
  lemma ShowBacked(c: Setup, evs: seq<Event>, x: Sketch, y: Sketch, p: QC, a: Block, q: QC, b: Block)
    returns (more: seq<Event>)
    requires IsFour(c) && Are(Run(c, evs), x, y, y) && Clean(c, evs) && Ripe(x, 1, p, a) && Ripe(y, 2, q, b)
    requires Foreign(q) && Backs(c.w, y.votes, y.votes, q) && Foreign(p) && Backs(c.w, y.votes, y.votes, p)
    ensures Clean(c, more) && Ended(Run(c, more), a, p, b, q, x.votes, y.votes)
  {
    hide Run, Are, Ripe, Backs, Ended, Clean;
    var mid := ShowBoth(c, evs, x, y, p, a, q, b);
    CleanTmo(c, mid, 1, y.votes, y.votes, p);
    more := mid + [Showing(1, p)];
  }

  ghost predicate AllLocked(w: World, votes: seq<Ballot>) {
    forall i :: 0 <= i < |votes| ==> Locked(w, votes[i])
  }

  lemma LockedVotes(c: Setup, g: Network, v1: seq<Ballot>, v2: seq<Ballot>)
    requires Voted(g, v1, v2, v2) && AllLocked(c.w, v1) && AllLocked(c.w, v2)
    ensures VotesLocked(c, g)
  {
    hide Locked;
  }

  lemma EndedVoted(g: Network, a: Block, p: QC, b: Block, q: QC, v1: seq<Ballot>, v2: seq<Ballot>)
    requires Ended(g, a, p, b, q, v1, v2)
    ensures Voted(g, v1, v2, v2) && CommittedAt(g, 1, a) && CommittedAt(g, 2, b)
  {
  }

  lemma EndedCertified(c: Setup, g: Network, a: Block, p: QC, b: Block, q: QC, v1: seq<Ballot>, v2: seq<Ballot>)
    requires IsFour(c) && Ended(g, a, p, b, q, v1, v2) && VotedFor(v2, p.blockId) && VotedFor(v2, q.blockId)
    requires p.blockId in c.w && q.blockId in c.w
    ensures forall r, k :: r in g && 0 <= k < |g[r].decisions| ==>
              Certified(Elect(c, g), g[r].decisions[k].qc.blockId)
    ensures p.view == c.w[p.blockId].view && q.view == c.w[q.blockId].view ==> CommitsCertified(c, g)
  {
    hide VotedFor, Certified, IsQuorum;
    BothCertify(c, g, p.blockId);
    BothCertify(c, g, q.blockId);
    assert forall r, k :: r in g && 0 <= k < |g[r].decisions| ==>
             g[r].decisions[k] == Decided(a, p) || g[r].decisions[k] == Decided(b, q);
  }

  /** A run that splits the chain is not disciplined. */
  lemma SplitUndisciplined(c: Setup, evs: seq<Event>)
    requires Proper(c) && Split(c, Run(c, evs))
    ensures !Disciplined(c, Run(c, evs))
  {
    hide Run, Disciplined, OnOneChain;
    var g := Run(c, evs);
    var r, i, q, j :| r in g && q in g && 0 <= i < |g[r].committed| && 0 <= j < |g[q].committed|
                      && !OnOneChain(c.w, g[r].committed[i].id, g[q].committed[j].id);
    if Disciplined(c, g) {
      Agreement(c, evs, r, i, q, j);
    }
  }

  // ---------------------------------------------------------------- two votes in one view

  lemma ForkedIsProper()
    ensures Proper(Four(FORKED)) && !OnOneChain(FORKED, 1, 11)
  {
    FourIsProper();
    ForkedIsOrdered();
    hide FORKED, Ordered, OnOneChain;
  }

  const TWICE: seq<Ballot> :=
    [Ballot(1, 1, 0), Ballot(1, 11, 0), Ballot(2, 2, 0), Ballot(2, 12, 0), Ballot(3, 3, 0), Ballot(3, 13, 0)]

  // What everyone looks like after each block.
  const S1 := Sketch(1, 0, map[1 := A1], TWICE[..1])
  const S2 := Sketch(1, 0, map[1 := A1, 11 := B1], TWICE[..2])
  const S3 := Sketch(2, 0, map[1 := A1, 11 := B1, 2 := A2], TWICE[..3])
  const S4 := Sketch(2, 0, map[1 := A1, 11 := B1, 2 := A2, 12 := B2], TWICE[..4])
  const S5 := Sketch(3, 0, map[1 := A1, 11 := B1, 2 := A2, 12 := B2, 3 := A3], TWICE[..5])
  const S6 := Sketch(3, 0, map[1 := A1, 11 := B1, 2 := A2, 12 := B2, 3 := A3, 13 := B3], TWICE)

  lemma FirstSketches()
    ensures Next(FORKED, START, A1, S1) && Next(FORKED, S1, B1, S2) && Next(FORKED, S2, A2, S3)
  {
    ForkedTable();
    hide FORKED;
  }

  lemma SecondSketches()
    ensures Next(FORKED, S3, B2, S4) && Next(FORKED, S4, A3, S5) && Next(FORKED, S5, B3, S6)
  {
    ForkedTable();
    hide FORKED;
  }

  lemma ForkedBacks()
    ensures Backs(FORKED, [], [], A1.qc) && Backs(FORKED, S1.votes, S1.votes, B1.qc)
    ensures Backs(FORKED, S2.votes, S2.votes, A2.qc) && Backs(FORKED, S3.votes, S3.votes, B2.qc)
    ensures Backs(FORKED, S4.votes, S4.votes, A3.qc) && Backs(FORKED, S5.votes, S5.votes, B3.qc)
    ensures Backs(FORKED, TWICE, TWICE, Cert(3, 3)) && Backs(FORKED, TWICE, TWICE, Cert(3, 13))
  {
    ForkedTable();
    VotedAt(TWICE, 2, 0);
    VotedAt(TWICE, 3, 1);
    VotedAt(TWICE, 4, 2);
    VotedAt(TWICE, 5, 3);
    VotedAt(TWICE, 6, 4);
    VotedAt(TWICE, 6, 5);
    assert TWICE[..6] == TWICE;
    hide FORKED, VotedFor;
  }

  lemma ForkedRipe()
    ensures Ripe(S6, 1, Cert(3, 3), A1) && Ripe(S6, 2, Cert(3, 13), B1)
  {
  }

  lemma TwiceLocked()
    ensures AllLocked(FORKED, TWICE)
  {
    ForkedTable();
    hide FORKED;
  }

  lemma TwiceCovered()
    ensures Covered(FORKED, TWICE, TWICE, TWICE) && !InOrder(TWICE)
    ensures VotedFor(TWICE, 3) && VotedFor(TWICE, 13)
  {
    ForkedTable();
    VotedThere(TWICE);
    assert VotedFor(TWICE, TWICE[0].id) && VotedFor(TWICE, TWICE[1].id) && VotedFor(TWICE, TWICE[2].id);
    assert VotedFor(TWICE, TWICE[3].id) && VotedFor(TWICE, TWICE[4].id) && VotedFor(TWICE, TWICE[5].id);
    assert TWICE[0].view == TWICE[1].view && TWICE[0].id != TWICE[1].id;
    hide FORKED, VotedFor;
  }

  /** Everyone votes for both blocks of views 1 to 3. */
  lemma ForkedRun(c: Setup) returns (evs: seq<Event>)
    requires c == Four(FORKED)
    ensures Are(Run(c, evs), S6, S6, S6) && Clean(c, evs)
  {
    StartLooks(FORKED);
    FirstSketches();
    SecondSketches();
    ForkedBacks();
    EmptyClean(c);
    hide Next, Run, Are, FORKED, Clean, Backs;
    evs := HandAll(c, [], START, A1, S1);
    evs := HandAll(c, evs, S1, B1, S2);
    evs := HandAll(c, evs, S2, A2, S3);
    evs := HandAll(c, evs, S3, B2, S4);
    evs := HandAll(c, evs, S4, A3, S5);
    evs := HandAll(c, evs, S5, B3, S6);
  }

  lemma ForkedEnd(c: Setup) returns (evs: seq<Event>)
    requires c == Four(FORKED)
    ensures Clean(c, evs) && Ended(Run(c, evs), A1, Cert(3, 3), B1, Cert(3, 13), TWICE, TWICE)
  {
    ForkedRipe();
    ForkedBacks();
    hide Run, Are, FORKED, Clean, Backs, Ripe, Ended;
    evs := ForkedRun(c);
    evs := ShowBacked(c, evs, S6, S6, Cert(3, 3), A1, Cert(3, 13), B1);
  }

  /** Votes in order cannot be dropped: replicas vote twice in a view. */
  lemma OrderIsNeeded() returns (c: Setup, evs: seq<Event>)
    ensures Proper(c) && AllGenuine(c, evs) && OwnNames(c, evs) && Split(c, Run(c, evs)) && !VotesInOrder(Run(c, evs))
    ensures VotesLocked(c, Run(c, evs)) && VotesJustified(c, Run(c, evs)) && CommitsCertified(c, Run(c, evs))
  {
    c := Four(FORKED);
    ForkedIsProper();
    TwiceLocked();
    TwiceCovered();
    ForkedTable();
    hide Run, Ordered, InOrder, OnOneChain, AllLocked, Covered, AllGenuine, OwnNames, TWICE, FORKED, Ended, VotedFor;
    evs := ForkedEnd(c);
    EndedVoted(Run(c, evs), A1, Cert(3, 3), B1, Cert(3, 13), TWICE, TWICE);
    SplitBy(c, Run(c, evs), 1, A1, 2, B1);
    LockedVotes(c, Run(c, evs), TWICE, TWICE);
    VotesCovered(c, Run(c, evs), TWICE, TWICE, TWICE);
    EndedCertified(c, Run(c, evs), A1, Cert(3, 3), B1, Cert(3, 13), TWICE, TWICE);
  }

  // ---------------------------------------------------------------- one world for the other runs

  const R1 := Made(1, 1, GENESIS_QC)
  const P3 := Made(3, 3, Cert(1, 1))
  const P4 := Made(4, 4, Cert(3, 3))
  const P5 := Made(5, 5, Cert(4, 4))
  const X6 := Made(6, 6, Cert(1, 1))
  const X7 := Made(7, 7, Cert(6, 6))
  const X8 := Made(8, 8, Cert(7, 7))
  const Y5 := Made(15, 5, Cert(1, 1))
  const P6 := Made(16, 6, Cert(4, 4))
  const Y7 := Made(17, 7, Cert(5, 15))
  const Y8 := Made(18, 8, Cert(7, 17))
  const Y9 := Made(19, 9, Cert(8, 18))
  const LURE := Made(20, 13, Bad(100, 1))

  const STRAND: World :=
    map[1 := R1, 3 := P3, 4 := P4, 5 := P5, 6 := X6, 7 := X7, 8 := X8,
        15 := Y5, 16 := P6, 17 := Y7, 18 := Y8, 19 := Y9, 20 := LURE]

  lemma FirstTable()
    ensures 1 in STRAND && STRAND[1].view == 1 && STRAND[1].prevId == GENESIS && GENESIS !in STRAND
    ensures 3 in STRAND && STRAND[3].view == 3 && STRAND[3].prevId == 1
    ensures 4 in STRAND && STRAND[4].view == 4 && STRAND[4].prevId == 3
    ensures 5 in STRAND && STRAND[5].view == 5 && STRAND[5].prevId == 4
    ensures 6 in STRAND && STRAND[6].view == 6 && STRAND[6].prevId == 1
    ensures 7 in STRAND && STRAND[7].view == 7 && STRAND[7].prevId == 6
    ensures 8 in STRAND && STRAND[8].view == 8 && STRAND[8].prevId == 7
  {
  }

  lemma SecondTable()
    ensures 15 in STRAND && STRAND[15].view == 5 && STRAND[15].prevId == 1
    ensures 16 in STRAND && STRAND[16].view == 6 && STRAND[16].prevId == 4
    ensures 17 in STRAND && STRAND[17].view == 7 && STRAND[17].prevId == 15
    ensures 18 in STRAND && STRAND[18].view == 8 && STRAND[18].prevId == 17
    ensures 19 in STRAND && STRAND[19].view == 9 && STRAND[19].prevId == 18
    ensures 20 in STRAND && STRAND[20].view == 13 && STRAND[20].prevId == 1
    ensures forall id :: id in STRAND ==> STRAND[id].id == id && id in {1, 3, 4, 5, 6, 7, 8, 15, 16, 17, 18, 19, 20}
  {
  }

  lemma StrandIsOrdered()
    ensures Ordered(STRAND)
  {
    FirstTable();
    SecondTable();
    hide STRAND;
  }

  lemma StrandIsProper()
    ensures Proper(Four(STRAND)) && !OnOneChain(STRAND, 3, 6) && !OnOneChain(STRAND, 3, 17)
  {
    FourIsProper();
    StrandIsOrdered();
    FirstTable();
    SecondTable();
    hide STRAND, Ordered;
    TwoBranches(STRAND, 1, 3, 6);
    TwoBranches(STRAND, 1, 3, 15);
    assert !Descends(STRAND, 15, 3) && !Descends(STRAND, 3, 17) && !Descends(STRAND, 1, 17);
  }

  const TRUNK: seq<Ballot> := [Ballot(1, 1, 0), Ballot(3, 3, 0), Ballot(4, 4, 1), Ballot(5, 5, 3)]

  const K1 := Sketch(1, 0, map[1 := R1], TRUNK[..1])
  const K2 := Sketch(3, 0, map[1 := R1, 3 := P3], TRUNK[..2])
  const K3 := Sketch(4, 1, map[1 := R1, 3 := P3, 4 := P4], TRUNK[..3])
  const K4 := Sketch(5, 3, map[1 := R1, 3 := P3, 4 := P4, 5 := P5], TRUNK)

  lemma TrunkSketches()
    ensures Next(STRAND, START, R1, K1) && Next(STRAND, K1.(view := 3), P3, K2)
    ensures Next(STRAND, K2, P4, K3) && Next(STRAND, K3, P5, K4)
  {
    FirstTable();
    hide STRAND;
  }

  lemma TrunkBacks()
    ensures Backs(STRAND, START.votes, START.votes, R1.qc) && Backs(STRAND, K1.votes, K1.votes, P3.qc)
    ensures Backs(STRAND, K2.votes, K2.votes, P4.qc) && Backs(STRAND, K3.votes, K3.votes, P5.qc)
    ensures Backs(STRAND, TRUNK, TRUNK, Cert(5, 5)) && Backs(STRAND, TRUNK, TRUNK, Cert(1, 1))
  {
    FirstTable();
    VotedAt(TRUNK, 1, 0);
    VotedAt(TRUNK, 2, 1);
    VotedAt(TRUNK, 3, 2);
    VotedAt(TRUNK, 4, 3);
    VotedAt(TRUNK, 4, 0);
    assert TRUNK[..4] == TRUNK;
    hide STRAND, VotedFor;
  }

  /** Three blocks for everyone; two views pass without a block. */
  lemma TrunkRun(c: Setup) returns (evs: seq<Event>)
    requires c == Four(STRAND)
    ensures Are(Run(c, evs), K3, K3, K3) && Clean(c, evs)
  {
    StartLooks(STRAND);
    TrunkSketches();
    TrunkBacks();
    EmptyClean(c);
    hide Next, Run, Are, STRAND, Clean, Backs;
    evs := HandAll(c, [], START, R1, K1);
    evs := WaitAll(c, evs, K1);
    evs := WaitAll(c, evs, K1.(view := 2));
    evs := HandAll(c, evs, K1.(view := 3), P3, K2);
    evs := HandAll(c, evs, K2, P4, K3);
  }

  lemma TrunkOrder()
    ensures InOrder(TRUNK)
  {
  }

  lemma TrunkLocked()
    ensures AllLocked(STRAND, TRUNK)
  {
    FirstTable();
    hide STRAND;
  }

  lemma TrunkCovered()
    ensures Covered(STRAND, TRUNK, TRUNK, TRUNK) && VotedFor(TRUNK, 5)
  {
    FirstTable();
    VotedThere(TRUNK);
    assert VotedFor(TRUNK, TRUNK[0].id) && VotedFor(TRUNK, TRUNK[1].id) && VotedFor(TRUNK, TRUNK[2].id);
    assert VotedFor(TRUNK, TRUNK[3].id);
    hide STRAND, VotedFor;
  }

  lemma TrunkRipe(r: Node)
    ensures Ripe(K4, r, Cert(5, 5), P3)
  {
  }

  lemma OrderlyRun(c: Setup) returns (evs: seq<Event>)
    requires c == Four(STRAND)
    ensures Clean(c, evs) && Ended(Run(c, evs), P3, Cert(5, 5), P3, Cert(5, 5), TRUNK, TRUNK)
  {
    TrunkSketches();
    TrunkBacks();
    TrunkRipe(1);
    TrunkRipe(2);
    hide Next, Run, Are, STRAND, Clean, Backs, Ripe, Ended;
    evs := TrunkRun(c);
    evs := HandAll(c, evs, K3, P5, K4);
    evs := ShowBacked(c, evs, K4, K4, Cert(5, 5), P3, Cert(5, 5), P3);
  }

  /** All conditions can hold in a run that commits. */
  lemma OrderlyRunCommits() returns (c: Setup, evs: seq<Event>)
    ensures Proper(c) && AllGenuine(c, evs) && OwnNames(c, evs)
    ensures Disciplined(c, Run(c, evs)) && CommittedAt(Run(c, evs), 1, P3)
  {
    c := Four(STRAND);
    StrandIsProper();
    TrunkOrder();
    TrunkLocked();
    TrunkCovered();
    FirstTable();
    hide Run, Ordered, InOrder, AllLocked, Covered, AllGenuine, OwnNames, STRAND, TRUNK, Ended, VotedFor, OnOneChain;
    evs := OrderlyRun(c);
    EndedVoted(Run(c, evs), P3, Cert(5, 5), P3, Cert(5, 5), TRUNK, TRUNK);
    OrderedVotes(Run(c, evs), TRUNK, TRUNK, TRUNK);
    LockedVotes(c, Run(c, evs), TRUNK, TRUNK);
    VotesCovered(c, Run(c, evs), TRUNK, TRUNK, TRUNK);
    EndedCertified(c, Run(c, evs), P3, Cert(5, 5), P3, Cert(5, 5), TRUNK, TRUNK);
  }

  // ---------------------------------------------------------------- votes without the lock

  const LOOSE: seq<Ballot> :=
    [Ballot(1, 1, 0), Ballot(3, 3, 0), Ballot(4, 4, 1), Ballot(5, 5, 1), Ballot(6, 6, 1), Ballot(7, 7, 1),
     Ballot(8, 8, 6)]

  const M4 := Sketch(5, 1, map[1 := R1, 3 := P3, 4 := P4, 5 := P5], LOOSE[..4])
  const M5 := Sketch(5, 1, map[1 := R1, 3 := P3, 4 := P4, 5 := P5, 6 := X6], LOOSE[..5])
  const M6 := Sketch(7, 1, map[1 := R1, 3 := P3, 4 := P4, 5 := P5, 6 := X6, 7 := X7], LOOSE[..6])
  const M7 := Sketch(8, 6, map[1 := R1, 3 := P3, 4 := P4, 5 := P5, 6 := X6, 7 := X7, 8 := X8], LOOSE)

  lemma LooseSketches()
    ensures Next(STRAND, K3.(view := 5), P5, M4) && Next(STRAND, M4, X6, M5)
    ensures Next(STRAND, M5.(view := 6), X7, M6) && Next(STRAND, M6, X8, M7)
  {
    FirstTable();
    assert TRUNK[..3] == LOOSE[..3];
    hide STRAND;
  }

  lemma LooseBacks()
    ensures Backs(STRAND, M4.votes, M4.votes, X6.qc) && Backs(STRAND, M5.votes, M5.votes, X7.qc)
    ensures Backs(STRAND, M6.votes, M6.votes, X8.qc)
    ensures Backs(STRAND, LOOSE, LOOSE, Cert(8, 8)) && Backs(STRAND, LOOSE, LOOSE, Cert(5, 5))
  {
    FirstTable();
    VotedAt(LOOSE, 4, 0);
    VotedAt(LOOSE, 5, 4);
    VotedAt(LOOSE, 6, 5);
    VotedAt(LOOSE, 7, 6);
    VotedAt(LOOSE, 7, 3);
    assert LOOSE[..7] == LOOSE;
    hide STRAND, VotedFor;
  }

  lemma LooseRipe()
    ensures Ripe(M4, 1, Cert(5, 5), P3) && Ripe(M7, 2, Cert(8, 8), X6)
  {
  }

  lemma LooseOrder()
    ensures InOrder(LOOSE) && InOrder(LOOSE[..4])
  {
  }

  lemma LooseCovered()
    ensures Covered(STRAND, LOOSE, LOOSE, LOOSE) && VotedFor(LOOSE, 5) && VotedFor(LOOSE, 8)
  {
    FirstTable();
    VotedThere(LOOSE);
    assert VotedFor(LOOSE, LOOSE[0].id) && VotedFor(LOOSE, LOOSE[1].id) && VotedFor(LOOSE, LOOSE[2].id);
    assert VotedFor(LOOSE, LOOSE[3].id) && VotedFor(LOOSE, LOOSE[4].id) && VotedFor(LOOSE, LOOSE[5].id);
    assert VotedFor(LOOSE, LOOSE[6].id);
    hide STRAND, VotedFor;
  }

  lemma CoveredPrefix(w: World, votes: seq<Ballot>, n: nat, u: seq<Ballot>)
    requires n <= |votes| && Covered(w, votes, u, u)
    ensures Covered(w, votes[..n], u, u)
  {
    hide CoveredBlock;
  }

  /** Everyone times out and then votes for the fourth block without having processed its certificate; replicas 2 and 3
      go on with a branch that leaves it out. */
  lemma LooseRun(c: Setup) returns (evs: seq<Event>)
    requires c == Four(STRAND)
    ensures Are(Run(c, evs), M4, M7, M7) && Clean(c, evs)
  {
    LooseSketches();
    LooseBacks();
    TrunkBacks();
    hide Next, Run, Are, STRAND, Clean, Backs;
    evs := TrunkRun(c);
    evs := WaitAll(c, evs, K3);
    evs := HandAll(c, evs, K3.(view := 5), P5, M4);
    evs := HandPair(c, evs, M4, M4, X6, M5);
    evs := WaitPair(c, evs, M4, M5);
    evs := HandPair(c, evs, M4, M5.(view := 6), X7, M6);
    evs := HandPair(c, evs, M4, M6, X8, M7);
  }

  lemma LooseEnd(c: Setup) returns (evs: seq<Event>)
    requires c == Four(STRAND)
    ensures Clean(c, evs) && Ended(Run(c, evs), P3, Cert(5, 5), X6, Cert(8, 8), LOOSE[..4], LOOSE)
  {
    LooseRipe();
    LooseBacks();
    hide Run, Are, STRAND, Clean, Backs, Ripe, Ended;
    evs := LooseRun(c);
    evs := ShowBacked(c, evs, M4, M7, Cert(5, 5), P3, Cert(8, 8), X6);
  }

  /** The lock cannot be dropped: a certificate older than the current view is skipped and does not lock. */
  lemma LockIsNeeded() returns (c: Setup, evs: seq<Event>)
    ensures Proper(c) && AllGenuine(c, evs) && OwnNames(c, evs) && Split(c, Run(c, evs)) && !VotesLocked(c, Run(c, evs))
    ensures VotesInOrder(Run(c, evs)) && VotesJustified(c, Run(c, evs)) && CommitsCertified(c, Run(c, evs))
  {
    c := Four(STRAND);
    StrandIsProper();
    LooseOrder();
    LooseCovered();
    CoveredPrefix(STRAND, LOOSE, 4, LOOSE);
    FirstTable();
    hide Run, Ordered, InOrder, Covered, AllGenuine, OwnNames, STRAND, LOOSE, Ended, VotedFor, OnOneChain;
    evs := LooseEnd(c);
    EndedVoted(Run(c, evs), P3, Cert(5, 5), X6, Cert(8, 8), LOOSE[..4], LOOSE);
    OrderedVotes(Run(c, evs), LOOSE[..4], LOOSE, LOOSE);
    VotesCovered(c, Run(c, evs), LOOSE[..4], LOOSE, LOOSE);
    EndedCertified(c, Run(c, evs), P3, Cert(5, 5), X6, Cert(8, 8), LOOSE[..4], LOOSE);
    SplitBy(c, Run(c, evs), 1, P3, 2, X6);
    SplitUndisciplined(c, evs);
  }

  // ---------------------------------------------------------------- a vote on an unverified certificate

  const FORGED := X7.(qc := Bad(6, 6))

  const BLIND: seq<Ballot> :=
    [Ballot(1, 1, 0), Ballot(3, 3, 0), Ballot(4, 4, 1), Ballot(5, 5, 3), Ballot(7, 7, 3), Ballot(8, 8, 6)]

  const K5 := Sketch(5, 3, map[1 := R1, 3 := P3, 4 := P4, 5 := P5, 6 := X6], BLIND[..4])
  const K6 := Sketch(6, 3, map[1 := R1, 3 := P3, 4 := P4, 5 := P5, 6 := X6, 7 := FORGED], BLIND[..5])
  const K7 := Sketch(8, 6, map[1 := R1, 3 := P3, 4 := P4, 5 := P5, 6 := X6, 7 := FORGED, 8 := X8], BLIND)

  lemma ForgedSketches()
    ensures Next(STRAND, K4, X6, K5) && Next(STRAND, K5.(view := 6), FORGED, K6)
    ensures Next(STRAND, K6.(view := 7), X8, K7)
  {
    FirstTable();
    assert TRUNK == BLIND[..4];
    hide STRAND;
  }

  lemma ForgedBacks()
    ensures Backs(STRAND, K5.votes, K5.votes, FORGED.qc) && Backs(STRAND, K6.votes, K6.votes, X8.qc)
    ensures Backs(STRAND, BLIND, BLIND, Cert(8, 8)) && Backs(STRAND, BLIND, BLIND, Cert(5, 5))
    ensures VotedFor(BLIND, 5) && VotedFor(BLIND, 8)
  {
    FirstTable();
    VotedAt(BLIND, 5, 4);
    VotedAt(BLIND, 6, 5);
    VotedAt(BLIND, 6, 3);
    assert BLIND[..6] == BLIND;
    hide STRAND, VotedFor;
  }

  lemma ForgedRipe()
    ensures Ripe(K7, 2, Cert(8, 8), X6)
  {
  }

  lemma BlindOrder()
    ensures InOrder(BLIND)
  {
  }

  lemma BlindLocked()
    ensures AllLocked(STRAND, BLIND)
  {
    FirstTable();
    hide STRAND;
  }

  /** Everyone is locked on the first branch. Replicas 2 and 3 store a block of the other branch without voting for it,
      and vote for the block that a made-up certificate puts on top of it. */
  lemma ForgedRun(c: Setup) returns (evs: seq<Event>)
    requires c == Four(STRAND)
    ensures Are(Run(c, evs), K4, K7, K7) && Clean(c, evs)
  {
    TrunkSketches();
    ForgedSketches();
    TrunkBacks();
    ForgedBacks();
    hide Next, Run, Are, STRAND, Clean, Backs;
    evs := TrunkRun(c);
    evs := HandAll(c, evs, K3, P5, K4);
    evs := HandPair(c, evs, K4, K4, X6, K5);
    evs := WaitPair(c, evs, K4, K5);
    evs := HandPair(c, evs, K4, K5.(view := 6), FORGED, K6);
    evs := WaitPair(c, evs, K4, K6);
    evs := HandPair(c, evs, K4, K6.(view := 7), X8, K7);
  }

  lemma ForgedEnd(c: Setup) returns (evs: seq<Event>)
    requires c == Four(STRAND)
    ensures Clean(c, evs) && Ended(Run(c, evs), P3, Cert(5, 5), X6, Cert(8, 8), TRUNK, BLIND)
  {
    TrunkRipe(1);
    ForgedRipe();
    ForgedBacks();
    hide Run, Are, STRAND, Clean, Backs, Ripe, Ended;
    evs := ForgedRun(c);
    evs := ShowBacked(c, evs, K4, K7, Cert(5, 5), P3, Cert(8, 8), X6);
  }

  /** Certified parents cannot be dropped: a certificate that fails the signature check is set aside, and the block that
      carries it is voted for all the same. */
  lemma JustificationIsNeeded() returns (c: Setup, evs: seq<Event>)
    ensures Proper(c) && AllGenuine(c, evs) && OwnNames(c, evs)
    ensures Split(c, Run(c, evs)) && !VotesJustified(c, Run(c, evs))
    ensures VotesInOrder(Run(c, evs)) && VotesLocked(c, Run(c, evs)) && CommitsCertified(c, Run(c, evs))
  {
    c := Four(STRAND);
    StrandIsProper();
    TrunkOrder();
    TrunkLocked();
    BlindOrder();
    BlindLocked();
    ForgedBacks();
    FirstTable();
    hide Run, Ordered, InOrder, AllLocked, AllGenuine, OwnNames, STRAND, TRUNK, BLIND, Ended, VotedFor, OnOneChain,
         Backs;
    evs := ForgedEnd(c);
    EndedVoted(Run(c, evs), P3, Cert(5, 5), X6, Cert(8, 8), TRUNK, BLIND);
    OrderedVotes(Run(c, evs), TRUNK, BLIND, BLIND);
    LockedVotes(c, Run(c, evs), TRUNK, BLIND);
    EndedCertified(c, Run(c, evs), P3, Cert(5, 5), X6, Cert(8, 8), TRUNK, BLIND);
    SplitBy(c, Run(c, evs), 1, P3, 2, X6);
    SplitUndisciplined(c, evs);
  }

  // ---------------------------------------------------------------- commits without a quorum

  const OTHER: seq<Ballot> :=
    [Ballot(1, 1, 0), Ballot(3, 3, 0), Ballot(4, 4, 1), Ballot(6, 6, 1), Ballot(7, 7, 1), Ballot(8, 8, 6)]

  const L1 := Sketch(5, 1, map[1 := R1, 3 := P3, 4 := P4, 6 := X6], OTHER[..4])
  const L2 := Sketch(7, 1, map[1 := R1, 3 := P3, 4 := P4, 6 := X6, 7 := X7], OTHER[..5])
  const L3 := Sketch(8, 6, map[1 := R1, 3 := P3, 4 := P4, 6 := X6, 7 := X7, 8 := X8], OTHER)

  lemma OtherSketches()
    ensures Next(STRAND, K3.(view := 5), X6, L1) && Next(STRAND, L1.(view := 6), X7, L2)
    ensures Next(STRAND, L2, X8, L3)
  {
    FirstTable();
    assert TRUNK[..3] == OTHER[..3];
    hide STRAND;
  }

  lemma OtherBacks()
    ensures Backs(STRAND, K3.votes, K3.votes, X6.qc) && Backs(STRAND, L1.votes, L1.votes, X7.qc)
    ensures Backs(STRAND, L2.votes, L2.votes, X8.qc) && Backs(STRAND, OTHER, OTHER, Cert(8, 8))
  {
    FirstTable();
    VotedAt(TRUNK, 3, 0);
    VotedAt(OTHER, 4, 3);
    VotedAt(OTHER, 5, 4);
    VotedAt(OTHER, 6, 5);
    assert OTHER[..6] == OTHER;
    hide STRAND, VotedFor;
  }

  lemma OtherRipe(qc: QC)
    requires qc.view == 5 && qc.blockId == 5 && (qc.valid || qc.leader == 1)
    ensures Ripe(L3, 2, Cert(8, 8), X6) && Ripe(K4, 1, qc, P3)
  {
  }

  lemma OtherOrder()
    ensures InOrder(OTHER)
  {
  }

  lemma OtherLocked()
    ensures AllLocked(STRAND, OTHER)
  {
    FirstTable();
    hide STRAND;
  }

  lemma OtherCovered()
    ensures Covered(STRAND, OTHER, OTHER, OTHER) && Covered(STRAND, TRUNK, OTHER, OTHER)
  {
    FirstTable();
    VotedThere(OTHER);
    assert VotedFor(OTHER, OTHER[0].id) && VotedFor(OTHER, OTHER[1].id) && VotedFor(OTHER, OTHER[2].id);
    assert VotedFor(OTHER, OTHER[3].id) && VotedFor(OTHER, OTHER[4].id);
    hide STRAND, VotedFor;
  }

  /** Replica 1 alone gets the fourth block; the other two go on with the other branch. */
  lemma OtherRun(c: Setup) returns (evs: seq<Event>)
    requires c == Four(STRAND)
    ensures Are(Run(c, evs), K4, L3, L3) && Clean(c, evs)
  {
    TrunkSketches();
    OtherSketches();
    TrunkBacks();
    OtherBacks();
    hide Next, Run, Are, STRAND, Clean, Backs;
    evs := TrunkRun(c);
    evs := Hand(c, evs, 1, K3, K3, K3, P5, K4);
    evs := WaitPair(c, evs, K4, K3);
    evs := HandPair(c, evs, K4, K3.(view := 5), X6, L1);
    evs := WaitPair(c, evs, K4, L1);
    evs := HandPair(c, evs, K4, L1.(view := 6), X7, L2);
    evs := HandPair(c, evs, K4, L2, X8, L3);
  }

  /** Then it is shown a certificate for the fourth block, which nobody else voted for. */
  lemma OtherEnd(c: Setup, qc: QC) returns (mid: seq<Event>)
    requires c == Four(STRAND) && qc.view == 5 && qc.blockId == 5 && (qc.valid || qc.leader == 1)
    ensures Clean(c, mid) && Ended(Run(c, mid + [Showing(1, qc)]), P3, qc, X6, Cert(8, 8), TRUNK, OTHER)
  {
    OtherRipe(qc);
    OtherBacks();
    hide Run, Are, STRAND, Clean, Backs, Ripe, Ended;
    mid := OtherRun(c);
    mid := ShowBoth(c, mid, K4, L3, qc, P3, Cert(8, 8), X6);
  }

  /** Whichever certificate that is, the run splits the chain and meets the conditions on votes. */
  lemma OtherSplits(c: Setup, evs: seq<Event>, qc: QC)
    requires c == Four(STRAND) && Ended(Run(c, evs), P3, qc, X6, Cert(8, 8), TRUNK, OTHER)
    ensures Proper(c) && Split(c, Run(c, evs)) && !CommitsCertified(c, Run(c, evs))
    ensures VotesInOrder(Run(c, evs)) && VotesLocked(c, Run(c, evs)) && VotesJustified(c, Run(c, evs))
  {
    StrandIsProper();
    TrunkOrder();
    TrunkLocked();
    OtherOrder();
    OtherLocked();
    OtherCovered();
    hide Run, Ordered, InOrder, AllLocked, Covered, STRAND, TRUNK, OTHER, Ended, OnOneChain;
    EndedVoted(Run(c, evs), P3, qc, X6, Cert(8, 8), TRUNK, OTHER);
    OrderedVotes(Run(c, evs), TRUNK, OTHER, OTHER);
    LockedVotes(c, Run(c, evs), TRUNK, OTHER);
    VotesCovered(c, Run(c, evs), TRUNK, OTHER, OTHER);
    SplitBy(c, Run(c, evs), 1, P3, 2, X6);
    SplitUndisciplined(c, evs);
  }

  /** A certificate without signers passes the check. */
  const EMPTY_QC := QC(4, 5, 5, {}, true)

  /** Commits on certified blocks cannot be dropped: nobody forges anything, no message carries its recipient's name,
      and a certificate without signers makes a replica commit. */
  lemma CertifiedCommitsAreNeeded() returns (c: Setup, evs: seq<Event>)
    ensures Proper(c) && AllUnforged(c, evs) && OwnNames(c, evs)
    ensures Split(c, Run(c, evs)) && !CommitsCertified(c, Run(c, evs))
    ensures VotesInOrder(Run(c, evs)) && VotesLocked(c, Run(c, evs)) && VotesJustified(c, Run(c, evs))
  {
    c := Four(STRAND);
    hide Run, STRAND, TRUNK, OTHER, Ended, AllGenuine, OwnNames, AllUnforged, Elect, Proper, Split, CommitsCertified,
         VotesInOrder, VotesLocked, VotesJustified;
    var mid := OtherEnd(c, EMPTY_QC);
    evs := mid + [Showing(1, EMPTY_QC)];
    AllGenuineUnforged(c, mid);
    UnforgedMore(c, mid, Showing(1, EMPTY_QC));
    OtherSplits(c, evs, EMPTY_QC);
  }

  const OWN_QC := QC(1, 5, 5, {}, false)

  /** Nor does it help that certificates which pass the check are backed: one that names its recipient is not
      verified. */
  lemma OwnNamesAreNeeded() returns (c: Setup, evs: seq<Event>)
    ensures Proper(c) && AllGenuine(c, evs) && Split(c, Run(c, evs)) && !OwnNames(c, evs)
    ensures VotesInOrder(Run(c, evs)) && VotesLocked(c, Run(c, evs)) && VotesJustified(c, Run(c, evs))
  {
    c := Four(STRAND);
    hide Run, STRAND, TRUNK, OTHER, Ended, AllGenuine, OwnNames, Elect, Proper, Split, CommitsCertified,
         VotesInOrder, VotesLocked, VotesJustified;
    var mid := OtherEnd(c, OWN_QC);
    evs := mid + [Showing(1, OWN_QC)];
    CleanMore(c, mid, Showing(1, OWN_QC));
    OtherSplits(c, evs, OWN_QC);
    if OwnNames(c, evs) {
      BackedCommits(c, evs);
    }
  }

  // ---------------------------------------------------------------- a certificate with another view

  const LATE: seq<Ballot> :=
    [Ballot(1, 1, 0), Ballot(3, 3, 0), Ballot(4, 4, 1), Ballot(5, 15, 1), Ballot(6, 16, 3), Ballot(7, 17, 3),
     Ballot(8, 18, 5), Ballot(9, 19, 7)]
  const SHORT: seq<Ballot> := [Ballot(1, 1, 0), Ballot(3, 3, 0), Ballot(4, 4, 1), Ballot(6, 16, 3)]

  const N1 := Sketch(5, 3, map[1 := R1, 3 := P3, 4 := P4], TRUNK[..3])
  const N2 := Sketch(5, 3, map[1 := R1, 3 := P3, 4 := P4, 16 := P6], SHORT)
  const Q5 := Sketch(4, 1, map[1 := R1, 3 := P3, 4 := P4, 15 := Y5], LATE[..4])
  const Q6 := Sketch(5, 3, map[1 := R1, 3 := P3, 4 := P4, 15 := Y5, 16 := P6], LATE[..5])
  const Q7 := Sketch(6, 3, map[1 := R1, 3 := P3, 4 := P4, 15 := Y5, 16 := P6, 17 := Y7], LATE[..6])
  const Q8 := Sketch(8, 5, map[1 := R1, 3 := P3, 4 := P4, 15 := Y5, 16 := P6, 17 := Y7, 18 := Y8], LATE[..7])
  const Q9 := Sketch(9, 7, map[1 := R1, 3 := P3, 4 := P4, 15 := Y5, 16 := P6, 17 := Y7, 18 := Y8, 19 := Y9], LATE)

  lemma LateFirst()
    ensures Vet(K3, Cert(4, 4)) == N1 && LocksOnly(K3, Cert(4, 4)) && Next(STRAND, N1, P6, N2)
    ensures Next(STRAND, K3, Y5, Q5)
  {
    FirstTable();
    SecondTable();
    assert TRUNK[..3] == LATE[..3] && TRUNK[..3] == SHORT[..3];
    hide STRAND;
  }

  lemma LateSecond()
    ensures Vet(Q5, Cert(4, 4)) == Q5.(view := 5, pref := 3) && LocksOnly(Q5, Cert(4, 4))
    ensures Next(STRAND, Q5.(view := 5, pref := 3), P6, Q6)
  {
    FirstTable();
    SecondTable();
    hide STRAND;
  }

  lemma LateMore()
    ensures Next(STRAND, Q6.(view := 6), Y7, Q7) && Next(STRAND, Q7.(view := 7), Y8, Q8) && Next(STRAND, Q8, Y9, Q9)
  {
    FirstTable();
    SecondTable();
    hide STRAND;
  }

  lemma LateBacks()
    ensures Backs(STRAND, K3.votes, K3.votes, Cert(4, 4)) && Backs(STRAND, K3.votes, K3.votes, Y5.qc)
    ensures Backs(STRAND, Q5.votes, Q5.votes, Cert(4, 4)) && Backs(STRAND, Q6.votes, Q6.votes, Y7.qc)
    ensures Backs(STRAND, Q7.votes, Q7.votes, Y8.qc) && Backs(STRAND, Q8.votes, Q8.votes, Y9.qc)
    ensures Backs(STRAND, LATE, LATE, Cert(9, 19))
  {
    FirstTable();
    SecondTable();
    VotedAt(TRUNK, 3, 2);
    VotedAt(TRUNK, 3, 0);
    VotedAt(LATE, 4, 2);
    VotedAt(LATE, 5, 3);
    VotedAt(LATE, 6, 5);
    VotedAt(LATE, 7, 6);
    VotedAt(LATE, 8, 7);
    assert LATE[..8] == LATE;
    hide STRAND, VotedFor;
  }

  lemma LateRipe()
    ensures Ripe(N2, 1, Cert(5, 16), P3) && Ripe(Q9, 2, Cert(9, 19), Y7)
  {
  }

  lemma LateOrder()
    ensures InOrder(LATE) && InOrder(SHORT)
  {
  }

  lemma LateLocked()
    ensures AllLocked(STRAND, LATE) && AllLocked(STRAND, SHORT)
  {
    FirstTable();
    SecondTable();
    hide STRAND;
  }

  lemma LateVoted()
    ensures VotedFor(LATE, 1) && VotedFor(LATE, 3) && VotedFor(LATE, 4) && VotedFor(LATE, 15) && VotedFor(LATE, 16)
    ensures VotedFor(LATE, 17) && VotedFor(LATE, 18) && VotedFor(LATE, 19)
  {
    VotedThere(LATE);
    assert VotedFor(LATE, LATE[0].id) && VotedFor(LATE, LATE[1].id) && VotedFor(LATE, LATE[2].id);
    assert VotedFor(LATE, LATE[3].id) && VotedFor(LATE, LATE[4].id) && VotedFor(LATE, LATE[5].id);
    assert VotedFor(LATE, LATE[6].id) && VotedFor(LATE, LATE[7].id);
    hide VotedFor;
  }

  lemma LateCovered()
    ensures Covered(STRAND, LATE, LATE, LATE)
  {
    FirstTable();
    SecondTable();
    LateVoted();
    hide STRAND, VotedFor;
  }

  lemma ShortCovered()
    ensures Covered(STRAND, SHORT, LATE, LATE)
  {
    FirstTable();
    SecondTable();
    LateVoted();
    hide STRAND, VotedFor, LATE;
  }

  /** The block of view 6 extends that of view 4, and in between replicas 2 and 3 vote for a block of another branch. */
  lemma LateRun(c: Setup) returns (evs: seq<Event>)
    requires c == Four(STRAND)
    ensures Are(Run(c, evs), N2, Q9, Q9) && Clean(c, evs)
  {
    LateFirst();
    LateSecond();
    LateMore();
    LateBacks();
    hide Next, Run, Are, STRAND, Clean, Backs, LocksOnly, Vet;
    evs := TrunkRun(c);
    evs := Send(c, evs, 1, K3, K3, K3, Cert(4, 4));
    evs := Hand(c, evs, 1, N1, K3, K3, P6, N2);
    evs := HandPair(c, evs, N2, K3, Y5, Q5);
    evs := Send(c, evs, 2, N2, Q5, Q5, Cert(4, 4));
    evs := Send(c, evs, 3, N2, Q5.(view := 5, pref := 3), Q5, Cert(4, 4));
    evs := HandPair(c, evs, N2, Q5.(view := 5, pref := 3), P6, Q6);
    evs := WaitPair(c, evs, N2, Q6);
    evs := HandPair(c, evs, N2, Q6.(view := 6), Y7, Q7);
    evs := WaitPair(c, evs, N2, Q7);
    evs := HandPair(c, evs, N2, Q7.(view := 7), Y8, Q8);
    evs := HandPair(c, evs, N2, Q8, Y9, Q9);
  }

  lemma LateEnd(c: Setup) returns (mid: seq<Event>)
    requires c == Four(STRAND)
    ensures Clean(c, mid) && Voted(Run(c, mid), SHORT, LATE, LATE)
    ensures Ended(Run(c, mid + [Showing(1, Cert(5, 16))]), P3, Cert(5, 16), Y7, Cert(9, 19), SHORT, LATE)
  {
    LateRipe();
    LateBacks();
    hide Run, Are, STRAND, Clean, Backs, Ripe, Ended;
    mid := LateRun(c);
    mid := ShowBoth(c, mid, N2, Q9, Cert(5, 16), P3, Cert(9, 19), Y7);
  }

  lemma LateSigned(c: Setup, g: Network)
    requires IsFour(c) && Voted(g, SHORT, LATE, LATE) && VotedFor(LATE, 16)
    ensures Unforged(Elect(c, g), Showing(1, Cert(5, 16))) && OwnName(Elect(c, g), Showing(1, Cert(5, 16)))
  {
    hide VotedFor, SHORT, LATE;
    BothCertify(c, g, 16);
  }

  /** The view in the certificate matters, too: all commits are on certified blocks, nobody forges anything, and a
      certificate with another view than that of its block makes a replica commit across a gap. */
  lemma LabelsAreNeeded() returns (c: Setup, evs: seq<Event>)
    ensures Proper(c) && AllUnforged(c, evs) && OwnNames(c, evs)
    ensures Split(c, Run(c, evs)) && !CommitsCertified(c, Run(c, evs))
    ensures VotesInOrder(Run(c, evs)) && VotesLocked(c, Run(c, evs)) && VotesJustified(c, Run(c, evs))
    ensures var g := Run(c, evs);
            forall r, k :: r in g && 0 <= k < |g[r].decisions| ==>
              Certified(Elect(c, g), g[r].decisions[k].qc.blockId)
  {
    c := Four(STRAND);
    StrandIsProper();
    LateOrder();
    LateLocked();
    LateCovered();
    ShortCovered();
    LateVoted();
    SecondTable();
    hide Run, Ordered, InOrder, AllLocked, Covered, STRAND, SHORT, LATE, Ended, OnOneChain, VotedFor, Certified, Elect,
         AllGenuine, OwnNames, AllUnforged, Unforged, OwnName;
    var mid := LateEnd(c);
    evs := mid + [Showing(1, Cert(5, 16))];
    LateSigned(c, Run(c, mid));
    AllGenuineUnforged(c, mid);
    UnforgedMore(c, mid, Showing(1, Cert(5, 16)));
    EndedVoted(Run(c, evs), P3, Cert(5, 16), Y7, Cert(9, 19), SHORT, LATE);
    OrderedVotes(Run(c, evs), SHORT, LATE, LATE);
    LockedVotes(c, Run(c, evs), SHORT, LATE);
    VotesCovered(c, Run(c, evs), SHORT, LATE, LATE);
    EndedCertified(c, Run(c, evs), P3, Cert(5, 16), Y7, Cert(9, 19), SHORT, LATE);
    SplitBy(c, Run(c, evs), 1, P3, 2, Y7);
    SplitUndisciplined(c, evs);
  }

  // ---------------------------------------------------------------- a proposal on an unverified certificate

  /** A block whose certificate fails the check still leaves it as the highest certificate. */
  lemma MisledTakeUp(s: Replica, me: Node, k: Sketch, b: Block)
    requires Looks(s, me, k) && b.hasQC && k.view <= b.view <= k.view + 1 && b.proposer == 4 && b.view != 12
    requires Foreign(b.qc) && !b.qc.valid && b.qc.view > k.view && Joins(k.held, 0, b)
    ensures TakeUp(s, b) == (true, s.(highQC := b.qc, chain := s.chain.(forest := Add(s.chain.forest, b))))
  {
    hide Drawn, Add, Joins, Senders;
    var s1 := UpdateHighQC(s, b.qc);
    assert s1 == s.(highQC := b.qc) && OnCertificate(s1, b.qc) == s1;
  }

  lemma Misled(s: Replica, me: Node, k: Sketch, b: Block)
    requires Looks(s, me, k) && b.hasQC && k.view <= b.view <= k.view + 1 && b.proposer == 4 && b.view != 12
    requires Foreign(b.qc) && !b.qc.valid && b.qc.view > k.view && Joins(k.held, 0, b)
    requires b.view > 2 && b.prevId in k.held && k.held[b.prevId].view < k.pref
    ensures Filed(s.bufferedBlocks)
    ensures var t := OnBlock(s, b);
            && t.highQC == b.qc && t.preferredView == k.pref && t.lastVotedView == 0 && t.id == me && !t.halted
            && t.pm == s.pm && t.leaderOf == Leader && t.bufferedQCs == map[]
            && Drawn(t.chain.forest, k.held[b.id := b], 0)
  {
    MisledTakeUp(s, me, k, b);
    AddDrawn(s.chain.forest, k.held, 0, b);
    var t := s.(highQC := b.qc, chain := s.chain.(forest := Add(s.chain.forest, b)));
    HeldParent(t.chain.forest, k.held[b.id := b], b.id);
    hide TakeUp, Drawn, Add, Joins, Senders, GetParent;
    assert !VotingRule(t, b);
    assert OnOne(s, b) == (false, t);
  }

  lemma LureFits()
    ensures Joins(K4.held, 0, LURE) && Known(STRAND, LURE) && LURE.prevId in K4.held
    ensures K4.held[LURE.prevId].view == 1 && Foreign(LURE.qc)
    ensures 1 in K4.held[20 := LURE] && K4.held[20 := LURE][1].view == 1 && 30 !in K4.held[20 := LURE]
  {
    SecondTable();
    hide STRAND;
  }

  lemma HeldThere(f: Forest, held: map<Id, Block>, id: Id)
    requires Drawn(f, held, 0)
    ensures GetVertex(f, id) == if id in held then Some(held[id]) else None
  {
  }

  /** The leader stores its own proposal and does not vote for it, although its parent is held. */
  ghost predicate RefusesOwn(s: Replica, view: View, id: Id) {
    var b := Proposal(s, view, id);
    && GetVertex(s.chain.forest, b.prevId).Some? && TakeUp(s, b).0
    && OnOne(s, b).1.journal == s.journal
  }

  lemma LuredRefuses(s: Replica)
    requires Looks(s, 1, K4.(view := 12))
    ensures Filed(s.bufferedBlocks)
    ensures var t := OnBlock(s, LURE); t.pm.curView == 12 && t.leaderOf == Leader && RefusesOwn(t, 12, 30)
  {
    LureFits();
    LooksFiled(s, 1, K4.(view := 12));
    Misled(s, 1, K4.(view := 12), LURE);
    var t := OnBlock(s, LURE);
    HeldThere(t.chain.forest, K4.held[20 := LURE], 1);
    HeldThere(t.chain.forest, K4.held[20 := LURE], 30);
    assert t.chain.forest.lowest == 0 by { hide OnBlock; }
    hide OnBlock, Drawn, Looks, GetVertex, TakeUp, OnOne;
    HotStuffFacts.ProposalPassesIff(t, 12, 30);
  }

  /** Everyone is locked at view 3; replica 1 waits until view 12, which it leads. */
  lemma LureRun(c: Setup) returns (evs: seq<Event>)
    requires c == Four(STRAND)
    ensures Are(Run(c, evs), K4.(view := 12), K4, K4) && Clean(c, evs)
  {
    TrunkSketches();
    TrunkBacks();
    hide Next, Run, Are, STRAND, Clean, Backs;
    evs := TrunkRun(c);
    evs := HandAll(c, evs, K3, P5, K4);
    evs := Wait(c, evs, 1, K4, K4, K4);
    evs := Wait(c, evs, 1, K4.(view := 6), K4, K4);
    evs := Wait(c, evs, 1, K4.(view := 7), K4, K4);
    evs := Wait(c, evs, 1, K4.(view := 8), K4, K4);
    evs := Wait(c, evs, 1, K4.(view := 9), K4, K4);
    evs := Wait(c, evs, 1, K4.(view := 10), K4, K4);
    evs := Wait(c, evs, 1, K4.(view := 11), K4, K4);
  }

  /** The condition on the highest certificate is needed: a made-up one is kept without a check, and the block that a
      correct leader then proposes in its view fails the leader's own lock. */
  lemma UnverifiedProposalFails() returns (c: Setup, evs: seq<Event>)
    ensures Proper(c) && AllGenuine(c, evs) && OwnNames(c, evs)
    ensures 1 in Run(c, evs) && c.leaderOf(12) == 1 && Run(c, evs)[1].pm.curView == 12
    ensures RefusesOwn(Run(c, evs)[1], 12, 30)
  {
    c := Four(STRAND);
    StrandIsProper();
    LureFits();
    hide Run, Ordered, STRAND, Looks, AllGenuine, OwnNames, RefusesOwn, OnBlock, Filed, Elect, OnOneChain, Joins, K4;
    evs := LureRun(c);
    LuredRefuses(Run(c, evs)[1]);
    LooksFiled(Run(c, evs)[1], 1, K4.(view := 12));
    CleanMore(c, evs, BlockTo(1, LURE));
    RunSnoc(c, evs, BlockTo(1, LURE));
    evs := evs + [BlockTo(1, LURE)];
  }
}
