/** A network of Streamlet replicas: the shape of the notarized chain in every run, and agreement. */
module StreamletRuns {
  import opened Types
  import opened Tally
  import opened Quorums
  import opened Worlds
  import opened Safety
  import opened Outputs
  import opened HotStuffRuns
  import opened Streamlets
  import opened StreamletInvariant

  type Peers = map<Node, Peer>

  datatype PeerEvent = PeerEvent(node: Node, act: Act)

  ghost predicate Proper3(c: Setup) {
    c.faulty <= Nodes(c.n) && Ordered(c.w)
  }

  ghost function Start3(c: Setup): Peers {
    map r | r in Nodes(c.n) - c.faulty :: Begin(r, c.n, c.leaderOf)
  }

  ghost function Elect3(c: Setup, g: Peers): Electorate {
    Electorate(c.w, c.n, c.faulty, map r | r in g :: g[r].journal)
  }

  /** Any vote and any timeout message may be delivered, and any block of the world, with any certificate. */
  ghost predicate Enabled3(c: Setup, g: Peers, ev: PeerEvent) {
    ev.node in g && KnownAct(c.w, ev.act)
  }

  ghost function Step3(c: Setup, g: Peers, ev: PeerEvent): Peers {
    if Enabled3(c, g, ev) then g[ev.node := Perform(g[ev.node], ev.act)] else g
  }

  ghost function Run3(c: Setup, evs: seq<PeerEvent>): Peers {
    if evs == [] then Start3(c) else Step3(c, Run3(c, evs[..|evs| - 1]), evs[|evs| - 1])
  }

  // ---------------------------------------------------------------- whatever is delivered

  ghost predicate AllLight3(c: Setup, g: Peers) {
    && g.Keys == Nodes(c.n) - c.faulty
    && forall r :: r in g ==> g[r].id == r && g[r].chain.n == c.n && Light3(c.w, g[r])
  }

  lemma StepLight3(c: Setup, g: Peers, ev: PeerEvent)
    requires AllLight3(c, g)
    ensures AllLight3(c, Step3(c, g, ev))
  {
    hide Perform, Light3, KnownAct;
    if Enabled3(c, g, ev) {
      PerformLater(g[ev.node], ev.act);
      PerformLight3(c.w, g[ev.node], ev.act);
    }
  }

  lemma {:induction false} RunLight3(c: Setup, evs: seq<PeerEvent>)
    requires Proper3(c)
    ensures AllLight3(c, Run3(c, evs))
  {
    if evs != [] {
      RunLight3(c, evs[..|evs| - 1]);
      hide Proper3, AllLight3, Step3;
      StepLight3(c, Run3(c, evs[..|evs| - 1]), evs[|evs| - 1]);
    }
  }

  // ---------------------------------------------------------------- nothing is forged

  /** Every vote that passed the signature check was signed by its sender before it was delivered. */
  ghost predicate AllSigned(c: Setup, evs: seq<PeerEvent>) {
    forall i :: 0 <= i < |evs| ==> SignedAct(Elect3(c, Run3(c, evs[..i])), evs[i].act)
  }

  lemma SignedBefore(c: Setup, evs: seq<PeerEvent>, k: nat)
    requires AllSigned(c, evs) && k <= |evs|
    ensures AllSigned(c, evs[..k])
  {
    hide Run3, SignedAct, Elect3;
    forall i | 0 <= i < k ensures SignedAct(Elect3(c, Run3(c, evs[..k][..i])), evs[..k][i].act) {
      assert evs[..k][..i] == evs[..i];
    }
  }

  ghost predicate AllBacked3(c: Setup, g: Peers) {
    forall r :: r in g ==> Backing3(Elect3(c, g), g[r])
  }

  lemma VoteSignedGrows(e: Electorate, d: Electorate, v: Vote)
    requires Grows(e, d) && VoteSigned(e, v)
    ensures VoteSigned(d, v)
  {
    hide Grows, Signed;
    if v.valid {
      SignedGrows(e, d, v.voter, v.blockId);
    }
  }

  lemma QcSignedGrows(e: Electorate, d: Electorate, qc: QC)
    requires Grows(e, d) && QcSigned(e, qc)
    ensures QcSigned(d, qc)
  {
    hide Grows, IsQuorum;
    if qc.valid {
      QuorumGrows(e, d, qc.signers, qc.blockId);
    }
  }

  lemma StoresGrow3(e: Electorate, d: Electorate, s: Peer)
    requires Grows(e, d) && Backing3(e, s)
    ensures VotesSigned(d, s.chain.votes) && TasksSigned(d, s.todo)
    ensures QcsSigned(d, s.bufferedQCs) && QcsSigned(d, s.bufferedNotarized)
  {
    hide Grows, VoteSigned, QcSigned, Certified, JustifiedBallot;
    forall id, x | id in s.chain.votes && x in s.chain.votes[id] ensures VoteSigned(d, s.chain.votes[id][x]) {
      VoteSignedGrows(e, d, s.chain.votes[id][x]);
    }
    forall i | 0 <= i < |s.todo| ensures TaskSigned(d, s.todo[i]) {
      assert TaskSigned(e, s.todo[i]);
      if s.todo[i].RunVote? { VoteSignedGrows(e, d, s.todo[i].vote); }
      if s.todo[i].RunQC? { QcSignedGrows(e, d, s.todo[i].qc); }
    }
    forall k | k in s.bufferedQCs ensures QcSigned(d, s.bufferedQCs[k]) {
      QcSignedGrows(e, d, s.bufferedQCs[k]);
    }
    forall k | k in s.bufferedNotarized ensures QcSigned(d, s.bufferedNotarized[k]) {
      QcSignedGrows(e, d, s.bufferedNotarized[k]);
    }
  }

  lemma RecordsGrow3(e: Electorate, d: Electorate, s: Peer)
    requires Grows(e, d) && Backing3(e, s)
    ensures ChainCertified(d, s.notarized) && AllJustified(d, s.journal) && AllCertified(d, s.decisions)
  {
    hide Grows, VotesSigned, QcsSigned, TasksSigned, Certified, JustifiedBallot;
    forall i, j | 0 <= i < |s.notarized| && 0 <= j < |s.notarized[i]| ensures Certified(d, s.notarized[i][j].id) {
      CertifiedGrows(e, d, s.notarized[i][j].id);
    }
    forall i | 0 <= i < |s.journal| ensures JustifiedBallot(d, 2, s.journal[i]) {
      JustifiedGrows(e, d, 2, s.journal[i]);
    }
    forall j | 0 <= j < |s.decisions| ensures Certified(d, s.decisions[j].qc.blockId) {
      CertifiedGrows(e, d, s.decisions[j].qc.blockId);
    }
  }

  lemma BackingGrows3(e: Electorate, d: Electorate, s: Peer)
    requires Grows(e, d) && Backing3(e, s)
    ensures Backing3(d, s)
  {
    StoresGrow3(e, d, s);
    RecordsGrow3(e, d, s);
    hide VotesSigned, QcsSigned, TasksSigned, ChainCertified, AllJustified, AllCertified;
  }

  lemma StepGrows3(c: Setup, g: Peers, ev: PeerEvent)
    requires Enabled3(c, g, ev)
    ensures Grows(Elect3(c, g), Elect3(c, Step3(c, g, ev)))
    ensures Step3(c, g, ev) == g[ev.node := Perform(g[ev.node], ev.act)]
    ensures Elect3(c, Step3(c, g, ev)).logs[ev.node] == Perform(g[ev.node], ev.act).journal
    ensures Elect3(c, g).w == c.w
  {
    PerformLater(g[ev.node], ev.act);
    hide Perform, KnownAct;
  }

  lemma StepBacked3(c: Setup, g: Peers, ev: PeerEvent)
    requires AllLight3(c, g) && AllBacked3(c, g) && SignedAct(Elect3(c, g), ev.act)
    ensures AllBacked3(c, Step3(c, g, ev))
  {
    hide Perform, Light3, Backing3, VoteSigned, Grows, Elect3, KnownAct;
    if Enabled3(c, g, ev) {
      var h, r := Step3(c, g, ev), ev.node;
      var e, d := Elect3(c, g), Elect3(c, h);
      StepGrows3(c, g, ev);
      SameWorld(e, d);
      if ev.act.Message? && ev.act.task.RunVote? {
        VoteSignedGrows(e, d, ev.act.task.vote);
      }
      PerformLater(g[r], ev.act);
      BackingGrows3(e, d, g[r]);
      PerformBacking3(d, g[r], ev.act);
      forall x | x in h ensures Backing3(d, h[x]) {
        if x != r {
          BackingGrows3(e, d, g[x]);
        }
      }
    }
  }

  lemma StartBacked3(c: Setup)
    requires Proper3(c)
    ensures AllBacked3(c, Start3(c))
  {
    forall r | r in Start3(c) ensures Backing3(Elect3(c, Start3(c)), Start3(c)[r]) {
      assert Start3(c)[r] == Begin(r, c.n, c.leaderOf);
      assert Elect3(c, Start3(c)).logs[r] == [];
    }
  }

  lemma {:induction false} RunBacked3(c: Setup, evs: seq<PeerEvent>)
    requires Proper3(c) && AllSigned(c, evs)
    ensures AllBacked3(c, Run3(c, evs))
  {
    if evs == [] {
      StartBacked3(c);
    } else {
      var m := |evs| - 1;
      SignedBefore(c, evs, m);
      RunLight3(c, evs[..m]);
      RunBacked3(c, evs[..m]);
      hide AllLight3, AllBacked3, Step3, SignedAct;
      StepBacked3(c, Run3(c, evs[..m]), evs[m]);
    }
  }

  // ---------------------------------------------------------------- votes carry the views of their blocks

  ghost predicate AllLabelled(c: Setup, evs: seq<PeerEvent>) {
    forall i :: 0 <= i < |evs| ==> LabelledAct(c.w, evs[i].act)
  }

  ghost predicate AllRanked3(c: Setup, g: Peers) {
    forall r :: r in g ==> Ranked3(c.w, g[r])
  }

  lemma {:induction false} RunRanked3(c: Setup, evs: seq<PeerEvent>)
    requires Proper3(c) && AllLabelled(c, evs)
    ensures AllRanked3(c, Run3(c, evs))
  {
    if evs != [] {
      var m := |evs| - 1;
      var g := Run3(c, evs[..m]);
      RunLight3(c, evs[..m]);
      RunRanked3(c, evs[..m]);
      hide Perform, Light3, Ranked3, LabelledAct, KnownAct;
      if Enabled3(c, g, evs[m]) {
        PerformRanked3(c.w, g[evs[m].node], evs[m].act);
      }
    }
  }

  /** In every run, whatever is delivered, the notarized chain of a replica that is not faulty has one block per entry,
      each with its parent earlier. If votes carry the views of their blocks, the views of the chain rise strictly and
      stay below the current view. If no vote is forged, all its blocks are certified. The number of faulty replicas
      does not matter. */
  lemma NotarizedShape(c: Setup, evs: seq<PeerEvent>, r: Node)
    requires Proper3(c) && r in Nodes(c.n) - c.faulty
    ensures r in Run3(c, evs) && Threaded(c.w, Run3(c, evs)[r].notarized)
    ensures var s := Run3(c, evs)[r]; AllLabelled(c, evs) ==> Climbing(s.notarized, s.pm.curView)
    ensures var g := Run3(c, evs); AllSigned(c, evs) ==> ChainCertified(Elect3(c, g), g[r].notarized)
  {
    RunLight3(c, evs);
    if AllLabelled(c, evs) {
      RunRanked3(c, evs);
    }
    if AllSigned(c, evs) {
      RunBacked3(c, evs);
    }
    hide Threaded, Climbing, ChainCertified, Run3;
  }

  // ---------------------------------------------------------------- agreement

  /** The block certified when the commit rule fired is a child of the committed block. */
  ghost predicate TipExtended(w: World, d: Decided) {
    d.qc.blockId in w && w[d.qc.blockId].prevId == d.block.id
  }

  ghost predicate TipsExtended(c: Setup, g: Peers) {
    forall r, k :: r in g && 0 <= k < |g[r].decisions| ==> TipExtended(c.w, g[r].decisions[k])
  }

  ghost predicate PeersInOrder(g: Peers) {
    forall r :: r in g ==> InOrder(g[r].journal)
  }

  /** From vote to vote of a replica its last notarized block never falls. */
  ghost predicate TailsRise(g: Peers) {
    forall r :: r in g ==> LocksRise(g[r].journal)
  }

  /** Above view 2 votes went only to blocks whose parent is certified. */
  ghost predicate PeersJustified(c: Setup, g: Peers) {
    forall r :: r in g ==> AllJustified(Elect3(c, g), g[r].journal)
  }

  /** Commits were made on certified blocks. */
  ghost predicate TipsCertified(c: Setup, g: Peers) {
    forall r :: r in g ==> AllCertified(Elect3(c, g), g[r].decisions)
  }

  /** The rule takes the last three entries to be a chain. The certified block really extends the committed one if
      and only if the replica would itself have voted for it: its parent was the last notarized block. */
  lemma CommitExtendedIff(w: World, chain: seq<seq<Block>>, top: Block)
    requires Ordered(w) && Threaded(w, chain) && Known(w, top) && top.view >= 3
    requires CommitRule(chain + [[top]]).Some?
    ensures Descends(w, top.id, CommitRule(chain + [[top]]).value.id) <==> VotingRule(chain, top).Yes?
  {
    var more: seq<seq<Block>> := chain + [[top]];
    assert more[|more| - 1] == [top] && more[|more| - 2] == chain[|chain| - 1];
    var mid := chain[|chain| - 1][0];
    assert Known(w, mid) && mid.view + 1 == top.view;
    if Descends(w, top.id, mid.id) {
      NoGap(w, top.prevId, mid.id);
    }
  }

  /** Entry `i` has its parent in the entry just before. */
  ghost predicate ExtendsTip(chain: seq<seq<Block>>, i: nat) {
    0 < i < |chain| && |chain[i]| == 1 && Contains(chain[i - 1], chain[i][0].prevId)
  }

  /** When the rule fires, its three blocks are a chain of parents if and only if the last two appends extended the
      entry before them. */
  lemma ThreeChainIff(w: World, chain: seq<seq<Block>>)
    requires Threaded(w, chain) && CommitRule(chain).Some?
    ensures var h := |chain|;
            Consecutive(w, [chain[h - 1][0].id, chain[h - 2][0].id, chain[h - 3][0].id])
            <==> ExtendsTip(chain, h - 1) && ExtendsTip(chain, h - 2)
  {
    var h := |chain|;
    var p, m, t := chain[h - 3][0], chain[h - 2][0], chain[h - 1][0];
    assert Known(w, p) && Known(w, m) && Known(w, t);
    var ids := [t.id, m.id, p.id];
    assert ids[0] == t.id && ids[1] == m.id && ids[2] == p.id;
    if Consecutive(w, ids) {
      assert w[ids[1 - 1]].prevId == ids[1] && w[ids[2 - 1]].prevId == ids[2];
    }
  }

  /** A block that descends from one of its own view or above is that block. */
  lemma NoGap(w: World, a: Id, b: Id)
    requires Ordered(w) && a in w && b in w && Descends(w, a, b)
    ensures w[a].view >= w[b].view && (w[a].view == w[b].view ==> a == b)
    decreases w[a].view
  {
    if a != b {
      NoGap(w, w[a].prevId, b);
    }
  }

  /** The conditions of agreement. */
  ghost predicate Disciplined3(c: Setup, g: Peers) {
    && 3 * |c.faulty| < c.n
    && PeersInOrder(g) && TailsRise(g) && PeersJustified(c, g) && TipsCertified(c, g) && TipsExtended(c, g)
  }

  lemma LightLog(e: Electorate, s: Peer)
    requires Light3(e.w, s) && LocksRise(s.journal)
    ensures LogOk(e, s.journal)
  {
    hide Placed, Threaded, AllFired3, AllDecided, TasksKnown, BlocksKnown, Ordered;
    forall i | 0 <= i < |s.journal| ensures BallotOk(e, s.journal[i]) {
      assert OnTip(e.w, s.journal[i]);
    }
  }

  lemma FairRun3(c: Setup, evs: seq<PeerEvent>)
    requires Proper3(c) && Disciplined3(c, Run3(c, evs))
    ensures var e := Elect3(c, Run3(c, evs));
            Fair(e) && LogsOk(e) && Justified(e, 2) && AllInOrder(e) && e.w == c.w
  {
    RunLight3(c, evs);
    var g := Run3(c, evs);
    var e := Elect3(c, g);
    hide Run3, Light3, LogOk, LocksRise, InOrder, JustifiedBallot;
    forall r | r in e.logs ensures LogOk(e, e.logs[r]) {
      LightLog(e, g[r]);
    }
  }

  /** Every vote for the certified block was cast when its parent was the last notarized block. */
  lemma TipLocked(c: Setup, g: Peers, top: Id)
    requires AllLight3(c, g) && top in c.w && c.w[top].view >= 3 && c.w[top].prevId in c.w
    ensures LockedOn(Elect3(c, g), top, c.w[c.w[top].prevId].view)
  {
    var e := Elect3(c, g);
    forall r, i | r in e.logs && 0 <= i < |e.logs[r]| && e.logs[r][i].id == top
      ensures e.logs[r][i].pref >= c.w[c.w[top].prevId].view
    {
      LightBallot(c.w, g[r], i);
    }
  }

  lemma LightBallot(w: World, s: Peer, i: nat)
    requires Light3(w, s) && i < |s.journal|
    ensures OnTip(w, s.journal[i])
  {
  }

  lemma LightDecided(w: World, s: Peer, k: nat)
    requires Light3(w, s) && k < |s.decisions|
    ensures Fired3(w, s.decisions[k])
  {
  }

  lemma DecidedIsDecision3(c: Setup, evs: seq<PeerEvent>, d: Decided)
    requires Proper3(c) && Disciplined3(c, Run3(c, evs)) && Fired3(c.w, d) && TipExtended(c.w, d)
    requires Certified(Elect3(c, Run3(c, evs)), d.qc.blockId)
    ensures Decision(Elect3(c, Run3(c, evs)), [d.qc.blockId, d.block.id])
  {
    var g := Run3(c, evs);
    var e, ids := Elect3(c, g), [d.qc.blockId, d.block.id];
    FairRun3(c, evs);
    RunLight3(c, evs);
    hide Run3, Light3, Disciplined3, LogsOk, Justified, AllInOrder, Certified, LockedOn;
    TipLocked(c, g, ids[0]);
    ParentCertified(e, ids[0], 2);
    assert c.w[ids[1 - 1]].prevId == ids[1];
  }

  lemma RunDecision3(c: Setup, evs: seq<PeerEvent>, r: Node, k: nat)
    requires Proper3(c) && Disciplined3(c, Run3(c, evs)) && r in Run3(c, evs) && k < |Run3(c, evs)[r].decisions|
    ensures var d := Run3(c, evs)[r].decisions[k]; Decision(Elect3(c, Run3(c, evs)), [d.qc.blockId, d.block.id])
  {
    var g := Run3(c, evs);
    RunLight3(c, evs);
    hide Run3, Light3, Decision, Fired3, TipExtended, Certified, PeersInOrder, TailsRise, PeersJustified, Elect3;
    LightDecided(c.w, g[r], k);
    DecidedIsDecision3(c, evs, g[r].decisions[k]);
  }

  /** Agreement on decisions, for Streamlet: in every disciplined run, any two blocks on which the commit rule of a
      replica that is not faulty ever fires are on one chain. */
  lemma DecisionsOnOneChain3(c: Setup, evs: seq<PeerEvent>, r: Node, k: nat, q: Node, l: nat)
    requires Proper3(c) && Disciplined3(c, Run3(c, evs))
    requires var g := Run3(c, evs); r in g && q in g && k < |g[r].decisions| && l < |g[q].decisions|
    ensures var g := Run3(c, evs); OnOneChain(c.w, g[r].decisions[k].block.id, g[q].decisions[l].block.id)
  {
    hide Run3, Fair, LogsOk, Justified, AllInOrder, Disciplined3, Decision, Elect3, OnOneChain;
    var g := Run3(c, evs);
    FairRun3(c, evs);
    RunDecision3(c, evs, r, k);
    RunDecision3(c, evs, q, l);
    var a, b := g[r].decisions[k], g[q].decisions[l];
    DecisionsAgree(Elect3(c, g), [a.qc.blockId, a.block.id], [b.qc.blockId, b.block.id]);
  }

  lemma CommittedDecided3(c: Setup, evs: seq<PeerEvent>, r: Node, i: nat) returns (k: nat)
    requires Proper3(c)
    requires var g := Run3(c, evs); r in g && i < |g[r].committed|
    ensures var s := Run3(c, evs)[r]; k < |s.decisions| && Descends(c.w, s.decisions[k].block.id, s.committed[i].id)
  {
    RunLight3(c, evs);
    var s := Run3(c, evs)[r];
    assert IsDecided(c.w, s.decisions, s.committed[i]) by { hide Placed, Threaded, AllOnTip, AllFired3; }
    k :| 0 <= k < |s.decisions| && Descends(c.w, s.decisions[k].block.id, s.committed[i].id);
  }

  /** Agreement for Streamlet. Take any run with fewer than a third of the replicas faulty, in which any votes and
      blocks were delivered. If votes are in rising views, the last notarized block of a replica never falls from vote
      to vote, votes go to blocks with certified parents, and commits are made on certified children, then any two
      blocks committed by replicas that are not faulty are on one chain. No replica needs to keep a lock: the voting
      rule is one. */
  lemma Agreement3(c: Setup, evs: seq<PeerEvent>, r: Node, i: nat, q: Node, j: nat)
    requires Proper3(c) && Disciplined3(c, Run3(c, evs))
    requires var g := Run3(c, evs); r in g && q in g && i < |g[r].committed| && j < |g[q].committed|
    ensures var g := Run3(c, evs); OnOneChain(c.w, g[r].committed[i].id, g[q].committed[j].id)
  {
    hide Run3, Disciplined3;
    var g := Run3(c, evs);
    var k := CommittedDecided3(c, evs, r, i);
    var l := CommittedDecided3(c, evs, q, j);
    DecisionsOnOneChain3(c, evs, r, k, q, l);
    CommonChain(c.w, g[r].decisions[k].block.id, g[q].decisions[l].block.id,
                g[r].committed[i].id, g[q].committed[j].id);
  }

  /** If no vote is forged, two of the conditions hold; if votes carry the views of their blocks, a third one does. */
  lemma BackedRun3(c: Setup, evs: seq<PeerEvent>)
    requires Proper3(c)
    ensures AllSigned(c, evs) ==> PeersJustified(c, Run3(c, evs)) && TipsCertified(c, Run3(c, evs))
    ensures AllLabelled(c, evs) ==> TailsRise(Run3(c, evs))
  {
    if AllSigned(c, evs) {
      RunBacked3(c, evs);
    }
    if AllLabelled(c, evs) {
      RunRanked3(c, evs);
    }
    hide Run3, AllJustified, AllCertified, LocksRise;
  }

  /** So the two that are left are enough. */
  lemma BackedAgreement3(c: Setup, evs: seq<PeerEvent>, r: Node, i: nat, q: Node, j: nat)
    requires Proper3(c) && 3 * |c.faulty| < c.n && AllSigned(c, evs) && AllLabelled(c, evs)
    requires PeersInOrder(Run3(c, evs)) && TipsExtended(c, Run3(c, evs))
    requires var g := Run3(c, evs); r in g && q in g && i < |g[r].committed| && j < |g[q].committed|
    ensures var g := Run3(c, evs); OnOneChain(c.w, g[r].committed[i].id, g[q].committed[j].id)
  {
    hide Run3, PeersInOrder, TailsRise, PeersJustified, TipsCertified, TipsExtended, AllSigned, AllLabelled, OnOneChain;
    BackedRun3(c, evs);
    Agreement3(c, evs, r, i, q, j);
  }
}
