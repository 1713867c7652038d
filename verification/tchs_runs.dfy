/** Runs of two-chain HotStuff, in which certificates may carry any view. */
module TwoChainRuns {
  import opened Types
  import opened Tally
  import opened Quorums
  import opened Forests
  import opened Worlds
  import opened BlockChains
  import opened Pacemakers
  import opened Safety
  import opened Outputs
  import opened HotStuffs
  import opened HotStuffLogs
  import opened HotStuffInvariant
  import opened HotStuffRuns
  import opened TwoChain

  /** The certificate of the block is for its parent. The handlers do not check this. */
  ghost predicate Named(b: Block) {
    b.hasQC ==> b.qc.blockId == b.prevId
  }

  ghost predicate BufferNamed(buffer: map<View, Block>) {
    forall k :: k in buffer ==> Named(buffer[k])
  }

  /** The commit rule fired: the decided block is the parent of the one that the certificate names, and one below the
      view in the certificate. */
  ghost predicate Fired2(w: World, d: Decided) {
    && d.qc.blockId in w && d.block.id in w && w[d.qc.blockId].prevId == d.block.id
    && w[d.block.id].view + 1 == d.qc.view
  }

  ghost predicate Labelled(w: World, d: Decided) {
    d.qc.blockId in w && d.qc.view == w[d.qc.blockId].view
  }

  ghost predicate AllFired2(w: World, ds: seq<Decided>, named: bool) {
    forall j :: 0 <= j < |ds| ==> Fired2(w, ds[j]) && (named ==> Labelled(w, ds[j]))
  }

  /** The invariant of a replica; with `named`, of one that is sent only blocks whose certificates are for their
      parents. */
  ghost predicate Good2(e: Electorate, s: Replica, named: bool) {
    && Sane(e, s) && AllFired2(e.w, s.decisions, named)
    && (named ==> BufferNamed(s.bufferedBlocks))
  }

  // ---------------------------------------------------------------- the view in the certificate

  /** The commit rule is tried if the view in the certificate comes right before that of the block. It then finds blocks
      of consecutive views if and only if the block is above the one that its certificate is for; so far the view in
      the certificate does not matter. */
  lemma CommitRuleIff(w: World, f: Forest, b: Block)
    requires Ordered(w) && ForestKnown(w, f) && b.qc.view + 1 == b.view && CommitRule2(f, b).Some?
    ensures b.qc.blockId in w
    ensures CommitRule2(f, b).value.view + 1 == w[b.qc.blockId].view <==> w[b.qc.blockId].view < b.view
  {
    ParentKnown(w, f, b.qc.blockId);
  }

  /** A block that is not above the certified one: with the view before its own in the certificate, it commits a block
      whose child is two views above. */
  lemma LowLabelSkipsAView(s: Replica, b: Block, c: Block, p: Block)
    requires GetVertex(s.chain.forest, b.qc.blockId) == Some(c) && GetVertex(s.chain.forest, c.prevId) == Some(p)
    requires p.view + 2 == c.view == b.view == b.qc.view + 1 && b.qc.view >= 2
    ensures CommitOn(s, b).1.decisions == s.decisions + [Decided(p, b.qc)]
  {
    hide CommitBlock;
  }

  lemma CommitRuleOk2(w: World, f: Forest, b: Block)
    requires Ordered(w) && ForestKnown(w, f) && b.qc.view + 1 == b.view && CommitRule2(f, b).Some?
    ensures var d := Decided(CommitRule2(f, b).value, b.qc);
            Fired2(w, d) && (Known(w, b) && b.qc.blockId == b.prevId ==> Labelled(w, d))
  {
    CommitRuleIff(w, f, b);
    ParentKnown(w, f, b.qc.blockId);
    hide ForestKnown;
  }

  // ---------------------------------------------------------------- handlers keep the invariant

  lemma AlikeGood(e: Electorate, s: Replica, t: Replica, named: bool)
    requires Good2(e, s, named) && Alike(s, t)
    ensures Good2(e, t, named)
  {
    hide Sane, AllFired2, BufferNamed;
    AlikeSane(e, s, t);
  }

  lemma QCAlike(s: Replica, qc: QC)
    ensures Alike(s, OnQC(s, qc)) && Alike(s, UpdateHighQC(s, qc))
  {
    hide GetVertex;
  }

  lemma VoteAlike(s: Replica, v: Vote)
    ensures Alike(s, OnVote2(s, v))
  {
    hide OnQC, Built, Record, GetVertex;
    var s1 := s.(chain := s.chain.(votes := Record(s.chain.n, s.chain.votes, Cast(v))));
    if Built(s.chain.n, s.chain.votes, v).Some? {
      QCAlike(s1, Built(s.chain.n, s.chain.votes, v).value.(leader := s.id));
    }
  }

  lemma FinishGood2(e: Electorate, s: Replica, d: Decided, named: bool)
    requires Good2(e, s, named) && Fired2(e.w, d) && (named ==> Labelled(e.w, d))
    ensures Good2(e, Finish(s, d), named)
  {
    hide Sane, Fired2, Labelled, BufferNamed, Finish;
    FinishSane(e, s, d);
    FinishKeeps(s, d);
  }

  lemma CommitOnGood(e: Electorate, s: Replica, b: Block, named: bool)
    requires Good2(e, s, named) && Known(e.w, b) && (named ==> b.qc.blockId == b.prevId)
    ensures Good2(e, CommitOn(s, b).1, named)
  {
    assert Ordered(e.w) && ForestKnown(e.w, s.chain.forest);
    hide Good2, Finish, CommitRule2, CommitBlock, Ordered, ForestKnown, Fired2, Labelled;
    if b.qc.view >= 2 && b.qc.view + 1 == b.view && CommitRule2(s.chain.forest, b).Some? {
      CommitRuleOk2(e.w, s.chain.forest, b);
      FinishGood2(e, s, Decided(CommitRule2(s.chain.forest, b).value, b.qc), named);
    }
  }

  lemma JournalGood2(e: Electorate, s: Replica, b: Block, named: bool)
    requires Good2(e, s, named) && Known(e.w, b) && VotingRule(s, b)
    requires s.journal + [Ballot(b.view, b.id, s.preferredView)] <= e.logs[s.id]
    ensures Good2(e, s.(journal := s.journal + [Ballot(b.view, b.id, s.preferredView)]), named)
  {
    hide Sane, AllFired2, BufferNamed, VotingRule, Known;
    JournalSane(e, s, b);
  }

  lemma CastVoteGood2(e: Electorate, s: Replica, b: Block, named: bool)
    requires Good2(e, s, named) && Known(e.w, b) && VotingRule(s, b)
    requires CastVote2(s, b).journal <= e.logs[s.id]
    ensures Good2(e, CastVote2(s, b), named)
  {
    hide Good2, VotingRule, OnVote2, Known, Alike;
    var s1 := s.(journal := s.journal + [Ballot(b.view, b.id, s.preferredView)]);
    var own := Vote(b.view, s.id, b.id, true);
    VoteAlike(s1, own);
    VoteFrame2(s1, own);
    JournalGood2(e, s, b, named);
    AlikeGood(e, s1, OnVote2(s1, own), named);
  }

  lemma StoreGood2(e: Electorate, s: Replica, b: Block, named: bool)
    requires Good2(e, s, named) && Fitting(e.w, b) && (named ==> Named(b))
    ensures b.hasQC ==> Good2(e, s.(chain := s.chain.(forest := Add(s.chain.forest, b))), named)
    ensures b.view >= 1 ==> Good2(e, s.(bufferedBlocks := s.bufferedBlocks[b.view - 1 := b]), named)
  {
    hide Sane, AllFired2, Named, Fitting, Add;
    StoreSane(e, s, b);
  }

  lemma ReplayAlike(s: Replica, id: Id)
    ensures Alike(s, Replay2(s, id))
  {
    hide OnQC;
    if id in s.bufferedQCs {
      QCAlike(s, s.bufferedQCs[id]);
    }
  }

  lemma TakeUpGood2(e: Electorate, s: Replica, b: Block, named: bool)
    requires Good2(e, s, named) && Fitting(e.w, b) && (named ==> Named(b))
    ensures Good2(e, TakeUp2(s, b).1, named)
  {
    hide Good2, OnQC, Add, CommitOn, Replay2, UpdateHighQC, Known, Alike;
    StoreGood2(e, s, b, named);
    if b.view <= s.pm.curView + 1 && b.hasQC {
      var s1 := UpdateHighQC(s, b.qc);
      QCAlike(s, b.qc);
      AlikeGood(e, s, s1, named);
      QCAlike(s1, b.qc);
      AlikeGood(e, s1, OnQC(s1, b.qc), named);
      var s2 := if b.proposer != s.id then OnQC(s1, b.qc) else s1;
      StoreGood2(e, s2, b, named);
      var s3 := s2.(chain := s2.chain.(forest := Add(s2.chain.forest, b)));
      CommitOnGood(e, s3, b, named);
      var s4 := CommitOn(s3, b).1;
      ReplayAlike(s4, b.id);
      AlikeGood(e, s4, Replay2(s4, b.id), named);
    }
  }

  lemma TakenHasQC2(s: Replica, b: Block)
    ensures TakeUp2(s, b).0 ==> b.hasQC
  {
    hide OnQC, Replay2, Add, CommitOn, UpdateHighQC;
  }

  lemma OneGood2(e: Electorate, s: Replica, b: Block, named: bool)
    requires Good2(e, s, named) && Fitting(e.w, b) && (named ==> Named(b))
    requires OnOne2(s, b).1.journal <= e.logs[s.id]
    ensures Good2(e, OnOne2(s, b).1, named)
  {
    hide TakeUp2, Good2, VotingRule, Known, CastVote2, Named;
    TakeUpGood2(e, s, b, named);
    TakeUpFrame2(s, b);
    TakenHasQC2(s, b);
    var (taken, s1) := TakeUp2(s, b);
    if taken && VotingRule(s1, b) {
      CastVoteGood2(e, s1, b, named);
    }
  }

  lemma BufferedGood2(e: Electorate, s: Replica, k: View, named: bool)
    requires Good2(e, s, named) && k in s.bufferedBlocks
    ensures Fitting(e.w, s.bufferedBlocks[k]) && (named ==> Named(s.bufferedBlocks[k]))
  {
    hide ForestKnown, JournalOk, AllDecided, AllFired2, Named, Fitting;
  }

  lemma {:induction false} BlockGood2(e: Electorate, s: Replica, b: Block, named: bool)
    requires Good2(e, s, named) && Filed(s.bufferedBlocks) && Fitting(e.w, b) && (named ==> Named(b))
    requires OnBlock2(s, b).journal <= e.logs[s.id]
    ensures Good2(e, OnBlock2(s, b), named)
    decreases Waiting(s.bufferedBlocks, b.view)
  {
    assert s.id in e.logs by { hide OnOne2, OnBlock2; }
    hide OnOne2, Fitting, Named, Good2;
    var (voted, s1) := OnOne2(s, b);
    OneFrame2(s, b);
    if voted && b.view in s1.bufferedBlocks {
      assert b.view in Waiting(s.bufferedBlocks, b.view) && b.view !in Waiting(s.bufferedBlocks, b.view + 1);
      var b' := s1.bufferedBlocks[b.view];
      assert s1.journal <= OnBlock2(s1, b').journal <= e.logs[s.id];
      OneGood2(e, s, b, named);
      BufferedGood2(e, s1, b.view, named);
      BlockGood2(e, s1, b', named);
    } else {
      OneGood2(e, s, b, named);
    }
  }

  lemma TmoAlike(s: Replica, tmo: Tmo)
    ensures Alike(s, OnTmo2(s, tmo))
  {
    hide AddTimeout;
  }

  lemma RelabelBuffer(w: World, s: Replica, qcs: set<Id>, blocks: set<View>)
    requires s.pm.curView >= 1 && BufferFits(w, s.bufferedBlocks)
    ensures BufferFits(w, Relabel(s, qcs, blocks).bufferedBlocks)
    ensures BufferNamed(s.bufferedBlocks) ==> BufferNamed(Relabel(s, qcs, blocks).bufferedBlocks)
  {
    var t := Relabel(s, qcs, blocks);
    forall k | k in t.bufferedBlocks
      ensures Fitting(w, t.bufferedBlocks[k]) && (Named(s.bufferedBlocks[k]) ==> Named(t.bufferedBlocks[k]))
    {
      assert Fitting(w, s.bufferedBlocks[k]);
    }
  }

  /** Writing a view into the highest certificate, wherever it is shared, keeps the invariant. */
  lemma RelabelGood(e: Electorate, s: Replica, qcs: set<Id>, blocks: set<View>, named: bool)
    requires Good2(e, s, named) && s.pm.curView >= 1
    ensures Good2(e, Relabel(s, qcs, blocks), named)
  {
    RelabelBuffer(e.w, s, qcs, blocks);
    hide ForestKnown, LogOk, AllDecided, Ordered, BufferFits, BufferNamed, AllFired2;
  }

  // ---------------------------------------------------------------- runs

  /** A message or a timeout, or a replica makes a proposal, which relabels its highest certificate. */
  datatype Event2 = Net(ev: Event) | ProposeAt(who: Node, qcs: set<Id>, blocks: set<View>)

  ghost function At2(ev: Event2): Node {
    match ev
    case Net(x) => x.node
    case ProposeAt(r, _, _) => r
  }

  /** Blocks are blocks of the world. Nothing is asked of votes, timeout messages and certificates. */
  ghost predicate Enabled2(c: Setup, g: Network, ev: Event2) {
    && At2(ev) in g && !g[At2(ev)].halted && Filed(g[At2(ev)].bufferedBlocks)
    && match ev
       case Net(BlockTo(_, b)) => Fitting(c.w, b)
       case Net(_) => true
       case ProposeAt(r, _, _) => g[r].pm.curView >= 1
  }

  ghost function Handle2(s: Replica, ev: Event2): Replica
    requires Filed(s.bufferedBlocks)
  {
    match ev
    case Net(BlockTo(_, b)) => OnBlock2(s, b)
    case Net(VoteTo(_, v)) => OnVote2(s, v)
    case Net(TmoTo(_, tmo)) => OnTmo2(s, tmo)
    case Net(TimeoutAt(_)) => OnLocalTmo2(s, s.pm.curView)
    case Net(StartAt(_)) => KickOff(s)
    case ProposeAt(_, qcs, blocks) => if s.pm.curView >= 1 then Relabel(s, qcs, blocks) else s
  }

  ghost function Step2(c: Setup, g: Network, ev: Event2): Network {
    if Enabled2(c, g, ev) then g[At2(ev) := Handle2(g[At2(ev)], ev)] else g
  }

  ghost function Run2(c: Setup, evs: seq<Event2>): Network {
    if evs == [] then Start(c) else Step2(c, Run2(c, evs[..|evs| - 1]), evs[|evs| - 1])
  }

  lemma HandleSame2(s: Replica, ev: Event2)
    requires Filed(s.bufferedBlocks)
    ensures SameReplica(s, Handle2(s, ev))
  {
    hide OnVote2, Record;
    match ev
    case Net(BlockTo(_, b)) => hide OnOne2;
    case Net(VoteTo(_, v)) => VoteFrame2(s, v);
    case Net(TmoTo(_, tmo)) =>
    case Net(TimeoutAt(_)) =>
    case Net(StartAt(_)) =>
    case ProposeAt(_, _, _) =>
  }

  lemma GoodGrows2(e: Electorate, d: Electorate, s: Replica, named: bool)
    requires Grows(e, d) && Good2(e, s, named)
    ensures Good2(d, s, named)
  {
    hide Sane, AllFired2, BufferNamed;
    SaneGrows(e, d, s);
  }

  ghost predicate AllGood2(c: Setup, g: Network, named: bool) {
    && g.Keys == Nodes(c.n) - c.faulty
    && forall r :: r in g ==> g[r].id == r && Good2(Elect(c, g), g[r], named)
  }

  lemma FreshGood2(e: Electorate, id: Node, n: nat, leaderOf: View -> Node, named: bool)
    requires Ordered(e.w) && id in Nodes(e.n) && id in e.logs
    ensures Good2(e, Fresh(id, n, leaderOf), named)
  {
    FreshSane(e, id, n, leaderOf);
    hide Sane;
  }

  lemma StartGood2(c: Setup, named: bool)
    requires Proper(c)
    ensures AllGood2(c, Start(c), named)
  {
    forall r | r in Start(c) ensures Good2(Elect(c, Start(c)), Start(c)[r], named) {
      FreshGood2(Elect(c, Start(c)), r, c.n, c.leaderOf, named);
    }
  }

  ghost predicate NamedEvent(ev: Event2) {
    ev.Net? && ev.ev.BlockTo? ==> Named(ev.ev.block)
  }

  ghost predicate AllNamed(evs: seq<Event2>) {
    forall i :: 0 <= i < |evs| ==> NamedEvent(evs[i])
  }

  lemma HandleGood2(c: Setup, g: Network, ev: Event2, e: Electorate, named: bool)
    requires Enabled2(c, g, ev) && e.w == c.w && (named ==> NamedEvent(ev))
    requires var s := g[At2(ev)];
             && Good2(e, s, named) && s.id == At2(ev) && s.id in e.logs
             && Handle2(s, ev).journal <= e.logs[s.id]
    ensures Good2(e, Handle2(g[At2(ev)], ev), named)
  {
    hide Good2, OnBlock2, OnVote2, OnTmo2, Relabel, Fitting, Named, Alike;
    var s := g[At2(ev)];
    match ev
    case Net(BlockTo(_, b)) => BlockGood2(e, s, b, named);
    case Net(VoteTo(_, v)) =>
      VoteAlike(s, v);
      AlikeGood(e, s, OnVote2(s, v), named);
    case Net(TmoTo(_, tmo)) =>
      TmoAlike(s, tmo);
      AlikeGood(e, s, OnTmo2(s, tmo), named);
    case Net(TimeoutAt(_)) =>
      var s1 := Advanced(s, s.pm.curView + 1);
      PmAlike(s, s1.pm);
      AlikeGood(e, s, s1, named);
      var tmo := Tmo(s.pm.curView + 1, s.id, s1.highQC);
      TmoAlike(s1, tmo);
      AlikeGood(e, s1, OnTmo2(s1, tmo), named);
    case Net(StartAt(_)) =>
      PmAlike(s, KickOff(s).pm);
      AlikeGood(e, s, KickOff(s), named);
    case ProposeAt(_, qcs, blocks) => RelabelGood(e, s, qcs, blocks, named);
  }

  lemma PmAlike(s: Replica, pm: Pm)
    ensures Alike(s, s.(pm := pm))
  {
  }

  lemma StepGrows2(c: Setup, g: Network, ev: Event2)
    requires Enabled2(c, g, ev)
    ensures Grows(Elect(c, g), Elect(c, Step2(c, g, ev)))
    ensures Step2(c, g, ev) == g[At2(ev) := Handle2(g[At2(ev)], ev)]
    ensures Elect(c, Step2(c, g, ev)).logs[At2(ev)] == Handle2(g[At2(ev)], ev).journal
  {
    HandleSame2(g[At2(ev)], ev);
    hide Handle2, Fitting, At2;
  }

  lemma EnabledFiled(c: Setup, g: Network, ev: Event2)
    requires Enabled2(c, g, ev)
    ensures At2(ev) in g && Filed(g[At2(ev)].bufferedBlocks)
  {
  }

  lemma StepGood2(c: Setup, g: Network, ev: Event2, named: bool)
    requires AllGood2(c, g, named) && (named ==> NamedEvent(ev))
    ensures AllGood2(c, Step2(c, g, ev), named)
  {
    hide Handle2, Good2, Grows, Filed, At2, Enabled2, NamedEvent;
    if Enabled2(c, g, ev) {
      var h, r := Step2(c, g, ev), At2(ev);
      var e, d := Elect(c, g), Elect(c, h);
      EnabledFiled(c, g, ev);
      StepGrows2(c, g, ev);
      SameWorld(e, d);
      assert e.w == c.w;
      hide Elect;
      HandleSame2(g[r], ev);
      GoodGrows2(e, d, g[r], named);
      HandleGood2(c, g, ev, d, named);
      forall x | x in h ensures h[x].id == x && Good2(d, h[x], named) {
        if x != r {
          GoodGrows2(e, d, g[x], named);
        }
      }
    }
  }

  /** The invariant holds after every run, whatever views proposers write into certificates. */
  lemma {:induction false} RunGood2(c: Setup, evs: seq<Event2>, named: bool)
    requires Proper(c) && (named ==> AllNamed(evs))
    ensures AllGood2(c, Run2(c, evs), named)
  {
    if evs == [] {
      StartGood2(c, named);
    } else {
      RunGood2(c, evs[..|evs| - 1], named);
      StepGood2(c, Run2(c, evs[..|evs| - 1]), evs[|evs| - 1], named);
    }
  }

  /** If blocks carry certificates for their parents, every commit was made on a certificate that carries the view of
      its block, for a block right above the committed one. */
  lemma CommitLabels(c: Setup, evs: seq<Event2>, r: Node, k: nat)
    requires Proper(c) && AllNamed(evs) && r in Run2(c, evs) && k < |Run2(c, evs)[r].decisions|
    ensures var d := Run2(c, evs)[r].decisions[k];
            && d.qc.blockId in c.w && d.block.id in c.w && c.w[d.qc.blockId].prevId == d.block.id
            && d.qc.view == c.w[d.qc.blockId].view == c.w[d.block.id].view + 1
  {
    RunGood2(c, evs, true);
    hide Run2, Sane, BufferNamed;
    var d := Run2(c, evs)[r].decisions[k];
    assert Fired2(c.w, d) && Labelled(c.w, d);
  }

  // ---------------------------------------------------------------- agreement

  /** The vote was cast under a lock at the parent of its block or above; a parent of view 1 needs no lock. */
  ghost predicate Locked2(w: World, b: Ballot) {
    b.id in w && w[b.id].prevId in w ==> w[w[b.id].prevId].view <= 1 || b.pref >= w[w[b.id].prevId].view
  }

  ghost predicate VotesLocked2(c: Setup, g: Network) {
    forall r, i :: r in g && 0 <= i < |g[r].journal| ==> Locked2(c.w, g[r].journal[i])
  }

  ghost predicate Disciplined2(c: Setup, g: Network) {
    VotesInOrder(g) && VotesLocked2(c, g) && VotesJustified(c, g) && CommitsCertified(c, g)
  }

  lemma LockedTop2(c: Setup, g: Network, ids: seq<Id>)
    requires Ordered(c.w) && VotesLocked2(c, g) && |ids| == 2 && Consecutive(c.w, ids)
    ensures LockedOn(Elect(c, g), ids[0], c.w[ids[1]].view)
  {
    var e := Elect(c, g);
    assert c.w[ids[1 - 1]].prevId == ids[1];
    forall r, i | r in e.logs && 0 <= i < |e.logs[r]| && e.logs[r][i].id == ids[0]
      ensures c.w[ids[1]].view <= 1 || e.logs[r][i].pref >= c.w[ids[1]].view
    {
      assert Locked2(c.w, g[r].journal[i]);
    }
  }

  lemma FiredConsecutive2(w: World, d: Decided)
    requires Fired2(w, d) && Labelled(w, d)
    ensures Consecutive(w, [d.qc.blockId, d.block.id])
  {
    assert [d.qc.blockId, d.block.id][1] == d.block.id;
  }

  lemma DecidedIsDecision2(c: Setup, g: Network, d: Decided)
    requires Fair(Elect(c, g)) && LogsOk(Elect(c, g)) && Fired2(c.w, d) && ForCertified(Elect(c, g), d.qc)
    requires VotesLocked2(c, g) && VotesJustified(c, g)
    ensures Decision(Elect(c, g), [d.qc.blockId, d.block.id])
  {
    var e, ids := Elect(c, g), [d.qc.blockId, d.block.id];
    hide VotesLocked2, LogsOk, Justified, Certified, Fired2, LockedOn;
    FiredConsecutive2(c.w, d);
    LockedTop2(c, g, ids);
    forall k | 0 <= k < |ids| ensures Certified(e, ids[k]) {
      CertifiedDown(e, ids, k);
    }
  }

  lemma GoodLogs2(c: Setup, g: Network)
    requires Proper(c) && AllGood2(c, g, false)
    ensures Fair(Elect(c, g)) && LogsOk(Elect(c, g)) && (VotesInOrder(g) ==> AllInOrder(Elect(c, g)))
  {
    hide ForestKnown, BufferFits, AllDecided, AllFired2, BallotOk, InOrder;
  }

  lemma RunDecision2(c: Setup, evs: seq<Event2>, r: Node, k: nat)
    requires Proper(c) && Disciplined2(c, Run2(c, evs)) && r in Run2(c, evs) && k < |Run2(c, evs)[r].decisions|
    ensures var d := Run2(c, evs)[r].decisions[k]; Decision(Elect(c, Run2(c, evs)), [d.qc.blockId, d.block.id])
  {
    var g := Run2(c, evs);
    RunGood2(c, evs, false);
    assert Fired2(c.w, g[r].decisions[k]) by { hide Run2, Sane, Fired2; }
    assert ForCertified(Elect(c, g), g[r].decisions[k].qc);
    hide Run2, Fired2, ForCertified, VotesLocked2, VotesJustified, LogsOk, Good2, Decision, VotesInOrder;
    GoodLogs2(c, g);
    DecidedIsDecision2(c, g, g[r].decisions[k]);
  }

  lemma FairRun2(c: Setup, evs: seq<Event2>)
    requires Proper(c) && Disciplined2(c, Run2(c, evs))
    ensures var e := Elect(c, Run2(c, evs));
            Fair(e) && LogsOk(e) && AllInOrder(e) && Justified(e, 2) && e.w == c.w
  {
    RunGood2(c, evs, false);
    hide Run2, Good2, VotesLocked2, CommitsCertified, LogsOk, AllInOrder, Justified, Fair, VotesInOrder;
    GoodLogs2(c, Run2(c, evs));
    JustifiedAbove(Elect(c, Run2(c, evs)), 2);
  }

  /** Agreement on decisions for the two-chain rule. */
  lemma DecisionsOnOneChain2(c: Setup, evs: seq<Event2>, r: Node, k: nat, q: Node, l: nat)
    requires Proper(c) && Disciplined2(c, Run2(c, evs))
    requires var g := Run2(c, evs); r in g && q in g && k < |g[r].decisions| && l < |g[q].decisions|
    ensures var g := Run2(c, evs); OnOneChain(c.w, g[r].decisions[k].block.id, g[q].decisions[l].block.id)
  {
    hide Run2, Disciplined2, Decision, Fair, LogsOk, AllInOrder, Justified, Elect, OnOneChain;
    var g := Run2(c, evs);
    FairRun2(c, evs);
    RunDecision2(c, evs, r, k);
    RunDecision2(c, evs, q, l);
    var a, b := g[r].decisions[k], g[q].decisions[l];
    DecisionsAgree(Elect(c, g), [a.qc.blockId, a.block.id], [b.qc.blockId, b.block.id]);
  }

  lemma CommittedDecided2(c: Setup, evs: seq<Event2>, r: Node, i: nat) returns (k: nat)
    requires Proper(c)
    requires var g := Run2(c, evs); r in g && i < |g[r].committed|
    ensures var s := Run2(c, evs)[r]; k < |s.decisions| && Descends(c.w, s.decisions[k].block.id, s.committed[i].id)
  {
    RunGood2(c, evs, false);
    var s := Run2(c, evs)[r];
    assert IsDecided(c.w, s.decisions, s.committed[i]) by { hide ForestKnown, BufferFits, JournalOk, Run2; }
    k :| 0 <= k < |s.decisions| && Descends(c.w, s.decisions[k].block.id, s.committed[i].id);
  }

  /** Agreement for the two-chain rule. Although certificates may carry any view and name any block, and although
      proposers that are not faulty overwrite the view, any two blocks committed by replicas that are not faulty are on
      one chain, in every run in which votes are in order, under the lock of their block and for blocks with certified
      parents, and commits are made on certificates for certified blocks with the views of these blocks. */
  lemma Agreement2(c: Setup, evs: seq<Event2>, r: Node, i: nat, q: Node, j: nat)
    requires Proper(c) && Disciplined2(c, Run2(c, evs))
    requires var g := Run2(c, evs); r in g && q in g && i < |g[r].committed| && j < |g[q].committed|
    ensures var g := Run2(c, evs); OnOneChain(c.w, g[r].committed[i].id, g[q].committed[j].id)
  {
    hide Run2, Disciplined2;
    var g := Run2(c, evs);
    var k := CommittedDecided2(c, evs, r, i);
    var l := CommittedDecided2(c, evs, q, j);
    DecisionsOnOneChain2(c, evs, r, k, q, l);
    CommonChain(c.w, g[r].decisions[k].block.id, g[q].decisions[l].block.id,
                g[r].committed[i].id, g[q].committed[j].id);
  }
}
