/** When the conditions on votes and commits hold at a two-chain HotStuff replica. */
module TwoChainFacts {
  import opened Types
  import opened Tally
  import opened Quorums
  import opened Forests
  import opened Worlds
  import opened BlockChains
  import opened Pacemakers
  import opened Safety
  import opened Outputs
  import opened HotStuffs
  import opened HotStuffLogs
  import opened HotStuffInvariant
  import opened HotStuffRuns
  import opened HotStuffFacts
  import opened TwoChain
  import opened TwoChainRuns

  // ---------------------------------------------------------------- votes without the lock

  /** The certificate raises the lock to its own view. */
  ghost predicate Locks(s: Replica, qc: QC) {
    !Ignores(s, qc) && qc.view >= 2 && GetVertex(s.chain.forest, qc.blockId).Some?
  }

  lemma QCLock(s: Replica, qc: QC)
    ensures OnQC(s, qc).preferredView == if Locks(s, qc) then Max(s.preferredView, qc.view) else s.preferredView
  {
    hide GetVertex;
  }

  /** The state after the certificate of the block. */
  ghost function Vetted2(s: Replica, b: Block): Replica {
    var s1 := UpdateHighQC(s, b.qc);
    if b.proposer != s.id then OnQC(s1, b.qc) else s1
  }

  /** The state after the block was stored and its commit made, where a waiting certificate is looked for. */
  ghost function Tidied(s: Replica, b: Block): Replica {
    var s2 := Vetted2(s, b);
    CommitOn(s2.(chain := s2.chain.(forest := Add(s2.chain.forest, b))), b).1
  }

  lemma VettedLock2(s: Replica, b: Block)
    ensures Vetted2(s, b).preferredView
         == if b.proposer != s.id && Locks(s, b.qc) then Max(s.preferredView, b.qc.view) else s.preferredView
  {
    var s1 := UpdateHighQC(s, b.qc);
    QCLock(s1, b.qc);
    assert Locks(s1, b.qc) <==> Locks(s, b.qc) by { hide GetVertex; }
    hide OnQC, Locks;
  }

  lemma TidiedLock(s: Replica, b: Block)
    ensures Tidied(s, b).preferredView == Vetted2(s, b).preferredView
  {
    hide Vetted2, Add, CommitRule2, CommitBlock;
  }

  lemma TakeUpLock2(s: Replica, b: Block)
    requires TakeUp2(s, b).0
    ensures var u := Tidied(s, b);
            TakeUp2(s, b).1.preferredView
            == if b.id in u.bufferedQCs then OnQC(u, u.bufferedQCs[b.id]).preferredView else u.preferredView
  {
    hide OnQC, Add, CommitOn, UpdateHighQC;
  }

  /** The view of the block's parent. */
  ghost function ParentView2(w: World, b: Block): View {
    if b.prevId in w then w[b.prevId].view else 0
  }

  /** A vote is cast under the lock of its block if and only if the parent is of view 1 or there is none, the replica
      was locked at the parent before, or the handler got to process the block's certificate, or a waiting one for the
      block itself, with at least the parent's view in it. */
  lemma VoteLocked2Iff(w: World, s: Replica, b: Block)
    requires Known(w, b) && TakeUp2(s, b).0
    ensures var u, v := Tidied(s, b), ParentView2(w, b);
            Locked2(w, Ballot(b.view, b.id, TakeUp2(s, b).1.preferredView))
            <==> || v <= 1 || s.preferredView >= v
                 || (b.proposer != s.id && Locks(s, b.qc) && b.qc.view >= v)
                 || (b.id in u.bufferedQCs && Locks(u, u.bufferedQCs[b.id]) && u.bufferedQCs[b.id].view >= v)
  {
    var u := Tidied(s, b);
    TakeUpLock2(s, b);
    TidiedLock(s, b);
    VettedLock2(s, b);
    if b.id in u.bufferedQCs {
      QCLock(u, u.bufferedQCs[b.id]);
    }
    hide TakeUp2, Tidied, Vetted2, OnQC, Locks;
  }

  // ---------------------------------------------------------------- blocks with verified certificates

  /** Votes are justified, commits certified, and what waits has certified parents. */
  ghost predicate AllVouched2(e: Electorate, s: Replica) {
    && AllVouched(e, s)
    && (forall j :: 0 <= j < |s.decisions| ==> Certified(e, s.decisions[j].qc.blockId))
  }

  lemma AlikeVouched(e: Electorate, s: Replica, t: Replica)
    requires AllVouched2(e, s) && Alike(s, t)
    ensures AllVouched2(e, t)
  {
    hide Vouched, JustifiedBallot, Certified;
  }

  /** The rule does not fire on a certificate for the genesis block. */
  lemma FiredNotGenesis(w: World, f: Forest, b: Block)
    requires Ordered(w) && ForestKnown(w, f) && CommitRule2(f, b).Some?
    ensures b.qc.blockId != GENESIS
  {
    ParentKnown(w, f, b.qc.blockId);
  }

  lemma FinishVouched(e: Electorate, s: Replica, d: Decided)
    requires AllVouched2(e, s) && Certified(e, d.qc.blockId)
    ensures AllVouched2(e, Finish(s, d))
  {
    hide Vouched, JustifiedBallot, Certified, Finish;
    FinishKeeps(s, d);
  }

  lemma CommitOnVouched(e: Electorate, s: Replica, b: Block)
    requires Sane(e, s) && AllVouched2(e, s) && b.hasQC && Named(b) && Vouched(e, b)
    ensures AllVouched2(e, CommitOn(s, b).1)
  {
    hide AllVouched2, Certified, Finish, CommitRule2, CommitBlock, JournalOk, AllDecided, BufferFits, Known;
    if b.qc.view >= 2 && b.qc.view + 1 == b.view && CommitRule2(s.chain.forest, b).Some? {
      FiredNotGenesis(e.w, s.chain.forest, b);
      FinishVouched(e, s, Decided(CommitRule2(s.chain.forest, b).value, b.qc));
    }
  }

  lemma StoreVouched(e: Electorate, s: Replica, b: Block)
    requires AllVouched2(e, s) && Vouched(e, b)
    ensures AllVouched2(e, s.(chain := s.chain.(forest := Add(s.chain.forest, b))))
    ensures b.view >= 1 ==> AllVouched2(e, s.(bufferedBlocks := s.bufferedBlocks[b.view - 1 := b]))
  {
    hide Vouched, JustifiedBallot, Certified, Add;
  }

  lemma TakeUpVouched(e: Electorate, s: Replica, b: Block)
    requires Good2(e, s, true) && AllVouched2(e, s) && Fitting(e.w, b) && Named(b) && Vouched(e, b)
    ensures AllVouched2(e, TakeUp2(s, b).1)
  {
    hide Good2, OnQC, Add, CommitOn, Replay2, UpdateHighQC, Known, Alike, AllVouched2, Vouched, Named;
    StoreVouched(e, s, b);
    if b.view <= s.pm.curView + 1 && b.hasQC {
      var s1 := UpdateHighQC(s, b.qc);
      QCAlike(s, b.qc);
      AlikeVouched(e, s, s1);
      AlikeGood(e, s, s1, true);
      QCAlike(s1, b.qc);
      AlikeVouched(e, s1, OnQC(s1, b.qc));
      AlikeGood(e, s1, OnQC(s1, b.qc), true);
      var s2 := if b.proposer != s.id then OnQC(s1, b.qc) else s1;
      StoreVouched(e, s2, b);
      StoreGood2(e, s2, b, true);
      var s3 := s2.(chain := s2.chain.(forest := Add(s2.chain.forest, b)));
      GoodSane(e, s3);
      CommitOnVouched(e, s3, b);
      var s4 := CommitOn(s3, b).1;
      ReplayAlike(s4, b.id);
      AlikeVouched(e, s4, Replay2(s4, b.id));
    }
  }

  lemma GoodSane(e: Electorate, s: Replica)
    requires Good2(e, s, true)
    ensures Sane(e, s)
  {
  }

  lemma CastVouched(e: Electorate, s: Replica, b: Block)
    requires AllVouched2(e, s) && b.hasQC && Vouched(e, b)
    ensures AllVouched2(e, CastVote2(s, b))
  {
    var s1 := s.(journal := s.journal + [Ballot(b.view, b.id, s.preferredView)]);
    var own := Vote(b.view, s.id, b.id, true);
    assert AllVouched2(e, s1) by { hide Certified; }
    hide OnVote2, Alike, AllVouched2, Vouched;
    VoteAlike(s1, own);
    AlikeVouched(e, s1, OnVote2(s1, own));
  }

  lemma OneVouched2(e: Electorate, s: Replica, b: Block)
    requires Good2(e, s, true) && AllVouched2(e, s) && Fitting(e.w, b) && Named(b) && Vouched(e, b)
    ensures AllVouched2(e, OnOne2(s, b).1)
  {
    hide TakeUp2, Good2, VotingRule, CastVote2, Named, AllVouched2, Vouched, Fitting;
    TakeUpVouched(e, s, b);
    TakenHasQC2(s, b);
    var (taken, s1) := TakeUp2(s, b);
    if taken && VotingRule(s1, b) {
      CastVouched(e, s1, b);
    }
  }

  lemma BufferedVouched(e: Electorate, s: Replica, k: View)
    requires AllVouched2(e, s) && k in s.bufferedBlocks
    ensures Vouched(e, s.bufferedBlocks[k])
  {
    hide Vouched, JustifiedBallot, Certified;
  }

  lemma {:induction false} BlockVouched2(e: Electorate, s: Replica, b: Block)
    requires Good2(e, s, true) && Filed(s.bufferedBlocks) && AllVouched2(e, s)
    requires Fitting(e.w, b) && Named(b) && Vouched(e, b)
    requires OnBlock2(s, b).journal <= e.logs[s.id]
    ensures AllVouched2(e, OnBlock2(s, b))
    decreases Waiting(s.bufferedBlocks, b.view)
  {
    assert s.id in e.logs by { hide OnOne2, OnBlock2; }
    hide OnOne2, Fitting, Named, Good2, AllVouched2, Vouched;
    var (voted, s1) := OnOne2(s, b);
    OneFrame2(s, b);
    OneVouched2(e, s, b);
    if voted && b.view in s1.bufferedBlocks {
      assert b.view in Waiting(s.bufferedBlocks, b.view) && b.view !in Waiting(s.bufferedBlocks, b.view + 1);
      var b' := s1.bufferedBlocks[b.view];
      assert s1.journal <= OnBlock2(s1, b').journal <= e.logs[s.id];
      OneGood2(e, s, b, true);
      BufferedGood2(e, s1, b.view, true);
      BufferedVouched(e, s1, b.view);
      BlockVouched2(e, s1, b');
    }
  }

  lemma RelabelVouched(e: Electorate, s: Replica, qcs: set<Id>, blocks: set<View>)
    requires AllVouched2(e, s) && s.pm.curView >= 1
    ensures AllVouched2(e, Relabel(s, qcs, blocks))
  {
    hide Certified, JustifiedBallot;
    var t := Relabel(s, qcs, blocks);
    forall k | k in t.bufferedBlocks ensures Vouched(e, t.bufferedBlocks[k]) {
      assert Vouched(e, s.bufferedBlocks[k]);
    }
  }

  /** A block that is delivered has a certified parent, and its certificate is for that parent. */
  ghost predicate VouchedEvent(e: Electorate, ev: Event2) {
    ev.Net? && ev.ev.BlockTo? ==> Named(ev.ev.block) && Vouched(e, ev.ev.block)
  }

  lemma HandleVouched2(c: Setup, g: Network, ev: Event2, e: Electorate)
    requires Enabled2(c, g, ev) && e.w == c.w && VouchedEvent(e, ev)
    requires var s := g[At2(ev)];
             && Good2(e, s, true) && AllVouched2(e, s) && s.id == At2(ev) && s.id in e.logs
             && Handle2(s, ev).journal <= e.logs[s.id]
    ensures AllVouched2(e, Handle2(g[At2(ev)], ev))
  {
    hide Good2, OnBlock2, OnVote2, OnTmo2, Relabel, Fitting, Named, Alike, AllVouched2, Vouched;
    var s := g[At2(ev)];
    match ev
    case Net(BlockTo(_, b)) => BlockVouched2(e, s, b);
    case Net(VoteTo(_, v)) =>
      VoteAlike(s, v);
      AlikeVouched(e, s, OnVote2(s, v));
    case Net(TmoTo(_, tmo)) =>
      TmoAlike(s, tmo);
      AlikeVouched(e, s, OnTmo2(s, tmo));
    case Net(TimeoutAt(_)) =>
      var s1 := Advanced(s, s.pm.curView + 1);
      PmAlike(s, s1.pm);
      AlikeVouched(e, s, s1);
      var tmo := Tmo(s.pm.curView + 1, s.id, s1.highQC);
      TmoAlike(s1, tmo);
      AlikeVouched(e, s1, OnTmo2(s1, tmo));
    case Net(StartAt(_)) =>
      PmAlike(s, KickOff(s).pm);
      AlikeVouched(e, s, KickOff(s));
    case ProposeAt(_, qcs, blocks) => RelabelVouched(e, s, qcs, blocks);
  }

  lemma VouchedGrows2(e: Electorate, d: Electorate, s: Replica)
    requires Grows(e, d) && AllVouched2(e, s)
    ensures AllVouched2(d, s)
  {
    hide AllVouched, Certified, Grows;
    VouchedGrows(e, d, s);
    forall j | 0 <= j < |s.decisions| ensures Certified(d, s.decisions[j].qc.blockId) {
      CertifiedGrows(e, d, s.decisions[j].qc.blockId);
    }
  }

  ghost predicate NetVouched2(c: Setup, g: Network) {
    forall r :: r in g ==> AllVouched2(Elect(c, g), g[r])
  }

  lemma EventGrows(e: Electorate, d: Electorate, ev: Event2)
    requires Grows(e, d) && VouchedEvent(e, ev)
    ensures VouchedEvent(d, ev) && NamedEvent(ev)
  {
    hide Grows, Vouched;
    if ev.Net? && ev.ev.BlockTo? {
      VouchedLater(e, d, ev.ev.block);
    }
  }

  lemma StepVouched2(c: Setup, g: Network, ev: Event2)
    requires AllGood2(c, g, true) && NetVouched2(c, g) && VouchedEvent(Elect(c, g), ev)
    ensures NetVouched2(c, Step2(c, g, ev))
  {
    hide Handle2, Good2, Grows, Filed, At2, Enabled2, AllVouched2, VouchedEvent, NamedEvent;
    if Enabled2(c, g, ev) {
      var h, r := Step2(c, g, ev), At2(ev);
      var e, d := Elect(c, g), Elect(c, h);
      EnabledFiled(c, g, ev);
      StepGrows2(c, g, ev);
      SameWorld(e, d);
      assert e.w == c.w;
      hide Elect;
      HandleSame2(g[r], ev);
      GoodGrows2(e, d, g[r], true);
      VouchedGrows2(e, d, g[r]);
      EventGrows(e, d, ev);
      HandleVouched2(c, g, ev, d);
      forall x | x in h ensures AllVouched2(d, h[x]) {
        if x != r {
          VouchedGrows2(e, d, g[x]);
        }
      }
    }
  }

  ghost predicate AllChecked2(c: Setup, evs: seq<Event2>) {
    forall i :: 0 <= i < |evs| ==> VouchedEvent(Elect(c, Run2(c, evs[..i])), evs[i])
  }

  lemma CheckedBefore(c: Setup, evs: seq<Event2>, k: nat)
    requires AllChecked2(c, evs) && k <= |evs|
    ensures AllChecked2(c, evs[..k])
  {
    hide Run2, VouchedEvent, Elect;
    forall i | 0 <= i < k ensures VouchedEvent(Elect(c, Run2(c, evs[..k][..i])), evs[..k][i]) {
      assert evs[..k][..i] == evs[..i];
    }
  }

  lemma CheckedNamed(c: Setup, evs: seq<Event2>)
    requires AllChecked2(c, evs)
    ensures AllNamed(evs)
  {
    hide Run2, Elect, Named, Vouched;
    forall i | 0 <= i < |evs| ensures NamedEvent(evs[i]) {
      assert VouchedEvent(Elect(c, Run2(c, evs[..i])), evs[i]);
    }
  }

  lemma {:induction false} RunVouched2(c: Setup, evs: seq<Event2>)
    requires Proper(c) && AllChecked2(c, evs)
    ensures NetVouched2(c, Run2(c, evs))
  {
    if evs != [] {
      var m := |evs| - 1;
      CheckedBefore(c, evs, m);
      RunVouched2(c, evs[..m]);
      CheckedNamed(c, evs[..m]);
      RunGood2(c, evs[..m], true);
      hide NetVouched2, VouchedEvent, AllGood2;
      StepVouched2(c, Run2(c, evs[..m]), evs[m]);
    }
  }

  /** If every delivered block has a certified parent, and a certificate for that parent, then votes are justified and
      commits are made on certified blocks. */
  lemma CheckedRun2(c: Setup, evs: seq<Event2>)
    requires Proper(c) && AllChecked2(c, evs)
    ensures VotesJustified(c, Run2(c, evs)) && CommitsCertified(c, Run2(c, evs))
  {
    RunVouched2(c, evs);
    CheckedNamed(c, evs);
    var g := Run2(c, evs);
    forall r, k | r in g && 0 <= k < |g[r].decisions| ensures ForCertified(Elect(c, g), g[r].decisions[k].qc) {
      CommitLabels(c, evs, r, k);
      hide Run2, Certified, AllVouched;
    }
    hide Run2, JustifiedBallot, Vouched, Certified;
  }
}
