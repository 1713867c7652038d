/** What single HotStuff handlers guarantee, and where they stop short of the voting argument's needs. */
module HotStuffFacts {
  import opened Types
  import opened Quorums
  import opened Forests
  import opened Worlds
  import opened BlockChains
  import opened Pacemakers
  import opened Safety
  import opened Outputs
  import opened HotStuffs
  import opened HotStuffLogs
  import opened HotStuffInvariant
  import opened HotStuffRuns

  // ---------------------------------------------------------------- which blocks are stored

  /** The state in which the handler decides whether the block is stale. */
  ghost function Vetted(s: Replica, b: Block): Replica {
    var s1 := UpdateHighQC(s, b.qc);
    if b.proposer != s.id then OnCertificate(s1, b.qc) else s1
  }

  /** The handler reaches the call that stores the block. */
  ghost predicate Stores(s: Replica, b: Block) {
    && b.view <= s.pm.curView + 1 && b.hasQC
    && !Vetted(s, b).halted && b.view >= Vetted(s, b).pm.curView && b.proposer == s.leaderOf(b.view)
  }

  /** The certificate is fresh, but the block it certifies or that block's parent is not held: it has to wait. */
  ghost predicate MustWait(s: Replica, qc: QC) {
    qc.view >= s.pm.curView && qc.view > 2 && GetParent(s.chain.forest, qc.blockId).None?
  }

  lemma VettedView(s: Replica, b: Block)
    requires b.proposer != s.id && (b.qc.valid || b.qc.leader == s.id)
    ensures !MustWait(s, b.qc) ==> Vetted(s, b).pm.curView > b.qc.view
    ensures MustWait(s, b.qc) ==> Vetted(s, b).pm.curView == s.pm.curView && Vetted(s, b).halted == s.halted
  {
    var s1 := UpdateHighQC(s, b.qc);
    assert s1.pm == s.pm && s1.chain == s.chain;
    if !Ignores(s1, b.qc) && UpdatePreferredView(s1, b.qc).Some? {
      var s2 := UpdateHighQC(Advanced(UpdatePreferredView(s1, b.qc).value, b.qc.view), b.qc);
      if b.qc.view >= 3 && CommitRule(s2.chain.forest, b.qc).Some? {
        FinishFrame(s2, Decided(CommitRule(s2.chain.forest, b.qc).value, b.qc));
      }
    }
    hide Finish, CommitRule, GetParent;
  }

  /** A block from another replica with a verified certificate is stored only if it is above that certificate,
      whatever views and timeouts came before, unless the certificate has to wait; then the views let through are
      the current one and the next, however high the certificate is. */
  lemma ViewGating(s: Replica, b: Block)
    requires b.proposer != s.id && (b.qc.valid || b.qc.leader == s.id)
    ensures !MustWait(s, b.qc) && Stores(s, b) ==> b.view > b.qc.view
    ensures MustWait(s, b.qc) && !s.halted && b.hasQC && b.proposer == s.leaderOf(b.view) ==>
              (Stores(s, b) <==> s.pm.curView <= b.view <= s.pm.curView + 1)
  {
    VettedView(s, b);
    hide Vetted;
  }

  // ---------------------------------------------------------------- proposals

  /** A leader that has stored its own proposal passes its own lock, whenever the proposal's parent is held and the
      highest certificate is one that the leader would accept. */
  lemma ProposalPassesLock(e: Electorate, s: Replica, view: View, id: Id)
    requires Good(e, s) && view > s.lastVotedView && (s.highQC.valid || s.highQC.leader == s.id)
    requires var f := s.chain.forest;
             GetVertex(f, id) == Some(Proposal(s, view, id)) && GetVertex(f, s.highQC.blockId).Some?
    ensures VotingRule(s, Proposal(s, view, id))
  {
    assert Known(e.w, GetVertex(s.chain.forest, s.highQC.blockId).value);
  }

  /** The replica leads the view, is in it or right before it, and has not heard of the identifier. */
  ghost predicate CanPropose(s: Replica, view: View, id: Id) {
    && !s.halted && s.leaderOf(view) == s.id && s.pm.curView <= view <= s.pm.curView + 1
    && view >= s.chain.forest.lowest && id != s.highQC.blockId
    && GetVertex(s.chain.forest, id).None? && id !in s.bufferedQCs
  }

  lemma ProposalTaken(s: Replica, view: View, id: Id)
    requires CanPropose(s, view, id)
    ensures var b := Proposal(s, view, id);
            TakeUp(s, b) == (true, s.(chain := s.chain.(forest := Add(s.chain.forest, b))))
  {
    hide Add;
  }

  /** A leader stores its own proposal, whatever certificate it is on; above view 2, with the parent held, it votes for
      it if and only if the view is above the last voted one and the parent is not below the lock. */
  lemma ProposalPassesIff(s: Replica, view: View, id: Id)
    requires CanPropose(s, view, id) && view > 2 && GetVertex(s.chain.forest, s.highQC.blockId).Some?
    ensures var b := Proposal(s, view, id);
            && TakeUp(s, b).0 && GetVertex(TakeUp(s, b).1.chain.forest, id) == Some(b)
            && (OnOne(s, b).1.journal != s.journal
                <==> && view > s.lastVotedView
                     && GetVertex(s.chain.forest, s.highQC.blockId).value.view >= s.preferredView)
  {
    var b := Proposal(s, view, id);
    ProposalTaken(s, view, id);
    AddVertexMap(s.chain.forest, b, id);
    AddVertexMap(s.chain.forest, b, s.highQC.blockId);
    var t := TakeUp(s, b).1;
    VoteFrame(t.(journal := t.journal + [Ballot(b.view, b.id, t.preferredView)]), Vote(b.view, t.id, b.id, true));
    hide Add, TakeUp, OnVote, Later;
  }

  // ---------------------------------------------------------------- buffered blocks

  lemma OneJournal(s: Replica, b: Block)
    ensures var (voted, t) := OnOne(s, b);
            && (t.journal == s.journal
                || (|t.journal| == |s.journal| + 1 && s.journal <= t.journal
                    && t.journal[|s.journal|].view == b.view && t.journal[|s.journal|].id == b.id))
            && (voted ==> |t.journal| == |s.journal| + 1)
  {
    TakeUpFrame(s, b);
    var s1 := TakeUp(s, b).1;
    VoteFrame(s1.(journal := s1.journal + [Ballot(b.view, b.id, s1.preferredView)]), Vote(b.view, s1.id, b.id, true));
    hide TakeUp, OnVote, VotingRule;
  }

  /** From position `k` on, the votes are for `b` and then for buffered blocks, one view after the other. */
  ghost predicate Climbs(buffer: map<View, Block>, journal: seq<Ballot>, k: nat, b: Block) {
    forall i :: k <= i < |journal| ==>
      && journal[i].view == b.view + (i - k)
      && (i == k ==> journal[i].id == b.id)
      && (i > k ==> journal[i].view - 1 in buffer && journal[i].id == buffer[journal[i].view - 1].id)
  }

  lemma ClimbStep(buffer: map<View, Block>, journal: seq<Ballot>, k: nat, b: Block)
    requires Filed(buffer) && b.view in buffer && k < |journal|
    requires journal[k].view == b.view && journal[k].id == b.id
    requires Climbs(buffer, journal, k + 1, buffer[b.view])
    ensures Climbs(buffer, journal, k, b)
  {
  }

  /** The votes cast in one call climb through the buffer, so the chain of calls ends with the buffered blocks at
      the latest. */
  lemma {:induction false} CascadeClimbs(s: Replica, b: Block)
    requires Filed(s.bufferedBlocks)
    ensures Climbs(s.bufferedBlocks, OnBlock(s, b).journal, |s.journal|, b)
    ensures |OnBlock(s, b).journal| <= |s.journal| + 1 + |Waiting(s.bufferedBlocks, b.view)|
    decreases Waiting(s.bufferedBlocks, b.view)
  {
    hide TakeUp, CastVote, VotingRule, OnOne;
    var (voted, s1) := OnOne(s, b);
    OneFrame(s, b);
    OneJournal(s, b);
    if voted && b.view in s1.bufferedBlocks {
      assert b.view in Waiting(s.bufferedBlocks, b.view) && b.view !in Waiting(s.bufferedBlocks, b.view + 1);
      assert Waiting(s.bufferedBlocks, b.view) == Waiting(s.bufferedBlocks, b.view + 1) + {b.view};
      var b' := s1.bufferedBlocks[b.view];
      CascadeClimbs(s1, b');
      var u := OnBlock(s1, b');
      assert OnBlock(s, b).journal == u.journal;
      assert u.journal[|s.journal|] == s1.journal[|s.journal|];
      hide OnBlock, Climbs;
      ClimbStep(s.bufferedBlocks, u.journal, |s.journal|, b);
    }
  }

  // ---------------------------------------------------------------- votes without the lock

  /** Processing the block's certificate raises the lock to the block's grandparent. */
  ghost predicate LocksOnQC(s: Replica, b: Block) {
    && b.proposer != s.id && !Ignores(s, b.qc)
    && GetParent(s.chain.forest, b.qc.blockId).Some?
  }

  ghost function Stored(s: Replica, b: Block): Replica {
    var s2 := Vetted(s, b);
    s2.(chain := s2.chain.(forest := Add(s2.chain.forest, b)))
  }

  /** A certificate of the block itself was waiting and raises the lock to the block's parent. */
  ghost predicate LocksOnOwn(s: Replica, b: Block) {
    var s3 := Stored(s, b);
    && b.id in s3.bufferedQCs && !Ignores(s3, s3.bufferedQCs[b.id]) && s3.bufferedQCs[b.id].view > 2
    && GetParent(s3.chain.forest, b.id).Some?
  }

  /** The lock after a certificate. */
  lemma CertificateLock(s: Replica, qc: QC)
    ensures OnCertificate(s, qc).preferredView
         == if !Ignores(s, qc) && qc.view > 2 && GetParent(s.chain.forest, qc.blockId).Some?
            then Max(s.preferredView, GetParent(s.chain.forest, qc.blockId).value.view) else s.preferredView
  {
    if !Ignores(s, qc) && UpdatePreferredView(s, qc).Some? {
      var s1 := UpdateHighQC(Advanced(UpdatePreferredView(s, qc).value, qc.view), qc);
      if qc.view >= 3 && CommitRule(s1.chain.forest, qc).Some? {
        FinishLock(s1, Decided(CommitRule(s1.chain.forest, qc).value, qc));
      }
    }
    hide Finish, CommitRule, GetParent;
  }

  lemma FinishLock(s: Replica, d: Decided)
    ensures Finish(s, d).preferredView == s.preferredView
  {
    hide GetVertex, Prune, CommitPath, IdsOf;
  }

  lemma TakeUpLock(s: Replica, b: Block)
    requires TakeUp(s, b).0
    ensures var s3 := Stored(s, b);
            TakeUp(s, b).1.preferredView
            == if b.id in s3.bufferedQCs then OnCertificate(s3, s3.bufferedQCs[b.id]).preferredView
               else Vetted(s, b).preferredView
  {
    hide OnCertificate, Add;
  }

  /** The view of the block's grandparent. */
  ghost function GrandView(w: World, b: Block): View {
    if b.prevId in w && w[b.prevId].prevId in w then w[w[b.prevId].prevId].view else 0
  }

  /** The certificate of the block is for its parent and carries the parent's view. */
  ghost predicate Names(w: World, b: Block) {
    b.qc.blockId == b.prevId && b.qc.view == if b.prevId in w then w[b.prevId].view else 0
  }

  lemma ParentView(w: World, f: Forest, b: Block)
    requires Ordered(w) && ForestKnown(w, f) && GetParent(f, b.prevId).Some?
    ensures b.prevId in w && GetParent(f, b.prevId).value.view == GrandView(w, b)
  {
    ParentKnown(w, f, b.prevId);
  }

  lemma VettedLock(e: Electorate, s: Replica, b: Block)
    requires Light(e, s) && Known(e.w, b) && Names(e.w, b) && b.qc.view > 2
    ensures Vetted(s, b).preferredView >= GrandView(e.w, b)
            <==> s.preferredView >= GrandView(e.w, b) || LocksOnQC(s, b)
  {
    var s1 := UpdateHighQC(s, b.qc);
    CertificateLock(s1, b.qc);
    assert s1.pm == s.pm && s1.chain == s.chain && s1.id == s.id && s1.preferredView == s.preferredView;
    if GetParent(s.chain.forest, b.qc.blockId).Some? {
      ParentView(e.w, s.chain.forest, b);
    }
    hide OnCertificate, ForestKnown, BufferFits, JournalOk, AllDecided, AllFired, Keyed, GrandView, GetParent;
  }

  lemma StoredLight(e: Electorate, s: Replica, b: Block)
    requires Light(e, s) && Known(e.w, b) && b.hasQC
    ensures Light(e, Stored(s, b)) && Stored(s, b).preferredView == Vetted(s, b).preferredView
  {
    hide Light, OnCertificate, Add, Known, UpdateHighQC;
    ChangeLight(e, s, s.chain.votes, b.qc, s.pm);
    CertificateLight(e, UpdateHighQC(s, b.qc), b.qc);
    StoreLight(e, Vetted(s, b), b);
  }

  lemma OwnParent(e: Electorate, s: Replica, b: Block)
    requires Light(e, s) && Known(e.w, b) && GetParent(s.chain.forest, b.id).Some?
    ensures b.prevId in e.w && GetParent(s.chain.forest, b.id).value.view == e.w[b.prevId].view >= GrandView(e.w, b)
  {
    ParentKnown(e.w, s.chain.forest, b.id);
    hide ForestKnown, BufferFits, JournalOk, AllDecided, AllFired, Keyed;
  }

  lemma OwnLock(e: Electorate, s: Replica, b: Block)
    requires Light(e, s) && Known(e.w, b) && b.hasQC && b.id in Stored(s, b).bufferedQCs
    ensures OnCertificate(Stored(s, b), Stored(s, b).bufferedQCs[b.id]).preferredView >= GrandView(e.w, b)
            <==> Stored(s, b).preferredView >= GrandView(e.w, b) || LocksOnOwn(s, b)
  {
    StoredLight(e, s, b);
    var s3 := Stored(s, b);
    LightKeyed(e, s3);
    assert s3.bufferedQCs[b.id].blockId == b.id;
    hide OnCertificate, Light, Stored, GrandView, GetParent, Known;
    CertificateLock(s3, s3.bufferedQCs[b.id]);
    if GetParent(s3.chain.forest, b.id).Some? {
      OwnParent(e, s3, b);
    }
  }

  lemma LockedMeans(w: World, b: Block, pref: View)
    requires Known(w, b) && Names(w, b)
    ensures Locked(w, Ballot(b.view, b.id, pref)) <==> b.qc.view <= 2 || pref >= GrandView(w, b)
  {
  }

  /** A vote is cast under the lock of its block if and only if the replica was locked there before, or the
      handler got to process the block's certificate, which it skips when that certificate is older than the
      current view. */
  lemma VoteLockedIff(e: Electorate, s: Replica, b: Block)
    requires Light(e, s) && Known(e.w, b) && Names(e.w, b) && TakeUp(s, b).0
    ensures Locked(e.w, Ballot(b.view, b.id, TakeUp(s, b).1.preferredView))
            <==> || b.qc.view <= 2 || s.preferredView >= GrandView(e.w, b)
                 || LocksOnQC(s, b) || LocksOnOwn(s, b)
  {
    hide TakeUp, OnCertificate, Vetted, Stored, LocksOnQC, Light, GrandView, Locked, Known;
    TakenHasQC(s, b);
    TakeUpLock(s, b);
    LockedMeans(e.w, b, TakeUp(s, b).1.preferredView);
    if b.qc.view > 2 {
      VettedLock(e, s, b);
      StoredLight(e, s, b);
      if b.id in Stored(s, b).bufferedQCs {
        OwnLock(e, s, b);
      }
    }
  }

  // ---------------------------------------------------------------- votes out of order

  /** A vote keeps the votes of a replica in order if and only if it is above the replica's last vote or repeats it:
      the comparison with the last voted view, which the voting rule makes with a view that is never recorded. */
  lemma VoteOrderIff(e: Electorate, s: Replica, b: Block)
    requires Light(e, s) && Known(e.w, b) && InOrder(s.journal)
    ensures InOrder(CastVote(s, b).journal)
            <==> || s.journal == []
                 || b.view > s.journal[|s.journal| - 1].view || b.id == s.journal[|s.journal| - 1].id
  {
    var ballot := Ballot(b.view, b.id, s.preferredView);
    var s1 := s.(journal := s.journal + [ballot]);
    VoteFrame(s1, Vote(b.view, s.id, b.id, true));
    assert CastVote(s, b).journal == s1.journal;
    hide OnVote, ForestKnown, BufferFits, AllDecided, AllFired, Keyed;
    AppendInOrder(e, s.journal, ballot);
  }

  lemma AppendInOrder(e: Electorate, log: seq<Ballot>, b: Ballot)
    requires LogOk(e, log) && InOrder(log) && b.id in e.w && e.w[b.id].view == b.view
    ensures InOrder(log + [b]) <==> log == [] || b.view > log[|log| - 1].view || b.id == log[|log| - 1].id
  {
    var more := log + [b];
    if log != [] {
      var last := log[|log| - 1];
      assert more[|log| - 1] == last && more[|log|] == b;
      assert BallotOk(e, last);
      if b.view > last.view || b.id == last.id {
        forall i, j | 0 <= i < j < |more| ensures more[i].view < more[j].view || more[i].id == more[j].id {
          if j == |log| && i < |log| - 1 {
            assert log[i].view < last.view || log[i].id == last.id;
            assert BallotOk(e, log[i]);
          }
        }
      }
    }
  }

  // ---------------------------------------------------------------- votes for blocks without certified parents

  /** The parent of the block is certified, or there is none. */
  ghost predicate Vouched(e: Electorate, b: Block) {
    b.hasQC ==> Known(e.w, b) && (b.prevId == GENESIS || Certified(e, b.prevId))
  }

  ghost predicate AllVouched(e: Electorate, s: Replica) {
    && (forall k :: k in s.bufferedBlocks ==> Vouched(e, s.bufferedBlocks[k]))
    && (forall i :: 0 <= i < |s.journal| ==> JustifiedBallot(e, 0, s.journal[i]))
  }

  lemma TakeUpBuffer(s: Replica, b: Block)
    ensures var t := TakeUp(s, b).1;
            || t.bufferedBlocks == s.bufferedBlocks
            || (b.view >= 1 && t.bufferedBlocks == s.bufferedBlocks[b.view - 1 := b])
  {
    hide OnCertificate, Replay, Add, UpdateHighQC, Later;
    var s1 := UpdateHighQC(s, b.qc);
    HighFrame(s, b.qc);
    CertificateFrame(s1, b.qc);
    var s2 := if b.proposer != s.id then OnCertificate(s1, b.qc) else s1;
    var s3 := s2.(chain := s2.chain.(forest := Add(s2.chain.forest, b)));
    ReplayFrame(s3, b.id);
  }

  lemma OneBuffer(s: Replica, b: Block)
    ensures var t := OnOne(s, b).1;
            || t.bufferedBlocks == s.bufferedBlocks
            || (b.view >= 1 && t.bufferedBlocks == s.bufferedBlocks[b.view - 1 := b])
    ensures OnOne(s, b).1.journal != s.journal ==> b.hasQC
  {
    hide TakeUp, OnVote, VotingRule, Later;
    TakeUpBuffer(s, b);
    TakeUpFrame(s, b);
    TakenHasQC(s, b);
    var s1 := TakeUp(s, b).1;
    VoteFrame(s1.(journal := s1.journal + [Ballot(b.view, b.id, s1.preferredView)]), Vote(b.view, s1.id, b.id, true));
  }

  lemma OneVouched(e: Electorate, s: Replica, b: Block)
    requires AllVouched(e, s) && Vouched(e, b)
    ensures AllVouched(e, OnOne(s, b).1)
  {
    hide OnOne, Certified;
    OneBuffer(s, b);
    OneJournal(s, b);
    var t := OnOne(s, b).1;
    forall i | 0 <= i < |t.journal| ensures JustifiedBallot(e, 0, t.journal[i]) {
      assert i < |s.journal| ==> t.journal[i] == s.journal[i];
    }
  }

  lemma {:induction false} BlockVouched(e: Electorate, s: Replica, b: Block)
    requires AllVouched(e, s) && Vouched(e, b) && Filed(s.bufferedBlocks)
    ensures AllVouched(e, OnBlock(s, b))
    decreases Waiting(s.bufferedBlocks, b.view)
  {
    hide OnOne, Vouched, JustifiedBallot;
    var (voted, s1) := OnOne(s, b);
    OneFrame(s, b);
    OneVouched(e, s, b);
    if voted && b.view in s1.bufferedBlocks {
      assert b.view in Waiting(s.bufferedBlocks, b.view) && b.view !in Waiting(s.bufferedBlocks, b.view + 1);
      BlockVouched(e, s1, s1.bufferedBlocks[b.view]);
    }
  }

  lemma SameVouched(e: Electorate, s: Replica, t: Replica)
    requires AllVouched(e, s) && t.bufferedBlocks == s.bufferedBlocks && t.journal == s.journal
    ensures AllVouched(e, t)
  {
    hide Vouched, JustifiedBallot;
  }

  lemma TmoSame(s: Replica, tmo: Tmo)
    ensures OnTmo(s, tmo).bufferedBlocks == s.bufferedBlocks && OnTmo(s, tmo).journal == s.journal
  {
    hide OnCertificate, AddTimeout, Later;
    CertificateFrame(s, tmo.highQC);
  }

  lemma HandleVouched(e: Electorate, s: Replica, ev: Event)
    requires AllVouched(e, s) && Filed(s.bufferedBlocks) && (ev.BlockTo? ==> Vouched(e, ev.block))
    ensures AllVouched(e, Handle(s, ev))
  {
    hide OnBlock, OnVote, OnTmo, AllVouched, Vouched;
    match ev
    case BlockTo(_, b) => BlockVouched(e, s, b);
    case VoteTo(_, v) =>
      VoteFrame(s, v);
      SameVouched(e, s, OnVote(s, v));
    case TmoTo(_, tmo) =>
      TmoSame(s, tmo);
      SameVouched(e, s, OnTmo(s, tmo));
    case TimeoutAt(_) =>
      var s1 := Advanced(s, s.pm.curView);
      TmoSame(s1, Tmo(s.pm.curView + 1, s.id, s1.highQC));
      SameVouched(e, s, OnLocalTmo(s, s.pm.curView));
    case StartAt(_) => SameVouched(e, s, KickOff(s));
  }

  lemma VouchedGrows(e: Electorate, d: Electorate, s: Replica)
    requires Grows(e, d) && AllVouched(e, s)
    ensures AllVouched(d, s)
  {
    SameWorld(e, d);
    hide Certified, Grows;
    forall k | k in s.bufferedBlocks ensures Vouched(d, s.bufferedBlocks[k]) {
      VouchedLater(e, d, s.bufferedBlocks[k]);
    }
    forall i | 0 <= i < |s.journal| ensures JustifiedBallot(d, 0, s.journal[i]) {
      JustifiedGrows(e, d, 0, s.journal[i]);
    }
  }

  lemma VouchedLater(e: Electorate, d: Electorate, b: Block)
    requires Grows(e, d) && Vouched(e, b)
    ensures Vouched(d, b)
  {
    SameWorld(e, d);
    hide Certified, Grows;
    if b.hasQC && b.prevId != GENESIS {
      CertifiedGrows(e, d, b.prevId);
    }
  }

  /** Every block that is delivered carries a certificate that passes the check and names the block's parent. */
  ghost predicate AllChecked(evs: seq<Event>) {
    forall i :: 0 <= i < |evs| && evs[i].BlockTo? && evs[i].block.hasQC ==>
      evs[i].block.qc.valid && evs[i].block.qc.blockId == evs[i].block.prevId
  }

  lemma CheckedVouched(e: Electorate, ev: Event)
    requires ev.BlockTo? && Fitting(e.w, ev.block) && Genuine(e, ev)
    requires ev.block.hasQC ==> ev.block.qc.valid && ev.block.qc.blockId == ev.block.prevId
    ensures Vouched(e, ev.block)
  {
    hide IsQuorum, Known;
  }

  ghost predicate NetVouched(c: Setup, g: Network) {
    forall r :: r in g ==> AllVouched(Elect(c, g), g[r])
  }

  lemma StepVouched(c: Setup, g: Network, ev: Event)
    requires NetVouched(c, g) && (Enabled(c, g, ev) && ev.BlockTo? ==> Vouched(Elect(c, g), ev.block))
    ensures NetVouched(c, Step(c, g, ev))
  {
    hide Handle, AllVouched, Fitting, Vouched, Grows, Filed;
    if Enabled(c, g, ev) {
      var h := Step(c, g, ev);
      var e, d := Elect(c, g), Elect(c, h);
      StepGrows(c, g, ev);
      hide Elect;
      if ev.BlockTo? { VouchedLater(e, d, ev.block); }
      VouchedGrows(e, d, g[ev.node]);
      HandleVouched(d, g[ev.node], ev);
      forall r | r in h ensures AllVouched(d, h[r]) {
        if r != ev.node {
          VouchedGrows(e, d, g[r]);
        }
      }
    }
  }

  lemma {:induction false} RunVouched(c: Setup, evs: seq<Event>)
    requires AllGenuine(c, evs) && AllChecked(evs)
    ensures NetVouched(c, Run(c, evs))
  {
    if evs != [] {
      var m := |evs| - 1;
      Before(c, evs, m);
      RunVouched(c, evs[..m]);
      var g := Run(c, evs[..m]);
      hide NetVouched, Enabled, Genuine, Vouched;
      if Enabled(c, g, evs[m]) && evs[m].BlockTo? {
        EnabledFits(c, g, evs[m]);
        CheckedVouched(Elect(c, g), evs[m]);
      }
      StepVouched(c, g, evs[m]);
    }
  }

  lemma EnabledFits(c: Setup, g: Network, ev: Event)
    requires Enabled(c, g, ev) && ev.BlockTo?
    ensures Fitting(Elect(c, g).w, ev.block)
  {
  }

  /** If the handlers turned away blocks whose certificate does not pass the check or is not for the parent, and if what
      passes the check were backed, then every vote would be for a block with a certified parent. */
  lemma CheckedVotesJustified(c: Setup, evs: seq<Event>)
    requires AllGenuine(c, evs) && AllChecked(evs)
    ensures VotesJustified(c, Run(c, evs))
  {
    RunVouched(c, evs);
    hide Run, JustifiedBallot, Vouched;
  }
}
