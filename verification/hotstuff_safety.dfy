/** What every handler of a HotStuff replica keeps: about its blocks, votes and commits without any condition; about
    certificates, given that those which pass the signature check, or name the replica itself as their maker, are
    backed by votes. */
module HotStuffInvariant {
  import opened Types
  import opened Tally
  import opened Quorums
  import opened Timeouts
  import opened Forests
  import opened Worlds
  import opened BlockChains
  import opened Pacemakers
  import opened Safety
  import opened Outputs
  import opened HotStuffs
  import opened HotStuffLogs

  // ---------------------------------------------------------------- what holds whatever is delivered

  /** The commit rule fired: the decided block is the grandparent of the block that the certificate names, one view
      below the parent, and the parent is one below the view in the certificate. */
  ghost predicate Fired(w: World, d: Decided) {
    && d.qc.blockId in w && w[d.qc.blockId].prevId in w
    && var p := w[w[d.qc.blockId].prevId];
       && p.prevId == d.block.id && d.block.id in w
       && w[d.block.id].view + 1 == p.view && p.view + 1 == d.qc.view
  }

  ghost predicate AllFired(w: World, ds: seq<Decided>) {
    forall j :: 0 <= j < |ds| ==> Fired(w, ds[j])
  }

  ghost predicate Keyed(qcs: map<Id, QC>) {
    forall id :: id in qcs ==> qcs[id].blockId == id
  }

  ghost predicate Light(e: Electorate, s: Replica) {
    Sane(e, s) && AllFired(e.w, s.decisions) && Keyed(s.bufferedQCs)
  }

  lemma AlikeLight(e: Electorate, s: Replica, t: Replica)
    requires Light(e, s) && Alike(s, t) && Keyed(t.bufferedQCs)
    ensures Light(e, t)
  {
    hide Sane, Fired;
    AlikeSane(e, s, t);
  }

  lemma FinishLight(e: Electorate, s: Replica, d: Decided)
    requires Light(e, s) && Fired(e.w, d)
    ensures Light(e, Finish(s, d))
  {
    hide Sane, Fired, Finish;
    FinishSane(e, s, d);
    FinishKeeps(s, d);
  }

  lemma RuleFires(w: World, f: Forest, qc: QC)
    requires Ordered(w) && ForestKnown(w, f) && CommitRule(f, qc).Some?
    ensures Fired(w, Decided(CommitRule(f, qc).value, qc))
  {
    ParentKnown(w, f, qc.blockId);
    ParentKnown(w, f, GetParent(f, qc.blockId).value.id);
    hide ForestKnown;
  }

  /** The state in which the commit rule is tried. */
  ghost function LockedBy(s: Replica, qc: QC): Replica
    requires UpdatePreferredView(s, qc).Some?
  {
    UpdateHighQC(Advanced(UpdatePreferredView(s, qc).value, qc.view), qc)
  }

  lemma LockedAlike(s: Replica, qc: QC)
    requires UpdatePreferredView(s, qc).Some?
    ensures Alike(s, LockedBy(s, qc)) && LockedBy(s, qc).bufferedQCs == s.bufferedQCs
    ensures LockedBy(s, qc).chain == s.chain
  {
    hide GetParent;
  }

  lemma CertificateLight(e: Electorate, s: Replica, qc: QC)
    requires Light(e, s)
    ensures Light(e, OnCertificate(s, qc))
  {
    if !Ignores(s, qc) {
      assert Ordered(e.w) && ForestKnown(e.w, s.chain.forest);
      hide Light, Finish, CommitRule, Ordered, ForestKnown, UpdatePreferredView, UpdateHighQC;
      KeepLight(e, s, qc);
      if UpdatePreferredView(s, qc).Some? {
        var s1 := LockedBy(s, qc);
        LockedAlike(s, qc);
        LightKeyed(e, s);
        AlikeLight(e, s, s1);
        if qc.view >= 3 && CommitRule(s1.chain.forest, qc).Some? {
          RuleFires(e.w, s1.chain.forest, qc);
          FinishLight(e, s1, Decided(CommitRule(s1.chain.forest, qc).value, qc));
        }
      }
    }
  }

  lemma LightKeyed(e: Electorate, s: Replica)
    requires Light(e, s)
    ensures Keyed(s.bufferedQCs) && Sane(e, s)
  {
  }

  lemma KeepLight(e: Electorate, s: Replica, qc: QC)
    requires Light(e, s)
    ensures Light(e, s.(bufferedQCs := s.bufferedQCs[qc.blockId := qc]))
  {
    hide Sane, Fired;
    AlikeSane(e, s, s.(bufferedQCs := s.bufferedQCs[qc.blockId := qc]));
  }

  lemma DropLight(e: Electorate, s: Replica, id: Id)
    requires Light(e, s)
    ensures Light(e, s.(bufferedQCs := s.bufferedQCs - {id}))
  {
    hide Sane, Fired;
    AlikeSane(e, s, s.(bufferedQCs := s.bufferedQCs - {id}));
  }

  lemma ChangeLight(e: Electorate, s: Replica, votes: Votes, qc: QC, pm: Pm)
    requires Light(e, s)
    ensures Light(e, s.(chain := s.chain.(votes := votes)))
    ensures Light(e, UpdateHighQC(s, qc)) && Light(e, s.(pm := pm))
  {
    hide Sane, Fired;
    AlikeSane(e, s, s.(chain := s.chain.(votes := votes)));
    AlikeSane(e, s, UpdateHighQC(s, qc));
    AlikeSane(e, s, s.(pm := pm));
  }

  lemma VoteLight(e: Electorate, s: Replica, v: Vote)
    requires Light(e, s)
    ensures Light(e, OnVote(s, v))
  {
    hide Light, OnCertificate, Built, Record, GetVertex;
    var votes := Record(s.chain.n, s.chain.votes, Cast(v));
    ChangeLight(e, s, votes, s.highQC, s.pm);
    var s1 := s.(chain := s.chain.(votes := votes));
    if Built(s.chain.n, s.chain.votes, v).Some? {
      var qc := Built(s.chain.n, s.chain.votes, v).value.(leader := s.id);
      KeepLight(e, s1, qc);
      CertificateLight(e, s1, qc);
    }
  }

  lemma JournalLight(e: Electorate, s: Replica, b: Block)
    requires Light(e, s) && Known(e.w, b) && VotingRule(s, b)
    requires s.journal + [Ballot(b.view, b.id, s.preferredView)] <= e.logs[s.id]
    ensures Light(e, s.(journal := s.journal + [Ballot(b.view, b.id, s.preferredView)]))
  {
    hide Sane, VotingRule, Known;
    JournalSane(e, s, b);
  }

  lemma CastVoteLight(e: Electorate, s: Replica, b: Block)
    requires Light(e, s) && Known(e.w, b) && VotingRule(s, b) && CastVote(s, b).journal <= e.logs[s.id]
    ensures Light(e, CastVote(s, b))
  {
    hide Light, VotingRule, OnVote, Known;
    var s1 := s.(journal := s.journal + [Ballot(b.view, b.id, s.preferredView)]);
    var own := Vote(b.view, s.id, b.id, true);
    VoteFrame(s1, own);
    JournalLight(e, s, b);
    VoteLight(e, s1, own);
  }

  lemma ReplayLight(e: Electorate, s: Replica, id: Id)
    requires Light(e, s)
    ensures Light(e, Replay(s, id))
  {
    hide OnCertificate, Light;
    if id in s.bufferedQCs {
      CertificateLight(e, s, s.bufferedQCs[id]);
      DropLight(e, OnCertificate(s, s.bufferedQCs[id]), id);
    }
  }

  lemma StoreLight(e: Electorate, s: Replica, b: Block)
    requires Light(e, s) && Fitting(e.w, b)
    ensures b.hasQC ==> Light(e, s.(chain := s.chain.(forest := Add(s.chain.forest, b))))
    ensures b.view >= 1 ==> Light(e, s.(bufferedBlocks := s.bufferedBlocks[b.view - 1 := b]))
  {
    hide Sane, Add, Fitting;
    StoreSane(e, s, b);
  }

  lemma TakeUpLight(e: Electorate, s: Replica, b: Block)
    requires Light(e, s) && Fitting(e.w, b)
    ensures Light(e, TakeUp(s, b).1)
  {
    hide Light, OnCertificate, Replay, Add, Fitting, UpdateHighQC;
    StoreLight(e, s, b);
    if b.view <= s.pm.curView + 1 && b.hasQC {
      var s1 := UpdateHighQC(s, b.qc);
      ChangeLight(e, s, s.chain.votes, b.qc, s.pm);
      CertificateLight(e, s1, b.qc);
      var s2 := if b.proposer != s.id then OnCertificate(s1, b.qc) else s1;
      StoreLight(e, s2, b);
      ReplayLight(e, s2.(chain := s2.chain.(forest := Add(s2.chain.forest, b))), b.id);
    }
  }

  lemma TakenHasQC(s: Replica, b: Block)
    ensures TakeUp(s, b).0 ==> b.hasQC
  {
    hide OnCertificate, Replay, Add, UpdateHighQC;
  }

  lemma OneLight(e: Electorate, s: Replica, b: Block)
    requires Light(e, s) && Fitting(e.w, b) && OnOne(s, b).1.journal <= e.logs[s.id]
    ensures Light(e, OnOne(s, b).1)
  {
    hide TakeUp, Light, VotingRule, Known, CastVote;
    TakeUpLight(e, s, b);
    TakeUpFrame(s, b);
    TakenHasQC(s, b);
    var (taken, s1) := TakeUp(s, b);
    if taken && VotingRule(s1, b) {
      CastVoteLight(e, s1, b);
    }
  }

  lemma BufferedFits(e: Electorate, s: Replica, k: View)
    requires Light(e, s) && k in s.bufferedBlocks
    ensures Fitting(e.w, s.bufferedBlocks[k])
  {
  }

  lemma {:induction false} BlockLight(e: Electorate, s: Replica, b: Block)
    requires Light(e, s) && Filed(s.bufferedBlocks) && Fitting(e.w, b) && OnBlock(s, b).journal <= e.logs[s.id]
    ensures Light(e, OnBlock(s, b))
    decreases Waiting(s.bufferedBlocks, b.view)
  {
    assert s.id in e.logs by { hide OnOne, OnBlock; }
    hide OnOne, Fitting, Light;
    var (voted, s1) := OnOne(s, b);
    OneFrame(s, b);
    if voted && b.view in s1.bufferedBlocks {
      assert b.view in Waiting(s.bufferedBlocks, b.view) && b.view !in Waiting(s.bufferedBlocks, b.view + 1);
      var b' := s1.bufferedBlocks[b.view];
      var s2 := OnBlock(s1, b');
      assert s1.journal <= s2.journal <= e.logs[s.id];
      OneLight(e, s, b);
      BufferedFits(e, s1, b.view);
      BlockLight(e, s1, b');
      DropBlockLight(e, s2, b.view);
    } else {
      OneLight(e, s, b);
    }
  }

  lemma DropBlockLight(e: Electorate, s: Replica, view: View)
    requires Light(e, s)
    ensures Light(e, s.(bufferedBlocks := s.bufferedBlocks - {view}))
  {
    hide Sane;
    DropSane(e, s, view);
  }

  lemma TmoLight(e: Electorate, s: Replica, tmo: Tmo)
    requires Light(e, s)
    ensures Light(e, OnTmo(s, tmo))
  {
    hide Light, OnCertificate, AddTimeout;
    CertificateLight(e, s, tmo.highQC);
    var s1 := OnCertificate(s, tmo.highQC);
    ChangeLight(e, s1, s1.chain.votes, s1.highQC, OnTmo(s, tmo).pm);
  }

  lemma LocalTmoLight(e: Electorate, s: Replica, view: View)
    requires Light(e, s)
    ensures Light(e, OnLocalTmo(s, view))
  {
    hide Light, OnTmo;
    var s1 := Advanced(s, view);
    ChangeLight(e, s, s.chain.votes, s.highQC, s1.pm);
    TmoLight(e, s1, Tmo(view + 1, s.id, s1.highQC));
  }

  // ---------------------------------------------------------------- what accepted certificates are worth

  /** The certificate is the initial one, or a super-majority signed the block, whose view it carries. */
  ghost predicate Backed(e: Electorate, qc: QC) {
    || (qc.blockId == GENESIS && qc.view == 0)
    || (qc.blockId in e.w && qc.view == e.w[qc.blockId].view && IsQuorum(e, qc.signers, qc.blockId))
  }

  /** A certificate that the replica `me` would accept is backed. */
  ghost predicate SoundQC(e: Electorate, me: Node, qc: QC) {
    qc.valid || qc.leader == me ==> Backed(e, qc)
  }

  /** A block of the world; its certificate may be anything that the replica would not accept. */
  ghost predicate Deliverable(e: Electorate, me: Node, b: Block) {
    b.hasQC ==> Known(e.w, b) && SoundQC(e, me, b.qc)
  }

  ghost predicate VoteOk(e: Electorate, v: Vote) {
    && v.blockId in e.w && v.view == e.w[v.blockId].view
    && v.voter in Nodes(e.n) && Signed(e, v.voter, v.blockId)
  }

  ghost predicate VotesOk(e: Electorate, votes: Votes) {
    forall id, x :: id in votes && x in votes[id] ==>
      VoteOk(e, votes[id][x]) && votes[id][x].blockId == id && votes[id][x].voter == x
  }

  ghost predicate QcsOk(e: Electorate, qcs: map<Id, QC>) {
    forall id :: id in qcs ==> Backed(e, qcs[id])
  }

  ghost predicate BufferOk(e: Electorate, me: Node, buffer: map<View, Block>) {
    forall k :: k in buffer ==> Deliverable(e, me, buffer[k])
  }

  ghost predicate DecisionsBacked(e: Electorate, ds: seq<Decided>) {
    forall j :: 0 <= j < |ds| ==> Backed(e, ds[j].qc)
  }

  ghost predicate Backing(e: Electorate, s: Replica) {
    && s.chain.n == e.n && VotesOk(e, s.chain.votes)
    && SoundQC(e, s.id, s.highQC) && QcsOk(e, s.bufferedQCs) && BufferOk(e, s.id, s.bufferedBlocks)
    && s.preferredView <= s.highQC.view && DecisionsBacked(e, s.decisions)
  }

  /** The invariant of a replica that is not faulty and is sent only what is backed. */
  ghost predicate Good(e: Electorate, s: Replica) {
    Light(e, s) && Backing(e, s)
  }

  // ---------------------------------------------------------------- certificates

  lemma VotesShrink(e: Electorate, votes: Votes, ids: set<Id>)
    requires VotesOk(e, votes)
    ensures VotesOk(e, votes - ids)
  {
  }

  lemma FinishBacking(e: Electorate, s: Replica, d: Decided)
    requires Backing(e, s) && Backed(e, d.qc)
    ensures Backing(e, Finish(s, d))
  {
    hide VotesOk, SoundQC, QcsOk, BufferOk, CommitPath, IdsOf, Prune, Backed, GetVertex;
    if CommitBlock(s.chain, d.block.id).Committed? {
      VotesShrink(e, s.chain.votes, IdsOf(CommitPath(s.chain.forest, GetVertex(s.chain.forest, d.block.id).value)));
    }
  }

  lemma LockBacking(e: Electorate, s: Replica, qc: QC)
    requires Good(e, s) && Backed(e, qc) && UpdatePreferredView(s, qc).Some?
    ensures Backing(e, LockedBy(s, qc))
  {
    if qc.view > 2 {
      ParentKnown(e.w, s.chain.forest, qc.blockId);
    }
    hide Light, VotesOk, QcsOk, BufferOk, GetParent, IsQuorum, DecisionsBacked;
  }

  lemma KeepBacking(e: Electorate, s: Replica, qc: QC)
    requires Backing(e, s) && Backed(e, qc)
    ensures Backing(e, s.(bufferedQCs := s.bufferedQCs[qc.blockId := qc]))
  {
    hide VotesOk, BufferOk, Backed, DecisionsBacked, SoundQC;
  }

  lemma CertificateGood(e: Electorate, s: Replica, qc: QC)
    requires Good(e, s) && SoundQC(e, s.id, qc)
    ensures Good(e, OnCertificate(s, qc))
  {
    hide Light, Backing, Finish, CommitRule, Backed, UpdatePreferredView, UpdateHighQC;
    CertificateLight(e, s, qc);
    if !Ignores(s, qc) {
      KeepBacking(e, s, qc);
      if UpdatePreferredView(s, qc).Some? {
        LockBacking(e, s, qc);
        var s1 := LockedBy(s, qc);
        if qc.view >= 3 && CommitRule(s1.chain.forest, qc).Some? {
          FinishBacking(e, s1, Decided(CommitRule(s1.chain.forest, qc).value, qc));
        }
      }
    }
  }

  // ---------------------------------------------------------------- votes

  lemma RecordOk(e: Electorate, votes: Votes, v: Vote)
    requires VotesOk(e, votes) && VoteOk(e, v)
    ensures VotesOk(e, Record(e.n, votes, Cast(v)))
  {
  }

  lemma BuiltOk(e: Electorate, votes: Votes, v: Vote)
    requires VotesOk(e, votes) && VoteOk(e, v) && Built(e.n, votes, v).Some?
    ensures Backed(e, Built(e.n, votes, v).value)
  {
    RecordOk(e, votes, v);
    var after := Record(e.n, votes, Cast(v));
    var vs := after[v.blockId];
    forall x | x in vs.Keys ensures x in Nodes(e.n) && Signed(e, x, v.blockId) {
      assert VoteOk(e, vs[x]) && vs[x].blockId == v.blockId && vs[x].voter == x;
    }
    assert |vs.Keys| > e.n * 2 / 3;
    assert IsQuorum(e, vs.Keys, v.blockId);
  }

  lemma CountBacking(e: Electorate, s: Replica, v: Vote)
    requires Backing(e, s) && VoteOk(e, v)
    ensures Backing(e, s.(chain := s.chain.(votes := Record(s.chain.n, s.chain.votes, Cast(v)))))
    ensures Built(s.chain.n, s.chain.votes, v).Some? ==> Backed(e, Built(s.chain.n, s.chain.votes, v).value)
  {
    hide VotesOk, SoundQC, QcsOk, BufferOk, DecisionsBacked, Record, Built, VoteOk, Backed;
    RecordOk(e, s.chain.votes, v);
    if Built(s.chain.n, s.chain.votes, v).Some? {
      BuiltOk(e, s.chain.votes, v);
    }
  }

  lemma VoteGood(e: Electorate, s: Replica, v: Vote)
    requires Good(e, s)
    requires v.valid || v.voter == s.id ==> VoteOk(e, v)
    ensures Good(e, OnVote(s, v))
  {
    hide Light, Backing, OnCertificate, Built, Record, GetVertex, VoteOk, IsQuorum;
    VoteLight(e, s, v);
    if v.valid || v.voter == s.id {
      CountBacking(e, s, v);
      var s1 := s.(chain := s.chain.(votes := Record(s.chain.n, s.chain.votes, Cast(v))));
      ChangeLight(e, s, s1.chain.votes, s.highQC, s.pm);
      if Built(s.chain.n, s.chain.votes, v).Some? {
        var qc := Built(s.chain.n, s.chain.votes, v).value.(leader := s.id);
        KeepBacking(e, s1, qc);
        CertificateGood(e, s1, qc);
      }
    }
  }

  lemma OwnVoteOk(e: Electorate, s: Replica, b: Block)
    requires Light(e, s) && Known(e.w, b)
    requires s.journal + [Ballot(b.view, b.id, s.preferredView)] <= e.logs[s.id]
    ensures VoteOk(e, Vote(b.view, s.id, b.id, true))
  {
    var journal := s.journal + [Ballot(b.view, b.id, s.preferredView)];
    assert e.logs[s.id][|s.journal|] == journal[|s.journal|];
    assert Signed(e, s.id, b.id);
    hide ForestKnown, BufferFits, LogOk, AllDecided, Ordered;
  }

  lemma LongerBacking(e: Electorate, s: Replica, journal: seq<Ballot>)
    requires Backing(e, s)
    ensures Backing(e, s.(journal := journal))
  {
    hide VotesOk, SoundQC, QcsOk, BufferOk, DecisionsBacked;
  }

  lemma CastVoteGood(e: Electorate, s: Replica, b: Block)
    requires Good(e, s) && Known(e.w, b) && VotingRule(s, b)
    requires CastVote(s, b).journal <= e.logs[s.id]
    ensures Good(e, CastVote(s, b))
  {
    hide Light, Backing, VotingRule, VoteOk, OnVote, Known;
    var s1 := s.(journal := s.journal + [Ballot(b.view, b.id, s.preferredView)]);
    var own := Vote(b.view, s.id, b.id, true);
    VoteFrame(s1, own);
    JournalLight(e, s, b);
    LongerBacking(e, s, s1.journal);
    OwnVoteOk(e, s, b);
    VoteGood(e, s1, own);
  }

  // ---------------------------------------------------------------- blocks

  lemma ReplayGood(e: Electorate, s: Replica, id: Id)
    requires Good(e, s)
    ensures Good(e, Replay(s, id))
  {
    ReplayLight(e, s, id);
    if id in s.bufferedQCs {
      assert Backed(e, s.bufferedQCs[id]);
      hide OnCertificate, Light, Backing, Backed;
      CertificateGood(e, s, s.bufferedQCs[id]);
      DropBacking(e, OnCertificate(s, s.bufferedQCs[id]), id);
    }
  }

  lemma DropBacking(e: Electorate, s: Replica, id: Id)
    requires Backing(e, s)
    ensures Backing(e, s.(bufferedQCs := s.bufferedQCs - {id}))
  {
    hide VotesOk, BufferOk, Backed, DecisionsBacked, SoundQC;
  }

  lemma StoreBacking(e: Electorate, s: Replica, b: Block)
    requires Backing(e, s) && Deliverable(e, s.id, b)
    ensures Backing(e, s.(chain := s.chain.(forest := Add(s.chain.forest, b))))
    ensures b.view >= 1 ==> Backing(e, s.(bufferedBlocks := s.bufferedBlocks[b.view - 1 := b]))
    ensures b.hasQC ==> Backing(e, UpdateHighQC(s, b.qc))
  {
    hide VotesOk, QcsOk, Backed, DecisionsBacked, Add, Known;
  }

  lemma TakeUpGood(e: Electorate, s: Replica, b: Block)
    requires Good(e, s) && Deliverable(e, s.id, b)
    ensures Good(e, TakeUp(s, b).1)
  {
    hide Light, Backing, OnCertificate, Replay, Add, Known, SoundQC, UpdateHighQC;
    TakeUpLight(e, s, b);
    StoreBacking(e, s, b);
    if b.view <= s.pm.curView + 1 && b.hasQC {
      var s1 := UpdateHighQC(s, b.qc);
      ChangeLight(e, s, s.chain.votes, b.qc, s.pm);
      assert s1.id == s.id by { HighFrame(s, b.qc); }
      CertificateGood(e, s1, b.qc);
      CertificateFrame(s1, b.qc);
      var s2 := if b.proposer != s.id then OnCertificate(s1, b.qc) else s1;
      StoreBacking(e, s2, b);
      StoreLight(e, s2, b);
      ReplayGood(e, s2.(chain := s2.chain.(forest := Add(s2.chain.forest, b))), b.id);
    }
  }

  lemma OneGood(e: Electorate, s: Replica, b: Block)
    requires Good(e, s) && Deliverable(e, s.id, b)
    requires OnOne(s, b).1.journal <= e.logs[s.id]
    ensures Good(e, OnOne(s, b).1)
  {
    hide TakeUp, Good, VotingRule, Known, CastVote;
    TakeUpGood(e, s, b);
    TakeUpFrame(s, b);
    TakenHasQC(s, b);
    var (taken, s1) := TakeUp(s, b);
    if taken && VotingRule(s1, b) {
      CastVoteGood(e, s1, b);
    }
  }

  lemma BufferedGood(e: Electorate, s: Replica, k: View)
    requires Good(e, s) && k in s.bufferedBlocks
    ensures Deliverable(e, s.id, s.bufferedBlocks[k])
    ensures Good(e, s.(bufferedBlocks := s.bufferedBlocks - {k}))
  {
    DropBlockLight(e, s, k);
    hide Light, VotesOk, SoundQC, QcsOk, DecisionsBacked, Deliverable;
  }

  lemma {:induction false} BlockGood(e: Electorate, s: Replica, b: Block)
    requires Good(e, s) && Filed(s.bufferedBlocks) && Deliverable(e, s.id, b)
    requires OnBlock(s, b).journal <= e.logs[s.id]
    ensures Good(e, OnBlock(s, b))
    decreases Waiting(s.bufferedBlocks, b.view)
  {
    assert s.id in e.logs by { hide OnOne, OnBlock; }
    hide OnOne, Deliverable, Good;
    var (voted, s1) := OnOne(s, b);
    OneFrame(s, b);
    if voted && b.view in s1.bufferedBlocks {
      assert b.view in Waiting(s.bufferedBlocks, b.view) && b.view !in Waiting(s.bufferedBlocks, b.view + 1);
      var b' := s1.bufferedBlocks[b.view];
      var s2 := OnBlock(s1, b');
      assert s1.journal <= s2.journal <= e.logs[s.id];
      OneGood(e, s, b);
      BufferedGood(e, s1, b.view);
      BlockGood(e, s1, b');
      DropGood(e, s2, b.view);
    } else {
      OneGood(e, s, b);
    }
  }

  lemma DropGood(e: Electorate, s: Replica, view: View)
    requires Good(e, s)
    ensures Good(e, s.(bufferedBlocks := s.bufferedBlocks - {view}))
  {
    DropBlockLight(e, s, view);
    hide Light, VotesOk, SoundQC, QcsOk, DecisionsBacked, Deliverable;
  }

  // ---------------------------------------------------------------- timeouts

  lemma PmGood(e: Electorate, s: Replica, pm: Pm)
    requires Good(e, s)
    ensures Good(e, s.(pm := pm))
  {
    ChangeLight(e, s, s.chain.votes, s.highQC, pm);
    hide Light, VotesOk, DecisionsBacked, QcsOk, SoundQC, BufferOk;
  }

  lemma TmoGood(e: Electorate, s: Replica, tmo: Tmo)
    requires Good(e, s) && SoundQC(e, s.id, tmo.highQC)
    ensures Good(e, OnTmo(s, tmo))
  {
    hide Good, OnCertificate, AddTimeout, SoundQC;
    CertificateGood(e, s, tmo.highQC);
    var s1 := OnCertificate(s, tmo.highQC);
    PmGood(e, s1, OnTmo(s, tmo).pm);
  }

  lemma LocalTmoGood(e: Electorate, s: Replica, view: View)
    requires Good(e, s)
    ensures Good(e, OnLocalTmo(s, view))
  {
    var s1 := Advanced(s, view);
    PmGood(e, s, s1.pm);
    assert SoundQC(e, s1.id, s1.highQC);
    hide Good, OnTmo, SoundQC;
    TmoGood(e, s1, Tmo(view + 1, s.id, s1.highQC));
  }
}
