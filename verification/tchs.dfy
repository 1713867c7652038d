/** Two-chain HotStuff at one replica: tchs/tchs.go, without the forking strategy. A replica has the same fields as
    in three-chain HotStuff, and its voting rule is the same. */
module TwoChain {
  import opened Types
  import opened Tally
  import opened Quorums
  import opened Forests
  import opened BlockChains
  import opened Pacemakers
  import opened Safety
  import opened Outputs
  import opened HotStuffs

  /** Raises the lock to the certificate itself; fails if its block is not held. */
  ghost function LockOn(s: Replica, qc: QC): Option<Replica> {
    if qc.view < 2 then Some(s)
    else if GetVertex(s.chain.forest, qc.blockId).None? then None
    else Some(if qc.view > s.preferredView then s.(preferredView := qc.view) else s)
  }

  ghost function OnQC(s: Replica, qc: QC): Replica {
    if Ignores(s, qc) then s
    else
      match LockOn(s, qc)
      case None => s.(bufferedQCs := s.bufferedQCs[qc.blockId := qc])
      case Some(locked) => Advanced(UpdateHighQC(locked, qc), qc.view)
  }

  ghost function OnVote2(s: Replica, vote: Vote): Replica {
    if vote.voter != s.id && !vote.valid then s
    else
      var s1 := s.(chain := s.chain.(votes := Record(s.chain.n, s.chain.votes, Cast(vote))));
      match Built(s.chain.n, s.chain.votes, vote)
      case None => s1
      case Some(built) =>
        var qc := built.(leader := s.id);
        if GetVertex(s.chain.forest, qc.blockId).None? then s1.(bufferedQCs := s1.bufferedQCs[qc.blockId := qc])
        else OnQC(s1, qc)
  }

  /** The parent of the certified block, if its view comes right before the view in the certificate. */
  ghost function CommitRule2(f: Forest, b: Block): Option<Block> {
    match GetParent(f, b.qc.blockId)
    case None => None
    case Some(p) => if p.view + 1 == b.qc.view then Some(p) else None
  }

  /** A block right above its certificate: it must commit, or it is dropped. */
  ghost function CommitOn(s: Replica, b: Block): (bool, Replica) {
    if !(b.qc.view >= 2 && b.qc.view + 1 == b.view) then (true, s)
    else
      match CommitRule2(s.chain.forest, b)
      case None => (false, s)
      case Some(p) =>
        var s1 := Finish(s, Decided(p, b.qc));
        (CommitBlock(s.chain, p.id).Committed?, s1)
  }

  ghost function Replay2(s: Replica, id: Id): Replica {
    if id !in s.bufferedQCs then s
    else
      var s1 := OnQC(s, s.bufferedQCs[id]);
      s1.(bufferedQCs := s1.bufferedQCs - {id})
  }

  ghost function CastVote2(s: Replica, b: Block): Replica {
    var s1 := s.(journal := s.journal + [Ballot(b.view, b.id, s.preferredView)]);
    if s.leaderOf(b.view + 1) == s.id then OnVote2(s1, Vote(b.view, s.id, b.id, true)) else s1
  }

  /** Stores the block, commits and processes its waiting certificate; whether that point is reached. */
  ghost function TakeUp2(s: Replica, b: Block): (bool, Replica) {
    if b.view > s.pm.curView + 1 then (false, s.(bufferedBlocks := s.bufferedBlocks[b.view - 1 := b]))
    else if !b.hasQC then (false, s)
    else
      var s1 := UpdateHighQC(s, b.qc);
      var s2 := if b.proposer != s.id then OnQC(s1, b.qc) else s1;
      if b.view < s2.pm.curView || b.proposer != s.leaderOf(b.view) then (false, s2)
      else
        var (ok, s3) := CommitOn(s2.(chain := s2.chain.(forest := Add(s2.chain.forest, b))), b);
        if !ok then (false, s3) else (true, Replay2(s3, b.id))
  }

  ghost function OnOne2(s: Replica, b: Block): (bool, Replica) {
    var (taken, s1) := TakeUp2(s, b);
    if !taken || !VotingRule(s1, b) then (false, s1) else (true, CastVote2(s1, b))
  }

  /** A block, followed after each vote by the buffered block of the next view, which stays in the buffer. */
  ghost function OnBlock2(s: Replica, b: Block): (t: Replica)
    requires Filed(s.bufferedBlocks)
    ensures Filed(t.bufferedBlocks) && SameReplica(s, t)
    decreases Waiting(s.bufferedBlocks, b.view)
  {
    var (voted, s1) := OnOne2(s, b);
    OneFrame2(s, b);
    if !voted || b.view !in s1.bufferedBlocks then s1
    else
      assert b.view in Waiting(s.bufferedBlocks, b.view) && b.view !in Waiting(s.bufferedBlocks, b.view + 1);
      OnBlock2(s1, s1.bufferedBlocks[b.view])
  }

  /** The certificate in a timeout message is not looked at. */
  ghost function OnTmo2(s: Replica, tmo: Tmo): Replica {
    if tmo.view < s.pm.curView then s
    else
      var (pm, tc) := AddTimeout(s.pm, tmo);
      var s1 := s.(pm := pm);
      match tc
      case None => s1
      case Some(v) => if v < s1.pm.curView then s1 else Advanced(s1, v)
  }

  ghost function OnLocalTmo2(s: Replica, view: View): Replica {
    var s1 := Advanced(s, view + 1);
    OnTmo2(s1, Tmo(view + 1, s.id, s1.highQC))
  }

  /** Making a proposal writes a new view into the highest certificate. Buffered certificates and blocks that share
      that certificate object see the write: `qcs` and `blocks` say which. */
  ghost function Relabel(s: Replica, qcs: set<Id>, blocks: set<View>): Replica
    requires s.pm.curView >= 1
  {
    var qc := s.highQC.(view := s.pm.curView - 1);
    s.(highQC := qc,
       bufferedQCs := map k | k in s.bufferedQCs ::
                        if k in qcs && s.bufferedQCs[k] == s.highQC then qc else s.bufferedQCs[k],
       bufferedBlocks := map k | k in s.bufferedBlocks ::
                           if k in blocks && s.bufferedBlocks[k].qc == s.highQC then s.bufferedBlocks[k].(qc := qc)
                           else s.bufferedBlocks[k])
  }

  /** The block a leader proposes: it extends the highest certificate, with the view before the current one written
      into it. */
  ghost function Proposal2(s: Replica, view: View, id: Id): Block
    requires s.pm.curView >= 1
  {
    Block(id, view, s.highQC.blockId, s.highQC.(view := s.pm.curView - 1), true, s.id)
  }

  // ---------------------------------------------------------------- what handlers leave alone

  ghost predicate SameReplica(s: Replica, t: Replica) {
    && t.id == s.id && t.leaderOf == s.leaderOf && t.pm.n == s.pm.n && t.chain.n == s.chain.n
    && s.journal <= t.journal && s.preferredView <= t.preferredView
  }

  ghost predicate SameVotes2(s: Replica, t: Replica) {
    SameReplica(s, t) && t.journal == s.journal && t.bufferedBlocks == s.bufferedBlocks
  }

  lemma QCFrame(s: Replica, qc: QC)
    ensures SameVotes2(s, OnQC(s, qc))
  {
    hide GetVertex;
  }

  lemma VoteFrame2(s: Replica, vote: Vote)
    ensures SameVotes2(s, OnVote2(s, vote))
  {
    hide OnQC, Built, Record;
    var s1 := s.(chain := s.chain.(votes := Record(s.chain.n, s.chain.votes, Cast(vote))));
    if Built(s.chain.n, s.chain.votes, vote).Some? {
      QCFrame(s1, Built(s.chain.n, s.chain.votes, vote).value.(leader := s.id));
    }
  }

  lemma CommitOnFrame(s: Replica, b: Block)
    ensures SameVotes2(s, CommitOn(s, b).1)
  {
    hide Finish, GetParent, CommitBlock;
    if CommitRule2(s.chain.forest, b).Some? {
      FinishFrame(s, Decided(CommitRule2(s.chain.forest, b).value, b.qc));
    }
  }

  lemma ReplayFrame2(s: Replica, id: Id)
    ensures SameVotes2(s, Replay2(s, id))
  {
    hide OnQC;
    if id in s.bufferedQCs {
      QCFrame(s, s.bufferedQCs[id]);
    }
  }

  lemma SameTrans2(s: Replica, t: Replica, u: Replica)
    requires SameVotes2(s, t) && SameVotes2(t, u)
    ensures SameVotes2(s, u)
  {
  }

  lemma PlainFrame2(s: Replica, qc: QC, f: Forest)
    ensures SameVotes2(s, UpdateHighQC(s, qc)) && SameVotes2(s, s.(chain := s.chain.(forest := f)))
  {
  }

  lemma TakeUpFrame2(s: Replica, b: Block)
    ensures var (taken, t) := TakeUp2(s, b);
            && SameReplica(s, t) && t.journal == s.journal
            && (taken ==> t.bufferedBlocks == s.bufferedBlocks)
            && (Filed(s.bufferedBlocks) ==> Filed(t.bufferedBlocks))
  {
    hide OnQC, Replay2, Add, CommitOn, UpdateHighQC;
    if b.view <= s.pm.curView + 1 && b.hasQC {
      hide SameReplica;
      var s1 := UpdateHighQC(s, b.qc);
      PlainFrame2(s, b.qc, s.chain.forest);
      QCFrame(s1, b.qc);
      SameTrans2(s, s1, OnQC(s1, b.qc));
      var s2 := if b.proposer != s.id then OnQC(s1, b.qc) else s1;
      var s3 := s2.(chain := s2.chain.(forest := Add(s2.chain.forest, b)));
      PlainFrame2(s2, b.qc, Add(s2.chain.forest, b));
      SameTrans2(s, s2, s3);
      CommitOnFrame(s3, b);
      var s4 := CommitOn(s3, b).1;
      SameTrans2(s, s3, s4);
      ReplayFrame2(s4, b.id);
      SameTrans2(s, s4, Replay2(s4, b.id));
    }
  }

  lemma OneFrame2(s: Replica, b: Block)
    ensures var (voted, t) := OnOne2(s, b);
            && SameReplica(s, t)
            && (voted ==> t.bufferedBlocks == s.bufferedBlocks)
            && (Filed(s.bufferedBlocks) ==> Filed(t.bufferedBlocks))
  {
    hide TakeUp2, OnVote2, VotingRule, Filed;
    TakeUpFrame2(s, b);
    var s1 := TakeUp2(s, b).1;
    VoteFrame2(s1.(journal := s1.journal + [Ballot(b.view, b.id, s1.preferredView)]), Vote(b.view, s1.id, b.id, true));
  }
}
