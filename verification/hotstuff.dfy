/** Chained HotStuff at one replica: hotstuff/hotstuff.go, without the forking strategy. */
module HotStuffs {
  import opened Types
  import opened Tally
  import opened Quorums
  import opened Timeouts
  import opened Forests
  import opened Worlds
  import opened BlockChains
  import opened Pacemakers
  import opened Safety
  import opened Outputs

  /** `journal` lists the votes sent, `committed` and `forked` what went out on the two channels; a replica that
      has run into a panic is `halted`. */
  datatype Replica = Replica(
    id: Node, leaderOf: View -> Node, halted: bool, pm: Pm, chain: Chain,
    lastVotedView: View, preferredView: View, highQC: QC,
    bufferedQCs: map<Id, QC>, bufferedBlocks: map<View, Block>,
    journal: seq<Ballot>, decisions: seq<Decided>, committed: seq<Block>, forked: seq<Block>)

  ghost function Fresh(id: Node, n: nat, leaderOf: View -> Node): Replica {
    Replica(id, leaderOf, false, Pm(n, 0, [], map[]), Chain(n, EMPTY, map[]), 0, 0, GENESIS_QC,
            map[], map[], [], [], [], [])
  }

  // ---------------------------------------------------------------- the four rules

  ghost function Max(x: View, y: View): View {
    if x > y then x else y
  }

  ghost function UpdateHighQC(s: Replica, qc: QC): Replica {
    if qc.view > s.highQC.view then s.(highQC := qc) else s
  }

  /** Raises the lock to the parent of the certified block; fails if the block or its parent is not held. */
  ghost function UpdatePreferredView(s: Replica, qc: QC): Option<Replica> {
    if qc.view <= 2 then Some(s)
    else
      match GetParent(s.chain.forest, qc.blockId)
      case None => None
      case Some(g) => Some(if g.view > s.preferredView then s.(preferredView := g.view) else s)
  }

  /** The grandparent of the certified block, if the three have consecutive views. */
  ghost function CommitRule(f: Forest, qc: QC): Option<Block> {
    match GetParent(f, qc.blockId)
    case None => None
    case Some(p) =>
      match GetParent(f, p.id)
      case None => None
      case Some(g) => if g.view + 1 == p.view && p.view + 1 == qc.view then Some(g) else None
  }

  /** Whether to vote; a missing parent counts as no. */
  ghost predicate VotingRule(s: Replica, b: Block) {
    b.view <= 2
    || (GetParent(s.chain.forest, b.id).Some?
        && !(b.view <= s.lastVotedView || GetParent(s.chain.forest, b.id).value.view < s.preferredView))
  }

  // ---------------------------------------------------------------- the handlers

  ghost function Advanced(s: Replica, view: View): Replica {
    s.(pm := Advance(s.pm, view))
  }

  ghost function Finish(s: Replica, d: Decided): Replica {
    var s1 := s.(decisions := s.decisions + [d]);
    match CommitBlock(s.chain, d.block.id)
    case CommitPanic => s1.(halted := true)
    case Committed(c, cs, fs) => s1.(chain := c, committed := s.committed + cs, forked := s.forked + fs)
    case _ => s1
  }

  ghost predicate Ignores(s: Replica, qc: QC) {
    qc.view < s.pm.curView || (qc.leader != s.id && !qc.valid)
  }

  /** A certificate that is neither old nor badly signed: lock, advance, commit; or keep it for later. */
  ghost function OnCertificate(s: Replica, qc: QC): Replica {
    if Ignores(s, qc) then s
    else
      match UpdatePreferredView(s, qc)
      case None => s.(bufferedQCs := s.bufferedQCs[qc.blockId := qc])
      case Some(locked) =>
        var s1 := UpdateHighQC(Advanced(locked, qc.view), qc);
        if qc.view < 3 then s1
        else
          match CommitRule(s1.chain.forest, qc)
          case None => s1
          case Some(b) => Finish(s1, Decided(b, qc))
  }

  ghost function OnVote(s: Replica, vote: Vote): Replica {
    if vote.voter != s.id && !vote.valid then s
    else
      var s1 := s.(chain := s.chain.(votes := Record(s.chain.n, s.chain.votes, Cast(vote))));
      match Built(s.chain.n, s.chain.votes, vote)
      case None => s1
      case Some(built) =>
        var qc := built.(leader := s.id);
        if GetVertex(s.chain.forest, qc.blockId).None? then s1.(bufferedQCs := s1.bufferedQCs[qc.blockId := qc])
        else OnCertificate(s1, qc)
  }

  /** Processes the certificate that was waiting for this block. */
  ghost function Replay(s: Replica, id: Id): Replica {
    if id !in s.bufferedQCs then s
    else
      var s1 := OnCertificate(s, s.bufferedQCs[id]);
      s1.(bufferedQCs := s1.bufferedQCs - {id})
  }

  /** Sends the vote; the replica counts it itself if it leads the next view. */
  ghost function CastVote(s: Replica, b: Block): Replica {
    var s1 := s.(journal := s.journal + [Ballot(b.view, b.id, s.preferredView)]);
    if s.leaderOf(b.view + 1) == s.id then OnVote(s1, Vote(b.view, s.id, b.id, true)) else s1
  }

  /** Stores the block and processes its waiting certificate; the first part says whether that point is reached. */
  ghost function TakeUp(s: Replica, b: Block): (bool, Replica) {
    if b.view > s.pm.curView + 1 then (false, s.(bufferedBlocks := s.bufferedBlocks[b.view - 1 := b]))
    else if !b.hasQC then (false, s)
    else
      var s1 := UpdateHighQC(s, b.qc);
      var s2 := if b.proposer != s.id then OnCertificate(s1, b.qc) else s1;
      if s2.halted || b.view < s2.pm.curView || b.proposer != s.leaderOf(b.view) then (false, s2)
      else
        var s3 := Replay(s2.(chain := s2.chain.(forest := Add(s2.chain.forest, b))), b.id);
        (!s3.halted, s3)
  }

  /** One block, without the buffered ones: whether it was voted for, and the state. */
  ghost function OnOne(s: Replica, b: Block): (bool, Replica) {
    var (taken, s1) := TakeUp(s, b);
    if !taken || !VotingRule(s1, b) then (false, s1)
    else
      var s2 := CastVote(s1, b);
      (!s2.halted, s2)
  }

  /** A buffered block is filed under the view before its own. */
  ghost predicate Filed(buffer: map<View, Block>) {
    forall k :: k in buffer ==> buffer[k].view == k + 1
  }

  ghost function Waiting(buffer: map<View, Block>, view: View): set<View> {
    set k | k in buffer && k >= view
  }

  /** A block, followed after each vote by the buffered block of the next view. */
  ghost function OnBlock(s: Replica, b: Block): (t: Replica)
    requires Filed(s.bufferedBlocks)
    ensures Filed(t.bufferedBlocks) && Later(s, t)
    decreases Waiting(s.bufferedBlocks, b.view)
  {
    var (voted, s1) := OnOne(s, b);
    OneFrame(s, b);
    if !voted || b.view !in s1.bufferedBlocks then s1
    else
      assert b.view in Waiting(s.bufferedBlocks, b.view) && b.view !in Waiting(s.bufferedBlocks, b.view + 1);
      var s2 := OnBlock(s1, s1.bufferedBlocks[b.view]);
      s2.(bufferedBlocks := s2.bufferedBlocks - {b.view})
  }

  ghost function OnTmo(s: Replica, tmo: Tmo): Replica {
    var s1 := OnCertificate(s, tmo.highQC);
    if s1.halted then s1
    else
      var (pm, tc) := AddTimeout(s1.pm, tmo);
      var s2 := s1.(pm := pm);
      match tc
      case None => s2
      case Some(v) => if v < s2.pm.curView then s2 else Advanced(s2, v)
  }

  ghost function OnLocalTmo(s: Replica, view: View): Replica {
    var s1 := Advanced(s, view);
    OnTmo(s1, Tmo(view + 1, s.id, s1.highQC))
  }

  /** The block a leader proposes: it extends the highest certificate it knows. */
  ghost function Proposal(s: Replica, view: View, id: Id): Block {
    Block(id, view, s.highQC.blockId, s.highQC, true, s.id)
  }

  // ---------------------------------------------------------------- what handlers leave alone

  /** `t` is a later state of the replica `s`: views, lock and highest certificate never fall, and what was sent
      stays sent. The last voted view never changes at all. */
  ghost predicate Later(s: Replica, t: Replica) {
    && t.id == s.id && t.leaderOf == s.leaderOf && t.lastVotedView == s.lastVotedView
    && t.pm.n == s.pm.n && t.chain.n == s.chain.n
    && s.pm.curView <= t.pm.curView && s.preferredView <= t.preferredView && s.highQC.view <= t.highQC.view
    && s.journal <= t.journal && s.decisions <= t.decisions && s.committed <= t.committed && s.forked <= t.forked
  }

  ghost predicate SameVotes(s: Replica, t: Replica) {
    Later(s, t) && t.journal == s.journal && t.bufferedBlocks == s.bufferedBlocks
  }

  lemma FinishFrame(s: Replica, d: Decided)
    ensures SameVotes(s, Finish(s, d))
  {
    hide GetVertex, Prune, CommitPath, IdsOf;
  }

  lemma CertificateFrame(s: Replica, qc: QC)
    ensures SameVotes(s, OnCertificate(s, qc))
  {
    hide CommitRule, Finish, GetParent;
    if !Ignores(s, qc) && UpdatePreferredView(s, qc).Some? {
      var s1 := UpdateHighQC(Advanced(UpdatePreferredView(s, qc).value, qc.view), qc);
      if CommitRule(s1.chain.forest, qc).Some? {
        FinishFrame(s1, Decided(CommitRule(s1.chain.forest, qc).value, qc));
      }
    }
  }

  lemma VoteFrame(s: Replica, vote: Vote)
    ensures SameVotes(s, OnVote(s, vote))
  {
    hide OnCertificate, Built, Record;
    var s1 := s.(chain := s.chain.(votes := Record(s.chain.n, s.chain.votes, Cast(vote))));
    if Built(s.chain.n, s.chain.votes, vote).Some? {
      CertificateFrame(s1, Built(s.chain.n, s.chain.votes, vote).value.(leader := s.id));
    }
  }

  lemma ReplayFrame(s: Replica, id: Id)
    ensures SameVotes(s, Replay(s, id))
  {
    hide OnCertificate;
    if id in s.bufferedQCs {
      CertificateFrame(s, s.bufferedQCs[id]);
    }
  }

  lemma SameVotesTrans(s: Replica, t: Replica, u: Replica)
    requires SameVotes(s, t) && SameVotes(t, u)
    ensures SameVotes(s, u)
  {
  }

  lemma HighFrame(s: Replica, qc: QC)
    ensures SameVotes(s, UpdateHighQC(s, qc))
  {
  }

  lemma StoreFrame(s: Replica, f: Forest)
    ensures SameVotes(s, s.(chain := s.chain.(forest := f)))
  {
  }

  lemma TakeUpFrame(s: Replica, b: Block)
    ensures var (taken, t) := TakeUp(s, b);
            && Later(s, t) && t.journal == s.journal
            && (taken ==> t.bufferedBlocks == s.bufferedBlocks)
            && (Filed(s.bufferedBlocks) ==> Filed(t.bufferedBlocks))
  {
    hide OnCertificate, Replay, Add, UpdateHighQC;
    if b.view <= s.pm.curView + 1 && b.hasQC {
      hide Later;
      var s1 := UpdateHighQC(s, b.qc);
      HighFrame(s, b.qc);
      CertificateFrame(s1, b.qc);
      SameVotesTrans(s, s1, OnCertificate(s1, b.qc));
      var s2 := if b.proposer != s.id then OnCertificate(s1, b.qc) else s1;
      var s3 := s2.(chain := s2.chain.(forest := Add(s2.chain.forest, b)));
      StoreFrame(s2, Add(s2.chain.forest, b));
      ReplayFrame(s3, b.id);
      SameVotesTrans(s, s2, s3);
      SameVotesTrans(s, s3, Replay(s3, b.id));
    }
  }

  lemma OneFrame(s: Replica, b: Block)
    ensures var (voted, t) := OnOne(s, b);
            && Later(s, t)
            && (voted ==> t.bufferedBlocks == s.bufferedBlocks)
            && (Filed(s.bufferedBlocks) ==> Filed(t.bufferedBlocks))
  {
    hide TakeUp, OnVote, VotingRule, Filed;
    TakeUpFrame(s, b);
    var s1 := TakeUp(s, b).1;
    VoteFrame(s1.(journal := s1.journal + [Ballot(b.view, b.id, s1.preferredView)]), Vote(b.view, s1.id, b.id, true));
  }
}
