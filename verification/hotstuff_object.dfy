/** The HotStuff object: hotstuff/hotstuff.go, method by method, against the handlers on values. */
module HotStuffObject {
  import opened Types
  import opened Tally
  import opened Quorums
  import opened Forests
  import opened Worlds
  import opened BlockChains
  import opened Pacemakers
  import opened Safety
  import opened Outputs
  import opened HotStuffs

  class HotStuff {
    const id: Node
    const leaderOf: View -> Node
    ghost const world: World
    const pm: Pacemaker
    const bc: BlockChain
    var halted: bool
    var lastVotedView: View
    var preferredView: View
    var highQC: QC
    var bufferedQCs: map<Id, QC>
    var bufferedBlocks: map<View, Block>
    var sent: seq<Ballot>
    var decided: seq<Decided>
    var committedBlocks: seq<Block>
    var forkedBlocks: seq<Block>

    ghost function Model(): Replica
      reads this, pm, pm.timeoutController, bc, bc.forrest, bc.quorum
    {
      Replica(id, leaderOf, halted, pm.Model(), bc.Model(), lastVotedView, preferredView, highQC,
              bufferedQCs, bufferedBlocks, sent, decided, committedBlocks, forkedBlocks)
    }

    ghost predicate Known(b: Block)
      reads this
    {
      b.hasQC ==> Outputs.Known(world, b)
    }

    ghost predicate Valid()
      reads this, bc, bc.forrest
    {
      && bc.Valid() && Ordered(world) && ForestKnown(world, bc.forrest.Model())
      && Filed(bufferedBlocks) && forall k :: k in bufferedBlocks ==> Known(bufferedBlocks[k])
    }

    /** The object is in state `s`, or has died exactly when `s` has. */
    ghost predicate Mirrors(s: Replica)
      reads this, pm, pm.timeoutController, bc, bc.forrest, bc.quorum
    {
      halted == s.halted && (!halted ==> Model() == s)
    }

    constructor (id: Node, n: nat, leaderOf: View -> Node, ghost world: World)
      requires Ordered(world)
      ensures Valid() && fresh(pm) && fresh(pm.timeoutController) && fresh(bc) && fresh(bc.forrest) && fresh(bc.quorum)
      ensures this.world == world && Model() == Fresh(id, n, leaderOf)
    {
      this.id, this.leaderOf, this.world := id, leaderOf, world;
      pm := new Pacemaker(n);
      bc := new BlockChain(n);
      halted, lastVotedView, preferredView, highQC := false, 0, 0, GENESIS_QC;
      bufferedQCs, bufferedBlocks, sent, decided, committedBlocks, forkedBlocks := map[], map[], [], [], [], [];
    }

    method UpdateHighQC(qc: QC)
      modifies this`highQC
      ensures highQC == if qc.view > old(highQC).view then qc else old(highQC)
    {
      if qc.view > highQC.view {
        highQC := qc;
      }
    }

    method UpdatePreferredView(qc: QC) returns (ok: bool)
      requires Valid()
      modifies this`preferredView
      ensures match HotStuffs.UpdatePreferredView(old(Model()), qc)
              case None => !ok && Model() == old(Model())
              case Some(s) => ok && Model() == s
    {
      if qc.view <= 2 { return true; }
      if bc.GetBlockByID(qc.blockId).None? { return false; }
      var grandParent := bc.GetParentBlock(qc.blockId);
      if grandParent.None? { return false; }
      if grandParent.value.view > preferredView {
        preferredView := grandParent.value.view;
      }
      return true;
    }

    method CommitRule(qc: QC) returns (r: Option<Block>)
      ensures r == HotStuffs.CommitRule(bc.forrest.Model(), qc)
    {
      var parent := bc.GetParentBlock(qc.blockId);
      if parent.None? { return None; }
      var grandParent := bc.GetParentBlock(parent.value.id);
      if grandParent.None? { return None; }
      if grandParent.value.view + 1 == parent.value.view && parent.value.view + 1 == qc.view {
        return grandParent;
      }
      return None;
    }

    method VotingRule(b: Block) returns (vote: bool)
      ensures vote == HotStuffs.VotingRule(Model(), b)
    {
      if b.view <= 2 { return true; }
      var parent := bc.GetParentBlock(b.id);
      if parent.None? { return false; }
      if b.view <= lastVotedView || parent.value.view < preferredView { return false; }
      return true;
    }

    method FinishCommit(b: Block, qc: QC)
      requires Valid() && !halted
      modifies this`halted, this`decided, this`committedBlocks, this`forkedBlocks, bc.forrest, bc.quorum
      ensures Valid() && Mirrors(Finish(old(Model()), Decided(b, qc)))
    {
      hide ForestKnown, Ordered, Filed, CommitBlock, Descending, Indexed;
      KeptKnown(world, bc.Model(), b.id);
      KnownDescending(world, bc.forrest.Model());
      decided := decided + [Decided(b, qc)];
      var r := bc.Commit(b.id);
      match r
      case Died => halted := true;
      case Reported(cs, fs) =>
        committedBlocks := committedBlocks + cs;
        forkedBlocks := forkedBlocks + fs;
      case _ =>
    }

    method ProcessCertificate(qc: QC)
      requires Valid() && !halted
      modifies this, pm, bc.forrest, bc.quorum
      ensures Valid() && Mirrors(OnCertificate(old(Model()), qc))
    {
      hide Finish, HotStuffs.CommitRule, ForestKnown, Ordered, Indexed, GetParent, Filed;
      if qc.view < pm.curView { return; }
      if qc.leader != id {
        if !qc.valid { return; }
      }
      var ok := UpdatePreferredView(qc);
      if !ok {
        bufferedQCs := bufferedQCs[qc.blockId := qc];
        return;
      }
      pm.AdvanceView(qc.view);
      UpdateHighQC(qc);
      if qc.view < 3 { return; }
      var b := CommitRule(qc);
      if b.None? { return; }
      FinishCommit(b.value, qc);
    }

    method ProcessVote(vote: Vote)
      requires Valid() && !halted
      modifies this, pm, bc.forrest, bc.quorum
      ensures Valid() && Mirrors(OnVote(old(Model()), vote))
    {
      hide OnCertificate;
      if vote.voter != id {
        if !vote.valid { return; }
      }
      var built := bc.AddVote(vote);
      if built.None? { return; }
      var qc := built.value.(leader := id);
      if bc.GetBlockByID(qc.blockId).None? {
        bufferedQCs := bufferedQCs[qc.blockId := qc];
        return;
      }
      ProcessCertificate(qc);
    }

    /** Processes the certificate that was waiting for a block, then forgets it. */
    method ProcessBufferedQC(blockId: Id)
      requires Valid() && !halted
      modifies this, pm, bc.forrest, bc.quorum
      ensures Valid() && Mirrors(Replay(old(Model()), blockId))
    {
      hide OnCertificate;
      if blockId in bufferedQCs {
        ProcessCertificate(bufferedQCs[blockId]);
        if halted { return; }
        bufferedQCs := bufferedQCs - {blockId};
      }
    }

    /** The first part of processing a block, up to the decision whether to vote. */
    method StoreBlock(b: Block) returns (taken: bool)
      requires Valid() && !halted && Known(b)
      modifies this, pm, bc.forrest, bc.quorum
      ensures Valid() && Mirrors(TakeUp(old(Model()), b).1) && taken == TakeUp(old(Model()), b).0
      ensures taken ==> !halted
    {
      hide OnCertificate, Replay, Add, ForestKnown, Ordered;
      if b.view > pm.curView + 1 {
        bufferedBlocks := bufferedBlocks[b.view - 1 := b];
        return false;
      }
      if !b.hasQC { return false; }
      UpdateHighQC(b.qc);
      if b.proposer != id {
        ProcessCertificate(b.qc);
        if halted { return false; }
      }
      if b.view < pm.curView { return false; }
      if b.proposer != leaderOf(b.view) { return false; }
      AddKnown(world, bc.forrest.Model(), b);
      bc.AddBlock(b);
      ProcessBufferedQC(b.id);
      return !halted;
    }

    method SendVote(b: Block)
      requires Valid() && !halted
      modifies this, pm, bc.forrest, bc.quorum
      ensures Valid() && Mirrors(CastVote(old(Model()), b))
    {
      hide OnVote;
      sent := sent + [Ballot(b.view, b.id, preferredView)];
      if leaderOf(b.view + 1) == id {
        ProcessVote(Vote(b.view, id, b.id, true));
      }
    }

    method ProcessBlock(b: Block)
      requires Valid() && !halted && Known(b)
      modifies this, pm, bc.forrest, bc.quorum
      ensures Valid() && Mirrors(OnBlock(old(Model()), b))
      decreases Waiting(bufferedBlocks, b.view)
    {
      hide TakeUp, CastVote, ForestKnown, Ordered, HotStuffs.VotingRule, Later, Indexed, Descending;
      ghost var s := Model();
      OneFrame(s, b);
      var taken := StoreBlock(b);
      if !taken { return; }
      var vote := VotingRule(b);
      if !vote { return; }
      SendVote(b);
      if halted { return; }
      if b.view in bufferedBlocks {
        assert b.view in Waiting(s.bufferedBlocks, b.view) && b.view !in Waiting(s.bufferedBlocks, b.view + 1);
        ProcessBlock(bufferedBlocks[b.view]);
        if halted { return; }
        bufferedBlocks := bufferedBlocks - {b.view};
      }
    }

    method ProcessRemoteTmo(tmo: Tmo)
      requires Valid() && !halted
      modifies this, pm, pm.timeoutController, bc.forrest, bc.quorum
      ensures Valid() && Mirrors(OnTmo(old(Model()), tmo))
    {
      hide OnCertificate;
      ProcessCertificate(tmo.highQC);
      if halted { return; }
      var tc := pm.ProcessRemoteTmo(tmo);
      if tc.None? { return; }
      if tc.value < pm.curView { return; }
      pm.AdvanceView(tc.value);
    }

    method ProcessLocalTmo(view: View)
      requires Valid() && !halted
      modifies this, pm, pm.timeoutController, bc.forrest, bc.quorum
      ensures Valid() && Mirrors(OnLocalTmo(old(Model()), view))
    {
      hide OnTmo;
      pm.AdvanceView(view);
      ProcessRemoteTmo(Tmo(view + 1, id, highQC));
    }

    /** The proposal extends the highest certificate. */
    method MakeProposal(view: View, newId: Id) returns (b: Block)
      ensures b == Proposal(Model(), view, newId)
    {
      return Block(newId, view, highQC.blockId, highQC, true, id);
    }
  }
}
