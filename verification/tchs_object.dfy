/** The two-chain HotStuff object: tchs/tchs.go, method by method, against the handlers on values. */
module TwoChainObject {
  import opened Types
  import opened Tally
  import opened Quorums
  import opened Forests
  import opened Worlds
  import opened BlockChains
  import opened Pacemakers
  import opened Safety
  import opened Outputs
  import opened HotStuffs
  import opened TwoChain
  import opened TwoChainRuns

  class Tchs {
    const id: Node
    const leaderOf: View -> Node
    ghost const world: World
    const pm: Pacemaker
    const bc: BlockChain
    var halted: bool
    var lastVotedView: View
    var preferredView: View
    var highQC: QC
    var bufferedQCs: map<Id, QC>
    var bufferedBlocks: map<View, Block>
    var sent: seq<Ballot>
    var decided: seq<Decided>
    var committedBlocks: seq<Block>
    var forkedBlocks: seq<Block>

    ghost function Model(): Replica
      reads this, pm, pm.timeoutController, bc, bc.forrest, bc.quorum
    {
      Replica(id, leaderOf, halted, pm.Model(), bc.Model(), lastVotedView, preferredView, highQC,
              bufferedQCs, bufferedBlocks, sent, decided, committedBlocks, forkedBlocks)
    }

    ghost predicate Known(b: Block)
      reads this
    {
      b.hasQC ==> Outputs.Known(world, b)
    }

    ghost predicate Valid()
      reads this, bc, bc.forrest
    {
      && bc.Valid() && Ordered(world) && ForestKnown(world, bc.forrest.Model())
      && Filed(bufferedBlocks) && forall k :: k in bufferedBlocks ==> Known(bufferedBlocks[k])
    }

    ghost predicate Mirrors(s: Replica)
      reads this, pm, pm.timeoutController, bc, bc.forrest, bc.quorum
    {
      halted == s.halted && (!halted ==> Model() == s)
    }

    constructor (id: Node, n: nat, leaderOf: View -> Node, ghost world: World)
      requires Ordered(world)
      ensures Valid() && fresh(pm) && fresh(pm.timeoutController) && fresh(bc) && fresh(bc.forrest) && fresh(bc.quorum)
      ensures this.world == world && Model() == Fresh(id, n, leaderOf)
    {
      this.id, this.leaderOf, this.world := id, leaderOf, world;
      pm := new Pacemaker(n);
      bc := new BlockChain(n);
      halted, lastVotedView, preferredView, highQC := false, 0, 0, GENESIS_QC;
      bufferedQCs, bufferedBlocks, sent, decided, committedBlocks, forkedBlocks := map[], map[], [], [], [], [];
    }

    method UpdateHighQC(qc: QC)
      modifies this`highQC
      ensures highQC == if qc.view > old(highQC).view then qc else old(highQC)
    {
      if qc.view > highQC.view {
        highQC := qc;
      }
    }

    method UpdatePreferredView(qc: QC) returns (ok: bool)
      requires Valid()
      modifies this`preferredView
      ensures match LockOn(old(Model()), qc)
              case None => !ok && Model() == old(Model())
              case Some(s) => ok && Model() == s
    {
      if qc.view < 2 { return true; }
      if bc.GetBlockByID(qc.blockId).None? { return false; }
      if qc.view > preferredView {
        preferredView := qc.view;
      }
      return true;
    }

    method CommitRule(b: Block) returns (r: Option<Block>)
      ensures r == CommitRule2(bc.forrest.Model(), b)
    {
      var parent := bc.GetParentBlock(b.qc.blockId);
      if parent.None? { return None; }
      if parent.value.view + 1 == b.qc.view { return parent; }
      return None;
    }

    method VotingRule(b: Block) returns (vote: bool)
      ensures vote == HotStuffs.VotingRule(Model(), b)
    {
      if b.view <= 2 { return true; }
      var parent := bc.GetParentBlock(b.id);
      if parent.None? { return false; }
      if b.view <= lastVotedView || parent.value.view < preferredView { return false; }
      return true;
    }

    method ProcessCertificate(qc: QC)
      requires Valid()
      modifies this`preferredView, this`bufferedQCs, this`highQC, pm
      ensures Valid() && Model() == OnQC(old(Model()), qc)
    {
      if qc.view < pm.curView { return; }
      if qc.leader != id {
        if !qc.valid { return; }
      }
      var ok := UpdatePreferredView(qc);
      if !ok {
        bufferedQCs := bufferedQCs[qc.blockId := qc];
        return;
      }
      UpdateHighQC(qc);
      pm.AdvanceView(qc.view);
    }

    method ProcessVote(vote: Vote)
      requires Valid()
      modifies this`preferredView, this`bufferedQCs, this`highQC, pm, bc.quorum
      ensures Valid() && Model() == OnVote2(old(Model()), vote)
    {
      hide OnQC;
      if id != vote.voter {
        if !vote.valid { return; }
      }
      var built := bc.AddVote(vote);
      if built.None? { return; }
      var qc := built.value.(leader := id);
      if bc.GetBlockByID(qc.blockId).None? {
        bufferedQCs := bufferedQCs[qc.blockId := qc];
        return;
      }
      ProcessCertificate(qc);
    }

    method FinishCommit(b: Block, qc: QC) returns (ok: bool)
      requires Valid() && !halted
      modifies this`halted, this`decided, this`committedBlocks, this`forkedBlocks, bc.forrest, bc.quorum
      ensures Valid() && Mirrors(Finish(old(Model()), Decided(b, qc)))
      ensures ok == CommitBlock(old(bc.Model()), b.id).Committed? && (ok ==> !halted)
    {
      hide ForestKnown, Ordered, Filed, CommitBlock, Descending, Indexed;
      KeptKnown(world, bc.Model(), b.id);
      KnownDescending(world, bc.forrest.Model());
      decided := decided + [Decided(b, qc)];
      var r := bc.Commit(b.id);
      match r
      case Died => halted := true; return false;
      case Reported(cs, fs) =>
        committedBlocks := committedBlocks + cs;
        forkedBlocks := forkedBlocks + fs;
        return true;
      case _ => return false;
    }

    /** Commits on a block right above its certificate; says whether the block may go on to a vote. */
    method CheckCommit(b: Block) returns (ok: bool)
      requires Valid() && !halted
      modifies this`halted, this`decided, this`committedBlocks, this`forkedBlocks, bc.forrest, bc.quorum
      ensures Valid() && Mirrors(CommitOn(old(Model()), b).1) && ok == CommitOn(old(Model()), b).0
      ensures ok ==> !halted
    {
      hide Finish, CommitBlock, CommitRule2, ForestKnown, Ordered, Filed;
      if !(b.qc.view >= 2 && b.qc.view + 1 == b.view) { return true; }
      var p := CommitRule(b);
      if p.None? { return false; }
      ok := FinishCommit(p.value, b.qc);
    }

    method ProcessBufferedQC(blockId: Id)
      requires Valid()
      modifies this`preferredView, this`bufferedQCs, this`highQC, pm
      ensures Valid() && Model() == Replay2(old(Model()), blockId)
    {
      hide OnQC;
      if blockId in bufferedQCs {
        ProcessCertificate(bufferedQCs[blockId]);
        bufferedQCs := bufferedQCs - {blockId};
      }
    }

    /** The first part of processing a block, up to the decision whether to vote. */
    method StoreBlock(b: Block) returns (taken: bool)
      requires Valid() && !halted && Known(b)
      modifies this, pm, bc.forrest, bc.quorum
      ensures Valid() && Mirrors(TakeUp2(old(Model()), b).1) && taken == TakeUp2(old(Model()), b).0
      ensures taken ==> !halted
    {
      hide OnQC, CommitOn, Replay2, Add, ForestKnown, Ordered, Indexed;
      if b.view > pm.curView + 1 {
        bufferedBlocks := bufferedBlocks[b.view - 1 := b];
        return false;
      }
      if !b.hasQC { return false; }
      UpdateHighQC(b.qc);
      if b.proposer != id {
        ProcessCertificate(b.qc);
      }
      if b.view < pm.curView { return false; }
      if b.proposer != leaderOf(b.view) { return false; }
      AddKnown(world, bc.forrest.Model(), b);
      bc.AddBlock(b);
      var ok := CheckCommit(b);
      if !ok { return false; }
      ProcessBufferedQC(b.id);
      return true;
    }

    method SendVote(b: Block)
      requires Valid()
      modifies this`sent, this`preferredView, this`bufferedQCs, this`highQC, pm, bc.quorum
      ensures Valid() && Model() == CastVote2(old(Model()), b)
    {
      hide OnVote2;
      sent := sent + [Ballot(b.view, b.id, preferredView)];
      if leaderOf(b.view + 1) == id {
        ProcessVote(Vote(b.view, id, b.id, true));
      }
    }

    method ProcessBlock(b: Block)
      requires Valid() && !halted && Known(b)
      modifies this, pm, bc.forrest, bc.quorum
      ensures Valid() && Mirrors(OnBlock2(old(Model()), b))
      decreases Waiting(bufferedBlocks, b.view)
    {
      hide TakeUp2, CastVote2, ForestKnown, Ordered, HotStuffs.VotingRule;
      ghost var s := Model();
      OneFrame2(s, b);
      var taken := StoreBlock(b);
      if !taken { return; }
      var vote := VotingRule(b);
      if !vote { return; }
      SendVote(b);
      if b.view in bufferedBlocks {
        assert b.view in Waiting(s.bufferedBlocks, b.view) && b.view !in Waiting(s.bufferedBlocks, b.view + 1);
        ProcessBlock(bufferedBlocks[b.view]);
      }
    }

    method ProcessRemoteTmo(tmo: Tmo)
      requires Valid()
      modifies pm, pm.timeoutController
      ensures Valid() && Model() == OnTmo2(old(Model()), tmo)
    {
      if tmo.view < pm.curView { return; }
      var tc := pm.ProcessRemoteTmo(tmo);
      if tc.None? { return; }
      if tc.value < pm.curView { return; }
      pm.AdvanceView(tc.value);
    }

    method ProcessLocalTmo(view: View)
      requires Valid()
      modifies pm, pm.timeoutController
      ensures Valid() && Model() == OnLocalTmo2(old(Model()), view)
      ensures pm.timeoutController.timeouts == old(pm.timeoutController.timeouts)
    {
      pm.AdvanceView(view + 1);
      ProcessRemoteTmo(Tmo(view + 1, id, highQC));
    }

    /** Relabels the highest certificate and puts it into the proposal. */
    method MakeProposal(view: View, newId: Id) returns (b: Block)
      requires Valid() && pm.curView >= 1
      modifies this`highQC
      ensures Valid() && Model() == Relabel(old(Model()), {}, {})
      ensures b == Proposal2(old(Model()), view, newId) == Proposal(Model(), view, newId)
    {
      highQC := highQC.(view := pm.curView - 1);
      return Block(newId, view, highQC.blockId, highQC, true, id);
    }
  }
}
