/** The Streamlet object: streamlet/streamlet.go, method by method, against the handlers on values. */
module StreamletObject {
  import opened Types
  import opened Tally
  import opened Quorums
  import opened Forests
  import opened Worlds
  import opened BlockChains
  import opened Pacemakers
  import opened Safety
  import opened Outputs
  import opened Streamlets
  import opened StreamletInvariant

  ghost predicate Single(chain: seq<seq<Block>>) {
    forall i :: 0 <= i < |chain| ==> |chain[i]| == 1
  }

  datatype Outcome = Extended | Failed | Panicked

  class Streamlet {
    const id: Node
    const leaderOf: View -> Node
    ghost const world: World
    const pm: Pacemaker
    const bc: BlockChain
    var halted: bool
    var notarizedChain: seq<seq<Block>>
    var bufferedBlocks: map<Id, Block>
    var bufferedQCs: map<Id, QC>
    var bufferedNotarizedBlock: map<Id, QC>
    var todo: seq<Task>
    var spawned: seq<View>
    var sent: seq<Ballot>
    var decided: seq<Decided>
    var committedBlocks: seq<Block>
    var forkedBlocks: seq<Block>

    ghost function Model(): Peer
      reads this, pm, pm.timeoutController, bc, bc.forrest, bc.quorum
    {
      Peer(id, leaderOf, halted, pm.Model(), bc.Model(), notarizedChain, bufferedBlocks, bufferedQCs,
           bufferedNotarizedBlock, todo, spawned, sent, decided, committedBlocks, forkedBlocks)
    }

    ghost predicate Valid()
      reads this, bc, bc.forrest
    {
      && bc.Valid() && Ordered(world) && Placed(bc.forrest.Model(), world) && Single(notarizedChain)
      && BlocksKnown(world, bufferedBlocks) && TasksKnown(world, todo)
    }

    /** The object is in state `s`, or has died exactly when `s` has. */
    ghost predicate Mirrors(s: Peer)
      reads this, pm, pm.timeoutController, bc, bc.forrest, bc.quorum
    {
      halted == s.halted && (!halted ==> Model() == s)
    }

    constructor (id: Node, n: nat, leaderOf: View -> Node, ghost world: World)
      requires Ordered(world)
      ensures Valid() && fresh(pm) && fresh(pm.timeoutController) && fresh(bc) && fresh(bc.forrest) && fresh(bc.quorum)
      ensures this.world == world && Model() == Begin(id, n, leaderOf)
    {
      this.id, this.leaderOf, this.world := id, leaderOf, world;
      pm := new Pacemaker(n);
      bc := new BlockChain(n);
      halted, notarizedChain, todo, spawned := false, [], [], [];
      bufferedBlocks, bufferedQCs, bufferedNotarizedBlock := map[], map[], map[];
      sent, decided, committedBlocks, forkedBlocks := [], [], [], [];
      new;
      pm.AdvanceView(0);
    }

    /** Searches the notarized chain backwards for the parent. */
    method UpdateNotarizedChain(qc: QC) returns (r: Outcome)
      requires Valid()
      modifies this`notarizedChain, this`bufferedNotarizedBlock
      ensures Valid()
      ensures match bc.GetBlockByID(qc.blockId)
              case None => r.Failed? && Model() == old(Model())
              case Some(b) =>
                match Notarize(old(notarizedChain), b)
                case Appended(chain) => r.Extended? && Model() == old(Model()).(notarized := chain)
                case NoParent =>
                  && r.Failed?
                  && Model() == old(Model()).(bufferedNotarized := old(bufferedNotarizedBlock)[b.prevId := qc])
                case OutOfRange => r.Panicked? && Model() == old(Model())
    {
      hide Placed, Ordered;
      var found := bc.GetBlockByID(qc.blockId);
      if found.None? { return Failed; }
      var block := found.value;
      if |notarizedChain| == 0 {
        notarizedChain := notarizedChain + [[block]];
        return Extended;
      }
      var i := |notarizedChain| - 1;
      while i >= 0 || i >= |notarizedChain| - 3
        invariant -1 <= i < |notarizedChain|
        invariant notarizedChain == old(notarizedChain) && bufferedNotarizedBlock == old(bufferedNotarizedBlock)
        invariant forall k :: i < k < |notarizedChain| ==> !Contains(notarizedChain[k], block.prevId)
        decreases i + 1
      {
        if i < 0 { return Panicked; }
        var lastBlocks := notarizedChain[i];
        for j := 0 to |lastBlocks|
          invariant forall k :: 0 <= k < j ==> lastBlocks[k].id != block.prevId
          invariant notarizedChain == old(notarizedChain) && bufferedNotarizedBlock == old(bufferedNotarizedBlock)
        {
          if lastBlocks[j].id == block.prevId {
            notarizedChain := notarizedChain + [[block]];
            return Extended;
          }
        }
        i := i - 1;
      }
      bufferedNotarizedBlock := bufferedNotarizedBlock[block.prevId := qc];
      return Failed;
    }

    method VotingRule(block: Block) returns (v: Verdict)
      ensures v == Streamlets.VotingRule(notarizedChain, block)
    {
      if block.view <= 2 { return Yes; }
      if |notarizedChain| == 0 { return Crash; }
      var lastBlocks := notarizedChain[|notarizedChain| - 1];
      for j := 0 to |lastBlocks|
        invariant forall k :: 0 <= k < j ==> lastBlocks[k].id != block.prevId
      {
        if block.prevId == lastBlocks[j].id { return Yes; }
      }
      return No;
    }

    method CommitRule() returns (r: Option<Block>)
      ensures r == Streamlets.CommitRule(notarizedChain)
    {
      var height := |notarizedChain|;
      if height < 3 { return None; }
      var lastBlocks := notarizedChain[height - 1];
      if |lastBlocks| != 1 { return None; }
      var secondBlocks := notarizedChain[height - 2];
      if |secondBlocks| != 1 { return None; }
      var firstBlocks := notarizedChain[height - 3];
      if |firstBlocks| != 1 { return None; }
      if firstBlocks[0].view + 1 == secondBlocks[0].view && secondBlocks[0].view + 1 == lastBlocks[0].view {
        return Some(secondBlocks[0]);
      }
      return None;
    }

    method FinishCommit(b: Block, qc: QC)
      requires Valid() && !halted
      modifies this`halted, this`decided, this`committedBlocks, this`forkedBlocks, this`todo, bc.forrest, bc.quorum
      ensures Valid() && Mirrors(Finish(old(Model()), Decided(b, qc)))
    {
      hide Placed, Ordered, CommitBlock, Single, BlocksKnown, Descending, Indexed, TasksKnown, ForestKnown;
      CommitPlaced(bc.Model(), world, b.id);
      PlacedKnown(bc.forrest.Model(), world);
      KnownDescending(world, bc.forrest.Model());
      TakeKnown(world, qc.blockId);
      decided := decided + [Decided(b, qc)];
      var r := bc.Commit(b.id);
      match r
      case Died => halted := true;
      case Reported(cs, fs) =>
        committedBlocks := committedBlocks + cs;
        forkedBlocks := forkedBlocks + fs;
        PushKnown(world, [TakeBlock(qc.blockId), TakeNotarized(qc.blockId)], todo);
        todo := [TakeBlock(qc.blockId), TakeNotarized(qc.blockId)] + todo;
      case _ =>
    }

    method ProcessCertificate(qc: QC)
      requires Valid() && !halted
      modifies this, pm, bc.forrest, bc.quorum
      ensures Valid() && Mirrors(OnQC(old(Model()), qc))
    {
      hide Placed, Ordered, Finish, Extends, Streamlets.CommitRule;
      if qc.view < pm.curView { return; }
      if bc.GetBlockByID(qc.blockId).None? && qc.view > 1 {
        bufferedQCs := bufferedQCs[qc.blockId := qc];
        return;
      }
      if qc.leader != id {
        if !qc.valid { return; }
      }
      var r := UpdateNotarizedChain(qc);
      if r.Panicked? {
        halted := true;
        return;
      }
      if r.Failed? { return; }
      pm.AdvanceView(qc.view);
      if qc.view < 3 { return; }
      var b := CommitRule();
      if b.None? { return; }
      FinishCommit(b.value, qc);
    }

    method ProcessVote(vote: Vote)
      requires Valid() && !halted
      modifies this, bc.quorum
      ensures Valid() && Mirrors(OnVote(old(Model()), vote))
    {
      hide Placed, Ordered;
      if vote.voter != id {
        if !vote.valid { return; }
      }
      var built := bc.AddVote(vote);
      if built.None? { return; }
      PushKnown(world, [RunQC(built.value)], todo);
      todo := [RunQC(built.value)] + todo;
    }

    method ProcessBlock(block: Block)
      requires Valid() && !halted && Known(world, block)
      modifies this, bc.forrest
      ensures Valid() && Mirrors(OnBlock(old(Model()), block))
    {
      hide Placed, Ordered, Add, Streamlets.VotingRule, TasksKnown, Single, Indexed;
      if bc.GetBlockByID(block.id).Some? { return; }
      if block.view < pm.curView { return; }
      if bc.GetBlockByID(block.prevId).None? && block.view > 1 {
        bufferedBlocks := bufferedBlocks[block.prevId := block];
        return;
      }
      if block.proposer != leaderOf(block.view) { return; }
      AddPlaced(bc.forrest.Model(), world, block);
      bc.AddBlock(block);
      var v := VotingRule(block);
      match v
      case Crash => halted := true;
      case No => bufferedBlocks := bufferedBlocks[block.prevId := block];
      case Yes =>
        sent := sent + [Ballot(block.view, block.id, TailView(notarizedChain))];
        var vote := Vote(block.view, id, block.id, true);
        ThreeKnown(world, RunVote(vote), TryQC(block.id), TryBlock(block.id));
        PushKnown(world, [RunVote(vote), TryQC(block.id), TryBlock(block.id)], todo);
        todo := [RunVote(vote), TryQC(block.id), TryBlock(block.id)] + todo;
    }

    method ProcessRemoteTmo(tmo: Tmo)
      requires Valid() && !halted
      modifies this`spawned, pm.timeoutController
      ensures Valid() && Mirrors(OnTmo(old(Model()), tmo))
    {
      hide Placed, Ordered;
      var tc := pm.ProcessRemoteTmo(tmo);
      if tc.None? { return; }
      if tc.value < pm.curView { return; }
      spawned := spawned + [tc.value];
    }

    /** Does the next task, where the code would return into or make a nested call. */
    method Resume()
      requires Valid() && !halted && todo != []
      modifies this, pm, bc.forrest, bc.quorum
      ensures Valid() && Mirrors(Perform(old(Model()), Continue))
    {
      hide Placed, Ordered, OnBlock, OnQC, OnVote, Single, Indexed, TasksKnown, Known, BlocksKnown;
      var t := todo[0];
      PopKnown(world, todo);
      todo := todo[1..];
      match t
      case RunBlock(b) => ProcessBlock(b);
      case RunVote(v) => ProcessVote(v);
      case RunQC(qc) => ProcessCertificate(qc);
      case _ => FromBuffer(t);
    }

    /** Takes up or forgets what a buffer holds. */
    method FromBuffer(t: Task)
      requires Valid() && !halted && !t.RunBlock? && !t.RunVote? && !t.RunQC?
      modifies this`todo, this`bufferedBlocks, this`bufferedQCs
      ensures Valid() && Model() == Do(old(Model()), t)
    {
      hide Placed, Ordered, Single, Indexed, TasksKnown, Known;
      match t
      case TryQC(k) => if k in bufferedQCs { Push([RunQC(bufferedQCs[k])]); }
      case TryBlock(k) => if k in bufferedBlocks { Push([RunBlock(bufferedBlocks[k])]); }
      case TakeBlock(k) => if k in bufferedBlocks { Push([RunBlock(bufferedBlocks[k]), DropBlock(k)]); }
      case TakeNotarized(k) =>
        if k in bufferedNotarizedBlock {
          var qc := bufferedNotarizedBlock[k];
          Push([RunQC(qc), DropQC(qc.blockId)]);
        }
      case DropBlock(k) => bufferedBlocks := bufferedBlocks - {k};
      case DropQC(k) => bufferedQCs := bufferedQCs - {k};
    }

    method Push(more: seq<Task>)
      requires Valid() && forall i :: 0 <= i < |more| && more[i].RunBlock? ==> Known(world, more[i].block)
      modifies this`todo
      ensures Valid() && todo == more + old(todo)
    {
      PushKnown(world, more, todo);
      todo := more + todo;
    }

    /** The parent of a proposal: the last notarized block. */
    method ForkChoice() returns (prevId: Id)
      requires Valid()
      ensures prevId == if notarizedChain == [] then GENESIS else notarizedChain[|notarizedChain| - 1][0].id
    {
      if |notarizedChain| == 0 { return GENESIS; }
      return notarizedChain[|notarizedChain| - 1][0].id;
    }

    /** A replica would vote for its own proposal, unless it is above view 2 and nothing is notarized. */
    method MakeProposal(view: View, newId: Id) returns (b: Block)
      requires Valid()
      ensures b.id == newId && b.view == view && b.proposer == id && b.qc.view == 0 && b.qc.blockId == b.prevId
      ensures Streamlets.VotingRule(notarizedChain, b) == if view > 2 && notarizedChain == [] then Crash else Yes
    {
      var prevId := ForkChoice();
      b := Block(newId, view, prevId, QC(0, 0, prevId, {}, false), true, id);
    }
  }
}
