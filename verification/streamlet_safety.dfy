/** What every task of a Streamlet replica keeps. `Light3` asks nothing of the votes that are delivered, `Backing3` asks
    that none of them is forged, and `Ranked3` that they carry the views of their blocks. */
module StreamletInvariant {
  import opened Types
  import opened Tally
  import opened Quorums
  import opened Forests
  import opened Worlds
  import opened BlockChains
  import opened Pacemakers
  import opened Safety
  import opened Outputs
  import opened Streamlets

  // ---------------------------------------------------------------- the forest

  /** The forest holds blocks of the world at their own levels, and the placeholder of the genesis block. */
  ghost predicate Placed(f: Forest, w: World) {
    forall id :: id in f.vertices ==>
      || (id == GENESIS && f.vertices[id].vertex.None?)
      || (f.vertices[id].vertex.Some? && PlacedAt(w, id, f.vertices[id].vertex.value, f.vertices[id].level, f.lowest))
  }

  ghost predicate PlacedAt(w: World, id: Id, b: Block, level: nat, lowest: nat) {
    b.id == id && Known(w, b) && level == b.view >= lowest
  }

  lemma PlacedKnown(f: Forest, w: World)
    requires Placed(f, w)
    ensures ForestKnown(w, f)
  {
  }

  lemma AddPlaced(f: Forest, w: World, b: Block)
    requires Ordered(w) && Placed(f, w) && Known(w, b) && (b.view > 1 ==> GetVertex(f, b.prevId).Some?)
    ensures Placed(Add(f, b), w)
  {
    assert b.view <= 1 ==> b.prevId == GENESIS;
  }

  lemma CutPlaced(f: Forest, w: World, level: nat)
    requires Placed(f, w)
    ensures Placed(Cut(f, level), w)
  {
  }

  lemma CommitPlaced(c: Chain, w: World, id: Id)
    requires Placed(c.forest, w)
    ensures CommitBlock(c, id).Committed? ==> Placed(CommitBlock(c, id).chain.forest, w)
  {
    if GetVertex(c.forest, id).Some? {
      CutPlaced(c.forest, w, GetVertex(c.forest, id).value.view);
    }
    hide Placed, CommitPath, IdsOf;
  }

  lemma HeldPlaced(f: Forest, w: World, id: Id)
    requires Placed(f, w) && GetVertex(f, id).Some?
    ensures var b := GetVertex(f, id).value; b.id == id && Known(w, b) && b.view >= f.lowest
  {
  }

  // ---------------------------------------------------------------- the notarized chain

  /** One known block per entry; each block after the first has its parent at an earlier position. */
  ghost predicate Threaded(w: World, chain: seq<seq<Block>>) {
    && (forall i :: 0 <= i < |chain| ==> |chain[i]| == 1 && Known(w, chain[i][0]))
    && (forall i :: 0 < i < |chain| ==> Extends(chain[..i], chain[i][0].prevId))
  }

  /** Views rise strictly and stay below the current view. */
  ghost predicate Climbing(chain: seq<seq<Block>>, curView: View) {
    && (forall i :: 0 <= i < |chain| ==> |chain[i]| == 1 && chain[i][0].view < curView)
    && (forall i, j :: 0 <= i < j < |chain| ==> chain[i][0].view < chain[j][0].view)
  }

  lemma AppendThreaded(w: World, chain: seq<seq<Block>>, b: Block)
    requires Threaded(w, chain) && Notarize(chain, b).Appended? && Known(w, b)
    ensures Threaded(w, chain + [[b]])
  {
    var more: seq<seq<Block>> := chain + [[b]];
    forall i | 0 < i < |more| ensures Extends(more[..i], more[i][0].prevId) {
      assert more[..i] == if i < |chain| then chain[..i] else chain;
    }
  }

  lemma AppendClimbing(chain: seq<seq<Block>>, curView: View, b: Block)
    requires Climbing(chain, curView) && b.view >= curView
    ensures Climbing(chain + [[b]], b.view + 1) && TailView(chain) <= TailView(chain + [[b]])
  {
  }

  // ---------------------------------------------------------------- whatever is delivered

  /** A vote is for a known block; above view 2 its parent was the last notarized block. */
  ghost predicate OnTip(w: World, b: Ballot) {
    && b.id in w && b.view == w[b.id].view
    && (b.view > 2 ==> w[b.id].prevId in w && w[w[b.id].prevId].view == b.pref)
  }

  ghost predicate AllOnTip(w: World, journal: seq<Ballot>) {
    forall i :: 0 <= i < |journal| ==> OnTip(w, journal[i])
  }

  /** The certified block is one view above the committed one. */
  ghost predicate Fired3(w: World, d: Decided) {
    && d.qc.blockId in w && d.block.id in w
    && w[d.block.id].view + 1 == w[d.qc.blockId].view && w[d.qc.blockId].view >= 3
  }

  ghost predicate AllFired3(w: World, ds: seq<Decided>) {
    forall j :: 0 <= j < |ds| ==> Fired3(w, ds[j])
  }

  ghost predicate BlocksKnown(w: World, blocks: map<Id, Block>) {
    forall k :: k in blocks ==> Known(w, blocks[k])
  }

  ghost predicate TasksKnown(w: World, todo: seq<Task>) {
    forall i :: 0 <= i < |todo| && todo[i].RunBlock? ==> Known(w, todo[i].block)
  }

  ghost predicate Light3(w: World, s: Peer) {
    && Ordered(w) && Placed(s.chain.forest, w) && (s.chain.forest.lowest == 0 || s.pm.curView >= 4)
    && BlocksKnown(w, s.bufferedBlocks) && TasksKnown(w, s.todo)
    && Threaded(w, s.notarized) && AllOnTip(w, s.journal)
    && AllFired3(w, s.decisions) && AllDecided(w, s.decisions, s.committed)
  }

  lemma PushKnown(w: World, more: seq<Task>, todo: seq<Task>)
    requires TasksKnown(w, more) && TasksKnown(w, todo)
    ensures TasksKnown(w, more + todo)
  {
  }

  lemma PopKnown(w: World, todo: seq<Task>)
    requires TasksKnown(w, todo) && todo != []
    ensures TasksKnown(w, todo[1..]) && (todo[0].RunBlock? ==> Known(w, todo[0].block))
  {
  }

  lemma ThreeKnown(w: World, x: Task, y: Task, z: Task)
    requires !x.RunBlock? && !y.RunBlock? && !z.RunBlock?
    ensures TasksKnown(w, [x, y, z])
  {
  }

  lemma TakeKnown(w: World, id: Id)
    ensures TasksKnown(w, [TakeBlock(id), TakeNotarized(id)])
  {
  }

  /** A vote is for a block whose parent is the last notarized one, and the view of that one is recorded with it. */
  lemma VoteOnTip(w: World, chain: seq<seq<Block>>, b: Block)
    requires Threaded(w, chain) && Known(w, b) && VotingRule(chain, b).Yes?
    ensures OnTip(w, Ballot(b.view, b.id, TailView(chain)))
  {
    if b.view > 2 {
      var last := chain[|chain| - 1];
      assert last[0].id == b.prevId && Known(w, last[0]);
    }
  }

  lemma StoreLight3(w: World, s: Peer, b: Block)
    requires Light3(w, s) && Known(w, b)
    ensures b.view <= 1 || Held(s, b.prevId) ==> Light3(w, s.(chain := s.chain.(forest := Add(s.chain.forest, b))))
    ensures Light3(w, s.(bufferedBlocks := s.bufferedBlocks[b.prevId := b]))
  {
    if b.view <= 1 || Held(s, b.prevId) {
      AddPlaced(s.chain.forest, w, b);
      AddVertexMap(s.chain.forest, b, b.id);
    }
    hide Placed, Threaded, Add, TasksKnown, AllOnTip, AllFired3, AllDecided, Ordered;
  }

  lemma VotedLight3(w: World, s: Peer, b: Block)
    requires Light3(w, s) && Known(w, b) && VotingRule(s.notarized, b).Yes?
    ensures Light3(w, s.(journal := s.journal + [Ballot(b.view, b.id, TailView(s.notarized))],
                         todo := [RunVote(Vote(b.view, s.id, b.id, true)), TryQC(b.id), TryBlock(b.id)] + s.todo))
  {
    hide Placed, Threaded, TasksKnown, AllFired3, AllDecided, Ordered, BlocksKnown, VotingRule, TailView, OnTip;
    VoteOnTip(w, s.notarized, b);
    ThreeKnown(w, RunVote(Vote(b.view, s.id, b.id, true)), TryQC(b.id), TryBlock(b.id));
    PushKnown(w, [RunVote(Vote(b.view, s.id, b.id, true)), TryQC(b.id), TryBlock(b.id)], s.todo);
  }

  lemma BlockLight3(w: World, s: Peer, b: Block)
    requires Light3(w, s) && Known(w, b)
    ensures Light3(w, OnBlock(s, b))
  {
    StoreLight3(w, s, b);
    var s1 := s.(chain := s.chain.(forest := Add(s.chain.forest, b)));
    hide Light3, Add, Held, VotingRule, TailView, Known;
    if OnBlock(s, b) == Judge(s1, b) && Light3(w, s1) {
      match VotingRule(s.notarized, b)
      case Crash => HaltLight3(w, s1);
      case No => StoreLight3(w, s1, b);
      case Yes => VotedLight3(w, s1, b);
    }
  }

  lemma HaltLight3(w: World, s: Peer)
    requires Light3(w, s)
    ensures Light3(w, s.(halted := true))
  {
  }

  lemma QueueLight3(w: World, s: Peer, more: seq<Task>)
    requires Light3(w, s) && TasksKnown(w, more)
    ensures Light3(w, s.(todo := more + s.todo))
  {
    hide Placed, Threaded, TasksKnown, AllFired3, AllDecided, Ordered, BlocksKnown, AllOnTip;
    PushKnown(w, more, s.todo);
  }

  lemma VoteLight3(w: World, s: Peer, v: Vote)
    requires Light3(w, s)
    ensures Light3(w, OnVote(s, v))
  {
    var s1 := s.(chain := s.chain.(votes := Record(s.chain.n, s.chain.votes, Cast(v))));
    assert Light3(w, s1) by { hide Placed, Threaded, TasksKnown, AllFired3, AllDecided, Ordered, AllOnTip, Record; }
    hide Light3, Record, Built;
    if Built(s.chain.n, s.chain.votes, v).Some? {
      QueueLight3(w, s1, [RunQC(Built(s.chain.n, s.chain.votes, v).value)]);
    }
  }

  /** What the commit rule picks from a threaded chain whose last entry is `b`. */
  lemma RuleFires3(w: World, chain: seq<seq<Block>>, b: Block, qc: QC)
    requires Ordered(w) && Threaded(w, chain + [[b]]) && qc.blockId == b.id && CommitRule(chain + [[b]]).Some?
    ensures Fired3(w, Decided(CommitRule(chain + [[b]]).value, qc))
  {
    var more: seq<seq<Block>> := chain + [[b]];
    var h := |more|;
    assert more[h - 1] == [b] && Known(w, more[h - 1][0]) && Known(w, more[h - 2][0]) && Known(w, more[h - 3][0]);
  }

  lemma DecideLight3(w: World, s: Peer, d: Decided, halted: bool)
    requires Light3(w, s) && Fired3(w, d)
    ensures Light3(w, s.(decisions := s.decisions + [d], halted := halted))
  {
    hide Placed, Threaded, TasksKnown, Ordered, BlocksKnown, AllOnTip, AllDecided, Descends, Fired3;
    OutputGrows(w, s.decisions, s.committed, d, []);
  }

  lemma ReportLight3(w: World, s: Peer, d: Decided, c: Chain, cs: seq<Block>, fs: seq<Block>)
    requires Light3(w, s) && Fired3(w, d) && s.pm.curView >= 4 && Placed(c.forest, w)
    requires forall i :: 0 <= i < |cs| ==> Descends(w, d.block.id, cs[i].id)
    ensures Light3(w, s.(decisions := s.decisions + [d], chain := c, committed := s.committed + cs,
                         forked := s.forked + fs))
  {
    hide Placed, Threaded, TasksKnown, Ordered, BlocksKnown, AllOnTip, AllDecided, Descends, Fired3;
    OutputGrows(w, s.decisions, s.committed, d, cs);
  }

  lemma FinishLight3(w: World, s: Peer, d: Decided)
    requires Light3(w, s) && Fired3(w, d) && s.pm.curView >= 4
    ensures Light3(w, Finish(s, d))
  {
    hide Light3, CommitBlock, Fired3, Placed, Threaded, Ordered, Descends, ForestKnown, TasksKnown;
    LightThreaded(w, s);
    DecideLight3(w, s, d, s.halted);
    DecideLight3(w, s, d, true);
    var r := CommitBlock(s.chain, d.block.id);
    if r.Committed? {
      PlacedKnown(s.chain.forest, w);
      CommitKnown(w, s.chain, d.block.id);
      CommitPlaced(s.chain, w, d.block.id);
      ReportLight3(w, s, d, r.chain, r.committed, r.forked);
      TakeKnown(w, d.qc.blockId);
      QueueLight3(w, s.(decisions := s.decisions + [d], chain := r.chain, committed := s.committed + r.committed,
                        forked := s.forked + r.forked), [TakeBlock(d.qc.blockId), TakeNotarized(d.qc.blockId)]);
    }
  }

  lemma AppendLight3(w: World, s: Peer, b: Block, view: View)
    requires Light3(w, s) && Known(w, b) && Notarize(s.notarized, b).Appended?
    ensures Light3(w, s.(notarized := s.notarized + [[b]], pm := Advance(s.pm, view)))
  {
    AppendThreaded(w, s.notarized, b);
    hide Placed, TasksKnown, Ordered, BlocksKnown, AllOnTip, AllFired3, AllDecided, Notarize, Threaded;
  }

  lemma BufferLight3(w: World, s: Peer, qc: QC, key: Id)
    requires Light3(w, s)
    ensures Light3(w, s.(bufferedQCs := s.bufferedQCs[key := qc]))
    ensures Light3(w, s.(bufferedNotarized := s.bufferedNotarized[key := qc]))
  {
    hide Placed, Threaded, TasksKnown, Ordered, BlocksKnown, AllOnTip, AllFired3, AllDecided;
  }

  lemma LightThreaded(w: World, s: Peer)
    requires Light3(w, s)
    ensures Ordered(w) && Threaded(w, s.notarized) && Placed(s.chain.forest, w)
  {
  }

  lemma JoinLight3(w: World, s: Peer, b: Block, qc: QC)
    requires Light3(w, s) && Known(w, b) && qc.blockId == b.id
    ensures Light3(w, Join(s, b, qc))
  {
    hide Light3, Extends, CommitRule, Finish, Known, Threaded, Fired3;
    BufferLight3(w, s, qc, b.prevId);
    HaltLight3(w, s);
    if Notarize(s.notarized, b).Appended? {
      AppendLight3(w, s, b, qc.view);
      var chain := s.notarized + [[b]];
      var s1 := s.(notarized := chain, pm := Advance(s.pm, qc.view));
      if qc.view >= 3 && CommitRule(chain).Some? {
        LightThreaded(w, s1);
        RuleFires3(w, s.notarized, b, qc);
        FinishLight3(w, s1, Decided(CommitRule(chain).value, qc));
      }
    }
  }

  lemma QCLight3(w: World, s: Peer, qc: QC)
    requires Light3(w, s)
    ensures Light3(w, OnQC(s, qc))
  {
    hide Light3, Join, Known, GetVertex;
    BufferLight3(w, s, qc, qc.blockId);
    if Held(s, qc.blockId) {
      LightThreaded(w, s);
      HeldPlaced(s.chain.forest, w, qc.blockId);
      JoinLight3(w, s, GetVertex(s.chain.forest, qc.blockId).value, qc);
    }
  }

  lemma DropLight3(w: World, s: Peer, id: Id)
    requires Light3(w, s)
    ensures Light3(w, s.(bufferedBlocks := s.bufferedBlocks - {id}))
    ensures Light3(w, s.(bufferedQCs := s.bufferedQCs - {id}))
  {
    hide Placed, Threaded, TasksKnown, Ordered, AllOnTip, AllFired3, AllDecided;
  }

  lemma BufferedKnown(w: World, s: Peer, id: Id)
    requires Light3(w, s) && id in s.bufferedBlocks
    ensures Known(w, s.bufferedBlocks[id])
  {
  }

  lemma DoLight3(w: World, s: Peer, t: Task)
    requires Light3(w, s) && (t.RunBlock? ==> Known(w, t.block))
    ensures Light3(w, Do(s, t))
  {
    hide OnBlock, OnVote, OnQC, Light3, Known;
    match t
    case RunBlock(b) => BlockLight3(w, s, b);
    case RunVote(v) => VoteLight3(w, s, v);
    case RunQC(qc) => QCLight3(w, s, qc);
    case TryQC(id) => if id in s.bufferedQCs { QueueLight3(w, s, [RunQC(s.bufferedQCs[id])]); }
    case TryBlock(id) =>
      if id in s.bufferedBlocks {
        BufferedKnown(w, s, id);
        QueueLight3(w, s, [RunBlock(s.bufferedBlocks[id])]);
      }
    case TakeBlock(id) =>
      if id in s.bufferedBlocks {
        BufferedKnown(w, s, id);
        QueueLight3(w, s, [RunBlock(s.bufferedBlocks[id]), DropBlock(id)]);
      }
    case TakeNotarized(id) =>
      if id in s.bufferedNotarized {
        QueueLight3(w, s, [RunQC(s.bufferedNotarized[id]), DropQC(s.bufferedNotarized[id].blockId)]);
      }
    case DropBlock(id) => DropLight3(w, s, id);
    case DropQC(id) => DropLight3(w, s, id);
  }

  lemma PopLight3(w: World, s: Peer)
    requires Light3(w, s) && s.todo != []
    ensures Light3(w, s.(todo := s.todo[1..])) && (s.todo[0].RunBlock? ==> Known(w, s.todo[0].block))
  {
    hide Placed, Threaded, TasksKnown, Ordered, BlocksKnown, AllOnTip, AllFired3, AllDecided;
    PopKnown(w, s.todo);
  }

  lemma ViewLight3(w: World, s: Peer, pm: Pm, spawned: seq<View>)
    requires Light3(w, s) && pm.curView >= s.pm.curView
    ensures Light3(w, s.(pm := pm, spawned := spawned))
  {
    hide Placed, Threaded, TasksKnown, Ordered, BlocksKnown, AllOnTip, AllFired3, AllDecided;
  }

  /** Blocks are known. */
  ghost predicate KnownAct(w: World, act: Act) {
    act.Message? && act.task.RunBlock? ==> Known(w, act.task.block)
  }

  lemma PerformLight3(w: World, s: Peer, act: Act)
    requires Light3(w, s) && KnownAct(w, act)
    ensures Light3(w, Perform(s, act))
  {
    hide Do, AddTimeout, Light3, Known;
    match act
    case Continue =>
      if !s.halted && s.todo != [] {
        PopLight3(w, s);
        DoLight3(w, s.(todo := s.todo[1..]), s.todo[0]);
      }
    case Message(t) => DoLight3(w, s, t);
    case Timeout(tmo) =>
      TimeoutKeepsView(s.pm, tmo);
      ViewLight3(w, s, OnTmo(s, tmo).pm, OnTmo(s, tmo).spawned);
    case Background(k) =>
      if k < |s.spawned| {
        ViewLight3(w, s, Advance(s.pm, s.spawned[k]), s.spawned[..k] + s.spawned[k + 1..]);
      }
  }

  // ---------------------------------------------------------------- nothing is forged

  /** Nobody is named as the leader of a certificate that was built from votes, so a replica always checks it. */
  ghost predicate QcSigned(e: Electorate, qc: QC) {
    qc.leader == 0 && (qc.valid ==> IsQuorum(e, qc.signers, qc.blockId))
  }

  ghost predicate VoteSigned(e: Electorate, v: Vote) {
    v.valid ==> Signed(e, v.voter, v.blockId)
  }

  ghost predicate VotesSigned(e: Electorate, votes: Votes) {
    forall id, x :: id in votes && x in votes[id] ==>
      votes[id][x].blockId == id && votes[id][x].voter == x && VoteSigned(e, votes[id][x])
  }

  ghost predicate QcsSigned(e: Electorate, qcs: map<Id, QC>) {
    forall k :: k in qcs ==> QcSigned(e, qcs[k])
  }

  ghost predicate TaskSigned(e: Electorate, t: Task) {
    && (t.RunVote? ==> VoteSigned(e, t.vote))
    && (t.RunQC? ==> QcSigned(e, t.qc))
  }

  ghost predicate TasksSigned(e: Electorate, todo: seq<Task>) {
    forall i :: 0 <= i < |todo| ==> TaskSigned(e, todo[i])
  }

  ghost predicate ChainCertified(e: Electorate, chain: seq<seq<Block>>) {
    forall i, j :: 0 <= i < |chain| && 0 <= j < |chain[i]| ==> Certified(e, chain[i][j].id)
  }

  ghost predicate AllJustified(e: Electorate, journal: seq<Ballot>) {
    forall i :: 0 <= i < |journal| ==> JustifiedBallot(e, 2, journal[i])
  }

  ghost predicate AllCertified(e: Electorate, ds: seq<Decided>) {
    forall j :: 0 <= j < |ds| ==> Certified(e, ds[j].qc.blockId)
  }

  ghost predicate Backing3(e: Electorate, s: Peer) {
    && s.chain.n == e.n && s.id != 0 && e.faulty <= Nodes(e.n) && e.logs.Keys <= Nodes(e.n)
    && s.id in e.logs && s.journal <= e.logs[s.id]
    && VotesSigned(e, s.chain.votes) && QcsSigned(e, s.bufferedQCs) && QcsSigned(e, s.bufferedNotarized)
    && TasksSigned(e, s.todo) && ChainCertified(e, s.notarized) && AllJustified(e, s.journal)
    && AllCertified(e, s.decisions)
  }

  lemma QueueBacking3(e: Electorate, s: Peer, more: seq<Task>)
    requires Backing3(e, s) && TasksSigned(e, more)
    ensures Backing3(e, s.(todo := more + s.todo))
  {
    hide VotesSigned, QcsSigned, TaskSigned, ChainCertified, AllJustified, AllCertified;
  }

  lemma ParentJustified(e: Electorate, chain: seq<seq<Block>>, b: Block)
    requires ChainCertified(e, chain) && Known(e.w, b) && VotingRule(chain, b).Yes?
    ensures JustifiedBallot(e, 2, Ballot(b.view, b.id, TailView(chain)))
  {
    hide Certified;
  }

  lemma OwnSigned(e: Electorate, s: Peer, b: Block)
    requires Backing3(e, s) && s.journal != [] && s.journal[|s.journal| - 1].id == b.id
    ensures TasksSigned(e, [RunVote(Vote(b.view, s.id, b.id, true)), TryQC(b.id), TryBlock(b.id)])
  {
    hide VotesSigned, QcsSigned, TasksSigned, ChainCertified, AllJustified, AllCertified;
    assert e.logs[s.id][|s.journal| - 1].id == b.id;
    ThreeSigned(e, RunVote(Vote(b.view, s.id, b.id, true)), TryQC(b.id), TryBlock(b.id));
  }

  lemma ThreeSigned(e: Electorate, x: Task, y: Task, z: Task)
    requires TaskSigned(e, x) && TaskSigned(e, y) && TaskSigned(e, z)
    ensures TasksSigned(e, [x, y, z])
  {
  }

  lemma JournalBacking3(e: Electorate, s: Peer, v: Ballot)
    requires Backing3(e, s) && s.journal + [v] <= e.logs[s.id] && JustifiedBallot(e, 2, v)
    ensures Backing3(e, s.(journal := s.journal + [v]))
  {
    hide VotesSigned, QcsSigned, TasksSigned, ChainCertified, JustifiedBallot, AllCertified;
  }

  lemma JudgeBacking3(e: Electorate, s: Peer, b: Block)
    requires Backing3(e, s) && Known(e.w, b) && Judge(s, b).journal <= e.logs[s.id]
    ensures Backing3(e, Judge(s, b))
  {
    if VotingRule(s.notarized, b).Yes? {
      var v := Ballot(b.view, b.id, TailView(s.notarized));
      ParentJustified(e, s.notarized, b);
      hide Backing3, VotingRule, TailView, JustifiedBallot, TasksSigned;
      JournalBacking3(e, s, v);
      var s1 := s.(journal := s.journal + [v]);
      OwnSigned(e, s1, b);
      QueueBacking3(e, s1, [RunVote(Vote(b.view, s.id, b.id, true)), TryQC(b.id), TryBlock(b.id)]);
    } else {
      hide VotesSigned, QcsSigned, TasksSigned, ChainCertified, AllJustified, AllCertified, VotingRule;
    }
  }

  lemma BlockBacking3(e: Electorate, s: Peer, b: Block)
    requires Backing3(e, s) && Known(e.w, b) && OnBlock(s, b).journal <= e.logs[s.id]
    ensures Backing3(e, OnBlock(s, b))
  {
    var s1 := s.(chain := s.chain.(forest := Add(s.chain.forest, b)));
    assert Backing3(e, s1) && Backing3(e, s.(bufferedBlocks := s.bufferedBlocks[b.prevId := b])) by {
      hide VotesSigned, QcsSigned, TasksSigned, ChainCertified, AllJustified, AllCertified, Add;
    }
    hide Backing3, Judge, Add, Held, Known;
    if OnBlock(s, b) == Judge(s1, b) {
      JudgeBacking3(e, s1, b);
    }
  }

  lemma RecordSigned(e: Electorate, votes: Votes, v: Vote)
    requires VotesSigned(e, votes) && VoteSigned(e, v)
    ensures VotesSigned(e, Record(e.n, votes, Cast(v)))
  {
    hide Signed;
  }

  lemma BuiltSigned(e: Electorate, votes: Votes, v: Vote)
    requires e.faulty <= Nodes(e.n) && e.logs.Keys <= Nodes(e.n)
    requires VotesSigned(e, votes) && VoteSigned(e, v) && Built(e.n, votes, v).Some?
    ensures QcSigned(e, Built(e.n, votes, v).value)
  {
    RecordSigned(e, votes, v);
    var after := Record(e.n, votes, Cast(v));
    var vs := after[v.blockId];
    var qc := Built(e.n, votes, v).value;
    if qc.valid {
      forall x | x in vs.Keys ensures x in Nodes(e.n) && Signed(e, x, v.blockId) {
        assert vs[x].valid && VoteSigned(e, vs[x]) && vs[x].blockId == v.blockId && vs[x].voter == x;
      }
      assert |vs.Keys| > e.n * 2 / 3;
    }
  }

  lemma VoteBacking3(e: Electorate, s: Peer, v: Vote)
    requires Backing3(e, s) && VoteSigned(e, v)
    ensures Backing3(e, OnVote(s, v))
  {
    hide VotesSigned, QcsSigned, TasksSigned, ChainCertified, AllJustified, AllCertified, Record, Built, VoteSigned,
         QcSigned;
    RecordSigned(e, s.chain.votes, v);
    var s1 := s.(chain := s.chain.(votes := Record(s.chain.n, s.chain.votes, Cast(v))));
    assert Backing3(e, s1);
    if Built(s.chain.n, s.chain.votes, v).Some? {
      BuiltSigned(e, s.chain.votes, v);
      OneSigned(e, Built(s.chain.n, s.chain.votes, v).value);
      QueueBacking3(e, s1, [RunQC(Built(s.chain.n, s.chain.votes, v).value)]);
    }
  }

  lemma OneSigned(e: Electorate, qc: QC)
    requires QcSigned(e, qc)
    ensures TasksSigned(e, [RunQC(qc)])
  {
    hide QcSigned;
  }

  lemma FinishBacking3(e: Electorate, s: Peer, d: Decided)
    requires Backing3(e, s) && Certified(e, d.qc.blockId)
    ensures Backing3(e, Finish(s, d))
  {
    hide VotesSigned, QcsSigned, ChainCertified, AllJustified, Certified, CommitPath, IdsOf, Prune, GetVertex;
    if CommitBlock(s.chain, d.block.id).Committed? {
      SignedShrinks(e, s.chain.votes, IdsOf(CommitPath(s.chain.forest, GetVertex(s.chain.forest, d.block.id).value)));
      assert TasksSigned(e, [TakeBlock(d.qc.blockId), TakeNotarized(d.qc.blockId)] + s.todo);
    }
  }

  lemma SignedShrinks(e: Electorate, votes: Votes, ids: set<Id>)
    requires VotesSigned(e, votes)
    ensures VotesSigned(e, votes - ids)
  {
  }

  lemma AppendBacking3(e: Electorate, s: Peer, b: Block, view: View)
    requires Backing3(e, s) && Certified(e, b.id)
    ensures Backing3(e, s.(notarized := s.notarized + [[b]], pm := Advance(s.pm, view)))
  {
    hide VotesSigned, QcsSigned, TasksSigned, AllJustified, AllCertified, Certified;
  }

  lemma BufferBacking3(e: Electorate, s: Peer, qc: QC, key: Id)
    requires Backing3(e, s) && QcSigned(e, qc)
    ensures Backing3(e, s.(bufferedQCs := s.bufferedQCs[key := qc]))
    ensures Backing3(e, s.(bufferedNotarized := s.bufferedNotarized[key := qc]))
    ensures Backing3(e, s.(halted := true))
  {
    hide VotesSigned, TasksSigned, ChainCertified, AllJustified, AllCertified, QcSigned;
  }

  lemma JoinBacking3(e: Electorate, s: Peer, b: Block, qc: QC)
    requires Backing3(e, s) && QcSigned(e, qc) && Certified(e, b.id) && qc.blockId == b.id
    ensures Backing3(e, Join(s, b, qc))
  {
    hide Backing3, Extends, CommitRule, Finish, QcSigned, Certified;
    BufferBacking3(e, s, qc, b.prevId);
    if Notarize(s.notarized, b).Appended? {
      AppendBacking3(e, s, b, qc.view);
      var chain := s.notarized + [[b]];
      var s1 := s.(notarized := chain, pm := Advance(s.pm, qc.view));
      if qc.view >= 3 && CommitRule(chain).Some? {
        FinishBacking3(e, s1, Decided(CommitRule(chain).value, qc));
      }
    }
  }

  /** What the replica accepts is a certificate of signed votes. */
  lemma AcceptedCertified(e: Electorate, s: Peer, qc: QC)
    requires Backing3(e, s) && QcSigned(e, qc) && (qc.leader == s.id || qc.valid)
    ensures Certified(e, qc.blockId)
  {
    hide VotesSigned, QcsSigned, TasksSigned, ChainCertified, AllJustified, AllCertified, IsQuorum;
    assert IsQuorum(e, qc.signers, qc.blockId);
  }

  lemma QCBacking3(e: Electorate, s: Peer, qc: QC)
    requires Light3(e.w, s) && Backing3(e, s) && QcSigned(e, qc)
    ensures Backing3(e, OnQC(s, qc))
  {
    hide Light3, Backing3, Join, Known, GetVertex, QcSigned, Certified, Placed, Ordered, Threaded;
    BufferBacking3(e, s, qc, qc.blockId);
    if Held(s, qc.blockId) && (qc.leader == s.id || qc.valid) {
      AcceptedCertified(e, s, qc);
      LightThreaded(e.w, s);
      HeldPlaced(s.chain.forest, e.w, qc.blockId);
      JoinBacking3(e, s, GetVertex(s.chain.forest, qc.blockId).value, qc);
    }
  }

  lemma DropBacking3(e: Electorate, s: Peer, id: Id)
    requires Backing3(e, s)
    ensures Backing3(e, s.(bufferedBlocks := s.bufferedBlocks - {id}))
    ensures Backing3(e, s.(bufferedQCs := s.bufferedQCs - {id}))
  {
    hide VotesSigned, TasksSigned, ChainCertified, AllJustified, AllCertified, QcSigned;
  }

  lemma BufferedSigned(e: Electorate, s: Peer, id: Id)
    requires Backing3(e, s)
    ensures id in s.bufferedQCs ==> TasksSigned(e, [RunQC(s.bufferedQCs[id])])
    ensures id in s.bufferedNotarized ==>
              var qc := s.bufferedNotarized[id]; TasksSigned(e, [RunQC(qc), DropQC(qc.blockId)])
    ensures id in s.bufferedBlocks ==> TasksSigned(e, [RunBlock(s.bufferedBlocks[id])])
    ensures id in s.bufferedBlocks ==> TasksSigned(e, [RunBlock(s.bufferedBlocks[id]), DropBlock(id)])
  {
    hide VotesSigned, ChainCertified, AllJustified, AllCertified, QcSigned;
  }

  lemma DoBacking3(e: Electorate, s: Peer, t: Task)
    requires Light3(e.w, s) && Backing3(e, s) && TaskSigned(e, t) && (t.RunBlock? ==> Known(e.w, t.block))
    requires Do(s, t).journal <= e.logs[s.id]
    ensures Backing3(e, Do(s, t))
  {
    hide OnBlock, OnVote, OnQC, Light3, Backing3, Known, TasksSigned, QcSigned, VoteSigned;
    match t
    case RunBlock(b) => BlockBacking3(e, s, b);
    case RunVote(v) => VoteBacking3(e, s, v);
    case RunQC(qc) => QCBacking3(e, s, qc);
    case TryQC(id) =>
      BufferedSigned(e, s, id);
      if id in s.bufferedQCs { QueueBacking3(e, s, [RunQC(s.bufferedQCs[id])]); }
    case TryBlock(id) =>
      BufferedSigned(e, s, id);
      if id in s.bufferedBlocks { QueueBacking3(e, s, [RunBlock(s.bufferedBlocks[id])]); }
    case TakeBlock(id) =>
      BufferedSigned(e, s, id);
      if id in s.bufferedBlocks { QueueBacking3(e, s, [RunBlock(s.bufferedBlocks[id]), DropBlock(id)]); }
    case TakeNotarized(id) =>
      BufferedSigned(e, s, id);
      if id in s.bufferedNotarized {
        QueueBacking3(e, s, [RunQC(s.bufferedNotarized[id]), DropQC(s.bufferedNotarized[id].blockId)]);
      }
    case DropBlock(id) => DropBacking3(e, s, id);
    case DropQC(id) => DropBacking3(e, s, id);
  }

  lemma PopBacking3(e: Electorate, s: Peer)
    requires Backing3(e, s) && s.todo != []
    ensures Backing3(e, s.(todo := s.todo[1..])) && TaskSigned(e, s.todo[0])
  {
    hide VotesSigned, QcsSigned, TaskSigned, ChainCertified, AllJustified, AllCertified;
  }

  lemma ViewBacking3(e: Electorate, s: Peer, pm: Pm, spawned: seq<View>)
    requires Backing3(e, s)
    ensures Backing3(e, s.(pm := pm, spawned := spawned))
  {
    hide VotesSigned, QcsSigned, TasksSigned, ChainCertified, AllJustified, AllCertified;
  }

  /** A vote that passes the signature check was signed by its sender. */
  ghost predicate SignedAct(e: Electorate, act: Act) {
    act.Message? && act.task.RunVote? ==> VoteSigned(e, act.task.vote)
  }

  lemma PerformBacking3(e: Electorate, s: Peer, act: Act)
    requires Light3(e.w, s) && Backing3(e, s) && KnownAct(e.w, act) && SignedAct(e, act)
    requires Perform(s, act).journal <= e.logs[s.id]
    ensures Backing3(e, Perform(s, act))
  {
    hide Do, AddTimeout, Light3, Backing3, Known, VoteSigned, QcSigned;
    match act
    case Continue =>
      if !s.halted && s.todo != [] {
        PopLight3(e.w, s);
        PopBacking3(e, s);
        DoBacking3(e, s.(todo := s.todo[1..]), s.todo[0]);
      }
    case Message(t) => if !s.halted && s.todo == [] && (t.RunBlock? || t.RunVote?) { DoBacking3(e, s, t); }
    case Timeout(tmo) => ViewBacking3(e, s, OnTmo(s, tmo).pm, OnTmo(s, tmo).spawned);
    case Background(k) =>
      if k < |s.spawned| {
        ViewBacking3(e, s, Advance(s.pm, s.spawned[k]), s.spawned[..k] + s.spawned[k + 1..]);
      }
  }

  // ---------------------------------------------------------------- votes carry the views of their blocks

  ghost predicate Labelled3(w: World, id: Id, view: View) {
    id in w ==> view == w[id].view
  }

  ghost predicate QcRanked(w: World, qc: QC) {
    qc.leader == 0 && (qc.valid ==> Labelled3(w, qc.blockId, qc.view))
  }

  ghost predicate VoteRanked(w: World, v: Vote) {
    v.valid ==> Labelled3(w, v.blockId, v.view)
  }

  ghost predicate QcsRanked(w: World, qcs: map<Id, QC>) {
    forall k :: k in qcs ==> QcRanked(w, qcs[k])
  }

  ghost predicate TaskRanked(w: World, t: Task) {
    && (t.RunVote? ==> VoteRanked(w, t.vote))
    && (t.RunQC? ==> QcRanked(w, t.qc))
  }

  ghost predicate TasksRanked(w: World, todo: seq<Task>) {
    forall i :: 0 <= i < |todo| ==> TaskRanked(w, todo[i])
  }

  /** The last notarized block was never higher at an earlier vote than at a later one, or than it is now. */
  ghost predicate LocksRise(journal: seq<Ballot>) {
    forall i, j :: 0 <= i < j < |journal| ==> journal[i].pref <= journal[j].pref
  }

  ghost predicate LocksBelow(journal: seq<Ballot>, tail: View) {
    forall i :: 0 <= i < |journal| ==> journal[i].pref <= tail
  }

  ghost predicate Ranked3(w: World, s: Peer) {
    && s.id != 0 && QcsRanked(w, s.bufferedQCs) && QcsRanked(w, s.bufferedNotarized) && TasksRanked(w, s.todo)
    && Climbing(s.notarized, s.pm.curView) && LocksRise(s.journal) && LocksBelow(s.journal, TailView(s.notarized))
  }

  lemma QueueRanked3(w: World, s: Peer, more: seq<Task>)
    requires Ranked3(w, s) && TasksRanked(w, more)
    ensures Ranked3(w, s.(todo := more + s.todo))
  {
    hide QcsRanked, TaskRanked, Climbing, LocksRise, LocksBelow, TailView;
  }

  lemma ThreeRanked(w: World, x: Task, y: Task, z: Task)
    requires TaskRanked(w, x) && TaskRanked(w, y) && TaskRanked(w, z)
    ensures TasksRanked(w, [x, y, z])
  {
  }

  lemma JournalRanked3(w: World, s: Peer, view: View, id: Id)
    requires Ranked3(w, s)
    ensures Ranked3(w, s.(journal := s.journal + [Ballot(view, id, TailView(s.notarized))]))
  {
    hide QcsRanked, TasksRanked, Climbing, TailView;
  }

  lemma JudgeRanked3(w: World, s: Peer, b: Block)
    requires Ranked3(w, s) && Known(w, b)
    ensures Ranked3(w, Judge(s, b))
  {
    if VotingRule(s.notarized, b).Yes? {
      var s1 := s.(journal := s.journal + [Ballot(b.view, b.id, TailView(s.notarized))]);
      ThreeRanked(w, RunVote(Vote(b.view, s.id, b.id, true)), TryQC(b.id), TryBlock(b.id));
      hide Ranked3, VotingRule, TailView, TasksRanked;
      JournalRanked3(w, s, b.view, b.id);
      QueueRanked3(w, s1, [RunVote(Vote(b.view, s.id, b.id, true)), TryQC(b.id), TryBlock(b.id)]);
    } else {
      hide QcsRanked, TasksRanked, Climbing, LocksRise, LocksBelow, TailView, VotingRule;
    }
  }

  lemma BlockRanked3(w: World, s: Peer, b: Block)
    requires Ranked3(w, s) && Known(w, b)
    ensures Ranked3(w, OnBlock(s, b))
  {
    var s1 := s.(chain := s.chain.(forest := Add(s.chain.forest, b)));
    assert Ranked3(w, s1) && Ranked3(w, s.(bufferedBlocks := s.bufferedBlocks[b.prevId := b])) by {
      hide QcsRanked, TasksRanked, Climbing, LocksRise, LocksBelow, TailView, Add;
    }
    hide Ranked3, Judge, Add, Held, Known;
    JudgeRanked3(w, s1, b);
  }

  /** A certificate carries the view of the vote that completed it, and is valid only if that vote is. */
  lemma BuiltRanked(w: World, n: nat, votes: Votes, v: Vote)
    requires VoteRanked(w, v) && Built(n, votes, v).Some?
    ensures QcRanked(w, Built(n, votes, v).value)
  {
    var vs := Record(n, votes, Cast(v))[v.blockId];
    assert v.voter in vs && vs[v.voter] == v;
  }

  lemma OneRanked(w: World, qc: QC)
    requires QcRanked(w, qc)
    ensures TasksRanked(w, [RunQC(qc)])
  {
    hide QcRanked;
  }

  lemma VoteRanked3(w: World, s: Peer, v: Vote)
    requires Ranked3(w, s) && VoteRanked(w, v)
    ensures Ranked3(w, OnVote(s, v))
  {
    var s1 := s.(chain := s.chain.(votes := Record(s.chain.n, s.chain.votes, Cast(v))));
    assert Ranked3(w, s1) by { hide QcsRanked, TasksRanked, Climbing, LocksRise, LocksBelow, TailView, Record; }
    hide Ranked3, Record, Built, VoteRanked, QcRanked, TasksRanked;
    if Built(s.chain.n, s.chain.votes, v).Some? {
      BuiltRanked(w, s.chain.n, s.chain.votes, v);
      OneRanked(w, Built(s.chain.n, s.chain.votes, v).value);
      QueueRanked3(w, s1, [RunQC(Built(s.chain.n, s.chain.votes, v).value)]);
    }
  }

  lemma FinishRanked3(w: World, s: Peer, d: Decided)
    requires Ranked3(w, s)
    ensures Ranked3(w, Finish(s, d))
  {
    hide QcsRanked, Climbing, LocksRise, LocksBelow, TailView, CommitBlock;
    if CommitBlock(s.chain, d.block.id).Committed? {
      assert TasksRanked(w, [TakeBlock(d.qc.blockId), TakeNotarized(d.qc.blockId)] + s.todo);
    }
  }

  lemma AppendRanked3(w: World, s: Peer, b: Block, view: View)
    requires Ranked3(w, s) && view == b.view >= s.pm.curView
    ensures Ranked3(w, s.(notarized := s.notarized + [[b]], pm := Advance(s.pm, view)))
  {
    AppendClimbing(s.notarized, s.pm.curView, b);
    hide QcsRanked, TasksRanked, Climbing, LocksRise, TailView;
  }

  lemma BufferRanked3(w: World, s: Peer, qc: QC, key: Id)
    requires Ranked3(w, s) && QcRanked(w, qc)
    ensures Ranked3(w, s.(bufferedQCs := s.bufferedQCs[key := qc]))
    ensures Ranked3(w, s.(bufferedNotarized := s.bufferedNotarized[key := qc]))
    ensures Ranked3(w, s.(halted := true))
  {
    hide TasksRanked, Climbing, LocksRise, LocksBelow, TailView, QcRanked;
  }

  lemma JoinRanked3(w: World, s: Peer, b: Block, qc: QC)
    requires Ranked3(w, s) && QcRanked(w, qc) && qc.view == b.view >= s.pm.curView
    ensures Ranked3(w, Join(s, b, qc))
  {
    hide Ranked3, Extends, CommitRule, Finish, QcRanked;
    BufferRanked3(w, s, qc, b.prevId);
    if Notarize(s.notarized, b).Appended? {
      AppendRanked3(w, s, b, qc.view);
      var chain := s.notarized + [[b]];
      var s1 := s.(notarized := chain, pm := Advance(s.pm, qc.view));
      if qc.view >= 3 && CommitRule(chain).Some? {
        FinishRanked3(w, s1, Decided(CommitRule(chain).value, qc));
      }
    }
  }

  lemma AcceptedRanked(w: World, s: Peer, qc: QC)
    requires Ranked3(w, s) && QcRanked(w, qc) && (qc.leader == s.id || qc.valid)
    ensures Labelled3(w, qc.blockId, qc.view)
  {
    hide QcsRanked, TasksRanked, Climbing, LocksRise, LocksBelow, TailView;
  }

  lemma QCRanked3(w: World, s: Peer, qc: QC)
    requires Light3(w, s) && Ranked3(w, s) && QcRanked(w, qc)
    ensures Ranked3(w, OnQC(s, qc))
  {
    hide Light3, Ranked3, Join, GetVertex, QcRanked, Placed, Ordered, Threaded;
    BufferRanked3(w, s, qc, qc.blockId);
    if qc.view >= s.pm.curView && Held(s, qc.blockId) && (qc.leader == s.id || qc.valid) {
      AcceptedRanked(w, s, qc);
      LightThreaded(w, s);
      HeldPlaced(s.chain.forest, w, qc.blockId);
      JoinRanked3(w, s, GetVertex(s.chain.forest, qc.blockId).value, qc);
    }
  }

  lemma DropRanked3(w: World, s: Peer, id: Id)
    requires Ranked3(w, s)
    ensures Ranked3(w, s.(bufferedBlocks := s.bufferedBlocks - {id}))
    ensures Ranked3(w, s.(bufferedQCs := s.bufferedQCs - {id}))
  {
    hide TasksRanked, Climbing, LocksRise, LocksBelow, TailView, QcRanked;
  }

  lemma BufferedRanked(w: World, s: Peer, id: Id)
    requires Ranked3(w, s)
    ensures id in s.bufferedQCs ==> TasksRanked(w, [RunQC(s.bufferedQCs[id])])
    ensures id in s.bufferedNotarized ==>
              var qc := s.bufferedNotarized[id]; TasksRanked(w, [RunQC(qc), DropQC(qc.blockId)])
    ensures id in s.bufferedBlocks ==> TasksRanked(w, [RunBlock(s.bufferedBlocks[id])])
    ensures id in s.bufferedBlocks ==> TasksRanked(w, [RunBlock(s.bufferedBlocks[id]), DropBlock(id)])
  {
    hide Climbing, LocksRise, LocksBelow, TailView, QcRanked;
  }

  lemma DoRanked3(w: World, s: Peer, t: Task)
    requires Light3(w, s) && Ranked3(w, s) && TaskRanked(w, t) && (t.RunBlock? ==> Known(w, t.block))
    ensures Ranked3(w, Do(s, t))
  {
    hide OnBlock, OnVote, OnQC, Light3, Ranked3, Known, TasksRanked, QcRanked, VoteRanked;
    match t
    case RunBlock(b) => BlockRanked3(w, s, b);
    case RunVote(v) => VoteRanked3(w, s, v);
    case RunQC(qc) => QCRanked3(w, s, qc);
    case TryQC(id) =>
      BufferedRanked(w, s, id);
      if id in s.bufferedQCs { QueueRanked3(w, s, [RunQC(s.bufferedQCs[id])]); }
    case TryBlock(id) =>
      BufferedRanked(w, s, id);
      if id in s.bufferedBlocks { QueueRanked3(w, s, [RunBlock(s.bufferedBlocks[id])]); }
    case TakeBlock(id) =>
      BufferedRanked(w, s, id);
      if id in s.bufferedBlocks { QueueRanked3(w, s, [RunBlock(s.bufferedBlocks[id]), DropBlock(id)]); }
    case TakeNotarized(id) =>
      BufferedRanked(w, s, id);
      if id in s.bufferedNotarized {
        QueueRanked3(w, s, [RunQC(s.bufferedNotarized[id]), DropQC(s.bufferedNotarized[id].blockId)]);
      }
    case DropBlock(id) => DropRanked3(w, s, id);
    case DropQC(id) => DropRanked3(w, s, id);
  }

  lemma PopRanked3(w: World, s: Peer)
    requires Ranked3(w, s) && s.todo != []
    ensures Ranked3(w, s.(todo := s.todo[1..])) && TaskRanked(w, s.todo[0])
  {
    hide QcsRanked, TaskRanked, Climbing, LocksRise, LocksBelow, TailView;
  }

  lemma ViewRanked3(w: World, s: Peer, pm: Pm, spawned: seq<View>)
    requires Ranked3(w, s) && pm.curView >= s.pm.curView
    ensures Ranked3(w, s.(pm := pm, spawned := spawned))
  {
    hide QcsRanked, TasksRanked, LocksRise, LocksBelow, TailView;
  }

  /** A vote that passes the signature check carries the view of its block. */
  ghost predicate LabelledAct(w: World, act: Act) {
    act.Message? && act.task.RunVote? ==> VoteRanked(w, act.task.vote)
  }

  lemma PerformRanked3(w: World, s: Peer, act: Act)
    requires Light3(w, s) && Ranked3(w, s) && KnownAct(w, act) && LabelledAct(w, act)
    ensures Ranked3(w, Perform(s, act))
  {
    hide Do, AddTimeout, Light3, Ranked3, Known, VoteRanked, QcRanked;
    match act
    case Continue =>
      if !s.halted && s.todo != [] {
        PopLight3(w, s);
        PopRanked3(w, s);
        DoRanked3(w, s.(todo := s.todo[1..]), s.todo[0]);
      }
    case Message(t) => if t.RunBlock? || t.RunVote? { DoRanked3(w, s, t); }
    case Timeout(tmo) =>
      TimeoutKeepsView(s.pm, tmo);
      ViewRanked3(w, s, OnTmo(s, tmo).pm, OnTmo(s, tmo).spawned);
    case Background(k) =>
      if k < |s.spawned| {
        ViewRanked3(w, s, Advance(s.pm, s.spawned[k]), s.spawned[..k] + s.spawned[k + 1..]);
      }
  }
}
