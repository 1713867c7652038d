/** Streamlet at one replica: streamlet/streamlet.go. The calls that a handler makes in turn are put on a stack of
    tasks, in the order in which the code makes them. */
module Streamlets {
  import opened Types
  import opened Tally
  import opened Quorums
  import opened Timeouts
  import opened Forests
  import opened Worlds
  import opened BlockChains
  import opened Pacemakers
  import opened Safety
  import opened Outputs

  datatype Task =
    | RunBlock(block: Block)        // process a block
    | RunVote(vote: Vote)           // process a vote
    | RunQC(qc: QC)                 // process a certificate
    | TryQC(id: Id)                 // process the certificate buffered under an identifier, if any
    | TryBlock(id: Id)              // process the block buffered under an identifier, if any
    | TakeBlock(id: Id)             // the same, and then forget the block
    | TakeNotarized(id: Id)         // process the certificate waiting for a notarized parent, if any
    | DropBlock(id: Id)
    | DropQC(id: Id)

  /** `spawned` holds the view changes that were started in the background and have not happened yet; `journal`
      lists the votes sent, each with the view of the last notarized block. */
  datatype Peer = Peer(
    id: Node, leaderOf: View -> Node, halted: bool, pm: Pm, chain: Chain, notarized: seq<seq<Block>>,
    bufferedBlocks: map<Id, Block>, bufferedQCs: map<Id, QC>, bufferedNotarized: map<Id, QC>,
    todo: seq<Task>, spawned: seq<View>,
    journal: seq<Ballot>, decisions: seq<Decided>, committed: seq<Block>, forked: seq<Block>)

  ghost function Begin(id: Node, n: nat, leaderOf: View -> Node): Peer {
    Peer(id, leaderOf, false, Advance(Pm(n, 0, [], map[]), 0), Chain(n, EMPTY, map[]), [], map[], map[], map[],
         [], [], [], [], [], [])
  }

  // ---------------------------------------------------------------- the notarized chain

  datatype Notarized = Appended(chain: seq<seq<Block>>) | NoParent | OutOfRange

  ghost predicate Contains(entry: seq<Block>, id: Id) {
    exists j :: 0 <= j < |entry| && entry[j].id == id
  }

  /** The parent is notarized. */
  ghost predicate Extends(chain: seq<seq<Block>>, id: Id) {
    exists i :: 0 <= i < |chain| && Contains(chain[i], id)
  }

  /** The first block is appended as it is; a later one needs its parent somewhere in the chain. If it is missing,
      the search runs past the start of a chain shorter than three. */
  ghost function Notarize(chain: seq<seq<Block>>, b: Block): Notarized {
    if chain == [] || Extends(chain, b.prevId) then Appended(chain + [[b]])
    else if |chain| >= 3 then NoParent
    else OutOfRange
  }

  /** The middle one of the last three entries, if each has one block and the views are consecutive. */
  ghost function CommitRule(chain: seq<seq<Block>>): Option<Block> {
    var h := |chain|;
    if h < 3 || |chain[h - 1]| != 1 || |chain[h - 2]| != 1 || |chain[h - 3]| != 1 then None
    else if chain[h - 3][0].view + 1 == chain[h - 2][0].view && chain[h - 2][0].view + 1 == chain[h - 1][0].view
    then Some(chain[h - 2][0])
    else None
  }

  /** Whether to vote; looking at the last entry of an empty chain is out of range. */
  datatype Verdict = Yes | No | Crash

  ghost function VotingRule(chain: seq<seq<Block>>, b: Block): Verdict {
    if b.view <= 2 then Yes
    else if chain == [] then Crash
    else if Contains(chain[|chain| - 1], b.prevId) then Yes else No
  }

  function TailView(chain: seq<seq<Block>>): View {
    if chain == [] || chain[|chain| - 1] == [] then 0 else chain[|chain| - 1][0].view
  }

  // ---------------------------------------------------------------- handlers

  ghost predicate Held(s: Peer, id: Id) {
    GetVertex(s.chain.forest, id).Some?
  }

  /** A block that was just stored is voted for, or waits in the buffer. */
  ghost function Judge(s: Peer, b: Block): Peer {
    match VotingRule(s.notarized, b)
    case Crash => s.(halted := true)
    case No => s.(bufferedBlocks := s.bufferedBlocks[b.prevId := b])
    case Yes =>
      s.(journal := s.journal + [Ballot(b.view, b.id, TailView(s.notarized))],
         todo := [RunVote(Vote(b.view, s.id, b.id, true)), TryQC(b.id), TryBlock(b.id)] + s.todo)
  }

  ghost function OnBlock(s: Peer, b: Block): Peer {
    if Held(s, b.id) || b.view < s.pm.curView then s
    else if !Held(s, b.prevId) && b.view > 1 then s.(bufferedBlocks := s.bufferedBlocks[b.prevId := b])
    else if b.proposer != s.leaderOf(b.view) then s
    else Judge(s.(chain := s.chain.(forest := Add(s.chain.forest, b))), b)
  }

  ghost function OnVote(s: Peer, vote: Vote): Peer {
    if vote.voter != s.id && !vote.valid then s
    else
      var s1 := s.(chain := s.chain.(votes := Record(s.chain.n, s.chain.votes, Cast(vote))));
      match Built(s.chain.n, s.chain.votes, vote)
      case None => s1
      case Some(qc) => s1.(todo := [RunQC(qc)] + s1.todo)
  }

  /** The commit rule fired: report the path, then take up what waited for the certified block. */
  ghost function Finish(s: Peer, d: Decided): Peer {
    var s1 := s.(decisions := s.decisions + [d]);
    match CommitBlock(s.chain, d.block.id)
    case CommitPanic => s1.(halted := true)
    case Committed(c, cs, fs) =>
      s1.(chain := c, committed := s.committed + cs, forked := s.forked + fs,
          todo := [TakeBlock(d.qc.blockId), TakeNotarized(d.qc.blockId)] + s.todo)
    case _ => s1
  }

  /** The block, which is held, joins the notarized chain. */
  ghost function Join(s: Peer, b: Block, qc: QC): Peer {
    match Notarize(s.notarized, b)
    case NoParent => s.(bufferedNotarized := s.bufferedNotarized[b.prevId := qc])
    case OutOfRange => s.(halted := true)
    case Appended(chain) =>
      var s1 := s.(notarized := chain, pm := Advance(s.pm, qc.view));
      if qc.view < 3 || CommitRule(chain).None? then s1 else Finish(s1, Decided(CommitRule(chain).value, qc))
  }

  ghost function OnQC(s: Peer, qc: QC): Peer {
    if qc.view < s.pm.curView then s
    else if !Held(s, qc.blockId) && qc.view > 1 then s.(bufferedQCs := s.bufferedQCs[qc.blockId := qc])
    else if (qc.leader != s.id && !qc.valid) || !Held(s, qc.blockId) then s
    else Join(s, GetVertex(s.chain.forest, qc.blockId).value, qc)
  }

  ghost function OnTmo(s: Peer, tmo: Tmo): Peer {
    var (pm, tc) := AddTimeout(s.pm, tmo);
    var s1 := s.(pm := pm);
    if tc.None? || tc.value < s1.pm.curView then s1 else s1.(spawned := s1.spawned + [tc.value])
  }

  ghost function Do(s: Peer, t: Task): Peer {
    match t
    case RunBlock(b) => OnBlock(s, b)
    case RunVote(v) => OnVote(s, v)
    case RunQC(qc) => OnQC(s, qc)
    case TryQC(id) => if id in s.bufferedQCs then s.(todo := [RunQC(s.bufferedQCs[id])] + s.todo) else s
    case TryBlock(id) => if id in s.bufferedBlocks then s.(todo := [RunBlock(s.bufferedBlocks[id])] + s.todo) else s
    case TakeBlock(id) =>
      if id in s.bufferedBlocks then s.(todo := [RunBlock(s.bufferedBlocks[id]), DropBlock(id)] + s.todo) else s
    case TakeNotarized(id) =>
      if id in s.bufferedNotarized
      then s.(todo := [RunQC(s.bufferedNotarized[id]), DropQC(s.bufferedNotarized[id].blockId)] + s.todo) else s
    case DropBlock(id) => s.(bufferedBlocks := s.bufferedBlocks - {id})
    case DropQC(id) => s.(bufferedQCs := s.bufferedQCs - {id})
  }

  /** The next task is done; or, with no task left, a message is taken up or the timer runs out; or a view change
      from the background happens. */
  datatype Act = Continue | Message(task: Task) | Timeout(tmo: Tmo) | Background(k: nat)

  ghost function Perform(s: Peer, act: Act): Peer {
    if s.halted then s
    else
      match act
      case Continue => if s.todo == [] then s else Do(s.(todo := s.todo[1..]), s.todo[0])
      case Message(t) => if s.todo == [] && (t.RunBlock? || t.RunVote?) then Do(s, t) else s
      case Timeout(tmo) => if s.todo == [] then OnTmo(s, tmo) else s
      case Background(k) =>
        if k < |s.spawned| then s.(pm := Advance(s.pm, s.spawned[k]), spawned := s.spawned[..k] + s.spawned[k + 1..])
        else s
  }

  // ---------------------------------------------------------------- what handlers leave alone

  ghost predicate LaterPeer(s: Peer, t: Peer) {
    && t.id == s.id && t.leaderOf == s.leaderOf && t.chain.n == s.chain.n
    && s.pm.curView <= t.pm.curView && s.notarized <= t.notarized
    && s.journal <= t.journal && s.decisions <= t.decisions && s.committed <= t.committed && s.forked <= t.forked
  }

  lemma FinishLater(s: Peer, d: Decided)
    ensures LaterPeer(s, Finish(s, d))
  {
    hide GetVertex, Prune, CommitPath, IdsOf;
  }

  lemma QCLater(s: Peer, qc: QC)
    ensures LaterPeer(s, OnQC(s, qc))
  {
    hide Finish, CommitRule, GetVertex, Extends;
    if Held(s, qc.blockId) && Notarize(s.notarized, GetVertex(s.chain.forest, qc.blockId).value).Appended? {
      var chain := s.notarized + [[GetVertex(s.chain.forest, qc.blockId).value]];
      var s1 := s.(notarized := chain, pm := Advance(s.pm, qc.view));
      if CommitRule(chain).Some? {
        FinishLater(s1, Decided(CommitRule(chain).value, qc));
      }
    }
  }

  lemma BlockLater(s: Peer, b: Block)
    ensures LaterPeer(s, OnBlock(s, b))
  {
    hide Add, VotingRule, Held, TailView;
  }

  lemma VoteLater(s: Peer, v: Vote)
    ensures LaterPeer(s, OnVote(s, v))
  {
    hide Built, Record;
  }

  lemma DoLater(s: Peer, t: Task)
    ensures LaterPeer(s, Do(s, t))
  {
    hide OnQC, OnBlock, OnVote;
    match t
    case RunQC(qc) => QCLater(s, qc);
    case RunBlock(b) => BlockLater(s, b);
    case RunVote(v) => VoteLater(s, v);
    case _ =>
  }

  lemma PerformLater(s: Peer, act: Act)
    ensures LaterPeer(s, Perform(s, act))
  {
    hide Do, AddTimeout;
    match act
    case Continue => if s.todo != [] { DoLater(s.(todo := s.todo[1..]), s.todo[0]); }
    case Message(t) => DoLater(s, t);
    case Timeout(tmo) => assert AddTimeout(s.pm, tmo).0.curView == s.pm.curView by { TimeoutKeepsView(s.pm, tmo); }
    case Background(k) =>
  }

  lemma TimeoutKeepsView(p: Pm, tmo: Tmo)
    ensures AddTimeout(p, tmo).0.curView == p.curView
  {
  }
}
