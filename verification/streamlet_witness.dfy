/** Concrete runs of four Streamlet replicas. Replica 4 is faulty and makes all proposals. In the first run the others
    vote in rising views and yet each commits two blocks that are not on one chain. In the second run the conditions of
    the agreement theorem hold and all commit. In the third run every commit is made on a child, the votes are out of
    order, and again each replica commits blocks of two chains. In the fourth run a vote carries another view than that
    of its block; the votes are in order and every commit is made on a child, and blocks of two chains are committed. */
module StreamletWitness {
  import opened Types
  import opened Tally
  import opened Quorums
  import opened Forests
  import opened Worlds
  import opened BlockChains
  import opened Pacemakers
  import opened Safety
  import opened Outputs
  import opened HotStuffRuns
  import opened Streamlets
  import opened StreamletInvariant
  import opened StreamletRuns
  import opened Drawings
  import W = Witnesses

  function Lead(v: View): Node { 4 }

  ghost function Four(w: World): Setup {
    Setup(w, 4, {4}, Lead)
  }

  // ---------------------------------------------------------------- what a replica looks like on the way

  /** The blocks held above level `low`, the blocks with the votes of the replica and of the faulty one only (`open`)
      and with any vote at all (`asked`), and for each commit the committed and the certified block. */
  datatype Look = Look(
    view: View, low: nat, held: map<Id, Block>, chain: seq<seq<Block>>, open: set<Id>, asked: set<Id>,
    votes: seq<Ballot>, decided: seq<(Id, Id)>, out: set<Block>)

  ghost predicate Tallied(votes: Votes, me: Node, open: set<Id>, asked: set<Id>) {
    && (forall id :: id in open ==> id in asked && id in votes && votes[id].Keys == {me, 4})
    && (forall id :: id in open ==> votes[id][me].valid && votes[id][4].valid)
    && (forall id :: id in votes ==> id in asked)
  }

  ghost predicate Idle(s: Peer, me: Node) {
    && s.id == me && 1 <= me <= 3 && !s.halted && s.leaderOf == Lead && s.todo == [] && s.chain.n == 4
    && s.bufferedBlocks == map[] && s.bufferedQCs == map[] && s.bufferedNotarized == map[]
  }

  ghost predicate Reported(s: Peer, k: Look) {
    && |s.decisions| == |k.decided|
    && (forall i :: 0 <= i < |k.decided| ==> (s.decisions[i].block.id, s.decisions[i].qc.blockId) == k.decided[i])
    && (forall b :: b in k.out ==> b in s.committed)
  }

  ghost predicate LooksLike(s: Peer, me: Node, k: Look) {
    && Idle(s, me) && s.pm.curView == k.view && s.notarized == k.chain && s.journal == k.votes
    && Drawn(s.chain.forest, k.held, k.low) && Tallied(s.chain.votes, me, k.open, k.asked) && Reported(s, k)
  }

  // ---------------------------------------------------------------- a block, and a vote of another replica

  ghost predicate Casts(k: Look, b: Block) {
    && Joins(k.held, k.low, b) && b.view >= k.view && (b.view > 1 ==> b.prevId in k.held)
    && b.proposer == 4 && b.id !in k.asked && VotingRule(k.chain, b).Yes?
  }

  ghost function AfterCast(k: Look, b: Block): Look {
    k.(held := k.held[b.id := b], open := k.open + {b.id}, asked := k.asked + {b.id},
       votes := k.votes + [Ballot(b.view, b.id, TailView(k.chain))])
  }

  ghost function Twice(s: Peer): Peer {
    Perform(Perform(s, Continue), Continue)
  }

  /** A message and what follows from it. */
  ghost function Round(s: Peer, t: Task): Peer {
    Twice(Perform(Perform(s, Message(t)), Continue))
  }

  function Own(me: Node, b: Block): Vote { Vote(b.view, me, b.id, true) }

  /** The votes of the replica and of the faulty one arrive. */
  ghost function TwoVotes(votes: Votes, me: Node, b: Block): Votes {
    Record(4, Record(4, votes, Cast(Own(me, b))), Cast(Own(4, b)))
  }

  lemma FirstVotes(votes: Votes, me: Node, open: set<Id>, asked: set<Id>, b: Block)
    requires Tallied(votes, me, open, asked) && b.id !in asked && 1 <= me <= 3
    ensures Built(4, votes, Own(me, b)).None?
    ensures Built(4, Record(4, votes, Cast(Own(me, b))), Own(4, b)).None?
    ensures Tallied(TwoVotes(votes, me, b), me, open + {b.id}, asked + {b.id})
  {
    var one := Record(4, votes, Cast(Own(me, b)));
    assert Senders(votes, b.id) == {};
    assert one[b.id].Keys == {me} && Senders(one, b.id) == {me};
    var two := TwoVotes(votes, me, b);
    assert two[b.id].Keys == {me, 4} && Senders(two, b.id) == {me, 4} && |{me, 4}| == 2;
  }

  lemma ThirdVote(votes: Votes, me: Node, open: set<Id>, asked: set<Id>, v: Vote)
    requires Tallied(votes, me, open, asked) && v.blockId in open && 1 <= me <= 3 && v.voter !in {me, 4} && v.valid
    ensures Built(4, votes, v).Some?
    ensures var qc := Built(4, votes, v).value; qc.valid && qc.view == v.view && qc.blockId == v.blockId
    ensures Tallied(Record(4, votes, Cast(v)), me, open - {v.blockId}, asked)
  {
    var after := Record(4, votes, Cast(v));
    assert Senders(votes, v.blockId) == {me, 4} && |{me, 4}| == 2;
    assert after[v.blockId].Keys == {me, 4, v.voter};
    assert Senders(after, v.blockId) == {me, 4, v.voter} && |{me, 4, v.voter}| == 3;
  }

  lemma NextTask(s: Peer, t: Task, rest: seq<Task>)
    requires !s.halted && s.todo == [t] + rest
    ensures Perform(s, Continue) == Do(s.(todo := rest), t)
  {
    hide Do;
    assert s.todo[1..] == rest;
  }

  /** A block is stored and voted for. */
  lemma CastFirst(s: Peer, me: Node, k: Look, b: Block)
    requires LooksLike(s, me, k) && Casts(k, b)
    ensures Perform(s, Message(RunBlock(b)))
         == s.(chain := s.chain.(forest := Add(s.chain.forest, b)),
               journal := s.journal + [Ballot(b.view, b.id, TailView(k.chain))],
               todo := [RunVote(Own(me, b)), TryQC(b.id), TryBlock(b.id)])
  {
    assert !Held(s, b.id) && (b.prevId in k.held ==> Held(s, b.prevId));
    hide Drawn, Tallied, VotingRule, Add, TailView, Held, Reported;
  }

  /** The replica counts its own vote, and nothing was waiting for the block. */
  lemma CastRest(s: Peer, me: Node, b: Block)
    requires Idle(s.(todo := []), me) && s.todo == [RunVote(Own(me, b)), TryQC(b.id), TryBlock(b.id)]
    requires Built(4, s.chain.votes, Own(me, b)).None?
    ensures Twice(Perform(s, Continue))
         == s.(chain := s.chain.(votes := Record(4, s.chain.votes, Cast(Own(me, b)))), todo := [])
  {
    hide Record, Built, Perform;
    NextTask(s, RunVote(Own(me, b)), [TryQC(b.id), TryBlock(b.id)]);
    var s1 := s.(chain := s.chain.(votes := Record(4, s.chain.votes, Cast(Own(me, b)))),
                 todo := [TryQC(b.id), TryBlock(b.id)]);
    assert Perform(s, Continue) == s1;
    NextTask(s1, TryQC(b.id), [TryBlock(b.id)]);
    var s2 := s1.(todo := [TryBlock(b.id)]);
    assert Perform(s1, Continue) == s2;
    NextTask(s2, TryBlock(b.id), []);
  }

  /** A vote that completes nothing is counted. */
  lemma CountOnly(s: Peer, v: Vote)
    requires !s.halted && s.todo == [] && v.valid && Built(s.chain.n, s.chain.votes, v).None?
    ensures Perform(s, Message(RunVote(v)))
         == s.(chain := s.chain.(votes := Record(s.chain.n, s.chain.votes, Cast(v))))
  {
    hide Record, Built;
  }

  /** The block, the replica's vote for it, and that of the faulty one. */
  ghost function CastBy(s: Peer, b: Block): Peer {
    Perform(Round(s, RunBlock(b)), Message(RunVote(Own(4, b))))
  }

  lemma CastRound(s: Peer, me: Node, k: Look, b: Block)
    requires LooksLike(s, me, k) && Casts(k, b)
    ensures LooksLike(CastBy(s, b), me, AfterCast(k, b))
  {
    AddDrawn(s.chain.forest, k.held, k.low, b);
    FirstVotes(s.chain.votes, me, k.open, k.asked, b);
    hide Drawn, Tallied, VotingRule, Add, Record, Built, TailView, Perform;
    CastFirst(s, me, k, b);
    var s1 := Perform(s, Message(RunBlock(b)));
    CastRest(s1, me, b);
    CountOnly(s1.(chain := s1.chain.(votes := Record(4, s1.chain.votes, Cast(Own(me, b)))), todo := []), Own(4, b));
  }

  /** The replica can notarize the block when a vote with the view `mark` completes a certificate. */
  ghost predicate Certifies(k: Look, id: Id, mark: View) {
    id in k.open && id in k.held && mark >= k.view && Notarize(k.chain, k.held[id]).Appended?
  }

  ghost function Appending(k: Look, id: Id, mark: View): Look
    requires id in k.held
  {
    k.(view := mark + 1, chain := k.chain + [[k.held[id]]], open := k.open - {id})
  }

  lemma JoinLooks(s: Peer, me: Node, k: Look, id: Id, qc: QC)
    requires LooksLike(s, me, k.(open := k.open - {id})) && Certifies(k, id, qc.view)
    requires qc.blockId == id && qc.valid
    requires qc.view < 3 || CommitRule(k.chain + [[k.held[id]]]).None?
    ensures LooksLike(OnQC(s, qc), me, Appending(k, id, qc.view))
  {
    assert GetVertex(s.chain.forest, id) == Some(k.held[id]);
    hide Drawn, Tallied, CommitRule, Extends, GetVertex;
  }

  /** The certificate that a vote completes is processed next. */
  lemma VoteBuilds(s: Peer, v: Vote)
    requires !s.halted && s.todo == [] && v.valid && Built(s.chain.n, s.chain.votes, v).Some?
    ensures Perform(Perform(s, Message(RunVote(v))), Continue)
         == OnQC(s.(chain := s.chain.(votes := Record(s.chain.n, s.chain.votes, Cast(v)))),
                 Built(s.chain.n, s.chain.votes, v).value)
  {
    hide Record, Built, OnQC;
    var s1 := s.(chain := s.chain.(votes := Record(s.chain.n, s.chain.votes, Cast(v))));
    var qc := Built(s.chain.n, s.chain.votes, v).value;
    var s2 := s1.(todo := [RunQC(qc)]);
    assert Perform(s, Message(RunVote(v))) == s2;
    NextTask(s2, RunQC(qc), []);
    assert s2.(todo := []) == s1;
  }

  ghost predicate Plainly(k: Look, id: Id, mark: View) {
    Certifies(k, id, mark) && (mark < 3 || CommitRule(k.chain + [[k.held[id]]]).None?)
  }

  /** The vote completes a certificate that only extends the notarized chain. */
  lemma AppendRound(s: Peer, me: Node, k: Look, id: Id, v: Vote)
    requires LooksLike(s, me, k) && Plainly(k, id, v.view) && v.blockId == id && v.valid && v.voter !in {me, 4}
    ensures LooksLike(Round(s, RunVote(v)), me, Appending(k, id, v.view))
  {
    ThirdVote(s.chain.votes, me, k.open, k.asked, v);
    hide Drawn, Tallied, CommitRule, Record, Built, OnQC, Notarize;
    var s1 := s.(chain := s.chain.(votes := Record(4, s.chain.votes, Cast(v))));
    var qc := Built(4, s.chain.votes, v).value;
    assert LooksLike(s1, me, k.(open := k.open - {id}));
    JoinLooks(s1, me, k, id, qc);
    VoteBuilds(s, v);
    assert Twice(OnQC(s1, qc)) == OnQC(s1, qc);
  }

  ghost predicate Commits(k: Look, id: Id, mark: View, mid: Block) {
    && Certifies(k, id, mark) && mark >= 3
    && CommitRule(k.chain + [[k.held[id]]]) == Some(mid)
    && mid.id in k.held && k.held[mid.id] == mid && mid.view > k.low
  }

  /** What is open above a level stays so when blocks up to that level are committed. */
  ghost function OpenAbove(k: Look, level: View): set<Id> {
    set id | id in k.open && id in k.held && k.held[id].view > level
  }

  ghost function Committing(k: Look, id: Id, mark: View, mid: Block): Look
    requires id in k.held
  {
    Appending(k, id, mark).(low := mid.view, held := Above(k.held, mid.view), open := OpenAbove(k, mid.view) - {id},
                             decided := k.decided + [(mid.id, id)], out := k.out + {mid})
  }

  /** What the certificate sets off. */
  lemma FinishStep(s: Peer, me: Node, k: Look, id: Id, qc: QC, mid: Block)
    requires LooksLike(s, me, k.(open := k.open - {id})) && Commits(k, id, qc.view, mid)
    requires qc.blockId == id && qc.valid
    ensures OnQC(s, qc)
         == Finish(s.(notarized := k.chain + [[k.held[id]]], pm := Advance(s.pm, qc.view)), Decided(mid, qc))
  {
    assert GetVertex(s.chain.forest, id) == Some(k.held[id]);
    hide Drawn, Tallied, CommitRule, Extends, GetVertex, Finish, Reported;
  }

  lemma CommitTally(s: Peer, me: Node, k: Look, mid: Block)
    requires LooksLike(s, me, k) && mid.id in k.held && k.held[mid.id] == mid && mid.view > k.low
    ensures var t := CommitBlock(s.chain, mid.id);
            && t.Committed? && mid in t.committed && t.chain.n == s.chain.n
            && Drawn(t.chain.forest, Above(k.held, mid.view), mid.view)
            && Tallied(t.chain.votes, me, OpenAbove(k, mid.view), k.asked)
  {
    CommitDrawn(s.chain, k.held, k.low, mid);
    CommitBelow(s.chain, k.held, k.low, mid);
    hide Drawn, CommitBlock, IdsOf, Above, Reported;
  }

  lemma ReportedMore(s: Peer, k: Look, mid: Block, qc: QC, cs: seq<Block>)
    requires Reported(s, k) && mid in cs
    ensures Reported(s.(decisions := s.decisions + [Decided(mid, qc)], committed := s.committed + cs),
                     k.(decided := k.decided + [(mid.id, qc.blockId)], out := k.out + {mid}))
  {
  }

  lemma StillOpen(k: Look, level: View, id: Id)
    ensures OpenAbove(k.(open := k.open - {id}), level) == OpenAbove(k, level) - {id}
  {
  }

  lemma FinishIs(s: Peer, mid: Block, qc: QC)
    requires s.todo == [] && CommitBlock(s.chain, mid.id).Committed?
    ensures var t := CommitBlock(s.chain, mid.id);
            var u := s.(decisions := s.decisions + [Decided(mid, qc)], chain := t.chain,
                        committed := s.committed + t.committed, forked := s.forked + t.forked,
                        todo := [TakeBlock(qc.blockId), TakeNotarized(qc.blockId)]);
            Finish(s, Decided(mid, qc)) == u
  {
    hide CommitBlock;
  }

  lemma FinishLooks(s: Peer, me: Node, k: Look, id: Id, qc: QC, mid: Block)
    requires LooksLike(s, me, k.(open := k.open - {id})) && Commits(k, id, qc.view, mid)
    requires qc.blockId == id && qc.valid
    ensures OnQC(s, qc).todo == [TakeBlock(id), TakeNotarized(id)]
    ensures LooksLike(OnQC(s, qc).(todo := []), me, Committing(k, id, qc.view, mid))
  {
    hide Drawn, Tallied, CommitRule, Extends, OnQC, CommitBlock, Above, Notarize, OpenAbove;
    FinishStep(s, me, k, id, qc, mid);
    CommitTally(s, me, k.(open := k.open - {id}), mid);
    StillOpen(k, mid.view, id);
    var t := CommitBlock(s.chain, mid.id);
    ReportedMore(s, k, mid, qc, t.committed);
    hide Reported, Finish;
    var s1 := s.(notarized := k.chain + [[k.held[id]]], pm := Advance(s.pm, qc.view));
    assert Finish(s1, Decided(mid, qc))
        == s1.(decisions := s.decisions + [Decided(mid, qc)], chain := t.chain, committed := s.committed + t.committed,
               forked := s.forked + t.forked, todo := [TakeBlock(id), TakeNotarized(id)]) by { FinishIs(s1, mid, qc); }
  }

  /** The vote completes a certificate on which a block is committed. */
  lemma CommitRound(s: Peer, me: Node, k: Look, id: Id, v: Vote, mid: Block)
    requires LooksLike(s, me, k) && Commits(k, id, v.view, mid) && v.blockId == id && v.valid && v.voter !in {me, 4}
    ensures LooksLike(Round(s, RunVote(v)), me, Committing(k, id, v.view, mid))
  {
    ThirdVote(s.chain.votes, me, k.open, k.asked, v);
    hide Drawn, Tallied, CommitRule, Record, Built, OnQC, Notarize, Above, Perform;
    var s1 := s.(chain := s.chain.(votes := Record(4, s.chain.votes, Cast(v))));
    var qc := Built(4, s.chain.votes, v).value;
    assert LooksLike(s1, me, k.(open := k.open - {id}));
    FinishLooks(s1, me, k, id, qc, mid);
    var s2 := OnQC(s1, qc);
    VoteBuilds(s, v);
    TakeNothing(s2, me, id);
  }

  /** After a commit nothing was waiting. */
  lemma TakeNothing(s: Peer, me: Node, id: Id)
    requires Idle(s.(todo := []), me) && s.todo == [TakeBlock(id), TakeNotarized(id)]
    ensures Twice(s) == s.(todo := [])
  {
    hide Perform;
    NextTask(s, TakeBlock(id), [TakeNotarized(id)]);
    var s1 := s.(todo := [TakeNotarized(id)]);
    assert Perform(s, Continue) == s1;
    NextTask(s1, TakeNotarized(id), []);
  }

  // ---------------------------------------------------------------- steps of the network

  lemma RunMore(c: Setup, evs: seq<PeerEvent>, ev: PeerEvent)
    ensures Run3(c, evs + [ev]) == Step3(c, Run3(c, evs), ev)
  {
    assert (evs + [ev])[..|evs|] == evs;
  }

  /** No vote is forged and, if `labels` says so, every vote carries the view of its block. */
  ghost predicate Clean(c: Setup, evs: seq<PeerEvent>, labels: bool) {
    AllSigned(c, evs) && (labels ==> AllLabelled(c, evs))
  }

  lemma CleanMore(c: Setup, evs: seq<PeerEvent>, ev: PeerEvent, labels: bool)
    requires Clean(c, evs, labels) && SignedAct(Elect3(c, Run3(c, evs)), ev.act)
    requires labels ==> LabelledAct(c.w, ev.act)
    ensures Clean(c, evs + [ev], labels)
  {
    hide Run3, Elect3, SignedAct, LabelledAct;
    var more := evs + [ev];
    forall i | 0 <= i < |more| ensures more[..i] == if i < |evs| then evs[..i] else evs {
    }
  }

  lemma MessageAt(c: Setup, evs: seq<PeerEvent>, labels: bool, r: Node, t: Task) returns (more: seq<PeerEvent>)
    requires r in Run3(c, evs) && Clean(c, evs, labels) && KnownAct(c.w, Message(t))
    requires SignedAct(Elect3(c, Run3(c, evs)), Message(t)) && (labels ==> LabelledAct(c.w, Message(t)))
    ensures Run3(c, more) == Run3(c, evs)[r := Perform(Run3(c, evs)[r], Message(t))] && Clean(c, more, labels)
  {
    hide Run3, Perform, Elect3, KnownAct, SignedAct, LabelledAct, Clean;
    more := evs + [PeerEvent(r, Message(t))];
    RunMore(c, evs, PeerEvent(r, Message(t)));
    CleanMore(c, evs, PeerEvent(r, Message(t)), labels);
  }

  lemma ContinueAt(c: Setup, evs: seq<PeerEvent>, labels: bool, r: Node) returns (more: seq<PeerEvent>)
    requires r in Run3(c, evs) && Clean(c, evs, labels)
    ensures Run3(c, more) == Run3(c, evs)[r := Perform(Run3(c, evs)[r], Continue)] && Clean(c, more, labels)
  {
    hide Run3, Perform, Elect3, Clean;
    more := evs + [PeerEvent(r, Continue)];
    RunMore(c, evs, PeerEvent(r, Continue));
    CleanMore(c, evs, PeerEvent(r, Continue), labels);
  }

  /** A message to one replica, and what follows from it there. */
  lemma RoundAt(c: Setup, evs: seq<PeerEvent>, labels: bool, r: Node, t: Task) returns (more: seq<PeerEvent>)
    requires r in Run3(c, evs) && Clean(c, evs, labels) && KnownAct(c.w, Message(t))
    requires SignedAct(Elect3(c, Run3(c, evs)), Message(t)) && (labels ==> LabelledAct(c.w, Message(t)))
    ensures Run3(c, more) == Run3(c, evs)[r := Round(Run3(c, evs)[r], t)] && Clean(c, more, labels)
  {
    hide Run3, Perform, Elect3, KnownAct, SignedAct, LabelledAct, Clean;
    more := MessageAt(c, evs, labels, r, t);
    more := ContinueAt(c, more, labels, r);
    more := ContinueAt(c, more, labels, r);
    more := ContinueAt(c, more, labels, r);
  }

  /** The three replicas look like this. */
  ghost predicate Are(g: Peers, x: Look, y: Look, z: Look) {
    g.Keys == {1, 2, 3} && LooksLike(g[1], 1, x) && LooksLike(g[2], 2, y) && LooksLike(g[3], 3, z)
  }

  ghost function Put(r: Node, x: Look, y: Look, z: Look, n: Look): (Look, Look, Look) {
    if r == 1 then (n, y, z) else if r == 2 then (x, n, z) else (x, y, n)
  }

  ghost function Of(r: Node, x: Look, y: Look, z: Look): Look {
    if r == 1 then x else if r == 2 then y else z
  }

  /** The faulty replica may vote for anything. */
  lemma FaultyVote(c: Setup, g: Peers, b: Block)
    requires c == Four(c.w) && Known(c.w, b)
    ensures SignedAct(Elect3(c, g), Message(RunVote(Own(4, b)))) && LabelledAct(c.w, Message(RunVote(Own(4, b))))
  {
    assert Signed(Elect3(c, g), 4, b.id);
  }

  lemma CastAt(c: Setup, evs: seq<PeerEvent>, labels: bool, r: Node, b: Block) returns (more: seq<PeerEvent>)
    requires c == Four(c.w) && r in Run3(c, evs) && Known(c.w, b) && Clean(c, evs, labels)
    ensures Clean(c, more, labels) && Run3(c, more) == Run3(c, evs)[r := CastBy(Run3(c, evs)[r], b)]
  {
    hide Run3, Round, Perform, Elect3, Clean, Known, Four, VoteSigned, VoteRanked;
    more := RoundAt(c, evs, labels, r, RunBlock(b));
    FaultyVote(c, Run3(c, more), b);
    more := MessageAt(c, more, labels, r, RunVote(Own(4, b)));
  }

  /** A replica gets the block and votes for it. */
  lemma CastOne(c: Setup, evs: seq<PeerEvent>, labels: bool, r: Node, x: Look, y: Look, z: Look, b: Block)
    returns (more: seq<PeerEvent>)
    requires c == Four(c.w) && 1 <= r <= 3 && Are(Run3(c, evs), x, y, z) && Clean(c, evs, labels)
    requires Casts(Of(r, x, y, z), b) && Known(c.w, b)
    ensures Clean(c, more, labels)
    ensures var (x', y', z') := Put(r, x, y, z, AfterCast(Of(r, x, y, z), b)); Are(Run3(c, more), x', y', z')
  {
    hide LooksLike, Run3, Casts, Clean, AfterCast, Known, CastBy, Four;
    CastRound(Run3(c, evs)[r], r, Of(r, x, y, z), b);
    more := CastAt(c, evs, labels, r, b);
  }

  ghost predicate VotedOn(k: Look, i: nat, id: Id) {
    i < |k.votes| && k.votes[i].id == id
  }

  /** Someone voted for the block. */
  lemma VoteGenuine(c: Setup, g: Peers, v: Vote, votes: seq<Ballot>, i: nat)
    requires v.voter in g && g[v.voter].journal == votes && i < |votes| && votes[i].id == v.blockId
    ensures SignedAct(Elect3(c, g), Message(RunVote(v)))
  {
    var e := Elect3(c, g);
    assert e.logs[v.voter][i].id == v.blockId;
    assert Signed(e, v.voter, v.blockId);
  }

  lemma LooksVotes(s: Peer, me: Node, k: Look)
    requires LooksLike(s, me, k)
    ensures s.journal == k.votes
  {
  }

  ghost predicate Fits(w: World, labels: bool, id: Id, mark: View) {
    labels ==> Labelled3(w, id, mark)
  }

  lemma FitsLabelled(w: World, labels: bool, v: Vote)
    requires Fits(w, labels, v.blockId, v.view)
    ensures labels ==> LabelledAct(w, Message(RunVote(v)))
  {
  }

  /** A replica gets the vote of another one. */
  lemma VoteOne(c: Setup, evs: seq<PeerEvent>, labels: bool, r: Node, q: Node, x: Look, y: Look, z: Look,
                g: Peers, v: Vote, i: nat, l: Look)
    returns (more: seq<PeerEvent>)
    requires 1 <= r <= 3 && 1 <= q <= 3 && Are(g, x, y, z) && LooksLike(Round(g[r], RunVote(v)), r, l)
    requires v.voter == q && v.valid && VotedOn(Of(q, x, y, z), i, v.blockId) && Fits(c.w, labels, v.blockId, v.view)
    requires Clean(c, evs, labels) && g == Run3(c, evs)
    ensures Clean(c, more, labels)
    ensures var (x', y', z') := Put(r, x, y, z, l); Are(Run3(c, more), x', y', z')
  {
    hide LooksLike, Run3, Clean, Round, Elect3, SignedAct, LabelledAct, Fits;
    FitsLabelled(c.w, labels, v);
    LooksVotes(g[q], q, Of(q, x, y, z));
    VoteGenuine(c, g, v, Of(q, x, y, z).votes, i);
    more := RoundAt(c, evs, labels, r, RunVote(v));
  }

  /** The block is notarized. */
  lemma AppendOne(c: Setup, evs: seq<PeerEvent>, labels: bool, r: Node, q: Node, x: Look, y: Look, z: Look,
                  id: Id, i: nat, mark: View)
    returns (more: seq<PeerEvent>)
    requires 1 <= r <= 3 && 1 <= q <= 3 && q != r && Are(Run3(c, evs), x, y, z) && Clean(c, evs, labels)
    requires VotedOn(Of(q, x, y, z), i, id) && Plainly(Of(r, x, y, z), id, mark) && Fits(c.w, labels, id, mark)
    ensures Clean(c, more, labels) && id in Of(r, x, y, z).held
    ensures var (x', y', z') := Put(r, x, y, z, Appending(Of(r, x, y, z), id, mark)); Are(Run3(c, more), x', y', z')
  {
    hide LooksLike, Run3, Clean, Notarize, CommitRule, Round, VotedOn, Fits;
    var k, v := Of(r, x, y, z), Vote(mark, q, id, true);
    AppendRound(Run3(c, evs)[r], r, k, id, v);
    more := VoteOne(c, evs, labels, r, q, x, y, z, Run3(c, evs), v, i, Appending(k, id, mark));
  }

  /** The block is notarized, and a block below it committed. */
  lemma CommitOne(c: Setup, evs: seq<PeerEvent>, labels: bool, r: Node, q: Node, x: Look, y: Look, z: Look,
                  id: Id, i: nat, mark: View, mid: Block)
    returns (more: seq<PeerEvent>)
    requires 1 <= r <= 3 && 1 <= q <= 3 && q != r && Are(Run3(c, evs), x, y, z) && Clean(c, evs, labels)
    requires VotedOn(Of(q, x, y, z), i, id) && Commits(Of(r, x, y, z), id, mark, mid) && Fits(c.w, labels, id, mark)
    ensures Clean(c, more, labels) && id in Of(r, x, y, z).held
    ensures var (x', y', z') := Put(r, x, y, z, Committing(Of(r, x, y, z), id, mark, mid));
            Are(Run3(c, more), x', y', z')
  {
    hide LooksLike, Run3, Clean, Notarize, CommitRule, Round, Above, VotedOn, Fits, OpenAbove;
    var k, v := Of(r, x, y, z), Vote(mark, q, id, true);
    CommitRound(Run3(c, evs)[r], r, k, id, v, mid);
    more := VoteOne(c, evs, labels, r, q, x, y, z, Run3(c, evs), v, i, Committing(k, id, mark, mid));
  }

  // The step is one that replicas 2 and 3 can take, or all three.

  /** The block is voted for. */
  ghost predicate ToCast(w: World, k: Look, b: Block, l: Look) {
    Casts(k, b) && Known(w, b) && AfterCast(k, b) == l
  }

  /** The vote number `i`, sent with the view `mark`, notarizes the block. */
  ghost predicate ToAppend(w: World, labels: bool, k: Look, id: Id, i: nat, mark: View, l: Look) {
    Plainly(k, id, mark) && VotedOn(k, i, id) && Fits(w, labels, id, mark) && Appending(k, id, mark) == l
  }

  ghost predicate ToCommit(w: World, labels: bool, k: Look, id: Id, i: nat, mark: View, mid: Block, l: Look) {
    && Commits(k, id, mark, mid) && VotedOn(k, i, id) && Fits(w, labels, id, mark)
    && Committing(k, id, mark, mid) == l
  }

  lemma CastPair(c: Setup, evs: seq<PeerEvent>, labels: bool, x: Look, k: Look, b: Block, l: Look)
    returns (more: seq<PeerEvent>)
    requires c == Four(c.w) && Are(Run3(c, evs), x, k, k) && Clean(c, evs, labels) && ToCast(c.w, k, b, l)
    ensures Are(Run3(c, more), x, l, l) && Clean(c, more, labels)
  {
    hide Run3, Are, Clean, Casts, Known, AfterCast, Four;
    more := CastOne(c, evs, labels, 2, x, k, k, b);
    more := CastOne(c, more, labels, 3, x, l, k, b);
  }

  lemma CastAll(c: Setup, evs: seq<PeerEvent>, labels: bool, k: Look, b: Block, l: Look)
    returns (more: seq<PeerEvent>)
    requires c == Four(c.w) && Are(Run3(c, evs), k, k, k) && Clean(c, evs, labels) && ToCast(c.w, k, b, l)
    ensures Are(Run3(c, more), l, l, l) && Clean(c, more, labels)
  {
    hide Run3, Are, Clean, Casts, Known, AfterCast, Four;
    more := CastOne(c, evs, labels, 1, k, k, k, b);
    more := CastPair(c, more, labels, l, k, b, l);
  }

  lemma AppendPair(c: Setup, evs: seq<PeerEvent>, labels: bool, x: Look, k: Look, id: Id, i: nat, mark: View, l: Look)
    returns (more: seq<PeerEvent>)
    requires Are(Run3(c, evs), x, k, k) && Clean(c, evs, labels) && ToAppend(c.w, labels, k, id, i, mark, l)
    ensures Are(Run3(c, more), x, l, l) && Clean(c, more, labels)
  {
    hide Run3, Are, Clean, Plainly, Fits;
    more := AppendOne(c, evs, labels, 2, 3, x, k, k, id, i, mark);
    more := AppendOne(c, more, labels, 3, 2, x, l, k, id, i, mark);
  }

  lemma AppendAll(c: Setup, evs: seq<PeerEvent>, labels: bool, k: Look, id: Id, i: nat, mark: View, l: Look)
    returns (more: seq<PeerEvent>)
    requires Are(Run3(c, evs), k, k, k) && Clean(c, evs, labels) && ToAppend(c.w, labels, k, id, i, mark, l)
    ensures Are(Run3(c, more), l, l, l) && Clean(c, more, labels)
  {
    hide Run3, Are, Clean, Plainly, Fits;
    more := AppendOne(c, evs, labels, 1, 2, k, k, k, id, i, mark);
    more := AppendPair(c, more, labels, l, k, id, i, mark, l);
  }

  lemma CommitPair(c: Setup, evs: seq<PeerEvent>, labels: bool, x: Look, k: Look,
                   id: Id, i: nat, mark: View, mid: Block, l: Look)
    returns (more: seq<PeerEvent>)
    requires Are(Run3(c, evs), x, k, k) && Clean(c, evs, labels) && ToCommit(c.w, labels, k, id, i, mark, mid, l)
    ensures Are(Run3(c, more), x, l, l) && Clean(c, more, labels)
  {
    hide Run3, Are, Clean, Commits, Fits, OpenAbove, Above;
    more := CommitOne(c, evs, labels, 2, 3, x, k, k, id, i, mark, mid);
    more := CommitOne(c, more, labels, 3, 2, x, l, k, id, i, mark, mid);
  }

  lemma CommitAll(c: Setup, evs: seq<PeerEvent>, labels: bool, k: Look,
                  id: Id, i: nat, mark: View, mid: Block, l: Look)
    returns (more: seq<PeerEvent>)
    requires Are(Run3(c, evs), k, k, k) && Clean(c, evs, labels) && ToCommit(c.w, labels, k, id, i, mark, mid, l)
    ensures Are(Run3(c, more), l, l, l) && Clean(c, more, labels)
  {
    hide Run3, Are, Clean, Commits, Fits, OpenAbove, Above;
    more := CommitOne(c, evs, labels, 1, 2, k, k, k, id, i, mark, mid);
    more := CommitPair(c, more, labels, l, k, id, i, mark, mid, l);
  }

  const START := Look(1, 0, map[], [], {}, {}, [], [], {})

  lemma BeginLooks(r: Node)
    requires 1 <= r <= 3
    ensures LooksLike(Begin(r, 4, Lead), r, START)
  {
    EmptyDrawn();
    hide Drawn;
  }

  lemma StartLooks(w: World, labels: bool)
    ensures Are(Run3(Four(w), []), START, START, START) && Clean(Four(w), [], labels)
  {
    assert Nodes(4) - {4} == {1, 2, 3};
    BeginLooks(1);
    BeginLooks(2);
    BeginLooks(3);
    hide LooksLike, Begin;
    var g := Run3(Four(w), []);
    assert g[1] == Begin(1, 4, Lead) && g[2] == Begin(2, 4, Lead) && g[3] == Begin(3, 4, Lead);
  }

  // ---------------------------------------------------------------- what a run amounts to

  lemma AreVotes(g: Peers, x: Look, y: Look, z: Look)
    requires Are(g, x, y, z)
    ensures InOrder(x.votes) && InOrder(y.votes) && InOrder(z.votes) ==> PeersInOrder(g)
    ensures g[1].journal == x.votes && g[2].journal == y.votes && g[3].journal == z.votes
  {
    hide Drawn, Tallied, Idle, InOrder, Reported;
  }

  lemma AreCommits(g: Peers, x: Look, y: Look, z: Look)
    requires Are(g, x, y, z)
    ensures forall r, b :: r in g && b in Of(r, x, y, z).out ==> b in g[r].committed
  {
    hide Drawn, Tallied, Idle;
  }

  ghost predicate AllExtended(w: World, decided: seq<(Id, Id)>) {
    forall k :: 0 <= k < |decided| ==> decided[k].1 in w && w[decided[k].1].prevId == decided[k].0
  }

  lemma AreExtended(c: Setup, g: Peers, x: Look, y: Look, z: Look)
    requires Are(g, x, y, z)
    ensures TipsExtended(c, g) <==>
            AllExtended(c.w, x.decided) && AllExtended(c.w, y.decided) && AllExtended(c.w, z.decided)
  {
    hide Drawn, Tallied, Idle;
    ExtendedIff(c.w, g[1], x);
    ExtendedIff(c.w, g[2], y);
    ExtendedIff(c.w, g[3], z);
  }

  lemma ExtendedIff(w: World, s: Peer, k: Look)
    requires Reported(s, k)
    ensures (forall i :: 0 <= i < |s.decisions| ==> TipExtended(w, s.decisions[i])) <==> AllExtended(w, k.decided)
  {
    assert forall i :: 0 <= i < |k.decided| ==>
             s.decisions[i].block.id == k.decided[i].0 && s.decisions[i].qc.blockId == k.decided[i].1;
  }

  /** Two blocks that are not on one chain were committed, one at each of two replicas (or both at the same one). */
  ghost predicate SplitAt(c: Setup, g: Peers, r: Node, q: Node)
    requires Ordered(c.w)
  {
    r in g && q in g && exists i, j ::
      0 <= i < |g[r].committed| && 0 <= j < |g[q].committed|
      && !OnOneChain(c.w, g[r].committed[i].id, g[q].committed[j].id)
  }

  lemma Splits(c: Setup, g: Peers, r: Node, a: Block, q: Node, b: Block)
    requires Ordered(c.w) && r in g && q in g && a in g[r].committed && b in g[q].committed
    requires !OnOneChain(c.w, a.id, b.id)
    ensures SplitAt(c, g, r, q)
  {
    hide OnOneChain;
    var i :| 0 <= i < |g[r].committed| && g[r].committed[i] == a;
    var j :| 0 <= j < |g[q].committed| && g[q].committed[j] == b;
  }

  // ---------------------------------------------------------------- first run: a commit that is not extended

  function Made(id: Id, view: View, prevId: Id): Block {
    Block(id, view, prevId, QC(0, 0, prevId, {}, true), true, 4)
  }

  const P1 := Made(1, 1, GENESIS)
  const P2 := Made(2, 2, 1)
  const P3 := Made(3, 3, 1)
  const P4 := Made(4, 4, 3)

  const FORK: World := map[1 := P1, 2 := P2, 3 := P3, 4 := P4]

  const VOTES: seq<Ballot> := [Ballot(1, 1, 0), Ballot(2, 2, 1), Ballot(3, 3, 1), Ballot(4, 4, 3)]

  lemma ForkTable()
    ensures FORK.Keys == {1, 2, 3, 4} && GENESIS !in FORK
    ensures FORK[1] == P1 && FORK[2] == P2 && FORK[3] == P3 && FORK[4] == P4
  {
  }

  lemma ForkIsProper()
    ensures Proper3(Four(FORK)) && !OnOneChain(FORK, 2, 3)
  {
    W.FourIsProper();
    ForkTable();
    hide FORK;
    assert forall id :: id in FORK ==> id in {1, 2, 3, 4};
    W.TwoBranches(FORK, 1, 2, 3);
  }

  // What everyone looks like after each step: the votes for a block, or its certificate.
  const E1 := Look(1, 0, map[1 := P1], [], {1}, {1}, VOTES[..1], [], {})
  const E2 := Look(2, 0, map[1 := P1], [[P1]], {}, {1}, VOTES[..1], [], {})
  const E3 := Look(2, 0, map[1 := P1, 2 := P2], [[P1]], {2}, {1, 2}, VOTES[..2], [], {})
  const E4 := Look(2, 0, map[1 := P1, 2 := P2, 3 := P3], [[P1]], {2, 3}, {1, 2, 3}, VOTES[..3], [], {})
  const E5 := Look(3, 0, map[1 := P1, 2 := P2, 3 := P3], [[P1], [P2]], {3}, {1, 2, 3}, VOTES[..3], [], {})
  const E6 := Look(4, 2, map[2 := P2, 3 := P3], [[P1], [P2], [P3]], {}, {1, 2, 3}, VOTES[..3], [(2, 3)], {P2})
  const E7 := Look(4, 2, map[2 := P2, 3 := P3, 4 := P4], [[P1], [P2], [P3]], {4}, {1, 2, 3, 4}, VOTES, [(2, 3)], {P2})
  const E8 := Look(5, 3, map[3 := P3, 4 := P4], [[P1], [P2], [P3], [P4]], {}, {1, 2, 3, 4}, VOTES,
                   [(2, 3), (3, 4)], {P2, P3})

  lemma CastsFirst()
    ensures ToCast(FORK, START, P1, E1) && ToCast(FORK, E2, P2, E3)
  {
    ForkTable();
    hide FORK;
  }

  lemma CastsSecond()
    ensures ToCast(FORK, E3, P3, E4) && ToCast(FORK, E6, P4, E7)
  {
    ForkTable();
    hide FORK;
    assert E3.chain[|E3.chain| - 1][0].id == 1 && E6.chain[|E6.chain| - 1][0].id == 3;
  }

  lemma AppendsP1(w: World, labels: bool)
    requires labels ==> 1 in w && w[1].view == 1
    ensures ToAppend(w, labels, E1, 1, 0, 1, E2)
  {
  }

  lemma AppendsP2()
    ensures ToAppend(FORK, true, E4, 2, 1, 2, E5)
  {
    ForkTable();
    hide FORK;
    assert Contains(E4.chain[0], 1) by { assert E4.chain[0][0].id == 1; }
  }

  lemma CommitsP2()
    ensures ToCommit(FORK, true, E5, 3, 2, 3, P2, E6)
  {
    ForkTable();
    hide FORK;
    assert Contains(E5.chain[0], 1) by { assert E5.chain[0][0].id == 1; }
    var more: seq<seq<Block>> := E5.chain + [[P3]];
    assert more[2] == [P3] && more[1] == [P2] && more[0] == [P1];
  }

  lemma CommitsP3()
    ensures ToCommit(FORK, true, E7, 4, 3, 4, P3, E8)
  {
    ForkTable();
    hide FORK;
    assert Contains(E7.chain[2], 3) by { assert E7.chain[2][0].id == 3; }
    var more: seq<seq<Block>> := E7.chain + [[P4]];
    assert more[3] == [P4] && more[2] == [P3] && more[1] == [P2];
  }

  lemma ForkRun(c: Setup) returns (evs: seq<PeerEvent>)
    requires c == Four(FORK)
    ensures Are(Run3(c, evs), E8, E8, E8) && Clean(c, evs, true)
  {
    StartLooks(FORK, true);
    ForkTable();
    CastsFirst();
    AppendsP1(FORK, true);
    CastsSecond();
    AppendsP2();
    CommitsP2();
    CommitsP3();
    hide FORK, Run3, Are, ToCast, ToAppend, ToCommit, Clean;
    evs := CastAll(c, [], true, START, P1, E1);
    evs := AppendAll(c, evs, true, E1, 1, 0, 1, E2);
    evs := CastAll(c, evs, true, E2, P2, E3);
    evs := CastAll(c, evs, true, E3, P3, E4);
    evs := AppendAll(c, evs, true, E4, 2, 1, 2, E5);
    evs := CommitAll(c, evs, true, E5, 3, 2, 3, P2, E6);
    evs := CastAll(c, evs, true, E6, P4, E7);
    evs := CommitAll(c, evs, true, E7, 4, 3, 4, P3, E8);
  }

  /** The extension condition cannot be dropped: with one faulty replica of four, which makes the proposals, no vote
      forged or mislabelled, and all other conditions met, each of the others commits two blocks that are not on one
      chain. They notarize the blocks of views 2 and 3, which have the same parent; the certificate of the second
      commits the first, and is itself built on. */
  lemma ExtensionIsNeeded() returns (c: Setup, evs: seq<PeerEvent>)
    ensures Proper3(c) && 3 * |c.faulty| < c.n && (forall v :: c.leaderOf(v) in c.faulty)
    ensures AllSigned(c, evs) && AllLabelled(c, evs) && !TipsExtended(c, Run3(c, evs))
    ensures PeersInOrder(Run3(c, evs)) && TailsRise(Run3(c, evs))
    ensures PeersJustified(c, Run3(c, evs)) && TipsCertified(c, Run3(c, evs))
    ensures SplitAt(c, Run3(c, evs), 1, 1) && SplitAt(c, Run3(c, evs), 2, 2)
  {
    c := Four(FORK);
    ForkIsProper();
    hide Run3, Are, OnOneChain, Ordered, AllSigned, AllLabelled, TailsRise, PeersJustified, TipsCertified;
    evs := ForkRun(c);
    BackedRun3(c, evs);
    Conflict(c, Run3(c, evs));
  }

  lemma Conflict(c: Setup, g: Peers)
    requires c == Four(FORK) && Ordered(FORK) && !OnOneChain(FORK, 2, 3) && Are(g, E8, E8, E8)
    ensures PeersInOrder(g) && !TipsExtended(c, g) && SplitAt(c, g, 1, 1) && SplitAt(c, g, 2, 2)
  {
    ForkTable();
    hide FORK, OnOneChain, Ordered, LooksLike;
    AreVotes(g, E8, E8, E8);
    AreCommits(g, E8, E8, E8);
    AreExtended(c, g, E8, E8, E8);
    assert Of(1, E8, E8, E8) == E8 && Of(2, E8, E8, E8) == E8;
    Splits(c, g, 1, P2, 1, P3);
    Splits(c, g, 2, P2, 2, P3);
    assert E8.decided[0] == (2, 3);
  }

  // ---------------------------------------------------------------- second run: one chain

  const Q3 := Made(3, 3, 2)

  const STRAIGHT: World := map[1 := P1, 2 := P2, 3 := Q3]

  const BALLOTS: seq<Ballot> := [Ballot(1, 1, 0), Ballot(2, 2, 1), Ballot(3, 3, 2)]

  lemma StraightTable()
    ensures STRAIGHT.Keys == {1, 2, 3} && GENESIS !in STRAIGHT
    ensures STRAIGHT[1] == P1 && STRAIGHT[2] == P2 && STRAIGHT[3] == Q3
  {
  }

  lemma StraightIsProper()
    ensures Proper3(Four(STRAIGHT))
  {
    W.FourIsProper();
    StraightTable();
    hide STRAIGHT;
    assert forall id :: id in STRAIGHT ==> id in {1, 2, 3};
  }

  const F4 := Look(3, 0, map[1 := P1, 2 := P2], [[P1], [P2]], {}, {1, 2}, BALLOTS[..2], [], {})
  const F5 := Look(3, 0, map[1 := P1, 2 := P2, 3 := Q3], [[P1], [P2]], {3}, {1, 2, 3}, BALLOTS, [], {})
  const F6 := Look(4, 2, map[2 := P2, 3 := Q3], [[P1], [P2], [Q3]], {}, {1, 2, 3}, BALLOTS, [(2, 3)], {P2})

  lemma CastsStraight()
    ensures ToCast(STRAIGHT, START, P1, E1) && ToCast(STRAIGHT, E2, P2, E3) && ToCast(STRAIGHT, F4, Q3, F5)
  {
    StraightTable();
    hide STRAIGHT;
    assert F4.chain[|F4.chain| - 1][0].id == 2;
  }

  lemma AppendsStraight()
    ensures ToAppend(STRAIGHT, true, E3, 2, 1, 2, F4)
  {
    StraightTable();
    hide STRAIGHT;
    assert Contains(E3.chain[0], 1) by { assert E3.chain[0][0].id == 1; }
    assert VOTES[..2] == BALLOTS[..2];
  }

  lemma CommitsStraight()
    ensures ToCommit(STRAIGHT, true, F5, 3, 2, 3, P2, F6)
  {
    StraightTable();
    hide STRAIGHT;
    assert Contains(F5.chain[1], 2) by { assert F5.chain[1][0].id == 2; }
    var more: seq<seq<Block>> := F5.chain + [[Q3]];
    assert more[2] == [Q3] && more[1] == [P2] && more[0] == [P1];
  }

  lemma Concord(c: Setup, g: Peers)
    requires c == Four(STRAIGHT) && Are(g, F6, F6, F6)
    ensures PeersInOrder(g) && TipsExtended(c, g) && 1 in g && P2 in g[1].committed
  {
    StraightTable();
    hide STRAIGHT, LooksLike;
    AreVotes(g, F6, F6, F6);
    AreCommits(g, F6, F6, F6);
    AreExtended(c, g, F6, F6, F6);
    assert Of(1, F6, F6, F6) == F6;
  }

  lemma StraightRun(c: Setup) returns (evs: seq<PeerEvent>)
    requires c == Four(STRAIGHT)
    ensures Are(Run3(c, evs), F6, F6, F6) && Clean(c, evs, true)
  {
    StartLooks(STRAIGHT, true);
    StraightTable();
    CastsStraight();
    AppendsP1(STRAIGHT, true);
    AppendsStraight();
    CommitsStraight();
    hide STRAIGHT, Run3, Are, ToCast, ToAppend, ToCommit, Clean;
    evs := CastAll(c, [], true, START, P1, E1);
    evs := AppendAll(c, evs, true, E1, 1, 0, 1, E2);
    evs := CastAll(c, evs, true, E2, P2, E3);
    evs := AppendAll(c, evs, true, E3, 2, 1, 2, F4);
    evs := CastAll(c, evs, true, F4, Q3, F5);
    evs := CommitAll(c, evs, true, F5, 3, 2, 3, P2, F6);
  }

  /** The conditions of the agreement theorem can hold in a run that commits. */
  lemma StraightRunCommits() returns (c: Setup, evs: seq<PeerEvent>)
    ensures Proper3(c) && Disciplined3(c, Run3(c, evs)) && AllSigned(c, evs) && AllLabelled(c, evs)
    ensures 1 in Run3(c, evs) && P2 in Run3(c, evs)[1].committed
  {
    c := Four(STRAIGHT);
    StraightIsProper();
    hide Run3, Are, Ordered, AllSigned, AllLabelled, TailsRise, PeersJustified, TipsCertified, PeersInOrder,
         TipsExtended;
    evs := StraightRun(c);
    BackedRun3(c, evs);
    Concord(c, Run3(c, evs));
  }

  // ---------------------------------------------------------------- third run: votes out of order

  const X10 := Made(10, 10, 1)
  const X11 := Made(11, 11, 10)
  const X12 := Made(12, 12, 11)

  const AHEAD: World := map[1 := P1, 2 := P2, 3 := Q3, 10 := X10, 11 := X11, 12 := X12]

  const EARLY: seq<Ballot> :=
    [Ballot(1, 1, 0), Ballot(10, 10, 1), Ballot(2, 2, 1), Ballot(3, 3, 2), Ballot(11, 11, 10), Ballot(12, 12, 11)]

  lemma AheadTable()
    ensures AHEAD.Keys == {1, 2, 3, 10, 11, 12} && GENESIS !in AHEAD
    ensures AHEAD[1] == P1 && AHEAD[2] == P2 && AHEAD[3] == Q3
    ensures AHEAD[10] == X10 && AHEAD[11] == X11 && AHEAD[12] == X12
  {
  }

  lemma AheadIsProper()
    ensures Proper3(Four(AHEAD)) && !OnOneChain(AHEAD, 2, 10)
  {
    W.FourIsProper();
    AheadTable();
    hide AHEAD;
    assert forall id :: id in AHEAD ==> id in {1, 2, 3, 10, 11, 12};
    W.TwoBranches(AHEAD, 1, 2, 10);
  }

  const G3 := Look(2, 0, map[1 := P1, 10 := X10], [[P1]], {10}, {1, 10}, EARLY[..2], [], {})
  const G4 := Look(2, 0, map[1 := P1, 10 := X10, 2 := P2], [[P1]], {10, 2}, {1, 10, 2}, EARLY[..3], [], {})
  const G5 := Look(3, 0, map[1 := P1, 10 := X10, 2 := P2], [[P1], [P2]], {10}, {1, 10, 2}, EARLY[..3], [], {})
  const G6 := Look(3, 0, map[1 := P1, 10 := X10, 2 := P2, 3 := Q3], [[P1], [P2]], {10, 3}, {1, 10, 2, 3}, EARLY[..4],
                   [], {})
  const G7 := Look(4, 2, map[10 := X10, 2 := P2, 3 := Q3], [[P1], [P2], [Q3]], {10}, {1, 10, 2, 3}, EARLY[..4],
                   [(2, 3)], {P2})
  const G8 := Look(11, 2, map[10 := X10, 2 := P2, 3 := Q3], [[P1], [P2], [Q3], [X10]], {}, {1, 10, 2, 3}, EARLY[..4],
                   [(2, 3)], {P2})
  const G9 := Look(11, 2, map[10 := X10, 2 := P2, 3 := Q3, 11 := X11], [[P1], [P2], [Q3], [X10]], {11},
                   {1, 10, 2, 3, 11}, EARLY[..5], [(2, 3)], {P2})
  const G10 := Look(12, 2, map[10 := X10, 2 := P2, 3 := Q3, 11 := X11], [[P1], [P2], [Q3], [X10], [X11]], {},
                    {1, 10, 2, 3, 11}, EARLY[..5], [(2, 3)], {P2})
  const G11 := Look(12, 2, map[10 := X10, 2 := P2, 3 := Q3, 11 := X11, 12 := X12], [[P1], [P2], [Q3], [X10], [X11]],
                    {12}, {1, 10, 2, 3, 11, 12}, EARLY, [(2, 3)], {P2})
  const G12 := Look(13, 11, map[11 := X11, 12 := X12], [[P1], [P2], [Q3], [X10], [X11], [X12]], {},
                    {1, 10, 2, 3, 11, 12}, EARLY, [(2, 3), (11, 12)], {P2, X11})

  lemma CastsAhead()
    ensures ToCast(AHEAD, START, P1, E1) && ToCast(AHEAD, E2, X10, G3) && ToCast(AHEAD, G3, P2, G4)
  {
    AheadTable();
    hide AHEAD;
    assert E2.chain[|E2.chain| - 1][0].id == 1;
    assert VOTES[..1] == EARLY[..1];
  }

  lemma CastsBack()
    ensures ToCast(AHEAD, G5, Q3, G6) && ToCast(AHEAD, G8, X11, G9)
  {
    AheadTable();
    hide AHEAD;
    assert G5.chain[|G5.chain| - 1][0].id == 2 && G8.chain[|G8.chain| - 1][0].id == 10;
  }

  lemma CastsTop()
    ensures ToCast(AHEAD, G10, X12, G11)
  {
    AheadTable();
    hide AHEAD;
    assert G10.chain[|G10.chain| - 1][0].id == 11;
  }

  lemma AppendsBack()
    ensures ToAppend(AHEAD, true, G4, 2, 2, 2, G5)
  {
    AheadTable();
    hide AHEAD;
    assert Contains(G4.chain[0], 1) by { assert G4.chain[0][0].id == 1; }
  }

  lemma CommitsBack()
    ensures ToCommit(AHEAD, true, G6, 3, 3, 3, P2, G7)
  {
    AheadTable();
    hide AHEAD;
    assert Contains(G6.chain[1], 2) by { assert G6.chain[1][0].id == 2; }
    var more: seq<seq<Block>> := G6.chain + [[Q3]];
    assert more[2] == [Q3] && more[1] == [P2] && more[0] == [P1];
    assert Above(G6.held, 2) == G7.held;
  }

  lemma AppendsAhead()
    ensures ToAppend(AHEAD, true, G7, 10, 1, 10, G8)
  {
    AheadTable();
    hide AHEAD;
    assert Contains(G7.chain[0], 1) by { assert G7.chain[0][0].id == 1; }
    var more: seq<seq<Block>> := G7.chain + [[X10]];
    assert more[3] == [X10] && more[2] == [Q3];
  }

  lemma AppendsOn()
    ensures ToAppend(AHEAD, true, G9, 11, 4, 11, G10)
  {
    AheadTable();
    hide AHEAD;
    assert Contains(G9.chain[3], 10) by { assert G9.chain[3][0].id == 10; }
    var more: seq<seq<Block>> := G9.chain + [[X11]];
    assert more[4] == [X11] && more[3] == [X10] && more[2] == [Q3];
  }

  lemma CommitsTop()
    ensures ToCommit(AHEAD, true, G11, 12, 5, 12, X11, G12)
  {
    AheadTable();
    hide AHEAD;
    assert Contains(G11.chain[4], 11) by { assert G11.chain[4][0].id == 11; }
    var more: seq<seq<Block>> := G11.chain + [[X12]];
    assert more[5] == [X12] && more[4] == [X11] && more[3] == [X10];
    assert Above(G11.held, 11) == G12.held;
  }

  lemma AheadStart(c: Setup) returns (evs: seq<PeerEvent>)
    requires c == Four(AHEAD)
    ensures Are(Run3(c, evs), G5, G5, G5) && Clean(c, evs, true)
  {
    StartLooks(AHEAD, true);
    AheadTable();
    CastsAhead();
    AppendsP1(AHEAD, true);
    AppendsBack();
    hide AHEAD, Run3, Are, ToCast, ToAppend, Clean;
    evs := CastAll(c, [], true, START, P1, E1);
    evs := AppendAll(c, evs, true, E1, 1, 0, 1, E2);
    evs := CastAll(c, evs, true, E2, X10, G3);
    evs := CastAll(c, evs, true, G3, P2, G4);
    evs := AppendAll(c, evs, true, G4, 2, 2, 2, G5);
  }

  lemma AheadRun(c: Setup) returns (evs: seq<PeerEvent>)
    requires c == Four(AHEAD)
    ensures Are(Run3(c, evs), G12, G12, G12) && Clean(c, evs, true)
  {
    CastsBack();
    CommitsBack();
    AppendsAhead();
    AppendsOn();
    CastsTop();
    CommitsTop();
    hide AHEAD, Run3, Are, ToCast, ToAppend, ToCommit, Clean;
    evs := AheadStart(c);
    evs := CastAll(c, evs, true, G5, Q3, G6);
    evs := CommitAll(c, evs, true, G6, 3, 3, 3, P2, G7);
    evs := AppendAll(c, evs, true, G7, 10, 1, 10, G8);
    evs := CastAll(c, evs, true, G8, X11, G9);
    evs := AppendAll(c, evs, true, G9, 11, 4, 11, G10);
    evs := CastAll(c, evs, true, G10, X12, G11);
    evs := CommitAll(c, evs, true, G11, 12, 5, 12, X11, G12);
  }

  lemma OutOfOrder(c: Setup, g: Peers)
    requires c == Four(AHEAD) && Ordered(AHEAD) && !OnOneChain(AHEAD, 2, 11) && Are(g, G12, G12, G12)
    ensures !PeersInOrder(g) && TipsExtended(c, g) && SplitAt(c, g, 1, 1) && SplitAt(c, g, 2, 2)
  {
    AheadTable();
    hide AHEAD, OnOneChain, Ordered, LooksLike;
    AreVotes(g, G12, G12, G12);
    AreCommits(g, G12, G12, G12);
    AreExtended(c, g, G12, G12, G12);
    assert Of(1, G12, G12, G12) == G12 && Of(2, G12, G12, G12) == G12;
    Splits(c, g, 1, P2, 1, X11);
    Splits(c, g, 2, P2, 2, X11);
    assert g[1].journal[1].view == 10 && g[1].journal[2].view == 2;
  }

  lemma AheadSplits()
    requires Ordered(AHEAD) && !OnOneChain(AHEAD, 2, 10)
    ensures !OnOneChain(AHEAD, 2, 11)
  {
    AheadTable();
    hide AHEAD;
    assert !Descends(AHEAD, 1, 11) && !Descends(AHEAD, 2, 11);
  }

  /** Votes in order cannot be dropped either: nothing keeps a replica from voting for a block far ahead of its view
      and then for lower ones. */
  lemma OrderIsNeeded() returns (c: Setup, evs: seq<PeerEvent>)
    ensures Proper3(c) && 3 * |c.faulty| < c.n && (forall v :: c.leaderOf(v) in c.faulty)
    ensures AllSigned(c, evs) && AllLabelled(c, evs) && !PeersInOrder(Run3(c, evs))
    ensures TipsExtended(c, Run3(c, evs)) && TailsRise(Run3(c, evs))
    ensures PeersJustified(c, Run3(c, evs)) && TipsCertified(c, Run3(c, evs))
    ensures SplitAt(c, Run3(c, evs), 1, 1) && SplitAt(c, Run3(c, evs), 2, 2)
  {
    c := Four(AHEAD);
    AheadIsProper();
    AheadSplits();
    hide AHEAD, Run3, Are, OnOneChain, Ordered, AllSigned, AllLabelled, TailsRise, PeersJustified, TipsCertified;
    evs := AheadRun(c);
    BackedRun3(c, evs);
    OutOfOrder(c, Run3(c, evs));
  }

  // ---------------------------------------------------------------- fourth run: a vote with another view

  const P5 := Made(5, 5, 4)
  const Y8 := Made(8, 8, 2)
  const Y9 := Made(9, 9, 8)
  const Y10 := Made(10, 10, 9)

  const BACK: World := map[1 := P1, 2 := P2, 3 := P3, 4 := P4, 5 := P5, 8 := Y8, 9 := Y9, 10 := Y10]

  lemma BackTable()
    ensures BACK.Keys == {1, 2, 3, 4, 5, 8, 9, 10} && GENESIS !in BACK
    ensures BACK[1] == P1 && BACK[2] == P2 && BACK[3] == P3 && BACK[4] == P4
    ensures BACK[5] == P5 && BACK[8] == Y8 && BACK[9] == Y9 && BACK[10] == Y10
  {
  }

  lemma BackIsProper()
    ensures Proper3(Four(BACK)) && !OnOneChain(BACK, 4, 9)
  {
    W.FourIsProper();
    BackTable();
    hide BACK;
    assert forall id :: id in BACK ==> id in {1, 2, 3, 4, 5, 8, 9, 10};
    assert !Descends(BACK, 1, 4) && !Descends(BACK, 1, 9);
    assert !Descends(BACK, 2, 4) && !Descends(BACK, 3, 9);
    assert !Descends(BACK, 8, 4);
  }

  // What replica 1 looks like.
  const LONE: seq<Ballot> := [Ballot(1, 1, 0), Ballot(3, 3, 1), Ballot(4, 4, 3), Ballot(5, 5, 4)]

  const H3 := Look(2, 0, map[1 := P1, 3 := P3], [[P1]], {3}, {1, 3}, LONE[..2], [], {})
  const H4 := Look(4, 0, map[1 := P1, 3 := P3], [[P1], [P3]], {}, {1, 3}, LONE[..2], [], {})
  const H5 := Look(4, 0, map[1 := P1, 3 := P3, 4 := P4], [[P1], [P3]], {4}, {1, 3, 4}, LONE[..3], [], {})
  const H6 := Look(5, 0, map[1 := P1, 3 := P3, 4 := P4], [[P1], [P3], [P4]], {}, {1, 3, 4}, LONE[..3], [], {})
  const H7 := Look(5, 0, map[1 := P1, 3 := P3, 4 := P4, 5 := P5], [[P1], [P3], [P4]], {5}, {1, 3, 4, 5}, LONE, [], {})
  const H8 := Look(6, 4, map[4 := P4, 5 := P5], [[P1], [P3], [P4], [P5]], {}, {1, 3, 4, 5}, LONE, [(4, 5)], {P4})

  // What replicas 2 and 3 look like.
  const FALL: seq<Ballot> :=
    [Ballot(1, 1, 0), Ballot(2, 2, 1), Ballot(3, 3, 1), Ballot(4, 4, 3), Ballot(5, 5, 4), Ballot(8, 8, 2),
     Ballot(9, 9, 8), Ballot(10, 10, 9)]

  const I4 := Look(4, 0, map[1 := P1, 2 := P2, 3 := P3], [[P1], [P3]], {2}, {1, 2, 3}, FALL[..3], [], {})
  const I5 := I4.(held := I4.held[4 := P4], open := {2, 4}, asked := {1, 2, 3, 4}, votes := FALL[..4])
  const I6 := I5.(view := 5, chain := [[P1], [P3], [P4]], open := {2})
  const I7 := I6.(held := I6.held[5 := P5], open := {2, 5}, asked := {1, 2, 3, 4, 5}, votes := FALL[..5])
  const I8 := I7.(view := 8, chain := [[P1], [P3], [P4], [P2]], open := {5})
  const I9 := I8.(held := I8.held[8 := Y8], open := {5, 8}, asked := {1, 2, 3, 4, 5, 8}, votes := FALL[..6])
  const I10 := I9.(view := 9, chain := [[P1], [P3], [P4], [P2], [Y8]], open := {5})
  const I11 := I10.(held := I10.held[9 := Y9], open := {5, 9}, asked := {1, 2, 3, 4, 5, 8, 9}, votes := FALL[..7])
  const I12 := I11.(view := 10, chain := [[P1], [P3], [P4], [P2], [Y8], [Y9]], open := {5})
  const I13 := I12.(held := I12.held[10 := Y10], open := {5, 10}, asked := {1, 2, 3, 4, 5, 8, 9, 10}, votes := FALL)
  const I14 := Look(11, 9, map[9 := Y9, 10 := Y10], [[P1], [P3], [P4], [P2], [Y8], [Y9], [Y10]], {},
                    {1, 2, 3, 4, 5, 8, 9, 10}, FALL, [(9, 10)], {Y9})

  lemma LoneCasts()
    ensures ToCast(BACK, START, P1, E1) && ToCast(BACK, E2, P3, H3) && ToCast(BACK, H4, P4, H5)
    ensures ToCast(BACK, H6, P5, H7)
  {
    BackTable();
    hide BACK;
    assert VOTES[..1] == LONE[..1];
    assert E2.chain[|E2.chain| - 1][0].id == 1 && H4.chain[|H4.chain| - 1][0].id == 3;
    assert H6.chain[|H6.chain| - 1][0].id == 4;
  }

  lemma LoneThird(mark: View)
    requires mark == 3
    ensures Plainly(H3, 3, mark) && Appending(H3, 3, mark) == H4
  {
    assert Contains(H3.chain[0], 1) by { assert H3.chain[0][0].id == 1; }
  }

  lemma LoneFourth(mark: View)
    requires mark == 4
    ensures Plainly(H5, 4, mark) && Appending(H5, 4, mark) == H6
  {
    assert Contains(H5.chain[1], 3) by { assert H5.chain[1][0].id == 3; }
    var more: seq<seq<Block>> := H5.chain + [[P4]];
    assert more[2] == [P4] && more[1] == [P3] && more[0] == [P1];
  }

  lemma LoneCommits(mark: View)
    requires mark == 5
    ensures Commits(H7, 5, mark, P4) && Committing(H7, 5, mark, P4) == H8
  {
    assert Contains(H7.chain[2], 4) by { assert H7.chain[2][0].id == 4; }
    var more: seq<seq<Block>> := H7.chain + [[P5]];
    assert more[3] == [P5] && more[2] == [P4] && more[1] == [P3];
    assert Above(H7.held, 4) == H8.held;
  }

  lemma FallCasts()
    ensures ToCast(BACK, E2, P2, E3) && ToCast(BACK, E3, P3, E4)
    ensures ToCast(BACK, I4, P4, I5) && ToCast(BACK, I6, P5, I7)
  {
    BackTable();
    hide BACK;
    assert E3.chain[|E3.chain| - 1][0].id == 1 && I4.chain[|I4.chain| - 1][0].id == 3;
    assert I6.chain[|I6.chain| - 1][0].id == 4;
  }

  lemma FallMore()
    ensures ToCast(BACK, I8, Y8, I9) && ToCast(BACK, I10, Y9, I11) && ToCast(BACK, I12, Y10, I13)
  {
    BackTable();
    hide BACK;
    assert I8.chain[|I8.chain| - 1][0].id == 2 && I10.chain[|I10.chain| - 1][0].id == 8;
    assert I12.chain[|I12.chain| - 1][0].id == 9;
  }

  lemma FallThird()
    ensures ToAppend(BACK, false, E4, 3, 2, 3, I4)
  {
    assert Contains(E4.chain[0], 1) by { assert E4.chain[0][0].id == 1; }
    assert VOTES[..3] == FALL[..3];
  }

  lemma FallFourth()
    ensures ToAppend(BACK, false, I5, 4, 3, 4, I6)
  {
    assert Contains(I5.chain[1], 3) by { assert I5.chain[1][0].id == 3; }
    var more: seq<seq<Block>> := I5.chain + [[P4]];
    assert more[2] == [P4] && more[1] == [P3] && more[0] == [P1];
  }

  /** The old block joins the chain on a vote with view 7. */
  lemma FallBack()
    ensures ToAppend(BACK, false, I7, 2, 1, 7, I8)
  {
    assert Contains(I7.chain[0], 1) by { assert I7.chain[0][0].id == 1; }
    var more: seq<seq<Block>> := I7.chain + [[P2]];
    assert more[3] == [P2] && more[2] == [P4] && more[1] == [P3];
  }

  lemma FallEighth()
    ensures ToAppend(BACK, false, I9, 8, 5, 8, I10)
  {
    assert Contains(I9.chain[3], 2) by { assert I9.chain[3][0].id == 2; }
    var more: seq<seq<Block>> := I9.chain + [[Y8]];
    assert more[4] == [Y8] && more[3] == [P2] && more[2] == [P4];
  }

  lemma FallNinth()
    ensures ToAppend(BACK, false, I11, 9, 6, 9, I12)
  {
    assert Contains(I11.chain[4], 8) by { assert I11.chain[4][0].id == 8; }
    var more: seq<seq<Block>> := I11.chain + [[Y9]];
    assert more[5] == [Y9] && more[4] == [Y8] && more[3] == [P2];
  }

  lemma FallCommits()
    ensures ToCommit(BACK, false, I13, 10, 7, 10, Y9, I14)
  {
    assert Contains(I13.chain[5], 9) by { assert I13.chain[5][0].id == 9; }
    var more: seq<seq<Block>> := I13.chain + [[Y10]];
    assert more[6] == [Y10] && more[5] == [Y9] && more[4] == [Y8];
    assert Above(I13.held, 9) == I14.held;
  }

  /** Replica 1 gets no block of view 2. */
  lemma FallStart(c: Setup) returns (evs: seq<PeerEvent>)
    requires c == Four(BACK)
    ensures Are(Run3(c, evs), H3, E4, E4) && Clean(c, evs, false)
  {
    StartLooks(BACK, false);
    LoneCasts();
    FallCasts();
    AppendsP1(BACK, false);
    hide BACK, Run3, Are, ToAppend, Clean, Casts, AfterCast, Known;
    evs := CastAll(c, [], false, START, P1, E1);
    evs := AppendAll(c, evs, false, E1, 1, 0, 1, E2);
    evs := CastOne(c, evs, false, 1, E2, E2, E2, P3);
    evs := CastPair(c, evs, false, H3, E2, P2, E3);
    evs := CastPair(c, evs, false, H3, E3, P3, E4);
  }

  lemma FallSteps()
    ensures VotedOn(E4, 2, 3) && VotedOn(I5, 3, 4) && VotedOn(I7, 4, 5)
  {
  }

  /** Everyone notarizes the blocks of views 3 and 4 and votes for that of view 5. */
  lemma FallMiddle(c: Setup) returns (evs: seq<PeerEvent>)
    requires c == Four(BACK)
    ensures Are(Run3(c, evs), H7, I7, I7) && Clean(c, evs, false)
  {
    LoneCasts();
    LoneThird(3);
    LoneFourth(4);
    FallCasts();
    FallThird();
    FallFourth();
    FallSteps();
    hide BACK, Run3, Are, ToAppend, Clean, Casts, AfterCast, Known, Plainly, Appending, VotedOn;
    evs := FallStart(c);
    evs := AppendOne(c, evs, false, 1, 2, H3, E4, E4, 3, 2, 3);
    evs := AppendPair(c, evs, false, H4, E4, 3, 2, 3, I4);
    evs := CastOne(c, evs, false, 1, H4, I4, I4, P4);
    evs := CastPair(c, evs, false, H5, I4, P4, I5);
    evs := AppendOne(c, evs, false, 1, 2, H5, I5, I5, 4, 3, 4);
    evs := AppendPair(c, evs, false, H6, I5, 4, 3, 4, I6);
    evs := CastOne(c, evs, false, 1, H6, I6, I6, P5);
    evs := CastPair(c, evs, false, H7, I6, P5, I7);
  }

  /** Replica 1 commits; the others notarize the block of view 2 after all, and build on it. */
  lemma FallRun(c: Setup) returns (evs: seq<PeerEvent>)
    requires c == Four(BACK)
    ensures Are(Run3(c, evs), H8, I14, I14) && Clean(c, evs, false)
  {
    LoneCommits(5);
    FallSteps();
    FallBack();
    FallMore();
    FallEighth();
    FallNinth();
    FallCommits();
    hide BACK, Run3, Are, ToCast, ToAppend, ToCommit, Clean, Commits, Committing, VotedOn;
    evs := FallMiddle(c);
    evs := CommitOne(c, evs, false, 1, 2, H7, I7, I7, 5, 4, 5, P4);
    evs := AppendPair(c, evs, false, H8, I7, 2, 1, 7, I8);
    evs := CastPair(c, evs, false, H8, I8, Y8, I9);
    evs := AppendPair(c, evs, false, H8, I9, 8, 5, 8, I10);
    evs := CastPair(c, evs, false, H8, I10, Y9, I11);
    evs := AppendPair(c, evs, false, H8, I11, 9, 6, 9, I12);
    evs := CastPair(c, evs, false, H8, I12, Y10, I13);
    evs := CommitPair(c, evs, false, H8, I13, 10, 7, 10, Y9, I14);
  }

  lemma FallOrder()
    ensures InOrder(LONE) && InOrder(FALL) && FALL[4].pref > FALL[5].pref
  {
  }

  lemma Falls(c: Setup, g: Peers)
    requires c == Four(BACK) && Ordered(BACK) && !OnOneChain(BACK, 4, 9) && Are(g, H8, I14, I14)
    ensures PeersInOrder(g) && TipsExtended(c, g) && !TailsRise(g) && SplitAt(c, g, 1, 2)
    ensures 2 in g && !Climbing(g[2].notarized, g[2].pm.curView)
  {
    BackTable();
    FallOrder();
    hide BACK, OnOneChain, Ordered, InOrder, Drawn, Tallied, Idle, Reported;
    AreVotes(g, H8, I14, I14);
    AreCommits(g, H8, I14, I14);
    AreExtended(c, g, H8, I14, I14);
    assert Of(1, H8, I14, I14) == H8 && Of(2, H8, I14, I14) == I14;
    Splits(c, g, 1, P4, 2, Y9);
    assert g[2].journal[4].pref > g[2].journal[5].pref;
    assert g[2].notarized[2][0].view == 4 && g[2].notarized[3][0].view == 2;
  }

  /** The last notarized block must not fall: no vote is forged and all other conditions are met, but one vote carries
      another view than that of its block. It brings a block back that the notarized chain had left behind. */
  lemma LabelsAreNeeded() returns (c: Setup, evs: seq<PeerEvent>)
    ensures Proper3(c) && 3 * |c.faulty| < c.n && AllSigned(c, evs) && !AllLabelled(c, evs)
    ensures PeersInOrder(Run3(c, evs)) && TipsExtended(c, Run3(c, evs)) && !TailsRise(Run3(c, evs))
    ensures PeersJustified(c, Run3(c, evs)) && TipsCertified(c, Run3(c, evs))
    ensures SplitAt(c, Run3(c, evs), 1, 2)
    ensures var g := Run3(c, evs); 2 in g && !Climbing(g[2].notarized, g[2].pm.curView)
  {
    c := Four(BACK);
    BackIsProper();
    W.FourIsProper();
    hide BACK, Run3, Are, OnOneChain, Ordered, AllSigned, AllLabelled, TailsRise, PeersJustified, TipsCertified,
         PeersInOrder, TipsExtended, Climbing, SplitAt;
    evs := FallRun(c);
    BackedRun3(c, evs);
    Falls(c, Run3(c, evs));
  }
}
