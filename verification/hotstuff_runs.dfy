/** A network of HotStuff replicas, some of them faulty, and the runs it can have. */
module HotStuffRuns {
  import opened Types
  import opened Tally
  import opened Quorums
  import opened Forests
  import opened Worlds
  import opened BlockChains
  import opened Pacemakers
  import opened Safety
  import opened Outputs
  import opened HotStuffs
  import opened HotStuffLogs
  import opened HotStuffInvariant

  datatype Setup = Setup(w: World, n: nat, faulty: set<Node>, leaderOf: View -> Node)

  /** The states of the replicas that are not faulty. */
  type Network = map<Node, Replica>

  /** A replica is handed a message, in any order and possibly never; or its timer runs out; or a client's transaction
      reaches the first leader, which starts the first view. */
  datatype Event =
    | BlockTo(node: Node, block: Block)
    | VoteTo(node: Node, vote: Vote)
    | TmoTo(node: Node, tmo: Tmo)
    | TimeoutAt(node: Node)
    | StartAt(node: Node)

  ghost predicate Proper(c: Setup) {
    c.faulty <= Nodes(c.n) && 3 * |c.faulty| < c.n && Ordered(c.w)
  }

  ghost function Start(c: Setup): Network {
    map r | r in Nodes(c.n) - c.faulty :: Fresh(r, c.n, c.leaderOf)
  }

  ghost function Elect(c: Setup, g: Network): Electorate {
    Electorate(c.w, c.n, c.faulty, map r | r in g :: g[r].journal)
  }

  /** Blocks are blocks of the world. Nothing is asked of votes, timeout messages and certificates. */
  ghost predicate Enabled(c: Setup, g: Network, ev: Event) {
    && ev.node in g && !g[ev.node].halted && Filed(g[ev.node].bufferedBlocks)
    && (ev.BlockTo? ==> Fitting(c.w, ev.block))
  }

  ghost function KickOff(s: Replica): Replica {
    if s.pm.curView == 0 && s.leaderOf(1) == s.id then Advanced(s, 0) else s
  }

  ghost function Handle(s: Replica, ev: Event): Replica
    requires Filed(s.bufferedBlocks)
  {
    match ev
    case BlockTo(_, b) => OnBlock(s, b)
    case VoteTo(_, v) => OnVote(s, v)
    case TmoTo(_, tmo) => OnTmo(s, tmo)
    case TimeoutAt(_) => OnLocalTmo(s, s.pm.curView)
    case StartAt(_) => KickOff(s)
  }

  /** An event that is not enabled does not happen. */
  ghost function Step(c: Setup, g: Network, ev: Event): Network {
    if Enabled(c, g, ev) then g[ev.node := Handle(g[ev.node], ev)] else g
  }

  ghost function Run(c: Setup, evs: seq<Event>): Network {
    if evs == [] then Start(c) else Step(c, Run(c, evs[..|evs| - 1]), evs[|evs| - 1])
  }

  // ---------------------------------------------------------------- later states

  lemma TmoLater(s: Replica, tmo: Tmo)
    ensures Later(s, OnTmo(s, tmo))
  {
    CertificateFrame(s, tmo.highQC);
    hide OnCertificate;
  }

  lemma HandleLater(s: Replica, ev: Event)
    requires Filed(s.bufferedBlocks)
    ensures Later(s, Handle(s, ev))
  {
    match ev
    case BlockTo(_, b) => hide OnOne;
    case VoteTo(_, v) => VoteFrame(s, v);
    case TmoTo(_, tmo) => TmoLater(s, tmo);
    case TimeoutAt(_) =>
      var s1 := Advanced(s, s.pm.curView);
      TmoLater(s1, Tmo(s.pm.curView + 1, s.id, s1.highQC));
    case StartAt(_) =>
  }

  lemma StepGrows(c: Setup, g: Network, ev: Event)
    requires Enabled(c, g, ev)
    ensures Grows(Elect(c, g), Elect(c, Step(c, g, ev)))
    ensures Step(c, g, ev) == g[ev.node := Handle(g[ev.node], ev)]
    ensures Elect(c, Step(c, g, ev)).logs[ev.node] == Handle(g[ev.node], ev).journal
  {
    HandleLater(g[ev.node], ev);
    hide Handle, Fitting;
  }

  // ---------------------------------------------------------------- what every run keeps

  ghost predicate AllLight(c: Setup, g: Network) {
    && g.Keys == Nodes(c.n) - c.faulty
    && forall r :: r in g ==> g[r].id == r && Light(Elect(c, g), g[r])
  }

  lemma FreshLight(e: Electorate, id: Node, n: nat, leaderOf: View -> Node)
    requires Ordered(e.w) && id in Nodes(e.n) && id in e.logs
    ensures Light(e, Fresh(id, n, leaderOf))
  {
    FreshSane(e, id, n, leaderOf);
    hide Sane;
  }

  lemma StartLight(c: Setup)
    requires Proper(c)
    ensures AllLight(c, Start(c))
  {
    forall r | r in Start(c) ensures Light(Elect(c, Start(c)), Start(c)[r]) {
      FreshLight(Elect(c, Start(c)), r, c.n, c.leaderOf);
    }
  }

  lemma LightGrows(e: Electorate, d: Electorate, s: Replica)
    requires Grows(e, d) && Light(e, s)
    ensures Light(d, s)
  {
    SaneGrows(e, d, s);
    hide Sane;
  }

  lemma HandleLight(e: Electorate, s: Replica, ev: Event)
    requires Light(e, s) && Filed(s.bufferedBlocks) && s.id in e.logs && Handle(s, ev).journal <= e.logs[s.id]
    requires ev.BlockTo? ==> Fitting(e.w, ev.block)
    ensures Light(e, Handle(s, ev))
  {
    hide OnBlock, OnVote, OnTmo, OnLocalTmo, Light, Fitting;
    match ev
    case BlockTo(_, b) => BlockLight(e, s, b);
    case VoteTo(_, v) => VoteLight(e, s, v);
    case TmoTo(_, tmo) => TmoLight(e, s, tmo);
    case TimeoutAt(_) => LocalTmoLight(e, s, s.pm.curView);
    case StartAt(_) => ChangeLight(e, s, s.chain.votes, s.highQC, KickOff(s).pm);
  }

  lemma SameWorld(e: Electorate, d: Electorate)
    requires Grows(e, d)
    ensures d.w == e.w && d.n == e.n
  {
  }

  lemma StepLight(c: Setup, g: Network, ev: Event)
    requires AllLight(c, g)
    ensures AllLight(c, Step(c, g, ev))
  {
    hide Handle, Light, Fitting, Grows, Filed;
    if Enabled(c, g, ev) {
      var h, r := Step(c, g, ev), ev.node;
      var e, d := Elect(c, g), Elect(c, h);
      StepGrows(c, g, ev);
      SameWorld(e, d);
      hide Elect;
      HandleLater(g[r], ev);
      LightGrows(e, d, g[r]);
      HandleLight(d, g[r], ev);
      forall x | x in h ensures h[x].id == x && Light(d, h[x]) {
        if x != r {
          LightGrows(e, d, g[x]);
        }
      }
    }
  }

  lemma {:induction false} RunLight(c: Setup, evs: seq<Event>)
    requires Proper(c)
    ensures AllLight(c, Run(c, evs))
  {
    if evs == [] {
      StartLight(c);
    } else {
      RunLight(c, evs[..|evs| - 1]);
      StepLight(c, Run(c, evs[..|evs| - 1]), evs[|evs| - 1]);
    }
  }

  // ---------------------------------------------------------------- agreement

  /** The vote was cast by a replica locked on the certificate of the block: its lock is at least the view of the
      block's grandparent. Certificates of views up to 2 lock nothing. */
  ghost predicate Locked(w: World, b: Ballot) {
    b.id in w && w[b.id].prevId in w && w[w[b.id].prevId].view > 2 ==>
      var parent := w[w[b.id].prevId];
      parent.prevId in w ==> b.pref >= w[parent.prevId].view
  }

  // Votes in rising views, each cast under the lock of its block, and for a block whose parent is certified: what
  // the handlers would ensure if the last voted view were recorded, and if no certificate were skipped and none
  // passed unverified.

  ghost predicate VotesInOrder(g: Network) {
    forall r :: r in g ==> InOrder(g[r].journal)
  }

  ghost predicate VotesLocked(c: Setup, g: Network) {
    forall r, i :: r in g && 0 <= i < |g[r].journal| ==> Locked(c.w, g[r].journal[i])
  }

  ghost predicate VotesJustified(c: Setup, g: Network) {
    Justified(Elect(c, g), 0)
  }

  /** The block that the certificate names is certified, and the certificate carries its view. */
  ghost predicate ForCertified(e: Electorate, qc: QC) {
    Certified(e, qc.blockId) && qc.blockId in e.w && qc.view == e.w[qc.blockId].view
  }

  /** Commits are made on certificates for certified blocks, with the views of these blocks. A certificate may pass
      the check, or go unchecked, and be neither. */
  ghost predicate CommitsCertified(c: Setup, g: Network) {
    forall r, k :: r in g && 0 <= k < |g[r].decisions| ==> ForCertified(Elect(c, g), g[r].decisions[k].qc)
  }

  /** The conditions of agreement. */
  ghost predicate Disciplined(c: Setup, g: Network) {
    VotesInOrder(g) && VotesLocked(c, g) && VotesJustified(c, g) && CommitsCertified(c, g)
  }

  ghost function ThreeChain(w: World, d: Decided): seq<Id>
    requires d.qc.blockId in w
  {
    [d.qc.blockId, w[d.qc.blockId].prevId, d.block.id]
  }

  lemma FiredConsecutive(w: World, d: Decided)
    requires Fired(w, d) && d.qc.view == w[d.qc.blockId].view
    ensures Consecutive(w, ThreeChain(w, d))
  {
    var ids := ThreeChain(w, d);
    assert ids[0] == d.qc.blockId && ids[1] == w[ids[0]].prevId && ids[2] == d.block.id;
  }

  lemma LockedTop(c: Setup, g: Network, ids: seq<Id>)
    requires Ordered(c.w) && VotesLocked(c, g) && |ids| == 3 && Consecutive(c.w, ids)
    ensures LockedOn(Elect(c, g), ids[0], c.w[ids[2]].view)
  {
    var e := Elect(c, g);
    assert c.w[ids[1 - 1]].prevId == ids[1] && c.w[ids[2 - 1]].prevId == ids[2];
    forall r, i | r in e.logs && 0 <= i < |e.logs[r]| && e.logs[r][i].id == ids[0]
      ensures c.w[ids[2]].view <= 1 || e.logs[r][i].pref >= c.w[ids[2]].view
    {
      assert Locked(c.w, g[r].journal[i]);
    }
  }

  /** What a commit rule decided is a decision in the sense of the voting argument. */
  lemma DecidedIsDecision(c: Setup, g: Network, d: Decided)
    requires Fair(Elect(c, g)) && LogsOk(Elect(c, g)) && Fired(c.w, d) && ForCertified(Elect(c, g), d.qc)
    requires VotesLocked(c, g) && VotesJustified(c, g)
    ensures Decision(Elect(c, g), ThreeChain(c.w, d))
  {
    var e, ids := Elect(c, g), ThreeChain(c.w, d);
    hide VotesLocked, LogsOk, Justified, Certified, Fired, LockedOn;
    FiredConsecutive(c.w, d);
    LockedTop(c, g, ids);
    forall k | 0 <= k < |ids| ensures Certified(e, ids[k]) {
      CertifiedDown(e, ids, k);
    }
  }

  lemma LightLogs(c: Setup, g: Network)
    requires Proper(c) && AllLight(c, g)
    ensures Fair(Elect(c, g)) && LogsOk(Elect(c, g)) && (VotesInOrder(g) ==> AllInOrder(Elect(c, g)))
  {
    hide ForestKnown, BufferFits, AllDecided, AllFired, Keyed, BallotOk, InOrder;
  }

  lemma RunDecision(c: Setup, evs: seq<Event>, r: Node, k: nat)
    requires Proper(c) && Disciplined(c, Run(c, evs)) && r in Run(c, evs) && k < |Run(c, evs)[r].decisions|
    ensures var d := Run(c, evs)[r].decisions[k];
            d.qc.blockId in c.w && Decision(Elect(c, Run(c, evs)), ThreeChain(c.w, d))
  {
    var g := Run(c, evs);
    RunLight(c, evs);
    assert Fired(c.w, g[r].decisions[k]) by { hide Run, Sane, Fired; }
    assert ForCertified(Elect(c, g), g[r].decisions[k].qc);
    hide Run, Fired, ForCertified, VotesLocked, VotesJustified, LogsOk, Light, Decision, VotesInOrder;
    LightLogs(c, g);
    DecidedIsDecision(c, g, g[r].decisions[k]);
  }

  lemma FairRun(c: Setup, evs: seq<Event>)
    requires Proper(c) && Disciplined(c, Run(c, evs))
    ensures var e := Elect(c, Run(c, evs));
            Fair(e) && LogsOk(e) && AllInOrder(e) && Justified(e, 2) && e.w == c.w
  {
    RunLight(c, evs);
    hide Run, Light, VotesLocked, CommitsCertified, LogsOk, AllInOrder, Justified, Fair, VotesInOrder;
    LightLogs(c, Run(c, evs));
    JustifiedAbove(Elect(c, Run(c, evs)), 2);
  }

  /** Agreement on decisions. In every disciplined run with fewer than a third of the replicas faulty, any two blocks
      on which the commit rule of a replica that is not faulty ever succeeds are on one chain. */
  lemma DecisionsOnOneChain(c: Setup, evs: seq<Event>, r: Node, k: nat, q: Node, l: nat)
    requires Proper(c) && Disciplined(c, Run(c, evs))
    requires var g := Run(c, evs); r in g && q in g && k < |g[r].decisions| && l < |g[q].decisions|
    ensures var g := Run(c, evs); OnOneChain(c.w, g[r].decisions[k].block.id, g[q].decisions[l].block.id)
  {
    hide Run, Disciplined, Decision, Fair, LogsOk, AllInOrder, Justified, Elect, OnOneChain;
    var g := Run(c, evs);
    FairRun(c, evs);
    RunDecision(c, evs, r, k);
    RunDecision(c, evs, q, l);
    DecisionsAgree(Elect(c, g), ThreeChain(c.w, g[r].decisions[k]), ThreeChain(c.w, g[q].decisions[l]));
  }

  lemma CommittedDecided(c: Setup, evs: seq<Event>, r: Node, i: nat) returns (k: nat)
    requires Proper(c)
    requires var g := Run(c, evs); r in g && i < |g[r].committed|
    ensures var s := Run(c, evs)[r]; k < |s.decisions| && Descends(c.w, s.decisions[k].block.id, s.committed[i].id)
  {
    RunLight(c, evs);
    var s := Run(c, evs)[r];
    assert IsDecided(c.w, s.decisions, s.committed[i]) by { hide ForestKnown, BufferFits, JournalOk, Run; }
    k :| 0 <= k < |s.decisions| && Descends(c.w, s.decisions[k].block.id, s.committed[i].id);
  }

  /** Agreement. In every disciplined run with fewer than a third of the replicas faulty, whatever votes, certificates
      and timeouts are delivered, any two blocks that were committed by replicas that are not faulty are on one
      chain. */
  lemma Agreement(c: Setup, evs: seq<Event>, r: Node, i: nat, q: Node, j: nat)
    requires Proper(c) && Disciplined(c, Run(c, evs))
    requires var g := Run(c, evs); r in g && q in g && i < |g[r].committed| && j < |g[q].committed|
    ensures var g := Run(c, evs); OnOneChain(c.w, g[r].committed[i].id, g[q].committed[j].id)
  {
    hide Run, Disciplined;
    var g := Run(c, evs);
    var k := CommittedDecided(c, evs, r, i);
    var l := CommittedDecided(c, evs, q, j);
    DecisionsOnOneChain(c, evs, r, k, q, l);
    CommonChain(c.w, g[r].decisions[k].block.id, g[q].decisions[l].block.id,
                g[r].committed[i].id, g[q].committed[j].id);
  }

  // ---------------------------------------------------------------- what is delivered

  /** What unforgeable signatures give: whoever is named as a signer of something that passes the check has signed.
      The check of a certificate does not count the signers, and nothing but the block's identifier is signed. */
  ghost predicate SignersSigned(e: Electorate, qc: QC) {
    qc.blockId == GENESIS || forall x :: x in qc.signers ==> Signed(e, x, qc.blockId)
  }

  ghost predicate Unforged(e: Electorate, ev: Event) {
    match ev
    case BlockTo(_, b) => b.hasQC && b.qc.valid ==> SignersSigned(e, b.qc)
    case VoteTo(_, v) => v.valid ==> Signed(e, v.voter, v.blockId)
    case TmoTo(_, tmo) => tmo.highQC.valid ==> SignersSigned(e, tmo.highQC)
    case _ => true
  }

  /** More than that: what passes the check is backed by enough signers and carries the view of its block. */
  ghost predicate Genuine(e: Electorate, ev: Event) {
    match ev
    case BlockTo(_, b) => b.hasQC && b.qc.valid ==> Backed(e, b.qc)
    case VoteTo(_, v) => v.valid ==> VoteOk(e, v)
    case TmoTo(_, tmo) => tmo.highQC.valid ==> Backed(e, tmo.highQC)
    case _ => true
  }

  /** A certificate or a vote that names the replica itself as its maker is its own. The handlers take it without
      looking at the signature. */
  ghost predicate OwnName(e: Electorate, ev: Event) {
    match ev
    case BlockTo(r, b) => b.hasQC && b.qc.leader == r ==> Backed(e, b.qc)
    case VoteTo(r, v) => v.voter == r ==> VoteOk(e, v)
    case TmoTo(r, tmo) => tmo.highQC.leader == r ==> Backed(e, tmo.highQC)
    case _ => true
  }

  ghost predicate AllUnforged(c: Setup, evs: seq<Event>) {
    forall i :: 0 <= i < |evs| ==> Unforged(Elect(c, Run(c, evs[..i])), evs[i])
  }

  ghost predicate AllGenuine(c: Setup, evs: seq<Event>) {
    forall i :: 0 <= i < |evs| ==> Genuine(Elect(c, Run(c, evs[..i])), evs[i])
  }

  ghost predicate OwnNames(c: Setup, evs: seq<Event>) {
    forall i :: 0 <= i < |evs| ==> OwnName(Elect(c, Run(c, evs[..i])), evs[i])
  }

  lemma GenuineUnforged(e: Electorate, ev: Event)
    requires Genuine(e, ev)
    ensures Unforged(e, ev)
  {
  }

  lemma AllGenuineUnforged(c: Setup, evs: seq<Event>)
    requires AllGenuine(c, evs)
    ensures AllUnforged(c, evs)
  {
    hide Run, Elect, Genuine, Unforged;
    forall i | 0 <= i < |evs| ensures Unforged(Elect(c, Run(c, evs[..i])), evs[i]) {
      GenuineUnforged(Elect(c, Run(c, evs[..i])), evs[i]);
    }
  }

  // ---------------------------------------------------------------- runs in which all that is accepted is backed

  lemma BackedGrows(e: Electorate, d: Electorate, qc: QC)
    requires Grows(e, d)
    ensures Backed(e, qc) ==> Backed(d, qc)
  {
    if Backed(e, qc) && !(qc.blockId == GENESIS && qc.view == 0) {
      QuorumGrows(e, d, qc.signers, qc.blockId);
    }
  }

  lemma VoteOkGrows(e: Electorate, d: Electorate, v: Vote)
    requires Grows(e, d)
    ensures VoteOk(e, v) ==> VoteOk(d, v)
  {
    if VoteOk(e, v) {
      SignedGrows(e, d, v.voter, v.blockId);
    }
  }

  lemma GenuineGrows(e: Electorate, d: Electorate, ev: Event)
    requires Grows(e, d) && Genuine(e, ev) && OwnName(e, ev)
    ensures Genuine(d, ev) && OwnName(d, ev)
  {
    hide Grows, Backed, VoteOk;
    match ev
    case BlockTo(r, b) => BackedGrows(e, d, b.qc);
    case VoteTo(r, v) => VoteOkGrows(e, d, v);
    case TmoTo(r, tmo) => BackedGrows(e, d, tmo.highQC);
    case _ =>
  }

  lemma DeliverableGrows(e: Electorate, d: Electorate, me: Node, b: Block)
    requires Grows(e, d) && Deliverable(e, me, b)
    ensures Deliverable(d, me, b)
  {
    BackedGrows(e, d, b.qc);
    hide Backed;
  }

  lemma BackingGrows(e: Electorate, d: Electorate, s: Replica)
    requires Grows(e, d) && Backing(e, s)
    ensures Backing(d, s)
  {
    SameWorld(e, d);
    hide Grows, VoteOk, Backed, Deliverable;
    forall id, x | id in s.chain.votes && x in s.chain.votes[id] ensures VoteOk(d, s.chain.votes[id][x]) {
      VoteOkGrows(e, d, s.chain.votes[id][x]);
    }
    BackedGrows(e, d, s.highQC);
    forall id | id in s.bufferedQCs ensures Backed(d, s.bufferedQCs[id]) {
      BackedGrows(e, d, s.bufferedQCs[id]);
    }
    forall k | k in s.bufferedBlocks ensures Deliverable(d, s.id, s.bufferedBlocks[k]) {
      DeliverableGrows(e, d, s.id, s.bufferedBlocks[k]);
    }
    forall j | 0 <= j < |s.decisions| ensures Backed(d, s.decisions[j].qc) {
      BackedGrows(e, d, s.decisions[j].qc);
    }
  }

  lemma GoodGrows(e: Electorate, d: Electorate, s: Replica)
    requires Grows(e, d) && Good(e, s)
    ensures Good(d, s)
  {
    hide Light, Backing, Grows;
    LightGrows(e, d, s);
    BackingGrows(e, d, s);
  }

  ghost predicate AllGood(c: Setup, g: Network) {
    && g.Keys == Nodes(c.n) - c.faulty
    && forall r :: r in g ==> g[r].id == r && Good(Elect(c, g), g[r])
  }

  lemma StartGood(c: Setup)
    requires Proper(c)
    ensures AllGood(c, Start(c))
  {
    StartLight(c);
    hide Light;
    forall r | r in Start(c) ensures Backing(Elect(c, Start(c)), Start(c)[r]) {
      assert Start(c)[r] == Fresh(r, c.n, c.leaderOf);
    }
  }

  lemma HandleGood(e: Electorate, s: Replica, ev: Event)
    requires Good(e, s) && Filed(s.bufferedBlocks) && s.id in e.logs && Handle(s, ev).journal <= e.logs[s.id]
    requires ev.node == s.id && Genuine(e, ev) && OwnName(e, ev) && (ev.BlockTo? ==> Fitting(e.w, ev.block))
    ensures Good(e, Handle(s, ev))
  {
    hide OnBlock, OnVote, OnTmo, OnLocalTmo, Good, Backed, VoteOk, Known;
    match ev
    case BlockTo(_, b) => BlockGood(e, s, b);
    case VoteTo(_, v) => VoteGood(e, s, v);
    case TmoTo(_, tmo) => TmoGood(e, s, tmo);
    case TimeoutAt(_) => LocalTmoGood(e, s, s.pm.curView);
    case StartAt(_) => PmGood(e, s, KickOff(s).pm);
  }

  lemma StepGood(c: Setup, g: Network, ev: Event)
    requires AllGood(c, g) && Genuine(Elect(c, g), ev) && OwnName(Elect(c, g), ev)
    ensures AllGood(c, Step(c, g, ev))
  {
    hide Handle, Good, Genuine, Fitting, Grows, Filed, OwnName;
    if Enabled(c, g, ev) {
      var h, r := Step(c, g, ev), ev.node;
      var e, d := Elect(c, g), Elect(c, h);
      StepGrows(c, g, ev);
      SameWorld(e, d);
      hide Elect;
      HandleLater(g[r], ev);
      GenuineGrows(e, d, ev);
      GoodGrows(e, d, g[r]);
      HandleGood(d, g[r], ev);
      forall x | x in h ensures h[x].id == x && Good(d, h[x]) {
        if x != r {
          GoodGrows(e, d, g[x]);
        }
      }
    }
  }

  lemma Before(c: Setup, evs: seq<Event>, k: nat)
    requires k <= |evs|
    ensures AllGenuine(c, evs) ==> AllGenuine(c, evs[..k])
    ensures OwnNames(c, evs) ==> OwnNames(c, evs[..k])
  {
    hide Run, OwnName, Genuine, Elect;
    forall i | 0 <= i < k ensures evs[..k][..i] == evs[..i] && evs[..k][i] == evs[i] {
    }
  }

  /** The invariant holds after every run in which what is accepted is backed. */
  lemma {:induction false} RunGood(c: Setup, evs: seq<Event>)
    requires Proper(c) && AllGenuine(c, evs) && OwnNames(c, evs)
    ensures AllGood(c, Run(c, evs))
  {
    if evs == [] {
      StartGood(c);
    } else {
      var m := |evs| - 1;
      Before(c, evs, m);
      RunGood(c, evs[..m]);
      StepGood(c, Run(c, evs[..m]), evs[m]);
    }
  }

  lemma BackedForCertified(e: Electorate, d: Decided)
    requires Fired(e.w, d) && Backed(e, d.qc)
    ensures ForCertified(e, d.qc)
  {
    hide IsQuorum;
  }

  /** In such a run every commit is on a certified block. */
  lemma BackedCommits(c: Setup, evs: seq<Event>)
    requires Proper(c) && AllGenuine(c, evs) && OwnNames(c, evs)
    ensures CommitsCertified(c, Run(c, evs))
  {
    RunGood(c, evs);
    hide Run, Sane, Backed, ForCertified, Fired;
    var g := Run(c, evs);
    forall r, k | r in g && 0 <= k < |g[r].decisions| ensures ForCertified(Elect(c, g), g[r].decisions[k].qc) {
      BackedForCertified(Elect(c, g), g[r].decisions[k]);
    }
  }

  /** Agreement in such runs: only the conditions on votes remain. */
  lemma BackedAgreement(c: Setup, evs: seq<Event>, r: Node, i: nat, q: Node, j: nat)
    requires Proper(c) && AllGenuine(c, evs) && OwnNames(c, evs)
    requires VotesInOrder(Run(c, evs)) && VotesLocked(c, Run(c, evs)) && VotesJustified(c, Run(c, evs))
    requires var g := Run(c, evs); r in g && q in g && i < |g[r].committed| && j < |g[q].committed|
    ensures var g := Run(c, evs); OnOneChain(c.w, g[r].committed[i].id, g[q].committed[j].id)
  {
    hide Run, VotesInOrder, VotesLocked, VotesJustified, CommitsCertified, OnOneChain;
    BackedCommits(c, evs);
    Agreement(c, evs, r, i, q, j);
  }

  // ---------------------------------------------------------------- the lock and the highest certificate

  lemma StepLater(c: Setup, g: Network, ev: Event, r: Node)
    requires r in g
    ensures r in Step(c, g, ev) && Later(g[r], Step(c, g, ev)[r])
  {
    if Enabled(c, g, ev) {
      HandleLater(g[ev.node], ev);
    }
    hide Handle, Fitting;
  }

  lemma {:induction false} RunLater(c: Setup, evs: seq<Event>, k: nat, r: Node)
    requires k <= |evs| && r in Nodes(c.n) - c.faulty
    ensures r in Run(c, evs[..k]) && r in Run(c, evs) && Later(Run(c, evs[..k])[r], Run(c, evs)[r])
    decreases |evs|
  {
    if k == |evs| {
      assert evs[..k] == evs;
      if evs != [] {
        var m := |evs| - 1;
        assert evs[..m][..m] == evs[..m];
        RunLater(c, evs[..m], m, r);
        StepLater(c, Run(c, evs[..m]), evs[m], r);
      }
    } else {
      var m := |evs| - 1;
      RunLater(c, evs[..m], k, r);
      assert evs[..m][..k] == evs[..k];
      StepLater(c, Run(c, evs[..m]), evs[m], r);
    }
    hide Step;
  }

  /** In every run the lock of a replica and the view of its highest certificate never fall; if what is accepted is
      backed, the lock is at most that view. */
  lemma LockBelowHighQC(c: Setup, evs: seq<Event>, k: nat, r: Node)
    requires Proper(c) && k <= |evs| && r in Nodes(c.n) - c.faulty
    ensures r in Run(c, evs[..k]) && r in Run(c, evs)
    ensures var s, t := Run(c, evs[..k])[r], Run(c, evs)[r];
            && s.preferredView <= t.preferredView && s.highQC.view <= t.highQC.view
            && (AllGenuine(c, evs) && OwnNames(c, evs) ==> t.preferredView <= t.highQC.view)
  {
    RunLater(c, evs, k, r);
    if AllGenuine(c, evs) && OwnNames(c, evs) {
      RunGood(c, evs);
      assert Backing(Elect(c, Run(c, evs)), Run(c, evs)[r]) by { hide Light, Backing, Run; }
    }
    hide Run, Light, VotesOk, SoundQC, QcsOk, BufferOk, DecisionsBacked, AllGenuine, OwnNames;
  }
}
