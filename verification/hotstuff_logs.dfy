/** What a replica of either HotStuff keeps about its blocks, votes and commits, whatever votes, certificates and
    timeouts it is sent. */
module HotStuffLogs {
  import opened Types
  import opened Tally
  import opened Quorums
  import opened Forests
  import opened Worlds
  import opened BlockChains
  import opened Pacemakers
  import opened Safety
  import opened Outputs
  import opened HotStuffs

  /** A block of the world; what its certificate says, and whether it is worth anything, is open. */
  ghost predicate Fitting(w: World, b: Block) {
    b.hasQC ==> Known(w, b)
  }

  ghost predicate BufferFits(w: World, buffer: map<View, Block>) {
    Filed(buffer) && forall k :: k in buffer ==> Fitting(w, buffer[k])
  }

  ghost predicate JournalOk(e: Electorate, s: Replica) {
    && s.id in Nodes(e.n) && s.id in e.logs && s.journal <= e.logs[s.id] && LogOk(e, s.journal)
    && forall i :: 0 <= i < |s.journal| ==> s.journal[i].pref <= s.preferredView
  }

  ghost predicate Sane(e: Electorate, s: Replica) {
    && Ordered(e.w) && ForestKnown(e.w, s.chain.forest) && BufferFits(e.w, s.bufferedBlocks)
    && JournalOk(e, s) && AllDecided(e.w, s.decisions, s.committed)
  }

  // ---------------------------------------------------------------- small steps

  /** Nothing that matters here has changed, except that the lock may have risen. */
  ghost predicate Alike(s: Replica, t: Replica) {
    && t.id == s.id && t.chain.forest == s.chain.forest && t.bufferedBlocks == s.bufferedBlocks
    && t.journal == s.journal && s.preferredView <= t.preferredView
    && t.decisions == s.decisions && t.committed == s.committed
  }

  lemma AlikeSane(e: Electorate, s: Replica, t: Replica)
    requires Sane(e, s) && Alike(s, t)
    ensures Sane(e, t)
  {
    hide ForestKnown, BufferFits, AllDecided, LogOk, Ordered;
  }

  lemma DecideSane(e: Electorate, s: Replica, d: Decided, halted: bool)
    requires Sane(e, s)
    ensures Sane(e, s.(decisions := s.decisions + [d], halted := halted))
  {
    hide ForestKnown, BufferFits, LogOk, Ordered, AllDecided;
    OutputGrows(e.w, s.decisions, s.committed, d, []);
  }

  lemma ReportSane(e: Electorate, s: Replica, d: Decided, forked: seq<Block>)
    requires Sane(e, s) && CommitBlock(s.chain, d.block.id).Committed?
    ensures var r := CommitBlock(s.chain, d.block.id);
            Sane(e, s.(decisions := s.decisions + [d], chain := r.chain, committed := s.committed + r.committed,
                       forked := forked))
  {
    hide ForestKnown, BufferFits, LogOk, Ordered, AllDecided, CommitBlock, IdsOf;
    var r := CommitBlock(s.chain, d.block.id);
    CommitKnown(e.w, s.chain, d.block.id);
    OutputGrows(e.w, s.decisions, s.committed, d, r.committed);
  }

  lemma FinishSane(e: Electorate, s: Replica, d: Decided)
    requires Sane(e, s)
    ensures Sane(e, Finish(s, d))
  {
    hide Sane, CommitBlock;
    DecideSane(e, s, d, true);
    DecideSane(e, s, d, s.halted);
    if CommitBlock(s.chain, d.block.id).Committed? {
      ReportSane(e, s, d, s.forked + CommitBlock(s.chain, d.block.id).forked);
    }
  }

  lemma FinishKeeps(s: Replica, d: Decided)
    ensures var t := Finish(s, d);
            && t.decisions == s.decisions + [d] && t.bufferedBlocks == s.bufferedBlocks && t.journal == s.journal
            && t.bufferedQCs == s.bufferedQCs && t.id == s.id
  {
    hide CommitBlock;
  }

  /** A replica that follows its voting rule casts only admissible votes. */
  lemma BallotSane(e: Electorate, s: Replica, b: Block)
    requires Sane(e, s) && Known(e.w, b) && VotingRule(s, b)
    ensures BallotOk(e, Ballot(b.view, b.id, s.preferredView))
  {
    if b.view > 2 {
      ParentKnown(e.w, s.chain.forest, b.id);
    }
    hide ForestKnown, BufferFits, LogOk, AllDecided;
  }

  lemma JournalSane(e: Electorate, s: Replica, b: Block)
    requires Sane(e, s) && Known(e.w, b) && VotingRule(s, b)
    requires s.journal + [Ballot(b.view, b.id, s.preferredView)] <= e.logs[s.id]
    ensures Sane(e, s.(journal := s.journal + [Ballot(b.view, b.id, s.preferredView)]))
  {
    BallotSane(e, s, b);
    hide ForestKnown, BufferFits, AllDecided, VotingRule, BallotOk, Ordered;
  }

  lemma StoreSane(e: Electorate, s: Replica, b: Block)
    requires Sane(e, s) && Fitting(e.w, b)
    ensures b.hasQC ==> Sane(e, s.(chain := s.chain.(forest := Add(s.chain.forest, b))))
    ensures b.view >= 1 ==> Sane(e, s.(bufferedBlocks := s.bufferedBlocks[b.view - 1 := b]))
  {
    if b.hasQC {
      AddKnown(e.w, s.chain.forest, b);
    }
    hide ForestKnown, LogOk, AllDecided, Ordered, Add, Fitting;
  }

  lemma DropSane(e: Electorate, s: Replica, view: View)
    requires Sane(e, s)
    ensures Sane(e, s.(bufferedBlocks := s.bufferedBlocks - {view}))
  {
    hide ForestKnown, LogOk, AllDecided, Ordered, Fitting;
  }

  lemma SaneGrows(e: Electorate, d: Electorate, s: Replica)
    requires Grows(e, d) && Sane(e, s)
    ensures Sane(d, s)
  {
    hide ForestKnown, AllDecided, Ordered, BufferFits;
  }

  lemma FreshSane(e: Electorate, id: Node, n: nat, leaderOf: View -> Node)
    requires Ordered(e.w) && id in Nodes(e.n) && id in e.logs
    ensures Sane(e, Fresh(id, n, leaderOf))
  {
  }
}
