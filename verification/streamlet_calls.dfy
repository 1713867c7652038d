/** Streamlet's handlers call each other through buffers from which a call does not remove what it takes up. Every
    call returns all the same. */
module StreamletCalls {
  import opened Types
  import opened Tally
  import opened Quorums
  import opened Forests
  import opened Worlds
  import opened BlockChains
  import opened Pacemakers
  import opened Safety
  import opened Outputs
  import opened HotStuffRuns
  import opened Streamlets
  import opened StreamletInvariant
  import opened StreamletRuns

  // ---------------------------------------------------------------- what is left to do

  ghost function RunBlocks(todo: seq<Task>): set<Block> {
    set i | 0 <= i < |todo| && todo[i].RunBlock? :: todo[i].block
  }

  ghost function RunQCs(todo: seq<Task>): set<QC> {
    set i | 0 <= i < |todo| && todo[i].RunQC? :: todo[i].qc
  }

  /** Blocks at hand that could still be stored. */
  ghost function Storable(s: Peer): set<Block> {
    set b | b in s.bufferedBlocks.Values + RunBlocks(s.todo) && !Held(s, b.id)
            && b.view >= s.pm.curView && b.view >= s.chain.forest.lowest
  }

  /** Certificates at hand that are not old. */
  ghost function Current(s: Peer): set<QC> {
    set qc | qc in s.bufferedQCs.Values + s.bufferedNotarized.Values + RunQCs(s.todo) && qc.view >= s.pm.curView
  }

  ghost function VoteTasks(todo: seq<Task>): nat {
    if todo == [] then 0 else (if todo[0].RunVote? then 1 else 0) + VoteTasks(todo[1..])
  }

  /** How many tasks a task can turn into while nothing is stored, counted or certified. */
  ghost function Weight(t: Task): nat {
    match t
    case TryQC(_) => 2
    case TryBlock(_) => 2
    case TakeBlock(_) => 3
    case TakeNotarized(_) => 3
    case _ => 1
  }

  ghost function Weights(todo: seq<Task>): nat {
    if todo == [] then 0 else Weight(todo[0]) + Weights(todo[1..])
  }

  ghost predicate Smaller(t: Peer, s: Peer) {
    || |Storable(t)| < |Storable(s)|
    || (|Storable(t)| <= |Storable(s)|
        && (|| VoteTasks(t.todo) < VoteTasks(s.todo)
            || (VoteTasks(t.todo) <= VoteTasks(s.todo)
                && (|| |Current(t)| < |Current(s)|
                    || (|Current(t)| <= |Current(s)| && Weights(t.todo) < Weights(s.todo))))))
  }

  /** Nothing new to store or to certify, no vote more to count, and less to do. */
  ghost predicate Shrinks(t: Peer, s: Peer) {
    && Storable(t) <= Storable(s) && Current(t) <= Current(s)
    && VoteTasks(t.todo) <= VoteTasks(s.todo) && Weights(t.todo) < Weights(s.todo)
  }

  lemma ShrinksSmaller(t: Peer, s: Peer)
    requires Shrinks(t, s)
    ensures Smaller(t, s)
  {
    hide Storable, Current, VoteTasks, Weights;
    SubsetSize(Storable(t), Storable(s));
    SubsetSize(Current(t), Current(s));
  }

  lemma RemoveSize<T>(a: set<T>, b: set<T>, x: T)
    requires a <= b && x in b && x !in a
    ensures |a| < |b|
  {
    SubsetSize(a, b - {x});
  }

  // ---------------------------------------------------------------- pushing and popping

  lemma {:induction false} PushCounts(more: seq<Task>, todo: seq<Task>)
    ensures VoteTasks(more + todo) == VoteTasks(more) + VoteTasks(todo)
    ensures Weights(more + todo) == Weights(more) + Weights(todo)
  {
    if more == [] {
      assert more + todo == todo;
    } else {
      PushCounts(more[1..], todo);
      assert (more + todo)[1..] == more[1..] + todo;
    }
  }

  lemma PushSets(more: seq<Task>, todo: seq<Task>)
    ensures RunBlocks(more + todo) == RunBlocks(more) + RunBlocks(todo)
    ensures RunQCs(more + todo) == RunQCs(more) + RunQCs(todo)
  {
    var all := more + todo;
    forall b ensures b in RunBlocks(all) <==> b in RunBlocks(more) || b in RunBlocks(todo) {
      InBoth(more, todo, RunBlock(b));
    }
    forall qc ensures qc in RunQCs(all) <==> qc in RunQCs(more) || qc in RunQCs(todo) {
      InBoth(more, todo, RunQC(qc));
    }
  }

  lemma InBoth(more: seq<Task>, todo: seq<Task>, t: Task)
    ensures t in more + todo <==> t in more || t in todo
    ensures t.RunBlock? ==> (t.block in RunBlocks(more) <==> t in more) && (t.block in RunBlocks(todo) <==> t in todo)
    ensures t.RunBlock? ==> (t.block in RunBlocks(more + todo) <==> t in more + todo)
    ensures t.RunQC? ==> (t.qc in RunQCs(more) <==> t in more) && (t.qc in RunQCs(todo) <==> t in todo)
    ensures t.RunQC? ==> (t.qc in RunQCs(more + todo) <==> t in more + todo)
  {
  }

  /** The tasks of a replica with its next one apart. */
  lemma Pop(todo: seq<Task>)
    requires todo != []
    ensures todo == [todo[0]] + todo[1..]
    ensures VoteTasks(todo) == (if todo[0].RunVote? then 1 else 0) + VoteTasks(todo[1..])
    ensures Weights(todo) == Weight(todo[0]) + Weights(todo[1..])
    ensures RunBlocks(todo) == RunBlocks([todo[0]]) + RunBlocks(todo[1..])
    ensures RunQCs(todo) == RunQCs([todo[0]]) + RunQCs(todo[1..])
  {
    PushSets([todo[0]], todo[1..]);
  }

  // ---------------------------------------------------------------- one task

  /** A task is replaced by lighter ones that bring nothing new. */
  lemma KeepShrinks(t: Peer, s: Peer, more: seq<Task>)
    requires s.todo != [] && t.todo == more + s.todo[1..]
    requires t.pm.curView == s.pm.curView && t.chain.forest == s.chain.forest
    requires t.bufferedBlocks.Values + RunBlocks(more) <= s.bufferedBlocks.Values + RunBlocks([s.todo[0]])
    requires t.bufferedQCs.Values + t.bufferedNotarized.Values + RunQCs(more)
          <= s.bufferedQCs.Values + s.bufferedNotarized.Values + RunQCs([s.todo[0]])
    requires VoteTasks(more) == 0 && Weights(more) < Weight(s.todo[0])
    ensures Smaller(t, s)
  {
    Pop(s.todo);
    PushCounts(more, s.todo[1..]);
    PushSets(more, s.todo[1..]);
    hide RunBlocks, RunQCs, VoteTasks, Weights, Weight, Smaller;
    assert Storable(t) <= Storable(s);
    assert Current(t) <= Current(s);
    ShrinksSmaller(t, s);
  }

  /** The next task is given up. */
  lemma GiveUp(s: Peer)
    requires s.todo != []
    ensures Smaller(s.(todo := s.todo[1..]), s)
  {
    assert [] + s.todo[1..] == s.todo[1..];
    KeepShrinks(s.(todo := s.todo[1..]), s, []);
  }

  lemma NewValue<K, V>(m: map<K, V>, k: K, v: V)
    ensures m[k := v].Values <= m.Values + {v}
  {
  }

  lemma DropValue<K, V>(m: map<K, V>, k: K)
    ensures (m - {k}).Values <= m.Values
  {
  }

  /** A vote is counted. */
  lemma CountSmaller(t: Peer, s: Peer, more: seq<Task>)
    requires s.todo != [] && s.todo[0].RunVote? && t.todo == more + s.todo[1..]
    requires t.pm.curView == s.pm.curView && t.chain.forest == s.chain.forest && t.bufferedBlocks == s.bufferedBlocks
    requires RunBlocks(more) == {} && VoteTasks(more) == 0
    ensures Smaller(t, s)
  {
    Pop(s.todo);
    PushCounts(more, s.todo[1..]);
    PushSets(more, s.todo[1..]);
    hide RunBlocks, RunQCs, VoteTasks, Weights, Current;
    assert Storable(t) <= Storable(s);
    SubsetSize(Storable(t), Storable(s));
  }

  lemma VoteSmaller(s: Peer, v: Vote)
    requires s.todo != [] && s.todo[0] == RunVote(v)
    ensures Smaller(OnVote(s.(todo := s.todo[1..]), v), s)
  {
    hide Smaller, Record, Built;
    var t := OnVote(s.(todo := s.todo[1..]), v);
    var rest := s.todo[1..];
    assert [] + rest == rest;
    if t.todo == rest {
      CountSmaller(t, s, []);
    } else {
      var qc := Built(s.chain.n, s.chain.votes, v).value;
      assert t.todo == [RunQC(qc)] + rest;
      CountSmaller(t, s, [RunQC(qc)]);
    }
  }

  /** Judging a block brings nothing to store but that block. */
  lemma JudgeAtHand(s: Peer, b: Block)
    ensures var t := Judge(s, b);
            && t.bufferedBlocks.Values + RunBlocks(t.todo) <= s.bufferedBlocks.Values + RunBlocks(s.todo) + {b}
            && t.chain == s.chain && t.pm == s.pm
  {
    var more := [RunVote(Vote(b.view, s.id, b.id, true)), TryQC(b.id), TryBlock(b.id)];
    PushSets(more, s.todo);
    NewValue(s.bufferedBlocks, b.prevId, b);
    assert RunBlocks(more) == {};
    hide RunBlocks, VotingRule, TailView;
  }

  /** A block that is held can not be stored again. */
  lemma StorableLess(t: Peer, s: Peer, b: Block)
    requires t.bufferedBlocks.Values + RunBlocks(t.todo) <= s.bufferedBlocks.Values + RunBlocks(s.todo)
    requires t.pm == s.pm && t.chain.forest.lowest == s.chain.forest.lowest && !Held(s, b.id) && Held(t, b.id)
    requires b in RunBlocks(s.todo) && b.view >= s.pm.curView && b.view >= s.chain.forest.lowest
    requires forall id :: Held(s, id) ==> Held(t, id)
    ensures |Storable(t)| < |Storable(s)|
  {
    hide RunBlocks, Held;
    RemoveSize(Storable(t), Storable(s), b);
  }

  lemma StoreSmaller(s: Peer, b: Block)
    requires s.todo != [] && s.todo[0] == RunBlock(b) && b.view >= s.pm.curView && b.view >= s.chain.forest.lowest
    requires !Held(s, b.id) && (Held(s, b.prevId) || b.view <= 1) && b.proposer == s.leaderOf(b.view)
    ensures Smaller(OnBlock(s.(todo := s.todo[1..]), b), s)
  {
    var s1 := s.(todo := s.todo[1..], chain := s.chain.(forest := Add(s.chain.forest, b)));
    var t := Judge(s1, b);
    forall id ensures Held(t, id) <==> id == b.id || Held(s, id) {
      AddVertexMap(s.chain.forest, b, id);
      JudgeAtHand(s1, b);
    }
    assert s1.chain.forest.lowest == s.chain.forest.lowest by { AddVertexMap(s.chain.forest, b, b.id); }
    assert OnBlock(s.(todo := s.todo[1..]), b) == t;
    Pop(s.todo);
    assert b in RunBlocks([s.todo[0]]) by { InBoth([s.todo[0]], [], RunBlock(b)); }
    hide RunBlocks, Add, Judge, Held, Storable, Current, VoteTasks, Weights;
    JudgeAtHand(s1, b);
    StorableLess(t, s, b);
  }

  /** What is stored is not below the lowest level: its parent is held, or nothing was pruned yet. */
  lemma StoredAbove(w: World, s: Peer, b: Block)
    requires Light3(w, s) && Known(w, b) && b.view >= s.pm.curView && (Held(s, b.prevId) || b.view <= 1)
    ensures b.view >= s.chain.forest.lowest
  {
    if Held(s, b.prevId) {
      HeldPlaced(s.chain.forest, w, b.prevId);
    }
    hide Placed, Threaded, AllOnTip, AllFired3, AllDecided, TasksKnown, BlocksKnown, GetVertex;
  }

  lemma BlockSmaller(w: World, s: Peer, b: Block)
    requires Light3(w, s) && s.todo != [] && s.todo[0] == RunBlock(b)
    ensures var t := OnBlock(s.(todo := s.todo[1..]), b); t.halted || Smaller(t, s)
  {
    assert Known(w, b) by { PopLight3(w, s); }
    hide Smaller, Add, Judge, Light3;
    GiveUp(s);
    if !Held(s, b.id) && b.view >= s.pm.curView {
      if !Held(s, b.prevId) && b.view > 1 {
        WaitSmaller(s, b);
      } else if b.proposer == s.leaderOf(b.view) {
        StoredAbove(w, s, b);
        StoreSmaller(s, b);
      }
    }
  }

  lemma WaitSmaller(s: Peer, b: Block)
    requires s.todo != [] && s.todo[0] == RunBlock(b)
    ensures Smaller(s.(todo := s.todo[1..], bufferedBlocks := s.bufferedBlocks[b.prevId := b]), s)
  {
    hide Smaller;
    NewValue(s.bufferedBlocks, b.prevId, b);
    assert b in RunBlocks([s.todo[0]]) by { InBoth([s.todo[0]], [], RunBlock(b)); }
    assert [] + s.todo[1..] == s.todo[1..];
    KeepShrinks(s.(todo := s.todo[1..], bufferedBlocks := s.bufferedBlocks[b.prevId := b]), s, []);
  }

  lemma KeepQC(s: Peer, qc: QC, key: Id)
    requires s.todo != [] && s.todo[0] == RunQC(qc)
    ensures Smaller(s.(todo := s.todo[1..], bufferedQCs := s.bufferedQCs[key := qc]), s)
    ensures Smaller(s.(todo := s.todo[1..], bufferedNotarized := s.bufferedNotarized[key := qc]), s)
  {
    hide Smaller;
    NewValue(s.bufferedQCs, key, qc);
    NewValue(s.bufferedNotarized, key, qc);
    assert qc in RunQCs([s.todo[0]]) by { InBoth([s.todo[0]], [], RunQC(qc)); }
    assert [] + s.todo[1..] == s.todo[1..];
    KeepShrinks(s.(todo := s.todo[1..], bufferedQCs := s.bufferedQCs[key := qc]), s, []);
    KeepShrinks(s.(todo := s.todo[1..], bufferedNotarized := s.bufferedNotarized[key := qc]), s, []);
  }

  /** What is pruned is below the lowest level, which only rises. */
  ghost predicate PrunedBelow(s: Peer, t: Peer, w: World) {
    && s.chain.forest.lowest <= t.chain.forest.lowest
    && forall id :: id in w && Held(s, id) && w[id].view >= t.chain.forest.lowest ==> Held(t, id)
  }

  ghost predicate AtHandKnown(s: Peer, w: World) {
    forall b :: b in s.bufferedBlocks.Values + RunBlocks(s.todo) ==> Known(w, b)
  }

  lemma StorableKept(t: Peer, s: Peer, w: World)
    requires s.pm.curView <= t.pm.curView && PrunedBelow(s, t, w) && AtHandKnown(s, w)
    requires t.bufferedBlocks == s.bufferedBlocks && RunBlocks(t.todo) <= RunBlocks(s.todo)
    ensures Storable(t) <= Storable(s)
  {
    hide RunBlocks, Held;
  }

  lemma CurrentLess(t: Peer, s: Peer, qc: QC)
    requires s.pm.curView <= qc.view < t.pm.curView && qc in RunQCs(s.todo)
    requires t.bufferedQCs == s.bufferedQCs && t.bufferedNotarized == s.bufferedNotarized
    requires RunQCs(t.todo) <= RunQCs(s.todo)
    ensures |Current(t)| < |Current(s)|
  {
    hide RunQCs;
    RemoveSize(Current(t), Current(s), qc);
  }

  /** A certificate is used: the view moves past it. */
  lemma MoveSmaller(t: Peer, s: Peer, w: World, qc: QC, more: seq<Task>)
    requires s.todo != [] && s.todo[0] == RunQC(qc) && t.todo == more + s.todo[1..]
    requires s.pm.curView <= qc.view < t.pm.curView && PrunedBelow(s, t, w) && AtHandKnown(s, w)
    requires t.bufferedBlocks == s.bufferedBlocks && t.bufferedQCs == s.bufferedQCs
    requires t.bufferedNotarized == s.bufferedNotarized
    requires RunBlocks(more) == {} && RunQCs(more) == {} && VoteTasks(more) == 0
    ensures Smaller(t, s)
  {
    hide RunBlocks, RunQCs, VoteTasks, Weights, Storable, Current, PrunedBelow, AtHandKnown;
    Pop(s.todo);
    PushCounts(more, s.todo[1..]);
    PushSets(more, s.todo[1..]);
    InBoth([s.todo[0]], [], RunQC(qc));
    StorableKept(t, s, w);
    SubsetSize(Storable(t), Storable(s));
    CurrentLess(t, s, qc);
  }

  // ---------------------------------------------------------------- the certificate handler

  /** A commit prunes below the committed block. */
  lemma CommitPrunes(w: World, s: Peer, d: Decided)
    requires Light3(w, s)
    ensures PrunedBelow(s, Finish(s, d), w)
  {
    var f, t := s.chain.forest, Finish(s, d);
    if CommitBlock(s.chain, d.block.id).Committed? {
      var b := GetVertex(f, d.block.id).value;
      HeldPlaced(f, w, d.block.id);
      forall id | id in w && Held(s, id) && w[id].view >= b.view ensures Held(t, id) {
        CutVertexMap(f, b.view, id);
        assert f.vertices[id].level == w[id].view;
      }
    }
    hide Placed, Threaded, AllOnTip, AllFired3, AllDecided, CommitPath, IdsOf;
  }

  lemma FinishSmaller(w: World, s: Peer, t: Peer, d: Decided)
    requires Light3(w, t) && AtHandKnown(s, w)
    requires s.todo != [] && s.todo[0] == RunQC(d.qc) && t.todo == s.todo[1..]
    requires s.pm.curView <= d.qc.view < t.pm.curView && t.chain.forest == s.chain.forest
    requires t.bufferedBlocks == s.bufferedBlocks && t.bufferedQCs == s.bufferedQCs
    requires t.bufferedNotarized == s.bufferedNotarized
    ensures Finish(t, d).halted || Smaller(Finish(t, d), s)
  {
    var u := Finish(t, d);
    CommitPrunes(w, t, d);
    assert PrunedBelow(s, u, w) by { hide Finish; }
    var take := [TakeBlock(d.qc.blockId), TakeNotarized(d.qc.blockId)];
    assert [] + t.todo == t.todo;
    TwoTasks(take[0], take[1]);
    hide Light3, Smaller, PrunedBelow, CommitBlock, AtHandKnown;
    if !u.halted {
      if u.todo == t.todo {
        MoveSmaller(u, s, w, d.qc, []);
      } else {
        MoveSmaller(u, s, w, d.qc, take);
      }
    }
  }

  lemma KeyOf<K, V>(m: map<K, V>, v: V) returns (k: K)
    requires v in m.Values
    ensures k in m && m[k] == v
  {
    k :| k in m && m[k] == v;
  }

  lemma AllKnown(w: World, s: Peer)
    requires Light3(w, s)
    ensures AtHandKnown(s, w)
  {
    hide Placed, Threaded, AllOnTip, AllFired3, AllDecided, Known;
    forall b | b in s.bufferedBlocks.Values ensures Known(w, b) {
      var k := KeyOf(s.bufferedBlocks, b);
    }
    forall b | b in RunBlocks(s.todo) ensures Known(w, b) {
      var i :| 0 <= i < |s.todo| && s.todo[i].RunBlock? && s.todo[i].block == b;
    }
  }

  lemma AppendSmaller(w: World, s: Peer, b: Block, qc: QC)
    requires Light3(w, s) && s.todo != [] && s.todo[0] == RunQC(qc) && Known(w, b)
    requires qc.view >= s.pm.curView && Notarize(s.notarized, b).Appended?
    ensures var t := Streamlets.Join(s.(todo := s.todo[1..]), b, qc); t.halted || Smaller(t, s)
  {
    hide Light3, Smaller, Extends, CommitRule, Finish, AtHandKnown, Known;
    AllKnown(w, s);
    var s0 := s.(todo := s.todo[1..]);
    PopLight3(w, s);
    AppendLight3(w, s0, b, qc.view);
    var chain := s.notarized + [[b]];
    var t := s0.(notarized := chain, pm := Advance(s.pm, qc.view));
    assert [] + s0.todo == s0.todo;
    if qc.view >= 3 && CommitRule(chain).Some? {
      FinishSmaller(w, s, t, Decided(CommitRule(chain).value, qc));
    } else {
      MoveSmaller(t, s, w, qc, []);
    }
  }

  lemma QCSmaller(w: World, s: Peer, qc: QC)
    requires Light3(w, s) && s.todo != [] && s.todo[0] == RunQC(qc)
    ensures var t := OnQC(s.(todo := s.todo[1..]), qc); t.halted || Smaller(t, s)
  {
    hide Light3, Smaller, Extends, CommitRule, Finish, GetVertex, Known, Placed, Ordered, Threaded;
    GiveUp(s);
    KeepQC(s, qc, qc.blockId);
    if qc.view >= s.pm.curView && Held(s, qc.blockId) && (qc.leader == s.id || qc.valid) {
      LightThreaded(w, s);
      HeldPlaced(s.chain.forest, w, qc.blockId);
      var b := GetVertex(s.chain.forest, qc.blockId).value;
      KeepQC(s, qc, b.prevId);
      if Notarize(s.notarized, b).Appended? {
        AppendSmaller(w, s, b, qc);
      }
    }
  }

  lemma TrySmaller(s: Peer, id: Id)
    requires s.todo != []
    ensures s.todo[0] == TryQC(id) && id in s.bufferedQCs
            ==> Smaller(s.(todo := [RunQC(s.bufferedQCs[id])] + s.todo[1..]), s)
    ensures s.todo[0] == TryBlock(id) && id in s.bufferedBlocks
            ==> Smaller(s.(todo := [RunBlock(s.bufferedBlocks[id])] + s.todo[1..]), s)
  {
    hide Smaller;
    var rest := s.todo[1..];
    if s.todo[0] == TryQC(id) && id in s.bufferedQCs {
      var more := [RunQC(s.bufferedQCs[id])];
      assert s.bufferedQCs[id] in s.bufferedQCs.Values;
      KeepShrinks(s.(todo := more + rest), s, more);
    }
    if s.todo[0] == TryBlock(id) && id in s.bufferedBlocks {
      var more := [RunBlock(s.bufferedBlocks[id])];
      assert s.bufferedBlocks[id] in s.bufferedBlocks.Values;
      KeepShrinks(s.(todo := more + rest), s, more);
    }
  }

  lemma TwoTasks(x: Task, y: Task)
    ensures VoteTasks([x, y]) == (if x.RunVote? then 1 else 0) + (if y.RunVote? then 1 else 0)
    ensures Weights([x, y]) == Weight(x) + Weight(y)
  {
    assert [x, y][1..] == [y] && [y][1..] == [];
    assert VoteTasks([y]) == (if y.RunVote? then 1 else 0) + VoteTasks([]);
    assert Weights([y]) == Weight(y) + Weights([]);
  }

  lemma TakeSmaller(s: Peer, id: Id)
    requires s.todo != []
    ensures s.todo[0] == TakeBlock(id) && id in s.bufferedBlocks
            ==> Smaller(s.(todo := [RunBlock(s.bufferedBlocks[id]), DropBlock(id)] + s.todo[1..]), s)
    ensures s.todo[0] == TakeNotarized(id) && id in s.bufferedNotarized
            ==> var qc := s.bufferedNotarized[id]; Smaller(s.(todo := [RunQC(qc), DropQC(qc.blockId)] + s.todo[1..]), s)
  {
    hide Smaller;
    var rest := s.todo[1..];
    if s.todo[0] == TakeBlock(id) && id in s.bufferedBlocks {
      var more := [RunBlock(s.bufferedBlocks[id]), DropBlock(id)];
      assert s.bufferedBlocks[id] in s.bufferedBlocks.Values;
      TwoTasks(more[0], more[1]);
      KeepShrinks(s.(todo := more + rest), s, more);
    }
    if s.todo[0] == TakeNotarized(id) && id in s.bufferedNotarized {
      var qc := s.bufferedNotarized[id];
      var more := [RunQC(qc), DropQC(qc.blockId)];
      assert qc in s.bufferedNotarized.Values;
      TwoTasks(more[0], more[1]);
      KeepShrinks(s.(todo := more + rest), s, more);
    }
  }

  lemma DropSmaller(s: Peer, id: Id)
    requires s.todo != []
    ensures Smaller(s.(todo := s.todo[1..], bufferedBlocks := s.bufferedBlocks - {id}), s)
    ensures Smaller(s.(todo := s.todo[1..], bufferedQCs := s.bufferedQCs - {id}), s)
  {
    hide Smaller;
    DropValue(s.bufferedBlocks, id);
    DropValue(s.bufferedQCs, id);
    assert [] + s.todo[1..] == s.todo[1..];
    KeepShrinks(s.(todo := s.todo[1..], bufferedBlocks := s.bufferedBlocks - {id}), s, []);
    KeepShrinks(s.(todo := s.todo[1..], bufferedQCs := s.bufferedQCs - {id}), s, []);
  }

  lemma BufferTask(s: Peer)
    requires s.todo != [] && !s.todo[0].RunBlock? && !s.todo[0].RunVote? && !s.todo[0].RunQC?
    ensures Smaller(Do(s.(todo := s.todo[1..]), s.todo[0]), s)
  {
    GiveUp(s);
    var t := s.todo[0];
    hide Smaller;
    if t.TryQC? || t.TryBlock? {
      TrySmaller(s, t.id);
    } else if t.TakeBlock? || t.TakeNotarized? {
      TakeSmaller(s, t.id);
    } else {
      DropSmaller(s, t.id);
    }
  }

  /** Every task makes what is left to do smaller. */
  lemma TaskSmaller(w: World, s: Peer)
    requires Light3(w, s) && !s.halted && s.todo != []
    ensures var t := Perform(s, Continue); t.halted || Smaller(t, s)
  {
    hide Light3, Smaller, OnBlock, OnVote, OnQC;
    var t := s.todo[0];
    if t.RunBlock? {
      BlockSmaller(w, s, t.block);
    } else if t.RunVote? {
      VoteSmaller(s, t.vote);
    } else if t.RunQC? {
      QCSmaller(w, s, t.qc);
    } else {
      BufferTask(s);
    }
  }

  // ---------------------------------------------------------------- whole calls

  /** `more` goes on with tasks at `r` only. */
  ghost predicate GoesOn(evs: seq<PeerEvent>, more: seq<PeerEvent>, r: Node) {
    evs <= more && forall i :: |evs| <= i < |more| ==> more[i] == PeerEvent(r, Continue)
  }

  /** One more task at a replica that has some. */
  lemma NextTaskAt(c: Setup, evs: seq<PeerEvent>, r: Node)
    requires Proper3(c)
    requires r in Run3(c, evs) && !Run3(c, evs)[r].halted && Run3(c, evs)[r].todo != []
    ensures var g, h := Run3(c, evs), Run3(c, evs + [PeerEvent(r, Continue)]);
            r in h && (h[r].halted || Smaller(h[r], g[r]))
  {
    hide Smaller, Perform, Light3;
    RunLight3(c, evs);
    TaskSmaller(c.w, Run3(c, evs)[r]);
    assert (evs + [PeerEvent(r, Continue)])[..|evs|] == evs;
  }

  lemma {:induction false} Drain(c: Setup, evs: seq<PeerEvent>, r: Node, a: nat, v: nat, b: nat, w: nat)
    returns (more: seq<PeerEvent>)
    requires Proper3(c) && r in Run3(c, evs)
    requires var s := Run3(c, evs)[r];
             a == |Storable(s)| && v == VoteTasks(s.todo) && b == |Current(s)| && w == Weights(s.todo)
    ensures GoesOn(evs, more, r) && r in Run3(c, more)
    ensures Run3(c, more)[r].halted || Run3(c, more)[r].todo == []
    decreases a, v, b, w
  {
    hide Storable, Current, VoteTasks, Weights, Run3, Proper3;
    var s := Run3(c, evs)[r];
    if s.halted || s.todo == [] {
      more := evs;
    } else {
      var next := evs + [PeerEvent(r, Continue)];
      NextTaskAt(c, evs, r);
      var t := Run3(c, next)[r];
      if t.halted {
        more := next;
      } else {
        more := Drain(c, next, r, |Storable(t)|, VoteTasks(t.todo), |Current(t)|, Weights(t.todo));
        OneFurther(evs, more, r);
      }
    }
  }

  lemma OneFurther(evs: seq<PeerEvent>, more: seq<PeerEvent>, r: Node)
    requires GoesOn(evs + [PeerEvent(r, Continue)], more, r)
    ensures GoesOn(evs, more, r)
  {
    var next := evs + [PeerEvent(r, Continue)];
    assert more[|evs|] == next[|evs|];
  }

  /** Every call returns, whatever was delivered before: from every state that a run reaches, a replica that goes on
      with its tasks comes to the end of them or to a panic. */
  lemma CallsReturn(c: Setup, evs: seq<PeerEvent>, r: Node) returns (more: seq<PeerEvent>)
    requires Proper3(c) && r in Nodes(c.n) - c.faulty
    ensures GoesOn(evs, more, r) && r in Run3(c, more)
    ensures Run3(c, more)[r].halted || Run3(c, more)[r].todo == []
  {
    RunLight3(c, evs);
    hide Storable, Current, VoteTasks, Weights, Run3, Light3, GoesOn;
    var s := Run3(c, evs)[r];
    more := Drain(c, evs, r, |Storable(s)|, VoteTasks(s.todo), |Current(s)|, Weights(s.todo));
  }
}
