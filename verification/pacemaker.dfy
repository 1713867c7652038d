/** Views and timeouts: pacemaker/pacemaker.go. */
module Pacemakers {
  import opened Types
  import opened Tally
  import opened Timeouts

  /** `entered` lists the views sent to the event loop, oldest first. */
  datatype Pm = Pm(n: nat, curView: View, entered: seq<View>, timeouts: Tmos)

  function Advance(p: Pm, view: View): Pm {
    if view < p.curView then p else p.(curView := view + 1, entered := p.entered + [view + 1])
  }

  /** The pacemaker after a timeout message, and the view of the timeout certificate if one is built. */
  function AddTimeout(p: Pm, tmo: Tmo): (Pm, Option<View>) {
    if tmo.view < p.curView then (p, None)
    else (p.(timeouts := Record(p.n, p.timeouts, Sent(tmo))),
          if Fires(p.n, p.timeouts, Sent(tmo)) then Some(tmo.view) else None)
  }

  ghost predicate Ascending(s: seq<int>) {
    forall i, j :: 0 <= i < j < |s| ==> s[i] < s[j]
  }

  /** The views entered so far rise strictly and end with the current one. */
  ghost predicate Rises(p: Pm) {
    && Ascending(p.entered)
    && (if p.entered == [] then p.curView == 0 else p.curView == p.entered[|p.entered| - 1])
    && forall i :: 0 <= i < |p.entered| ==> 0 < p.entered[i] <= p.curView
  }

  class Pacemaker {
    var curView: View
    var entered: seq<View>
    const timeoutController: TimeoutController

    ghost function Model(): Pm
      reads this, timeoutController
    {
      Pm(timeoutController.n, curView, entered, timeoutController.timeouts)
    }

    constructor (n: nat)
      ensures fresh(timeoutController) && Model() == Pm(n, 0, [], map[]) && Rises(Model())
    {
      curView, entered := 0, [];
      timeoutController := new TimeoutController(n);
    }

    method AdvanceView(view: View)
      modifies this
      ensures Model() == Advance(old(Model()), view)
      ensures old(Rises(Model())) ==> Rises(Model())
    {
      if view < curView { return; }
      curView := view + 1;
      entered := entered + [view + 1];
    }

    method ProcessRemoteTmo(tmo: Tmo) returns (tc: Option<View>)
      modifies timeoutController
      ensures (Model(), tc) == AddTimeout(old(Model()), tmo)
    {
      if tmo.view < curView { return None; }
      tc := timeoutController.AddTmo(tmo);
    }
  }
}

/** Leader rotation: election/rotation.go. SHA-1 is any function from the number hashed to a 64-bit word. */
module Rotation {
  import opened Types

  const TWO_TO_64: int := 0x1_0000_0000_0000_0000

  type Hash = int -> nat

  function ToUint64(x: int): int {
    if x < 0 then x + TWO_TO_64 else x
  }

  predicate IsLeader(hash: Hash, peerNo: nat, id: Node, view: View)
    requires peerNo > 0
  {
    if view <= 3 then !(id < peerNo) else hash(view + 1) % peerNo == ToUint64(id - 1)
  }

  function FindLeaderFor(hash: Hash, peerNo: nat, view: View): Node
    requires peerNo > 0
  {
    if view <= 3 then peerNo else hash(view + 1) % peerNo + 1
  }

  /** The two functions agree on one leader among the ids 1..n; an id above n also passes the test in views
      up to 3. */
  lemma LeaderIsUnique(hash: Hash, peerNo: nat, id: Node, view: View)
    requires 0 < peerNo < TWO_TO_64 && 0 <= id < TWO_TO_64
    ensures 1 <= FindLeaderFor(hash, peerNo, view) <= peerNo
    ensures IsLeader(hash, peerNo, id, view)
            <==> id == FindLeaderFor(hash, peerNo, view) || (view <= 3 && id > peerNo)
  {
  }
}

/** From a new-view event to a proposal: replica/replica.go. */
module Proposals {
  import opened Types
  import opened Pacemakers
  import Rotation

  /** The views in which `id` proposes, given the views it is told to enter. */
  ghost function Proposed(hash: Rotation.Hash, n: nat, id: Node, entered: seq<View>): seq<View>
    requires n > 0
  {
    if entered == [] then []
    else
      var v := entered[|entered| - 1];
      Proposed(hash, n, id, entered[..|entered| - 1]) + if Rotation.IsLeader(hash, n, id, v) then [v] else []
  }

  /** A replica: the event loop takes new-view events from the pacemaker in order. */
  class Replica {
    const id: Node
    const n: nat
    const hash: Rotation.Hash
    const pm: Pacemaker
    var handled: nat
    var proposed: seq<View>

    ghost predicate Valid()
      reads this, pm, pm.timeoutController
    {
      && n > 0 && Rises(pm.Model()) && handled <= |pm.entered|
      && proposed == Proposed(hash, n, id, pm.entered[..handled])
    }

    constructor (id: Node, n: nat, hash: Rotation.Hash)
      requires n > 0
      ensures Valid() && fresh(pm) && this.id == id && this.n == n && this.hash == hash && proposed == []
    {
      this.id, this.n, this.hash, handled, proposed := id, n, hash, 0, [];
      pm := new Pacemaker(n);
    }

    /** Any handler may move the view on. */
    method Enter(view: View)
      requires Valid()
      modifies pm
      ensures Valid() && pm.Model() == Advance(old(pm.Model()), view)
    {
      ghost var before := pm.entered;
      pm.AdvanceView(view);
      assert pm.entered[..handled] == before[..handled];
    }

    /** The first transaction of a client makes the first leader start view 1. */
    method HandleTxn()
      requires Valid()
      modifies pm
      ensures Valid()
      ensures pm.Model() == if old(pm.curView) == 0 && Rotation.IsLeader(hash, n, id, 1)
                            then Advance(old(pm.Model()), 0) else old(pm.Model())
    {
      if pm.curView == 0 && Rotation.IsLeader(hash, n, id, 1) {
        Enter(0);
      }
    }

    method ProcessNewView()
      requires Valid() && handled < |pm.entered|
      modifies this
      ensures Valid() && handled == old(handled) + 1
      ensures proposed == old(proposed)
                + if Rotation.IsLeader(hash, n, id, pm.entered[old(handled)]) then [pm.entered[old(handled)]] else []
    {
      var newView := pm.entered[handled];
      assert pm.entered[..handled + 1][..handled] == pm.entered[..handled];
      handled := handled + 1;
      if !Rotation.IsLeader(hash, n, id, newView) { return; }
      proposed := proposed + [newView];
    }
  }

  lemma {:induction false} ProposedRises(hash: Rotation.Hash, n: nat, id: Node, entered: seq<View>)
    requires n > 0 && Ascending(entered)
    ensures Ascending(Proposed(hash, n, id, entered))
    ensures forall v :: v in Proposed(hash, n, id, entered) ==> v in entered && Rotation.IsLeader(hash, n, id, v)
  {
    if entered != [] {
      var m := |entered| - 1;
      ProposedRises(hash, n, id, entered[..m]);
      var before := Proposed(hash, n, id, entered[..m]);
      forall i | 0 <= i < |before| ensures before[i] < entered[m] {
        assert before[i] in entered[..m];
      }
    }
  }

  /** Replicas that run this code propose at most one block per view: one replica never proposes twice in a view,
      and two different ones never propose in the same view. */
  lemma OneProposalPerView(r: Replica, s: Replica, i: nat, j: nat)
    requires r.Valid() && s.Valid() && r.n == s.n && r.hash == s.hash
    requires r.n < Rotation.TWO_TO_64 && 1 <= r.id <= r.n && 1 <= s.id <= s.n
    requires i < |r.proposed| && j < |s.proposed| && r.proposed[i] == s.proposed[j]
    ensures r.id == s.id
    ensures r == s ==> i == j
  {
    ProposedRises(r.hash, r.n, r.id, r.pm.entered[..r.handled]);
    ProposedRises(s.hash, s.n, s.id, s.pm.entered[..s.handled]);
    var v := r.proposed[i];
    assert v in r.proposed && v in s.proposed;
    Rotation.LeaderIsUnique(r.hash, r.n, r.id, v);
    Rotation.LeaderIsUnique(s.hash, s.n, s.id, v);
  }
}
