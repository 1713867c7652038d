/** Counting distinct senders per key: the logic that vote and timeout collection share. */
module Tally {
  import opened Types

  type Ledger<K, V> = map<K, map<Node, V>>

  datatype Entry<K, V> = Entry(key: K, node: Node, item: V)

  function Senders<K, V>(t: Ledger<K, V>, k: K): set<Node> {
    if k in t then t[k].Keys else {}
  }

  predicate SuperMajority<K, V>(n: nat, t: Ledger<K, V>, k: K) {
    |Senders(t, k)| > n * 2 / 3
  }

  /** The ledger after an entry arrives: nothing is recorded once the key has its super-majority. */
  function Record<K, V>(n: nat, t: Ledger<K, V>, e: Entry<K, V>): Ledger<K, V> {
    if SuperMajority(n, t, e.key) then t
    else t[e.key := (if e.key in t then t[e.key] else map[])[e.node := e.item]]
  }

  /** Whether the entry completes a certificate. */
  predicate Fires<K, V>(n: nat, t: Ledger<K, V>, e: Entry<K, V>) {
    !SuperMajority(n, t, e.key) && SuperMajority(n, Record(n, t, e), e.key)
  }

  ghost function RecordAll<K, V>(n: nat, t: Ledger<K, V>, es: seq<Entry<K, V>>): Ledger<K, V> {
    if es == [] then t else Record(n, RecordAll(n, t, es[..|es| - 1]), es[|es| - 1])
  }

  /** The distinct nodes that sent an entry for `k`. */
  ghost function Distinct<K, V>(es: seq<Entry<K, V>>, k: K): set<Node> {
    set i | 0 <= i < |es| && es[i].key == k :: es[i].node
  }

  lemma DistinctStep<K, V>(es: seq<Entry<K, V>>, e: Entry<K, V>, k: K)
    ensures Distinct(es + [e], k) == if e.key == k then Distinct(es, k) + {e.node} else Distinct(es, k)
  {
    var all := es + [e];
    forall x ensures x in Distinct(all, k) <==> x in Distinct(es, k) || (e.key == k && x == e.node) {
      if x in Distinct(es, k) {
        var i :| 0 <= i < |es| && es[i].key == k && es[i].node == x;
        assert all[i] == es[i];
      }
      if e.key == k && x == e.node {
        assert all[|es|] == e;
      }
    }
  }

  lemma SendersStep<K, V>(n: nat, t: Ledger<K, V>, e: Entry<K, V>, k: K)
    ensures Senders(Record(n, t, e), k)
         == if e.key == k && !SuperMajority(n, t, k) then Senders(t, k) + {e.node} else Senders(t, k)
  {
  }

  /** What the ledger holds for a key, given the distinct senders: all of them below the threshold, and from
      the threshold on a frozen selection of them. */
  ghost predicate Tracks(q: nat, held: set<Node>, distinct: set<Node>) {
    if |distinct| <= q then held == distinct else held <= distinct && |held| == q + 1
  }

  lemma TracksStep(q: nat, held: set<Node>, distinct: set<Node>, x: Node)
    requires Tracks(q, held, distinct)
    ensures Tracks(q, if |held| > q then held else held + {x}, distinct + {x})
  {
    if x in distinct {
      assert distinct + {x} == distinct;
    }
  }

  lemma {:induction false} LedgerIsDistinct<K, V>(n: nat, t: Ledger<K, V>, es: seq<Entry<K, V>>, k: K)
    requires k !in t
    ensures Tracks(n * 2 / 3, Senders(RecordAll(n, t, es), k), Distinct(es, k))
  {
    if es != [] {
      var m := |es| - 1;
      LedgerIsDistinct(n, t, es[..m], k);
      assert es == es[..m] + [es[m]];
      DistinctStep(es[..m], es[m], k);
      var before := RecordAll(n, t, es[..m]);
      SendersStep(n, before, es[m], k);
      if es[m].key == k {
        TracksStep(n * 2 / 3, Senders(before, k), Distinct(es[..m], k), es[m].node);
      }
    }
  }

  /** Entry `i` completes the certificate exactly when its sender is the one that lifts the number of distinct
      senders to floor(2n/3) + 1, and then the ledger names exactly those senders. */
  lemma {:induction false} FiresAtThreshold<K, V>(n: nat, t: Ledger<K, V>, es: seq<Entry<K, V>>, i: nat)
    requires i < |es| && es[i].key !in t
    ensures var k := es[i].key;
            Fires(n, RecordAll(n, t, es[..i]), es[i])
            <==> |Distinct(es[..i], k)| == n * 2 / 3 && |Distinct(es[..i + 1], k)| == n * 2 / 3 + 1
    ensures Fires(n, RecordAll(n, t, es[..i]), es[i])
            ==> Senders(RecordAll(n, t, es[..i + 1]), es[i].key) == Distinct(es[..i + 1], es[i].key)
  {
    var k := es[i].key;
    LedgerIsDistinct(n, t, es[..i], k);
    SendersStep(n, RecordAll(n, t, es[..i]), es[i], k);
    assert es[..i + 1] == es[..i] + [es[i]];
    DistinctStep(es[..i], es[i], k);
    assert es[..i + 1][..i] == es[..i];
  }

  /** How many of the entries for `k` complete a certificate. */
  ghost function FireCount<K, V>(n: nat, t: Ledger<K, V>, es: seq<Entry<K, V>>, k: K): nat {
    if es == [] then 0
    else
      var m := |es| - 1;
      FireCount(n, t, es[..m], k)
      + if es[m].key == k && Fires(n, RecordAll(n, t, es[..m]), es[m]) then 1 else 0
  }

  /** Over any sequence of entries a key gets one certificate if floor(2n/3) + 1 distinct nodes sent one,
      and none otherwise. */
  lemma {:induction false} CertificateFormsOnce<K, V>(n: nat, t: Ledger<K, V>, es: seq<Entry<K, V>>, k: K)
    requires k !in t
    ensures FireCount(n, t, es, k) == if |Distinct(es, k)| > n * 2 / 3 then 1 else 0
  {
    if es != [] {
      var m := |es| - 1;
      CertificateFormsOnce(n, t, es[..m], k);
      assert es == es[..m] + [es[m]];
      DistinctStep(es[..m], es[m], k);
      if es[m].key == k {
        FiresAtThreshold(n, t, es, m);
        assert es[..m + 1] == es;
        GrowByOne(Distinct(es[..m], k), es[m].node);
      }
    }
  }

  lemma GrowByOne<T>(s: set<T>, x: T)
    ensures |s| <= |s + {x}| <= |s| + 1
  {
    if x in s {
      assert s + {x} == s;
    }
  }

  /** The replicas are numbered from 1 to n. */
  ghost function Nodes(n: nat): (all: set<Node>)
    ensures forall i: Node :: i in all <==> 1 <= i <= n
    ensures |all| == n
  {
    if n == 0 then {} else Nodes(n - 1) + {n}
  }

  lemma Pick<T>(s: set<T>) returns (x: T)
    requires s != {}
    ensures x in s
  {
    x :| x in s;
  }

  lemma SubsetSize<T>(a: set<T>, b: set<T>)
    requires a <= b
    ensures |a| <= |b|
  {
    assert b == a + (b - a);
  }

  /** Two sender sets that both pass the super-majority test share more members than there are faulty ones. */
  lemma QuorumIntersection(n: nat, f: nat, a: set<Node>, b: set<Node>)
    requires 3 * f < n
    requires a <= Nodes(n) && b <= Nodes(n)
    requires |a| > n * 2 / 3 && |b| > n * 2 / 3
    ensures |a * b| >= f + 1
  {
    SubsetSize(a + b, Nodes(n));
    assert |a + b| + |a * b| == |a| + |b|;
  }

  /** The replicas that are not faulty can always pass the test by themselves. */
  lemma HonestQuorum(n: nat, faulty: set<Node>)
    requires faulty <= Nodes(n) && 3 * |faulty| < n
    ensures |Nodes(n) - faulty| > n * 2 / 3
  {
    assert Nodes(n) == faulty + (Nodes(n) - faulty);
  }

  /** Two super-majorities have a member in common that is not faulty. */
  lemma HonestWitness(n: nat, faulty: set<Node>, a: set<Node>, b: set<Node>) returns (r: Node)
    requires faulty <= Nodes(n) && 3 * |faulty| < n
    requires a <= Nodes(n) && b <= Nodes(n)
    requires |a| > n * 2 / 3 && |b| > n * 2 / 3
    ensures r in a && r in b && r !in faulty
  {
    QuorumIntersection(n, |faulty|, a, b);
    if a * b <= faulty {
      SubsetSize(a * b, faulty);
    }
    r :| r in a * b && r !in faulty;
  }
}

/** Vote collection: blockchain/quorum.go. */
module Quorums {
  import opened Types
  import opened Tally

  type Votes = Ledger<Id, Vote>

  function Cast(vote: Vote): Entry<Id, Vote> {
    Entry(vote.blockId, vote.voter, vote)
  }

  /** The certificate built when `last` completes the super-majority: the view is that of the last vote. */
  function BuildQC(votes: Votes, last: Vote): QC
    requires last.blockId in votes
  {
    var vs := votes[last.blockId];
    QC(0, last.view, last.blockId, vs.Keys, forall x | x in vs :: vs[x].valid)
  }

  /** The result of adding a vote. */
  function Built(n: nat, votes: Votes, vote: Vote): Option<QC> {
    if Fires(n, votes, Cast(vote)) then Some(BuildQC(Record(n, votes, Cast(vote)), vote)) else None
  }

  class Quorum {
    const total: nat
    var votes: Votes

    constructor (total: nat)
      ensures this.total == total && votes == map[]
    {
      this.total := total;
      votes := map[];
    }

    predicate IsSuperMajority(blockId: Id)
      reads this
    {
      Size(blockId) > total * 2 / 3
    }

    function Size(blockId: Id): nat
      reads this
    {
      if blockId in votes then |votes[blockId]| else 0
    }

    /** Lists the signers of a block; the order is whatever the map iteration gives. */
    method GetSigs(blockId: Id) returns (signers: seq<Node>, valid: bool, found: bool)
      ensures found <==> blockId in votes
      ensures found ==> multiset(signers) == multiset(votes[blockId].Keys)
      ensures found ==> (valid <==> forall x | x in votes[blockId] :: votes[blockId][x].valid)
    {
      signers, valid, found := [], true, blockId in votes;
      if !found { return; }
      var vs := votes[blockId];
      var rest := vs.Keys;
      while rest != {}
        invariant rest <= vs.Keys
        invariant multiset(signers) == multiset(vs.Keys - rest)
        invariant valid <==> forall x | x in vs.Keys - rest :: vs[x].valid
        decreases rest
      {
        ghost var some := Pick(rest);
        var x :| x in rest;
        signers := signers + [x];
        valid := valid && vs[x].valid;
        assert vs.Keys - (rest - {x}) == (vs.Keys - rest) + {x};
        rest := rest - {x};
      }
      assert vs.Keys - rest == vs.Keys;
    }

    method Add(vote: Vote) returns (qc: Option<QC>)
      modifies this
      ensures votes == Record(total, old(votes), Cast(vote))
      ensures qc == Built(total, old(votes), vote)
    {
      qc := None;
      if IsSuperMajority(vote.blockId) { return; }
      if vote.blockId !in votes {
        votes := votes[vote.blockId := map[]];
      }
      votes := votes[vote.blockId := votes[vote.blockId][vote.voter := vote]];
      if IsSuperMajority(vote.blockId) {
        var signers, valid, _ := GetSigs(vote.blockId);
        var signerSet := set x | x in signers;
        assert forall x :: x in signers <==> x in multiset(signers);
        assert signerSet == votes[vote.blockId].Keys;
        qc := Some(QC(0, vote.view, vote.blockId, signerSet, valid));
      }
    }
  }
}

/** Timeout collection: pacemaker/timeoutController.go. */
module Timeouts {
  import opened Types
  import opened Tally

  type Tmos = Ledger<View, Tmo>

  function Sent(tmo: Tmo): Entry<View, Tmo> {
    Entry(tmo.view, tmo.node, tmo)
  }

  class TimeoutController {
    const n: nat
    var timeouts: Tmos

    constructor (n: nat)
      ensures this.n == n && timeouts == map[]
    {
      this.n := n;
      timeouts := map[];
    }

    function Total(view: View): nat
      reads this
    {
      if view in timeouts then |timeouts[view]| else 0
    }

    /** `tc` is the view of the timeout certificate when one is built. */
    method AddTmo(tmo: Tmo) returns (tc: Option<View>)
      modifies this
      ensures timeouts == Record(n, old(timeouts), Sent(tmo))
      ensures tc == if Fires(n, old(timeouts), Sent(tmo)) then Some(tmo.view) else None
    {
      tc := None;
      if Total(tmo.view) > n * 2 / 3 { return; }
      if tmo.view !in timeouts {
        timeouts := timeouts[tmo.view := map[]];
      }
      timeouts := timeouts[tmo.view := timeouts[tmo.view][tmo.node := tmo]];
      if Total(tmo.view) > n * 2 / 3 {
        tc := Some(tmo.view);
      }
    }
  }
}
