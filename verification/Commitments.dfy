/** Commitment collection (core/commit.go:106-219): the acceptor that checks each replica's commitments
    for sequence, and the compact counter that decides when a proposal has been committed by enough
    replicas.

    `Accept` and `Count` are the two closures as functions of their captured variables; the classes are
    the same code updating maps and an array in place.  The compact counter keeps only commitCertSize-1
    numbers; the results below relate it to counting distinct replicas. */
module Commitments {

  /** Reading a Go map of counters: a missing key reads as zero. */
  function Get(m: map<nat, nat>, k: nat): nat {
    if k in m then m[k] else 0
  }

  datatype Acceptor = Acceptor(views: map<nat, nat>, primaryCVs: map<nat, nat>, replicaCVs: map<nat, nat>)

  datatype Counter = Counter(lastView: nat, highest: seq<nat>)

  /** One commitment: the parameters of commitmentAcceptor. */
  datatype Commitment = Commitment(replica: nat, newView: bool, view: nat, primaryCV: nat, replicaCV: nat)

  predicate Acceptable(a: Acceptor, e: Commitment) {
    if e.newView then
      e.view > Get(a.views, e.replica)
    else
      && e.view == Get(a.views, e.replica)
      && e.primaryCV == Get(a.primaryCVs, e.replica) + 1
      && e.replicaCV == Get(a.replicaCVs, e.replica) + 1
  }

  /** The acceptor's state after an accepted commitment; a refused one changes nothing. */
  function Accept(a: Acceptor, e: Commitment): Acceptor {
    if !Acceptable(a, e) then a
    else
      Acceptor(if e.newView then a.views[e.replica := e.view] else a.views,
               a.primaryCVs[e.replica := e.primaryCV],
               a.replicaCVs[e.replica := e.replicaCV])
  }

  function Zeros(k: nat): (z: seq<nat>)
    ensures |z| == k && forall i :: 0 <= i < k ==> z[i] == 0
  {
    seq(k, _ => 0)
  }

  /** Index of the first element below x, or the length. */
  function FirstBelow(h: seq<nat>, x: nat): (i: nat)
    ensures i <= |h|
    ensures forall j :: 0 <= j < i ==> h[j] >= x
    ensures i < |h| ==> h[i] < x
  {
    if h == [] || h[0] < x then 0 else 1 + FirstBelow(h[1..], x)
  }

  /** The counter's view of `view`: cleared when it is newer than the last one. */
  function Enter(c: Counter, view: nat): Counter {
    if view > c.lastView then Counter(view, Zeros(|c.highest|)) else c
  }

  function Count(c: Counter, view: nat, primaryCV: nat): Counter {
    if view < c.lastView then c
    else
      var c1 := Enter(c, view);
      var i := FirstBelow(c1.highest, primaryCV);
      if i < |c1.highest| then c1.(highest := c1.highest[i := primaryCV]) else c1
  }

  predicate CountDone(c: Counter, view: nat, primaryCV: nat) {
    view >= c.lastView && FirstBelow(Enter(c, view).highest, primaryCV) == |c.highest|
  }

  // ---------- The source's in-place form ----------

  /** makeCommitmentAcceptor. */
  class CommitmentAcceptor {
    var replicaViews: map<nat, nat>
    var lastPrimaryCVs: map<nat, nat>
    var lastReplicaCVs: map<nat, nat>

    function Model(): Acceptor
      reads this
    {
      Acceptor(replicaViews, lastPrimaryCVs, lastReplicaCVs)
    }

    constructor ()
      ensures Model() == Acceptor(map[], map[], map[])
    {
      replicaViews, lastPrimaryCVs, lastReplicaCVs := map[], map[], map[];
    }

    method AcceptCommitment(replicaID: nat, newView: bool, view: nat, primaryCV: nat, replicaCV: nat)
      returns (ok: bool)
      modifies this
      ensures ok == Acceptable(old(Model()), Commitment(replicaID, newView, view, primaryCV, replicaCV))
      ensures Model() == Accept(old(Model()), Commitment(replicaID, newView, view, primaryCV, replicaCV))
    {
      if newView {
        if view <= Get(replicaViews, replicaID) {
          return false;
        }
        replicaViews := replicaViews[replicaID := view];
      } else {
        if view != Get(replicaViews, replicaID) {
          return false;
        }
        if primaryCV != Get(lastPrimaryCVs, replicaID) + 1 {
          return false;
        }
        if replicaCV != Get(lastReplicaCVs, replicaID) + 1 {
          return false;
        }
      }
      lastPrimaryCVs := lastPrimaryCVs[replicaID := primaryCV];
      lastReplicaCVs := lastReplicaCVs[replicaID := replicaCV];
      ok := true;
    }
  }

  /** makeCommitmentCounter: `highest` is an array updated in place and reallocated in a newer view. */
  class CommitmentCounter {
    var lastView: nat
    var highest: array<nat>

    function Model(): Counter
      reads this, highest
    {
      Counter(lastView, highest[..])
    }

    constructor (commitCertSize: nat)
      requires commitCertSize >= 1
      ensures fresh(highest)
      ensures Model() == Counter(0, Zeros(commitCertSize - 1))
    {
      lastView := 0;
      highest := new nat[commitCertSize - 1](_ => 0);
    }

    method CountCommitment(view: nat, primaryCV: nat) returns (done: bool)
      modifies this, highest
      ensures highest == old(highest) || fresh(highest)
      ensures done == CountDone(old(Model()), view, primaryCV)
      ensures Model() == Count(old(Model()), view, primaryCV)
    {
      ghost var before := Model();
      if view < lastView {
        return false;
      }
      if view > lastView {
        lastView := view;
        highest := new nat[highest.Length](_ => 0);
        assert highest[..] == Zeros(highest.Length);
      }
      ghost var entered := highest[..];
      assert entered == Enter(before, view).highest;
      var i := 0;
      while i < highest.Length
        invariant 0 <= i <= highest.Length
        invariant highest[..] == entered
        invariant forall j :: 0 <= j < i ==> entered[j] >= primaryCV
      {
        if primaryCV > highest[i] {
          highest[i] := primaryCV;
          assert highest[..] == entered[i := primaryCV];
          return false;
        }
        i := i + 1;
      }
      done := true;
    }
  }

  // ---------- The pair as a state machine ----------

  datatype Tally = Tally(acc: Acceptor, cnt: Counter)

  /** Nothing collected yet, for a commit certificate of the given size. */
  function Fresh(size: nat): Tally
    requires size >= 1
  {
    Tally(Acceptor(map[], map[], map[]), Counter(0, Zeros(size - 1)))
  }

  /** makeCommitmentCollector, up to the execution of the proposal. */
  function Collect(t: Tally, e: Commitment): Tally {
    if Acceptable(t.acc, e) then Tally(Accept(t.acc, e), Count(t.cnt, e.view, e.primaryCV)) else t
  }

  predicate Done(t: Tally, e: Commitment) {
    Acceptable(t.acc, e) && CountDone(t.cnt, e.view, e.primaryCV)
  }

  /** The last primary counter a replica has committed to in the latest view; zero if it is not there. */
  function Level(t: Tally, r: nat): nat {
    if Get(t.acc.views, r) == t.cnt.lastView then Get(t.acc.primaryCVs, r) else 0
  }

  /** Naive bookkeeping: the distinct replicas that have committed at least up to x in the latest view. */
  function Voters(t: Tally, x: nat): set<nat> {
    set r | r in t.acc.primaryCVs && Level(t, r) >= x
  }

  ghost predicate ViewsBounded(t: Tally) {
    forall r :: Get(t.acc.views, r) <= t.cnt.lastView
  }

  /** Every number the counter holds is vouched for by enough distinct replicas. */
  ghost predicate Sound(t: Tally) {
    && ViewsBounded(t)
    && forall i, x :: 0 <= i < |t.cnt.highest| && 1 <= x <= t.cnt.highest[i] ==> |Voters(t, x)| > i
  }

  /** The numbers are exactly the highest levels, in descending order. */
  ghost predicate Exact(t: Tally) {
    && ViewsBounded(t)
    && forall i, x :: 0 <= i < |t.cnt.highest| && x >= 1 ==> (t.cnt.highest[i] >= x <==> |Voters(t, x)| > i)
  }

  /** Replicas in the latest view are at or above its first proposal's counter; in view 0, which no
      NewView begins, they may not have committed yet. */
  ghost predicate FromFirst(t: Tally, first: nat) {
    forall r :: Get(t.acc.views, r) == t.cnt.lastView ==>
      Get(t.acc.primaryCVs, r) + (if t.cnt.lastView == 0 then 1 else 0) >= first
  }

  /** The commitment refers to the latest view once it has been collected. */
  predicate Latest(t: Tally, e: Commitment) {
    e.view >= t.cnt.lastView
  }

  /** What one accepted commitment does to the naive counts. */
  lemma LevelStep(t: Tally, e: Commitment, r: nat)
    requires ViewsBounded(t) && Acceptable(t.acc, e) && Latest(t, e)
    ensures Level(Collect(t, e), r) == if r == e.replica then e.primaryCV
                                       else if e.view > t.cnt.lastView then 0 else Level(t, r)
  {
    var t' := Collect(t, e);
    assert t'.cnt.lastView == e.view;
    if r != e.replica && e.view > t.cnt.lastView {
      assert Get(t.acc.views, r) <= t.cnt.lastView;
      assert Get(t'.acc.views, r) == Get(t.acc.views, r);
    }
  }

  /** The tally seen from the view of e: what a newer view forgets. */
  function Entered(t: Tally, e: Commitment): Tally {
    Tally(t.acc, Enter(t.cnt, e.view))
  }

  lemma EnteredExact(t: Tally, e: Commitment)
    requires Latest(t, e)
    ensures Exact(t) ==> Exact(Entered(t, e))
    ensures Sound(t) ==> Sound(Entered(t, e))
    ensures ViewsBounded(t) && e.view > t.cnt.lastView ==> forall x :: x >= 1 ==> Voters(Entered(t, e), x) == {}
  {
    if ViewsBounded(t) && e.view > t.cnt.lastView {
      var u := Entered(t, e);
      forall x | x >= 1
        ensures Voters(u, x) == {}
      {
        forall r | r in t.acc.primaryCVs
          ensures Level(u, r) < x
        {
          assert Get(t.acc.views, r) <= t.cnt.lastView;
        }
      }
      forall r
        ensures Get(u.acc.views, r) <= u.cnt.lastView
      {
        assert Get(t.acc.views, r) <= t.cnt.lastView;
      }
    }
  }

  lemma VotersStep(t: Tally, e: Commitment, x: nat)
    requires ViewsBounded(t) && Acceptable(t.acc, e) && Latest(t, e) && x >= 1
    ensures Voters(Collect(t, e), x)
         == if x <= e.primaryCV then Voters(Entered(t, e), x) + {e.replica} else Voters(Entered(t, e), x)
  {
    var t', u := Collect(t, e), Entered(t, e);
    forall r
      ensures r in Voters(t', x) <==> r in Voters(u, x) || (r == e.replica && x <= e.primaryCV)
    {
      LevelStep(t, e, r);
      assert Get(t.acc.views, r) <= t.cnt.lastView;
    }
  }

  lemma ViewsStep(t: Tally, e: Commitment)
    requires ViewsBounded(t)
    ensures ViewsBounded(Collect(t, e))
  {
    forall r
      ensures Get(Collect(t, e).acc.views, r) <= Collect(t, e).cnt.lastView
    {
      assert Get(t.acc.views, r) <= t.cnt.lastView;
    }
  }

  /** A commitment to a view older than the latest changes no count. */
  lemma StaleStep(t: Tally, e: Commitment, x: nat)
    requires ViewsBounded(t) && !Latest(t, e) && x >= 1
    ensures Collect(t, e).cnt == t.cnt
    ensures Voters(Collect(t, e), x) == Voters(t, x)
  {
    var t' := Collect(t, e);
    forall r
      ensures r in Voters(t', x) <==> r in Voters(t, x)
    {
      assert Level(t', r) == Level(t, r);
    }
  }

  lemma StaleKeeps(t: Tally, e: Commitment)
    requires !Latest(t, e)
    ensures Sound(t) ==> Sound(Collect(t, e))
    ensures Exact(t) ==> Exact(Collect(t, e))
  {
    if ViewsBounded(t) {
      ViewsStep(t, e);
      forall x | x >= 1
        ensures Voters(Collect(t, e), x) == Voters(t, x)
      {
        StaleStep(t, e, x);
      }
      assert Collect(t, e).cnt == t.cnt;
    }
  }

  // ---------- The counter never counts a replica twice ----------

  /** Soundness, for every interleaving and whatever counters the NewView commitments carry: `done` means
      that at least commitCertSize distinct replicas have committed up to the proposal. */
  lemma CollectSound(t: Tally, e: Commitment)
    requires Sound(t) && e.primaryCV >= 1
    ensures Sound(Collect(t, e))
    ensures Done(t, e) ==> |Voters(Collect(t, e), e.primaryCV)| >= |t.cnt.highest| + 1
  {
    if !Latest(t, e) {
      StaleKeeps(t, e);
    } else if Acceptable(t.acc, e) {
      var t', u := Collect(t, e), Entered(t, e);
      EnteredExact(t, e);
      ViewsStep(t, e);
      var i := FirstBelow(u.cnt.highest, e.primaryCV);
      if i > 0 {
        assert u.cnt.highest[i - 1] >= e.primaryCV;
      }
      assert |Voters(u, e.primaryCV)| >= i;
      NotYetVoterBelow(t, e, e.primaryCV);
      VotersStep(t, e, e.primaryCV);
      forall j, x | 0 <= j < |t'.cnt.highest| && 1 <= x <= t'.cnt.highest[j]
        ensures |Voters(t', x)| > j
      {
        VotersStep(t, e, x);
        if j == i {
          NotYetVoterBelow(t, e, x);
        } else {
          assert t'.cnt.highest[j] == u.cnt.highest[j];
          SubsetSize(Voters(u, x), Voters(t', x));
        }
      }
    }
  }

  lemma VotersAntitone(t: Tally, x: nat, y: nat)
    requires x <= y
    ensures Voters(t, y) <= Voters(t, x) && |Voters(t, y)| <= |Voters(t, x)|
  {
    SubsetSize(Voters(t, y), Voters(t, x));
  }

  lemma SubsetSize(a: set<nat>, b: set<nat>)
    requires a <= b
    ensures |a| <= |b|
  {
    assert b == a + (b - a);
  }

  /** The committing replica was below the proposal it now commits to. */
  lemma NotYetVoter(t: Tally, e: Commitment)
    requires ViewsBounded(t) && Acceptable(t.acc, e) && Latest(t, e) && e.primaryCV >= 1
    ensures e.replica !in Voters(Entered(t, e), e.primaryCV)
  {
    assert Get(t.acc.views, e.replica) <= t.cnt.lastView;
  }

  /** Adding the replica to the voters for x makes room for the slot it took. */
  lemma NotYetVoterBelow(t: Tally, e: Commitment, x: nat)
    requires ViewsBounded(t) && Acceptable(t.acc, e) && Latest(t, e) && 1 <= x <= e.primaryCV
    ensures |Voters(Entered(t, e), x) + {e.replica}| >= |Voters(Entered(t, e), e.primaryCV)| + 1
  {
    NotYetVoter(t, e);
    var u := Entered(t, e);
    VotersAntitone(u, x, e.primaryCV);
    SubsetSize(Voters(u, e.primaryCV) + {e.replica}, Voters(u, x) + {e.replica});
  }

  // ---------- The counter is exact when a view has one first proposal ----------

  /** The commitment fits a view whose first proposal has counter `first`. */
  ghost predicate Fits(t: Tally, e: Commitment, first: nat) {
    && first >= 1
    && e.primaryCV >= 1
    && (e.view == 0 ==> first == 1)
    && (e.newView ==> e.primaryCV == first)
    && FromFirst(Entered(t, e), first)
  }

  /** Between the replica's old level and its new one there is no other replica. */
  lemma NoGap(t: Tally, e: Commitment, first: nat, x: nat)
    requires ViewsBounded(t) && Acceptable(t.acc, e) && Latest(t, e) && Fits(t, e, first)
    requires 1 <= x <= e.primaryCV && e.replica !in Voters(Entered(t, e), x)
    ensures Voters(Entered(t, e), x) == Voters(Entered(t, e), e.primaryCV)
  {
    var u := Entered(t, e);
    assert Get(t.acc.views, e.replica) <= t.cnt.lastView;
    if e.newView {
      forall r | r in Voters(u, x)
        ensures r in Voters(u, e.primaryCV)
      {
        assert Get(u.acc.views, r) == u.cnt.lastView;
      }
    } else {
      assert Level(u, e.replica) == e.primaryCV - 1;
      assert x == e.primaryCV || e.replica !in u.acc.primaryCVs;
    }
    VotersAntitone(u, x, e.primaryCV);
  }

  /** Exactness: the compact numbers are the highest levels, so `done` holds if and only if at least
      commitCertSize distinct replicas have committed up to the proposal. */
  lemma CollectExact(t: Tally, e: Commitment, first: nat)
    requires Exact(t) && Latest(t, e) && Acceptable(t.acc, e) && Fits(t, e, first)
    ensures Exact(Collect(t, e))
    ensures FromFirst(Collect(t, e), first)
    ensures Done(t, e) <==> |Voters(Collect(t, e), e.primaryCV)| >= |t.cnt.highest| + 1
  {
    var t', u := Collect(t, e), Entered(t, e);
    EnteredExact(t, e);
    ViewsStep(t, e);
    FirstKept(t, e, first);
    NotYetVoter(t, e);
    VotersStep(t, e, e.primaryCV);
    SlotIndex(u, e.primaryCV);
    forall j, z | 0 <= j < |t'.cnt.highest| && z >= 1
      ensures t'.cnt.highest[j] >= z <==> |Voters(t', z)| > j
    {
      SlotExact(t, e, first, j, z);
    }
  }

  lemma FirstKept(t: Tally, e: Commitment, first: nat)
    requires ViewsBounded(t) && Latest(t, e) && Acceptable(t.acc, e) && Fits(t, e, first)
    ensures FromFirst(Collect(t, e), first)
  {
    var t', u := Collect(t, e), Entered(t, e);
    forall r | Get(t'.acc.views, r) == t'.cnt.lastView
      ensures Get(t'.acc.primaryCVs, r) + (if t'.cnt.lastView == 0 then 1 else 0) >= first
    {
      if r != e.replica {
        assert Get(u.acc.views, r) == u.cnt.lastView;
      } else if !e.newView {
        assert Get(t.acc.views, r) <= t.cnt.lastView;
        assert Get(u.acc.views, r) == u.cnt.lastView;
      }
    }
  }

  /** The slot the counter picks is the number of replicas already there, if there is such a slot. */
  lemma SlotIndex(u: Tally, x: nat)
    requires Exact(u) && x >= 1
    ensures var i := FirstBelow(u.cnt.highest, x);
            if |Voters(u, x)| < |u.cnt.highest| then i == |Voters(u, x)| else i == |u.cnt.highest|
  {
    var i := FirstBelow(u.cnt.highest, x);
    if i > 0 {
      assert u.cnt.highest[i - 1] >= x;
    }
    if i < |u.cnt.highest| {
      assert !(u.cnt.highest[i] >= x);
    }
  }

  lemma SlotExact(t: Tally, e: Commitment, first: nat, j: nat, z: nat)
    requires Exact(t) && Latest(t, e) && Acceptable(t.acc, e) && Fits(t, e, first)
    requires j < |Collect(t, e).cnt.highest| && z >= 1
    ensures Collect(t, e).cnt.highest[j] >= z <==> |Voters(Collect(t, e), z)| > j
  {
    var t', u := Collect(t, e), Entered(t, e);
    EnteredExact(t, e);
    SlotIndex(u, e.primaryCV);
    VotersStep(t, e, z);
    NotYetVoter(t, e);
    assert u.cnt.highest[j] >= z <==> |Voters(u, z)| > j;
    if z > e.primaryCV {
      VotersAntitone(u, e.primaryCV, z);
    } else {
      NotYetVoterBelow(t, e, z);
      if e.replica in Voters(u, z) {
        assert Voters(u, z) + {e.replica} == Voters(u, z);
      } else {
        NoGap(t, e, first, z);
      }
    }
  }

  /** In-order completion: a proposal that is done for the first time is either the first of its view or
      directly follows one that enough replicas had already committed to. */
  lemma DoneInOrder(t: Tally, e: Commitment, first: nat)
    requires Exact(t) && Latest(t, e) && Fits(t, e, first)
    requires Done(t, e) && |Voters(Entered(t, e), e.primaryCV)| < |t.cnt.highest| + 1
    ensures e.primaryCV == first
         || (e.primaryCV > first && |Voters(Entered(t, e), e.primaryCV - 1)| >= |t.cnt.highest| + 1)
  {
    var u := Entered(t, e);
    var x := e.primaryCV;
    assert Get(t.acc.views, e.replica) <= t.cnt.lastView;
    if x != first {
      assert Get(u.acc.views, e.replica) == u.cnt.lastView;
      CollectExact(t, e, first);
      VotersStep(t, e, x);
      assert e.replica in Voters(u, x - 1);
      VotersAntitone(u, x - 1, x);
      SubsetSize(Voters(u, x) + {e.replica}, Voters(u, x - 1));
    }
  }
}
