/** Commitment collection over whole runs: any interleaving of the replicas' commitment streams. */
module CommitmentRuns {
  import opened Commitments

  function TallyAfter(size: nat, es: seq<Commitment>): Tally
    requires size >= 1
  {
    if es == [] then Fresh(size) else Collect(TallyAfter(size, es[..|es| - 1]), es[|es| - 1])
  }

  /** The proposals (view, primary counter) in the order in which they are done for the first time: the
      order in which they are executed. */
  function Executed(size: nat, es: seq<Commitment>): seq<(nat, nat)>
    requires size >= 1
  {
    if es == [] then []
    else
      var before := es[..|es| - 1];
      Appended(TallyAfter(size, before), Executed(size, before), es[|es| - 1])
  }

  /** Counters are positive, and all NewView commitments of a view refer to one NewView message. */
  ghost predicate OneNewView(es: seq<Commitment>, first: nat -> nat) {
    && first(0) == 1
    && (forall v :: first(v) >= 1)
    && (forall k :: 0 <= k < |es| ==> es[k].primaryCV >= 1 && (es[k].newView ==> es[k].primaryCV == first(es[k].view)))
  }

  ghost predicate RunOk(size: nat, t: Tally, list: seq<(nat, nat)>, first: nat -> nat) {
    && |t.cnt.highest| + 1 == size
    && Exact(t) && FromFirst(t, first(t.cnt.lastView))
    && (forall k :: 0 <= k < |list| ==> list[k].0 <= t.cnt.lastView)
    && (forall x :: x >= first(t.cnt.lastView) ==>
          ((t.cnt.lastView, x) in list <==> |Voters(t, x)| >= size))
  }

  lemma FreshOk(size: nat, first: nat -> nat)
    requires size >= 1 && first(0) == 1
    ensures RunOk(size, Fresh(size), [], first)
  {
    forall x | x >= 1
      ensures Voters(Fresh(size), x) == {}
    {
    }
  }

  lemma FitsRun(size: nat, t: Tally, list: seq<(nat, nat)>, first: nat -> nat, e: Commitment)
    requires RunOk(size, t, list, first) && OneNewView([e], first) && Latest(t, e)
    ensures Fits(t, e, first(e.view))
  {
    assert [e][0] == e;
    if e.view > t.cnt.lastView {
      var u := Entered(t, e);
      forall r: nat
        ensures Get(u.acc.views, r) != u.cnt.lastView
      {
        assert Get(t.acc.views, r) <= t.cnt.lastView;
      }
    }
  }

  /** The executed proposals after one more commitment. */
  function Appended(t: Tally, list: seq<(nat, nat)>, e: Commitment): seq<(nat, nat)> {
    if Done(t, e) && (e.view, e.primaryCV) !in list then list + [(e.view, e.primaryCV)] else list
  }

  lemma AcceptedStep(size: nat, t: Tally, list: seq<(nat, nat)>, first: nat -> nat, e: Commitment, x: nat)
    requires size >= 1 && RunOk(size, t, list, first) && OneNewView([e], first)
    requires Latest(t, e) && Acceptable(t.acc, e) && x >= first(e.view)
    ensures (e.view, x) in Appended(t, list, e) <==> |Voters(Collect(t, e), x)| >= size
  {
    assert [e][0] == e;
    FitsRun(size, t, list, first, e);
    CollectExact(t, e, first(e.view));
    VotersAfter(t, e, first(e.view), x);
    EnteredExact(t, e);
  }

  /** Only the level that a commitment reaches gains a voter. */
  lemma VotersAfter(t: Tally, e: Commitment, first: nat, x: nat)
    requires ViewsBounded(t) && Acceptable(t.acc, e) && Latest(t, e) && Fits(t, e, first) && x >= first
    ensures x != e.primaryCV ==> Voters(Collect(t, e), x) == Voters(Entered(t, e), x)
  {
    VotersStep(t, e, x);
    if x < e.primaryCV {
      NotThere(t, e, first, x);
      assert Voters(Entered(t, e), x) + {e.replica} == Voters(Entered(t, e), x);
    }
  }

  /** A replica below x < primaryCV cannot be committing, past x, to anything but a first proposal. */
  lemma NotThere(t: Tally, e: Commitment, first: nat, x: nat)
    requires ViewsBounded(t) && Acceptable(t.acc, e) && Latest(t, e) && Fits(t, e, first)
    requires first <= x < e.primaryCV
    ensures e.replica in Voters(Entered(t, e), x)
  {
    assert Get(t.acc.views, e.replica) <= t.cnt.lastView;
    assert !e.newView;
    assert Get(Entered(t, e).acc.views, e.replica) == Entered(t, e).cnt.lastView;
    assert e.primaryCV - 1 >= 1;
  }

  lemma RunStep(size: nat, t: Tally, list: seq<(nat, nat)>, first: nat -> nat, e: Commitment)
    requires size >= 1 && RunOk(size, t, list, first) && OneNewView([e], first)
    ensures RunOk(size, Collect(t, e), Appended(t, list, e), first)
  {
    var t' := Collect(t, e);
    if Acceptable(t.acc, e) {
      if Latest(t, e) {
        FitsRun(size, t, list, first, e);
        CollectExact(t, e, first(e.view));
        forall x: nat | x >= first(e.view)
          ensures (e.view, x) in Appended(t, list, e) <==> |Voters(t', x)| >= size
        {
          AcceptedStep(size, t, list, first, e, x);
        }
      } else {
        StaleKeeps(t, e);
        StaleFirst(t, e, first(t.cnt.lastView));
        forall x: nat | x >= 1
          ensures Voters(t', x) == Voters(t, x)
        {
          StaleStep(t, e, x);
        }
      }
    }
  }

  lemma StaleFirst(t: Tally, e: Commitment, first: nat)
    requires FromFirst(t, first) && !Latest(t, e)
    ensures FromFirst(Collect(t, e), first)
  {
    var t' := Collect(t, e);
    forall r: nat | Get(t'.acc.views, r) == t'.cnt.lastView
      ensures Get(t'.acc.primaryCVs, r) + (if t'.cnt.lastView == 0 then 1 else 0) >= first
    {
      assert Get(t.acc.views, r) == t.cnt.lastView;
    }
  }

  lemma {:induction false} RunsOk(size: nat, es: seq<Commitment>, first: nat -> nat)
    requires size >= 1 && OneNewView(es, first)
    ensures RunOk(size, TallyAfter(size, es), Executed(size, es), first)
    decreases |es|
  {
    if es == [] {
      FreshOk(size, first);
    } else {
      var before, e := es[..|es| - 1], es[|es| - 1];
      RunsOk(size, before, first);
      RunStep(size, TallyAfter(size, before), Executed(size, before), first, e);
    }
  }

  /** The list starts each view with its first proposal, goes on by consecutive counters, never repeats a
      proposal and never goes back to an older view. */
  ghost predicate InOrder(l: seq<(nat, nat)>, first: nat -> nat) {
    && (forall k :: 0 <= k < |l| ==> Placed(l, k, first))
    && (forall j, k :: 0 <= j < k < |l| ==> l[j].0 <= l[k].0 && l[j] != l[k])
  }

  ghost predicate Placed(l: seq<(nat, nat)>, k: nat, first: nat -> nat)
    requires k < |l|
  {
    l[k].1 == first(l[k].0) || exists j :: 0 <= j < k && l[j].0 == l[k].0 && l[j].1 + 1 == l[k].1
  }

  lemma InOrderAppend(l: seq<(nat, nat)>, p: (nat, nat), first: nat -> nat)
    requires InOrder(l, first) && p !in l && forall k :: 0 <= k < |l| ==> l[k].0 <= p.0
    requires p.1 == first(p.0) || (p.1 >= 1 && (p.0, (p.1 - 1) as nat) in l)
    ensures InOrder(l + [p], first)
  {
    var l' := l + [p];
    forall k | 0 <= k < |l'|
      ensures Placed(l', k, first)
    {
      if k < |l| {
        assert Placed(l, k, first);
        if l[k].1 != first(l[k].0) {
          var j :| 0 <= j < k && l[j].0 == l[k].0 && l[j].1 + 1 == l[k].1;
          assert l'[j] == l[j];
        }
      } else if p.1 != first(p.0) {
        var j :| 0 <= j < |l| && l[j] == (p.0, (p.1 - 1) as nat);
        assert l'[j] == l[j];
      }
    }
  }

  /** Soundness over every run, whatever the NewView commitments carry: a commitment is done only once at
      least commitCertSize distinct replicas have committed up to its proposal in its view. */
  lemma {:induction false} DoneMeansQuorum(size: nat, es: seq<Commitment>)
    requires size >= 1 && forall i :: 0 <= i < |es| ==> es[i].primaryCV >= 1
    ensures Sound(TallyAfter(size, es)) && |TallyAfter(size, es).cnt.highest| == size - 1
    ensures es != [] ==>
              var before, e := es[..|es| - 1], es[|es| - 1];
              Done(TallyAfter(size, before), e) ==> |Voters(TallyAfter(size, es), e.primaryCV)| >= size
    decreases |es|
  {
    if es != [] {
      DoneMeansQuorum(size, es[..|es| - 1]);
      CollectSound(TallyAfter(size, es[..|es| - 1]), es[|es| - 1]);
    }
  }

  /** In-order execution: in every run, the proposals of a view are executed from its first one on,
      at consecutive counters, each once, and views never go back. */
  lemma {:induction false} ExecutedInOrder(size: nat, es: seq<Commitment>, first: nat -> nat)
    requires size >= 1 && OneNewView(es, first)
    ensures InOrder(Executed(size, es), first)
    decreases |es|
  {
    if es != [] {
      var before, e := es[..|es| - 1], es[|es| - 1];
      ExecutedInOrder(size, before, first);
      RunsOk(size, before, first);
      AppendedInOrder(size, TallyAfter(size, before), Executed(size, before), first, e);
    }
  }

  lemma AppendedInOrder(size: nat, t: Tally, l: seq<(nat, nat)>, first: nat -> nat, e: Commitment)
    requires size >= 1 && RunOk(size, t, l, first) && OneNewView([e], first) && InOrder(l, first)
    ensures InOrder(Appended(t, l, e), first)
  {
    if Done(t, e) && (e.view, e.primaryCV) !in l {
      NextExecuted(size, t, l, first, e);
      InOrderAppend(l, (e.view, e.primaryCV), first);
    }
  }

  lemma NextExecuted(size: nat, t: Tally, l: seq<(nat, nat)>, first: nat -> nat, e: Commitment)
    requires size >= 1 && RunOk(size, t, l, first) && OneNewView([e], first)
    requires Done(t, e) && (e.view, e.primaryCV) !in l
    ensures e.view >= t.cnt.lastView
    ensures e.primaryCV == first(e.view) || (e.primaryCV >= 1 && (e.view, (e.primaryCV - 1) as nat) in l)
  {
    assert [e][0] == e;
    FitsRun(size, t, l, first, e);
    EnteredExact(t, e);
    FirstAbove(t, e, first(e.view));
    DoneInOrder(t, e, first(e.view));
  }

  lemma FirstAbove(t: Tally, e: Commitment, first: nat)
    requires ViewsBounded(t) && Acceptable(t.acc, e) && Latest(t, e) && Fits(t, e, first)
    ensures e.primaryCV >= first
  {
    assert Get(t.acc.views, e.replica) <= t.cnt.lastView;
    if !e.newView {
      assert Get(Entered(t, e).acc.views, e.replica) == Entered(t, e).cnt.lastView;
    }
  }

  // ---------- The acceptor keeps to the replicas' own counters ----------

  /** Bookkeeping without maps: commitment e may be appended to the commitments accepted from its replica so far if
      it starts a newer view, or if both its counters follow those of the last one in the same view. */
  predicate MayFollow(kept: seq<Commitment>, e: Commitment) {
    if e.newView then e.view > 0 && forall j :: 0 <= j < |kept| ==> kept[j].view < e.view
    else if kept == [] then e.view == 0 && e.primaryCV == 1 && e.replicaCV == 1
    else
      var last := kept[|kept| - 1];
      e.view == last.view && e.primaryCV == last.primaryCV + 1 && e.replicaCV == last.replicaCV + 1
  }

  /** The commitments accepted from replica r, in order. */
  function Kept(es: seq<Commitment>, r: nat): seq<Commitment> {
    if es == [] then []
    else
      var before, e := Kept(es[..|es| - 1], r), es[|es| - 1];
      if e.replica == r && MayFollow(before, e) then before + [e] else before
  }

  /** Each of them may follow the ones before. */
  ghost predicate Chain(kept: seq<Commitment>) {
    && (forall j :: 0 <= j < |kept| ==> MayFollow(kept[..j], kept[j]))
    && (forall i, j :: 0 <= i < j < |kept| ==> kept[i].view <= kept[j].view)
  }

  ghost predicate Remembers(a: Acceptor, kept: seq<Commitment>, r: nat) {
    if kept == [] then Get(a.views, r) == 0 && Get(a.primaryCVs, r) == 0 && Get(a.replicaCVs, r) == 0
    else
      var last := kept[|kept| - 1];
      && Get(a.views, r) == last.view && Get(a.primaryCVs, r) == last.primaryCV
      && Get(a.replicaCVs, r) == last.replicaCV
  }

  lemma ChainAppend(kept: seq<Commitment>, e: Commitment)
    requires Chain(kept) && MayFollow(kept, e)
    ensures Chain(kept + [e])
  {
    var k' := kept + [e];
    forall j | 0 <= j < |k'|
      ensures MayFollow(k'[..j], k'[j])
    {
      assert k'[..j] == if j < |kept| then kept[..j] else kept;
    }
    if kept != [] {
      assert kept[|kept| - 1].view <= e.view;
    }
  }

  lemma DecidesAlike(a: Acceptor, kept: seq<Commitment>, e: Commitment)
    requires Chain(kept) && Remembers(a, kept, e.replica)
    ensures Acceptable(a, e) <==> MayFollow(kept, e)
  {
    if kept != [] && e.newView && e.view > kept[|kept| - 1].view {
      forall j | 0 <= j < |kept|
        ensures kept[j].view < e.view
      {
        assert kept[j].view <= kept[|kept| - 1].view;
      }
    }
  }

  /** Over every interleaving, the acceptor's three maps decide as the list of the replica's accepted commitments. */
  lemma {:induction false} AcceptorIsNaive(size: nat, es: seq<Commitment>, r: nat)
    requires size >= 1
    ensures Chain(Kept(es, r)) && Remembers(TallyAfter(size, es).acc, Kept(es, r), r)
    decreases |es|
  {
    if es != [] {
      var before, e := es[..|es| - 1], es[|es| - 1];
      AcceptorIsNaive(size, before, r);
      if e.replica == r {
        DecidesAlike(TallyAfter(size, before).acc, Kept(before, r), e);
        if MayFollow(Kept(before, r), e) {
          ChainAppend(Kept(before, r), e);
        }
      }
    }
  }

  /** Over every interleaving: a commitment is accepted if and only if it may follow the accepted ones of its replica;
      one that does not, such as one that leaves a gap in the replica's own counter, changes nothing and is not done. */
  lemma AcceptedIffFollows(size: nat, es: seq<Commitment>, e: Commitment)
    requires size >= 1
    ensures var t := TallyAfter(size, es);
            && (Acceptable(t.acc, e) <==> MayFollow(Kept(es, e.replica), e))
            && (!MayFollow(Kept(es, e.replica), e) ==> Collect(t, e) == t && !Done(t, e))
  {
    AcceptorIsNaive(size, es, e.replica);
    DecidesAlike(TallyAfter(size, es).acc, Kept(es, e.replica), e);
  }

  lemma {:induction false} ChainSteps(kept: seq<Commitment>, i: nat, j: nat)
    requires Chain(kept) && i <= j < |kept| && kept[i].view == kept[j].view
    ensures kept[j].replicaCV == kept[i].replicaCV + (j - i) && kept[j].primaryCV == kept[i].primaryCV + (j - i)
    ensures i < j ==> !kept[j].newView
    decreases j
  {
    if i < j {
      assert kept[i].view <= kept[j - 1].view <= kept[j].view;
      ChainSteps(kept, i, j - 1);
      assert MayFollow(kept[..j], kept[j]);
      assert kept[..j][j - 1] == kept[j - 1];
    }
  }

  /** Over every interleaving: within a view the accepted commitments of a replica carry consecutive counters of the
      primary and of the replica; the first of them is a NewView commitment or, in view 0, has both counters 1. */
  lemma ConsecutiveCounters(size: nat, es: seq<Commitment>, r: nat, i: nat, j: nat)
    requires size >= 1 && i <= j < |Kept(es, r)| && Kept(es, r)[i].view == Kept(es, r)[j].view
    ensures var k := Kept(es, r);
            && k[j].replicaCV == k[i].replicaCV + (j - i) && k[j].primaryCV == k[i].primaryCV + (j - i)
            && (k[i].newView && i < j ==> !k[j].newView)
            && (i == 0 || k[i - 1].view != k[i].view ==>
                  k[i].newView || (k[i].view == 0 && k[i].replicaCV == 1 && k[i].primaryCV == 1))
  {
    var k := Kept(es, r);
    AcceptorIsNaive(size, es, r);
    ChainSteps(k, i, j);
    assert MayFollow(k[..i], k[i]);
  }

  /** Without one NewView message per view the counter can only undercount: here four replicas have
      committed up to counter 3, and the fourth commitment is still not done. */
  lemma UnevenNewViewsUndercount()
    ensures var t := Uneven();
            && Acceptable(t.acc, Starts(3, 3)) && !Done(t, Starts(3, 3))
            && {0, 1, 2, 3} <= Voters(Collect(t, Starts(3, 3)), 3)
  {
    UnevenVoters();
    UnevenCounter();
  }

  function Uneven(): Tally {
    Collect(Collect(Collect(Fresh(4), Starts(0, 5)), Starts(1, 3)), Starts(2, 4))
  }

  lemma UnevenVoters()
    ensures Acceptable(Uneven().acc, Starts(3, 3)) && {0, 1, 2, 3} <= Voters(Collect(Uneven(), Starts(3, 3)), 3)
  {
    FourStart(Fresh(4), 5, 3, 4, 3, 3);
  }

  /** Four replicas, none of them in view 1 yet, commit to NewView messages of view 1. */
  lemma FourStart(t: Tally, a: nat, b: nat, c: nat, d: nat, x: nat)
    requires ViewsBounded(t) && t.cnt.lastView == 0 && forall r :: Get(t.acc.views, r) == 0
    requires 1 <= x && x <= a && x <= b && x <= c && x <= d
    ensures var t3 := Collect(Collect(Collect(t, Starts(0, a)), Starts(1, b)), Starts(2, c));
            Acceptable(t3.acc, Starts(3, d)) && {0, 1, 2, 3} <= Voters(Collect(t3, Starts(3, d)), x)
  {
    var t1 := Collect(t, Starts(0, a));
    var t2 := Collect(t1, Starts(1, b));
    StartsStep(t, 0, a, x);
    StartsStep(t1, 1, b, x);
    StartsStep(t2, 2, c, x);
    StartsStep(Collect(t2, Starts(2, c)), 3, d, x);
  }

  lemma UnevenCounter()
    ensures !CountDone(Uneven().cnt, 1, 3)
  {
    var t0 := Fresh(4);
    StartsCount(t0, 0, 5, [0, 0, 0], 0);
    var t1 := Collect(t0, Starts(0, 5));
    assert t1.cnt == Counter(1, [5, 0, 0]);
    SecondSlot(5, 0, 0, 3);
    StartsCount(t1, 1, 3, [5, 0, 0], 1);
    var t2 := Collect(t1, Starts(1, 3));
    assert t2.cnt == Counter(1, [5, 3, 0]);
    SecondSlot(5, 3, 0, 4);
    StartsCount(t2, 2, 4, [5, 3, 0], 1);
    NotAllReach([5, 4, 0], 3);
  }

  lemma StartsCount(t: Tally, r: nat, cv: nat, h: seq<nat>, i: nat)
    requires t.cnt.lastView <= 1 && Get(t.acc.views, r) == 0
    requires Enter(t.cnt, 1).highest == h && i < |h| && FirstBelow(h, cv) == i
    ensures Collect(t, Starts(r, cv)).cnt == Counter(1, h[i := cv])
    ensures forall q :: q != r ==> Get(Collect(t, Starts(r, cv)).acc.views, q) == Get(t.acc.views, q)
  {
  }

  lemma NotAllReach(h: seq<nat>, x: nat)
    requires |h| > 0 && h[|h| - 1] < x
    ensures FirstBelow(h, x) < |h|
  {
  }

  lemma StartsStep(t: Tally, r: nat, cv: nat, x: nat)
    requires ViewsBounded(t) && t.cnt.lastView <= 1 && Get(t.acc.views, r) == 0 && 1 <= x <= cv
    ensures var t' := Collect(t, Starts(r, cv));
            && Acceptable(t.acc, Starts(r, cv)) && ViewsBounded(t') && t'.cnt.lastView == 1
            && (t.cnt.lastView == 1 ==> Voters(t, x) <= Voters(t', x)) && r in Voters(t', x)
            && (forall q :: q != r ==> Get(t'.acc.views, q) == Get(t.acc.views, q))
  {
    ViewsStep(t, Starts(r, cv));
    VotersStep(t, Starts(r, cv), x);
  }

  /** Replica r commits to a NewView message of view 1 with the given counter. */
  function Starts(r: nat, cv: nat): Commitment {
    Commitment(r, true, 1, cv, 1)
  }

  lemma SecondSlot(a: nat, b: nat, c: nat, x: nat)
    requires a >= x > b
    ensures FirstBelow([a, b, c], x) == 1
  {
    assert [a, b, c][1..] == [b, c];
  }
}
