/** What holds of every replica in every reachable state of the system.

    The predicates relate one replica's state s (the replica being number i) to the traces ts of all
    replicas.  Each is preserved when other replicas certify more messages. */
module Invariants {
  import opened Messages
  import opened Extraction
  import opened Validation
  import opened Commitments
  import opened Execution
  import opened Collectors
  import opened Replica
  import opened Evidence
  import opened Growth

  // ---------- The replica's own messages ----------

  /** The certified part of the log is the end of the trace and reaches back to the message that began
      the expected view; it holds all commitments made in that view. */
  ghost predicate LogOk(c: Config, s: Replica, i: nat)
    requires c.Ok()
  {
    LogShape(s.trace, CertifiedIn(s.log), s.expected, c.IsPrimary(s.expected, i))
  }

  ghost predicate IsSuffix(l: seq<Message>, t: seq<Message>) {
    |l| <= |t| && forall k :: 0 <= k < |l| ==> l[k] == t[|t| - |l| + k]
  }

  /** The first entry of the log, which began the view. */
  ghost predicate Anchored(l: seq<Message>, v: nat, leads: bool) {
    && (v >= 1 ==> l != [])
    && (v >= 1 && !leads ==> l[0].ViewChangeMsg?)
    && (l != [] && l[0].ViewChangeMsg? ==> v >= 1 && l[0].vc.newView == v)
    && (l != [] && l[0].ViewChangeMsg? && leads ==> |l| == 1)
  }

  /** The certified log l of a replica that has certified t, expects view v and may lead it. */
  ghost predicate LogShape(t: seq<Message>, l: seq<Message>, v: nat, leads: bool) {
    && IsSuffix(l, t) && Anchored(l, v, leads)
    && Strip(l) == Comms(t, v)
    && (v == 0 ==> |l| == |t|)
  }

  ghost predicate QuietOk(s: Replica, v: nat) {
    v > s.expected ==> Comms(s.trace, v) == []
  }

  ghost predicate BoundOk(s: Replica, vc: ViewChange) {
    ViewChangeMsg(vc) in s.trace ==> vc.newView <= s.expected
  }

  /** A view the replica has begun to lead is behind its ViewChange collector. */
  ghost predicate LedOk(c: Config, s: Replica, i: nat, v: nat)
    requires c.Ok()
  {
    v >= 1 && c.IsPrimary(v, i) && Comms(s.trace, v) != [] ==> v < s.vcs.view
  }

  /** Every certified message passes the validation of the replicas that receive it. */
  ghost predicate ValidOk(c: Config, s: Replica, m: Message)
    requires c.Ok()
  {
    m in s.trace ==> Validate(c, m) == Accept
  }

  ghost predicate TraceInv(c: Config, s: Replica, i: nat)
    requires c.Ok()
  {
    && LogOk(c, s, i)
    && (forall v :: QuietOk(s, v))
    && (forall vc :: BoundOk(s, vc))
    && (forall v :: LedOk(c, s, i, v))
    && (forall m :: ValidOk(c, s, m))
    && RvcOk(s.rvcs) && s.rvcs.view == s.expected
  }

  // ---------- What the replica has collected ----------

  ghost predicate MemberOk(c: Config, ts: Traces, s: Replica, vc: ViewChange)
    requires c.Ok() && |ts| == c.n
  {
    Genuine(c, ts, s.vcs.view, vc) && vc.cv <= Get(s.lastUI, vc.replicaID)
  }

  /** Collected ViewChange messages are genuine and have been processed. */
  ghost predicate CollectorInv(c: Config, ts: Traces, s: Replica, i: nat)
    requires c.Ok() && |ts| == c.n
  {
    && VcOk(s.vcs, i)
    && (s.vcs.own.Some? ==> MemberOk(c, ts, s, s.vcs.own.value))
    && forall k {:trigger MemberOk(c, ts, s, s.vcs.others[k])} ::
         0 <= k < |s.vcs.others| ==> MemberOk(c, ts, s, s.vcs.others[k])
  }

  ghost predicate CurrentOk(c: Config, ts: Traces, s: Replica)
    requires c.Ok() && |ts| == c.n
  {
    s.current >= 1 ==> Props(c, ts, s.current) != []
  }

  /** Counter of the first proposal of a view. */
  ghost function Base(c: Config, ts: Traces, v: nat): nat
    requires c.Ok() && |ts| == c.n
  {
    if v == 0 || Props(c, ts, v) == [] then 1 else Props(c, ts, v)[0].Counter()
  }

  /** How many proposals of view v carry a counter up to x. */
  ghost function Rank(c: Config, ts: Traces, v: nat, x: nat): int
    requires c.Ok() && |ts| == c.n
  {
    x + 1 - Base(c, ts, v)
  }

  /** What has been accepted from replica r, r did commit to. */
  ghost predicate ReachedOk(c: Config, ts: Traces, s: Replica, r: nat)
    requires c.Ok() && |ts| == c.n
  {
    var v, x := Get(s.tally.acc.views, r), Get(s.tally.acc.primaryCVs, r);
    && (r >= c.n ==> v == 0 && r !in s.tally.acc.primaryCVs)
    && (r < c.n ==> (v >= 1 ==> Props(c, ts, v) != []) && Rank(c, ts, v, x) <= |Comms(ts[r], v)|)
  }

  ghost predicate TallyInv(c: Config, ts: Traces, s: Replica)
    requires c.Ok() && |ts| == c.n
  {
    && Exact(s.tally)
    && |s.tally.cnt.highest| + 1 == c.n - c.f
    && s.tally.cnt.lastView <= s.expected
    && FromFirst(s.tally, Base(c, ts, s.tally.cnt.lastView))
    && forall r :: ReachedOk(c, ts, s, r)
  }

  /** A backup has committed to exactly the proposals it accepted from the primary of its view. */
  ghost predicate OwnInv(c: Config, ts: Traces, s: Replica, i: nat)
    requires c.Ok() && |ts| == c.n
  {
    var p := c.Primary(s.expected);
    i != p ==>
      |Comms(s.trace, s.expected)|
      == if Get(s.tally.acc.views, p) == s.expected
         then Rank(c, ts, s.expected, Get(s.tally.acc.primaryCVs, p)) else 0
  }

  // ---------- What the replica has executed ----------

  ghost function DoneRank(c: Config, ts: Traces, s: Replica): int
    requires c.Ok() && |ts| == c.n
  {
    if s.doneCV == 0 then 0 else Rank(c, ts, s.doneView, s.doneCV)
  }

  /** The requests delivered are those of a history that enough replicas have committed to. */
  ghost predicate DoneInv(c: Config, ts: Traces, s: Replica)
    requires Evident(c, ts)
  {
    var k := DoneRank(c, ts, s);
    && (s.doneCV == 0 ==> s.doneView == 0)
    && (s.doneCV > 0 ==> k >= 1)
    && 0 <= k <= |Props(c, ts, s.doneView)|
    && CommittedBy(c, ts, s.doneView, k)
    && s.exec.delivered <= Dedup(History(c, ts, s.doneView, k))
    && (!s.exec.stopped ==> s.exec.delivered == Dedup(History(c, ts, s.doneView, k)))
    && Retired(s.exec)
  }

  /** The highest counter executed in the latest view of the tally. */
  ghost function Frontier(s: Replica): nat {
    if s.doneView == s.tally.cnt.lastView then s.doneCV else 0
  }

  /** Everything that enough replicas have committed to in the latest view has been executed. */
  ghost predicate FrontierInv(s: Replica) {
    && s.doneView <= s.tally.cnt.lastView
    && (forall x :: x > Frontier(s) ==> |Voters(s.tally, x)| <= |s.tally.cnt.highest|)
    && (Frontier(s) > 0 ==> |Voters(s.tally, Frontier(s))| > |s.tally.cnt.highest|)
  }

  // ---------- All together ----------

  /** The part that does not speak of the replica's own trace or log. */
  ghost predicate CoreInv(c: Config, ts: Traces, s: Replica, i: nat)
    requires Evident(c, ts)
  {
    && DoneInv(c, ts, s)
    && (!s.exec.stopped ==>
          && CollectorInv(c, ts, s, i)
          && CurrentOk(c, ts, s)
          && TallyInv(c, ts, s)
          && FrontierInv(s))
  }

  ghost predicate Good(c: Config, ts: Traces, s: Replica, i: nat) {
    && Evident(c, ts) && i < c.n && ts[i] == s.trace
    && TraceInv(c, s, i)
    && CoreInv(c, ts, s, i)
    && (!s.exec.stopped ==> OwnInv(c, ts, s, i))
  }

  // ---------- Growth ----------

  lemma BaseStays(c: Config, ts: Traces, ts': Traces, v: nat)
    requires c.Ok() && |ts| == c.n && Extends(ts, ts') && (v >= 1 ==> Props(c, ts, v) != [])
    ensures Base(c, ts', v) == Base(c, ts, v)
  {
    PropsGrow(c, ts, ts', v);
  }

  lemma ReachedGrows(c: Config, ts: Traces, ts': Traces, s: Replica, r: nat)
    requires c.Ok() && |ts| == c.n && Extends(ts, ts') && ReachedOk(c, ts, s, r)
    ensures ReachedOk(c, ts', s, r)
  {
    if r < c.n {
      var v := Get(s.tally.acc.views, r);
      BaseStays(c, ts, ts', v);
      PropsGrow(c, ts, ts', v);
      CommsPrefix(ts[r], ts'[r], v);
    }
  }

  lemma TallyGrows(c: Config, ts: Traces, ts': Traces, s: Replica)
    requires c.Ok() && |ts| == c.n && Extends(ts, ts') && TallyInv(c, ts, s)
    ensures TallyInv(c, ts', s)
  {
    forall r ensures ReachedOk(c, ts', s, r) { ReachedGrows(c, ts, ts', s, r); }
    var v := s.tally.cnt.lastView;
    if v == 0 || Props(c, ts, v) != [] {
      BaseStays(c, ts, ts', v);
    } else {
      forall r: nat
        ensures Get(s.tally.acc.views, r) != v
      {
        assert ReachedOk(c, ts, s, r);
      }
    }
  }

  lemma OwnGrows(c: Config, ts: Traces, ts': Traces, s: Replica, i: nat)
    requires c.Ok() && |ts| == c.n && Extends(ts, ts') && TallyInv(c, ts, s) && OwnInv(c, ts, s, i)
    ensures OwnInv(c, ts', s, i)
  {
    var p := c.Primary(s.expected);
    assert ReachedOk(c, ts, s, p);
    if Get(s.tally.acc.views, p) == s.expected {
      BaseStays(c, ts, ts', s.expected);
    }
  }

  lemma CollectorGrows(c: Config, ts: Traces, ts': Traces, s: Replica, i: nat)
    requires c.Ok() && |ts| == c.n && Extends(ts, ts') && CollectorInv(c, ts, s, i)
    ensures CollectorInv(c, ts', s, i)
  {
    forall k | 0 <= k < |s.vcs.others|
      ensures MemberOk(c, ts', s, s.vcs.others[k])
    {
      assert MemberOk(c, ts, s, s.vcs.others[k]);
    }
  }

  lemma DoneGrows(c: Config, ts: Traces, ts': Traces, s: Replica)
    requires Evident(c, ts) && Evident(c, ts') && Extends(ts, ts') && DoneInv(c, ts, s)
    ensures DoneInv(c, ts', s)
  {
    var v, k := s.doneView, DoneRank(c, ts, s);
    if s.doneCV > 0 {
      BaseStays(c, ts, ts', v);
    }
    HistoryStays(c, ts, ts', v, k);
    CommittedStays(c, ts, ts', v, k);
  }

  lemma CoreGrows(c: Config, ts: Traces, ts': Traces, s: Replica, i: nat)
    requires Evident(c, ts) && Evident(c, ts') && Extends(ts, ts') && CoreInv(c, ts, s, i)
    ensures CoreInv(c, ts', s, i)
  {
    DoneGrows(c, ts, ts', s);
    if !s.exec.stopped {
      CollectorGrows(c, ts, ts', s, i);
      PropsGrow(c, ts, ts', s.current);
      TallyGrows(c, ts, ts', s);
    }
  }

  /** Other replicas' messages leave a replica's invariant intact. */
  lemma GoodGrows(c: Config, ts: Traces, ts': Traces, s: Replica, i: nat)
    requires Good(c, ts, s, i) && Evident(c, ts') && Extends(ts, ts') && ts'[i] == ts[i]
    ensures Good(c, ts', s, i)
  {
    CoreGrows(c, ts, ts', s, i);
    if !s.exec.stopped {
      OwnGrows(c, ts, ts', s, i);
    }
  }

  // ---------- What the core invariant does not depend on ----------

  lemma TallyIgnores(c: Config, ts: Traces, s: Replica, s': Replica)
    requires c.Ok() && |ts| == c.n && TallyInv(c, ts, s) && s'.tally == s.tally && s'.expected >= s.expected
    ensures TallyInv(c, ts, s')
  {
    forall r: nat
      ensures ReachedOk(c, ts, s', r)
    {
      assert ReachedOk(c, ts, s, r);
    }
  }

  lemma CollectorIgnores(c: Config, ts: Traces, s: Replica, s': Replica, i: nat)
    requires c.Ok() && |ts| == c.n && CollectorInv(c, ts, s, i) && s'.vcs == s.vcs
    requires forall r :: Get(s.lastUI, r) <= Get(s'.lastUI, r)
    ensures CollectorInv(c, ts, s', i)
  {
    forall k | 0 <= k < |s'.vcs.others|
      ensures MemberOk(c, ts, s', s'.vcs.others[k])
    {
      assert MemberOk(c, ts, s, s.vcs.others[k]);
    }
    if s.vcs.own.Some? {
      assert MemberOk(c, ts, s, s.vcs.own.value);
    }
  }

  /** State s' differs from s in nothing the core invariant could lose. */
  ghost predicate CoreSame(s: Replica, s': Replica) {
    && s'.exec.delivered == s.exec.delivered && (s.exec.stopped ==> s'.exec.stopped)
    && s'.doneView == s.doneView && s'.doneCV == s.doneCV
    && s'.tally == s.tally && s'.vcs == s.vcs && s'.expected >= s.expected
    && forall r :: Get(s.lastUI, r) <= Get(s'.lastUI, r)
  }

  lemma CoreIgnores(c: Config, ts: Traces, s: Replica, s': Replica, i: nat)
    requires Evident(c, ts) && CoreInv(c, ts, s, i) && CoreSame(s, s')
    requires Retired(s'.exec) && (!s'.exec.stopped ==> CurrentOk(c, ts, s'))
    ensures CoreInv(c, ts, s', i)
  {
    if !s'.exec.stopped {
      TallyIgnores(c, ts, s, s');
      CollectorIgnores(c, ts, s, s', i);
    }
  }

  lemma TraceIgnores(c: Config, s: Replica, s': Replica, i: nat)
    requires c.Ok() && TraceInv(c, s, i)
    requires s'.trace == s.trace && CertifiedIn(s'.log) == CertifiedIn(s.log) && s'.expected == s.expected
    requires s'.vcs.view >= s.vcs.view && s'.rvcs.view == s.rvcs.view && RvcOk(s'.rvcs)
    ensures TraceInv(c, s', i)
  {
    forall v: nat
      ensures QuietOk(s', v) && LedOk(c, s', i, v)
    {
      assert QuietOk(s, v) && LedOk(c, s, i, v);
    }
    forall vc ensures BoundOk(s', vc) { assert BoundOk(s, vc); }
    forall x ensures ValidOk(c, s', x) { assert ValidOk(c, s, x); }
  }
}
