/** How many replicas it takes, in numbers of the configuration: a proposal is executed exactly when n-f replicas
    have committed to it (core/message-handling.go:139-146, core/commit.go:195-219). */
module Quorums {
  import opened Messages
  import opened Extraction
  import opened Commitments
  import opened Execution
  import opened Replica
  import opened Evidence
  import opened Invariants
  import opened System
  import opened Agreement

  /** The replicas that have certified a commitment to the proposal. */
  ghost function Supporters(g: State, p: Message): set<nat> {
    set r | 0 <= r < |g| && Supports(g[r].trace, p)
  }

  ghost predicate Supports(t: seq<Message>, p: Message) {
    exists k :: 0 <= k < |t| && t[k].Unwrap() == p
  }

  /** The proposal brings the request along. */
  ghost predicate Brings(p: Message, q: Request) {
    || (p.Prepare? && p.request == q)
    || (p.NewView? && Extract(p.nvCert).Some? && q in Extract(p.nvCert).value)
  }

  // ---------- Executed only with a quorum ----------

  lemma {:induction false} DedupSubset(l: seq<Request>, q: Request)
    requires q in Dedup(l)
    ensures q in l
    decreases |l|
  {
    if q in Dedup(l[..|l| - 1]) {
      DedupSubset(l[..|l| - 1], q);
    }
  }

  /** Every request of a history was brought along by one of its proposals. */
  lemma {:induction false} BroughtBy(c: Config, ts: Traces, v: nat, k: nat, q: Request) returns (j: nat)
    requires Evident(c, ts) && k <= |Props(c, ts, v)| && q in History(c, ts, v, k)
    ensures j < k && Brings(Props(c, ts, v)[j], q)
    decreases k
  {
    j := 0;
    HistoryEmpty(c, ts, v);
    if k > 0 {
      HistoryNext(c, ts, v, k - 1);
      var p := Props(c, ts, v)[k - 1];
      if Brings(p, q) {
        j := k - 1;
      } else if p.Prepare? {
        j := BroughtBy(c, ts, v, k - 1, q);
      } else {
        ExtractDefined(c, ts, v, p.nvCert);
        assert false;
      }
    }
  }

  lemma CommittersSupport(c: Config, g: State, v: nat, k: nat, j: nat)
    requires Evident(c, TracesOf(g)) && j < k <= |Props(c, TracesOf(g), v)|
    ensures Committers(c, TracesOf(g), v, k) <= Supporters(g, Props(c, TracesOf(g), v)[j])
  {
    var ts := TracesOf(g);
    var p := Props(c, ts, v)[j];
    forall r | r in Committers(c, ts, v, k)
      ensures Supports(g[r].trace, p)
    {
      assert FollowsOk(c, ts, r, v);
      assert Unwraps(Comms(ts[r], v))[j] == p;
      CommsMember(ts[r], v, j);
    }
  }

  /** In every run, every request a replica has delivered was brought along by a proposal to which at least n-f
      distinct replicas have certified their commitment. */
  lemma ExecutedByQuorum(c: Config, run: seq<Action>, i: nat, k: nat) returns (p: Message)
    requires c.Ok() && i < c.n && |After(c, run)| == c.n && k < |After(c, run)[i].exec.delivered|
    ensures Brings(p, After(c, run)[i].exec.delivered[k]) && |Supporters(After(c, run), p)| >= c.n - c.f
  {
    var g := After(c, run);
    var s, ts := g[i], TracesOf(g);
    RunInv(c, run);
    assert At(c, g, i);
    var v, n, q := s.doneView, DoneRank(c, ts, s), s.exec.delivered[k];
    assert q in Dedup(History(c, ts, v, n));
    DedupSubset(History(c, ts, v, n), q);
    var j := BroughtBy(c, ts, v, n, q);
    p := Props(c, ts, v)[j];
    CommittersSupport(c, g, v, n, j);
    SubsetSize(Committers(c, ts, v, n), Supporters(g, p));
  }

  // ---------- Executed as soon as there is one ----------

  /** The replicas from which commitments of the view have been accepted up to the primary's counter x. */
  function Accepted(s: Replica, v: nat, x: nat): set<nat> {
    set r | r in s.tally.acc.primaryCVs && Get(s.tally.acc.views, r) == v && s.tally.acc.primaryCVs[r] >= x
  }

  /** In every run, at every live replica: the proposal of the expected view with counter x has been executed if and
      only if commitments up to it have been accepted from at least n-f distinct replicas. */
  lemma ExecutedIffQuorum(c: Config, run: seq<Action>, i: nat, x: nat)
    requires c.Ok() && i < c.n && |After(c, run)| == c.n && !After(c, run)[i].exec.stopped && x >= 1
    ensures var s := After(c, run)[i];
            s.doneView == s.expected && s.doneCV >= x <==> |Accepted(s, s.expected, x)| >= c.n - c.f
  {
    var g := After(c, run);
    var s := g[i];
    RunInv(c, run);
    assert At(c, g, i);
    if s.tally.cnt.lastView == s.expected {
      assert Accepted(s, s.expected, x) == Voters(s.tally, x);
      if 0 < x <= Frontier(s) {
        VotersAntitone(s.tally, x, Frontier(s));
      }
    } else {
      forall r
        ensures r !in Accepted(s, s.expected, x)
      {
        assert Get(s.tally.acc.views, r) <= s.tally.cnt.lastView;
      }
      assert Accepted(s, s.expected, x) == {};
    }
  }
}
