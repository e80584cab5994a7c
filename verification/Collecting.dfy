/** Taking a commitment into account keeps the invariant: the tally stays exact, and what gets executed
    is the next part of a history that enough replicas have committed to. */
module Collecting {
  import opened Messages
  import opened Extraction
  import opened Commitments
  import opened Execution
  import opened Replica
  import opened Evidence
  import opened Invariants
  import opened Emission

  /** Message m is its sender's commitment to proposal number j of view v. */
  ghost predicate PlacedAt(c: Config, ts: Traces, m: Message, v: nat, j: nat)
    requires c.Ok() && |ts| == c.n
  {
    && m.Sender() < c.n
    && j < |Comms(ts[m.Sender()], v)| && Comms(ts[m.Sender()], v)[j] == m
    && j < |Props(c, ts, v)| && m.Unwrap() == Props(c, ts, v)[j]
    && m.Unwrap().IsProposal() && MessageView(m) == v
  }

  lemma {:induction false} CommsIndex(t: seq<Message>, m: Message, v: nat) returns (j: nat)
    requires m in t && m.CommitsIn(v)
    ensures j < |Comms(t, v)| && Comms(t, v)[j] == m
  {
    var k := |t| - 1;
    if t[k] == m {
      j := |Comms(t, v)| - 1;
    } else {
      j := CommsIndex(t[..k], m, v);
    }
  }

  /** Every genuine commitment has its place. */
  lemma Placed(c: Config, ts: Traces, r: nat, m: Message) returns (j: nat)
    requires Evident(c, ts) && r < c.n && m in ts[r] && m.Unwrap().IsProposal()
    ensures m.Sender() == r && PlacedAt(c, ts, m, MessageView(m), j)
  {
    var v := MessageView(m);
    var k :| 0 <= k < |ts[r]| && ts[r][k] == m;
    assert StampOk(ts, r, k);
    j := CommsIndex(ts[r], m, v);
    assert FollowsOk(c, ts, r, v);
    assert Unwraps(Comms(ts[r], v))[j] == Props(c, ts, v)[j];
  }

  /** The commitment m, placed at j in the expected view, is acceptable to the live replica s. */
  ghost predicate Ready(c: Config, ts: Traces, s: Replica, m: Message, j: nat)
    requires Evident(c, ts)
  {
    && PlacedAt(c, ts, m, s.expected, j)
    && Acceptable(s.tally.acc, CommitmentOf(m))
  }

  /** Facts about the commitment as the collector sees it. */
  lemma AsCommitment(c: Config, ts: Traces, v: nat, m: Message, j: nat)
    requires Evident(c, ts) && PlacedAt(c, ts, m, v, j)
    ensures var e := CommitmentOf(m);
            && e.replica == m.Sender() && e.view == v && (e.newView <==> j == 0 && v >= 1)
            && e.primaryCV == Base(c, ts, v) + j && Base(c, ts, v) >= 1 && Rank(c, ts, v, e.primaryCV) == j + 1
  {
    assert ProposalsOk(c, ts, v);
    ProposalSender(c, ts, v, 0);
  }

  lemma FitsView(c: Config, ts: Traces, s: Replica, m: Message, j: nat)
    requires Evident(c, ts) && TallyInv(c, ts, s) && Ready(c, ts, s, m, j)
    ensures var e := CommitmentOf(m);
            Latest(s.tally, e) && Fits(s.tally, e, Base(c, ts, s.expected))
  {
    var e, v, t := CommitmentOf(m), s.expected, s.tally;
    AsCommitment(c, ts, v, m, j);
    var u := Entered(t, e);
    if v > t.cnt.lastView {
      forall r: nat
        ensures Get(u.acc.views, r) != u.cnt.lastView
      {
        assert Get(t.acc.views, r) <= t.cnt.lastView;
      }
    }
  }

  /** The state after the tally has been updated. */
  function Tallied(s: Replica, m: Message): Replica
    requires m.Unwrap().IsProposal()
  {
    s.(tally := Collect(s.tally, CommitmentOf(m)))
  }

  lemma TallyStep(c: Config, ts: Traces, s: Replica, m: Message, j: nat)
    requires Evident(c, ts) && TallyInv(c, ts, s) && Ready(c, ts, s, m, j)
    ensures TallyInv(c, ts, Tallied(s, m))
    ensures var e := CommitmentOf(m);
            Done(s.tally, e) <==> |Voters(Tallied(s, m).tally, e.primaryCV)| > |s.tally.cnt.highest|
  {
    var e, v, s' := CommitmentOf(m), s.expected, Tallied(s, m);
    AsCommitment(c, ts, v, m, j);
    FitsView(c, ts, s, m, j);
    CollectExact(s.tally, e, Base(c, ts, v));
    forall r: nat
      ensures ReachedOk(c, ts, s', r)
    {
      assert ReachedOk(c, ts, s, r);
    }
  }

  /** The voters for the counter of proposal j have committed to it. */
  lemma VotersCommitted(c: Config, ts: Traces, s: Replica, j: nat)
    requires Evident(c, ts) && TallyInv(c, ts, s)
    requires |Voters(s.tally, Base(c, ts, s.tally.cnt.lastView) + j)| > |s.tally.cnt.highest|
    ensures CommittedBy(c, ts, s.tally.cnt.lastView, j + 1)
  {
    var v := s.tally.cnt.lastView;
    var a, b := Voters(s.tally, Base(c, ts, v) + j), Committers(c, ts, v, j + 1);
    forall r | r in a
      ensures r in b
    {
      assert ReachedOk(c, ts, s, r);
      BasePositive(c, ts, v);
    }
    assert b == a + (b - a);
  }

  lemma BasePositive(c: Config, ts: Traces, v: nat)
    requires Evident(c, ts)
    ensures Base(c, ts, v) >= 1
  {
    if v >= 1 && Props(c, ts, v) != [] {
      ProposalSender(c, ts, v, 0);
    }
  }

  // ---------- The proposal that is done is the next one ----------

  lemma EnteredVoters(s: Replica, m: Message, x: nat)
    requires m.Unwrap().IsProposal() && Exact(s.tally) && Latest(s.tally, CommitmentOf(m)) && FrontierInv(s)
    requires x >= 1
    ensures var e := CommitmentOf(m);
            var u := Entered(s.tally, e);
            if e.view == s.tally.cnt.lastView then Voters(u, x) == Voters(s.tally, x) else Voters(u, x) == {}
  {
    EnteredExact(s.tally, CommitmentOf(m));
  }

  /** In-order execution: the proposal that is done has been executed before, or is the one right after
      the latest executed in its view, or is the NewView message of a newer view. */
  lemma NextDone(c: Config, ts: Traces, s: Replica, m: Message, j: nat)
    requires Evident(c, ts) && TallyInv(c, ts, s) && FrontierInv(s) && DoneInv(c, ts, s)
    requires Ready(c, ts, s, m, j) && Done(s.tally, CommitmentOf(m))
    ensures var x := CommitmentOf(m).primaryCV;
            || (s.doneView == s.expected && x <= s.doneCV && j < DoneRank(c, ts, s))
            || (s.doneView == s.expected && x > s.doneCV && j == DoneRank(c, ts, s))
            || (s.doneView < s.expected && j == 0)
  {
    var e, v := CommitmentOf(m), s.expected;
    var x, u, d := e.primaryCV, Entered(s.tally, e), Frontier(s);
    AsCommitment(c, ts, v, m, j);
    FitsView(c, ts, s, m, j);
    EnteredVoters(s, m, x);
    if |Voters(u, x)| > |s.tally.cnt.highest| {
      assert x <= d;
    } else {
      DoneInOrder(s.tally, e, Base(c, ts, v));
      if j == 0 {
        if v == s.tally.cnt.lastView && d > 0 {
          VotersAntitone(s.tally, x, d);
        }
      } else {
        EnteredVoters(s, m, x - 1);
        assert x - 1 <= d;
        VotersAntitone(s.tally, if x <= d then x else d, d);
      }
    }
  }

  // ---------- Execution ----------

  /** Executing proposal j of view v on top of the first j proposals. */
  lemma ExecuteInView(c: Config, ts: Traces, x: Exec, v: nat, j: nat)
    requires Evident(c, ts) && j < |Props(c, ts, v)| && (v >= 1 ==> j >= 1)
    requires Retired(x) && !x.stopped && x.delivered == Dedup(History(c, ts, v, j))
    ensures Props(c, ts, v)[j].IsProposal()
    ensures var y := ExecuteProposal(x, Props(c, ts, v)[j]);
            Retired(y) && y.delivered <= Dedup(History(c, ts, v, j + 1))
            && (!y.stopped ==> y.delivered == Dedup(History(c, ts, v, j + 1)))
  {
    HistoryNext(c, ts, v, j);
    assert ProposalsOk(c, ts, v);
    var q := Props(c, ts, v)[j].request;
    ExecuteNext(x, History(c, ts, v, j), q);
    ExecuteKeeps(x, q);
  }

  /** Executing the NewView message of v on top of what was committed in an earlier view u. */
  lemma ExecuteNewView(c: Config, ts: Traces, x: Exec, u: nat, k: nat, v: nat)
    requires Evident(c, ts) && u < v && 0 < |Props(c, ts, v)|
    requires k <= |Props(c, ts, u)| && CommittedBy(c, ts, u, k)
    requires Retired(x) && !x.stopped && x.delivered == Dedup(History(c, ts, u, k))
    ensures Props(c, ts, v)[0].IsProposal()
    ensures var y := ExecuteProposal(x, Props(c, ts, v)[0]);
            Retired(y) && y.delivered <= Dedup(History(c, ts, v, 1))
            && (!y.stopped ==> y.delivered == Dedup(History(c, ts, v, 1)))
  {
    HistoryNext(c, ts, v, 0);
    var p, h := Props(c, ts, v)[0], History(c, ts, v, 1);
    CommittedSurvive(c, ts, u, k, v, p.nvCert);
    assert Extract(p.nvCert) == Some(h) by { ExtractDefined(c, ts, v, p.nvCert); }
    ReplayAll(x, History(c, ts, u, k), h);
  }

  /** Executing a proposal again changes nothing. */
  lemma ExecuteRepeated(c: Config, ts: Traces, x: Exec, v: nat, j: nat, k: nat)
    requires Evident(c, ts) && j < k <= |Props(c, ts, v)|
    requires Retired(x) && x.delivered == Dedup(History(c, ts, v, k))
    ensures Props(c, ts, v)[j].IsProposal() && ExecuteProposal(x, Props(c, ts, v)[j]) == x
  {
    var p, h := Props(c, ts, v)[j], History(c, ts, v, k);
    HistoryNext(c, ts, v, j);
    assert ProposalsOk(c, ts, v);
    HistoryGrows(c, ts, v, j + 1, k);
    if p.Prepare? {
      ExecuteAgain(x, h, |History(c, ts, v, j)|);
    } else {
      assert Extract(p.nvCert) == Some(History(c, ts, v, 1)) by { ExtractDefined(c, ts, v, p.nvCert); }
      ReplayAgain(x, h, History(c, ts, v, 1));
    }
  }

  // ---------- The step as a whole ----------

  ghost predicate Live(c: Config, ts: Traces, s: Replica, i: nat)
    requires Evident(c, ts)
  {
    !s.exec.stopped && CoreInv(c, ts, s, i)
  }

  /** A commitment that is done has enough replicas committed up to its proposal. */
  lemma DoneCommitted(c: Config, ts: Traces, s: Replica, m: Message, j: nat)
    requires Evident(c, ts) && TallyInv(c, ts, s) && Ready(c, ts, s, m, j) && Done(s.tally, CommitmentOf(m))
    ensures CommittedBy(c, ts, s.expected, j + 1)
  {
    AsCommitment(c, ts, s.expected, m, j);
    TallyStep(c, ts, s, m, j);
    VotersCommitted(c, ts, Tallied(s, m), j);
  }

  /** Proposal j of view v is the latest executed. */
  lemma DoneAt(c: Config, ts: Traces, s: Replica, v: nat, j: nat)
    requires Evident(c, ts) && s.doneView == v && s.doneCV == Base(c, ts, v) + j && Base(c, ts, v) >= 1
    requires j < |Props(c, ts, v)| && CommittedBy(c, ts, v, j + 1) && Retired(s.exec)
    requires s.exec.delivered <= Dedup(History(c, ts, v, j + 1))
    requires !s.exec.stopped ==> s.exec.delivered == Dedup(History(c, ts, v, j + 1))
    ensures DoneInv(c, ts, s)
  {
    assert DoneRank(c, ts, s) == j + 1;
  }

  /** What is delivered after the step. */
  lemma DoneStep(c: Config, ts: Traces, s: Replica, i: nat, m: Message, j: nat)
    requires Evident(c, ts) && Live(c, ts, s, i) && Ready(c, ts, s, m, j)
    ensures DoneInv(c, ts, CollectCommitment(s, m).s)
  {
    var e, v, s' := CommitmentOf(m), s.expected, CollectCommitment(s, m).s;
    if Done(s.tally, e) {
      var k := DoneRank(c, ts, s);
      AsCommitment(c, ts, v, m, j);
      NextDone(c, ts, s, m, j);
      if s.doneView == v && e.primaryCV <= s.doneCV {
        ExecuteRepeated(c, ts, s.exec, v, j, k);
      } else {
        DoneCommitted(c, ts, s, m, j);
        if s.doneView == v {
          ExecuteInView(c, ts, s.exec, v, j);
        } else {
          ExecuteNewView(c, ts, s.exec, s.doneView, k, v);
        }
        DoneAt(c, ts, s', v, j);
      }
    }
  }

  /** Voters above the committing replica's new level are unaffected; up to it they are those for the level. */
  lemma VotersBound(c: Config, ts: Traces, s: Replica, m: Message, j: nat, y: nat)
    requires Evident(c, ts) && TallyInv(c, ts, s) && FrontierInv(s) && Ready(c, ts, s, m, j) && y >= 1
    ensures var e := CommitmentOf(m);
            var u, t' := Entered(s.tally, e), Collect(s.tally, e);
            && Voters(u, y) <= Voters(t', y)
            && (y > e.primaryCV || |Voters(t', y)| > |Voters(t', e.primaryCV)| ==> Voters(t', y) == Voters(u, y))
  {
    var e := CommitmentOf(m);
    var u := Entered(s.tally, e);
    AsCommitment(c, ts, s.expected, m, j);
    FitsView(c, ts, s, m, j);
    VotersStep(s.tally, e, y);
    VotersStep(s.tally, e, e.primaryCV);
    if y <= e.primaryCV && e.replica !in Voters(u, y) {
      NoGap(s.tally, e, Base(c, ts, s.expected), y);
    }
  }

  lemma FrontierStep(c: Config, ts: Traces, s: Replica, i: nat, m: Message, j: nat)
    requires Evident(c, ts) && Live(c, ts, s, i) && Ready(c, ts, s, m, j)
    ensures FrontierInv(CollectCommitment(s, m).s)
  {
    var e, s' := CommitmentOf(m), CollectCommitment(s, m).s;
    var x, len := e.primaryCV, |s.tally.cnt.highest|;
    AsCommitment(c, ts, s.expected, m, j);
    FitsView(c, ts, s, m, j);
    TallyStep(c, ts, s, m, j);
    if Done(s.tally, e) {
      NextDone(c, ts, s, m, j);
    }
    var d := Frontier(s');
    forall y | y > d
      ensures |Voters(s'.tally, y)| <= len
    {
      VotersBound(c, ts, s, m, j, y);
      EnteredVoters(s, m, y);
    }
    if d > 0 && d != x {
      VotersBound(c, ts, s, m, j, d);
      EnteredVoters(s, m, d);
      SubsetSize(Voters(s.tally, d), Voters(s'.tally, d));
    }
  }

  /** Collecting an acceptable commitment of the expected view keeps the core invariant. */
  lemma CollectCore(c: Config, ts: Traces, s: Replica, i: nat, m: Message, j: nat)
    requires Evident(c, ts) && Live(c, ts, s, i) && Ready(c, ts, s, m, j)
    ensures CoreInv(c, ts, CollectCommitment(s, m).s, i)
  {
    var s' := CollectCommitment(s, m).s;
    DoneStep(c, ts, s, i, m, j);
    FrontierStep(c, ts, s, i, m, j);
    TallyStep(c, ts, s, m, j);
    TallyIgnores(c, ts, Tallied(s, m), s');
    CollectorIgnores(c, ts, s, s', i);
  }
}
