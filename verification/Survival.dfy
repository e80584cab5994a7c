/** Committed requests survive view changes, whoever sent the evidence.

    Nothing is assumed here about how messages came about, beyond what validation and USIG verify of them, except
    that logs are well formed: validation does not check the view of Prepare and Commit entries
    (core/view-change.go:147-150), so it is a hypothesis that the entries after the head are commitments to
    consecutive proposals of the view left behind, as replicas that follow the code produce
    (messages/testing/testutils.go:99-143), and that a replica's ViewChange message comes after the commitment it
    is counted for.  That such a log is complete follows from its counters alone. */
module Survival {
  import opened Messages
  import opened Extraction
  import opened Validation
  import opened Authen
  import opened Determinism
  import opened Evidence
  import Collecting

  /** The counter of the first proposal of each view. */
  type Bases = nat -> nat

  /** Message p is proposal number j of view u. */
  ghost predicate ProposalAt(base: Bases, p: Message, u: nat, j: nat) {
    p.IsProposal() && View(p) == u && p.Counter() == base(u) + j && (p.NewView? <==> j == 0 && u >= 1)
  }

  /** A number of proposals of a view, and for some replicas a commitment to the last of them. */
  datatype Quorum = Quorum(view: nat, proposals: seq<Message>, votes: map<nat, Message>)

  ghost predicate QuorumOk(e: Env, base: Bases, q: Quorum)
    requires e.c.Ok()
  {
    && (forall j :: 0 <= j < |q.proposals| ==>
          ProposalAt(base, q.proposals[j], q.view, j) && Authentic(e, q.proposals[j]))
    && q.proposals != []
    && |q.votes.Keys| >= e.c.n - e.c.f && q.votes.Keys <= Ids(e.c.n)
    && forall r :: r in q.votes ==>
         && Authentic(e, q.votes[r]) && q.votes[r].Sender() == r
         && ProposalAt(base, q.votes[r].Unwrap(), q.view, |q.proposals| - 1)
  }

  /** The log of a ViewChange message after its head. */
  ghost predicate WellFormedLog(base: Bases, vc: ViewChange) {
    var l := Strip(vc.log);
    vc.newView >= 1 && forall j :: 0 <= j < |l| ==> ProposalAt(base, l[j].Unwrap(), vc.newView - 1, j)
  }

  /** A voter's ViewChange message for the next view comes after its vote, and its log reaches back to it. */
  ghost predicate KeepsVote(q: Quorum, vc: ViewChange) {
    vc.newView == q.view + 1 && vc.replicaID in q.votes ==>
      vc.cv - |vc.log| <= q.votes[vc.replicaID].Counter() < vc.cv
  }

  /** The ViewChange messages in m, to any depth, are well formed and keep the votes. */
  ghost predicate Proper(base: Bases, q: Quorum, m: Message)
    decreases Size(m)
  {
    && (m.ViewChangeMsg? ==> WellFormedLog(base, m.vc) && KeepsVote(q, m.vc))
    && forall k :: 0 <= k < |Embedded(m)| ==> (EmbeddedSmaller(m, k); Proper(base, q, Embedded(m)[k]))
  }

  /** A certificate of authentic, proper ViewChange messages for view v from f+1 distinct replicas. */
  ghost predicate CertOk(e: Env, base: Bases, q: Quorum, v: nat, cert: seq<ViewChange>)
    requires e.c.Ok()
  {
    && |cert| >= e.c.f + 1 && DistinctSenders(cert)
    && forall i :: 0 <= i < |cert| ==> MemberProper(e, base, q, v, cert[i])
  }

  ghost predicate MemberProper(e: Env, base: Bases, q: Quorum, v: nat, vc: ViewChange)
    requires e.c.Ok()
  {
    vc.newView == v && Authentic(e, ViewChangeMsg(vc)) && Proper(base, q, ViewChangeMsg(vc))
  }

  // ---------- Folding ----------

  /** A log that goes on with Prepare messages stands for at least what it stood for. */
  lemma {:induction false} FoldExtends(l: seq<Message>, k: nat)
    requires 0 < k <= |l| && Fold(l[..k]).Some? && forall j :: k <= j < |l| ==> l[j].Prepare?
    ensures Fold(l).Some? && Fold(l[..k]).value <= Fold(l).value
    decreases |l|
  {
    if k == |l| {
      assert l[..k] == l;
    } else {
      var n := |l| - 1;
      assert l[..n][..k] == l[..k];
      FoldExtends(l[..n], k);
    }
  }

  lemma DigestsPrefix(h: Hash, a: seq<Request>, b: seq<Request>)
    requires a <= b
    ensures Digests(h, a) <= Digests(h, b)
  {
    forall i | 0 <= i < |a|
      ensures Digests(h, a)[i] == Digests(h, b)[i]
    {
      assert a[i] == b[i];
    }
  }

  /** An authentic, proper proposal in its place. */
  ghost predicate EntryOk(e: Env, base: Bases, q: Quorum, p: Message, u: nat, j: nat)
    requires e.c.Ok()
  {
    ProposalAt(base, p, u, j) && Authentic(e, p) && Proper(base, q, p)
  }

  lemma EntryProper(e: Env, base: Bases, q: Quorum, v: nat, vc: ViewChange, j: nat)
    requires e.c.Ok() && MemberProper(e, base, q, v, vc) && j < |Strip(vc.log)|
    ensures v >= 1 && EntryOk(e, base, q, Strip(vc.log)[j].Unwrap(), v - 1, j)
  {
    var m := Strip(vc.log)[j];
    var k := if Strip(vc.log) == vc.log then j else j + 1;
    assert Embedded(ViewChangeMsg(vc))[k] == m;
    PartOk(e, base, q, ViewChangeMsg(vc), k);
    assert WellFormedLog(base, vc);
    if m.Commit? {
      assert Embedded(m)[0] == m.proposal;
      PartOk(e, base, q, m, 0);
    }
    Placed(e, base, q, m.Unwrap(), v - 1, j);
  }

  lemma PartOk(e: Env, base: Bases, q: Quorum, m: Message, k: nat)
    requires e.c.Ok() && Authentic(e, m) && Proper(base, q, m) && k < |Embedded(m)|
    ensures Authentic(e, Embedded(m)[k]) && Proper(base, q, Embedded(m)[k])
  {
    var x := Embedded(m)[k];
    assert Authentic(e, x);
    assert Proper(base, q, x);
  }

  lemma Placed(e: Env, base: Bases, q: Quorum, p: Message, u: nat, j: nat)
    requires e.c.Ok() && Authentic(e, p) && Proper(base, q, p) && ProposalAt(base, p, u, j)
    ensures EntryOk(e, base, q, p, u, j)
  {
  }

  /** The proposals of the selected log, which stand for what the certificate evidences. */
  lemma SelectedProposals(e: Env, base: Bases, q: Quorum, v: nat, cert: seq<ViewChange>) returns (p: seq<Message>)
    requires e.c.Ok() && CertOk(e, base, q, v, cert) && MaxLog(cert) != []
    ensures v >= 1 && |p| == |MaxLog(cert)| && Extract(cert) == Fold(p)
    ensures forall j :: 0 <= j < |p| ==> EntryOk(e, base, q, p[j], v - 1, j)
  {
    var l := MaxLog(cert);
    assert exists i :: 0 <= i < |cert| && l == Strip(cert[i].log) by { MaxLogDominates(cert); }
    var i :| 0 <= i < |cert| && l == Strip(cert[i].log);
    p := LogProposals(e, base, q, v, cert[i]);
  }

  lemma LogProposals(e: Env, base: Bases, q: Quorum, v: nat, vc: ViewChange) returns (p: seq<Message>)
    requires e.c.Ok() && MemberProper(e, base, q, v, vc) && Strip(vc.log) != []
    ensures v >= 1 && |p| == |Strip(vc.log)| && Fold(Strip(vc.log)) == Fold(p)
    ensures forall j :: 0 <= j < |p| ==> EntryOk(e, base, q, p[j], v - 1, j)
  {
    var l := Strip(vc.log);
    p := Unwraps(l);
    EntryProper(e, base, q, v, vc, 0);
    forall j | 0 <= j < |p|
      ensures EntryOk(e, base, q, p[j], v - 1, j) && l[j].Unwrap().IsProposal()
    {
      EntryProper(e, base, q, v, vc, j);
    }
    FoldUnwraps(l);
  }

  // ---------- The next view ----------

  /** Some member of the certificate has voted, and its log shows it. */
  lemma LogReaches(e: Env, base: Bases, q: Quorum, cert: seq<ViewChange>)
    requires e.c.Ok() && QuorumOk(e, base, q) && CertOk(e, base, q, q.view + 1, cert)
    ensures |MaxLog(cert)| >= |q.proposals|
  {
    MembersCount(cert);
    forall r | r in Members(cert)
      ensures r in Ids(e.c.n)
    {
      var i :| 0 <= i < |cert| && cert[i].replicaID == r;
      assert MemberProper(e, base, q, q.view + 1, cert[i]);
    }
    var r := QuorumsIntersect(e.c, q.votes.Keys, Members(cert));
    var i :| 0 <= i < |cert| && cert[i].replicaID == r;
    assert MemberProper(e, base, q, q.view + 1, cert[i]);
    VoteLogged(e, base, q, cert[i]);
    MaxLogDominates(cert);
  }

  lemma VoteLogged(e: Env, base: Bases, q: Quorum, vc: ViewChange)
    requires e.c.Ok() && QuorumOk(e, base, q) && MemberProper(e, base, q, q.view + 1, vc) && vc.replicaID in q.votes
    ensures |Strip(vc.log)| >= |q.proposals|
  {
    var m := q.votes[vc.replicaID];
    assert Authentic(e, ViewChangeMsg(vc)) && Authentic(e, m) && m.Sender() == vc.replicaID;
    assert KeepsVote(q, vc);
    StrippedComplete(e, vc, m);
    var k := m.Counter() - FirstCounter(vc);
    EntryProper(e, base, q, q.view + 1, vc, k);
    SameProposal(e.hash, Strip(vc.log)[k], m);
  }

  /** Commitments of one content and counter are to proposals of one counter. */
  lemma SameProposal(h: Hash, x: Message, m: Message)
    requires ContentOf(h, x) == ContentOf(h, m) && x.Counter() == m.Counter()
    ensures x.Unwrap().Counter() == m.Unwrap().Counter()
  {
  }

  lemma TwinProposals(e: Env, base: Bases, a: seq<Message>, b: seq<Message>, u: nat)
    requires e.c.Ok() && |a| == |b|
    requires forall j :: 0 <= j < |a| ==> ProposalAt(base, a[j], u, j) && Authentic(e, a[j])
    requires forall j :: 0 <= j < |b| ==> ProposalAt(base, b[j], u, j) && Authentic(e, b[j])
    ensures TwinLogs(e, a, b)
  {
  }

  /** What the list evidences begins with what the proposals stand for, as far as authenticated. */
  ghost predicate Begins(h: Hash, q: Quorum, x: Option<seq<Request>>) {
    && Fold(q.proposals).Some? && x.Some?
    && Digests(h, Fold(q.proposals).value) <= Digests(h, x.value)
  }

  lemma QuorumDefined(e: Env, base: Bases, q: Quorum)
    requires e.c.Ok() && QuorumOk(e, base, q)
    ensures Fold(q.proposals).Some?
  {
    forall i | 0 <= i < |q.proposals|
      ensures DeepValid(e.c, q.proposals[i]) && !q.proposals[i].ViewChangeMsg?
    {
      assert ProposalAt(base, q.proposals[i], q.view, i);
      AuthenticDeepValid(e, q.proposals[i]);
    }
    FoldNeverPanics(e.c, q.proposals);
  }

  lemma SameStart(e: Env, base: Bases, q: Quorum, p: seq<Message>)
    requires e.c.Ok() && QuorumOk(e, base, q) && |q.proposals| <= |p|
    requires forall j :: 0 <= j < |p| ==> EntryOk(e, base, q, p[j], q.view, j)
    ensures Begins(e.hash, q, Fold(p))
  {
    var k := |q.proposals|;
    forall j | 0 <= j < |p|
      ensures ProposalAt(base, p[j], q.view, j) && Authentic(e, p[j])
    {
      assert EntryOk(e, base, q, p[j], q.view, j);
    }
    TwinProposals(e, base, p[..k], q.proposals, q.view);
    FoldTwins(e, p[..k], q.proposals);
    QuorumDefined(e, base, q);
    FoldExtends(p, k);
    DigestsPrefix(e.hash, Fold(p[..k]).value, Fold(p).value);
  }

  lemma NextView(e: Env, base: Bases, q: Quorum, cert: seq<ViewChange>)
    requires e.c.Ok() && QuorumOk(e, base, q) && CertOk(e, base, q, q.view + 1, cert)
    ensures Begins(e.hash, q, Extract(cert))
  {
    LogReaches(e, base, q, cert);
    var p := SelectedProposals(e, base, q, q.view + 1, cert);
    SameStart(e, base, q, p);
  }

  // ---------- Later views ----------

  /** The certificate of a well-placed NewView message is in order. */
  lemma NestedCert(e: Env, base: Bases, q: Quorum, m: Message)
    requires e.c.Ok() && m.NewView? && Authentic(e, m) && Proper(base, q, m)
    ensures CertOk(e, base, q, m.newView, m.nvCert)
  {
    assert Validate(e.c, m) == Accept;
    forall i | 0 <= i < |m.nvCert|
      ensures MemberProper(e, base, q, m.newView, m.nvCert[i])
    {
      assert Embedded(m)[i] == ViewChangeMsg(m.nvCert[i]);
      PartOk(e, base, q, m, i);
    }
  }

  /** A certificate that selects a log evidences what the NewView message of the view left behind brought along. */
  lemma SelectedBegins(e: Env, base: Bases, q: Quorum, v: nat, cert: seq<ViewChange>) returns (m: Message)
    requires e.c.Ok() && CertOk(e, base, q, v, cert) && MaxLog(cert) != [] && v >= 2
    ensures m.NewView? && CertOk(e, base, q, v - 1, m.nvCert)
    ensures Begins(e.hash, q, Extract(m.nvCert)) ==> Begins(e.hash, q, Extract(cert))
  {
    var p := SelectedProposals(e, base, q, v, cert);
    m := p[0];
    assert EntryOk(e, base, q, m, v - 1, 0);
    NestedCert(e, base, q, m);
    assert p[..1] == [m] && [m][..0] == [];
    if Begins(e.hash, q, Extract(m.nvCert)) {
      forall j | 1 <= j < |p|
        ensures p[j].Prepare?
      {
        assert EntryOk(e, base, q, p[j], v - 1, j);
      }
      FoldExtends(p, 1);
      DigestsPrefix(e.hash, Extract(m.nvCert).value, Fold(p).value);
    }
  }

  lemma HeadProper(e: Env, base: Bases, q: Quorum, v: nat, vc: ViewChange)
    requires e.c.Ok() && MemberProper(e, base, q, v, vc) && v >= 2 && Strip(vc.log) == []
    ensures |vc.log| > 0 && vc.log[0].ViewChangeMsg? && vc.log[0].vc.replicaID == vc.replicaID
    ensures MemberProper(e, base, q, v - 1, vc.log[0].vc)
  {
    var m := ViewChangeMsg(vc);
    assert Validate(e.c, m) == Accept;
    assert Embedded(m)[0] == vc.log[0];
    PartOk(e, base, q, m, 0);
    assert vc.log[0] == ViewChangeMsg(vc.log[0].vc);
  }

  /** A certificate that selects nothing leads one view down. */
  lemma DescendsBegins(e: Env, base: Bases, q: Quorum, v: nat, cert: seq<ViewChange>)
    requires e.c.Ok() && CertOk(e, base, q, v, cert) && MaxLog(cert) == [] && v >= 2
    ensures CertOk(e, base, q, v - 1, Leading(cert)) && Extract(cert) == Extract(Leading(cert))
  {
    MaxLogDominates(cert);
    forall i | 0 <= i < |cert|
      ensures |cert[i].log| > 0 && cert[i].log[0].ViewChangeMsg?
      ensures cert[i].log[0].vc.replicaID == cert[i].replicaID
      ensures MemberProper(e, base, q, v - 1, cert[i].log[0].vc)
    {
      assert MemberProper(e, base, q, v, cert[i]);
      HeadProper(e, base, q, v, cert[i]);
    }
    LeadingPointwise(cert);
  }

  /** Committed requests survive: if n-f replicas have committed to the first proposals of view u, then for every
      later view, every certificate of f+1 distinct, authentic, well-formed ViewChange messages evidences the
      requests up to that point first. */
  lemma {:induction false} WellFormedSurvive(e: Env, base: Bases, q: Quorum, v: nat, cert: seq<ViewChange>)
    requires e.c.Ok() && QuorumOk(e, base, q) && v > q.view && CertOk(e, base, q, v, cert)
    ensures Begins(e.hash, q, Extract(cert))
    decreases v
  {
    if v == q.view + 1 {
      NextView(e, base, q, cert);
    } else if MaxLog(cert) != [] {
      var m := SelectedBegins(e, base, q, v, cert);
      WellFormedSurvive(e, base, q, v - 1, m.nvCert);
    } else {
      DescendsBegins(e, base, q, v, cert);
      WellFormedSurvive(e, base, q, v - 1, Leading(cert));
    }
  }

  // ---------- Replicas that follow the code ----------

  /** The function gives the counter of each view's first proposal. */
  ghost predicate BasesOf(c: Config, ts: Traces, base: Bases)
    requires c.Ok() && |ts| == c.n
  {
    forall v :: Props(c, ts, v) != [] ==> base(v) == Props(c, ts, v)[0].Counter()
  }

  /** Their logs are well formed, ... */
  lemma EvidentWellFormed(c: Config, ts: Traces, base: Bases, r: nat, vc: ViewChange)
    requires Evident(c, ts) && BasesOf(c, ts, base) && r < c.n && ViewChangeMsg(vc) in ts[r]
    ensures WellFormedLog(base, vc)
  {
    assert CompleteOk(ts, r, vc);
    var u, l := vc.newView - 1, Strip(vc.log);
    var p := Props(c, ts, u);
    assert FollowsOk(c, ts, r, u) && ProposalsOk(c, ts, u);
    forall j | 0 <= j < |l|
      ensures ProposalAt(base, l[j].Unwrap(), u, j)
    {
      assert Unwraps(l)[j] == p[j];
      CommsMember(ts[c.Primary(u)], u, j);
    }
  }

  /** ... and their ViewChange messages keep their votes. */
  lemma EvidentKeepsVote(c: Config, ts: Traces, q: Quorum, r: nat, vc: ViewChange)
    requires Evident(c, ts) && r < c.n && ViewChangeMsg(vc) in ts[r] && ViewChangeOk(c, vc) && vc.replicaID == r
    requires r in q.votes ==> q.votes[r] in ts[r] && q.votes[r].CommitsIn(q.view)
    ensures KeepsVote(q, vc)
  {
    if vc.newView == q.view + 1 && r in q.votes {
      assert CompleteOk(ts, r, vc);
      var j := Collecting.CommsIndex(ts[r], q.votes[r], q.view);
      var k := if Strip(vc.log) == vc.log then j else j + 1;
      assert vc.log[k] == q.votes[r];
    }
  }
}
