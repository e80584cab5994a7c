/** What the messages certified by all replicas evidence together, and why committed requests survive
    view changes.

    `ts[r]` is everything replica r's USIG has certified, in counter order.  The predicates describe the
    traces that replicas following the code produce (module Invariants shows that they do); the theorems
    are about every new-view certificate that can be formed from such traces, in any view. */
module Evidence {
  import opened Messages
  import opened Extraction
  import opened Validation

  type Traces = seq<seq<Message>>

  /** The commitments of one view in a trace: Prepare, NewView and Commit messages. */
  function Comms(t: seq<Message>, v: nat): seq<Message> {
    if t == [] then []
    else
      var rest := Comms(t[..|t| - 1], v);
      if t[|t| - 1].CommitsIn(v) then rest + [t[|t| - 1]] else rest
  }

  lemma CommsAppend(t: seq<Message>, m: Message, v: nat)
    ensures Comms(t + [m], v) == if m.CommitsIn(v) then Comms(t, v) + [m] else Comms(t, v)
  {
    assert (t + [m])[..|t|] == t;
  }

  lemma CommsMember(t: seq<Message>, v: nat, i: nat)
    requires i < |Comms(t, v)|
    ensures Comms(t, v)[i].CommitsIn(v) && Comms(t, v)[i] in t
  {
    if i < |Comms(t[..|t| - 1], v)| {
      CommsMember(t[..|t| - 1], v, i);
    }
  }

  /** The proposals of a view, in the order its primary made them. */
  function Props(c: Config, ts: Traces, v: nat): seq<Message>
    requires c.Ok() && |ts| == c.n
  {
    Comms(ts[c.Primary(v)], v)
  }

  // ---------- What code-following replicas certify ----------

  ghost predicate StampOk(ts: Traces, r: nat, k: nat) {
    r < |ts| && k < |ts[r]| ==> ts[r][k].Sender() == r && ts[r][k].Counter() == k + 1
  }

  /** A ViewChange carries all of its sender's commitments in the view it leaves, preceded by the
      ViewChange that entered that view unless the sender led it. */
  ghost predicate Complete(t: seq<Message>, vc: ViewChange) {
    && vc.newView >= 1
    && Strip(vc.log) == Comms(t, vc.newView - 1)
    && (vc.newView >= 2 ==> |vc.log| > 0)
    && (|vc.log| > 0 && vc.log[0].ViewChangeMsg? ==>
          vc.log[0] in t && vc.newView >= 2 && vc.log[0].vc.newView == vc.newView - 1)
  }

  ghost predicate CompleteOk(ts: Traces, r: nat, vc: ViewChange) {
    r < |ts| && ViewChangeMsg(vc) in ts[r] ==> Complete(ts[r], vc)
  }

  /** A replica certifies at most one ViewChange per view. */
  ghost predicate UniqueOk(ts: Traces, r: nat, a: ViewChange, b: ViewChange) {
    (r < |ts| && ViewChangeMsg(a) in ts[r] && ViewChangeMsg(b) in ts[r] && a.newView == b.newView) ==> a == b
  }

  /** Each replica's commitments in a view follow the primary's proposals from the first, without gap. */
  ghost predicate FollowsOk(c: Config, ts: Traces, r: nat, v: nat)
    requires c.Ok() && |ts| == c.n
  {
    r < c.n ==> Unwraps(Comms(ts[r], v)) <= Props(c, ts, v)
  }

  /** The vc is a ViewChange for v that its sender did certify. */
  ghost predicate Genuine(c: Config, ts: Traces, v: nat, vc: ViewChange)
    requires c.Ok() && |ts| == c.n
  {
    vc.replicaID < c.n && vc.newView == v && ViewChangeMsg(vc) in ts[vc.replicaID]
  }

  /** A certificate of genuine ViewChange messages for v from enough distinct replicas. */
  ghost predicate GenuineCert(c: Config, ts: Traces, v: nat, cert: seq<ViewChange>)
    requires c.Ok() && |ts| == c.n
  {
    && |cert| >= c.f + 1
    && DistinctSenders(cert)
    && forall i {:trigger Genuine(c, ts, v, cert[i])} :: 0 <= i < |cert| ==> Genuine(c, ts, v, cert[i])
  }

  /** The proposals of a view: its NewView message first (none in view 0), then Prepares, under
      consecutive counters. */
  ghost predicate ProposalsOk(c: Config, ts: Traces, v: nat)
    requires c.Ok() && |ts| == c.n
  {
    var p := Props(c, ts, v);
    && (forall j :: 0 <= j < |p| ==> p[j].IsProposal() && (p[j].NewView? <==> j == 0 && v >= 1))
    && (forall j :: 0 <= j < |p| ==> p[j].Counter() == p[0].Counter() + j)
    && (v == 0 && p != [] ==> p[0].Counter() == 1)
    && (v >= 1 && p != [] ==> GenuineCert(c, ts, v, p[0].nvCert))
  }

  /** Traces that replicas following the code can have produced together. */
  ghost predicate Evident(c: Config, ts: Traces) {
    && c.Ok() && |ts| == c.n
    && (forall r, k :: StampOk(ts, r, k))
    && (forall r, vc :: CompleteOk(ts, r, vc))
    && (forall r, a, b :: UniqueOk(ts, r, a, b))
    && (forall r, v :: FollowsOk(c, ts, r, v))
    && (forall v :: ProposalsOk(c, ts, v))
  }

  // ---------- What a genuine certificate selects ----------

  lemma MemberLog(c: Config, ts: Traces, v: nat, cert: seq<ViewChange>, i: nat)
    requires Evident(c, ts) && GenuineCert(c, ts, v, cert) && i < |cert|
    ensures cert[i].replicaID < c.n && Complete(ts[cert[i].replicaID], cert[i]) && cert[i].newView == v
  {
    assert Genuine(c, ts, v, cert[i]);
    assert CompleteOk(ts, cert[i].replicaID, cert[i]);
  }

  /** The log a certificate for v selects holds commitments to an initial part of the proposals of v-1,
      at least as many as any member of the certificate made. */
  lemma SelectedLog(c: Config, ts: Traces, v: nat, cert: seq<ViewChange>)
    requires Evident(c, ts) && v >= 1 && GenuineCert(c, ts, v, cert)
    ensures Unwraps(MaxLog(cert)) <= Props(c, ts, v - 1)
    ensures forall i :: 0 <= i < |cert| ==>
              cert[i].replicaID < c.n && |Comms(ts[cert[i].replicaID], v - 1)| <= |MaxLog(cert)|
  {
    MaxLogDominates(cert);
    forall i | 0 <= i < |cert|
      ensures cert[i].replicaID < c.n && Strip(cert[i].log) == Comms(ts[cert[i].replicaID], v - 1)
    {
      MemberLog(c, ts, v, cert, i);
    }
    if MaxLog(cert) != [] {
      var i :| 0 <= i < |cert| && MaxLog(cert) == Strip(cert[i].log);
      assert FollowsOk(c, ts, cert[i].replicaID, v - 1);
    }
  }

  /** When no member committed to anything in v-1, the leading ViewChange messages form a genuine
      certificate for v-1 from the same replicas. */
  lemma DescendCert(c: Config, ts: Traces, v: nat, cert: seq<ViewChange>)
    requires Evident(c, ts) && v >= 1 && GenuineCert(c, ts, v, cert) && MaxLog(cert) == []
    ensures v == 1 ==> Leading(cert) == []
    ensures v >= 2 ==> Leading(cert) != [] && GenuineCert(c, ts, v - 1, Leading(cert))
  {
    MaxLogDominates(cert);
    if v == 1 {
      forall i | 0 <= i < |cert|
        ensures |cert[i].log| > 0 ==> !cert[i].log[0].ViewChangeMsg?
      {
        MemberLog(c, ts, v, cert, i);
      }
      LeadingEmpty(cert);
    } else {
      forall i | 0 <= i < |cert|
        ensures |cert[i].log| > 0 && cert[i].log[0].ViewChangeMsg?
        ensures Genuine(c, ts, v - 1, cert[i].log[0].vc) && cert[i].log[0].vc.replicaID == cert[i].replicaID
      {
        LeadingMember(c, ts, v, cert, i);
      }
      LeadingPointwise(cert);
    }
  }

  lemma LeadingMember(c: Config, ts: Traces, v: nat, cert: seq<ViewChange>, i: nat)
    requires Evident(c, ts) && v >= 2 && GenuineCert(c, ts, v, cert) && i < |cert| && |Strip(cert[i].log)| == 0
    ensures |cert[i].log| > 0 && cert[i].log[0].ViewChangeMsg?
    ensures Genuine(c, ts, v - 1, cert[i].log[0].vc) && cert[i].log[0].vc.replicaID == cert[i].replicaID
  {
    MemberLog(c, ts, v, cert, i);
    var r := cert[i].replicaID;
    var k :| 0 <= k < |ts[r]| && ts[r][k] == cert[i].log[0];
    assert StampOk(ts, r, k);
  }

  // ---------- The history of requests a view stands for ----------

  /** The requests of the first k proposals of a view, together with everything its NewView message
      brings along from earlier views. */
  ghost function History(c: Config, ts: Traces, v: nat, k: nat): seq<Request>
    requires Evident(c, ts) && k <= |Props(c, ts, v)|
  {
    HistoryDefined(c, ts, v, k);
    Fold(Props(c, ts, v)[..k]).value
  }

  lemma ExtractSelected(c: Config, ts: Traces, v: nat, cert: seq<ViewChange>)
    requires Evident(c, ts) && v >= 1 && GenuineCert(c, ts, v, cert) && MaxLog(cert) != []
    ensures |MaxLog(cert)| <= |Props(c, ts, v - 1)|
    ensures Extract(cert) == Fold(Props(c, ts, v - 1)[..|MaxLog(cert)|])
  {
    SelectedLog(c, ts, v, cert);
    var p, l := Props(c, ts, v - 1), MaxLog(cert);
    assert ProposalsOk(c, ts, v - 1);
    assert Unwraps(l) == p[..|l|];
    forall i | 0 <= i < |l|
      ensures l[i].Unwrap().IsProposal()
    {
      assert l[i].Unwrap() == p[i];
    }
    FoldUnwraps(l);
  }

  lemma ExtractDescended(c: Config, ts: Traces, v: nat, cert: seq<ViewChange>)
    requires Evident(c, ts) && v >= 1 && GenuineCert(c, ts, v, cert) && MaxLog(cert) == []
    ensures v == 1 ==> Extract(cert) == Some([])
    ensures v >= 2 ==> GenuineCert(c, ts, v - 1, Leading(cert)) && Extract(cert) == Extract(Leading(cert))
  {
    DescendCert(c, ts, v, cert);
  }

  /** Extraction never panics on genuine evidence. */
  lemma {:induction false} HistoryDefined(c: Config, ts: Traces, v: nat, k: nat)
    requires Evident(c, ts) && k <= |Props(c, ts, v)|
    ensures Fold(Props(c, ts, v)[..k]).Some?
    decreases v, 1, k
  {
    if k > 0 {
      var p := Props(c, ts, v);
      assert ProposalsOk(c, ts, v);
      HistoryDefined(c, ts, v, k - 1);
      assert p[..k][..k - 1] == p[..k - 1];
      if p[k - 1].NewView? {
        ExtractDefined(c, ts, v, p[0].nvCert);
      }
    }
  }

  lemma {:induction false} ExtractDefined(c: Config, ts: Traces, v: nat, cert: seq<ViewChange>)
    requires Evident(c, ts) && v >= 1 && GenuineCert(c, ts, v, cert)
    ensures Extract(cert).Some?
    decreases v, 0, 0
  {
    if MaxLog(cert) != [] {
      ExtractSelected(c, ts, v, cert);
      HistoryDefined(c, ts, v - 1, |MaxLog(cert)|);
    } else {
      ExtractDescended(c, ts, v, cert);
      if v >= 2 {
        ExtractDefined(c, ts, v - 1, Leading(cert));
      }
    }
  }

  /** What a genuine certificate evidences. */
  ghost function Evidenced(c: Config, ts: Traces, v: nat, cert: seq<ViewChange>): seq<Request>
    requires Evident(c, ts) && v >= 1 && GenuineCert(c, ts, v, cert)
  {
    ExtractDefined(c, ts, v, cert);
    Extract(cert).value
  }

  /** It is the history of the view left behind, as far as the selected log goes, ... */
  lemma EvidencedSelected(c: Config, ts: Traces, v: nat, cert: seq<ViewChange>)
    requires Evident(c, ts) && v >= 1 && GenuineCert(c, ts, v, cert) && MaxLog(cert) != []
    ensures |MaxLog(cert)| <= |Props(c, ts, v - 1)|
    ensures Evidenced(c, ts, v, cert) == History(c, ts, v - 1, |MaxLog(cert)|)
  {
    ExtractSelected(c, ts, v, cert);
  }

  /** ... or, if nothing was proposed there, what the certificate one view below evidences. */
  lemma EvidencedDescended(c: Config, ts: Traces, v: nat, cert: seq<ViewChange>)
    requires Evident(c, ts) && v >= 2 && GenuineCert(c, ts, v, cert) && MaxLog(cert) == []
    ensures GenuineCert(c, ts, v - 1, Leading(cert))
    ensures Evidenced(c, ts, v, cert) == Evidenced(c, ts, v - 1, Leading(cert))
  {
    ExtractDescended(c, ts, v, cert);
  }

  lemma HistoryNext(c: Config, ts: Traces, v: nat, k: nat)
    requires Evident(c, ts) && k < |Props(c, ts, v)|
    ensures var m := Props(c, ts, v)[k];
            if m.Prepare? then History(c, ts, v, k + 1) == History(c, ts, v, k) + [m.request]
            else k == 0 && v >= 1 && m.NewView? && GenuineCert(c, ts, v, m.nvCert)
                 && Evidenced(c, ts, v, m.nvCert) == History(c, ts, v, 1)
    ensures k == 0 && v >= 1 ==> Props(c, ts, v)[k].NewView?
  {
    var p := Props(c, ts, v);
    assert ProposalsOk(c, ts, v);
    assert p[..k + 1][..k] == p[..k];
    HistoryDefined(c, ts, v, k);
    HistoryDefined(c, ts, v, k + 1);
  }

  lemma HistoryEmpty(c: Config, ts: Traces, v: nat)
    requires Evident(c, ts)
    ensures History(c, ts, v, 0) == []
  {
  }

  /** Within a view, the history only grows. */
  lemma {:induction false} HistoryGrows(c: Config, ts: Traces, v: nat, j: nat, k: nat)
    requires Evident(c, ts) && j <= k <= |Props(c, ts, v)|
    ensures History(c, ts, v, j) <= History(c, ts, v, k)
    decreases k
  {
    if j == 0 {
      HistoryEmpty(c, ts, v);
    } else if j < k {
      HistoryGrows(c, ts, v, j, k - 1);
      HistoryNext(c, ts, v, k - 1);
    }
  }

  // ---------- Committed requests survive ----------

  /** Replicas that have committed to the first k proposals of view v. */
  ghost function Committers(c: Config, ts: Traces, v: nat, k: nat): set<nat>
    requires c.Ok() && |ts| == c.n
  {
    set r | 0 <= r < c.n && |Comms(ts[r], v)| >= k
  }

  ghost predicate CommittedBy(c: Config, ts: Traces, v: nat, k: nat)
    requires c.Ok() && |ts| == c.n
  {
    |Committers(c, ts, v, k)| >= c.n - c.f
  }

  ghost function Members(cert: seq<ViewChange>): set<nat> {
    set i | 0 <= i < |cert| :: cert[i].replicaID
  }

  lemma {:induction false} MembersCount(cert: seq<ViewChange>)
    requires DistinctSenders(cert)
    ensures |Members(cert)| == |cert|
  {
    if cert != [] {
      var k := |cert| - 1;
      MembersCount(cert[..k]);
      assert Members(cert) == Members(cert[..k]) + {cert[k].replicaID};
    }
  }

  /** The replica identifiers. */
  ghost function Ids(n: nat): (s: set<nat>)
    ensures |s| == n
    ensures forall r :: r in s <==> 0 <= r < n
  {
    if n == 0 then {} else Ids(n - 1) + {n - 1}
  }

  /** A commit quorum and a view-change quorum share a replica. */
  lemma QuorumsIntersect(c: Config, a: set<nat>, b: set<nat>) returns (r: nat)
    requires c.Ok() && a <= Ids(c.n) && b <= Ids(c.n) && |a| >= c.n - c.f && |b| >= c.f + 1
    ensures r in a && r in b
  {
    assert |a + b| + |a * b| == |a| + |b|;
    assert Ids(c.n) == (a + b) + (Ids(c.n) - (a + b));
    r :| r in a * b;
  }

  /** A certificate that selects something proposed in the view left behind evidences at least what that
      view's own NewView message brought along. */
  lemma SelectedExtends(c: Config, ts: Traces, v: nat, cert: seq<ViewChange>)
    requires Evident(c, ts) && v >= 2 && GenuineCert(c, ts, v, cert) && MaxLog(cert) != []
    ensures var p := Props(c, ts, v - 1);
            && p != [] && p[0].NewView? && GenuineCert(c, ts, v - 1, p[0].nvCert)
            && Evidenced(c, ts, v - 1, p[0].nvCert) <= Evidenced(c, ts, v, cert)
  {
    EvidencedSelected(c, ts, v, cert);
    HistoryNext(c, ts, v - 1, 0);
    HistoryGrows(c, ts, v - 1, 1, |MaxLog(cert)|);
  }

  /** Committed requests survive: what enough replicas have committed to in view u is a prefix of what
      every new-view certificate of any later view evidences, however many views between the two were
      empty or started but left again. */
  lemma {:induction false} CommittedSurvive(c: Config, ts: Traces, u: nat, k: nat, v: nat, cert: seq<ViewChange>)
    requires Evident(c, ts) && u < v && GenuineCert(c, ts, v, cert)
    requires k <= |Props(c, ts, u)| && CommittedBy(c, ts, u, k)
    ensures History(c, ts, u, k) <= Evidenced(c, ts, v, cert)
    decreases v
  {
    if k == 0 {
      HistoryEmpty(c, ts, u);
    } else if v - 1 == u {
      SurviveOne(c, ts, u, k, cert);
    } else if MaxLog(cert) != [] {
      SelectedExtends(c, ts, v, cert);
      CommittedSurvive(c, ts, u, k, v - 1, Props(c, ts, v - 1)[0].nvCert);
    } else {
      EvidencedDescended(c, ts, v, cert);
      CommittedSurvive(c, ts, u, k, v - 1, Leading(cert));
    }
  }

  lemma SurviveOne(c: Config, ts: Traces, u: nat, k: nat, cert: seq<ViewChange>)
    requires Evident(c, ts) && GenuineCert(c, ts, u + 1, cert)
    requires 0 < k <= |Props(c, ts, u)| && CommittedBy(c, ts, u, k)
    ensures History(c, ts, u, k) <= Evidenced(c, ts, u + 1, cert)
  {
    SelectedReaches(c, ts, u, k, cert);
    EvidencedSelected(c, ts, u + 1, cert);
    HistoryGrows(c, ts, u, k, |MaxLog(cert)|);
  }

  /** The selected log reaches at least as far as what a commit quorum committed to. */
  lemma SelectedReaches(c: Config, ts: Traces, u: nat, k: nat, cert: seq<ViewChange>)
    requires Evident(c, ts) && GenuineCert(c, ts, u + 1, cert) && CommittedBy(c, ts, u, k)
    ensures k <= |MaxLog(cert)|
  {
    var i := SharedMember(c, ts, u, k, cert);
    SelectedLog(c, ts, u + 1, cert);
  }

  /** Some member of the certificate is among the replicas that committed. */
  lemma SharedMember(c: Config, ts: Traces, u: nat, k: nat, cert: seq<ViewChange>) returns (i: nat)
    requires Evident(c, ts) && GenuineCert(c, ts, u + 1, cert) && CommittedBy(c, ts, u, k)
    ensures i < |cert| && cert[i].replicaID < c.n && |Comms(ts[cert[i].replicaID], u)| >= k
  {
    MembersCount(cert);
    forall r | r in Members(cert)
      ensures r in Ids(c.n)
    {
      var i :| 0 <= i < |cert| && cert[i].replicaID == r;
      assert Genuine(c, ts, u + 1, cert[i]);
    }
    var r := QuorumsIntersect(c, Committers(c, ts, u, k), Members(cert));
    i :| 0 <= i < |cert| && cert[i].replicaID == r;
  }

  /** Two committed histories are prefix-comparable, whichever views they were committed in. */
  lemma CommittedComparable(c: Config, ts: Traces, u: nat, j: nat, v: nat, k: nat)
    requires Evident(c, ts) && u <= v
    requires j <= |Props(c, ts, u)| && CommittedBy(c, ts, u, j)
    requires k <= |Props(c, ts, v)| && (k == 0 ==> u == v)
    ensures if u < v || j <= k then History(c, ts, u, j) <= History(c, ts, v, k)
            else History(c, ts, v, k) <= History(c, ts, u, j)
  {
    if u == v {
      if j <= k { HistoryGrows(c, ts, u, j, k); } else { HistoryGrows(c, ts, u, k, j); }
    } else {
      HistoryNext(c, ts, v, 0);
      CommittedSurvive(c, ts, u, j, v, Props(c, ts, v)[0].nvCert);
      HistoryGrows(c, ts, v, 1, k);
    }
  }
}
