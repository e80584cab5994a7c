/** How far a replica may fall behind without entering a view before it expects it.

    A ViewChange message embeds the requests for its view before the log that leads up to that view
    (core/message-handling.go:502-512), so handling one raises the expected view by one view even if the
    message is for a much later one.  A NewView message embeds at least f+1 of them: one for a view at most
    f+1 above the expected view is entered only once that view is expected.  Beyond that the code does
    enter views ahead of time; module Overtaken has a run. */
module Pacing {
  import opened Messages
  import opened Extraction
  import opened Validation
  import opened Commitments
  import opened Replica
  import opened Evidence
  import opened Invariants
  import opened System
  import opened Agreement
  import opened Handling
  import opened Capturing
  import opened Steadiness
  import opened Inputs
  import Collecting
  import Processing

  // ---------- What messages of code-following replicas look like ----------

  /** The highest view that a NewView message met in handling m, m included, can be for. */
  function Reach(m: Message): nat {
    match m
    case Prepare(_, _, _, _) => 0
    case Commit(_, p, _) => Reach(p)
    case ViewChangeMsg(vc) => if vc.newView == 0 then 0 else vc.newView - 1
    case NewView(_, v, _, _) => v
  }

  /** Certificates are full, and logs begin with the message that began the view they are about. */
  ghost predicate Leveled(c: Config, m: Message)
    requires c.Ok()
    decreases Size(m)
  {
    && (m.Commit? ==> m.proposal.IsProposal())
    && (m.ViewChangeMsg? ==>
          && ViewChangeCertOk(c.ViewChangeCertSize(), m.vc.newView, m.vc.vcCert)
          && (m.vc.newView >= 2 ==>
                && m.vc.log != [] && (m.vc.log[0].ViewChangeMsg? || m.vc.log[0].NewView?)
                && View(m.vc.log[0]) == m.vc.newView - 1)
          && forall k :: 0 <= k < |m.vc.log| ==> Reach(m.vc.log[k]) <= Reach(m))
    && (m.NewView? ==>
          |m.nvCert| >= c.f + 1 && forall k :: 0 <= k < |m.nvCert| ==> m.nvCert[k].newView == m.newView)
    && forall k :: 0 <= k < |Embedded(m)| ==> (EmbeddedSmaller(m, k); Leveled(c, Embedded(m)[k]))
  }

  lemma LogLeveled(c: Config, g: State, vc: ViewChange, k: nat)
    requires Inv(c, g) && Sent(g, ViewChangeMsg(vc)) && k < |vc.log|
    ensures vc.newView >= 1 && Reach(vc.log[k]) <= vc.newView - 1
    ensures k == 0 && vc.newView >= 2 ==>
              (vc.log[0].ViewChangeMsg? || vc.log[0].NewView?) && View(vc.log[0]) == vc.newView - 1
  {
    var ts, r, m := TracesOf(g), vc.replicaID, vc.log[k];
    assert At(c, g, r);
    assert ValidOk(c, g[r], ViewChangeMsg(vc)) && CompleteOk(ts, r, vc);
    if !(vc.log[0].ViewChangeMsg? && k == 0) {
      var j := if vc.log[0].ViewChangeMsg? then k - 1 else k;
      assert Strip(vc.log)[j] == m;
      CommsMember(ts[r], vc.newView - 1, j);
    }
  }

  lemma {:induction false} SentLeveled(c: Config, g: State, m: Message)
    requires Inv(c, g) && Sent(g, m)
    ensures Leveled(c, m)
    decreases Size(m)
  {
    forall k | 0 <= k < |Embedded(m)|
      ensures Leveled(c, Embedded(m)[k])
    {
      EmbeddedSmaller(m, k);
      EmbeddedSent(c, g, m, k);
      SentLeveled(c, g, Embedded(m)[k]);
    }
    SentDeepValid(c, g, m);
    if m.ViewChangeMsg? {
      assert CompleteOk(TracesOf(g), m.Sender(), m.vc);
      forall k | 0 <= k < |m.vc.log|
        ensures Reach(m.vc.log[k]) <= Reach(m)
      {
        LogLeveled(c, g, m.vc, k);
      }
      if m.vc.newView >= 2 {
        LogLeveled(c, g, m.vc, 0);
      }
    }
  }

  // ---------- Requests raise the expected view ----------

  /** The collector of view-change requests is at the expected view and has one request per replica. */
  ghost predicate Synced(c: Config, s: Replica)
    requires c.Ok()
  {
    && s.rvcs.view == s.expected
    && |s.rvcs.replicas| == |s.rvcs.collected| <= c.f
  }

  /** From s to t the expected view has not gone back, and nothing was entered ahead of time. */
  ghost predicate Paced(c: Config, s: Replica, t: Replica)
    requires c.Ok()
  {
    Synced(c, t) && t.expected >= s.expected && t.ahead == s.ahead
  }

  lemma RequestPace(c: Config, s: Replica, i: nat, m: ReqViewChange)
    requires c.Ok() && Synced(c, s) && !s.exec.stopped
    ensures var t := ProcessReqViewChange(c, s, i, m);
            && Paced(c, s, t) && !t.exec.stopped
            && (t.expected == s.expected ==>
                  && s.rvcs.replicas <= t.rvcs.replicas
                  && (m.newView == s.expected + 1 ==> m.replicaID in t.rvcs.replicas))
  {
  }

  lemma {:induction false} RequestsPace(c: Config, s: Replica, i: nat, cert: seq<ReqViewChange>)
    requires c.Ok() && Synced(c, s)
    ensures var h := HandleRequests(c, s, i, cert);
            && Paced(c, s, h.s) && h.s.exec.stopped == s.exec.stopped
            && (h.ok && !s.exec.stopped && h.s.expected == s.expected ==>
                  forall k :: 0 <= k < |cert| && cert[k].newView == s.expected + 1 ==>
                                cert[k].replicaID in h.s.rvcs.replicas)
    decreases |cert|
  {
    if cert != [] {
      var k := |cert| - 1;
      var b := HandleRequests(c, s, i, cert[..k]);
      RequestsPace(c, s, i, cert[..k]);
      if b.ok && !s.exec.stopped {
        RequestPace(c, b.s, i, cert[k]);
      }
    }
  }

  ghost function Requesters(cert: seq<ReqViewChange>): set<nat> {
    set k | 0 <= k < |cert| :: cert[k].replicaID
  }

  lemma {:induction false} RequestersCount(cert: seq<ReqViewChange>)
    requires DistinctRequesters(cert)
    ensures |Requesters(cert)| == |cert|
  {
    if cert != [] {
      var k := |cert| - 1;
      RequestersCount(cert[..k]);
      assert Requesters(cert) == Requesters(cert[..k]) + {cert[k].replicaID};
    }
  }

  /** A view-change certificate for the next view gets it expected. */
  lemma CertificateRaises(c: Config, s: Replica, i: nat, cert: seq<ReqViewChange>)
    requires c.Ok() && Synced(c, s) && !s.exec.stopped
    requires ViewChangeCertOk(c.ViewChangeCertSize(), s.expected + 1, cert) && HandleRequests(c, s, i, cert).ok
    ensures HandleRequests(c, s, i, cert).s.expected > s.expected
  {
    var t := HandleRequests(c, s, i, cert).s;
    RequestsPace(c, s, i, cert);
    if t.expected == s.expected {
      RequestersCount(cert);
      SubsetSize(Requesters(cert), t.rvcs.replicas);
      assert false;
    }
  }

  // ---------- Processing ----------

  lemma MessagePace(c: Config, s: Replica, i: nat, m: Message, order: Order)
    requires c.Ok() && m.Unwrap().IsProposal()
    ensures var t := ProcessViewMessage(c, s, i, m, order).s;
            && t.rvcs == s.rvcs && t.expected == s.expected && (s.ahead ==> t.ahead)
            && (!m.NewView? || m.newView <= s.expected ==> t.ahead == s.ahead)
  {
    ViewMessageFrame(c, s, i, m, order);
  }

  /** Only a NewView message above the expected view makes a replica enter a view ahead of time. */
  lemma CertifiedPace(c: Config, s: Replica, i: nat, m: Message, order: Order)
    requires c.Ok() && Synced(c, s) && (m.ViewChangeMsg? || m.Unwrap().IsProposal())
    ensures var t := ProcessCertified(c, s, i, m, order).s;
            && Synced(c, t) && t.expected == s.expected && (s.ahead ==> t.ahead)
            && (s.exec.stopped || !m.NewView? || m.newView <= s.expected ==> t.ahead == s.ahead)
  {
    Processing.ProcessedForm(c, s, i, m, order);
    if !m.ViewChangeMsg? {
      MessagePace(c, s, i, m, order);
    }
  }

  // ---------- Handling ----------

  /** Handling (part of) a message whose NewView messages reach at most f+1 views above the expected one. */
  ghost predicate InPace(c: Config, s: Replica, m: Message, t: Replica)
    requires c.Ok()
  {
    && Synced(c, t) && t.expected >= s.expected
    && (Reach(m) <= s.expected + c.f + 1 ==> t.ahead == s.ahead)
  }

  lemma {:induction false} HandlePace(c: Config, s: Replica, i: nat, m: Message, order: Order)
    requires c.Ok() && Leveled(c, m) && Synced(c, s)
    ensures var h := Handle(c, s, i, m, order);
            && InPace(c, s, m, h.s)
            && (h.ok && !h.s.exec.stopped && m.ViewChangeMsg? && m.vc.newView > s.expected ==>
                  h.s.expected > s.expected)
            && (h.ok && !h.s.exec.stopped && m.NewView? ==>
                  h.s.expected >= m.newView || h.s.expected > s.expected + c.f)
    decreases Size(m), 1, 0
  {
    if Validate(c, m) == Accept {
      var e := HandleEmbedded(c, s, i, m, order);
      EmbeddedPace(c, s, i, m, order);
      if e.ok {
        CertifiedPace(c, e.s, i, m, order);
        CertifiedOnward(c, e.s, i, m, order);
      }
    }
  }

  lemma {:induction false} EmbeddedPace(c: Config, s: Replica, i: nat, m: Message, order: Order)
    requires c.Ok() && Leveled(c, m) && Synced(c, s)
    ensures var h := HandleEmbedded(c, s, i, m, order);
            && InPace(c, s, m, h.s)
            && (h.ok && !h.s.exec.stopped && m.ViewChangeMsg? && m.vc.newView > s.expected ==>
                  h.s.expected > s.expected)
            && (h.ok && !h.s.exec.stopped && m.NewView? ==>
                  h.s.expected >= m.newView || h.s.expected > s.expected + c.f)
    decreases Size(m), 0, |Embedded(m)| + 1
  {
    if !m.Prepare? {
      var r := if m.ViewChangeMsg? then HandleRequests(c, s, i, m.vc.vcCert) else Handled(s, true);
      if m.ViewChangeMsg? {
        RequestsPace(c, s, i, m.vc.vcCert);
        if r.ok && !s.exec.stopped && m.vc.newView == s.expected + 1 {
          CertificateRaises(c, s, i, m.vc.vcCert);
        }
      }
      if r.ok {
        FirstPace(c, r.s, i, m, |Embedded(m)|, order);
        FirstCaptures(c, r.s, i, m, |Embedded(m)|, order);
      }
    }
  }

  lemma {:induction false} FirstPace(c: Config, s: Replica, i: nat, m: Message, k: nat, order: Order)
    requires c.Ok() && Leveled(c, m) && Synced(c, s) && k <= |Embedded(m)|
    ensures var h := HandleFirst(c, s, i, m, k, order);
            && InPace(c, s, m, h.s)
            && (h.ok && !h.s.exec.stopped && m.ViewChangeMsg? && k >= 1 && m.vc.newView > s.expected + 1 ==>
                  h.s.expected > s.expected)
            && (h.ok && !h.s.exec.stopped && m.NewView? ==>
                  h.s.expected >= m.newView || h.s.expected >= s.expected + k)
    decreases Size(m), 0, k
  {
    if k > 0 {
      var b, x := HandleFirst(c, s, i, m, k - 1, order), Embedded(m)[k - 1];
      FirstPace(c, s, i, m, k - 1, order);
      EmbeddedSmaller(m, k - 1);
      if b.ok {
        HandlePace(c, b.s, i, x, order);
        HandleCaptures(c, b.s, i, x, order);
        PartReach(c, m, k - 1);
      }
    }
  }

  lemma PartReach(c: Config, m: Message, k: nat)
    requires c.Ok() && Leveled(c, m) && k < |Embedded(m)|
    ensures Reach(Embedded(m)[k]) <= Reach(m)
    ensures m.NewView? ==> Embedded(m)[k].ViewChangeMsg? && Embedded(m)[k].vc.newView == m.newView
  {
  }

  // ---------- Handled runs ----------

  /** The input is not a message that reaches more than f+1 views above the one the replica expects. */
  ghost predicate WithinReach(c: Config, g: State, a: Input) {
    a.MessageIn? && a.at < |g| ==> Reach(a.m) <= g[a.at].expected + c.f + 1
  }

  ghost predicate InTime(c: Config, inputs: seq<Input>, i: nat)
    requires c.Ok()
  {
    forall k :: 0 <= k < |inputs| && inputs[k].at == i ==> WithinReach(c, AfterInputs(c, inputs[..k]), inputs[k])
  }

  /** A replica's own messages are within its reach. */
  lemma OwnReach(c: Config, g: State, i: nat, m: Message)
    requires Inv(c, g) && i < c.n && Sent(g, m) && m.Sender() == i
    ensures Reach(m) <= g[i].expected
  {
    assert At(c, g, i);
    assert ValidOk(c, g[i], m);
    if m.ViewChangeMsg? {
      assert BoundOk(g[i], m.vc);
    } else {
      assert QuietOk(g[i], MessageView(m));
      var j := Collecting.CommsIndex(g[i].trace, m, MessageView(m));
    }
  }

  lemma OwnPace(c: Config, g: State, i: nat, m: Message, order: Order)
    requires Inv(c, g) && i < c.n && FromLog(g, i, m) && Synced(c, g[i])
    ensures Paced(c, g[i], HandleOwn(c, g[i], i, m, order))
  {
    var h := HandleEmbedded(c, g[i], i, m, order);
    OwnReach(c, g, i, m);
    SentLeveled(c, g, m);
    EmbeddedPace(c, g[i], i, m, order);
    if h.ok {
      CertifiedPace(c, h.s, i, m, order);
    }
  }

  lemma TakePace(c: Config, g: State, a: Input)
    requires Inv(c, g) && a.at < c.n && Synced(c, g[a.at]) && WithinReach(c, g, a)
    ensures Paced(c, g[a.at], Take(c, g, a))
  {
    var s := g[a.at];
    match a {
      case MessageIn(i, m, order) =>
        if Sent(g, m) {
          SentLeveled(c, g, m);
          HandlePace(c, s, i, m, order);
        }
      case OwnIn(i, m, order) =>
        if FromLog(g, i, m) {
          OwnPace(c, g, i, m, order);
        }
      case ReqViewChangeIn(i, rvc) => RequestsPace(c, s, i, [rvc]);
      case RequestIn(_, _) =>
      case TimeoutIn(_, _) =>
    }
  }

  lemma {:induction false} InTimePaced(c: Config, inputs: seq<Input>, i: nat)
    requires c.Ok() && i < c.n && InTime(c, inputs, i)
    ensures |AfterInputs(c, inputs)| == c.n
    ensures Synced(c, AfterInputs(c, inputs)[i]) && !AfterInputs(c, inputs)[i].ahead
    decreases |inputs|
  {
    if inputs != [] {
      var k := |inputs| - 1;
      var before, a := inputs[..k], inputs[k];
      forall j | 0 <= j < k && before[j].at == i
        ensures WithinReach(c, AfterInputs(c, before[..j]), before[j])
      {
        assert before[..j] == inputs[..j];
        assert WithinReach(c, AfterInputs(c, inputs[..j]), inputs[j]);
      }
      InTimePaced(c, before, i);
      if a.at == i {
        var run := InputsOrderly(c, before);
        RunInv(c, run);
        assert WithinReach(c, AfterInputs(c, inputs[..k]), inputs[k]);
        TakePace(c, AfterInputs(c, before), a);
      }
    }
  }

  /** In every handled run, a replica whose messages from others reach at most f+1 views above the view it expects
      when it receives them never enters a view ahead of time, and has stopped if and only if it has refused a
      message of its own. */
  lemma InTimeNeverStops(c: Config, inputs: seq<Input>, i: nat)
    requires c.Ok() && i < c.n && InTime(c, inputs, i)
    ensures |AfterInputs(c, inputs)| == c.n
    ensures var s := AfterInputs(c, inputs)[i];
            && !s.ahead && s.current <= s.expected
            && (s.exec.stopped <==> RefusedOwn(c, inputs, i))
  {
    var run := InputsOrderly(c, inputs);
    InTimePaced(c, inputs, i);
    HandledNeverStops(c, inputs, i);
    AheadIff(c, run, i);
    assert run[..|run|] == run;
    assert AheadAfter(c, run, i, |run|) <==> After(c, run)[i].current > After(c, run)[i].expected;
  }
}
