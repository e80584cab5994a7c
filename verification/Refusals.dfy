/** What the validators refuse, in the terms of their error messages, and what a replica can rely on when it has
    accepted a message (core/message-handling.go:569-607, core/prepare.go, core/commit.go, core/view-change.go,
    core/new-view.go). */
module Refusals {
  import opened Messages
  import opened Validation
  import opened Authen
  import opened Determinism
  import opened Replica
  import opened Handling
  import Embeddings

  // ---------- Errors ----------

  /** The counter that an entry of the log should be followed by: that of the next entry, or of the ViewChange. */
  function NextCounter(vc: ViewChange, k: nat): nat
    requires k < |vc.log|
  {
    if k + 1 < |vc.log| then vc.log[k + 1].Counter() else vc.cv
  }

  predicate StartsView(m: Message, v: nat) {
    (m.ViewChangeMsg? && m.vc.newView == v) || (m.NewView? && m.newView == v)
  }

  /** Errors of validateMessageLog: missing messages, foreign ones, a gap or repetition in the counters, a view
      started in the middle or by the wrong message, and a log that does not reach back far enough. */
  ghost predicate BadLog(vc: ViewChange)
    requires vc.newView >= 1
  {
    || (vc.log == [] && (vc.newView > 1 || vc.cv != 1))
    || (exists k :: 0 <= k < |vc.log| && vc.log[k].Sender() != vc.replicaID)
    || (exists k :: 0 <= k < |vc.log| && vc.log[k].Counter() + 1 != NextCounter(vc, k))
    || (exists k :: 0 < k < |vc.log| && (vc.log[k].ViewChangeMsg? || vc.log[k].NewView?))
    || (vc.log != [] && !StartsView(vc.log[0], vc.newView - 1)
        && (vc.log[0].ViewChangeMsg? || vc.log[0].NewView? || vc.newView > 1 || vc.log[0].Counter() != 1))
  }

  /** Errors of makeViewChangeCertValidator for f tolerated faults. */
  ghost predicate BadRequests(f: nat, newView: nat, cert: seq<ReqViewChange>) {
    || |cert| <= f
    || (exists k :: 0 <= k < |cert| && cert[k].newView != newView)
    || (exists j, k :: 0 <= j < k < |cert| && cert[j].replicaID == cert[k].replicaID)
  }

  /** Errors of makeNewViewCertValidator: the last is "missing ViewChange from new primary". */
  ghost predicate BadCert(f: nat, newPrimary: nat, newView: nat, cert: seq<ViewChange>) {
    || |cert| <= f
    || (exists k :: 0 <= k < |cert| && cert[k].newView != newView)
    || (exists j, k :: 0 <= j < k < |cert| && cert[j].replicaID == cert[k].replicaID)
    || (forall k :: 0 <= k < |cert| ==> cert[k].replicaID != newPrimary)
  }

  ghost predicate Malformed(c: Config, m: Message)
    requires c.Ok()
  {
    || m.Sender() >= c.n || m.Counter() == 0
    || (m.Prepare? && m.replicaID != m.view % c.n)
    || (m.Commit? && m.replicaID == m.proposal.Sender())
    || (m.ViewChangeMsg? && (m.vc.newView == 0 || BadRequests(c.f, m.vc.newView, m.vc.vcCert) || BadLog(m.vc)))
    || (m.NewView?
        && (m.newView == 0 || m.replicaID != m.newView % c.n || BadCert(c.f, m.replicaID, m.newView, m.nvCert)))
  }

  // ---------- Exactly these are refused ----------

  lemma LogAcceptedSteps(vc: ViewChange, k: nat)
    requires vc.newView >= 1 && !BadLog(vc) && k < |vc.log|
    ensures vc.log[k].Counter() + |vc.log| - k == vc.cv
    decreases |vc.log| - k
  {
    assert vc.log[k].Counter() + 1 == NextCounter(vc, k);
    if k + 1 < |vc.log| {
      LogAcceptedSteps(vc, k + 1);
    }
  }

  lemma LogAcceptedIff(vc: ViewChange)
    requires vc.newView >= 1
    ensures LogAccepted(vc.replicaID, vc.newView - 1, vc.log, vc.cv) <==> !BadLog(vc)
  {
    if !BadLog(vc) {
      forall k | 0 <= k < |vc.log|
        ensures vc.log[k].Counter() + |vc.log| - k == vc.cv
      {
        LogAcceptedSteps(vc, k);
      }
    }
  }

  /** A message is rejected if and only if it has one of the errors, and validation panics if and only if it has none
      and is a Commit for something that is not a proposal. */
  lemma RejectedIff(c: Config, m: Message)
    requires c.Ok()
    ensures Validate(c, m) == Reject <==> Malformed(c, m)
    ensures Validate(c, m) == Panic <==> !Malformed(c, m) && m.Commit? && !m.proposal.IsProposal()
  {
    if m.ViewChangeMsg? && m.vc.newView >= 1 {
      LogAcceptedIff(m.vc);
    }
  }

  /** A malformed message is refused, and the replica stays as it is. */
  lemma MalformedRefused(c: Config, s: Replica, i: nat, m: Message, order: Order)
    requires c.Ok() && Malformed(c, m)
    ensures Handle(c, s, i, m, order) == Handled(s, false)
  {
    RejectedIff(c, m);
  }

  /** A Commit from another replica than the sender of what it is for, which is no proposal, stops the replica. */
  lemma NoProposalPanics(c: Config, s: Replica, i: nat, m: Message, order: Order)
    requires c.Ok() && m.Commit? && !Malformed(c, m) && !m.proposal.IsProposal()
    ensures Handle(c, s, i, m, order) == Handled(s.(exec := s.exec.(stopped := true)), false)
  {
    RejectedIff(c, m);
  }

  // ---------- What an accepted message promises ----------

  /** Nothing malformed in the message, at any depth, and no view-change request that would be refused. */
  ghost predicate Sound(c: Config, m: Message)
    requires c.Ok()
    decreases Size(m)
  {
    && !Malformed(c, m)
    && (m.ViewChangeMsg? ==> Embeddings.CertValid(c, m.vc.vcCert))
    && forall k :: 0 <= k < |Embedded(m)| ==> (EmbeddedSmaller(m, k); Sound(c, Embedded(m)[k]))
  }

  lemma {:induction false} RequestsValid(c: Config, s: Replica, i: nat, cert: seq<ReqViewChange>)
    requires c.Ok() && HandleRequests(c, s, i, cert).ok
    ensures Embeddings.CertValid(c, cert)
    decreases |cert|
  {
    if cert != [] {
      var k := |cert| - 1;
      RequestsValid(c, s, i, cert[..k]);
      forall j | 0 <= j < |cert|
        ensures Embeddings.RequestValid(c, cert[j])
      {
        assert j < k ==> Embeddings.RequestValid(c, cert[..k][j]);
      }
    }
  }

  /** A message that is handled without error has nothing malformed in it, at any depth. */
  lemma {:induction false} HandledSound(c: Config, s: Replica, i: nat, m: Message, order: Order)
    requires c.Ok() && Handle(c, s, i, m, order).ok
    ensures Sound(c, m)
    decreases Size(m), 1
  {
    RejectedIff(c, m);
    if !m.Prepare? {
      var h := if m.ViewChangeMsg? then HandleRequests(c, s, i, m.vc.vcCert) else Handled(s, true);
      if m.ViewChangeMsg? {
        RequestsValid(c, s, i, m.vc.vcCert);
      }
      forall k | 0 <= k < |Embedded(m)|
        ensures Sound(c, Embedded(m)[k])
      {
        var t := PartHandled(c, h.s, i, m, |Embedded(m)|, k, order);
        PartSound(c, t, i, m, k, order);
      }
    }
  }

  /** Each of the embedded messages was handled without error, in some state. */
  lemma {:induction false} PartHandled(c: Config, s: Replica, i: nat, m: Message, k: nat, j: nat, order: Order)
    returns (t: Replica)
    requires c.Ok() && j < k <= |Embedded(m)| && HandleFirst(c, s, i, m, k, order).ok
    ensures Handle(c, t, i, Embedded(m)[j], order).ok
    decreases k
  {
    if j == k - 1 {
      t := HandleFirst(c, s, i, m, k - 1, order).s;
    } else {
      t := PartHandled(c, s, i, m, k - 1, j, order);
    }
  }

  lemma {:induction false} PartSound(c: Config, s: Replica, i: nat, m: Message, k: nat, order: Order)
    requires c.Ok() && k < |Embedded(m)| && Handle(c, s, i, Embedded(m)[k], order).ok
    ensures Sound(c, Embedded(m)[k])
    decreases Size(m), 0, k
  {
    EmbeddedSmaller(m, k);
    HandledSound(c, s, i, Embedded(m)[k], order);
  }

  /** The NewView message's certificate holds a ViewChange of its sender for the view. */
  ghost predicate HasOwn(m: Message)
    requires m.NewView?
  {
    exists k :: 0 <= k < |m.nvCert| && m.nvCert[k].replicaID == m.replicaID && m.nvCert[k].newView == m.newView
  }

  lemma AcceptedHasOwn(c: Config, m: Message)
    requires c.Ok() && m.NewView? && Validate(c, m) == Accept
    ensures HasOwn(m)
  {
    RejectedIff(c, m);
    var k :| 0 <= k < |m.nvCert| && m.nvCert[k].replicaID == m.replicaID;
    assert m.nvCert[k].newView == m.newView;
  }

  /** A NewView message without a ViewChange of its sender changes nothing; a handled one shows that its sender has
      left the view before. */
  lemma NewViewNeedsOwn(c: Config, s: Replica, i: nat, m: Message, order: Order)
    requires c.Ok() && m.NewView?
    ensures !HasOwn(m) ==> Handle(c, s, i, m, order) == Handled(s, false)
    ensures Handle(c, s, i, m, order).ok ==> HasOwn(m)
  {
    if Validate(c, m) == Accept {
      AcceptedHasOwn(c, m);
    }
  }

  /** Whoever sends it: the sender's USIG has certified that the sender leaves for the view of an authentic NewView
      message, with a valid log of what it did in the view before. */
  lemma SenderHasLeft(e: Env, m: Message) returns (vc: ViewChange)
    requires e.c.Ok() && m.NewView? && Authentic(e, m)
    ensures vc in m.nvCert && vc.replicaID == m.replicaID && vc.newView == m.newView
    ensures Authentic(e, ViewChangeMsg(vc)) && e.usig(m.replicaID, vc.cv) == Encode(ViewChangeC(m.newView))
  {
    AcceptedHasOwn(e.c, m);
    var k :| 0 <= k < |m.nvCert| && m.nvCert[k].replicaID == m.replicaID && m.nvCert[k].newView == m.newView;
    vc := m.nvCert[k];
    assert Embedded(m)[k] == ViewChangeMsg(vc);
  }
}
