/** What the handlers of received messages establish before a message is processed: every request embedded
    in it, at any depth, has been captured.  So neither applying a Prepare nor re-preparing the requests of
    a NewView reaches the panic for a request that was not captured (core/request.go:262-278). */
module Capturing {
  import opened Messages
  import opened Extraction
  import opened Validation
  import opened Requests
  import opened Execution
  import opened Replica
  import opened Handling

  /** Captured identifiers never decrease, and a stopped replica stays stopped. */
  ghost predicate Onward(s: Exec, t: Exec) {
    && (forall c :: Nums(s.clients, c).captured <= Nums(t.clients, c).captured)
    && (s.stopped ==> t.stopped)
  }

  lemma OnwardAll(r: Exec, s: Exec, t: Exec)
    requires Onward(r, s) && Onward(s, t)
    ensures Onward(r, t)
  {
    forall c
      ensures Nums(r.clients, c).captured <= Nums(t.clients, c).captured
    {
      assert Nums(r.clients, c).captured <= Nums(s.clients, c).captured;
    }
  }

  // ---------- Every critical section goes onward ----------

  lemma {:induction false} ExecuteAllOnward(s: Exec, l: seq<Request>)
    ensures Onward(s, ExecuteAll(s, l))
  {
    if l != [] {
      var t := ExecuteAll(s, l[..|l| - 1]);
      ExecuteAllOnward(s, l[..|l| - 1]);
      OnwardAll(s, t, Execute(t, l[|l| - 1]));
    }
  }

  lemma {:induction false} PrepareAllOnward(s: Exec, l: seq<Request>)
    ensures Onward(s, PrepareAll(s, l))
  {
    if l != [] {
      PrepareAllOnward(s, l[..|l| - 1]);
      OnwardAll(s, PrepareAll(s, l[..|l| - 1]), PrepareAll(s, l));
    }
  }

  lemma CollectOnward(s: Replica, m: Message)
    requires m.Unwrap().IsProposal()
    ensures Onward(s.exec, CollectCommitment(s, m).s.exec)
  {
    var p := m.Unwrap();
    if p.NewView? && Extract(p.nvCert).Some? {
      ExecuteAllOnward(s.exec, Extract(p.nvCert).value);
    }
  }

  lemma NewViewOnward(c: Config, s: Replica, i: nat, m: Message, order: Order)
    requires c.Ok() && m.NewView?
    ensures Onward(s.exec, ApplyNewView(c, s, i, m, order).s.exec)
  {
    var l := Extract(m.nvCert);
    if l.Some? {
      var p := PrepareAll(s.exec, l.value);
      PrepareAllOnward(s.exec, l.value);
      if !p.stopped {
        var a := CollectCommitment(s.(exec := p), m);
        CollectOnward(s.(exec := p), m);
        OnwardAll(s.exec, p, a.s.exec);
        EmitPreparesFrame(a.s, i, m.newView, order(a.s.exec.clients.pending));
      }
    }
  }

  lemma PrepareOnward(s: Replica, i: nat, m: Message)
    requires m.Prepare?
    ensures Onward(s.exec, ApplyPrepare(s, i, m).s.exec)
  {
    var s1 := s.(exec := s.exec.(clients := PrepareReq(s.exec.clients, m.request)));
    CollectOnward(s1, m);
    OnwardAll(s.exec, s1.exec, CollectCommitment(s1, m).s.exec);
  }

  lemma CertifiedOnward(c: Config, s: Replica, i: nat, m: Message, order: Order)
    requires c.Ok() && (m.ViewChangeMsg? || m.Unwrap().IsProposal())
    ensures Onward(s.exec, ProcessCertified(c, s, i, m, order).s.exec)
  {
    if m.NewView? {
      NewViewOnward(c, EnterView(s, m.newView), i, m, order);
    } else if m.Prepare? {
      PrepareOnward(s, i, m);
    } else if m.Commit? {
      CollectOnward(s, m);
    }
  }

  lemma {:induction false} RequestsOnward(c: Config, s: Replica, i: nat, cert: seq<ReqViewChange>)
    requires c.Ok()
    ensures Onward(s.exec, HandleRequests(c, s, i, cert).s.exec)
  {
    if cert != [] {
      var h := HandleRequests(c, s, i, cert[..|cert| - 1]);
      RequestsOnward(c, s, i, cert[..|cert| - 1]);
      OnwardAll(s.exec, h.s.exec, HandleRequests(c, s, i, cert).s.exec);
    }
  }

  // ---------- Everything embedded gets captured ----------

  /** Every request in the message, at any depth, has been captured. */
  ghost predicate Covered(s: Clients, m: Message)
    decreases Size(m)
  {
    && (m.Prepare? ==> m.request.seqNo <= Nums(s, m.request.clientID).captured)
    && forall i :: 0 <= i < |Embedded(m)| ==> (EmbeddedSmaller(m, i); Covered(s, Embedded(m)[i]))
  }

  lemma {:induction false} CoveredOnward(s: Exec, t: Exec, m: Message)
    requires Onward(s, t) && Covered(s.clients, m)
    ensures Covered(t.clients, m)
    decreases Size(m)
  {
    forall i | 0 <= i < |Embedded(m)|
      ensures Covered(t.clients, Embedded(m)[i])
    {
      EmbeddedSmaller(m, i);
      CoveredOnward(s, t, Embedded(m)[i]);
    }
  }

  /** The same of the first k messages embedded in it. */
  ghost predicate CoveredFirst(s: Clients, m: Message, k: nat)
    requires k <= |Embedded(m)|
  {
    forall j :: 0 <= j < k ==> Covered(s, Embedded(m)[j])
  }

  lemma FirstOnward(s: Exec, t: Exec, m: Message, k: nat)
    requires k <= |Embedded(m)| && Onward(s, t) && CoveredFirst(s.clients, m, k)
    ensures CoveredFirst(t.clients, m, k)
  {
    forall j | 0 <= j < k
      ensures Covered(t.clients, Embedded(m)[j])
    {
      CoveredOnward(s, t, Embedded(m)[j]);
    }
  }

  /** Handling a message successfully captures everything in it. */
  lemma {:induction false} HandleCaptures(c: Config, s: Replica, i: nat, m: Message, order: Order)
    requires c.Ok()
    ensures var h := Handle(c, s, i, m, order);
            Onward(s.exec, h.s.exec) && (h.ok && !h.s.exec.stopped ==> Covered(h.s.exec.clients, m))
    decreases Size(m), 1, 0
  {
    if Validate(c, m) == Accept {
      var e := HandleEmbedded(c, s, i, m, order);
      EmbeddedCaptures(c, s, i, m, order);
      if e.ok {
        var h := Handle(c, s, i, m, order);
        CertifiedOnward(c, e.s, i, m, order);
        OnwardAll(s.exec, e.s.exec, h.s.exec);
        if h.ok && !h.s.exec.stopped {
          CoveredOnward(e.s.exec, h.s.exec, m);
        }
      }
    }
  }

  /** So when a message comes to be processed, all requests in it have been captured. */
  lemma {:induction false} EmbeddedCaptures(c: Config, s: Replica, i: nat, m: Message, order: Order)
    requires c.Ok()
    ensures var h := HandleEmbedded(c, s, i, m, order);
            Onward(s.exec, h.s.exec) && (h.ok && !h.s.exec.stopped ==> Covered(h.s.exec.clients, m))
    decreases Size(m), 0, |Embedded(m)| + 1
  {
    if !m.Prepare? {
      var r := if m.ViewChangeMsg? then HandleRequests(c, s, i, m.vc.vcCert) else Handled(s, true);
      if m.ViewChangeMsg? {
        RequestsOnward(c, s, i, m.vc.vcCert);
      }
      if r.ok {
        FirstCaptures(c, r.s, i, m, |Embedded(m)|, order);
        OnwardAll(s.exec, r.s.exec, HandleEmbedded(c, s, i, m, order).s.exec);
      }
    }
  }

  lemma {:induction false} FirstCaptures(c: Config, s: Replica, i: nat, m: Message, k: nat, order: Order)
    requires c.Ok() && k <= |Embedded(m)|
    ensures var h := HandleFirst(c, s, i, m, k, order);
            && Onward(s.exec, h.s.exec)
            && (h.ok && !h.s.exec.stopped ==> CoveredFirst(h.s.exec.clients, m, k))
    decreases Size(m), 0, k
  {
    if k > 0 {
      var b := HandleFirst(c, s, i, m, k - 1, order);
      FirstCaptures(c, s, i, m, k - 1, order);
      if b.ok {
        NextCaptures(c, s, b.s, i, m, k - 1, order);
      }
    }
  }

  /** The embedded message number k, with the ones before it handled. */
  lemma {:induction false} NextCaptures(c: Config, s: Replica, t: Replica, i: nat, m: Message, k: nat, order: Order)
    requires c.Ok() && k < |Embedded(m)| && Onward(s.exec, t.exec)
    requires !t.exec.stopped ==> CoveredFirst(t.exec.clients, m, k)
    ensures var h := Handle(c, t, i, Embedded(m)[k], order);
            && Onward(s.exec, h.s.exec)
            && (h.ok && !h.s.exec.stopped ==> CoveredFirst(h.s.exec.clients, m, k + 1))
    decreases Size(m), 0, k
  {
    var x := Embedded(m)[k];
    EmbeddedSmaller(m, k);
    HandleCaptures(c, t, i, x, order);
    var h := Handle(c, t, i, x, order);
    OnwardAll(s.exec, t.exec, h.s.exec);
    if h.ok && !h.s.exec.stopped {
      FirstOnward(t.exec, h.s.exec, m, k);
    }
  }

  // ---------- What extraction yields is captured ----------

  ghost predicate CoveredLog(s: Clients, l: seq<Message>) {
    forall i :: 0 <= i < |l| ==> Covered(s, l[i])
  }

  ghost predicate CoveredCert(s: Clients, cert: seq<ViewChange>) {
    forall i :: 0 <= i < |cert| ==> Covered(s, ViewChangeMsg(cert[i]))
  }

  lemma LogCovered(s: Clients, vc: ViewChange)
    requires Covered(s, ViewChangeMsg(vc))
    ensures CoveredLog(s, vc.log) && CoveredLog(s, Strip(vc.log))
  {
    forall i | 0 <= i < |vc.log|
      ensures Covered(s, vc.log[i])
    {
      assert Embedded(ViewChangeMsg(vc))[i] == vc.log[i];
    }
  }

  lemma {:induction false} SelectionCovered(s: Clients, cert: seq<ViewChange>)
    requires CoveredCert(s, cert)
    ensures CoveredLog(s, MaxLog(cert)) && CoveredCert(s, Leading(cert))
  {
    if cert != [] {
      var k := |cert| - 1;
      SelectionCovered(s, cert[..k]);
      LogCovered(s, cert[k]);
      if |cert[k].log| > 0 && cert[k].log[0].ViewChangeMsg? {
        assert cert[k].log[0] == ViewChangeMsg(cert[k].log[0].vc);
      }
    }
  }

  lemma UnwrapCovered(s: Clients, m: Message)
    requires Covered(s, m)
    ensures Covered(s, m.Unwrap())
    ensures m.Unwrap().NewView? ==> CoveredCert(s, m.Unwrap().nvCert)
  {
    if m.Commit? {
      assert Embedded(m)[0] == m.proposal;
    }
    var p := m.Unwrap();
    if p.NewView? {
      forall i | 0 <= i < |p.nvCert|
        ensures Covered(s, ViewChangeMsg(p.nvCert[i]))
      {
        assert Embedded(p)[i] == ViewChangeMsg(p.nvCert[i]);
      }
    }
  }

  /** Extraction yields nothing that is not embedded in the certificate. */
  lemma {:induction false} ExtractCovered(s: Clients, cert: seq<ViewChange>)
    requires CoveredCert(s, cert)
    ensures Extract(cert).Some? ==> AllCaptured(s, Extract(cert).value)
    decreases CertSize(cert), 1, 0
  {
    SelectionCovered(s, cert);
    MaxLogSize(cert);
    LeadingSize(cert);
    if MaxLog(cert) == [] && Leading(cert) != [] {
      ExtractCovered(s, Leading(cert));
    } else {
      FoldCovered(s, MaxLog(cert));
    }
  }

  lemma {:induction false} FoldCovered(s: Clients, l: seq<Message>)
    requires CoveredLog(s, l)
    ensures Fold(l).Some? ==> AllCaptured(s, Fold(l).value)
    decreases LogSize(l), 0, |l|
  {
    if l != [] {
      var m := l[|l| - 1];
      FoldCovered(s, l[..|l| - 1]);
      UnwrapCovered(s, m);
      UnwrapSize(m);
      if m.Unwrap().NewView? {
        ExtractCovered(s, m.Unwrap().nvCert);
      }
    }
  }

  // ---------- No panic in preparing ----------

  /** A message that reaches processing through the handlers never panics for a request not captured: not
      a Prepare, and not a NewView re-preparing what its certificate stands for. */
  lemma PreparingNeverPanics(c: Config, s: Replica, i: nat, m: Message, order: Order)
    requires c.Ok()
    ensures var h := HandleEmbedded(c, s, i, m, order);
            h.ok && !h.s.exec.stopped ==>
              && (m.Prepare? ==> !PrepareEffect(h.s.exec.clients, m.request).Panics?)
              && (m.NewView? && Extract(m.nvCert).Some? ==>
                    var l := Extract(m.nvCert).value;
                    AllCaptured(h.s.exec.clients, l) && !PrepareAll(h.s.exec, l).stopped)
  {
    var h := HandleEmbedded(c, s, i, m, order);
    EmbeddedCaptures(c, s, i, m, order);
    if h.ok && !h.s.exec.stopped && m.NewView? && Extract(m.nvCert).Some? {
      UnwrapCovered(h.s.exec.clients, m);
      ExtractCovered(h.s.exec.clients, m.nvCert);
      PrepareAllSucceeds(h.s.exec, Extract(m.nvCert).value);
    }
  }
}
