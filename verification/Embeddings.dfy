/** What a replica has processed, it has processed with everything embedded in it, and it can handle again: so
    handling a message of its own never fails before the message itself is processed
    (core/message-handling.go:449-463). */
module Embeddings {
  import opened Messages
  import opened Validation
  import opened Commitments
  import opened Collectors
  import opened Replica
  import opened Evidence
  import opened Invariants
  import opened System
  import opened Agreement
  import opened Handling
  import opened Steadiness
  import opened OwnMessages
  import Processing
  import Extraction
  import Growth
  import Execution
  import Requests

  // ---------- Requests to change the view ----------

  /** makeReqViewChangeValidator, with the check of the replica identifier (core/message-handling.go:569-572). */
  predicate RequestValid(c: Config, m: ReqViewChange) {
    m.newView >= 1 && m.replicaID < c.n
  }

  ghost predicate CertValid(c: Config, cert: seq<ReqViewChange>) {
    forall k :: 0 <= k < |cert| ==> RequestValid(c, cert[k])
  }

  /** What the replica has collected and certified holds valid requests only. */
  ghost predicate RequestsOk(c: Config, s: Replica) {
    && CertValid(c, s.rvcs.collected)
    && forall k :: 0 <= k < |s.trace| && s.trace[k].ViewChangeMsg? ==> CertValid(c, s.trace[k].vc.vcCert)
  }

  lemma ReqViewChangeValid(c: Config, s: Replica, i: nat, m: ReqViewChange)
    requires c.Ok() && RequestsOk(c, s) && RequestValid(c, m)
    ensures RequestsOk(c, ProcessReqViewChange(c, s, i, m))
  {
    assert CertValid(c, s.rvcs.collected + [m]);
  }

  /** Everything certified from position n on is no ViewChange message. */
  ghost predicate NoViewChange(t: seq<Message>, n: nat) {
    forall k :: n <= k < |t| ==> !t[k].ViewChangeMsg?
  }

  lemma {:induction false} PreparesOnly(s: Replica, id: nat, v: nat, reqs: seq<Request>)
    ensures var t := EmitPrepares(s, id, v, reqs).trace;
            s.trace <= t && forall k :: |s.trace| <= k < |t| ==> t[k].Prepare?
  {
    if reqs != [] {
      PreparesOnly(s, id, v, reqs[..|reqs| - 1]);
    }
  }

  /** Messages of a view are answered with proposals and with a commitment to the message. */
  ghost predicate Answers(t: seq<Message>, n: nat, m: Message) {
    n <= |t| && forall k :: n <= k < |t| ==> t[k].Prepare? || (t[k].Commit? && t[k].proposal == m)
  }

  lemma NewViewAnswers(c: Config, s: Replica, id: nat, m: Message, order: Order)
    requires c.Ok() && m.NewView?
    ensures var a := ApplyNewView(c, s, id, m, order);
            && s.trace <= a.s.trace && Answers(a.s.trace, |s.trace|, m)
            && (a.s.trace != s.trace ==> a.ok) && a.s.rvcs == s.rvcs
  {
    var l := Extraction.Extract(m.nvCert);
    if l.Some? {
      var s1 := s.(exec := Execution.PrepareAll(s.exec, l.value));
      CollectFrame(s1, m);
      var a := CollectCommitment(s1, m);
      var reqs := order(a.s.exec.clients.pending);
      PreparesOnly(a.s, id, m.newView, reqs);
      EmitPreparesFrame(a.s, id, m.newView, reqs);
    }
  }

  lemma MessageAnswers(c: Config, s: Replica, id: nat, m: Message, order: Order)
    requires c.Ok() && m.Unwrap().IsProposal()
    ensures var a := ProcessViewMessage(c, s, id, m, order);
            && s.trace <= a.s.trace && Answers(a.s.trace, |s.trace|, m)
            && (a.s.trace != s.trace ==> a.ok) && a.s.rvcs == s.rvcs
  {
    if m.NewView? {
      NewViewAnswers(c, EnterView(s, m.newView), id, m, order);
    } else {
      CollectFrame(s, m);
      if m.Prepare? {
        CollectFrame(s.(exec := s.exec.(clients := Requests.PrepareReq(s.exec.clients, m.request))), m);
      }
    }
  }

  // ---------- The invariant ----------

  ghost predicate CountedClosed(ts: Traces, s: Replica, r: nat, k: nat) {
    r < |ts| && k < |ts[r]| && k < Get(s.lastUI, r) ==> PartsCounted(s, ts[r][k])
  }

  ghost predicate OwnClosed(s: Replica, k: nat) {
    k < |s.trace| && (s.trace[k].Commit? || s.trace[k].NewView?) ==> PartsCounted(s, s.trace[k])
  }

  /** Everything embedded in a processed message, and in the replica's own commitments, has been processed. */
  ghost predicate ClosedOk(c: Config, ts: Traces, s: Replica) {
    && RequestsOk(c, s)
    && (forall r, k :: CountedClosed(ts, s, r, k))
    && (forall k :: OwnClosed(s, k))
  }

  lemma PartsStay(s: Replica, s': Replica, m: Message)
    requires UIGrows(s, s') && PartsCounted(s, m)
    ensures PartsCounted(s', m)
  {
    forall k | 0 <= k < |Embedded(m)|
      ensures IsCounted(s', Embedded(m)[k])
    {
      var x := Embedded(m)[k];
      assert IsCounted(s, x) && Get(s.lastUI, x.Sender()) <= Get(s'.lastUI, x.Sender());
    }
  }

  /** Other replicas certify more. */
  lemma ClosedGrows(c: Config, ts: Traces, ts': Traces, s: Replica)
    requires ClosedOk(c, ts, s) && Growth.Extends(ts, ts') && forall r :: Counted(ts, s, r)
    ensures ClosedOk(c, ts', s)
  {
    forall r: nat, k: nat
      ensures CountedClosed(ts', s, r, k)
    {
      assert CountedClosed(ts, s, r, k) && Counted(ts, s, r);
    }
  }

  /** A step that processes nothing and commits to nothing. */
  lemma ClosedStays(c: Config, ts: Traces, s: Replica, s': Replica)
    requires ClosedOk(c, ts, s) && RequestsOk(c, s') && s'.lastUI == s.lastUI && s.trace <= s'.trace
    requires forall k :: |s.trace| <= k < |s'.trace| ==> s'.trace[k].Prepare? || s'.trace[k].ViewChangeMsg?
    ensures ClosedOk(c, ts, s')
  {
    forall r: nat, k: nat
      ensures CountedClosed(ts, s', r, k)
    {
      assert CountedClosed(ts, s, r, k);
      if r < |ts| && k < |ts[r]| && k < Get(s.lastUI, r) {
        PartsStay(s, s', ts[r][k]);
      }
    }
    forall k: nat
      ensures OwnClosed(s', k)
    {
      assert OwnClosed(s, k);
      if k < |s.trace| && (s.trace[k].Commit? || s.trace[k].NewView?) {
        PartsStay(s, s', s.trace[k]);
      }
    }
  }

  /** The step processes message m. */
  lemma ClosedTicks(c: Config, ts: Traces, s: Replica, s': Replica, m: Message)
    requires c.Ok() && Evident(c, ts) && ClosedOk(c, ts, s) && RequestsOk(c, s') && s.trace <= s'.trace
    requires m.Sender() < c.n && m in ts[m.Sender()] && PartsCounted(s, m)
    requires m.Counter() == Get(s.lastUI, m.Sender()) + 1 && s'.lastUI == s.lastUI[m.Sender() := m.Counter()]
    requires forall k :: |s.trace| <= k < |s'.trace| ==> OwnClosed(s', k)
    ensures ClosedOk(c, ts, s')
  {
    SameMessage(ts, m.Sender(), m, m);
    forall r: nat, k: nat
      ensures CountedClosed(ts, s', r, k)
    {
      assert CountedClosed(ts, s, r, k);
      if r < |ts| && k < |ts[r]| && k < Get(s'.lastUI, r) {
        PartsStay(s, s', ts[r][k]);
      }
    }
    forall k: nat
      ensures OwnClosed(s', k)
    {
      assert OwnClosed(s, k);
      if k < |s.trace| && (s.trace[k].Commit? || s.trace[k].NewView?) {
        PartsStay(s, s', s.trace[k]);
      }
    }
  }

  // ---------- Steps ----------

  /** The members of an emitted certificate have been processed. */
  lemma EmittedCounted(c: Config, ts: Traces, s: Replica, i: nat, m: Message, k: nat)
    requires Evident(c, ts) && CollectorInv(c, ts, s, i) && m.ViewChangeMsg? && Processing.NextVc(c, ts, s, m.vc)
    requires VcCert(s.vcs, c, i, m.vc).Some? && k < |VcCert(s.vcs, c, i, m.vc).value|
    ensures IsCounted(Ticked(s, m), ViewChangeMsg(VcCert(s.vcs, c, i, m.vc).value[k]))
  {
    Processing.PutGenuine(c, ts, s, i, m.vc);
    var t, cert := VcPut(VcEnter(s.vcs, m.vc.newView), i, m.vc), VcCert(s.vcs, c, i, m.vc).value;
    assert cert[k] == if k == 0 then t.own.value else t.others[k - 1];
  }

  lemma ViewChangeCloses(c: Config, ts: Traces, s: Replica, i: nat, m: Message, s': Replica)
    requires Evident(c, ts) && ClosedOk(c, ts, s) && CollectorInv(c, ts, s, i) && PartsCounted(s, m)
    requires m.ViewChangeMsg? && m.Sender() < c.n && m in ts[m.Sender()]
    requires m.Counter() == Get(s.lastUI, m.Sender()) + 1
    requires s' == Ticked(ProcessViewChange(c, s, i, m.vc), m)
    ensures ClosedOk(c, ts, s')
  {
    assert CompleteOk(ts, m.Sender(), m.vc);
    forall k | |s.trace| <= k < |s'.trace|
      ensures OwnClosed(s', k)
    {
      var x := s'.trace[k];
      forall j | 0 <= j < |Embedded(x)|
        ensures IsCounted(s', Embedded(x)[j])
      {
        EmittedCounted(c, ts, s, i, m, j);
      }
    }
    ClosedTicks(c, ts, s, s', m);
  }

  lemma MessageCloses(c: Config, ts: Traces, s: Replica, i: nat, m: Message, order: Order)
    requires Evident(c, ts) && ClosedOk(c, ts, s) && PartsCounted(s, m)
    requires m.Unwrap().IsProposal() && m.Sender() < c.n && m in ts[m.Sender()]
    requires m.Counter() == Get(s.lastUI, m.Sender()) + 1
    ensures var a := ProcessViewMessage(c, s, i, m, order);
            ClosedOk(c, ts, if a.ok then Ticked(a.s, m) else a.s)
  {
    var a := ProcessViewMessage(c, s, i, m, order);
    MessageAnswers(c, s, i, m, order);
    MessageFrame(c, s, i, m, order);
    if a.ok {
      var s' := Ticked(a.s, m);
      forall k | |s.trace| <= k < |s'.trace|
        ensures OwnClosed(s', k)
      {
        assert s'.trace[k].Commit? ==> Embedded(s'.trace[k]) == [m];
      }
      ClosedTicks(c, ts, s, s', m);
    } else {
      ClosedStays(c, ts, s, a.s);
    }
  }

  lemma CertifiedCloses(c: Config, ts: Traces, s: Replica, i: nat, m: Message, order: Order)
    requires Evident(c, ts) && ClosedOk(c, ts, s) && (!s.exec.stopped ==> CollectorInv(c, ts, s, i))
    requires m.Sender() < c.n && m in ts[m.Sender()] && (m.ViewChangeMsg? || m.Unwrap().IsProposal())
    requires !s.exec.stopped ==> PartsCounted(s, m)
    ensures ClosedOk(c, ts, ProcessCertified(c, s, i, m, order).s)
  {
    if !s.exec.stopped && m.Counter() == Get(s.lastUI, m.Sender()) + 1 {
      if m.ViewChangeMsg? {
        TakenViewChange(c, s, i, m, order);
        ViewChangeCloses(c, ts, s, i, m, ProcessCertified(c, s, i, m, order).s);
      } else {
        TakenForm(c, s, i, m, order);
        MessageCloses(c, ts, s, i, m, order);
      }
    }
  }

  lemma HaltCloses(c: Config, ts: Traces, s: Replica)
    requires ClosedOk(c, ts, s)
    ensures ClosedOk(c, ts, Halt(s))
  {
    ClosedStays(c, ts, s, Halt(s));
  }

  lemma ProcessingCloses(c: Config, ts: Traces, g: State, a: Action)
    requires a.at < |g| && Evident(c, ts) && ClosedOk(c, ts, g[a.at]) && Allowed(c, g, a) && a.Processes()
    requires !g[a.at].exec.stopped ==> CollectorInv(c, ts, g[a.at], a.at)
    requires Usable(g, a.m) && a.m.Sender() < c.n && a.m in ts[a.m.Sender()]
    ensures ClosedOk(c, ts, Local(c, g, a))
  {
    ProcessedState(c, g, a);
    CertifiedCloses(c, ts, g[a.at], a.at, a.m, a.order);
    HaltCloses(c, ts, ProcessCertified(c, g[a.at], a.at, a.m, a.order).s);
  }

  lemma OtherCloses(c: Config, ts: Traces, g: State, a: Action)
    requires c.Ok() && a.at < |g| && ClosedOk(c, ts, g[a.at]) && Allowed(c, g, a)
    requires !(a.Processes() && Usable(g, a.m))
    ensures ClosedOk(c, ts, Local(c, g, a))
  {
    var s := g[a.at];
    match a {
      case ReceiveMessage(_, _, _) =>
      case ReceiveOwn(_, _, _) =>
      case ReceiveRequest(i, q) => ClosedStays(c, ts, s, ProcessRequest(c, s, i, q));
      case ReceiveReqViewChange(i, rvc) =>
        ReqViewChangeValid(c, s, i, rvc);
        ClosedStays(c, ts, s, ProcessReqViewChange(c, s, i, rvc));
      case Timeout(i, newView) => ClosedStays(c, ts, s, RequestViewChange(s, i, newView));
    }
  }

  // ---------- Orderly runs ----------

  ghost predicate ClosedAt(c: Config, g: State, i: nat) {
    i < |g| && ClosedOk(c, TracesOf(g), g[i])
  }

  lemma ActionCloses(c: Config, run: seq<Action>, a: Action)
    requires c.Ok() && a.at < c.n && |After(c, run)| == c.n && Orderly(c, run) && Allowed(c, After(c, run), a)
    requires ClosedAt(c, After(c, run), a.at)
    ensures ClosedAt(c, After(c, run + [a]), a.at)
  {
    var g, g', i := After(c, run), After(c, run + [a]), a.at;
    var ts' := TracesOf(g');
    SteadyRun(c, run, i);
    SeenAfter(c, run, a);
    OneMore(c, run, a);
    RunInv(c, run);
    ActExtends(g, g', i);
    ClosedGrows(c, TracesOf(g), ts', g[i]);
    if a.Processes() && Usable(g, a.m) {
      assert At(c, g, i);
      if !g[i].exec.stopped {
        CollectorGrows(c, TracesOf(g), ts', g[i], i);
      }
      ProcessingCloses(c, ts', g, a);
    } else {
      OtherCloses(c, ts', g, a);
    }
  }

  lemma BystanderCloses(c: Config, run: seq<Action>, a: Action, i: nat)
    requires c.Ok() && i < c.n && |After(c, run)| == c.n && Orderly(c, run) && a.at != i
    requires ClosedAt(c, After(c, run), i)
    ensures ClosedAt(c, After(c, run + [a]), i)
  {
    assert (run + [a])[..|run|] == run;
    if a.at < c.n {
      SteadyRun(c, run, i);
      OneMore(c, run, a);
      ActExtends(After(c, run), After(c, run + [a]), a.at);
      ClosedGrows(c, TracesOf(After(c, run)), TracesOf(After(c, run + [a])), After(c, run)[i]);
    }
  }

  lemma StartClosed(c: Config, i: nat)
    requires c.Ok() && i < c.n
    ensures ClosedAt(c, Start(c), i)
  {
  }

  lemma {:induction false} ClosedRun(c: Config, run: seq<Action>, i: nat)
    requires c.Ok() && i < c.n && Orderly(c, run)
    ensures |After(c, run)| == c.n && ClosedAt(c, After(c, run), i)
    decreases |run|
  {
    AfterLength(c, run);
    if run == [] {
      StartClosed(c, i);
    } else {
      var before, a := run[..|run| - 1], run[|run| - 1];
      OrderlyBefore(c, run);
      ClosedRun(c, before, i);
      assert before + [a] == run;
      if a.at == i {
        ActionCloses(c, before, a);
      } else {
        BystanderCloses(c, before, a, i);
      }
    }
  }

  /** In every orderly run, every view-change request in the certificate of a certified ViewChange message is
      valid, so that every replica accepts them all. */
  lemma CertificatesValid(c: Config, run: seq<Action>, vc: ViewChange)
    requires c.Ok() && Orderly(c, run) && Sent(After(c, run), ViewChangeMsg(vc))
    ensures CertValid(c, vc.vcCert)
  {
    AfterLength(c, run);
    var t := After(c, run)[vc.replicaID].trace;
    ClosedRun(c, run, vc.replicaID);
    var k :| 0 <= k < |t| && t[k] == ViewChangeMsg(vc);
    assert t[k].ViewChangeMsg?;
  }

  // ---------- Handling again ----------

  /** The message and everything embedded in it, to any depth, is valid and has been processed. */
  ghost predicate Known(c: Config, s: Replica, m: Message)
    requires c.Ok()
    decreases Size(m)
  {
    && Validate(c, m) == Accept && IsCounted(s, m)
    && (m.ViewChangeMsg? ==> CertValid(c, m.vc.vcCert))
    && forall k :: 0 <= k < |Embedded(m)| ==> (EmbeddedSmaller(m, k); Known(c, s, Embedded(m)[k]))
  }

  lemma {:induction false} KnownStays(c: Config, s: Replica, s': Replica, m: Message)
    requires c.Ok() && UIGrows(s, s') && Known(c, s, m)
    ensures Known(c, s', m)
    decreases Size(m)
  {
    assert Get(s.lastUI, m.Sender()) <= Get(s'.lastUI, m.Sender());
    forall k | 0 <= k < |Embedded(m)|
      ensures Known(c, s', Embedded(m)[k])
    {
      EmbeddedSmaller(m, k);
      KnownStays(c, s, s', Embedded(m)[k]);
    }
  }

  lemma {:induction false} RequestsAccepted(c: Config, s: Replica, i: nat, cert: seq<ReqViewChange>)
    requires c.Ok() && !s.exec.stopped && CertValid(c, cert)
    ensures var h := HandleRequests(c, s, i, cert); h.ok && !h.s.exec.stopped && h.s.lastUI == s.lastUI
    decreases |cert|
  {
    if cert != [] {
      RequestsAccepted(c, s, i, cert[..|cert| - 1]);
      assert RequestValid(c, cert[|cert| - 1]);
    }
  }

  /** A message that has been processed is handled again without error or panic. */
  lemma {:induction false} HandleKnown(c: Config, s: Replica, i: nat, m: Message, order: Order)
    requires c.Ok() && !s.exec.stopped && Known(c, s, m)
    ensures var h := Handle(c, s, i, m, order); h.ok && !h.s.exec.stopped && UIGrows(s, h.s)
    decreases Size(m), 1, 0
  {
    EmbeddedKnown(c, s, i, m, order);
    var e := HandleEmbedded(c, s, i, m, order).s;
    assert Get(s.lastUI, m.Sender()) <= Get(e.lastUI, m.Sender());
  }

  /** Handling what is embedded in a message, all of it processed before. */
  lemma {:induction false} EmbeddedKnown(c: Config, s: Replica, i: nat, m: Message, order: Order)
    requires c.Ok() && !s.exec.stopped && (m.ViewChangeMsg? ==> CertValid(c, m.vc.vcCert))
    requires forall k :: 0 <= k < |Embedded(m)| ==> Known(c, s, Embedded(m)[k])
    ensures var h := HandleEmbedded(c, s, i, m, order); h.ok && !h.s.exec.stopped && UIGrows(s, h.s)
    decreases Size(m), 0, |Embedded(m)| + 1
  {
    if !m.Prepare? {
      var r := if m.ViewChangeMsg? then HandleRequests(c, s, i, m.vc.vcCert).s else s;
      if m.ViewChangeMsg? {
        RequestsAccepted(c, s, i, m.vc.vcCert);
      }
      forall k | 0 <= k < |Embedded(m)|
        ensures Known(c, r, Embedded(m)[k])
      {
        KnownStays(c, s, r, Embedded(m)[k]);
      }
      FirstKnown(c, r, i, m, |Embedded(m)|, order);
    }
  }

  lemma {:induction false} FirstKnown(c: Config, s: Replica, i: nat, m: Message, k: nat, order: Order)
    requires c.Ok() && !s.exec.stopped && k <= |Embedded(m)|
    requires forall j :: 0 <= j < |Embedded(m)| ==> Known(c, s, Embedded(m)[j])
    ensures var h := HandleFirst(c, s, i, m, k, order); h.ok && !h.s.exec.stopped && UIGrows(s, h.s)
    decreases Size(m), 0, k
  {
    if k > 0 {
      var x := Embedded(m)[k - 1];
      FirstKnown(c, s, i, m, k - 1, order);
      var h := HandleFirst(c, s, i, m, k - 1, order).s;
      EmbeddedSmaller(m, k - 1);
      KnownStays(c, s, h, x);
      HandleKnown(c, h, i, x, order);
      GrowsTwice(s, h, Handle(c, h, i, x, order).s);
    }
  }

  lemma GrowsTwice(s: Replica, t: Replica, u: Replica)
    requires UIGrows(s, t) && UIGrows(t, u)
    ensures UIGrows(s, u)
  {
    forall r
      ensures Get(s.lastUI, r) <= Get(u.lastUI, r)
    {
      assert Get(s.lastUI, r) <= Get(t.lastUI, r);
    }
  }

  /** In an orderly run, what a replica has processed is known to it, to any depth. */
  lemma {:induction false} CountedKnown(c: Config, run: seq<Action>, i: nat, m: Message)
    requires c.Ok() && i < c.n && Orderly(c, run) && |After(c, run)| == c.n && Sent(After(c, run), m)
    requires IsCounted(After(c, run)[i], m)
    ensures Known(c, After(c, run)[i], m)
    decreases Size(m)
  {
    var g := After(c, run);
    RunInv(c, run);
    assert At(c, g, m.Sender()) && ValidOk(c, g[m.Sender()], m);
    ClosedRun(c, run, i);
    SameMessage(TracesOf(g), m.Sender(), m, m);
    assert CountedClosed(TracesOf(g), g[i], m.Sender(), m.Counter() - 1);
    if m.ViewChangeMsg? {
      CertificatesValid(c, run, m.vc);
    }
    forall k | 0 <= k < |Embedded(m)|
      ensures Known(c, g[i], Embedded(m)[k])
    {
      EmbeddedSmaller(m, k);
      EmbeddedSent(c, g, m, k);
      CountedKnown(c, run, i, Embedded(m)[k]);
    }
  }

  /** What is embedded in a message of the replica's own that is next has been processed. */
  lemma OwnPartCounted(c: Config, run: seq<Action>, i: nat, m: Message, k: nat)
    requires c.Ok() && i < c.n && Orderly(c, run) && |After(c, run)| == c.n
    requires Sent(After(c, run), m) && m.Sender() == i && m.Counter() <= Get(After(c, run)[i].lastUI, i) + 1
    requires k < |Embedded(m)|
    ensures IsCounted(After(c, run)[i], Embedded(m)[k])
  {
    var g := After(c, run);
    RunInv(c, run);
    assert At(c, g, i) && ValidOk(c, g[i], m);
    if !m.ViewChangeMsg? {
      ClosedRun(c, run, i);
      SameMessage(TracesOf(g), i, m, m);
      assert OwnClosed(g[i], m.Counter() - 1);
    }
  }

  /** In every orderly run, handling what is embedded in the next of its own messages succeeds at a live replica. */
  lemma OwnEmbeddedSucceeds(c: Config, run: seq<Action>, i: nat, m: Message, order: Order)
    requires c.Ok() && i < c.n && Orderly(c, run) && |After(c, run)| == c.n && !After(c, run)[i].exec.stopped
    requires Sent(After(c, run), m) && m.Sender() == i && m.Counter() <= Get(After(c, run)[i].lastUI, i) + 1
    ensures var h := HandleEmbedded(c, After(c, run)[i], i, m, order); h.ok && !h.s.exec.stopped
  {
    var g := After(c, run);
    RunInv(c, run);
    forall k | 0 <= k < |Embedded(m)|
      ensures Known(c, g[i], Embedded(m)[k])
    {
      OwnPartCounted(c, run, i, m, k);
      EmbeddedSent(c, g, m, k);
      CountedKnown(c, run, i, Embedded(m)[k]);
    }
    if m.ViewChangeMsg? {
      CertificatesValid(c, run, m.vc);
    }
    EmbeddedKnown(c, g[i], i, m, order);
  }

  // ---------- NewView messages follow the replica's own ViewChange message ----------

  /** By the time a replica certifies a NewView message it has processed every message of its own before it, the
      last of which is its ViewChange message for the view, in the certificate. */
  ghost predicate LedNext(s: Replica, i: nat) {
    forall k :: 0 <= k < |s.trace| && s.trace[k].NewView? ==> LedAt(s, i, k)
  }

  ghost predicate LedAt(s: Replica, i: nat, k: nat)
    requires k < |s.trace| && s.trace[k].NewView?
  {
    && 1 <= k <= Get(s.lastUI, i) && s.trace[k - 1].ViewChangeMsg?
    && s.trace[k - 1].vc in s.trace[k].nvCert && s.trace[k - 1].vc.newView == s.trace[k].newView
  }

  /** A replica that has made no commitment in the view it leads has just certified its ViewChange message. */
  lemma LastIsViewChange(c: Config, ts: Traces, s: Replica, i: nat, own: ViewChange)
    requires Good(c, ts, s, i) && s.expected >= 1 && Own(s) == []
    requires own.newView == s.expected && ViewChangeMsg(own) in s.trace
    ensures own.cv == |s.trace| >= 1 && s.trace[|s.trace| - 1] == ViewChangeMsg(own)
  {
    var l := CertifiedIn(s.log);
    assert LogShape(s.trace, l, s.expected, c.IsPrimary(s.expected, i));
    assert l[0].ViewChangeMsg? && |l| == 1;
    assert l[0] == s.trace[|s.trace| - 1];
    assert UniqueOk(ts, i, l[0].vc, own) && StampOk(ts, i, |s.trace| - 1);
  }

  lemma ViewChangeLeads(c: Config, ts: Traces, s: Replica, i: nat, m: Message)
    requires Good(c, ts, s, i) && !s.exec.stopped && LedNext(s, i)
    requires m.ViewChangeMsg? && Processing.NextVc(c, ts, s, m.vc)
    ensures LedNext(Ticked(ProcessViewChange(c, s, i, m.vc), m), i)
  {
    var s' := Ticked(ProcessViewChange(c, s, i, m.vc), m);
    ViewChangeFrame(c, s, i, m.vc);
    if s'.trace != s.trace {
      NewViewLed(c, ts, s, i, m, s');
    }
    LedStays(s, s', i);
  }

  /** The NewView message just certified. */
  lemma NewViewLed(c: Config, ts: Traces, s: Replica, i: nat, m: Message, s': Replica)
    requires Good(c, ts, s, i) && !s.exec.stopped && m.ViewChangeMsg? && Processing.NextVc(c, ts, s, m.vc)
    requires s' == Ticked(ProcessViewChange(c, s, i, m.vc), m) && s'.trace != s.trace
    ensures |s'.trace| == |s.trace| + 1 && s'.trace[|s.trace|].NewView? && LedAt(s', i, |s.trace|)
  {
    var t := VcPut(VcEnter(s.vcs, m.vc.newView), i, m.vc);
    assert MemberOk(c, ts, s.(vcs := t, lastUI := s'.lastUI), t.own.value) by {
      Processing.PutGenuine(c, ts, s, i, m.vc);
    }
    ViewChangeFrame(c, s, i, m.vc);
    assert Own(s) == [] by { assert LedOk(c, s, i, s.expected); }
    LastIsViewChange(c, ts, s, i, t.own.value);
    var x := s'.trace[|s.trace|];
    assert x.nvCert[0] == t.own.value && x.newView == s.expected;
  }

  /** Nothing but the last message of the longer trace is in question. */
  lemma LedStays(s: Replica, s': Replica, i: nat)
    requires LedNext(s, i) && s.trace <= s'.trace && Get(s.lastUI, i) <= Get(s'.lastUI, i)
    requires forall k :: |s.trace| <= k < |s'.trace| && s'.trace[k].NewView? ==> LedAt(s', i, k)
    ensures LedNext(s', i)
  {
    forall k | 0 <= k < |s.trace| && s.trace[k].NewView?
      ensures LedAt(s', i, k)
    {
      assert LedAt(s, i, k);
    }
  }

  lemma CertifiedLeads(c: Config, ts: Traces, s: Replica, i: nat, m: Message, order: Order)
    requires Good(c, ts, s, i) && LedNext(s, i)
    requires m.Sender() < c.n && m in ts[m.Sender()] && (m.ViewChangeMsg? || m.Unwrap().IsProposal())
    ensures LedNext(ProcessCertified(c, s, i, m, order).s, i)
  {
    if m.ViewChangeMsg? {
      TakenViewChange(c, s, i, m, order);
      if !s.exec.stopped && m.Counter() == Get(s.lastUI, m.Sender()) + 1 {
        assert CompleteOk(ts, m.Sender(), m.vc);
        ViewChangeLeads(c, ts, s, i, m);
      }
    } else {
      TakenForm(c, s, i, m, order);
      MessageAnswers(c, s, i, m, order);
      MessageFrame(c, s, i, m, order);
      LedStays(s, ProcessCertified(c, s, i, m, order).s, i);
    }
  }

  lemma OtherLeads(c: Config, g: State, a: Action)
    requires c.Ok() && a.at < |g| && LedNext(g[a.at], a.at) && !(a.Processes() && Usable(g, a.m))
    ensures LedNext(Local(c, g, a), a.at)
  {
    LedStays(g[a.at], Local(c, g, a), a.at);
  }

  lemma ActionLeads(c: Config, g: State, a: Action)
    requires Inv(c, g) && a.at < |g| && LedNext(g[a.at], a.at)
    ensures LedNext(Local(c, g, a), a.at)
  {
    if a.Processes() && Usable(g, a.m) {
      assert At(c, g, a.at);
      ProcessedState(c, g, a);
      CertifiedLeads(c, TracesOf(g), g[a.at], a.at, a.m, a.order);
    } else {
      OtherLeads(c, g, a);
    }
  }

  lemma {:induction false} LedNextRun(c: Config, run: seq<Action>, i: nat)
    requires c.Ok() && i < c.n
    ensures |After(c, run)| == c.n && LedNext(After(c, run)[i], i)
    decreases |run|
  {
    if run != [] {
      var before, a := run[..|run| - 1], run[|run| - 1];
      LedNextRun(c, before, i);
      RunInv(c, before);
      if a.at == i {
        ActionLeads(c, After(c, before), a);
      }
    }
  }

  /** An entry of the log of a ViewChange message is next once the entry before it has been processed, unless it is
      a ViewChange message itself. */
  lemma EntryNext(c: Config, run: seq<Action>, i: nat, vc: ViewChange, k: nat)
    requires c.Ok() && i < c.n && |After(c, run)| == c.n && Sent(After(c, run), ViewChangeMsg(vc))
    requires vc.replicaID == i && k < |vc.log| && !vc.log[k].ViewChangeMsg?
    requires k > 0 ==> IsCounted(After(c, run)[i], vc.log[k - 1])
    ensures vc.log[k].Sender() == i && vc.log[k].Counter() <= Get(After(c, run)[i].lastUI, i) + 1
    ensures vc.log[k].Unwrap().IsProposal() && MessageView(vc.log[k]) < vc.newView
    ensures Sent(After(c, run), vc.log[k])
  {
    var g, m, x := After(c, run), ViewChangeMsg(vc), vc.log[k];
    RunInv(c, run);
    assert At(c, g, i) && ValidOk(c, g[i], m);
    assert Embedded(m)[k] == x;
    EmbeddedSent(c, g, m, k);
    assert ValidOk(c, g[i], x);
    EntryView(c, TracesOf(g), i, vc, k);
    if k == 0 && x.NewView? {
      LedNextRun(c, run, i);
      SameMessage(TracesOf(g), i, x, x);
    }
  }

  lemma EntryView(c: Config, ts: Traces, i: nat, vc: ViewChange, k: nat)
    requires Evident(c, ts) && i < c.n && ViewChangeMsg(vc) in ts[i] && k < |vc.log| && !vc.log[k].ViewChangeMsg?
    ensures vc.newView >= 1 && vc.log[k].CommitsIn(vc.newView - 1)
  {
    assert CompleteOk(ts, i, vc);
    var j := if Extraction.Strip(vc.log) == vc.log then k else k - 1;
    assert Extraction.Strip(vc.log)[j] == vc.log[k];
    CommsMember(ts[i], vc.newView - 1, j);
  }
}
