/** Where a Prepare that its own sender refuses comes from.

    A primary that applies its NewView message proposes what is pending (core/request.go:203-209).  The pending
    list may hold a request at or below the client's last prepared one: un-preparing puts an older request back
    (core/request.go:301-304), and preparing a newer one removes only that one (core/request.go:273-274).  A
    replica whose pending list holds no such request whenever it applies a NewView message of its own never
    refuses a message of its own. */
module StalePending {
  import opened Messages
  import opened Extraction
  import opened Commitments
  import opened Requests
  import opened Execution
  import opened Replica
  import opened Evidence
  import opened Invariants
  import opened Emission
  import opened Collecting
  import opened System
  import opened Agreement
  import opened Handling
  import opened Steadiness
  import opened OwnMessages
  import opened Panics
  import Progress
  import LifeCycles

  /** A pending request is at or below the last one prepared for its client. */
  ghost predicate Stale(s: Clients) {
    exists c :: c in s.pending && IsPrepared(s, s.pending[c])
  }

  /** From position n on, the trace proposes a request that is prepared. */
  ghost predicate ProposesPrepared(t: Replica, n: nat) {
    exists k :: n <= k < |t.trace| && t.trace[k].Prepare? && IsPrepared(t.exec.clients, t.trace[k].request)
  }

  lemma ListedPrepared(t: Replica, n: nat, i: nat, v: nat, reqs: seq<Request>)
    requires Progress.EndsWith(t.trace, n, i, v, reqs) && Lists(t.exec.clients.pending, reqs)
    ensures ProposesPrepared(t, n) <==> Stale(t.exec.clients)
  {
    var cl := t.exec.clients;
    if Stale(cl) {
      var x :| x in cl.pending && IsPrepared(cl, cl.pending[x]);
      var k :| 0 <= k < |reqs| && reqs[k] == cl.pending[x];
      assert t.trace[n + k] == Message.Prepare(i, v, reqs[k], n + k + 1);
    }
    if ProposesPrepared(t, n) {
      var k :| n <= k < |t.trace| && t.trace[k].Prepare? && IsPrepared(cl, t.trace[k].request);
      assert t.trace[k].request == reqs[k - n];
      assert cl.pending[reqs[k - n].clientID] == reqs[k - n];
    }
  }

  /** A primary that applies its NewView message proposes a prepared request if and only if one is pending. */
  lemma ProposesPreparedIff(c: Config, s: Replica, i: nat, m: Message, order: Order)
    requires c.Ok() && m.NewView? && m.replicaID == i && c.IsPrimary(m.newView, i)
    requires var a := ApplyNewView(c, s, i, m, order);
             a.ok && !a.s.exec.stopped && Lists(a.s.exec.clients.pending, order(a.s.exec.clients.pending))
    ensures var t := ApplyNewView(c, s, i, m, order).s;
            ProposesPrepared(t, |s.trace|) <==> Stale(t.exec.clients)
  {
    var t := ApplyNewView(c, s, i, m, order).s;
    Progress.NewViewTrace(c, s, i, m, order);
    ListedPrepared(t, |s.trace|, i, m.newView, order(t.exec.clients.pending));
  }

  // ---------- The proposals still to be taken ----------

  /** Position k of the trace is a proposal of the expected view that the replica has yet to process. */
  predicate Queued(s: Replica, i: nat, k: nat) {
    Get(s.lastUI, i) <= k < |s.trace| && s.trace[k].Prepare? && s.trace[k].view == s.expected
  }

  predicate Waits(s: Clients, q: Request) {
    Nums(s, q.clientID).prepared < q.seqNo <= Nums(s, q.clientID).captured
  }

  predicate InOrder(q: Request, q': Request) {
    q.clientID == q'.clientID ==> q.seqNo < q'.seqNo
  }

  /** Requests proposed but not processed are not prepared, and each client's are in order. */
  ghost predicate QueueOk(s: Replica, i: nat) {
    && (forall k: nat :: Queued(s, i, k) ==> Waits(s.exec.clients, s.trace[k].request))
    && (forall j: nat, k: nat :: j < k && Queued(s, i, j) && Queued(s, i, k) ==>
                                   InOrder(s.trace[j].request, s.trace[k].request))
  }

  /** No more is prepared, and no less captured. */
  ghost predicate NoMore(s: Clients, t: Clients) {
    forall c :: Nums(t, c).prepared <= Nums(s, c).prepared && Nums(s, c).captured <= Nums(t, c).captured
  }

  /** Nothing has been added to the queue. */
  lemma QueueStays(s: Replica, s': Replica, i: nat)
    requires QueueOk(s, i) && NoMore(s.exec.clients, s'.exec.clients)
    requires s.trace <= s'.trace && s'.expected == s.expected && Get(s.lastUI, i) <= Get(s'.lastUI, i)
    requires forall k :: |s.trace| <= k < |s'.trace| ==> !s'.trace[k].Prepare?
    ensures QueueOk(s', i)
  {
    forall k: nat | Queued(s', i, k)
      ensures Queued(s, i, k) && Waits(s'.exec.clients, s'.trace[k].request)
    {
      assert Queued(s, i, k);
      var x := s.trace[k].request.clientID;
      assert Nums(s'.exec.clients, x).prepared <= Nums(s.exec.clients, x).prepared;
    }
  }

  /** A newly captured request is proposed. */
  lemma RequestQueues(c: Config, s: Replica, i: nat, q: Request)
    requires c.Ok() && QueueOk(s, i) && LifeCycle(s.exec.clients)
    ensures QueueOk(ProcessRequest(c, s, i, q), i)
  {
    var s' := ProcessRequest(c, s, i, q);
    assert ClientOk(s.exec.clients, q.clientID);
    forall k: nat | Queued(s', i, k)
      ensures Waits(s'.exec.clients, s'.trace[k].request)
      ensures k < |s.trace| ==> Queued(s, i, k)
    {
      if k < |s.trace| {
        assert Queued(s, i, k);
      }
    }
    forall j: nat, k: nat | j < k && Queued(s', i, j) && Queued(s', i, k)
      ensures InOrder(s'.trace[j].request, s'.trace[k].request)
    {
      assert Queued(s, i, j) && Waits(s.exec.clients, s.trace[j].request);
      if k < |s.trace| {
        assert Queued(s, i, k);
      }
    }
  }

  /** Only the primary of a view proposes in it, and none before it expects the view. */
  lemma NothingQueued(c: Config, ts: Traces, s: Replica, i: nat)
    requires Good(c, ts, s, i) && !c.IsPrimary(s.expected, i)
    ensures QueueOk(s, i)
  {
    forall k: nat
      ensures !Queued(s, i, k)
    {
      if k < |s.trace| {
        assert StampOk(ts, i, k) && ValidOk(c, s, s.trace[k]);
      }
    }
  }

  lemma ReqViewChangeQueues(c: Config, ts: Traces, s: Replica, i: nat, rvc: ReqViewChange)
    requires Good(c, ts, s, i) && QueueOk(s, i)
    ensures QueueOk(ProcessReqViewChange(c, s, i, rvc), i)
  {
    var s' := ProcessReqViewChange(c, s, i, rvc);
    if s'.expected == s.expected {
      QueueStays(s, s', i);
    } else {
      assert QuietOk(s, s'.expected);
      forall k: nat
        ensures !Queued(s', i, k)
      {
        if k < |s.trace| && s.trace[k].CommitsIn(s'.expected) {
          var j := CommsIndex(s.trace, s.trace[k], s'.expected);
        }
      }
    }
  }

  // ---------- Processing messages ----------

  lemma {:induction false} ExecuteAllNoMore(x: Exec, l: seq<Request>)
    ensures NoMore(x.clients, ExecuteAll(x, l).clients)
  {
    if l != [] {
      var y := ExecuteAll(x, l[..|l| - 1]);
      ExecuteAllNoMore(x, l[..|l| - 1]);
      var z := ExecuteAll(x, l);
      forall c
        ensures Nums(z.clients, c).prepared <= Nums(x.clients, c).prepared
        ensures Nums(x.clients, c).captured <= Nums(z.clients, c).captured
      {
        assert Nums(y.clients, c).prepared <= Nums(x.clients, c).prepared;
      }
    }
  }

  lemma ProposalNoMore(x: Exec, p: Message)
    requires p.IsProposal()
    ensures NoMore(x.clients, ExecuteProposal(x, p).clients)
  {
    if p.NewView? && Extract(p.nvCert).Some? {
      ExecuteAllNoMore(x, Extract(p.nvCert).value);
    } else if p.Prepare? {
      ExecuteAllNoMore(x, [p.request]);
      assert [p.request][..0] == [];
    }
  }

  lemma CollectNoMore(s: Replica, m: Message)
    requires m.Unwrap().IsProposal()
    ensures NoMore(s.exec.clients, CollectCommitment(s, m).s.exec.clients)
  {
    var t := CollectCommitment(s, m).s;
    ProposalNoMore(s.exec, m.Unwrap());
    assert t.exec == s.exec || t.exec == ExecuteProposal(s.exec, m.Unwrap());
  }

  lemma TickQueues(t: Replica, s': Replica, i: nat, m: Message)
    requires QueueOk(t, i) && (s' == t || s' == Ticked(t, m)) && m.Counter() == Get(t.lastUI, m.Sender()) + 1
    ensures QueueOk(s', i)
  {
    QueueStays(t, s', i);
  }

  /** The replica takes the first of its queued proposals. */
  lemma OwnPrepareQueues(s: Replica, i: nat, m: Message)
    requires QueueOk(s, i) && m in s.trace && m.Sender() == i && m.Counter() == Get(s.lastUI, i) + 1
    requires OwnShape(s) && m.Prepare? && m.view == s.expected && Acceptable(s.tally.acc, CommitmentOf(m))
    ensures var a := ApplyPrepare(s, i, m); a.ok && QueueOk(Ticked(a.s, m), i)
  {
    var u, cl := Get(s.lastUI, i), s.exec.clients;
    var k :| 0 <= k < |s.trace| && s.trace[k] == m;
    assert k == u && Queued(s, i, u) && Waits(cl, m.request);
    var s1 := s.(exec := s.exec.(clients := PrepareReq(cl, m.request)));
    var t := CollectCommitment(s1, m).s;
    CollectNoMore(s1, m);
    CollectFrame(s1, m);
    var s' := Ticked(t, m);
    forall k: nat | Queued(s', i, k)
      ensures Queued(s, i, k) && Waits(s'.exec.clients, s'.trace[k].request)
    {
      assert Queued(s, i, k) && Waits(cl, s.trace[k].request) && InOrder(m.request, s.trace[k].request);
      var x := s.trace[k].request.clientID;
      assert Nums(s'.exec.clients, x).prepared <= Nums(s1.exec.clients, x).prepared;
    }
  }

  /** What is pending becomes the queue of the view that begins. */
  lemma OwnNewViewQueues(c: Config, s: Replica, i: nat, m: Message, order: Order)
    requires c.Ok() && m.NewView? && m.replicaID == i && c.IsPrimary(m.newView, i) && m.newView == s.expected
    requires forall k: nat :: !Queued(s, i, k)
    requires var a := ApplyNewView(c, s, i, m, order);
             && a.ok && !a.s.exec.stopped && LifeCycle(a.s.exec.clients) && !Stale(a.s.exec.clients)
             && Lists(a.s.exec.clients.pending, order(a.s.exec.clients.pending))
    requires m.cv >= Get(s.lastUI, i)
    ensures QueueOk(Ticked(ApplyNewView(c, s, i, m, order).s, m), i)
  {
    var t := ApplyNewView(c, s, i, m, order).s;
    var s', n, cl := Ticked(t, m), |s.trace|, t.exec.clients;
    var reqs := order(cl.pending);
    Progress.NewViewTrace(c, s, i, m, order);
    NewViewFrame(c, s, i, m, order);
    forall k: nat | Queued(s', i, k)
      ensures k >= n && s'.trace[k].request == reqs[k - n] && Waits(cl, s'.trace[k].request)
    {
      if k < n {
        assert Queued(s, i, k);
      }
      var q := reqs[k - n];
      assert q == cl.pending[q.clientID] && ClientOk(cl, q.clientID);
    }
  }

  /** Before its own NewView message is processed a replica has proposed nothing in the view. */
  lemma NoneBefore(c: Config, ts: Traces, s: Replica, i: nat, m: Message)
    requires Good(c, ts, s, i) && OwnOk(c, s, i) && m in s.trace && m.Sender() == i
    requires m.NewView? && m.newView == s.expected && m.Counter() == Get(s.lastUI, i) + 1
    ensures c.IsPrimary(s.expected, i) && forall k: nat :: !Queued(s, i, k)
  {
    var j := Placed(c, ts, i, m);
    assert ProposalsOk(c, ts, s.expected);
    ProposalSender(c, ts, s.expected, j);
    assert Own(s)[0] == m && !Heading(c, s, i);
    forall k: nat
      ensures !Queued(s, i, k)
    {
      if k < |s.trace| && s.trace[k].CommitsIn(s.expected) {
        var x := CommsIndex(s.trace, s.trace[k], s.expected);
      }
    }
  }

  /** The list of what is pending after the step is enumerated, and none of it is prepared. */
  ghost predicate FreshFor(s': Replica, order: Order) {
    var cl := s'.exec.clients;
    Lists(cl.pending, order(cl.pending)) && !Stale(cl)
  }

  /** A message of the expected view from its primary, applied by that primary itself. */
  lemma OwnProposalQueues(c: Config, ts: Traces, s: Replica, i: nat, m: Message, order: Order)
    requires Good(c, ts, s, i) && OwnOk(c, s, i) && QueueOk(s, i) && m in s.trace && m.Sender() == i
    requires m.IsProposal() && Applies(s, m) && m.Counter() == Get(s.lastUI, i) + 1
    requires var t := ProcessViewMessage(c, s, i, m, order).s;
             !t.exec.stopped && LifeCycle(t.exec.clients) && (m.NewView? ==> FreshFor(t, order))
    ensures var a := ProcessViewMessage(c, s, i, m, order); a.ok && QueueOk(Ticked(a.s, m), i)
  {
    OwnAcceptable(c, ts, s, i, m);
    if m.Prepare? {
      OwnPrepareQueues(s, i, m);
    } else {
      NoneBefore(c, ts, s, i, m);
      OwnApplied(c, s, i, m, order);
      var e := EnterView(s, m.newView);
      forall k: nat
        ensures !Queued(e, i, k)
      {
        assert !Queued(s, i, k);
      }
      OwnNewViewQueues(c, e, i, m, order);
    }
  }

  /** A message that prepares nothing new for a proposal in the queue. */
  lemma QuietQueues(c: Config, s: Replica, i: nat, m: Message, order: Order)
    requires c.Ok() && QueueOk(s, i) && m.Unwrap().IsProposal() && (Applies(s, m) ==> m.Commit?)
    ensures QueueOk(ProcessViewMessage(c, s, i, m, order).s, i)
  {
    var s' := ProcessViewMessage(c, s, i, m, order).s;
    if Applies(s, m) {
      CollectNoMore(s, m);
      CollectFrame(s, m);
    } else {
      UnappliedForm(c, s, i, m, order);
    }
    QueueStays(s, s', i);
  }

  /** Processing a message of the expected view's primary. */
  lemma ProposalQueues(c: Config, ts: Traces, s: Replica, i: nat, m: Message, order: Order, s': Replica)
    requires Good(c, ts, s, i) && OwnOk(c, s, i) && QueueOk(s, i) && m.Sender() < c.n && m in ts[m.Sender()]
    requires m.IsProposal() && Applies(s, m) && m.Counter() == Get(s.lastUI, m.Sender()) + 1
    requires var a := ProcessViewMessage(c, s, i, m, order); s' == if a.ok then Ticked(a.s, m) else a.s
    requires !s'.exec.stopped && LifeCycle(s'.exec.clients) && Good(c, With(ts, i, s'), s', i)
    requires m.NewView? && m.Sender() == i ==> FreshFor(s', order)
    ensures QueueOk(s', i)
  {
    if m.Sender() == i {
      OwnProposalQueues(c, ts, s, i, m, order);
    } else {
      var j := Placed(c, ts, m.Sender(), m);
      ProposalSender(c, ts, s.expected, j);
      MessageFrame(c, s, i, m, order);
      NothingQueued(c, With(ts, i, s'), s', i);
    }
  }

  lemma ViewChangeQueues(c: Config, s: Replica, i: nat, vc: ViewChange)
    requires c.Ok() && QueueOk(s, i)
    ensures QueueOk(ProcessViewChange(c, s, i, vc), i)
  {
    QueueStays(s, ProcessViewChange(c, s, i, vc), i);
  }

  lemma MessageQueues(c: Config, ts: Traces, s: Replica, i: nat, m: Message, order: Order, s': Replica)
    requires Good(c, ts, s, i) && OwnOk(c, s, i) && QueueOk(s, i) && m.Sender() < c.n && m in ts[m.Sender()]
    requires m.Unwrap().IsProposal() && m.Counter() == Get(s.lastUI, m.Sender()) + 1
    requires var a := ProcessViewMessage(c, s, i, m, order); s' == if a.ok then Ticked(a.s, m) else a.s
    requires !s'.exec.stopped && LifeCycle(s'.exec.clients) && Good(c, With(ts, i, s'), s', i)
    requires m.NewView? && m.Sender() == i && Applies(s, m) ==> FreshFor(s', order)
    ensures QueueOk(s', i)
  {
    if m.IsProposal() && Applies(s, m) {
      ProposalQueues(c, ts, s, i, m, order, s');
    } else {
      QuietQueues(c, s, i, m, order);
      MessageFrame(c, s, i, m, order);
      TickQueues(ProcessViewMessage(c, s, i, m, order).s, s', i, m);
    }
  }

  lemma ViewChangeTicks(c: Config, s: Replica, i: nat, m: Message, order: Order)
    requires c.Ok() && QueueOk(s, i) && m.ViewChangeMsg?
    ensures QueueOk(ProcessCertified(c, s, i, m, order).s, i)
  {
    if !s.exec.stopped && m.Counter() == Get(s.lastUI, m.Sender()) + 1 {
      var t := ProcessViewChange(c, s, i, m.vc);
      ViewChangeQueues(c, s, i, m.vc);
      TickQueues(t, Ticked(t, m), i, m);
    }
  }

  /** The replica is about to apply its own NewView message for the view it expects. */
  predicate Begins(s: Replica, i: nat, m: Message) {
    m.NewView? && m.Sender() == i && Applies(s, m) && m.Counter() == Get(s.lastUI, i) + 1
  }

  lemma CertifiedQueues(c: Config, ts: Traces, s: Replica, i: nat, m: Message, order: Order, s': Replica)
    requires Good(c, ts, s, i) && OwnOk(c, s, i) && QueueOk(s, i) && m.Sender() < c.n && m in ts[m.Sender()]
    requires m.ViewChangeMsg? || m.Unwrap().IsProposal()
    requires s' == ProcessCertified(c, s, i, m, order).s && Good(c, With(ts, i, s'), s', i)
    requires !s'.exec.stopped && LifeCycle(s'.exec.clients) && (Begins(s, i, m) ==> FreshFor(s', order))
    ensures QueueOk(s', i)
  {
    if m.ViewChangeMsg? {
      ViewChangeTicks(c, s, i, m, order);
    } else {
      TakenForm(c, s, i, m, order);
      if !s.exec.stopped && m.Counter() == Get(s.lastUI, m.Sender()) + 1 {
        MessageQueues(c, ts, s, i, m, order, s');
      }
    }
  }

  // ---------- Every run ----------

  /** If the action has replica i apply its own NewView message, what is pending then is enumerated, and none of
      it is prepared. */
  ghost predicate FreshAt(c: Config, g: State, a: Action, i: nat)
    requires c.Ok()
  {
    a.at == i < |g| && a.Processes() && Usable(g, a.m) && Begins(g[i], i, a.m) ==> FreshFor(Local(c, g, a), a.order)
  }

  ghost predicate Fresh(c: Config, run: seq<Action>, i: nat)
    requires c.Ok()
  {
    forall k :: 0 <= k < |run| ==> FreshAt(c, After(c, run[..k]), run[k], i)
  }

  lemma FreshBefore(c: Config, run: seq<Action>, i: nat)
    requires c.Ok() && run != [] && Fresh(c, run, i)
    ensures Fresh(c, run[..|run| - 1], i) && FreshAt(c, After(c, run[..|run| - 1]), run[|run| - 1], i)
  {
    forall k | 0 <= k < |run| - 1
      ensures FreshAt(c, After(c, run[..|run| - 1][..k]), run[k], i)
    {
      assert run[..|run| - 1][..k] == run[..k];
      assert FreshAt(c, After(c, run[..k]), run[k], i);
    }
  }

  lemma TimeoutQueues(s: Replica, i: nat, newView: nat)
    requires QueueOk(s, i)
    ensures QueueOk(RequestViewChange(s, i, newView), i)
  {
    QueueStays(s, RequestViewChange(s, i, newView), i);
  }

  lemma OtherQueues(c: Config, ts: Traces, g: State, a: Action)
    requires a.at < |g| && !a.Processes() && Good(c, ts, g[a.at], a.at)
    requires QueueOk(g[a.at], a.at) && LifeCycle(g[a.at].exec.clients)
    ensures QueueOk(Local(c, g, a), a.at)
  {
    var s := g[a.at];
    match a {
      case ReceiveRequest(i, q) => RequestQueues(c, s, i, q);
      case ReceiveReqViewChange(i, rvc) => ReqViewChangeQueues(c, ts, s, i, rvc);
      case Timeout(i, newView) => TimeoutQueues(s, i, newView);
    }
  }

  lemma ActionQueues(c: Config, run: seq<Action>, a: Action)
    requires c.Ok() && a.at < c.n && |After(c, run)| == c.n && QueueOk(After(c, run)[a.at], a.at)
    requires !After(c, run)[a.at].exec.stopped && !Local(c, After(c, run), a).exec.stopped
    requires FreshAt(c, After(c, run), a, a.at)
    ensures QueueOk(Local(c, After(c, run), a), a.at)
  {
    var g, i := After(c, run), a.at;
    RunInv(c, run);
    assert At(c, g, i);
    LifeCycles.LifeCycleHolds(c, run, i);
    if !a.Processes() {
      OtherQueues(c, TracesOf(g), g, a);
    } else if Usable(g, a.m) {
      var s' := Local(c, g, a);
      ProcessedState(c, g, a);
      OwnRun(c, run, i);
      OneMore(c, run, a);
      LifeCycles.LifeCycleHolds(c, run + [a], i);
      LocalKeeps(c, g, a);
      CertifiedQueues(c, TracesOf(g), g[i], i, a.m, a.order, s');
    }
  }

  lemma {:induction false} QueueRun(c: Config, run: seq<Action>, i: nat)
    requires c.Ok() && i < c.n && Fresh(c, run, i)
    ensures |After(c, run)| == c.n
    ensures !After(c, run)[i].exec.stopped ==> QueueOk(After(c, run)[i], i)
    decreases |run|
  {
    AfterLength(c, run);
    if run != [] {
      var before, a := run[..|run| - 1], run[|run| - 1];
      FreshBefore(c, run, i);
      QueueRun(c, before, i);
      if a.at == i {
        if After(c, before)[i].exec.stopped {
          StaysStopped(c, After(c, before), a);
        } else if !After(c, run)[i].exec.stopped {
          ActionQueues(c, before, a);
        }
      }
    }
  }

  /** A message whose request waits in the queue is not refused. */
  lemma NotRefused(s: Replica, i: nat, m: Message)
    requires QueueOk(s, i) && OwnShape(s) && m in s.trace && m.Sender() == i
    ensures !Refused(s, m)
  {
    if m.Prepare? && m.view == s.expected && m.Counter() == Get(s.lastUI, i) + 1 {
      var k :| 0 <= k < |s.trace| && s.trace[k] == m;
      assert Queued(s, i, k) && Waits(s.exec.clients, m.request);
    }
  }

  /** In every run, a replica that never applies a NewView message of its own while a request at or below the last
      one prepared for its client is pending never refuses a message of its own. */
  lemma {:induction false} FreshNeverRefuses(c: Config, run: seq<Action>, i: nat)
    requires c.Ok() && i < c.n && Orderly(c, run) && Fresh(c, run, i)
    ensures !HasRefused(c, run, i)
    decreases |run|
  {
    if run != [] {
      var before, a := run[..|run| - 1], run[|run| - 1];
      OrderlyBefore(c, run);
      FreshBefore(c, run, i);
      FreshNeverRefuses(c, before, i);
      HasRefusedNext(c, run, i);
      if RefusesOwn(After(c, before), a, i) {
        QueueRun(c, before, i);
        ShapeAt(c, before, i);
        NotRefused(After(c, before)[i], i, a.m);
        assert false;
      }
    }
  }

  /** In every orderly run, a replica never stops that never enters a view before expecting it and never applies a
      NewView message of its own while a prepared request is pending. */
  lemma FreshNeverStops(c: Config, run: seq<Action>, i: nat)
    requires c.Ok() && i < c.n && Orderly(c, run) && Fresh(c, run, i)
    ensures |After(c, run)| == c.n
    ensures !After(c, run)[i].ahead ==> !After(c, run)[i].exec.stopped
  {
    FreshNeverRefuses(c, run, i);
    NeverStops(c, run, i);
  }
}
