/** A replica as an object built from its parts, processing messages by calling them in the order of the
    source: the commitment acceptor and counter, the request book over its two lists, the two certificate
    collectors, the view state and the message log, each with the in-place state of its own class.

    Every method is proved to carry out the critical section of that name in module Replica, so that what is
    proved of runs holds of the assembled objects. */
module Nodes {
  import opened Messages
  import opened Extraction
  import opened Commitments
  import opened Requests
  import opened Execution
  import opened Collectors
  import opened ViewStates
  import opened MessageLogs
  import M = Replica

  class Node {
    const c: Config
    const id: nat
    const acceptor: CommitmentAcceptor
    const counter: CommitmentCounter
    const book: RequestBook
    const requests: ReqViewChangeCollector
    const viewChanges: ViewChangeCollector
    const views: ViewState
    const messages: MessageLog<M.LogEntry>
    var usig: nat
    var lastUI: map<nat, nat>
    var requestedView: nat
    var delivered: seq<Request>
    var stopped: bool
    ghost var trace: seq<Message>
    ghost var doneView: nat
    ghost var doneCV: nat
    ghost var ahead: bool

    ghost function Repr(): set<object>
      reads this, counter, book
    {
      {this, acceptor, counter, counter.highest, book, book.pending, book.preparedReqs,
       requests, viewChanges, views, messages}
    }

    ghost predicate Valid()
      reads Repr()
    {
      && c.Ok() && book.Separate() && Keyed(book.pending.messages) && Keyed(book.preparedReqs.messages)
      && requests.size == c.ViewChangeCertSize()
      && viewChanges.Valid() && viewChanges.c == c && viewChanges.id == id
      && messages.Valid() && usig == |trace|
    }

    ghost function Model(): M.Replica
      requires Valid()
      reads Repr()
    {
      M.Replica(trace, messages.msgs, views.currentView, views.expectedView, lastUI, requestedView,
                requests.Model(), viewChanges.Model(), Tally(acceptor.Model(), counter.Model()),
                Exec(book.Model(), delivered, stopped), doneView, doneCV, ahead)
    }

    constructor (c: Config, id: nat)
      requires c.Ok()
      ensures Valid() && fresh(Repr()) && this.c == c && this.id == id && Model() == M.Initial(c)
    {
      this.c, this.id := c, id;
      acceptor := new CommitmentAcceptor();
      var count := new CommitmentCounter(c.CommitCertSize());
      var pages := new RequestBook();
      counter, book := count, pages;
      requests := new ReqViewChangeCollector(c.ViewChangeCertSize());
      viewChanges := new ViewChangeCollector(c, id);
      views := new ViewState();
      messages := new MessageLog();
      usig, lastUI, requestedView, delivered, stopped := 0, map[], 0, [], false;
      trace, doneView, doneCV, ahead := [], 0, 0, false;
      new;
      assert fresh(Repr()) by {
        assert fresh({count, count.highest, pages, pages.pending, pages.preparedReqs});
      }
      assert views.View() == Views(0, 0) && messages.View() == Log([], 0, []);
      Assembled(c, Model());
    }

    // ---------- Generated messages ----------

    /** makeGeneratedMessageHandler. */
    method HandleGenerated(m: Message)
      requires Valid()
      modifies this, messages
      ensures Valid() && Model() == M.Emit(old(Model()), m)
    {
      usig := usig + 1;
      var certified := m.WithCounter(usig);
      trace := trace + [certified];
      messages.Append(M.Certified(certified));
    }

    /** The loop of makePendingRequestApplier at the primary. */
    method ProposeAll(view: nat, reqs: seq<Request>)
      requires Valid()
      modifies this, messages
      ensures Valid() && Model() == M.EmitPrepares(old(Model()), id, view, reqs)
    {
      for i := 0 to |reqs|
        invariant Valid() && Model() == M.EmitPrepares(old(Model()), id, view, reqs[..i])
      {
        assert reqs[..i + 1][..i] == reqs[..i];
        HandleGenerated(Message.Prepare(id, view, reqs[i], 0));
      }
      assert reqs[..|reqs|] == reqs;
    }

    // ---------- Executing and preparing ----------

    /** makeRequestExecutor over the book's requestRetirer. */
    method ExecuteRequest(q: Request)
      requires Valid()
      modifies this, book, book.preparedReqs
      ensures Valid() && Model() == old(Model()).(exec := Execute(old(Model()).exec, q))
    {
      if stopped {
        return;
      }
      var effect := book.RetireRequest(q);
      match effect {
        case Repeated =>
        case Panics => stopped := true;
        case New => delivered := delivered + [q];
      }
    }

    /** makeNewViewAcceptor: the loop over the prepared requests. */
    method ExecuteRequests(l: seq<Request>)
      requires Valid()
      modifies this, book, book.preparedReqs
      ensures Valid() && Model() == old(Model()).(exec := ExecuteAll(old(Model()).exec, l))
    {
      for i := 0 to |l|
        invariant Valid() && Model() == old(Model()).(exec := ExecuteAll(old(Model()).exec, l[..i]))
      {
        assert l[..i + 1][..i] == l[..i];
        ExecuteRequest(l[i]);
      }
      assert l[..|l|] == l;
    }

    /** The loop of makeNewViewApplier that prepares the extracted requests; a panic leaves it. */
    method PrepareRequests(l: seq<Request>)
      requires Valid() && !stopped
      modifies this, book, book.pending, book.preparedReqs
      ensures Valid() && Model() == old(Model()).(exec := PrepareAll(old(Model()).exec, l))
    {
      for i := 0 to |l|
        invariant Valid() && Model() == old(Model()).(exec := PrepareAll(old(Model()).exec, l[..i]))
      {
        assert l[..i + 1][..i] == l[..i];
        if !stopped {
          var effect := book.PrepareRequest(l[i]);
          if effect == Panics {
            stopped := true;
          }
        }
      }
      assert l[..|l|] == l;
    }

    // ---------- Commitments ----------

    /** The acceptor and the counter, one after the other. */
    method AcceptAndCount(e: Commitment) returns (ok: bool, done: bool)
      requires Valid()
      modifies acceptor, counter, counter.highest
      ensures Valid() && (counter.highest == old(counter.highest) || fresh(counter.highest))
      ensures Model() == old(Model()).(tally := Collect(old(Model()).tally, e))
      ensures ok == Acceptable(old(Model()).tally.acc, e) && done == Done(old(Model()).tally, e)
    {
      ok := acceptor.AcceptCommitment(e.replica, e.newView, e.view, e.primaryCV, e.replicaCV);
      done := false;
      if ok {
        done := counter.CountCommitment(e.view, e.primaryCV);
      }
    }

    method ExecuteProposal(p: Message)
      requires Valid() && p.IsProposal()
      modifies this, book, book.preparedReqs
      ensures Valid() && Model() == old(Model()).(exec := M.ExecuteProposal(old(Model()).exec, p))
    {
      if p.Prepare? {
        ExecuteRequest(p.request);
      } else {
        var l := ExtractPreparedRequests(p.nvCert);
        if l.None? {
          stopped := true;
        } else {
          ExecuteRequests(l.value);
        }
      }
    }

    /** History only. */
    ghost method RecordDone(e: Commitment)
      requires Valid()
      modifies this`doneView, this`doneCV
      ensures Valid() && Model() == M.RecordDone(old(Model()), e)
    {
      if e.view > doneView {
        doneView, doneCV := e.view, e.primaryCV;
      } else if e.view == doneView && e.primaryCV > doneCV {
        doneCV := e.primaryCV;
      }
    }

    /** makeCommitmentCollector. */
    method CollectCommitment(m: Message) returns (ok: bool)
      requires Valid() && m.Unwrap().IsProposal()
      modifies this, acceptor, counter, counter.highest, book, book.preparedReqs
      ensures Valid() && (counter.highest == old(counter.highest) || fresh(counter.highest))
      ensures M.Applied(Model(), ok) == M.CollectCommitment(old(Model()), m)
    {
      var e := M.CommitmentOf(m);
      var done: bool;
      ok, done := AcceptAndCount(e);
      if done {
        ExecuteProposal(m.Unwrap());
        RecordDone(e);
      }
    }

    // ---------- Messages of the current view ----------

    /** The first step of makePrepareApplier: the request is prepared, or the replica panics. */
    method ReadyRequest(m: Message) returns (effect: Effect)
      requires Valid() && m.Prepare?
      modifies this`stopped, book, book.pending, book.preparedReqs
      ensures Valid() && effect == PrepareEffect(old(Model()).exec.clients, m.request)
      ensures Model() == if effect == Panics then M.Halt(old(Model())) else Readied(old(Model()), m)
    {
      effect := book.PrepareRequest(m.request);
      if effect == Panics {
        stopped := true;
      }
    }

    /** makePrepareApplier. */
    method ApplyPrepare(m: Message) returns (ok: bool)
      requires Valid() && m.Prepare?
      modifies Repr()
      ensures Valid() && fresh(Repr() - old(Repr()))
      ensures M.Applied(Model(), ok) == M.ApplyPrepare(old(Model()), id, m)
    {
      var effect := ReadyRequest(m);
      if effect != New {
        return false;
      }
      ok := CollectCommitment(m);
      PrepareSteps(old(Model()), id, m, M.Applied(Model(), ok));
      if !ok || stopped || id == m.replicaID {
        return;
      }
      HandleGenerated(Commit(id, m, 0));
    }

    /** makePendingRequestApplier: the pending list enumerates its requests in some order. */
    method ProposePending(view: nat) returns (ghost order: M.Order)
      requires Valid()
      modifies this, messages
      ensures Valid() && Lists(old(Model()).exec.clients.pending, order(old(Model()).exec.clients.pending))
      ensures Model() == M.EmitPrepares(old(Model()), id, view, order(old(Model()).exec.clients.pending))
    {
      var all := book.pending.All();
      order := _ => all;
      ProposeAll(view, all);
    }

    /** The first half of makeNewViewApplier: the extracted requests are prepared and the NewView message is
        collected.  If that fails, nothing else happens, whatever the order of the pending requests. */
    method AdoptNewView(m: Message, ghost order: M.Order) returns (ok: bool)
      requires Valid() && m.NewView? && !stopped
      modifies Repr()
      ensures Valid() && fresh(Repr() - old(Repr()))
      ensures if ok && !stopped
              then Adopted(old(Model()), m, Model())
              else M.Applied(Model(), ok) == M.ApplyNewView(c, old(Model()), id, m, order)
    {
      var l := ExtractPreparedRequests(m.nvCert);
      if l.None? {
        stopped := true;
        return false;
      }
      PrepareRequests(l.value);
      if stopped {
        return false;
      }
      ok := CollectCommitment(m);
    }

    /** makeNewViewApplier, for some order in which the pending requests are enumerated. */
    method ApplyNewView(m: Message) returns (ok: bool, ghost order: M.Order)
      requires Valid() && m.NewView? && !stopped
      modifies Repr()
      ensures Valid() && fresh(Repr() - old(Repr()))
      ensures M.Applied(Model(), ok) == M.ApplyNewView(c, old(Model()), id, m, order)
    {
      order := _ => [];
      ok := AdoptNewView(m, order);
      if !ok || stopped {
        return;
      }
      ghost var a := Model();
      if c.IsPrimary(m.newView, id) {
        order := ProposePending(m.newView);
      }
      ghost var t := Model();
      if id != m.replicaID {
        HandleGenerated(Commit(id, m, 0));
      }
      NewViewSteps(c, old(Model()), a, t, id, m, order);
    }

    /** makeViewMessageProcessor over the view state. */
    method ProcessViewMessage(m: Message) returns (ok: bool, ghost order: M.Order)
      requires Valid() && m.Unwrap().IsProposal() && !stopped
      modifies Repr()
      ensures Valid() && fresh(Repr() - old(Repr()))
      ensures M.Applied(Model(), ok) == M.ProcessViewMessage(c, old(Model()), id, m, order)
    {
      order := _ => [];
      var v := M.MessageView(m);
      if m.NewView? {
        var entered, expected := views.AdvanceCurrentView(v);
        if !entered {
          return true, order;
        }
        ahead := ahead || v > expected;
        assert Model() == M.EnterView(old(Model()), v);
        if v != expected {
          return true, order;
        }
        ok, order := ApplyNewView(m);
        return;
      }
      if v > views.currentView {
        return false, order;
      }
      if v != views.expectedView {
        return true, order;
      }
      if m.Prepare? {
        ok := ApplyPrepare(m);
      } else {
        ok := CollectCommitment(m);
      }
    }

    // ---------- View change ----------

    /** makeViewChangeProcessor over makeNewViewCertProcessor. */
    method ProcessViewChange(vc: ViewChange)
      requires Valid()
      modifies Repr()
      ensures Valid() && Repr() == old(Repr())
      ensures Model() == M.ProcessViewChange(c, old(Model()), id, vc)
    {
      var _, cert := viewChanges.Collect(vc);
      if cert.None? || vc.newView != views.expectedView {
        return;
      }
      messages.Reset([]);
      HandleGenerated(NewView(id, vc.newView, cert.value, 0));
    }

    /** The certified messages of the log. */
    method CertifiedMessages() returns (l: seq<Message>)
      ensures l == M.CertifiedIn(messages.msgs)
    {
      l := [];
      for i := 0 to |messages.msgs|
        invariant l == M.CertifiedIn(messages.msgs[..i])
      {
        assert messages.msgs[..i + 1][..i] == messages.msgs[..i];
        if messages.msgs[i].Certified? {
          l := l + [messages.msgs[i].m];
        }
      }
      assert messages.msgs[..|messages.msgs|] == messages.msgs;
    }

    /** makeViewChangeStarter. */
    method StartViewChange(newView: nat, cert: seq<ReqViewChange>) returns (ok: bool)
      requires Valid()
      modifies Repr()
      ensures Valid() && Repr() == old(Repr()) && ok == (newView > old(views.expectedView))
      ensures Model() == if ok then M.StartViewChange(old(Model()), id, newView, cert) else old(Model())
    {
      ok := views.AdvanceExpectedView(newView);
      if !ok {
        return;
      }
      var l := CertifiedMessages();
      messages.Reset([]);
      book.UnprepareRequests();
      HandleGenerated(ViewChangeMsg(ViewChange(id, newView, l, cert, 0)));
    }

    /** makeReqViewChangeProcessor. */
    method ProcessReqViewChange(m: ReqViewChange)
      requires Valid()
      modifies Repr()
      ensures Valid() && Repr() == old(Repr())
      ensures Model() == M.ProcessReqViewChange(c, old(Model()), id, m)
    {
      if stopped {
        return;
      }
      var _, cert := requests.Collect(m);
      if cert.Some? {
        var _ := StartViewChange(m.newView, cert.value);
      }
    }

    /** makeViewChangeRequestor. */
    method RequestViewChange(newView: nat) returns (ok: bool)
      requires Valid()
      modifies this, messages
      ensures Valid() && Model() == M.RequestViewChange(old(Model()), id, newView)
      ensures ok <==> !stopped && newView > old(requestedView) && newView > views.expectedView
    {
      if stopped || requestedView >= newView {
        return false;
      }
      requestedView := newView;
      if views.expectedView >= newView {
        return false;
      }
      messages.Append(M.Requested(ReqViewChange(id, newView)));
      ok := true;
    }

    // ---------- Certified messages and requests ----------

    /** makeCertifiedMessageProcessor. */
    method ProcessCertified(m: Message) returns (ok: bool, ghost order: M.Order)
      requires Valid() && (m.ViewChangeMsg? || m.Unwrap().IsProposal())
      modifies Repr()
      ensures Valid() && fresh(Repr() - old(Repr()))
      ensures M.Applied(Model(), ok) == M.ProcessCertified(c, old(Model()), id, m, order)
    {
      order := _ => [];
      var next := Get(lastUI, m.Sender()) + 1;
      if stopped {
        return false, order;
      }
      if m.Counter() < next {
        return true, order;
      } else if m.Counter() > next {
        return false, order;
      }
      if m.ViewChangeMsg? {
        ProcessViewChange(m.vc);
        ok := true;
      } else {
        ok, order := ProcessViewMessage(m);
      }
      if ok {
        lastUI := lastUI[m.Sender() := next];
      }
    }

    /** makeRequestProcessor over makeRequestApplier. */
    method ProcessRequest(q: Request)
      requires Valid()
      modifies Repr()
      ensures Valid() && Repr() == old(Repr())
      ensures Model() == M.ProcessRequest(c, old(Model()), id, q)
    {
      if stopped {
        return;
      }
      var isNew := book.CaptureRequest(q);
      if isNew && views.currentView == views.expectedView && c.IsPrimary(views.currentView, id) {
        HandleGenerated(Message.Prepare(id, views.currentView, q, 0));
      }
    }
  }

  /** The state with the request of a Prepare message prepared. */
  /** Parts that are as they were created make up the initial state. */
  lemma Assembled(c: Config, s: M.Replica)
    requires c.Ok() && s.trace == [] && s.log == [] && s.current == s.expected == 0 && s.lastUI == map[]
    requires s.requested == 0 && s.rvcs == NO_REQUESTS && s.vcs == NO_VIEW_CHANGES
    requires s.tally.acc == Acceptor(map[], map[], map[]) && s.tally.cnt == Counter(0, Zeros(c.CommitCertSize() - 1))
    requires s.exec == Exec(NO_CLIENTS, [], false) && s.doneView == 0 && s.doneCV == 0 && !s.ahead
    ensures s == M.Initial(c)
  {
  }

  ghost function Readied(s: M.Replica, m: Message): M.Replica
    requires m.Prepare?
  {
    s.(exec := s.exec.(clients := PrepareReq(s.exec.clients, m.request)))
  }

  lemma PrepareSteps(s: M.Replica, id: nat, m: Message, a: M.Applied)
    requires m.Prepare? && PrepareEffect(s.exec.clients, m.request) == New
    requires M.CollectCommitment(Readied(s, m), m) == a
    ensures M.ApplyPrepare(s, id, m)
         == if !a.ok || a.s.exec.stopped || id == m.replicaID then a
            else M.Applied(M.Emit(a.s, Commit(id, m, 0)), true)
  {
  }

  ghost predicate Adopted(s: M.Replica, m: Message, a: M.Replica)
    requires m.NewView?
  {
    && Extract(m.nvCert).Some? && !a.exec.stopped
    && var p := PrepareAll(s.exec, Extract(m.nvCert).value);
       !p.stopped && M.CollectCommitment(s.(exec := p), m) == M.Applied(a, true)
  }

  lemma NewViewSteps(c: Config, s: M.Replica, a: M.Replica, t: M.Replica, id: nat, m: Message, order: M.Order)
    requires c.Ok() && m.NewView? && Adopted(s, m, a)
    requires t == if c.IsPrimary(m.newView, id)
                  then M.EmitPrepares(a, id, m.newView, order(a.exec.clients.pending)) else a
    ensures M.ApplyNewView(c, s, id, m, order)
         == M.Applied(if id == m.replicaID then t else M.Emit(t, Commit(id, m, 0)), true)
  {
  }
}
