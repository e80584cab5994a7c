/** One replica as a state machine: what processing each message does to all of its state
    (core/message-handling.go, core/prepare.go, core/commit.go, core/new-view.go, core/view-change.go,
    core/req-view-change.go, core/request.go, core/timeout.go).

    A function below is one critical section of the source: the processing of one message under the lock
    of its sender and the view lock.  A panic stops the replica where it is. */
module Replica {
  import opened Messages
  import opened Extraction
  import opened Commitments
  import opened Requests
  import opened Execution
  import opened Collectors

  /** An entry of the message log: certified messages and the replica's own view-change requests. */
  datatype LogEntry = Certified(m: Message) | Requested(rvc: ReqViewChange)

  datatype Replica = Replica(
    trace: seq<Message>,      // everything the replica's USIG has certified, in counter order
    log: seq<LogEntry>,       // messagelog.MessageLog
    current: nat,             // viewstate: currentView
    expected: nat,            // viewstate: expectedView
    lastUI: map<nat, nat>,    // certifiedMessageProcessor: last counter processed per sender
    requested: nat,           // viewChangeRequestor: last view requested
    rvcs: RvcCollector,
    vcs: VcCollector,
    tally: Tally,
    exec: Exec,
    doneView: nat,            // history: view and primary counter of the latest executed proposal
    doneCV: nat,
    ahead: bool)              // history: a view was entered that was not expected yet

  function Initial(c: Config): Replica
    requires c.Ok()
  {
    Replica([], [], 0, 0, map[], 0, NO_REQUESTS, NO_VIEW_CHANGES, Fresh(c.CommitCertSize()),
            Exec(NO_CLIENTS, [], false), 0, 0, false)
  }

  /** How Go's map iteration enumerates the pending requests: any way at all. */
  type Order = RequestMap -> seq<Request>

  function CertifiedIn(log: seq<LogEntry>): seq<Message> {
    if log == [] then []
    else
      var rest := CertifiedIn(log[..|log| - 1]);
      if log[|log| - 1].Certified? then rest + [log[|log| - 1].m] else rest
  }

  // ---------- Generated messages ----------

  /** makeGeneratedMessageHandler for a certified message: the next UI is assigned and the message
      appended to the log under one lock. */
  function Emit(s: Replica, m: Message): Replica {
    var stamped := m.WithCounter(|s.trace| + 1);
    s.(trace := s.trace + [stamped], log := s.log + [Certified(stamped)])
  }

  function EmitPrepares(s: Replica, id: nat, view: nat, reqs: seq<Request>): Replica {
    if reqs == [] then s
    else Emit(EmitPrepares(s, id, view, reqs[..|reqs| - 1]), Message.Prepare(id, view, reqs[|reqs| - 1], 0))
  }

  // ---------- Commitments ----------

  /** The result of applying a message: the new state and whether it was applied without error. */
  datatype Applied = Applied(s: Replica, ok: bool)

  function Halt(s: Replica): Replica {
    s.(exec := s.exec.(stopped := true))
  }

  /** handleOwnPeerMessages: a replica that refuses a message of its own panics. */
  function OrHalt(a: Applied): Replica {
    if a.ok then a.s else Halt(a.s)
  }

  /** The commitment a certified message stands for (core/commit.go:110-135). */
  function CommitmentOf(m: Message): Commitment
    requires m.Unwrap().IsProposal()
  {
    var p := m.Unwrap();
    Commitment(m.Sender(), p.NewView?, if p.Prepare? then p.view else p.newView, p.Counter(), m.Counter())
  }

  /** Executing a committed proposal (core/commit.go:148-155, core/new-view.go:132-138). */
  function ExecuteProposal(e: Exec, p: Message): Exec
    requires p.IsProposal()
  {
    if p.Prepare? then Execute(e, p.request)
    else
      var l := Extract(p.nvCert);
      if l.None? then e.(stopped := true) else ExecuteAll(e, l.value)
  }

  /** makeCommitmentCollector. */
  function CollectCommitment(s: Replica, m: Message): Applied
    requires m.Unwrap().IsProposal()
  {
    var e := CommitmentOf(m);
    if !Acceptable(s.tally.acc, e) then Applied(s, false)
    else
      var t := s.(tally := Collect(s.tally, e));
      if Done(s.tally, e) then Applied(RecordDone(t.(exec := ExecuteProposal(s.exec, m.Unwrap())), e), true)
      else Applied(t, true)
  }

  /** History only: the latest proposal executed. */
  function RecordDone(s: Replica, e: Commitment): Replica {
    if e.view > s.doneView then s.(doneView := e.view, doneCV := e.primaryCV)
    else if e.view == s.doneView && e.primaryCV > s.doneCV then s.(doneCV := e.primaryCV)
    else s
  }

  // ---------- Applying messages of the current view ----------

  /** makePrepareApplier. */
  function ApplyPrepare(s: Replica, id: nat, m: Message): Applied
    requires m.Prepare?
  {
    match PrepareEffect(s.exec.clients, m.request)
    case Panics => Applied(Halt(s), false)
    case Repeated => Applied(s, false)
    case New =>
      var a := CollectCommitment(s.(exec := s.exec.(clients := PrepareReq(s.exec.clients, m.request))), m);
      if !a.ok || a.s.exec.stopped || id == m.replicaID then a
      else Applied(Emit(a.s, Commit(id, m, 0)), true)
  }

  /** makeNewViewApplier, with makePendingRequestApplier and makeRequestApplier. */
  function ApplyNewView(c: Config, s: Replica, id: nat, m: Message, order: Order): Applied
    requires c.Ok() && m.NewView?
  {
    var l := Extract(m.nvCert);
    if l.None? then Applied(Halt(s), false)
    else
      var p := PrepareAll(s.exec, l.value);
      if p.stopped then Applied(s.(exec := p), false)
      else
        var a := CollectCommitment(s.(exec := p), m);
        if !a.ok || a.s.exec.stopped then a
        else
          var t := if c.IsPrimary(m.newView, id)
                   then EmitPrepares(a.s, id, m.newView, order(a.s.exec.clients.pending)) else a.s;
          if id == m.replicaID then Applied(t, true) else Applied(Emit(t, Commit(id, m, 0)), true)
  }

  function MessageView(m: Message): nat
    requires m.Unwrap().IsProposal()
  {
    if m.Unwrap().Prepare? then m.Unwrap().view else m.Unwrap().newView
  }

  /** AdvanceCurrentView to a greater view, which the source does not compare with the expected one. */
  function EnterView(s: Replica, v: nat): Replica {
    s.(current := v, ahead := s.ahead || v > s.expected)
  }

  /** makeViewMessageProcessor. */
  function ProcessViewMessage(c: Config, s: Replica, id: nat, m: Message, order: Order): Applied
    requires c.Ok() && m.Unwrap().IsProposal()
  {
    var v := MessageView(m);
    if m.NewView? then
      if s.current >= v then Applied(s, true)
      else
        var t := EnterView(s, v);
        if v != s.expected then Applied(t, true) else ApplyNewView(c, t, id, m, order)
    else if v > s.current then Applied(s, false)
    else if v != s.expected then Applied(s, true)
    else if m.Prepare? then ApplyPrepare(s, id, m)
    else CollectCommitment(s, m)
  }

  // ---------- View change ----------

  /** makeViewChangeProcessor over makeNewViewCertProcessor. */
  function ProcessViewChange(c: Config, s: Replica, id: nat, vc: ViewChange): Replica
    requires c.Ok()
  {
    var cert := VcCert(s.vcs, c, id, vc);
    var t := s.(vcs := VcCollect(s.vcs, c, id, vc));
    if cert.None? || vc.newView != s.expected then t
    else Emit(t.(log := []), NewView(id, vc.newView, cert.value, 0))
  }

  /** makeReqViewChangeProcessor over makeViewChangeStarter. */
  function ProcessReqViewChange(c: Config, s: Replica, id: nat, m: ReqViewChange): Replica
    requires c.Ok()
  {
    var cert := RvcCert(s.rvcs, c.ViewChangeCertSize(), m);
    var t := s.(rvcs := RvcCollect(s.rvcs, c.ViewChangeCertSize(), m));
    if s.exec.stopped then s
    else if cert.None? || s.expected >= m.newView then t
    else StartViewChange(t, id, m.newView, cert.value)
  }

  function StartViewChange(s: Replica, id: nat, newView: nat, cert: seq<ReqViewChange>): Replica {
    Emit(s.(expected := newView, log := [], exec := s.exec.(clients := UnprepareReqs(s.exec.clients))),
         ViewChangeMsg(ViewChange(id, newView, CertifiedIn(s.log), cert, 0)))
  }

  /** makeViewChangeRequestor, on a timeout in view newView-1. */
  function RequestViewChange(s: Replica, id: nat, newView: nat): Replica {
    if s.exec.stopped || s.requested >= newView then s
    else
      var t := s.(requested := newView);
      if s.expected >= newView then t
      else t.(log := t.log + [Requested(ReqViewChange(id, newView))])
  }

  // ---------- Certified messages and requests ----------

  /** makeCertifiedMessageProcessor: once per message, in the order of the sender's counter. */
  function ProcessCertified(c: Config, s: Replica, id: nat, m: Message, order: Order): Applied
    requires c.Ok() && (m.ViewChangeMsg? || m.Unwrap().IsProposal())
  {
    var next := Get(s.lastUI, m.Sender()) + 1;
    if s.exec.stopped then Applied(s, false)
    else if m.Counter() < next then Applied(s, true)
    else if m.Counter() > next then Applied(s, false)
    else
      var a := if m.ViewChangeMsg? then Applied(ProcessViewChange(c, s, id, m.vc), true)
               else ProcessViewMessage(c, s, id, m, order);
      if a.ok then Applied(a.s.(lastUI := a.s.lastUI[m.Sender() := next]), true) else a
  }

  /** makeRequestProcessor over makeRequestApplier: the primary proposes what it captures. */
  function ProcessRequest(c: Config, s: Replica, id: nat, q: Request): Replica
    requires c.Ok()
  {
    if s.exec.stopped || !CaptureIsNew(s.exec.clients, q) then s
    else
      var t := s.(exec := s.exec.(clients := CaptureReq(s.exec.clients, q)));
      if s.current == s.expected && c.IsPrimary(s.current, id)
      then Emit(t, Message.Prepare(id, s.current, q, 0)) else t
  }

  // ---------- What stays ----------

  lemma {:induction false} EmitPreparesFrame(s: Replica, id: nat, view: nat, reqs: seq<Request>)
    ensures var t := EmitPrepares(s, id, view, reqs); t == s.(trace := t.trace, log := t.log)
  {
    if reqs != [] {
      EmitPreparesFrame(s, id, view, reqs[..|reqs| - 1]);
    }
  }

  lemma CollectFrame(s: Replica, m: Message)
    requires m.Unwrap().IsProposal()
    ensures var t := CollectCommitment(s, m).s;
            t == s.(tally := t.tally, exec := t.exec, doneView := t.doneView, doneCV := t.doneCV)
  {
  }

  /** Applying a NewView message changes neither view, nor what has been processed or collected. */
  lemma NewViewFrame(c: Config, s: Replica, id: nat, m: Message, order: Order)
    requires c.Ok() && m.NewView?
    ensures var t := ApplyNewView(c, s, id, m, order).s;
            t == s.(trace := t.trace, log := t.log, tally := t.tally, exec := t.exec,
                    doneView := t.doneView, doneCV := t.doneCV)
  {
    var l := Extract(m.nvCert);
    if l.Some? {
      var s1 := s.(exec := PrepareAll(s.exec, l.value));
      CollectFrame(s1, m);
      var a := CollectCommitment(s1, m);
      EmitPreparesFrame(a.s, id, m.newView, order(a.s.exec.clients.pending));
    }
  }

  lemma PrepareFrame(s: Replica, id: nat, m: Message)
    requires m.Prepare?
    ensures var t := ApplyPrepare(s, id, m).s;
            t == s.(trace := t.trace, log := t.log, tally := t.tally, exec := t.exec,
                    doneView := t.doneView, doneCV := t.doneCV)
  {
    CollectFrame(s.(exec := s.exec.(clients := PrepareReq(s.exec.clients, m.request))), m);
  }

  /** A message of a view changes neither what is expected, nor what has been processed or collected; a NewView
      message for a greater view changes the current view. */
  lemma ViewMessageFrame(c: Config, s: Replica, id: nat, m: Message, order: Order)
    requires c.Ok() && m.Unwrap().IsProposal()
    ensures var t := ProcessViewMessage(c, s, id, m, order).s;
            var e := if m.NewView? && s.current < m.newView then EnterView(s, m.newView) else s;
            t == e.(trace := t.trace, log := t.log, tally := t.tally, exec := t.exec,
                    doneView := t.doneView, doneCV := t.doneCV)
  {
    if m.NewView? {
      NewViewFrame(c, EnterView(s, m.newView), id, m, order);
    } else if m.Prepare? {
      PrepareFrame(s, id, m);
    } else {
      CollectFrame(s, m);
    }
  }
}
