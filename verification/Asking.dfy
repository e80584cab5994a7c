/** What a replica proposes when it receives a request, and which views it asks for when it waits too long
    (core/request.go:160-201, core/timeout.go:69-95). */
module Asking {
  import opened Messages
  import opened Requests
  import opened Execution
  import opened Collectors
  import opened Replica
  import opened System
  import Emission
  import Extraction
  import Progress

  /** In every run, a live replica that receives a request newer than all it has captured from the client proposes it,
      once and at once, if and only if it is in the view it expects and leads it; otherwise it certifies nothing. */
  lemma CaptureProposes(c: Config, run: seq<Action>, i: nat, q: Request)
    requires c.Ok() && i < c.n && |After(c, run)| == c.n && !After(c, run)[i].exec.stopped
    requires q.seqNo > Nums(After(c, run)[i].exec.clients, q.clientID).captured
    ensures |After(c, run + [ReceiveRequest(i, q)])| == c.n
    ensures var s, t := After(c, run)[i], After(c, run + [ReceiveRequest(i, q)])[i];
            && t.exec.clients.pending == s.exec.clients.pending[q.clientID := q]
            && t.trace == (if s.current == s.expected && i == s.current % c.n
                           then s.trace + [Message.Prepare(i, s.current, q, |s.trace| + 1)] else s.trace)
  {
    Progress.AfterNext(c, run, ReceiveRequest(i, q));
    var s := After(c, run)[i];
    assert After(c, run + [ReceiveRequest(i, q)])[i] == ProcessRequest(c, s, i, q);
  }

  /** The view-change requests that the replica has in its log. */
  function Asked(log: seq<LogEntry>): seq<ReqViewChange> {
    if log == [] then []
    else
      var rest, e := Asked(log[..|log| - 1]), log[|log| - 1];
      if e.Requested? then rest + [e.rvc] else rest
  }

  lemma AskedAppend(log: seq<LogEntry>, e: LogEntry)
    ensures Asked(log + [e]) == if e.Requested? then Asked(log) + [e.rvc] else Asked(log)
  {
    assert (log + [e])[..|log|] == log;
  }

  /** In every run, a timeout makes a live replica ask for exactly the given view, in its own name, if it has neither
      asked for that view or a later one nor expects one; otherwise it asks for nothing. */
  lemma TimeoutAsks(c: Config, run: seq<Action>, i: nat, v: nat)
    requires c.Ok() && i < c.n && |After(c, run)| == c.n && !After(c, run)[i].exec.stopped
    ensures |After(c, run + [Timeout(i, v)])| == c.n
    ensures var s, t := After(c, run)[i], After(c, run + [Timeout(i, v)])[i];
            && Asked(t.log) == Asked(s.log) + (if s.requested < v && s.expected < v then [ReqViewChange(i, v)] else [])
            && CertifiedIn(t.log) == CertifiedIn(s.log) && t.trace == s.trace && t.expected == s.expected
            && t.requested == (if s.requested < v then v else s.requested)
  {
    Progress.AfterNext(c, run, Timeout(i, v));
    AskedAppend(After(c, run)[i].log, Requested(ReqViewChange(i, v)));
    Emission.CertifiedAppend(After(c, run)[i].log, Requested(ReqViewChange(i, v)));
  }

  /** The requests are the replica's own, for increasing views. */
  ghost predicate AskedInOrder(s: Replica, i: nat) {
    InOrder(Asked(s.log), i, s.requested)
  }

  ghost predicate InOrder(l: seq<ReqViewChange>, i: nat, requested: nat) {
    && (forall k :: 0 <= k < |l| ==> l[k].replicaID == i && 1 <= l[k].newView <= requested)
    && (forall j, k :: 0 <= j < k < |l| ==> l[j].newView < l[k].newView)
  }

  lemma AskedStays(s: Replica, t: Replica, i: nat)
    requires AskedInOrder(s, i) && t.requested == s.requested && (Asked(t.log) == Asked(s.log) || Asked(t.log) == [])
    ensures AskedInOrder(t, i)
  {
  }

  lemma EmitAsks(s: Replica, m: Message)
    ensures Asked(Emit(s, m).log) == Asked(s.log) && Emit(s, m).requested == s.requested
  {
    AskedAppend(s.log, Certified(m.WithCounter(|s.trace| + 1)));
  }

  lemma {:induction false} EmitPreparesAsks(s: Replica, id: nat, v: nat, reqs: seq<Request>)
    ensures Asked(EmitPrepares(s, id, v, reqs).log) == Asked(s.log)
  {
    if reqs != [] {
      EmitPreparesAsks(s, id, v, reqs[..|reqs| - 1]);
      EmitAsks(EmitPrepares(s, id, v, reqs[..|reqs| - 1]), Message.Prepare(id, v, reqs[|reqs| - 1], 0));
    }
  }

  lemma NewViewAsks(c: Config, s: Replica, id: nat, m: Message, order: Order)
    requires c.Ok() && m.NewView?
    ensures Asked(ApplyNewView(c, s, id, m, order).s.log) == Asked(s.log)
  {
    var l := Extraction.Extract(m.nvCert);
    if l.Some? {
      var s1 := s.(exec := PrepareAll(s.exec, l.value));
      CollectFrame(s1, m);
      var a := CollectCommitment(s1, m);
      var reqs := order(a.s.exec.clients.pending);
      EmitPreparesAsks(a.s, id, m.newView, reqs);
      EmitAsks(EmitPrepares(a.s, id, m.newView, reqs), Commit(id, m, 0));
      EmitAsks(a.s, Commit(id, m, 0));
    }
  }

  lemma MessageAsks(c: Config, s: Replica, id: nat, m: Message, order: Order)
    requires c.Ok() && m.Unwrap().IsProposal()
    ensures Asked(ProcessViewMessage(c, s, id, m, order).s.log) == Asked(s.log)
  {
    if m.NewView? {
      NewViewAsks(c, EnterView(s, m.newView), id, m, order);
    } else {
      CollectFrame(s, m);
      if m.Prepare? {
        var s1 := s.(exec := s.exec.(clients := PrepareReq(s.exec.clients, m.request)));
        CollectFrame(s1, m);
        EmitAsks(CollectCommitment(s1, m).s, Commit(id, m, 0));
      }
    }
  }

  lemma ProcessingAsks(c: Config, s: Replica, id: nat, m: Message, order: Order)
    requires c.Ok() && (m.ViewChangeMsg? || m.Unwrap().IsProposal()) && AskedInOrder(s, id)
    ensures AskedInOrder(ProcessCertified(c, s, id, m, order).s, id)
  {
    var t := ProcessCertified(c, s, id, m, order).s;
    if m.ViewChangeMsg? {
      ViewChangeAsks(c, s, id, m.vc);
    } else {
      MessageAsks(c, s, id, m, order);
      ViewMessageFrame(c, s, id, m, order);
    }
    AskedStays(s, t, id);
  }

  lemma ViewChangeAsks(c: Config, s: Replica, id: nat, vc: ViewChange)
    requires c.Ok()
    ensures var t := ProcessViewChange(c, s, id, vc);
            t.requested == s.requested && (Asked(t.log) == Asked(s.log) || Asked(t.log) == [])
  {
    var cert := VcCert(s.vcs, c, id, vc);
    if cert.Some? {
      EmitAsks(s.(log := []), NewView(id, vc.newView, cert.value, 0));
    }
  }

  lemma OtherAsks(c: Config, g: State, a: Action)
    requires c.Ok() && a.at < |g| && !a.Processes() && AskedInOrder(g[a.at], a.at)
    ensures AskedInOrder(Local(c, g, a), a.at)
  {
    var s, i := g[a.at], a.at;
    match a {
      case ReceiveRequest(_, q) =>
        CaptureAsks(c, s, i, q);
        AskedStays(s, ProcessRequest(c, s, i, q), i);
      case ReceiveReqViewChange(_, rvc) =>
        StartAsks(c, s, i, rvc);
        AskedStays(s, ProcessReqViewChange(c, s, i, rvc), i);
      case Timeout(_, v) => TimeoutInOrder(s, i, v);
    }
  }

  lemma CaptureAsks(c: Config, s: Replica, i: nat, q: Request)
    requires c.Ok()
    ensures var t := ProcessRequest(c, s, i, q); t.requested == s.requested && Asked(t.log) == Asked(s.log)
  {
    EmitAsks(s.(exec := s.exec.(clients := CaptureReq(s.exec.clients, q))), Message.Prepare(i, s.current, q, 0));
  }

  lemma TimeoutInOrder(s: Replica, i: nat, v: nat)
    requires AskedInOrder(s, i)
    ensures AskedInOrder(RequestViewChange(s, i, v), i)
  {
    var t, l := RequestViewChange(s, i, v), Asked(s.log);
    AskedAppend(s.log, Requested(ReqViewChange(i, v)));
    assert Asked(t.log) == l || Asked(t.log) == l + [ReqViewChange(i, v)];
    if Asked(t.log) != l {
      OneMoreAsked(l, i, s.requested, v);
    }
  }

  lemma OneMoreAsked(l: seq<ReqViewChange>, i: nat, requested: nat, v: nat)
    requires InOrder(l, i, requested) && requested < v
    ensures InOrder(l + [ReqViewChange(i, v)], i, v)
  {
  }

  lemma StartAsks(c: Config, s: Replica, i: nat, rvc: ReqViewChange)
    requires c.Ok()
    ensures var t := ProcessReqViewChange(c, s, i, rvc);
            t.requested == s.requested && (Asked(t.log) == Asked(s.log) || Asked(t.log) == [])
  {
    var cert := RvcCert(s.rvcs, c.ViewChangeCertSize(), rvc);
    if cert.Some? {
      var vc := ViewChangeMsg(ViewChange(i, rvc.newView, CertifiedIn(s.log), cert.value, 0));
      AskedAppend([], Certified(vc.WithCounter(|s.trace| + 1)));
    }
  }

  /** In every run, a replica asks in its own name, for each view at most once and in the order of views. */
  lemma {:induction false} AsksInOrder(c: Config, run: seq<Action>, i: nat)
    requires c.Ok() && i < c.n
    ensures |After(c, run)| == c.n && AskedInOrder(After(c, run)[i], i)
    decreases |run|
  {
    if run != [] {
      var a := run[|run| - 1];
      AsksInOrder(c, run[..|run| - 1], i);
      var g := After(c, run[..|run| - 1]);
      if a.at == i {
        if !a.Processes() {
          OtherAsks(c, g, a);
        } else if Usable(g, a.m) {
          ProcessingAsks(c, g[i], i, a.m, a.order);
        }
      }
    }
  }
}
