/** The request life-cycle invariant over every run of the system. */
module LifeCycles {
  import opened Messages
  import opened Extraction
  import opened Requests
  import opened Execution
  import opened Replica
  import opened System

  lemma ExecuteLife(x: Exec, q: Request)
    requires LifeCycle(x.clients)
    ensures LifeCycle(Execute(x, q).clients)
  {
    RetireKeeps(x.clients, q);
  }

  lemma {:induction false} ExecuteAllLife(x: Exec, l: seq<Request>)
    requires LifeCycle(x.clients)
    ensures LifeCycle(ExecuteAll(x, l).clients)
  {
    if l != [] {
      ExecuteAllLife(x, l[..|l| - 1]);
      ExecuteLife(ExecuteAll(x, l[..|l| - 1]), l[|l| - 1]);
    }
  }

  lemma {:induction false} PrepareAllLife(x: Exec, l: seq<Request>)
    requires LifeCycle(x.clients)
    ensures LifeCycle(PrepareAll(x, l).clients)
  {
    if l != [] {
      PrepareAllLife(x, l[..|l| - 1]);
      Requests.PrepareKeeps(PrepareAll(x, l[..|l| - 1]).clients, l[|l| - 1]);
    }
  }

  lemma CollectLife(s: Replica, m: Message)
    requires LifeCycle(s.exec.clients) && m.Unwrap().IsProposal()
    ensures LifeCycle(CollectCommitment(s, m).s.exec.clients)
  {
    var p := m.Unwrap();
    if p.Prepare? {
      ExecuteLife(s.exec, p.request);
    } else if Extract(p.nvCert).Some? {
      ExecuteAllLife(s.exec, Extract(p.nvCert).value);
    }
  }

  lemma NewViewLife(c: Config, s: Replica, id: nat, m: Message, order: Order)
    requires c.Ok() && LifeCycle(s.exec.clients) && m.NewView?
    ensures LifeCycle(ApplyNewView(c, s, id, m, order).s.exec.clients)
  {
    var l := Extract(m.nvCert);
    if l.Some? {
      PrepareAllLife(s.exec, l.value);
      var t := s.(exec := PrepareAll(s.exec, l.value));
      CollectLife(t, m);
      var a := CollectCommitment(t, m);
      EmitPreparesFrame(a.s, id, m.newView, order(a.s.exec.clients.pending));
    }
  }

  lemma CertifiedLife(c: Config, s: Replica, id: nat, m: Message, order: Order)
    requires c.Ok() && LifeCycle(s.exec.clients) && (m.ViewChangeMsg? || m.Unwrap().IsProposal())
    ensures LifeCycle(ProcessCertified(c, s, id, m, order).s.exec.clients)
  {
    if m.NewView? {
      NewViewLife(c, EnterView(s, m.newView), id, m, order);
    } else if m.Prepare? {
      Requests.PrepareKeeps(s.exec.clients, m.request);
      CollectLife(s.(exec := s.exec.(clients := PrepareReq(s.exec.clients, m.request))), m);
    } else if m.Commit? {
      CollectLife(s, m);
    }
  }

  /** In every run, at every replica: lastRetired <= lastPrepared <= lastCaptured for every client, and the
      prepared list holds exactly the requests that are prepared but not retired. */
  lemma {:induction false} LifeCycleHolds(c: Config, run: seq<Action>, i: nat)
    requires c.Ok() && i < c.n
    ensures |After(c, run)| == c.n && LifeCycle(After(c, run)[i].exec.clients)
    decreases |run|
  {
    if run != [] {
      var a := run[|run| - 1];
      LifeCycleHolds(c, run[..|run| - 1], i);
      var g := After(c, run[..|run| - 1]);
      var s := g[i];
      if a.at == i {
        match a {
          case ReceiveMessage(_, m, order) =>
            if Usable(g, m) {
              CertifiedLife(c, s, i, m, order);
            }
          case ReceiveOwn(_, m, order) =>
            if Usable(g, m) {
              CertifiedLife(c, s, i, m, order);
            }
          case ReceiveRequest(_, q) => CaptureKeeps(s.exec.clients, q);
          case ReceiveReqViewChange(_, rvc) => UnprepareKeeps(s.exec.clients);
          case Timeout(_, _) =>
        }
      }
    }
  }

  // ---------- Between views ----------

  /** A replica that waits for the view it expects has nothing prepared. */
  ghost predicate CleanWait(s: Replica) {
    s.current < s.expected ==> s.exec.clients.preparedList == map[]
  }

  lemma ViewMessageWait(c: Config, s: Replica, id: nat, m: Message, order: Order)
    requires c.Ok() && CleanWait(s) && m.Unwrap().IsProposal()
    ensures CleanWait(ProcessViewMessage(c, s, id, m, order).s)
  {
    ViewMessageFrame(c, s, id, m, order);
  }

  lemma CertifiedWait(c: Config, s: Replica, id: nat, m: Message, order: Order)
    requires c.Ok() && CleanWait(s) && (m.ViewChangeMsg? || m.Unwrap().IsProposal())
    ensures CleanWait(ProcessCertified(c, s, id, m, order).s)
  {
    if !m.ViewChangeMsg? {
      ViewMessageWait(c, s, id, m, order);
    }
  }

  lemma {:induction false} CleanWaitRun(c: Config, run: seq<Action>, i: nat)
    requires c.Ok() && i < c.n
    ensures |After(c, run)| == c.n && CleanWait(After(c, run)[i])
    decreases |run|
  {
    if run != [] {
      var a := run[|run| - 1];
      CleanWaitRun(c, run[..|run| - 1], i);
      var g := After(c, run[..|run| - 1]);
      if a.at == i && a.Processes() && Usable(g, a.m) {
        CertifiedWait(c, g[i], i, a.m, a.order);
      }
    }
  }

  /** In every run, from the start of a view change until the new view is entered, no client has a request
      that is prepared but not retired: what was prepared is pending again. */
  lemma NothingPreparedBetweenViews(c: Config, run: seq<Action>, i: nat, client: nat)
    requires c.Ok() && i < c.n
    ensures |After(c, run)| == c.n
    ensures var s := After(c, run)[i];
            s.current < s.expected ==>
              && client !in s.exec.clients.preparedList
              && Nums(s.exec.clients, client).prepared == Nums(s.exec.clients, client).retired
  {
    CleanWaitRun(c, run, i);
    LifeCycleHolds(c, run, i);
    assert ClientOk(After(c, run)[i].exec.clients, client);
  }
}
