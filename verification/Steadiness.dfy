/** What a replica has prepared by the time it has to execute it.

    Retiring a request that was not prepared panics (core/request.go:282-297).  A replica that never enters
    a view it does not expect yet (core/message-handling.go:704-720) and that receives its messages through
    the handlers never gets there: whatever of its expected view it has counted as processed is prepared
    when it comes to be executed.  Module Panics says when a replica does stop. */
module Steadiness {
  import opened Messages
  import opened Extraction
  import opened Validation
  import opened Commitments
  import opened Requests
  import opened Execution
  import opened Replica
  import opened Evidence
  import opened Growth
  import opened Invariants
  import opened Emission
  import opened Collecting
  import opened System
  import opened Agreement
  import opened Handling
  import LifeCycles
  import Processing

  // ---------- The invariant ----------

  ghost predicate Counted(ts: Traces, s: Replica, r: nat) {
    r < |ts| ==> Get(s.lastUI, r) <= |ts[r]|
  }

  /** A NewView message that has been processed has been entered. */
  ghost predicate EnteredOk(c: Config, ts: Traces, s: Replica, u: nat)
    requires c.Ok() && |ts| == c.n
  {
    var p := Props(c, ts, u);
    u >= 1 && p != [] && p[0].Counter() <= Get(s.lastUI, c.Primary(u)) ==> s.current >= u
  }

  predicate IsPrepared(s: Clients, q: Request) {
    q.seqNo <= Nums(s, q.clientID).prepared
  }

  /** A Prepare message of the expected view that has been processed has its request prepared. */
  ghost predicate PreparedOk(c: Config, ts: Traces, s: Replica, j: nat)
    requires c.Ok() && |ts| == c.n
  {
    var p := Props(c, ts, s.expected);
    j < |p| && p[j].Prepare? && p[j].Counter() <= Get(s.lastUI, c.Primary(s.expected)) ==>
      IsPrepared(s.exec.clients, p[j].request)
  }

  /** What the NewView message of the view brought along is prepared. */
  ghost predicate ReplayOk(c: Config, ts: Traces, s: Replica)
    requires c.Ok() && |ts| == c.n
  {
    var p := Props(c, ts, s.expected);
    s.current == s.expected && p != [] && p[0].NewView? && Extract(p[0].nvCert).Some? ==>
      AllPrepared(s.exec.clients, Extract(p[0].nvCert).value)
  }

  /** What holds of a replica that has never been ahead. */
  ghost predicate Behind(c: Config, ts: Traces, s: Replica)
    requires c.Ok() && |ts| == c.n
  {
    && s.current <= s.expected
    && (forall u :: EnteredOk(c, ts, s, u))
    && (forall j :: PreparedOk(c, ts, s, j))
    && ReplayOk(c, ts, s)
  }

  ghost predicate Steady(c: Config, ts: Traces, s: Replica)
    requires c.Ok() && |ts| == c.n
  {
    (forall r :: Counted(ts, s, r)) && (!s.ahead && !s.exec.stopped ==> Behind(c, ts, s))
  }

  // ---------- Other replicas certify more ----------

  lemma SameMessage(ts: Traces, r: nat, a: Message, b: Message)
    requires r < |ts| && (forall k :: StampOk(ts, r, k))
    requires a in ts[r] && b in ts[r] && a.Counter() == b.Counter()
    ensures a == b && a.Sender() == r && 1 <= a.Counter() <= |ts[r]| && ts[r][a.Counter() - 1] == a
  {
    var i :| 0 <= i < |ts[r]| && ts[r][i] == a;
    var j :| 0 <= j < |ts[r]| && ts[r][j] == b;
    assert StampOk(ts, r, i) && StampOk(ts, r, j);
  }

  /** A proposal with a counter that was there before was there before. */
  lemma OldProposal(c: Config, ts: Traces, ts': Traces, v: nat, j: nat)
    requires Evident(c, ts) && Evident(c, ts') && Extends(ts, ts') && j < |Props(c, ts', v)|
    requires Props(c, ts', v)[j].Counter() <= |ts[c.Primary(v)]|
    ensures j < |Props(c, ts, v)| && Props(c, ts, v)[j] == Props(c, ts', v)[j]
  {
    var p, m := c.Primary(v), Props(c, ts', v)[j];
    PropsGrow(c, ts, ts', v);
    CommsMember(ts'[p], v, j);
    SameMessage(ts', p, m, m);
    assert ts[p][m.Counter() - 1] == m;
    var k := CommsIndex(ts[p], m, v);
    assert Props(c, ts', v)[k] == m;
    assert ProposalsOk(c, ts', v);
  }

  lemma SteadyGrows(c: Config, ts: Traces, ts': Traces, s: Replica)
    requires Evident(c, ts) && Evident(c, ts') && Extends(ts, ts') && Steady(c, ts, s)
    requires !s.exec.stopped ==> CurrentOk(c, ts, s)
    ensures Steady(c, ts', s)
  {
    forall r: nat
      ensures Counted(ts', s, r)
    {
      assert Counted(ts, s, r);
    }
    if !s.ahead && !s.exec.stopped {
      forall u: nat
        ensures EnteredOk(c, ts', s, u)
      {
        EnteredGrows(c, ts, ts', s, u);
      }
      forall j: nat
        ensures PreparedOk(c, ts', s, j)
      {
        assert Counted(ts, s, c.Primary(s.expected)) && PreparedOk(c, ts, s, j);
        if j < |Props(c, ts', s.expected)|
           && Props(c, ts', s.expected)[j].Counter() <= Get(s.lastUI, c.Primary(s.expected)) {
          OldProposal(c, ts, ts', s.expected, j);
        }
      }
      ReplayGrows(c, ts, ts', s);
    }
  }

  lemma EnteredGrows(c: Config, ts: Traces, ts': Traces, s: Replica, u: nat)
    requires Evident(c, ts) && Evident(c, ts') && Extends(ts, ts')
    requires Counted(ts, s, c.Primary(u)) && EnteredOk(c, ts, s, u)
    ensures EnteredOk(c, ts', s, u)
  {
    var p := Props(c, ts', u);
    if p != [] && p[0].Counter() <= Get(s.lastUI, c.Primary(u)) {
      OldProposal(c, ts, ts', u, 0);
    }
  }

  lemma ReplayGrows(c: Config, ts: Traces, ts': Traces, s: Replica)
    requires Evident(c, ts) && Evident(c, ts') && Extends(ts, ts') && ReplayOk(c, ts, s) && CurrentOk(c, ts, s)
    ensures ReplayOk(c, ts', s)
  {
    PropsGrow(c, ts, ts', s.expected);
    if s.expected == 0 {
      assert ProposalsOk(c, ts', 0);
    }
  }

  // ---------- Steps that prepare no less ----------

  ghost predicate NoLess(s: Clients, t: Clients) {
    forall c :: Nums(s, c).prepared <= Nums(t, c).prepared
  }

  lemma NoLessAll(s: Clients, t: Clients, l: seq<Request>)
    requires NoLess(s, t) && AllPrepared(s, l)
    ensures AllPrepared(t, l)
  {
    forall i | 0 <= i < |l|
      ensures l[i].seqNo <= Nums(t, l[i].clientID).prepared
    {
      assert Nums(s, l[i].clientID).prepared <= Nums(t, l[i].clientID).prepared;
    }
  }

  /** The views and the processed counters stay. */
  ghost predicate SameViews(s: Replica, s': Replica) {
    s'.current == s.current && s'.expected == s.expected && s'.ahead == s.ahead && s'.lastUI == s.lastUI
  }

  lemma SteadyStays(c: Config, ts: Traces, s: Replica, s': Replica)
    requires c.Ok() && |ts| == c.n && Steady(c, ts, s) && SameViews(s, s')
    requires !s.ahead && !s'.exec.stopped ==> !s.exec.stopped && NoLess(s.exec.clients, s'.exec.clients)
    ensures Steady(c, ts, s')
  {
    forall r: nat
      ensures Counted(ts, s', r)
    {
      assert Counted(ts, s, r);
    }
    if !s.ahead && !s'.exec.stopped {
      forall u: nat
        ensures EnteredOk(c, ts, s', u) && PreparedOk(c, ts, s', u)
      {
        assert EnteredOk(c, ts, s, u) && PreparedOk(c, ts, s, u);
        var p := Props(c, ts, s.expected);
        if u < |p| && p[u].Prepare? {
          var k := p[u].request.clientID;
          assert Nums(s.exec.clients, k).prepared <= Nums(s'.exec.clients, k).prepared;
        }
      }
      var p := Props(c, ts, s.expected);
      if s.current == s.expected && p != [] && p[0].NewView? && Extract(p[0].nvCert).Some? {
        NoLessAll(s.exec.clients, s'.exec.clients, Extract(p[0].nvCert).value);
      }
    }
  }

  // ---------- One more message processed ----------

  lemma SteadyCounts(c: Config, ts: Traces, s: Replica, m: Message)
    requires Evident(c, ts) && Steady(c, ts, s) && m.Sender() < c.n && m in ts[m.Sender()]
    requires m.Counter() == Get(s.lastUI, m.Sender()) + 1
    requires !s.ahead && !s.exec.stopped && m.NewView? ==> s.current >= m.newView
    requires !s.ahead && !s.exec.stopped && m.Prepare? && m.view == s.expected ==>
               IsPrepared(s.exec.clients, m.request)
    ensures Steady(c, ts, s.(lastUI := s.lastUI[m.Sender() := m.Counter()]))
  {
    var s' := s.(lastUI := s.lastUI[m.Sender() := m.Counter()]);
    SameMessage(ts, m.Sender(), m, m);
    forall r: nat
      ensures Counted(ts, s', r)
    {
      assert Counted(ts, s, r);
    }
    if !s.ahead && !s.exec.stopped {
      forall u: nat
        ensures EnteredOk(c, ts, s', u) && PreparedOk(c, ts, s', u)
      {
        EnteredCounts(c, ts, s, s', m, u);
        PreparedCounts(c, ts, s, s', m, u);
      }
    }
  }

  lemma EnteredCounts(c: Config, ts: Traces, s: Replica, s': Replica, m: Message, u: nat)
    requires Evident(c, ts) && m.Sender() < c.n && m in ts[m.Sender()]
    requires m.Counter() == Get(s.lastUI, m.Sender()) + 1
    requires s' == s.(lastUI := s.lastUI[m.Sender() := m.Counter()])
    requires EnteredOk(c, ts, s, u) && (m.NewView? ==> s.current >= m.newView)
    ensures EnteredOk(c, ts, s', u)
  {
    var p := Props(c, ts, u);
    if u >= 1 && p != [] && p[0].Counter() == m.Counter() && c.Primary(u) == m.Sender() {
      CommsMember(ts[c.Primary(u)], u, 0);
      SameMessage(ts, m.Sender(), p[0], m);
      assert ProposalsOk(c, ts, u);
    }
  }

  lemma PreparedCounts(c: Config, ts: Traces, s: Replica, s': Replica, m: Message, j: nat)
    requires Evident(c, ts) && m.Sender() < c.n && m in ts[m.Sender()]
    requires m.Counter() == Get(s.lastUI, m.Sender()) + 1
    requires s' == s.(lastUI := s.lastUI[m.Sender() := m.Counter()])
    requires PreparedOk(c, ts, s, j)
    requires m.Prepare? && m.view == s.expected ==> IsPrepared(s.exec.clients, m.request)
    ensures PreparedOk(c, ts, s', j)
  {
    var p := Props(c, ts, s.expected);
    if j < |p| && p[j].Counter() == m.Counter() && c.Primary(s.expected) == m.Sender() {
      CommsMember(ts[c.Primary(s.expected)], s.expected, j);
      SameMessage(ts, m.Sender(), p[j], m);
    }
  }

  // ---------- Starting a view change ----------

  lemma SteadyStarts(c: Config, ts: Traces, s: Replica, s': Replica)
    requires Evident(c, ts) && Steady(c, ts, s)
    requires s'.expected > s.expected && s'.current == s.current && s'.ahead == s.ahead && s'.lastUI == s.lastUI
    requires s'.exec.stopped == s.exec.stopped
    ensures Steady(c, ts, s')
  {
    forall r: nat
      ensures Counted(ts, s', r)
    {
      assert Counted(ts, s, r);
    }
    if !s.ahead && !s.exec.stopped {
      forall u: nat
        ensures EnteredOk(c, ts, s', u) && PreparedOk(c, ts, s', u)
      {
        assert EnteredOk(c, ts, s, u) && EnteredOk(c, ts, s, s'.expected);
        assert ProposalsOk(c, ts, s'.expected);
      }
    }
  }

  lemma ReqViewChangeSteady(c: Config, ts: Traces, s: Replica, i: nat, rvc: ReqViewChange)
    requires Evident(c, ts) && Steady(c, ts, s)
    ensures Steady(c, ts, ProcessReqViewChange(c, s, i, rvc))
  {
    var s' := ProcessReqViewChange(c, s, i, rvc);
    if s'.expected > s.expected {
      SteadyStarts(c, ts, s, s');
    } else {
      SteadyStays(c, ts, s, s');
    }
  }

  lemma RequestSteady(c: Config, ts: Traces, s: Replica, i: nat, q: Request)
    requires c.Ok() && |ts| == c.n && Steady(c, ts, s)
    ensures Steady(c, ts, ProcessRequest(c, s, i, q))
  {
    SteadyStays(c, ts, s, ProcessRequest(c, s, i, q));
  }

  // ---------- Executing what is prepared ----------

  /** The proposal's requests are prepared. */
  ghost predicate ProposalPrepared(s: Clients, p: Message) {
    && (p.Prepare? ==> IsPrepared(s, p.request))
    && (p.NewView? ==> Extract(p.nvCert).Some? && AllPrepared(s, Extract(p.nvCert).value))
  }

  /** Executing a proposal whose requests are prepared does not panic. */
  lemma ExecuteSteady(x: Exec, p: Message)
    requires !x.stopped && p.IsProposal() && ProposalPrepared(x.clients, p)
    ensures var y := ExecuteProposal(x, p); !y.stopped && NoLess(x.clients, y.clients)
  {
    if p.NewView? {
      ExecuteAllSucceeds(x, Extract(p.nvCert).value);
    }
  }

  lemma CollectSteady(s: Replica, m: Message)
    requires !s.exec.stopped && m.Unwrap().IsProposal() && ProposalPrepared(s.exec.clients, m.Unwrap())
    ensures var a := CollectCommitment(s, m).s;
            !a.exec.stopped && NoLess(s.exec.clients, a.exec.clients) && SameViews(s, a)
  {
    ExecuteSteady(s.exec, m.Unwrap());
  }

  lemma NoLessTrans(r: Clients, s: Clients, t: Clients)
    requires NoLess(r, s) && NoLess(s, t)
    ensures NoLess(r, t)
  {
    forall c
      ensures Nums(r, c).prepared <= Nums(t, c).prepared
    {
      assert Nums(r, c).prepared <= Nums(s, c).prepared;
    }
  }

  lemma {:induction false} PrepareAllNoLess(s: Exec, l: seq<Request>)
    ensures NoLess(s.clients, PrepareAll(s, l).clients)
  {
    if l != [] {
      var t := PrepareAll(s, l[..|l| - 1]);
      PrepareAllNoLess(s, l[..|l| - 1]);
      NoLessTrans(s.clients, t.clients, PrepareAll(s, l).clients);
    }
  }

  // ---------- Applying a message of the expected view ----------

  lemma PrepareSteady(s: Replica, i: nat, m: Message)
    requires !s.exec.stopped && m.Prepare? && !PrepareEffect(s.exec.clients, m.request).Panics?
    ensures var a := ApplyPrepare(s, i, m);
            && !a.s.exec.stopped && NoLess(s.exec.clients, a.s.exec.clients) && SameViews(s, a.s)
            && (a.ok ==> IsPrepared(a.s.exec.clients, m.request))
  {
    if PrepareEffect(s.exec.clients, m.request) == New {
      var s1 := s.(exec := s.exec.(clients := PrepareReq(s.exec.clients, m.request)));
      var k := m.request.clientID;
      CollectSteady(s1, m);
      var a := CollectCommitment(s1, m).s;
      NoLessTrans(s.exec.clients, s1.exec.clients, a.exec.clients);
      assert Nums(s1.exec.clients, k).prepared <= Nums(a.exec.clients, k).prepared;
    }
  }

  lemma NewViewSteady(c: Config, s: Replica, i: nat, m: Message, order: Order)
    requires c.Ok() && !s.exec.stopped && m.NewView? && Extract(m.nvCert).Some?
    requires AllCaptured(s.exec.clients, Extract(m.nvCert).value)
    ensures var t := ApplyNewView(c, s, i, m, order).s;
            && !t.exec.stopped && NoLess(s.exec.clients, t.exec.clients) && SameViews(s, t)
            && ProposalPrepared(t.exec.clients, m)
  {
    var l := Extract(m.nvCert).value;
    var p := PrepareAll(s.exec, l);
    PrepareAllSucceeds(s.exec, l);
    PrepareAllNoLess(s.exec, l);
    var s1 := s.(exec := p);
    CollectSteady(s1, m);
    var a := CollectCommitment(s1, m).s;
    NoLessTrans(s.exec.clients, p.clients, a.exec.clients);
    NoLessAll(p.clients, a.exec.clients, l);
    EmitPreparesFrame(a, i, m.newView, order(a.exec.clients.pending));
  }

  // ---------- Processing a handled message ----------

  /** What the handlers have established when message m comes to be processed: its requests are captured,
      and everything embedded in it has been processed. */
  ghost predicate Prepped(s: Replica, m: Message) {
    && (m.Prepare? ==> !PrepareEffect(s.exec.clients, m.request).Panics?)
    && (m.NewView? && Extract(m.nvCert).Some? ==> AllCaptured(s.exec.clients, Extract(m.nvCert).value))
    && PartsCounted(s, m)
  }

  /** A processed proposal of the expected view is prepared. */
  lemma CountedPrepared(c: Config, ts: Traces, s: Replica, j: nat)
    requires Evident(c, ts) && Behind(c, ts, s) && j < |Props(c, ts, s.expected)|
    requires Props(c, ts, s.expected)[j].Counter() <= Get(s.lastUI, c.Primary(s.expected))
    ensures ProposalPrepared(s.exec.clients, Props(c, ts, s.expected)[j])
  {
    var v := s.expected;
    assert ProposalsOk(c, ts, v) && PreparedOk(c, ts, s, j) && EnteredOk(c, ts, s, v);
    if Props(c, ts, v)[j].NewView? {
      ExtractDefined(c, ts, v, Props(c, ts, v)[0].nvCert);
    }
  }

  lemma EnterSteady(c: Config, ts: Traces, s: Replica, t: Replica, v: nat)
    requires c.Ok() && |ts| == c.n && Steady(c, ts, s) && s.current < v && SameViews(EnterView(s, v), t)
    requires !s.ahead && !s.exec.stopped && v <= s.expected ==> NoLess(s.exec.clients, t.exec.clients)
    requires !s.ahead && !s.exec.stopped && v == s.expected ==> ReplayOk(c, ts, t)
    requires s.exec.stopped ==> t.exec.stopped
    ensures Steady(c, ts, t)
  {
    forall r: nat
      ensures Counted(ts, t, r)
    {
      assert Counted(ts, s, r);
    }
    if !t.ahead && !t.exec.stopped {
      forall u: nat
        ensures EnteredOk(c, ts, t, u) && PreparedOk(c, ts, t, u)
      {
        assert EnteredOk(c, ts, s, u) && PreparedOk(c, ts, s, u);
        var p := Props(c, ts, s.expected);
        if u < |p| && p[u].Prepare? {
          var k := p[u].request.clientID;
          assert Nums(s.exec.clients, k).prepared <= Nums(t.exec.clients, k).prepared;
        }
      }
    }
  }

  lemma NewViewMessageSteady(c: Config, ts: Traces, s: Replica, i: nat, m: Message, order: Order)
    requires Evident(c, ts) && Steady(c, ts, s) && !s.exec.stopped && Prepped(s, m)
    requires m.NewView? && m.Sender() < c.n && m in ts[m.Sender()]
    ensures var a := ProcessViewMessage(c, s, i, m, order);
            Steady(c, ts, a.s) && a.s.current >= m.newView && a.s.lastUI == s.lastUI
  {
    var v, a := m.newView, ProcessViewMessage(c, s, i, m, order);
    Processing.LastUIUntouched(c, s, i, m, order);
    if s.current < v {
      var t := EnterView(s, v);
      if v == s.expected {
        var j := Placed(c, ts, m.Sender(), m);
        assert ProposalsOk(c, ts, v);
        ExtractDefined(c, ts, v, m.nvCert);
        NewViewSteady(c, t, i, m, order);
      }
      EnterSteady(c, ts, s, a.s, v);
    }
  }

  lemma CommitmentMessageSteady(c: Config, ts: Traces, s: Replica, i: nat, m: Message, order: Order)
    requires Evident(c, ts) && Steady(c, ts, s) && !s.exec.stopped && Prepped(s, m)
    requires m.Unwrap().IsProposal() && !m.NewView? && m.Sender() < c.n && m in ts[m.Sender()]
    ensures var a := ProcessViewMessage(c, s, i, m, order);
            && Steady(c, ts, a.s) && a.s.lastUI == s.lastUI && a.s.expected == s.expected && a.s.ahead == s.ahead
            && (!s.ahead && a.ok && m.Prepare? && m.view == s.expected ==> IsPrepared(a.s.exec.clients, m.request))
  {
    var v, a := MessageView(m), ProcessViewMessage(c, s, i, m, order);
    if v <= s.current && v == s.expected {
      if m.Prepare? {
        PrepareSteady(s, i, m);
      } else if !s.ahead {
        var j := Placed(c, ts, m.Sender(), m);
        ProposalSender(c, ts, v, j);
        assert IsCounted(s, Embedded(m)[0]);
        CountedPrepared(c, ts, s, j);
        CollectSteady(s, m);
      }
    }
    SteadyStays(c, ts, s, a.s);
  }

  lemma CertifiedSteady(c: Config, ts: Traces, s: Replica, i: nat, m: Message, order: Order)
    requires Evident(c, ts) && Steady(c, ts, s) && Prepped(s, m)
    requires m.Sender() < c.n && m in ts[m.Sender()] && (m.ViewChangeMsg? || m.Unwrap().IsProposal())
    ensures Steady(c, ts, ProcessCertified(c, s, i, m, order).s)
  {
    if !s.exec.stopped && m.Counter() == Get(s.lastUI, m.Sender()) + 1 {
      if m.ViewChangeMsg? {
        var t := ProcessViewChange(c, s, i, m.vc);
        SteadyStays(c, ts, s, t);
        SteadyCounts(c, ts, t, m);
      } else {
        var a := ProcessViewMessage(c, s, i, m, order);
        if m.NewView? {
          NewViewMessageSteady(c, ts, s, i, m, order);
        } else {
          CommitmentMessageSteady(c, ts, s, i, m, order);
        }
        if a.ok {
          SteadyCounts(c, ts, a.s, m);
        }
      }
    }
  }

  // ---------- One action of a run ----------

  ghost predicate SteadyAt(c: Config, g: State, i: nat) {
    c.Ok() && i < c.n == |g| && Steady(c, TracesOf(g), g[i])
  }

  /** The replica about to act, seen with the traces after its action. */
  lemma SeenAfter(c: Config, run: seq<Action>, a: Action)
    requires c.Ok() && |After(c, run)| == c.n && SteadyAt(c, After(c, run), a.at)
    ensures var g' := After(c, run + [a]);
            && |g'| == c.n && g' == After(c, run)[a.at := Local(c, After(c, run), a)]
            && Evident(c, TracesOf(g')) && Steady(c, TracesOf(g'), After(c, run)[a.at])
  {
    var g, g' := After(c, run), After(c, run + [a]);
    OneMore(c, run, a);
    RunInv(c, run);
    RunInv(c, run + [a]);
    assert At(c, g, a.at);
    ActExtends(g, g', a.at);
    SteadyGrows(c, TracesOf(g), TracesOf(g'), g[a.at]);
  }

  lemma ActExtends(g: State, g': State, i: nat)
    requires i < |g| == |g'| && g' == g[i := g'[i]] && g[i].trace <= g'[i].trace
    ensures Extends(TracesOf(g), TracesOf(g'))
  {
  }

  lemma TimeoutSteady(c: Config, ts: Traces, s: Replica, i: nat, newView: nat)
    requires c.Ok() && |ts| == c.n && Steady(c, ts, s)
    ensures Steady(c, ts, RequestViewChange(s, i, newView))
  {
    SteadyStays(c, ts, s, RequestViewChange(s, i, newView));
  }

  /** Any other action than processing a message. */
  lemma OtherSteady(c: Config, run: seq<Action>, a: Action)
    requires c.Ok() && |After(c, run)| == c.n && SteadyAt(c, After(c, run), a.at) && !a.Processes()
    ensures SteadyAt(c, After(c, run + [a]), a.at)
  {
    SeenAfter(c, run, a);
    var s, ts' := After(c, run)[a.at], TracesOf(After(c, run + [a]));
    match a {
      case ReceiveRequest(i, q) => RequestSteady(c, ts', s, i, q);
      case ReceiveReqViewChange(i, rvc) => ReqViewChangeSteady(c, ts', s, i, rvc);
      case Timeout(i, newView) => TimeoutSteady(c, ts', s, i, newView);
    }
  }

  lemma ReceiveSteady(c: Config, run: seq<Action>, a: Action)
    requires c.Ok() && |After(c, run)| == c.n && SteadyAt(c, After(c, run), a.at)
    requires a.Processes() && Usable(After(c, run), a.m)
    requires !After(c, run)[a.at].exec.stopped ==> Prepped(After(c, run)[a.at], a.m)
    ensures SteadyAt(c, After(c, run + [a]), a.at)
  {
    SeenAfter(c, run, a);
    var s, ts' := After(c, run)[a.at], TracesOf(After(c, run + [a]));
    if !s.exec.stopped {
      OneMore(c, run, a);
      CertifiedSteady(c, ts', s, a.at, a.m, a.order);
      HaltSteady(c, ts', ProcessCertified(c, s, a.at, a.m, a.order).s);
    }
  }

  lemma HaltSteady(c: Config, ts: Traces, s: Replica)
    requires c.Ok() && |ts| == c.n && Steady(c, ts, s)
    ensures Steady(c, ts, Halt(s))
  {
    forall r: nat
      ensures Counted(ts, Halt(s), r)
    {
      assert Counted(ts, s, r);
    }
  }

  // ---------- Orderly runs ----------

  /** What the handlers see to before an action: a message is processed once all it embeds has been, requests
      to change the view are valid, and the replica's own messages are taken in order. */
  ghost predicate Allowed(c: Config, g: State, a: Action) {
    a.at < |g| ==>
      var s := g[a.at];
      && (a.Processes() && Usable(g, a.m) && !s.exec.stopped ==> Prepped(s, a.m))
      && (a.ReceiveOwn? && Usable(g, a.m) ==> a.m.Sender() == a.at && a.m.Counter() <= Get(s.lastUI, a.at) + 1)
      && (a.ReceiveReqViewChange? ==> a.rvc.newView >= 1 && a.rvc.replicaID < c.n)
  }

  /** A run in which every action is one the handlers may take, at whatever point they are with others. */
  ghost predicate Orderly(c: Config, run: seq<Action>)
    requires c.Ok()
  {
    forall k :: 0 <= k < |run| ==> Allowed(c, After(c, run[..k]), run[k])
  }

  lemma OrderlyNext(c: Config, run: seq<Action>, a: Action)
    requires c.Ok() && Orderly(c, run) && Allowed(c, After(c, run), a)
    ensures Orderly(c, run + [a])
  {
    forall k | 0 <= k < |run + [a]|
      ensures Allowed(c, After(c, (run + [a])[..k]), (run + [a])[k])
    {
      assert (run + [a])[..k] == run[..k];
      assert run[..|run|] == run;
    }
  }

  lemma OrderlyBefore(c: Config, run: seq<Action>)
    requires c.Ok() && run != [] && Orderly(c, run)
    ensures Orderly(c, run[..|run| - 1]) && Allowed(c, After(c, run[..|run| - 1]), run[|run| - 1])
  {
    forall k | 0 <= k < |run| - 1
      ensures Allowed(c, After(c, run[..|run| - 1][..k]), run[k])
    {
      assert run[..|run| - 1][..k] == run[..k];
      assert Allowed(c, After(c, run[..k]), run[k]);
    }
  }

  lemma StartSteady(c: Config, i: nat)
    requires c.Ok() && i < c.n
    ensures SteadyAt(c, Start(c), i)
  {
    var g := Start(c);
    StartInv(c);
    forall u: nat
      ensures EnteredOk(c, TracesOf(g), g[i], u) && PreparedOk(c, TracesOf(g), g[i], u)
    {
      assert Props(c, TracesOf(g), u) == [];
    }
    assert Props(c, TracesOf(g), 0) == [];
  }

  lemma ActionSteady(c: Config, run: seq<Action>, a: Action)
    requires c.Ok() && |After(c, run)| == c.n && SteadyAt(c, After(c, run), a.at) && Allowed(c, After(c, run), a)
    ensures SteadyAt(c, After(c, run + [a]), a.at)
  {
    if !a.Processes() {
      OtherSteady(c, run, a);
    } else if Usable(After(c, run), a.m) {
      ReceiveSteady(c, run, a);
    } else {
      SeenAfter(c, run, a);
    }
  }

  lemma BystanderSteady(c: Config, run: seq<Action>, a: Action, i: nat)
    requires c.Ok() && |After(c, run)| == c.n && SteadyAt(c, After(c, run), i) && a.at != i
    ensures SteadyAt(c, After(c, run + [a]), i)
  {
    assert (run + [a])[..|run|] == run;
    if a.at < c.n {
      var g, g' := After(c, run), After(c, run + [a]);
      OneMore(c, run, a);
      RunInv(c, run);
      RunInv(c, run + [a]);
      ActExtends(g, g', a.at);
      assert At(c, g, i);
      SteadyGrows(c, TracesOf(g), TracesOf(g'), g[i]);
    }
  }

  /** In every orderly run every replica is steady. */
  lemma {:induction false} SteadyRun(c: Config, run: seq<Action>, i: nat)
    requires c.Ok() && i < c.n && Orderly(c, run)
    ensures |After(c, run)| == c.n && SteadyAt(c, After(c, run), i)
    decreases |run|
  {
    if run == [] {
      StartSteady(c, i);
    } else {
      var before, a := run[..|run| - 1], run[|run| - 1];
      OrderlyBefore(c, run);
      SteadyRun(c, before, i);
      assert before + [a] == run;
      if a.at == i {
        ActionSteady(c, before, a);
      } else {
        BystanderSteady(c, before, a, i);
      }
    }
  }

  // ---------- Being ahead ----------

  /** Processing a NewView message for a view not yet entered leaves the current view ahead of the expected
      one if and only if the expected view is lower at that point. */
  lemma EntersAheadIff(c: Config, s: Replica, i: nat, m: Message, order: Order)
    requires c.Ok() && m.NewView? && s.current < m.newView
    requires !s.exec.stopped && m.Counter() == Get(s.lastUI, m.Sender()) + 1
    ensures var t := ProcessCertified(c, s, i, m, order).s;
            t.current > t.expected <==> s.expected < m.newView
  {
    NewViewFrame(c, EnterView(s, m.newView), i, m, order);
  }

  /** A NewView message for the current view, or an older one, is only noted as processed. */
  lemma OldNewViewIgnored(c: Config, s: Replica, i: nat, m: Message, order: Order)
    requires c.Ok() && m.NewView? && s.current >= m.newView
    requires !s.exec.stopped && m.Counter() == Get(s.lastUI, m.Sender()) + 1
    ensures ProcessCertified(c, s, i, m, order) == Applied(s.(lastUI := s.lastUI[m.Sender() := m.Counter()]), true)
  {
  }

  lemma MessageAhead(c: Config, s: Replica, i: nat, m: Message, order: Order)
    requires c.Ok() && m.Unwrap().IsProposal() && (s.current > s.expected ==> s.ahead)
    ensures var t := ProcessViewMessage(c, s, i, m, order).s; t.ahead <==> s.ahead || t.current > t.expected
  {
    ViewMessageFrame(c, s, i, m, order);
  }

  lemma CertifiedAhead(c: Config, s: Replica, i: nat, m: Message, order: Order)
    requires c.Ok() && (m.ViewChangeMsg? || m.Unwrap().IsProposal()) && (s.current > s.expected ==> s.ahead)
    ensures var t := ProcessCertified(c, s, i, m, order).s; t.ahead <==> s.ahead || t.current > t.expected
  {
    if !m.ViewChangeMsg? {
      MessageAhead(c, s, i, m, order);
    }
  }

  lemma AheadStep(c: Config, g: State, a: Action)
    requires c.Ok() && a.at < |g|
    requires var s := g[a.at]; s.current > s.expected ==> s.ahead
    ensures var s, t := g[a.at], Local(c, g, a); t.ahead <==> s.ahead || t.current > t.expected
  {
    if a.Processes() && Usable(g, a.m) {
      CertifiedAhead(c, g[a.at], a.at, a.m, a.order);
    }
  }

  ghost predicate AheadAfter(c: Config, run: seq<Action>, i: nat, k: nat)
    requires c.Ok()
  {
    var g := After(c, run[..if k <= |run| then k else |run|]);
    i < |g| && g[i].current > g[i].expected
  }

  /** The history field says exactly whether the replica's current view has been greater than its expected
      one in some state of the run. */
  lemma {:induction false} AheadIff(c: Config, run: seq<Action>, i: nat)
    requires c.Ok() && i < c.n
    ensures |After(c, run)| == c.n
    ensures After(c, run)[i].ahead <==> exists k: nat :: k <= |run| && AheadAfter(c, run, i, k)
    decreases |run|
  {
    AfterLength(c, run);
    assert run[..|run|] == run;
    if run == [] {
      forall k: nat | k <= |run|
        ensures !AheadAfter(c, run, i, k)
      {
      }
    } else {
      var before, a := run[..|run| - 1], run[|run| - 1];
      AheadIff(c, before, i);
      assert before[..|before|] == before;
      assert AheadAfter(c, before, i, |before|) ==> After(c, before)[i].ahead;
      if a.at == i {
        AheadStep(c, After(c, before), a);
      }
      assert AheadAfter(c, run, i, |run|) <==> After(c, run)[i].current > After(c, run)[i].expected;
      forall k: nat | k < |run|
        ensures AheadAfter(c, run, i, k) <==> AheadAfter(c, before, i, k)
      {
        assert run[..k] == before[..k];
      }
    }
  }

  // ---------- When processing a message panics ----------

  lemma {:induction false} ExecuteAllStopsIff(x: Exec, l: seq<Request>)
    requires !x.stopped && LifeCycle(x.clients)
    ensures ExecuteAll(x, l).stopped <==> !AllPrepared(x.clients, l)
    decreases |l|
  {
    if l != [] {
      var init, q := l[..|l| - 1], l[|l| - 1];
      ExecuteAllStopsIff(x, init);
      if AllPrepared(x.clients, init) {
        var y := ExecuteAll(x, init);
        ExecuteAllSucceeds(x, init);
        LifeCycles.ExecuteAllLife(x, init);
        assert ClientOk(y.clients, q.clientID);
        assert Nums(y.clients, q.clientID).prepared == Nums(x.clients, q.clientID).prepared;
        assert AllPrepared(x.clients, l) <==> IsPrepared(x.clients, q);
      } else {
        var k :| 0 <= k < |init| && init[k].seqNo > Nums(x.clients, init[k].clientID).prepared;
        assert l[k] == init[k];
      }
    }
  }

  /** Executing a proposal panics if and only if one of its requests is not prepared. */
  lemma ExecuteStopsIff(x: Exec, p: Message)
    requires !x.stopped && LifeCycle(x.clients) && p.IsProposal() && (p.NewView? ==> Extract(p.nvCert).Some?)
    ensures ExecuteProposal(x, p).stopped <==> !ProposalPrepared(x.clients, p)
  {
    if p.Prepare? {
      assert ClientOk(x.clients, p.request.clientID);
    } else {
      ExecuteAllStopsIff(x, Extract(p.nvCert).value);
    }
  }

  /** Message m is a Commit of the expected view that is processed now and completes the quorum for a proposal
      whose requests are not all prepared. */
  ghost predicate Unready(s: Replica, m: Message) {
    && m.Commit? && m.proposal.IsProposal() && MessageView(m) == s.expected <= s.current
    && m.Counter() == Get(s.lastUI, m.Sender()) + 1
    && Done(s.tally, CommitmentOf(m)) && !ProposalPrepared(s.exec.clients, m.proposal)
  }

  lemma CommitStopsIff(c: Config, s: Replica, i: nat, m: Message, order: Order)
    requires c.Ok() && !s.exec.stopped && LifeCycle(s.exec.clients) && m.Commit? && m.proposal.IsProposal()
    requires m.proposal.NewView? ==> Extract(m.proposal.nvCert).Some?
    ensures ProcessCertified(c, s, i, m, order).s.exec.stopped <==> Unready(s, m)
  {
    ExecuteStopsIff(s.exec, m.proposal);
  }

  lemma ProposalNeverStops(c: Config, s: Replica, i: nat, m: Message, order: Order)
    requires c.Ok() && !s.exec.stopped && m.IsProposal() && Prepped(s, m)
    requires m.NewView? ==> Extract(m.nvCert).Some?
    ensures !ProcessCertified(c, s, i, m, order).s.exec.stopped
  {
    if m.NewView? {
      NewViewSteady(c, EnterView(s, m.newView), i, m, order);
    } else {
      PrepareSteady(s, i, m);
    }
  }

  /** Processing a usable message panics if and only if it is a Commit that completes the quorum for a proposal
      whose requests the replica has not all prepared. */
  lemma PanicsIff(c: Config, run: seq<Action>, i: nat, m: Message, order: Order)
    requires c.Ok() && i < c.n && |After(c, run)| == c.n && Usable(After(c, run), m)
    requires !After(c, run)[i].exec.stopped && Prepped(After(c, run)[i], m)
    ensures var s := After(c, run)[i]; ProcessCertified(c, s, i, m, order).s.exec.stopped <==> Unready(s, m)
  {
    var g := After(c, run);
    RunInv(c, run);
    LifeCycles.LifeCycleHolds(c, run, i);
    if !m.ViewChangeMsg? {
      if m.Unwrap().NewView? {
        BegunWith(c, TracesOf(g), m);
      }
      if m.Commit? {
        CommitStopsIff(c, g[i], i, m, order);
      } else {
        ProposalNeverStops(c, g[i], i, m, order);
      }
    }
  }

  /** A replica that was never ahead has prepared what it is to execute. */
  lemma AlwaysReady(c: Config, ts: Traces, s: Replica, m: Message)
    requires Evident(c, ts) && Steady(c, ts, s) && !s.ahead && !s.exec.stopped && Prepped(s, m)
    requires m.Sender() < c.n && m in ts[m.Sender()]
    ensures !Unready(s, m)
  {
    if m.Commit? && m.proposal.IsProposal() && MessageView(m) == s.expected {
      var j := Placed(c, ts, m.Sender(), m);
      ProposalSender(c, ts, s.expected, j);
      assert IsCounted(s, Embedded(m)[0]);
      CountedPrepared(c, ts, s, j);
    }
  }

  // ---------- New-view replay in a run ----------

  lemma {:induction false} ExecuteAllExtends(x: Exec, l: seq<Request>)
    ensures x.delivered <= ExecuteAll(x, l).delivered
  {
    if l != [] {
      ExecuteAllExtends(x, l[..|l| - 1]);
    }
  }

  lemma CollectExtends(s: Replica, m: Message)
    requires m.Unwrap().IsProposal()
    ensures s.exec.delivered <= CollectCommitment(s, m).s.exec.delivered
  {
    var p := m.Unwrap();
    if p.NewView? && Extract(p.nvCert).Some? {
      ExecuteAllExtends(s.exec, Extract(p.nvCert).value);
    }
  }

  lemma NewViewExtends(c: Config, s: Replica, i: nat, m: Message, order: Order)
    requires c.Ok() && m.NewView?
    ensures s.exec.delivered <= ApplyNewView(c, s, i, m, order).s.exec.delivered
  {
    var l := Extract(m.nvCert);
    if l.Some? {
      var s1 := s.(exec := PrepareAll(s.exec, l.value));
      PrepareAllKeeps(s.exec, l.value);
      CollectExtends(s1, m);
      var a := CollectCommitment(s1, m);
      EmitPreparesFrame(a.s, i, m.newView, order(a.s.exec.clients.pending));
    }
  }

  /** Message m is the next one of its sender, commits to the NewView message of the expected view, and with
      it enough replicas have: the NewView message is to be accepted now. */
  ghost predicate Completes(s: Replica, m: Message) {
    && m.Unwrap().NewView? && m.Unwrap().newView == s.expected && s.doneView < s.expected
    && (m.NewView? <==> s.current < s.expected)
    && m.Counter() == Get(s.lastUI, m.Sender()) + 1 && Done(s.tally, CommitmentOf(m))
  }

  lemma CompletedNewView(c: Config, s: Replica, i: nat, m: Message, order: Order)
    requires c.Ok() && m.NewView? && Extract(m.nvCert).Some? && s.doneView < m.newView
    requires Done(s.tally, CommitmentOf(m)) && !PrepareAll(s.exec, Extract(m.nvCert).value).stopped
    ensures var t := ApplyNewView(c, s, i, m, order).s; t.doneView == m.newView && t.doneCV == m.cv
  {
    var a := CollectCommitment(s.(exec := PrepareAll(s.exec, Extract(m.nvCert).value)), m);
    assert a.s.doneView == m.newView && a.s.doneCV == m.cv;
    EmitPreparesFrame(a.s, i, m.newView, order(a.s.exec.clients.pending));
  }

  lemma CompletedForm(c: Config, s: Replica, i: nat, m: Message, order: Order)
    requires c.Ok() && !s.exec.stopped && !s.ahead && s.current <= s.expected && Completes(s, m) && Prepped(s, m)
    requires Extract(m.Unwrap().nvCert).Some?
    ensures var t := ProcessCertified(c, s, i, m, order).s;
            && !t.ahead && t.doneView == s.expected && t.doneCV == m.Unwrap().cv
            && s.exec.delivered <= t.exec.delivered
  {
    if m.NewView? {
      var e := EnterView(s, m.newView);
      PrepareAllSucceeds(s.exec, Extract(m.nvCert).value);
      CompletedNewView(c, e, i, m, order);
      NewViewExtends(c, e, i, m, order);
      NewViewFrame(c, e, i, m, order);
    } else {
      CollectExtends(s, m);
    }
  }

  /** What a genuine NewView message stands for is the history it begins its view with. */
  lemma BegunWith(c: Config, ts: Traces, m: Message)
    requires Evident(c, ts) && m.Sender() < c.n && m in ts[m.Sender()] && m.Unwrap().NewView?
    ensures var nv := m.Unwrap();
            && Props(c, ts, nv.newView) != [] && nv.cv >= 1 && Rank(c, ts, nv.newView, nv.cv) == 1
            && Extract(nv.nvCert) == Some(History(c, ts, nv.newView, 1))
  {
    var nv := m.Unwrap();
    var j := Placed(c, ts, m.Sender(), m);
    AsCommitment(c, ts, nv.newView, m, j);
    HistoryNext(c, ts, nv.newView, 0);
    ExtractDefined(c, ts, nv.newView, nv.nvCert);
  }

  lemma DeliveredIs(c: Config, ts: Traces, t: Replica, v: nat, cv: nat)
    requires Evident(c, ts) && DoneInv(c, ts, t) && !t.exec.stopped && t.doneView == v && t.doneCV == cv >= 1
    requires Props(c, ts, v) != [] && Rank(c, ts, v, cv) == 1
    ensures t.exec.delivered == Dedup(History(c, ts, v, 1))
  {
  }

  lemma KeepsGoing(c: Config, run: seq<Action>, i: nat, m: Message, order: Order)
    requires c.Ok() && Orderly(c, run) && i < c.n && |After(c, run)| == c.n && Usable(After(c, run), m)
    requires var s := After(c, run)[i]; !s.ahead && !s.exec.stopped && Prepped(s, m)
    ensures !ProcessCertified(c, After(c, run)[i], i, m, order).s.exec.stopped
  {
    RunInv(c, run);
    SteadyRun(c, run, i);
    AlwaysReady(c, TracesOf(After(c, run)), After(c, run)[i], m);
    PanicsIff(c, run, i, m, order);
  }

  /** New-view replay, however many steps after the NewView message was applied: when enough replicas have
      committed to it, a replica that was never ahead delivers exactly what is missing of the extracted
      list, without panic. */
  lemma ReplayDelivers(c: Config, run: seq<Action>, i: nat, m: Message, order: Order)
    requires c.Ok() && Orderly(c, run) && i < c.n && |After(c, run)| == c.n && Sent(After(c, run), m)
    requires var s := After(c, run)[i]; !s.ahead && !s.exec.stopped && Prepped(s, m) && Completes(s, m)
    ensures |After(c, run + [ReceiveMessage(i, m, order)])| == c.n
    ensures var s, t := After(c, run)[i], After(c, run + [ReceiveMessage(i, m, order)])[i];
            && Extract(m.Unwrap().nvCert).Some? && !t.exec.stopped
            && s.exec.delivered <= t.exec.delivered == Dedup(Extract(m.Unwrap().nvCert).value)
  {
    var a := ReceiveMessage(i, m, order);
    var g, g' := After(c, run), After(c, run + [a]);
    OneMore(c, run, a);
    RunInv(c, run);
    assert Extract(m.Unwrap().nvCert).Some? by { BegunWith(c, TracesOf(g), m); }
    SentStays(g, g', i, g'[i], m);
    var t := ProcessCertified(c, g[i], i, m, order).s;
    assert t == g'[i];
    assert !t.exec.stopped by { KeepsGoing(c, run, i, m, order); }
    assert g[i].current <= g[i].expected by { SteadyRun(c, run, i); }
    CompletedForm(c, g[i], i, m, order);
    ReplayedIs(c, run + [a], i, m);
  }

  /** A replica whose latest executed proposal is the NewView message has delivered what it stands for. */
  lemma ReplayedIs(c: Config, run: seq<Action>, i: nat, m: Message)
    requires c.Ok() && i < c.n && |After(c, run)| == c.n && Sent(After(c, run), m) && m.Unwrap().NewView?
    requires var t := After(c, run)[i];
             !t.exec.stopped && t.doneView == m.Unwrap().newView && t.doneCV == m.Unwrap().cv
    ensures Extract(m.Unwrap().nvCert).Some?
    ensures After(c, run)[i].exec.delivered == Dedup(Extract(m.Unwrap().nvCert).value)
  {
    var g := After(c, run);
    RunInv(c, run);
    BegunWith(c, TracesOf(g), m);
    assert At(c, g, i);
    DeliveredIs(c, TracesOf(g), g[i], m.Unwrap().newView, m.Unwrap().cv);
  }
}
