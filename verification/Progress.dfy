/** The safety results are not about runs in which nothing happens: a request that two of three replicas
    receive is delivered after one exchange of messages (core/prepare.go:59-80, core/commit.go:106-159), and
    a new primary proposes what is pending. */
module Progress {
  import opened Messages
  import opened Commitments
  import opened Requests
  import opened Execution
  import opened Replica
  import opened System
  import Extraction

  const THREE := Config(3, 1)

  function Proposal(q: Request): Message {
    Message.Prepare(0, 0, q, 1)
  }

  function NormalCase(q: Request, order: Order): seq<Action> {
    [ReceiveRequest(0, q), ReceiveRequest(1, q),
     ReceiveMessage(1, Proposal(q), order), ReceiveMessage(1, Commit(1, Proposal(q), 1), order)]
  }

  /** The clients' state once the request is captured, and once it is prepared. */
  function Captured(q: Request): Clients {
    Clients(map[q.clientID := SeqNums(q.seqNo, 0, 0)], map[q.clientID := q], map[])
  }

  lemma AfterNext(c: Config, run: seq<Action>, a: Action)
    requires c.Ok()
    ensures After(c, run + [a]) == Act(c, After(c, run), a)
  {
    assert (run + [a])[..|run|] == run;
  }

  /** A backup in view zero that has captured the request and nothing else. */
  ghost predicate Ready(q: Request, s: Replica) {
    && s.trace == [] && s.lastUI == map[] && s.current == s.expected == 0
    && s.tally == Fresh(2) && s.exec == Exec(Captured(q), [], false)
  }

  lemma FirstTwo(q: Request, order: Order)
    requires q.seqNo > 0
    ensures var g := After(THREE, NormalCase(q, order)[..2]);
            && |g| == 3 && g[0].trace == [Proposal(q)]
            && Ready(q, g[1])
  {
    var run := NormalCase(q, order);
    assert run[..0] == [] && run[..1] == run[..0] + [run[0]] && run[..2] == run[..1] + [run[1]];
    AfterNext(THREE, run[..0], run[0]);
    AfterNext(THREE, run[..1], run[1]);
  }

  /** What the backup has collected once the primary's vote is counted. */
  const ONE_VOTE := Tally(Acceptor(map[], map[0 := 1], map[0 := 1]), Counter(0, [1]))

  lemma FirstVote(q: Request)
    ensures var t, e := Fresh(2), CommitmentOf(Proposal(q));
            Acceptable(t.acc, e) && Collect(t, e) == ONE_VOTE && !Done(t, e)
  {
    assert Zeros(1) == [0];
    assert FirstBelow([0], 1) == 0;
    assert [0][0 := 1] == [1];
  }

  lemma SecondVote(q: Request)
    ensures Done(ONE_VOTE, CommitmentOf(Commit(1, Proposal(q), 1)))
  {
    assert FirstBelow([1], 1) == 1;
  }

  lemma CollectedNotDone(s: Replica, m: Message)
    requires m.Unwrap().IsProposal() && Acceptable(s.tally.acc, CommitmentOf(m)) && !Done(s.tally, CommitmentOf(m))
    ensures CollectCommitment(s, m) == Applied(s.(tally := Collect(s.tally, CommitmentOf(m))), true)
  {
  }

  lemma BackupApplies(s: Replica, id: nat, m: Message, t: Replica)
    requires m.Prepare? && id != m.replicaID && PrepareEffect(s.exec.clients, m.request) == New
    requires var s1 := s.(exec := s.exec.(clients := PrepareReq(s.exec.clients, m.request)));
             CollectCommitment(s1, m) == Applied(t, true) && !t.exec.stopped
    ensures ApplyPrepare(s, id, m) == Applied(Emit(t, Commit(id, m, 0)), true)
  {
  }

  lemma CapturedNew(q: Request)
    requires q.seqNo > 0
    ensures PrepareEffect(Captured(q), q) == New
  {
  }

  lemma PrepareApplied(q: Request, s: Replica, id: nat, m: Message, t: Replica)
    requires q.seqNo > 0 && Ready(q, s) && m == Proposal(q) && id != 0
    requires t == s.(tally := ONE_VOTE, exec := Exec(PrepareReq(Captured(q), q), [], false))
    ensures ApplyPrepare(s, id, m) == Applied(Emit(t, Commit(id, m, 0)), true)
  {
    FirstVote(q);
    CapturedNew(q);
    CollectedNotDone(s.(exec := t.exec), m);
    BackupApplies(s, id, m, t);
  }

  /** A Prepare or Commit message of the view that is next in its sender's order is applied. */
  lemma PrepareInView(c: Config, s: Replica, id: nat, m: Message, order: Order, t: Replica)
    requires c.Ok() && m.Prepare? && m.view == s.current == s.expected && !s.exec.stopped
    requires m.cv == Get(s.lastUI, m.replicaID) + 1 && ApplyPrepare(s, id, m) == Applied(t, true)
    ensures ProcessCertified(c, s, id, m, order).s == t.(lastUI := t.lastUI[m.replicaID := m.cv])
  {
    assert MessageView(m) == s.current;
  }

  lemma CommitInView(c: Config, s: Replica, id: nat, m: Message, order: Order)
    requires c.Ok() && m.Commit? && m.proposal.Prepare? && m.proposal.view == s.current == s.expected
    requires !s.exec.stopped && m.cv == Get(s.lastUI, m.replicaID) + 1 && CollectCommitment(s, m).ok
    ensures ProcessCertified(c, s, id, m, order).s.exec == CollectCommitment(s, m).s.exec
  {
    assert MessageView(m) == s.current;
  }

  lemma CollectedDone(s: Replica, m: Message)
    requires m.Unwrap().Prepare? && Done(s.tally, CommitmentOf(m))
    ensures CollectCommitment(s, m).ok
    ensures CollectCommitment(s, m).s.exec == Execute(s.exec, m.Unwrap().request)
  {
  }

  /** The backup after the Prepare message: one vote counted, the request prepared, a Commit sent. */
  ghost predicate Voted(q: Request, s: Replica) {
    && s.trace == [Commit(1, Proposal(q), 1)] && s.lastUI == map[0 := 1]
    && s.current == s.expected == 0 && s.tally == ONE_VOTE
    && s.exec == Exec(PrepareReq(Captured(q), q), [], false)
  }

  lemma Third(q: Request, s: Replica, order: Order)
    requires q.seqNo > 0 && Ready(q, s)
    ensures Voted(q, ProcessCertified(THREE, s, 1, Proposal(q), order).s)
  {
    var t := s.(tally := ONE_VOTE, exec := Exec(PrepareReq(Captured(q), q), [], false));
    var t' := Emit(t, Commit(1, Proposal(q), 0));
    assert Voted(q, t'.(lastUI := t'.lastUI[0 := 1]));
    PrepareApplied(q, s, 1, Proposal(q), t);
    PrepareInView(THREE, s, 1, Proposal(q), order, t');
  }

  lemma Fourth(q: Request, s: Replica, order: Order)
    requires q.seqNo > 0 && Voted(q, s)
    ensures ProcessCertified(THREE, s, 1, Commit(1, Proposal(q), 1), order).s.exec.delivered == [q]
  {
    var m := Commit(1, Proposal(q), 1);
    SecondVote(q);
    CollectedDone(s, m);
    assert RetireEffect(s.exec.clients, q) == New;
    CommitInView(THREE, s, 1, m, order);
  }

  lemma NormalCaseDelivers(q: Request, order: Order)
    requires q.seqNo > 0
    ensures |After(THREE, NormalCase(q, order))| == 3
    ensures After(THREE, NormalCase(q, order))[1].exec.delivered == [q]
  {
    var run := NormalCase(q, order);
    var g := After(THREE, run[..2]);
    FirstTwo(q, order);
    assert run[..3] == run[..2] + [run[2]] && run == run[..3] + [run[3]];
    AfterNext(THREE, run[..2], run[2]);
    AfterNext(THREE, run[..3], run[3]);
    Third(q, g[1], order);
    Fourth(q, After(THREE, run[..3])[1], order);
  }

  // ---------- Pending requests are proposed in the new view ----------

  /** From position n on, the trace holds the proposals of the listed requests, in order. */
  ghost predicate EndsWith(t: seq<Message>, n: nat, id: nat, v: nat, reqs: seq<Request>) {
    && |t| == n + |reqs|
    && forall k :: n <= k < |t| ==> t[k] == Message.Prepare(id, v, reqs[k - n], k + 1)
  }

  lemma {:induction false} ProposedAfter(s: Replica, id: nat, v: nat, reqs: seq<Request>)
    ensures var t := EmitPrepares(s, id, v, reqs).trace; s.trace <= t && EndsWith(t, |s.trace|, id, v, reqs)
  {
    if reqs != [] {
      ProposedAfter(s, id, v, reqs[..|reqs| - 1]);
    }
  }

  /** A replica has proposed requests, and committed to proposals, only in views it has entered. */
  ghost predicate ActedIn(s: Replica) {
    forall k :: 0 <= k < |s.trace| && (s.trace[k].Prepare? || s.trace[k].Commit?) ==> View(s.trace[k]) <= s.current
  }

  lemma {:induction false} EmitPreparesIn(s: Replica, id: nat, v: nat, reqs: seq<Request>)
    requires ActedIn(s) && v <= s.current
    ensures ActedIn(EmitPrepares(s, id, v, reqs))
  {
    if reqs != [] {
      EmitPreparesIn(s, id, v, reqs[..|reqs| - 1]);
      EmitPreparesFrame(s, id, v, reqs[..|reqs| - 1]);
    }
  }

  lemma NewViewIn(c: Config, s: Replica, id: nat, m: Message, order: Order)
    requires c.Ok() && m.NewView? && ActedIn(s) && m.newView <= s.current
    ensures ActedIn(ApplyNewView(c, s, id, m, order).s)
  {
    var l := Extraction.Extract(m.nvCert);
    if l.Some? {
      var s1 := s.(exec := PrepareAll(s.exec, l.value));
      CollectFrame(s1, m);
      var a := CollectCommitment(s1, m);
      EmitPreparesIn(a.s, id, m.newView, order(a.s.exec.clients.pending));
      EmitPreparesFrame(a.s, id, m.newView, order(a.s.exec.clients.pending));
    }
  }

  lemma MessageIn(c: Config, s: Replica, id: nat, m: Message, order: Order)
    requires c.Ok() && m.Unwrap().IsProposal() && ActedIn(s)
    ensures ActedIn(ProcessViewMessage(c, s, id, m, order).s)
  {
    if m.NewView? {
      if s.current < m.newView {
        NewViewIn(c, EnterView(s, m.newView), id, m, order);
      }
    } else {
      CollectFrame(s, m);
      if m.Prepare? {
        var s1 := s.(exec := s.exec.(clients := PrepareReq(s.exec.clients, m.request)));
        CollectFrame(s1, m);
      }
    }
  }

  lemma ActionIn(c: Config, g: State, a: Action)
    requires c.Ok() && a.at < |g| && ActedIn(g[a.at])
    ensures ActedIn(Local(c, g, a))
  {
    if a.Processes() && Usable(g, a.m) && !a.m.ViewChangeMsg? {
      MessageIn(c, g[a.at], a.at, a.m, a.order);
    }
  }

  lemma {:induction false} ActedInRun(c: Config, run: seq<Action>, i: nat)
    requires c.Ok() && i < c.n
    ensures |After(c, run)| == c.n && ActedIn(After(c, run)[i])
    decreases |run|
  {
    if run != [] {
      var a := run[|run| - 1];
      ActedInRun(c, run[..|run| - 1], i);
      var g := After(c, run[..|run| - 1]);
      if a.at == i {
        ActionIn(c, g, a);
      }
    }
  }

  /** What a primary's trace is after it has applied its NewView message. */
  lemma NewViewTrace(c: Config, s: Replica, id: nat, m: Message, order: Order)
    requires c.Ok() && m.NewView? && m.replicaID == id && c.IsPrimary(m.newView, id)
    requires ApplyNewView(c, s, id, m, order).ok && !ApplyNewView(c, s, id, m, order).s.exec.stopped
    ensures var t := ApplyNewView(c, s, id, m, order).s;
            s.trace <= t.trace && EndsWith(t.trace, |s.trace|, id, m.newView, order(t.exec.clients.pending))
  {
    var l := Extraction.Extract(m.nvCert);
    var s1 := s.(exec := PrepareAll(s.exec, l.value));
    var a := CollectCommitment(s1, m);
    var reqs := order(a.s.exec.clients.pending);
    CollectFrame(s1, m);
    EmitPreparesFrame(a.s, id, m.newView, reqs);
    ProposedAfter(a.s, id, m.newView, reqs);
  }

  /** Position k of the trace proposes the request in view v. */
  predicate Proposes(t: seq<Message>, k: nat, v: nat, q: Request) {
    k < |t| && t[k].Prepare? && t[k].view == v && t[k].request == q
  }

  /** Exactly one position does. */
  ghost predicate ProposedOnce(t: seq<Message>, v: nat, q: Request) {
    && (exists k: nat :: Proposes(t, k, v, q))
    && (forall j: nat, k: nat :: Proposes(t, j, v, q) && Proposes(t, k, v, q) ==> j == k)
  }

  lemma ListedOnce(t: seq<Message>, n: nat, id: nat, v: nat, pending: RequestMap, reqs: seq<Request>, client: nat)
    requires Lists(pending, reqs) && client in pending && EndsWith(t, n, id, v, reqs)
    requires forall k :: 0 <= k < n && t[k].Prepare? ==> t[k].view < v
    ensures ProposedOnce(t, v, pending[client])
  {
    var x :| 0 <= x < |reqs| && reqs[x] == pending[client];
    assert Proposes(t, n + x, v, pending[client]);
    forall j: nat | Proposes(t, j, v, pending[client])
      ensures j == n + x
    {
      assert t[j].request == reqs[j - n];
    }
  }

  lemma PrimaryProposed(c: Config, s: Replica, i: nat, m: Message, order: Order, t: Replica, client: nat)
    requires c.Ok() && m.NewView? && m.replicaID == i && c.IsPrimary(m.newView, i)
    requires ActedIn(s) && s.current < m.newView
    requires ApplyNewView(c, EnterView(s, m.newView), i, m, order) == Applied(t, true) && !t.exec.stopped
    requires client in t.exec.clients.pending && Lists(t.exec.clients.pending, order(t.exec.clients.pending))
    ensures ProposedOnce(t.trace, m.newView, t.exec.clients.pending[client])
  {
    NewViewTrace(c, EnterView(s, m.newView), i, m, order);
    ListedOnce(t.trace, |s.trace|, i, m.newView, t.exec.clients.pending, order(t.exec.clients.pending), client);
  }

  /** In every run, the primary that applies its own NewView message for the view it expects has proposed, in
      that view, the pending request of every client exactly once, however the list enumerates them. */
  lemma PendingProposed(c: Config, run: seq<Action>, i: nat, m: Message, order: Order, t: Replica, client: nat)
    requires c.Ok() && i < c.n && |After(c, run)| == c.n
    requires m.NewView? && m.replicaID == i && c.IsPrimary(m.newView, i)
    requires var s := After(c, run)[i];
             && s.current < m.newView == s.expected
             && ApplyNewView(c, EnterView(s, m.newView), i, m, order) == Applied(t, true) && !t.exec.stopped
    requires client in t.exec.clients.pending && Lists(t.exec.clients.pending, order(t.exec.clients.pending))
    ensures ProposedOnce(t.trace, m.newView, t.exec.clients.pending[client])
  {
    ActedInRun(c, run, i);
    PrimaryProposed(c, After(c, run)[i], i, m, order, t, client);
  }
}
