/** A run in which a replica refuses a message of its own, among three replicas of which one may be faulty.

    Replica 0 has prepared request q1 and captured q2 of the same client when view 1 begins, so that q1 is pending
    again in the place of q2.  Replica 1 leads view 1, knows q2 only and proposes it; replica 0 prepares and
    executes q2, while q1 stays pending.  When replica 0 leads view 3 it proposes q1, which is below the last
    request it has prepared, and panics on its own Prepare message. */
module StaleRun {
  import opened Messages
  import opened Extraction
  import opened Validation
  import opened Commitments
  import opened Requests
  import opened Execution
  import opened Collectors
  import opened Replica
  import opened System
  import opened Handling
  import opened Agreement
  import opened Inputs
  import opened OwnMessages
  import Emission

  ghost predicate Three(c: Config) {
    c == Config(3, 1)
  }

  // ---------- Single actions ----------

  /** State g is reached by the handled run. */
  ghost predicate Reaches(c: Config, inputs: seq<Input>, g: State) {
    c.Ok() && |g| == c.n && AfterInputs(c, inputs) == g
  }

  lemma Does(c: Config, inputs: seq<Input>, g: State, a: Input) returns (inputs': seq<Input>, g': State)
    requires Reaches(c, inputs, g) && a.at < c.n
    ensures Reaches(c, inputs', g') && g' == g[a.at := Take(c, g, a)] && inputs' == inputs + [a]
  {
    inputs', g' := inputs + [a], g[a.at := Take(c, g, a)];
    assert inputs'[..|inputs|] == inputs;
  }

  /** Everything embedded in the message has been taken before: handling it again changes nothing. */
  ghost predicate Settled(c: Config, s: Replica, m: Message)
    decreases Size(m)
  {
    && (m.Prepare? ==> !CaptureIsNew(s.exec.clients, m.request))
    && (m.ViewChangeMsg? ==> forall k :: 0 <= k < |m.vc.vcCert| ==> OldRequest(c, s, m.vc.vcCert[k]))
    && forall k :: 0 <= k < |Embedded(m)| ==>
         (EmbeddedSmaller(m, k); IsCounted(s, Embedded(m)[k]) && Settled(c, s, Embedded(m)[k]))
  }

  predicate OldRequest(c: Config, s: Replica, m: ReqViewChange) {
    1 <= m.newView <= s.expected && m.replicaID < c.n
  }

  lemma {:induction false} RequestsSettled(c: Config, s: Replica, i: nat, cert: seq<ReqViewChange>)
    requires c.Ok() && s.rvcs.view == s.expected
    requires forall k :: 0 <= k < |cert| ==> OldRequest(c, s, cert[k])
    ensures HandleRequests(c, s, i, cert) == Handled(s, true)
    decreases |cert|
  {
    if cert != [] {
      RequestsSettled(c, s, i, cert[..|cert| - 1]);
      assert OldRequest(c, s, cert[|cert| - 1]);
    }
  }

  lemma {:induction false} EmbeddedSettled(c: Config, s: Replica, i: nat, m: Message, order: Order)
    requires c.Ok() && !s.exec.stopped && s.rvcs.view == s.expected && Settled(c, s, m) && DeepValid(c, m)
    ensures HandleEmbedded(c, s, i, m, order) == Handled(s, true)
    decreases Size(m), |Embedded(m)| + 1
  {
    if !m.Prepare? {
      if m.ViewChangeMsg? {
        RequestsSettled(c, s, i, m.vc.vcCert);
      }
      FirstSettled(c, s, i, m, |Embedded(m)|, order);
    }
  }

  lemma {:induction false} FirstSettled(c: Config, s: Replica, i: nat, m: Message, k: nat, order: Order)
    requires c.Ok() && !s.exec.stopped && s.rvcs.view == s.expected && Settled(c, s, m) && DeepValid(c, m)
    requires k <= |Embedded(m)|
    ensures HandleFirst(c, s, i, m, k, order) == Handled(s, true)
    decreases Size(m), k
  {
    if k > 0 {
      FirstSettled(c, s, i, m, k - 1, order);
      PartSettled(c, s, i, m, k - 1, order);
    }
  }

  lemma {:induction false} PartSettled(c: Config, s: Replica, i: nat, m: Message, k: nat, order: Order)
    requires c.Ok() && !s.exec.stopped && s.rvcs.view == s.expected && Settled(c, s, m) && DeepValid(c, m)
    requires k < |Embedded(m)|
    ensures Handle(c, s, i, Embedded(m)[k], order) == Handled(s, true)
    decreases Size(m), k
  {
    var x := Embedded(m)[k];
    EmbeddedSmaller(m, k);
    assert IsCounted(s, x) && Settled(c, s, x) && DeepValid(c, x);
    EmbeddedSettled(c, s, i, x, order);
  }

  lemma SettledHandled(c: Config, inputs: seq<Input>, g: State, i: nat, m: Message, order: Order)
    requires Reaches(c, inputs, g) && i < c.n && Usable(g, m) && Settled(c, g[i], m)
    requires !g[i].exec.stopped && g[i].rvcs.view == g[i].expected
    ensures HandleEmbedded(c, g[i], i, m, order) == Handled(g[i], true) && Validate(c, m) == Accept
  {
    var run := InputsOrderly(c, inputs);
    ProducerMeetsValidator(c, run, m);
    EmbeddedSettled(c, g[i], i, m, order);
  }

  /** Replica i handles a message of another, or of its own, with all it embeds taken before. */
  lemma Hears(c: Config, inputs: seq<Input>, g: State, i: nat, m: Message, order: Order)
    returns (inputs': seq<Input>, g': State)
    requires Reaches(c, inputs, g) && i < c.n && Usable(g, m) && Settled(c, g[i], m)
    requires !g[i].exec.stopped && g[i].rvcs.view == g[i].expected
    ensures Reaches(c, inputs', g') && g' == g[i := ProcessCertified(c, g[i], i, m, order).s]
  {
    SettledHandled(c, inputs, g, i, m, order);
    inputs', g' := Does(c, inputs, g, MessageIn(i, m, order));
  }

  lemma TakesOwn(c: Config, inputs: seq<Input>, g: State, i: nat, m: Message, order: Order)
    returns (inputs': seq<Input>, g': State)
    requires Reaches(c, inputs, g) && i < c.n && Usable(g, m) && Settled(c, g[i], m)
    requires !g[i].exec.stopped && g[i].rvcs.view == g[i].expected
    requires m.Sender() == i && m.Counter() <= Get(g[i].lastUI, i) + 1 && ProcessCertified(c, g[i], i, m, order).ok
    ensures Reaches(c, inputs', g') && g' == g[i := ProcessCertified(c, g[i], i, m, order).s]
  {
    SettledHandled(c, inputs, g, i, m, order);
    assert FromLog(g, i, m);
    inputs', g' := Does(c, inputs, g, OwnIn(i, m, order));
  }

  lemma TakesRequest(c: Config, inputs: seq<Input>, g: State, i: nat, q: Request)
    returns (inputs': seq<Input>, g': State)
    requires Reaches(c, inputs, g) && i < c.n
    ensures Reaches(c, inputs', g') && g' == g[i := ProcessRequest(c, g[i], i, q)]
  {
    inputs', g' := Does(c, inputs, g, RequestIn(i, q));
  }

  lemma TakesVote(c: Config, inputs: seq<Input>, g: State, i: nat, m: ReqViewChange)
    returns (inputs': seq<Input>, g': State)
    requires Reaches(c, inputs, g) && i < c.n && m.newView >= 1 && m.replicaID < c.n
    ensures Reaches(c, inputs', g') && g' == g[i := ProcessReqViewChange(c, g[i], i, m)]
  {
    assert [m][..0] == [];
    assert HandleRequests(c, g[i], i, [m]).s == ProcessReqViewChange(c, g[i], i, m);
    inputs', g' := Does(c, inputs, g, ReqViewChangeIn(i, m));
  }

  // ---------- Leaving a view ----------

  function Votes(v: nat): seq<ReqViewChange> {
    [ReqViewChange(1, v), ReqViewChange(2, v)]
  }

  /** A live replica without a request to change the view beyond the expected one. */
  predicate Calm(s: Replica) {
    !s.exec.stopped && s.rvcs == RvcCollector(s.expected, [], {})
  }

  /** The replica after it has left its expected view. */
  function Left(s: Replica, i: nat): Replica {
    StartViewChange(s.(rvcs := RvcCollector(s.expected + 1, [], {})), i, s.expected + 1, Votes(s.expected + 1))
  }

  lemma Requested(c: Config, s: Replica, i: nat)
    requires Three(c) && Calm(s)
    ensures var v := s.expected + 1;
            var t := ProcessReqViewChange(c, s, i, ReqViewChange(1, v));
            && t == s.(rvcs := RvcCollector(s.expected, [ReqViewChange(1, v)], {1}))
            && ProcessReqViewChange(c, t, i, ReqViewChange(2, v)) == Left(s, i)
  {
    var v := s.expected + 1;
    assert [] + [ReqViewChange(1, v)] == [ReqViewChange(1, v)];
    assert [ReqViewChange(1, v)] + [ReqViewChange(2, v)] == Votes(v);
    assert {} + {1} == {1};
  }

  lemma Leaves(c: Config, inputs: seq<Input>, g: State, i: nat) returns (inputs': seq<Input>, g': State)
    requires Three(c) && i < c.n && Reaches(c, inputs, g) && Calm(g[i])
    ensures Reaches(c, inputs', g') && g' == g[i := Left(g[i], i)]
  {
    var v := g[i].expected + 1;
    Requested(c, g[i], i);
    inputs', g' := TakesVote(c, inputs, g, i, ReqViewChange(1, v));
    inputs', g' := TakesVote(c, inputs', g', i, ReqViewChange(2, v));
  }

  /** What a replica certifies when it leaves its expected view. */
  function Leaving(i: nat, v: nat, log: seq<Message>, cv: nat): Message {
    ViewChangeMsg(ViewChange(i, v, log, Votes(v), cv))
  }

  lemma OneLogged(m: Message)
    ensures CertifiedIn([Certified(m)]) == [m]
  {
    var log := [Certified(m)];
    assert log[..|log| - 1] == [];
  }

  /** The state of a replica after it has certified message m as the first of a log. */
  ghost predicate Restarted(s: Replica, t: Replica, m: Message) {
    t.trace == s.trace + [m] && CertifiedIn(t.log) == [m]
  }

  lemma LeftForm(s: Replica, i: nat)
    requires Calm(s)
    ensures var t := Left(s, i);
            && Restarted(s, t, Leaving(i, s.expected + 1, CertifiedIn(s.log), |s.trace| + 1)) && Calm(t)
            && t == s.(trace := t.trace, log := t.log, expected := s.expected + 1, rvcs := t.rvcs,
                       exec := s.exec.(clients := UnprepareReqs(s.exec.clients)))
  {
    var t, m := Left(s, i), Leaving(i, s.expected + 1, CertifiedIn(s.log), |s.trace| + 1);
    OneLogged(m);
    assert [] + [Certified(m)] == [Certified(m)];
    assert t.log == [Certified(m)];
  }

  // ---------- Replica 2 ----------

  function M21(): Message { Leaving(2, 1, [], 1) }
  function M22(): Message { Leaving(2, 2, [M21()], 2) }
  function M23(): Message { Leaving(2, 3, [M22()], 3) }

  lemma SecondForm(s: Replica, t: seq<Message>, v: nat)
    requires Calm(s) && s.trace == t && s.expected == v && |t| == v
    requires CertifiedIn(s.log) == if v == 0 then [] else [t[v - 1]]
    ensures var s' := Left(s, 2);
            var m := Leaving(2, v + 1, if v == 0 then [] else [t[v - 1]], v + 1);
            Calm(s') && s'.trace == t + [m] && s'.expected == v + 1 && CertifiedIn(s'.log) == [m]
  {
    LeftForm(s, 2);
  }

  /** Replica 2 leaves three views having seen nothing. */
  lemma SecondLeaves(c: Config) returns (inputs: seq<Input>, g: State)
    requires Three(c)
    ensures Reaches(c, inputs, g) && g[0] == g[1] == Initial(c) && g[2].trace == [M21(), M22(), M23()]
  {
    var s := Initial(c);
    assert Calm(s) && CertifiedIn(s.log) == [];
    SecondForm(s, [], 0);
    SecondForm(Left(s, 2), [M21()], 1);
    SecondForm(Left(Left(s, 2), 2), [M21(), M22()], 2);
    inputs, g := Leaves(c, [], Start(c), 2);
    inputs, g := Leaves(c, inputs, g, 2);
    inputs, g := Leaves(c, inputs, g, 2);
  }

  // ---------- Replica 1 ----------

  function M11(): Message { Leaving(1, 1, [], 1) }
  function Nv1(): Message { NewView(1, 1, [M11().vc, M21().vc], 2) }
  function P12(q: Request): Message { Message.Prepare(1, 1, q, 3) }

  lemma SettledLeaving(c: Config, s: Replica, i: nat, v: nat, log: seq<Message>, cv: nat)
    requires Three(c) && 1 <= v <= s.expected
    requires forall k :: 0 <= k < |log| ==> IsCounted(s, log[k]) && Settled(c, s, log[k])
    ensures Settled(c, s, Leaving(i, v, log, cv))
  {
  }

  lemma SettledNv(c: Config, s: Replica, m: Message, a: Message, b: Message)
    requires m.NewView? && Embedded(m) == [a, b]
    requires IsCounted(s, a) && Settled(c, s, a) && IsCounted(s, b) && Settled(c, s, b)
    ensures Settled(c, s, m)
  {
  }

  lemma SettledCommit(c: Config, s: Replica, m: Message)
    requires m.Commit? && IsCounted(s, m.proposal) && Settled(c, s, m.proposal)
    ensures Settled(c, s, m)
  {
    assert Embedded(m) == [m.proposal];
  }

  /** The ViewChange messages for view 1, and its NewView message. */
  lemma SettledOne(c: Config, s: Replica)
    requires Three(c) && s.expected >= 1
    ensures Settled(c, s, M11()) && Settled(c, s, M21())
    ensures Get(s.lastUI, 1) >= 1 && Get(s.lastUI, 2) >= 1 ==> Settled(c, s, Nv1())
  {
    SettledLeaving(c, s, 1, 1, [], 1);
    SettledLeaving(c, s, 2, 1, [], 1);
    if Get(s.lastUI, 1) >= 1 && Get(s.lastUI, 2) >= 1 {
      SettledNv(c, s, Nv1(), M11(), M21());
    }
  }

  /** The later ViewChange messages of replica 2. */
  lemma SettledSecond(c: Config, s: Replica)
    requires Three(c) && s.expected >= 3 && Get(s.lastUI, 2) >= 1
    ensures Settled(c, s, M22()) && (Get(s.lastUI, 2) >= 2 ==> Settled(c, s, M23()))
  {
    SettledOne(c, s);
    SettledLeaving(c, s, 2, 2, [M21()], 2);
    if Get(s.lastUI, 2) >= 2 {
      SettledLeaving(c, s, 2, 3, [M22()], 3);
    }
  }

  lemma NothingEvidenced()
    ensures Extract(Nv1().nvCert) == Some([])
  {
    var cert := Nv1().nvCert;
    assert cert[..1] == [M11().vc] && cert[..1][..0] == [];
    assert MaxLog(cert) == [] && Leading(cert) == [];
  }

  /** The counter with one number, for commitments of its view and of a newer one. */
  lemma CollectOne(t: Tally, e: Commitment, h: nat)
    requires t.cnt.highest == [h] && Acceptable(t.acc, e) && e.primaryCV >= 1 && e.view >= t.cnt.lastView
    ensures var x := if e.view == t.cnt.lastView then h else 0;
            && (Done(t, e) <==> x >= e.primaryCV)
            && Collect(t, e) == Tally(Commitments.Accept(t.acc, e),
                                      Counter(e.view, [if x >= e.primaryCV then x else e.primaryCV]))
  {
    var x := if e.view == t.cnt.lastView then h else 0;
    assert Enter(t.cnt, e.view).highest == [x] by { assert Zeros(1) == [0]; }
    assert FirstBelow([x], e.primaryCV) == if x < e.primaryCV then 0 else 1 + FirstBelow([x][1..], e.primaryCV);
    assert [x][0 := e.primaryCV] == [e.primaryCV];
  }

  /** Replica 1 once it has left view 0. */
  ghost predicate First1(c: Config, s: Replica)
    requires c.Ok()
  {
    && s.trace == [M11()] && s.expected == 1 && s.current == 0 && Calm(s)
    && s.vcs == NO_VIEW_CHANGES && s.lastUI == map[] && s.tally == Fresh(2)
    && s.exec.clients == NO_CLIENTS
  }

  lemma OwnCollected(c: Config, s: Replica, order: Order)
    requires Three(c) && First1(c, s)
    ensures ProcessCertified(c, s, 1, M11(), order)
            == Applied(Ticked(s.(vcs := VcCollector(1, Some(M11().vc), [])), M11()), true)
  {
  }

  lemma SecondCollected(c: Config, s: Replica, order: Order)
    requires Three(c) && !s.exec.stopped && s.vcs == VcCollector(1, Some(M11().vc), []) && s.expected == 1
    requires |s.trace| == 1 && Get(s.lastUI, 2) == 0
    ensures var t := ProcessCertified(c, s, 1, M21(), order).s;
            && t.trace == s.trace + [Nv1()]
            && t == s.(trace := t.trace, log := t.log, vcs := t.vcs, lastUI := s.lastUI[2 := 1])
  {
    assert [M11().vc] + ([] + [M21().vc]) == Nv1().nvCert;
  }

  lemma Begun1(c: Config, s: Replica, order: Order)
    requires Three(c) && !s.exec.stopped && s.expected == 1 && s.current == 0 && Get(s.lastUI, 1) == 1
    requires s.tally == Fresh(2) && s.exec.clients.pending == map[] && order(map[]) == []
    ensures var t := ProcessCertified(c, s, 1, Nv1(), order).s;
            t.trace == s.trace && t.current == t.expected == 1 && t.exec == s.exec
            && ProcessCertified(c, s, 1, Nv1(), order).ok
  {
    NothingEvidenced();
    var e := EnterView(s, 1);
    assert Zeros(1) == [0];
    CollectOne(s.tally, CommitmentOf(Nv1()), 0);
    assert PrepareAll(s.exec, []) == s.exec;
    assert ApplyNewView(c, e, 1, Nv1(), order).ok;
  }

  lemma LeftFirst(c: Config, s: Replica)
    requires Three(c) && s == Initial(c)
    ensures Calm(s) && First1(c, Left(s, 1))
  {
    assert CertifiedIn(s.log) == [];
    LeftForm(s, 1);
    assert UnprepareReqs(NO_CLIENTS) == NO_CLIENTS;
  }

  /** Replica 1 with both ViewChange messages has certified the NewView message for view 1. */
  lemma FirstCollects(c: Config, inputs: seq<Input>, g: State, order: Order) returns (inputs': seq<Input>, g': State)
    requires Three(c) && Reaches(c, inputs, g) && First1(c, g[1]) && M21() in g[2].trace
    ensures Reaches(c, inputs', g') && g' == g[1 := g'[1]]
    ensures var s, t := g[1], g'[1];
            && t.trace == [M11(), Nv1()] && Get(t.lastUI, 1) == 1 && Get(t.lastUI, 2) == 1
            && t == s.(trace := t.trace, log := t.log, vcs := t.vcs, lastUI := t.lastUI)
  {
    OwnCollected(c, g[1], order);
    SettledOne(c, g[1]);
    inputs', g' := TakesOwn(c, inputs, g, 1, M11(), order);
    SecondCollected(c, g'[1], order);
    SettledOne(c, g'[1]);
    inputs', g' := Hears(c, inputs', g', 1, M21(), order);
    assert [M11()] + [Nv1()] == [M11(), Nv1()];
  }

  /** Replica 1 with its NewView message certified. */
  ghost predicate Second1(s: Replica) {
    && s.trace == [M11(), Nv1()] && Get(s.lastUI, 1) == 1 && Get(s.lastUI, 2) == 1
    && Calm(s) && s.expected == 1 && s.current == 0
    && s.tally == Fresh(2) && s.exec.clients == NO_CLIENTS
  }

  /** Replica 1 in view 1. */
  ghost predicate Third1(s: Replica) {
    && s.trace == [M11(), Nv1()] && s.current == s.expected == 1
    && !s.exec.stopped && s.exec.clients == NO_CLIENTS
  }

  lemma FirstEnters(c: Config, inputs: seq<Input>, g: State, order: Order) returns (inputs': seq<Input>, g': State)
    requires Three(c) && Reaches(c, inputs, g) && Second1(g[1]) && order(map[]) == []
    ensures Reaches(c, inputs', g') && g' == g[1 := g'[1]] && Third1(g'[1])
  {
    SettledOne(c, g[1]);
    Begun1(c, g[1], order);
    inputs', g' := TakesOwn(c, inputs, g, 1, Nv1(), order);
  }

  lemma FirstProposes(c: Config, inputs: seq<Input>, g: State, q: Request) returns (inputs': seq<Input>, g': State)
    requires Three(c) && Reaches(c, inputs, g) && Third1(g[1]) && q.seqNo > 0
    ensures Reaches(c, inputs', g') && g' == g[1 := g'[1]] && g'[1].trace == [M11(), Nv1(), P12(q)]
  {
    inputs', g' := TakesRequest(c, inputs, g, 1, q);
    assert [M11(), Nv1()] + [P12(q)] == [M11(), Nv1(), P12(q)];
  }

  /** What replicas 1 and 2 have certified. */
  ghost predicate Stage(g: State, q: Request) {
    && |g| == 3
    && g[1].trace == [M11(), Nv1(), P12(q)] && g[2].trace == [M21(), M22(), M23()]
  }

  lemma StageSet(c: Config, q: Request, order: Order) returns (inputs: seq<Input>, g: State)
    requires Three(c) && q.seqNo > 0 && order(map[]) == []
    ensures Reaches(c, inputs, g) && Stage(g, q) && g[0] == Initial(c)
  {
    inputs, g := SecondLeaves(c);
    LeftFirst(c, g[1]);
    inputs, g := Leaves(c, inputs, g, 1);
    inputs, g := FirstCollects(c, inputs, g, order);
    inputs, g := FirstEnters(c, inputs, g, order);
    inputs, g := FirstProposes(c, inputs, g, q);
  }

  // ---------- Replica 0: what it certifies ----------

  function P1(q: Request): Message { Message.Prepare(0, 0, q, 1) }
  function P2(q: Request): Message { Message.Prepare(0, 0, q, 2) }
  function M01(q: Request, q': Request): Message { Leaving(0, 1, [P1(q), P2(q')], 3) }
  function C1(): Message { Commit(0, Nv1(), 4) }
  function C2(q: Request): Message { Commit(0, P12(q), 5) }
  function M02(q: Request, q': Request): Message { Leaving(0, 2, [M01(q, q'), C1(), C2(q')], 6) }
  function M03(q: Request, q': Request): Message { Leaving(0, 3, [M02(q, q')], 7) }
  function Nv3(q: Request, q': Request): Message { NewView(0, 3, [M03(q, q').vc, M23().vc], 8) }
  function Last(q: Request): Message { Message.Prepare(0, 3, q, 9) }

  // ---------- Replica 0: what it knows ----------

  ghost predicate Is(s: Replica, t: seq<Message>, l: seq<Message>, current: nat, expected: nat) {
    && Calm(s) && !s.ahead && s.trace == t && CertifiedIn(s.log) == l
    && s.current == current && s.expected == expected
  }

  ghost predicate Seen(s: Replica, u0: nat, u1: nat, u2: nat) {
    Get(s.lastUI, 0) == u0 && Get(s.lastUI, 1) == u1 && Get(s.lastUI, 2) == u2
  }

  /** The only client's identifiers and requests. */
  ghost predicate Book(s: Replica, k: nat, nums: SeqNums, pending: RequestMap, prepared: RequestMap) {
    var cl := s.exec.clients;
    Nums(cl, k) == nums && cl.pending == pending && cl.preparedList == prepared
  }

  /** The counter's number h in view v, and what has been accepted from replica r. */
  ghost predicate Counts(s: Replica, v: nat, h: nat) {
    s.tally.cnt == Counter(v, [h])
  }

  ghost predicate Heard(s: Replica, r: nat, v: nat, p: nat, x: nat) {
    var a := s.tally.acc;
    Get(a.views, r) == v && Get(a.primaryCVs, r) == p && Get(a.replicaCVs, r) == x
  }

  ghost predicate Pair(q: Request, q': Request) {
    q.clientID == q'.clientID && 0 < q.seqNo < q'.seqNo
  }

  /** The requests have been captured. */
  predicate Holds(s: Replica, q: Request, q': Request) {
    !CaptureIsNew(s.exec.clients, q) && !CaptureIsNew(s.exec.clients, q')
  }

  lemma SettledVotes(c: Config, s: Replica, q: Request)
    requires Three(c) && s.expected >= 1 && !CaptureIsNew(s.exec.clients, q)
    requires Get(s.lastUI, 1) >= 3 && Get(s.lastUI, 2) >= 1
    ensures Settled(c, s, C1()) && Settled(c, s, C2(q))
  {
    SettledOne(c, s);
    SettledCommit(c, s, C1());
    SettledCommit(c, s, C2(q));
  }

  lemma SettledM01(c: Config, s: Replica, q: Request, q': Request)
    requires Three(c) && s.expected >= 1 && Holds(s, q, q') && Get(s.lastUI, 0) >= 2
    ensures Settled(c, s, M01(q, q'))
  {
    SettledLeaving(c, s, 0, 1, [P1(q), P2(q')], 3);
  }

  lemma SettledM02(c: Config, s: Replica, q: Request, q': Request)
    requires Three(c) && s.expected >= 2 && Holds(s, q, q')
    requires Get(s.lastUI, 0) >= 5 && Get(s.lastUI, 1) >= 3 && Get(s.lastUI, 2) >= 1
    ensures Settled(c, s, M02(q, q'))
  {
    SettledM01(c, s, q, q');
    SettledVotes(c, s, q');
    SettledLeaving(c, s, 0, 2, [M01(q, q'), C1(), C2(q')], 6);
  }

  lemma SettledM03(c: Config, s: Replica, q: Request, q': Request)
    requires Three(c) && s.expected >= 3 && Holds(s, q, q')
    requires Get(s.lastUI, 0) >= 6 && Get(s.lastUI, 1) >= 3 && Get(s.lastUI, 2) >= 1
    ensures Settled(c, s, M03(q, q'))
  {
    SettledM02(c, s, q, q');
    SettledLeaving(c, s, 0, 3, [M02(q, q')], 7);
  }

  lemma SettledNv3(c: Config, s: Replica, q: Request, q': Request)
    requires Three(c) && s.expected >= 3 && Holds(s, q, q')
    requires Get(s.lastUI, 0) >= 7 && Get(s.lastUI, 1) >= 3 && Get(s.lastUI, 2) >= 3
    ensures Settled(c, s, Nv3(q, q'))
  {
    SettledM03(c, s, q, q');
    SettledSecond(c, s);
    SettledNv(c, s, Nv3(q, q'), M03(q, q'), M23());
  }

  // ---------- Replica 0 in view 0 ----------

  lemma EmittedLog(s: Replica, m: Message)
    ensures Emit(s, m).trace == s.trace + [m.WithCounter(|s.trace| + 1)]
    ensures CertifiedIn(Emit(s, m).log) == CertifiedIn(s.log) + [m.WithCounter(|s.trace| + 1)]
  {
    Emission.CertifiedAppend(s.log, Certified(m.WithCounter(|s.trace| + 1)));
  }

  /** A primary in its view captures a request and proposes it. */
  lemma Captures(c: Config, s: Replica, q: Request)
    requires Three(c) && Calm(s) && s.current == s.expected == 0 && CaptureIsNew(s.exec.clients, q)
    ensures var t, m := ProcessRequest(c, s, 0, q), Message.Prepare(0, 0, q, |s.trace| + 1);
            && t.trace == s.trace + [m] && CertifiedIn(t.log) == CertifiedIn(s.log) + [m] && Calm(t)
            && t == s.(trace := t.trace, log := t.log, exec := s.exec.(clients := CaptureReq(s.exec.clients, q)))
  {
    EmittedLog(s.(exec := s.exec.(clients := CaptureReq(s.exec.clients, q))), Message.Prepare(0, 0, q, 0));
  }

  /** Replica 0 with q captured. */
  ghost predicate Captured0(s: Replica, q: Request) {
    && Is(s, [P1(q)], [P1(q)], 0, 0) && Seen(s, 0, 0, 0) && s.vcs == NO_VIEW_CHANGES
    && Book(s, q.clientID, SeqNums(q.seqNo, 0, 0), map[q.clientID := q], map[]) && s.tally == Fresh(2)
  }

  lemma CapturesOne(c: Config, s: Replica, q: Request)
    requires Three(c) && s == Initial(c) && q.seqNo > 0
    ensures Captured0(ProcessRequest(c, s, 0, q), q)
  {
    assert CertifiedIn(s.log) == [];
    Captures(c, s, q);
    assert map[][q.clientID := q] == map[q.clientID := q];
  }

  lemma PreparesOwn(s: Replica, q: Request)
    requires var k := q.clientID; Book(s, k, SeqNums(q.seqNo, 0, 0), map[k := q], map[]) && q.seqNo > 0
    ensures PrepareEffect(s.exec.clients, q) == New
    ensures var t, k := s.(exec := s.exec.(clients := PrepareReq(s.exec.clients, q))), q.clientID;
            Book(t, k, SeqNums(q.seqNo, q.seqNo, 0), map[], map[k := q])
  {
    var k := q.clientID;
    assert map[k := q] - {k} == map[];
    assert map[][k := q] == map[k := q];
  }

  /** Replica 0 with q prepared. */
  ghost predicate Zero0(s: Replica, q: Request) {
    && Is(s, [P1(q)], [P1(q)], 0, 0) && Seen(s, 1, 0, 0) && s.vcs == NO_VIEW_CHANGES
    && Book(s, q.clientID, SeqNums(q.seqNo, q.seqNo, 0), map[], map[q.clientID := q])
    && Counts(s, 0, 1) && Heard(s, 0, 0, 1, 1) && Heard(s, 1, 0, 0, 0)
  }

  lemma TakesOne(c: Config, s: Replica, q: Request, order: Order)
    requires Three(c) && q.seqNo > 0 && Captured0(s, q)
    ensures var a := ProcessCertified(c, s, 0, P1(q), order); a.ok && Zero0(a.s, q)
  {
    var m := P1(q);
    var s1 := s.(exec := s.exec.(clients := PrepareReq(s.exec.clients, q)));
    PreparesOwn(s, q);
    assert Zeros(1) == [0];
    CollectOne(s.tally, CommitmentOf(m), 0);
    assert CollectCommitment(s1, m) == Applied(s1.(tally := Collect(s.tally, CommitmentOf(m))), true);
    TakenForm(c, s, 0, m, order);
  }

  /** Replica 0 with q prepared and q' captured. */
  ghost predicate Zero1(s: Replica, q: Request, q': Request) {
    var k := q.clientID;
    && Is(s, [P1(q), P2(q')], [P1(q), P2(q')], 0, 0) && Seen(s, 1, 0, 0) && s.vcs == NO_VIEW_CHANGES
    && Book(s, k, SeqNums(q'.seqNo, q.seqNo, 0), map[k := q'], map[k := q])
    && Counts(s, 0, 1) && Heard(s, 0, 0, 1, 1) && Heard(s, 1, 0, 0, 0)
  }

  lemma CapturesTwo(c: Config, s: Replica, q: Request, q': Request)
    requires Three(c) && Pair(q, q') && Zero0(s, q)
    ensures Zero1(ProcessRequest(c, s, 0, q'), q, q')
  {
    Captures(c, s, q');
    assert [P1(q)] + [P2(q')] == [P1(q), P2(q')];
    assert map[][q.clientID := q'] == map[q.clientID := q'];
  }

  lemma PreparesFirst(c: Config, inputs: seq<Input>, g: State, q: Request, order: Order)
    returns (inputs': seq<Input>, g': State)
    requires Three(c) && Reaches(c, inputs, g) && q.seqNo > 0 && Captured0(g[0], q)
    ensures Reaches(c, inputs', g') && g' == g[0 := g'[0]] && Zero0(g'[0], q)
  {
    TakesOne(c, g[0], q, order);
    inputs', g' := TakesOwn(c, inputs, g, 0, P1(q), order);
  }

  lemma CapturesFirst(c: Config, inputs: seq<Input>, g: State, q: Request)
    returns (inputs': seq<Input>, g': State)
    requires Three(c) && Reaches(c, inputs, g) && g[0] == Initial(c) && q.seqNo > 0
    ensures Reaches(c, inputs', g') && g' == g[0 := g'[0]] && Captured0(g'[0], q)
  {
    CapturesOne(c, g[0], q);
    inputs', g' := TakesRequest(c, inputs, g, 0, q);
  }

  lemma CapturesSecond(c: Config, inputs: seq<Input>, g: State, q: Request, q': Request)
    returns (inputs': seq<Input>, g': State)
    requires Three(c) && Reaches(c, inputs, g) && Pair(q, q') && Zero0(g[0], q)
    ensures Reaches(c, inputs', g') && g' == g[0 := g'[0]] && Zero1(g'[0], q, q')
  {
    CapturesTwo(c, g[0], q, q');
    inputs', g' := TakesRequest(c, inputs, g, 0, q');
  }

  lemma InViewZero(c: Config, inputs: seq<Input>, g: State, q: Request, q': Request, order: Order)
    returns (inputs': seq<Input>, g': State)
    requires Three(c) && Reaches(c, inputs, g) && g[0] == Initial(c) && Pair(q, q')
    ensures Reaches(c, inputs', g') && g' == g[0 := g'[0]] && Zero1(g'[0], q, q')
  {
    inputs', g' := CapturesFirst(c, inputs, g, q);
    inputs', g' := PreparesFirst(c, inputs', g', q, order);
    inputs', g' := CapturesSecond(c, inputs', g', q, q');
  }

  // ---------- Replica 0 in view 1 ----------

  /** Replica 0 has left view 0: q is pending in the place of q'. */
  ghost predicate Zero2(s: Replica, q: Request, q': Request) {
    && Is(s, [P1(q), P2(q'), M01(q, q')], [M01(q, q')], 0, 1) && Seen(s, 1, 0, 0) && s.vcs == NO_VIEW_CHANGES
    && Book(s, q.clientID, SeqNums(q'.seqNo, 0, 0), map[q.clientID := q], map[])
    && Counts(s, 0, 1) && Heard(s, 0, 0, 1, 1) && Heard(s, 1, 0, 0, 0)
  }

  lemma PutBack(s: Clients, q: Request, q': Request)
    requires Pair(q, q') && s.pending == map[q.clientID := q'] && s.preparedList == map[q.clientID := q]
    requires Nums(s, q.clientID) == SeqNums(q'.seqNo, q.seqNo, 0)
    ensures var t := UnprepareReqs(s);
            && Nums(t, q.clientID) == SeqNums(q'.seqNo, 0, 0)
            && t.pending == map[q.clientID := q] && t.preparedList == map[]
  {
  }

  lemma LeftZero(s: Replica, q: Request, q': Request)
    requires Pair(q, q') && Zero1(s, q, q')
    ensures Zero2(Left(s, 0), q, q')
  {
    LeftForm(s, 0);
    PutBack(s.exec.clients, q, q');
    assert [P1(q), P2(q')] + [M01(q, q')] == [P1(q), P2(q'), M01(q, q')];
  }

  /** A replica that does not lead the view takes note of a ViewChange message. */
  lemma PassesVc(c: Config, s: Replica, i: nat, m: Message, order: Order)
    requires c.Ok() && !s.exec.stopped && m.ViewChangeMsg? && m.Counter() == Get(s.lastUI, m.Sender()) + 1
    requires !c.IsPrimary(m.vc.newView, i) || m.vc.newView < s.vcs.view
    ensures ProcessCertified(c, s, i, m, order)
            == Applied(Ticked(s.(vcs := VcEnter(s.vcs, m.vc.newView)), m), true)
  {
  }

  /** Replica 0 has the ViewChange messages of the others. */
  ghost predicate Zero3(s: Replica, q: Request, q': Request) {
    && Is(s, [P1(q), P2(q'), M01(q, q')], [M01(q, q')], 0, 1) && Seen(s, 1, 1, 1)
    && s.vcs == VcCollector(1, None, [])
    && Book(s, q.clientID, SeqNums(q'.seqNo, 0, 0), map[q.clientID := q], map[])
    && Counts(s, 0, 1) && Heard(s, 0, 0, 1, 1) && Heard(s, 1, 0, 0, 0)
  }

  lemma HearsOthers(c: Config, inputs: seq<Input>, g: State, q: Request, q': Request, order: Order)
    returns (inputs': seq<Input>, g': State)
    requires Three(c) && Reaches(c, inputs, g) && Stage(g, q') && Zero2(g[0], q, q')
    ensures Reaches(c, inputs', g') && g' == g[0 := g'[0]] && Zero3(g'[0], q, q')
  {
    SettledOne(c, g[0]);
    PassesVc(c, g[0], 0, M11(), order);
    inputs', g' := Hears(c, inputs, g, 0, M11(), order);
    SettledOne(c, g'[0]);
    PassesVc(c, g'[0], 0, M21(), order);
    inputs', g' := Hears(c, inputs', g', 0, M21(), order);
  }

  /** Replica 0 has entered view 1. */
  ghost predicate Zero4(s: Replica, q: Request, q': Request) {
    && Is(s, [P1(q), P2(q'), M01(q, q'), C1()], [M01(q, q'), C1()], 1, 1) && Seen(s, 1, 2, 1)
    && s.vcs == VcCollector(1, None, [])
    && Book(s, q.clientID, SeqNums(q'.seqNo, 0, 0), map[q.clientID := q], map[])
    && Counts(s, 1, 2) && Heard(s, 0, 0, 1, 1) && Heard(s, 1, 1, 2, 2)
  }

  lemma AppliesNv1(c: Config, s: Replica, q: Request, q': Request, order: Order)
    requires Three(c) && Zero3(s, q, q')
    ensures Zero4(ProcessCertified(c, s, 0, Nv1(), order).s, q, q')
  {
    NothingEvidenced();
    var m, e := Nv1(), EnterView(s, 1);
    CollectOne(s.tally, CommitmentOf(m), 1);
    assert PrepareAll(s.exec, []) == s.exec;
    var t := e.(tally := Collect(s.tally, CommitmentOf(m)));
    assert CollectCommitment(e, m) == Applied(t, true);
    assert ApplyNewView(c, e, 0, m, order) == Applied(Emit(t, Commit(0, m, 0)), true);
    EmittedLog(t, Commit(0, m, 0));
    TakenForm(c, s, 0, m, order);
    assert [P1(q), P2(q'), M01(q, q')] + [C1()] == [P1(q), P2(q'), M01(q, q'), C1()];
    assert [M01(q, q')] + [C1()] == [M01(q, q'), C1()];
  }

  lemma EntersOne(c: Config, inputs: seq<Input>, g: State, q: Request, q': Request, order: Order)
    returns (inputs': seq<Input>, g': State)
    requires Three(c) && Reaches(c, inputs, g) && Stage(g, q') && Zero3(g[0], q, q')
    ensures Reaches(c, inputs', g') && g' == g[0 := g'[0]] && Zero4(g'[0], q, q')
  {
    SettledOne(c, g[0]);
    AppliesNv1(c, g[0], q, q', order);
    inputs', g' := Hears(c, inputs, g, 0, Nv1(), order);
  }

  /** Replica 0 has prepared q' in view 1, and q is still pending. */
  ghost predicate Zero5(s: Replica, q: Request, q': Request, u: nat) {
    && Is(s, [P1(q), P2(q'), M01(q, q'), C1(), C2(q')], [M01(q, q'), C1(), C2(q')], 1, 1) && Seen(s, u, 3, 1)
    && s.vcs == VcCollector(1, None, [])
    && Book(s, q.clientID, SeqNums(q'.seqNo, q'.seqNo, 0), map[q.clientID := q], map[q.clientID := q'])
    && Counts(s, 1, 3) && Heard(s, 0, 0, 1, 1) && Heard(s, 1, 1, 3, 3)
  }

  lemma PreparesOver(s: Replica, q: Request, q': Request)
    requires Pair(q, q') && Book(s, q.clientID, SeqNums(q'.seqNo, 0, 0), map[q.clientID := q], map[])
    ensures PrepareEffect(s.exec.clients, q') == New
    ensures Book(s.(exec := s.exec.(clients := PrepareReq(s.exec.clients, q'))), q.clientID,
                 SeqNums(q'.seqNo, q'.seqNo, 0), map[q.clientID := q], map[q.clientID := q'])
  {
    assert map[][q.clientID := q'] == map[q.clientID := q'];
  }

  lemma AppliesP12(c: Config, s: Replica, q: Request, q': Request, order: Order)
    requires Three(c) && Pair(q, q') && Zero4(s, q, q')
    ensures Zero5(ProcessCertified(c, s, 0, P12(q'), order).s, q, q', 1)
  {
    var m := P12(q');
    var s1 := s.(exec := s.exec.(clients := PrepareReq(s.exec.clients, q')));
    PreparesOver(s, q, q');
    CollectOne(s.tally, CommitmentOf(m), 2);
    var t := s1.(tally := Collect(s.tally, CommitmentOf(m)));
    assert CollectCommitment(s1, m) == Applied(t, true);
    assert ApplyPrepare(s, 0, m) == Applied(Emit(t, Commit(0, m, 0)), true);
    EmittedLog(t, Commit(0, m, 0));
    TakenForm(c, s, 0, m, order);
    assert [P1(q), P2(q'), M01(q, q'), C1()] + [C2(q')] == [P1(q), P2(q'), M01(q, q'), C1(), C2(q')];
    assert [M01(q, q'), C1()] + [C2(q')] == [M01(q, q'), C1(), C2(q')];
  }

  lemma PreparesSecond(c: Config, inputs: seq<Input>, g: State, q: Request, q': Request, order: Order)
    returns (inputs': seq<Input>, g': State)
    requires Three(c) && Reaches(c, inputs, g) && Stage(g, q') && Pair(q, q') && Zero4(g[0], q, q')
    ensures Reaches(c, inputs', g') && g' == g[0 := g'[0]] && Zero5(g'[0], q, q', 1)
  {
    AppliesP12(c, g[0], q, q', order);
    inputs', g' := Hears(c, inputs, g, 0, P12(q'), order);
  }

  // ---------- Replica 0 takes its own messages ----------

  lemma SkipsP2(c: Config, inputs: seq<Input>, g: State, q: Request, q': Request, order: Order)
    returns (inputs': seq<Input>, g': State)
    requires Three(c) && Reaches(c, inputs, g) && Pair(q, q') && Zero5(g[0], q, q', 1)
    ensures Reaches(c, inputs', g') && g' == g[0 := g'[0]] && Zero5(g'[0], q, q', 2)
  {
    TakenForm(c, g[0], 0, P2(q'), order);
    inputs', g' := TakesOwn(c, inputs, g, 0, P2(q'), order);
  }

  lemma SkipsM01(c: Config, inputs: seq<Input>, g: State, q: Request, q': Request, order: Order)
    returns (inputs': seq<Input>, g': State)
    requires Three(c) && Reaches(c, inputs, g) && Pair(q, q') && Zero5(g[0], q, q', 2)
    ensures Reaches(c, inputs', g') && g' == g[0 := g'[0]] && Zero5(g'[0], q, q', 3)
  {
    SettledM01(c, g[0], q, q');
    PassesVc(c, g[0], 0, M01(q, q'), order);
    assert M01(q, q') == g[0].trace[2];
    inputs', g' := TakesOwn(c, inputs, g, 0, M01(q, q'), order);
  }

  /** Replica 0 has taken its commitment to the NewView message. */
  ghost predicate Zero6(s: Replica, q: Request, q': Request) {
    && Is(s, [P1(q), P2(q'), M01(q, q'), C1(), C2(q')], [M01(q, q'), C1(), C2(q')], 1, 1) && Seen(s, 4, 3, 1)
    && s.vcs == VcCollector(1, None, [])
    && Book(s, q.clientID, SeqNums(q'.seqNo, q'.seqNo, 0), map[q.clientID := q], map[q.clientID := q'])
    && Counts(s, 1, 3) && Heard(s, 0, 1, 2, 4)
  }

  lemma AcceptsNv1(c: Config, s: Replica, q: Request, q': Request, order: Order)
    requires Three(c) && Zero5(s, q, q', 3)
    ensures var a := ProcessCertified(c, s, 0, C1(), order); a.ok && Zero6(a.s, q, q')
  {
    var m := C1();
    NothingEvidenced();
    CollectOne(s.tally, CommitmentOf(m), 3);
    assert ExecuteProposal(s.exec, Nv1()) == s.exec by { assert ExecuteAll(s.exec, []) == s.exec; }
    var t := s.(tally := Collect(s.tally, CommitmentOf(m)));
    assert CollectCommitment(s, m) == Applied(RecordDone(t, CommitmentOf(m)), true);
    TakenForm(c, s, 0, m, order);
  }

  lemma TakesC1(c: Config, inputs: seq<Input>, g: State, q: Request, q': Request, order: Order)
    returns (inputs': seq<Input>, g': State)
    requires Three(c) && Reaches(c, inputs, g) && Zero5(g[0], q, q', 3)
    ensures Reaches(c, inputs', g') && g' == g[0 := g'[0]] && Zero6(g'[0], q, q')
  {
    SettledOne(c, g[0]);
    SettledCommit(c, g[0], C1());
    AcceptsNv1(c, g[0], q, q', order);
    assert C1() == g[0].trace[3];
    inputs', g' := TakesOwn(c, inputs, g, 0, C1(), order);
  }

  /** Replica 0 has executed q'. */
  ghost predicate Zero7(s: Replica, q: Request, q': Request) {
    && Is(s, [P1(q), P2(q'), M01(q, q'), C1(), C2(q')], [M01(q, q'), C1(), C2(q')], 1, 1) && Seen(s, 5, 3, 1)
    && s.vcs == VcCollector(1, None, [])
    && Book(s, q.clientID, SeqNums(q'.seqNo, q'.seqNo, q'.seqNo), map[q.clientID := q], map[])
    && Counts(s, 1, 3) && Heard(s, 0, 1, 3, 5)
  }

  lemma Retires(s: Replica, q: Request, q': Request)
    requires Pair(q, q') && !s.exec.stopped
    requires Book(s, q.clientID, SeqNums(q'.seqNo, q'.seqNo, 0), map[q.clientID := q], map[q.clientID := q'])
    ensures var x := Execute(s.exec, q');
            && !x.stopped
            && Book(s.(exec := x), q.clientID, SeqNums(q'.seqNo, q'.seqNo, q'.seqNo), map[q.clientID := q], map[])
  {
    assert RetireEffect(s.exec.clients, q') == New;
    assert map[q.clientID := q'] - {q.clientID} == map[];
  }

  lemma AcceptsP12(c: Config, s: Replica, q: Request, q': Request, order: Order)
    requires Three(c) && Pair(q, q') && Zero6(s, q, q')
    ensures var a := ProcessCertified(c, s, 0, C2(q'), order); a.ok && Zero7(a.s, q, q')
  {
    var m := C2(q');
    CollectOne(s.tally, CommitmentOf(m), 3);
    Retires(s, q, q');
    var t := s.(tally := Collect(s.tally, CommitmentOf(m)), exec := Execute(s.exec, q'));
    assert CollectCommitment(s, m) == Applied(RecordDone(t, CommitmentOf(m)), true);
    TakenForm(c, s, 0, m, order);
  }

  lemma TakesC2(c: Config, inputs: seq<Input>, g: State, q: Request, q': Request, order: Order)
    returns (inputs': seq<Input>, g': State)
    requires Three(c) && Reaches(c, inputs, g) && Pair(q, q') && Zero6(g[0], q, q')
    ensures Reaches(c, inputs', g') && g' == g[0 := g'[0]] && Zero7(g'[0], q, q')
  {
    SettledVotes(c, g[0], q');
    AcceptsP12(c, g[0], q, q', order);
    assert C2(q') == g[0].trace[4];
    inputs', g' := TakesOwn(c, inputs, g, 0, C2(q'), order);
  }

  lemma InViewOne(c: Config, inputs: seq<Input>, g: State, q: Request, q': Request, order: Order)
    returns (inputs': seq<Input>, g': State)
    requires Three(c) && Reaches(c, inputs, g) && Stage(g, q') && Pair(q, q') && Zero2(g[0], q, q')
    ensures Reaches(c, inputs', g') && g' == g[0 := g'[0]] && Zero7(g'[0], q, q')
  {
    inputs', g' := HearsOthers(c, inputs, g, q, q', order);
    inputs', g' := EntersOne(c, inputs', g', q, q', order);
    inputs', g' := PreparesSecond(c, inputs', g', q, q', order);
    inputs', g' := SkipsP2(c, inputs', g', q, q', order);
    inputs', g' := SkipsM01(c, inputs', g', q, q', order);
    inputs', g' := TakesC1(c, inputs', g', q, q', order);
    inputs', g' := TakesC2(c, inputs', g', q, q', order);
  }

  // ---------- Replica 0 comes to lead view 3 ----------

  /** Everything replica 0 has certified up to its ViewChange message for view 3. */
  function Certified0(q: Request, q': Request): seq<Message> {
    [P1(q), P2(q'), M01(q, q'), C1(), C2(q'), M02(q, q'), M03(q, q')]
  }

  /** The request q is pending, and below the last one prepared. */
  ghost predicate StaleBook(s: Replica, q: Request, q': Request) {
    Book(s, q.clientID, SeqNums(q'.seqNo, q'.seqNo, q'.seqNo), map[q.clientID := q], map[])
  }

  ghost predicate Zero8(s: Replica, q: Request, q': Request, u0: nat, u2: nat, vcs: VcCollector) {
    && Is(s, Certified0(q, q'), [M03(q, q')], 1, 3) && Seen(s, u0, 3, u2) && s.vcs == vcs
    && StaleBook(s, q, q') && Counts(s, 1, 3) && Heard(s, 0, 1, 3, 5)
  }

  lemma NothingToPutBack(s: Replica, t: Replica, q: Request, q': Request)
    requires StaleBook(s, q, q') && t.exec.clients == UnprepareReqs(s.exec.clients)
    ensures StaleBook(t, q, q')
  {
    assert map[q.clientID := q] + map[] == map[q.clientID := q];
  }

  lemma LeftTwice(s: Replica, q: Request, q': Request)
    requires Pair(q, q') && Zero7(s, q, q')
    ensures Calm(s) && Calm(Left(s, 0))
    ensures Zero8(Left(Left(s, 0), 0), q, q', 5, 1, VcCollector(1, None, []))
  {
    var t := Left(s, 0);
    LeftForm(s, 0);
    NothingToPutBack(s, t, q, q');
    assert t.trace == [P1(q), P2(q'), M01(q, q'), C1(), C2(q'), M02(q, q')];
    LeftForm(t, 0);
    NothingToPutBack(t, Left(t, 0), q, q');
    assert t.trace + [M03(q, q')] == Certified0(q, q');
  }

  const ONE_OTHER: VcCollector := VcCollector(3, None, [M23().vc])

  lemma CollectsM23(c: Config, s: Replica, order: Order)
    requires Three(c) && !s.exec.stopped && s.vcs == VcCollector(2, None, []) && Get(s.lastUI, 2) == 2
    ensures ProcessCertified(c, s, 0, M23(), order) == Applied(Ticked(s.(vcs := ONE_OTHER), M23()), true)
  {
    assert [] + [M23().vc] == [M23().vc];
  }

  /** The ViewChange messages of replica 2. */
  lemma HearsSecond(c: Config, inputs: seq<Input>, g: State, q: Request, q': Request, order: Order)
    returns (inputs': seq<Input>, g': State)
    requires Three(c) && Reaches(c, inputs, g) && Stage(g, q') && Zero8(g[0], q, q', 5, 1, VcCollector(1, None, []))
    ensures Reaches(c, inputs', g') && g' == g[0 := g'[0]] && Zero8(g'[0], q, q', 5, 3, ONE_OTHER)
  {
    inputs', g' := HearsM22(c, inputs, g, q, q', order);
    inputs', g' := HearsM23(c, inputs', g', q, q', order);
  }

  lemma HearsM22(c: Config, inputs: seq<Input>, g: State, q: Request, q': Request, order: Order)
    returns (inputs': seq<Input>, g': State)
    requires Three(c) && Reaches(c, inputs, g) && Stage(g, q') && Zero8(g[0], q, q', 5, 1, VcCollector(1, None, []))
    ensures Reaches(c, inputs', g') && g' == g[0 := g'[0]] && Zero8(g'[0], q, q', 5, 2, VcCollector(2, None, []))
  {
    assert M22() == g[2].trace[1];
    SettledSecond(c, g[0]);
    PassesVc(c, g[0], 0, M22(), order);
    inputs', g' := Hears(c, inputs, g, 0, M22(), order);
  }

  lemma HearsM23(c: Config, inputs: seq<Input>, g: State, q: Request, q': Request, order: Order)
    returns (inputs': seq<Input>, g': State)
    requires Three(c) && Reaches(c, inputs, g) && Stage(g, q') && Zero8(g[0], q, q', 5, 2, VcCollector(2, None, []))
    ensures Reaches(c, inputs', g') && g' == g[0 := g'[0]] && Zero8(g'[0], q, q', 5, 3, ONE_OTHER)
  {
    assert M23() == g[2].trace[2];
    SettledSecond(c, g[0]);
    CollectsM23(c, g[0], order);
    inputs', g' := Hears(c, inputs, g, 0, M23(), order);
  }

  lemma SkipsM02(c: Config, inputs: seq<Input>, g: State, q: Request, q': Request, order: Order)
    returns (inputs': seq<Input>, g': State)
    requires Three(c) && Reaches(c, inputs, g) && Pair(q, q') && Zero8(g[0], q, q', 5, 3, ONE_OTHER)
    ensures Reaches(c, inputs', g') && g' == g[0 := g'[0]] && Zero8(g'[0], q, q', 6, 3, ONE_OTHER)
  {
    assert M02(q, q') == g[0].trace[5];
    SettledM02(c, g[0], q, q');
    PassesVc(c, g[0], 0, M02(q, q'), order);
    inputs', g' := TakesOwn(c, inputs, g, 0, M02(q, q'), order);
  }

  /** Replica 0 has certified the NewView message for view 3. */
  ghost predicate Zero9(s: Replica, q: Request, q': Request) {
    && Calm(s) && !s.ahead && s.current == 1 && s.expected == 3
    && s.trace == Certified0(q, q') + [Nv3(q, q')] && Seen(s, 7, 3, 3)
    && StaleBook(s, q, q') && Counts(s, 1, 3) && Heard(s, 0, 1, 3, 5)
  }

  lemma Leads(c: Config, s: Replica, q: Request, q': Request, order: Order)
    requires Three(c) && Zero8(s, q, q', 6, 3, ONE_OTHER)
    ensures var a := ProcessCertified(c, s, 0, M03(q, q'), order); a.ok && Zero9(a.s, q, q')
  {
    var vc := M03(q, q').vc;
    assert [vc] + [M23().vc] == Nv3(q, q').nvCert;
    assert VcCert(s.vcs, c, 0, vc) == Some(Nv3(q, q').nvCert);
    TakenViewChange(c, s, 0, M03(q, q'), order);
  }

  lemma TakesM03(c: Config, inputs: seq<Input>, g: State, q: Request, q': Request, order: Order)
    returns (inputs': seq<Input>, g': State)
    requires Three(c) && Reaches(c, inputs, g) && Pair(q, q') && Zero8(g[0], q, q', 6, 3, ONE_OTHER)
    ensures Reaches(c, inputs', g') && g' == g[0 := g'[0]] && Zero9(g'[0], q, q')
  {
    assert M03(q, q') == g[0].trace[6];
    SettledM03(c, g[0], q, q');
    Leads(c, g[0], q, q', order);
    inputs', g' := TakesOwn(c, inputs, g, 0, M03(q, q'), order);
  }

  // ---------- Replica 0 leads view 3 ----------

  lemma SelectTwo(a: ViewChange, b: ViewChange)
    ensures MaxLog([a, b]) == if |Strip(b.log)| > |Strip(a.log)| then Strip(b.log) else Strip(a.log)
  {
    assert [a, b][..1] == [a] && [a][..0] == [];
    assert MaxLog([a]) == Strip(a.log);
  }

  lemma LeadingTwo(a: ViewChange, b: ViewChange, x: ViewChange, y: ViewChange)
    requires a.log == [ViewChangeMsg(x)] && b.log == [ViewChangeMsg(y)]
    ensures Leading([a, b]) == [x, y]
  {
    assert [a, b][..1] == [a] && [a][..0] == [];
    assert Leading([a]) == [x] by { assert [] + [x] == [x]; }
    assert [x] + [y] == [x, y];
  }

  /** What replica 0 committed to in view 1 is all that the certificate evidences. */
  lemma SecondEvidenced(q: Request, q': Request)
    ensures Extract(Nv3(q, q').nvCert) == Some([q'])
  {
    var a, b := M03(q, q').vc, M23().vc;
    var a', b' := M02(q, q').vc, M22().vc;
    SelectTwo(a, b);
    LeadingTwo(a, b, a', b');
    assert Strip(a.log) == [] && Strip(b.log) == [];
    assert Extract([a, b]) == Extract([a', b']);
    SelectTwo(a', b');
    var l := [C1(), C2(q')];
    assert Strip(a'.log) == l && Strip(b'.log) == [];
    assert Extract([a', b']) == Fold(l);
    NothingEvidenced();
    assert l[..1] == [C1()] && [C1()][..0] == [];
    assert Fold([C1()]) == Some([]);
    assert Fold(l) == Some([] + [q']) && [] + [q'] == [q'];
    assert Nv3(q, q').nvCert == [a, b];
  }

  /** Replica 0 has proposed q in view 3. */
  ghost predicate Zero10(s: Replica, q: Request, q': Request) {
    && !s.exec.stopped && !s.ahead && s.current == s.expected == 3
    && s.trace == Certified0(q, q') + [Nv3(q, q'), Last(q)] && Seen(s, 8, 3, 3) && StaleBook(s, q, q')
  }

  lemma PreparesAgain(x: Exec, q': Request)
    requires !x.stopped && q'.seqNo <= Nums(x.clients, q'.clientID).prepared
    ensures PrepareAll(x, [q']) == x
  {
    assert [q'][..0] == [];
  }

  lemma Begins3(c: Config, s: Replica, q: Request, q': Request, order: Order)
    requires Three(c) && Pair(q, q') && Zero9(s, q, q') && order(map[q.clientID := q]) == [q]
    ensures var a := ProcessCertified(c, s, 0, Nv3(q, q'), order); a.ok && Zero10(a.s, q, q')
  {
    var m, e := Nv3(q, q'), EnterView(s, 3);
    SecondEvidenced(q, q');
    PreparesAgain(s.exec, q');
    CollectOne(s.tally, CommitmentOf(m), 3);
    var t := e.(tally := Collect(s.tally, CommitmentOf(m)));
    assert CollectCommitment(e, m) == Applied(t, true);
    assert [q][..0] == [];
    var u := Emit(t, Message.Prepare(0, 3, q, 0));
    assert EmitPrepares(t, 0, 3, [q]) == u;
    assert ApplyNewView(c, e, 0, m, order) == Applied(u, true);
    TakenForm(c, s, 0, m, order);
    assert Certified0(q, q') + [m] + [Last(q)] == Certified0(q, q') + [m, Last(q)];
  }

  lemma TakesNv3(c: Config, inputs: seq<Input>, g: State, q: Request, q': Request, order: Order)
    returns (inputs': seq<Input>, g': State)
    requires Three(c) && Reaches(c, inputs, g) && Pair(q, q') && Zero9(g[0], q, q')
    requires order(map[q.clientID := q]) == [q]
    ensures Reaches(c, inputs', g') && g' == g[0 := g'[0]] && Zero10(g'[0], q, q')
  {
    assert Nv3(q, q') == g[0].trace[7];
    SettledNv3(c, g[0], q, q');
    Begins3(c, g[0], q, q', order);
    inputs', g' := TakesOwn(c, inputs, g, 0, Nv3(q, q'), order);
  }

  lemma LeadsThree(c: Config, inputs: seq<Input>, g: State, q: Request, q': Request, order: Order)
    returns (inputs': seq<Input>, g': State)
    requires Three(c) && Reaches(c, inputs, g) && Stage(g, q') && Pair(q, q') && Zero7(g[0], q, q')
    requires order(map[q.clientID := q]) == [q]
    ensures Reaches(c, inputs', g') && Zero10(g'[0], q, q')
  {
    LeftTwice(g[0], q, q');
    inputs', g' := Leaves(c, inputs, g, 0);
    inputs', g' := Leaves(c, inputs', g', 0);
    inputs', g' := HearsSecond(c, inputs', g', q, q', order);
    inputs', g' := SkipsM02(c, inputs', g', q, q', order);
    inputs', g' := TakesM03(c, inputs', g', q, q', order);
    inputs', g' := TakesNv3(c, inputs', g', q, q', order);
  }

  lemma LastRefused(c: Config, s: Replica, q: Request, q': Request, order: Order)
    requires Three(c) && Pair(q, q') && Zero10(s, q, q')
    ensures Refused(s, Last(q)) && HandleOwn(c, s, 0, Last(q), order) == Halt(s)
  {
    assert ProcessRequest(c, s, 0, q) == s;
    assert HandleEmbedded(c, s, 0, Last(q), order) == Handled(s, true);
    TakenForm(c, s, 0, Last(q), order);
  }

  /** Replica 0 takes its own proposal of q, and stops. */
  lemma Refuses(c: Config, before: seq<Input>, g: State, q: Request, q': Request, order: Order)
    returns (inputs: seq<Input>)
    requires Three(c) && Reaches(c, before, g) && Pair(q, q') && Zero10(g[0], q, q')
    ensures |AfterInputs(c, inputs)| == 3 && RefusedOwn(c, inputs, 0)
    ensures var s := AfterInputs(c, inputs)[0]; s.exec.stopped && !s.ahead && s.current == s.expected == 3
  {
    var a, g' := OwnIn(0, Last(q), order), g;
    assert Last(q) == g[0].trace[8];
    LastRefused(c, g[0], q, q', order);
    inputs, g' := Does(c, before, g, a);
    assert inputs[..|before|] == before;
    assert RefusedWith(c, inputs, 0, |before|);
  }

  const THREE := Config(3, 1)

  /** The panic is reachable: for any two requests of a client, the second newer than the first, there is a handled
      run of three replicas, one of which may be faulty, in which replica 0, never having been ahead, refuses its own
      Prepare message and stops. */
  lemma OwnMessageRefused(q: Request, q': Request, order: Order) returns (inputs: seq<Input>)
    requires q.clientID == q'.clientID && 0 < q.seqNo < q'.seqNo
    requires order(map[]) == [] && order(map[q.clientID := q]) == [q]
    ensures |AfterInputs(THREE, inputs)| == 3 && RefusedOwn(THREE, inputs, 0)
    ensures var s := AfterInputs(THREE, inputs)[0]; s.exec.stopped && !s.ahead && s.current == s.expected == 3
  {
    inputs := RefusedRun(THREE, q, q', order);
  }

  lemma RefusedRun(c: Config, q: Request, q': Request, order: Order) returns (inputs: seq<Input>)
    requires Three(c) && Pair(q, q') && order(map[]) == [] && order(map[q.clientID := q]) == [q]
    ensures |AfterInputs(c, inputs)| == 3 && RefusedOwn(c, inputs, 0)
    ensures var s := AfterInputs(c, inputs)[0]; s.exec.stopped && !s.ahead && s.current == s.expected == 3
  {
    var r, g := StageSet(c, q', order);
    r, g := InViewZero(c, r, g, q, q', order);
    LeftZero(g[0], q, q');
    r, g := Leaves(c, r, g, 0);
    r, g := InViewOne(c, r, g, q, q', order);
    r, g := LeadsThree(c, r, g, q, q', order);
    inputs := Refuses(c, r, g, q, q', order);
  }
}
