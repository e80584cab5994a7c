/** A run in which a replica panics.

    Five replicas, two of which may fail.  Replicas 1 to 4 move through views 1, 2 and 3, in which nothing
    is proposed, to view 4; replica 4 leads it, proposes a request, and replicas 1 to 3 commit to it.  A
    replica that was idle all along receives the NewView message of view 4, which embeds three ViewChange
    messages.  Each raises its expected view by one (core/message-handling.go:502-512), so it enters view 4
    expecting view 3 and passes over the NewView message and the Prepare message.  Once it does expect view
    4, the others' Commit messages make it execute a request that it has not prepared. */
module Overtaken {
  import opened Messages
  import opened Extraction
  import opened Validation
  import opened Commitments
  import opened Requests
  import opened Execution
  import opened Collectors
  import opened Replica
  import opened System
  import opened Handling
  import opened Inputs
  import Progress

  ghost predicate Five(c: Config) {
    c.n == 5 && c.f == 2
  }

  /** The requests for view v, and the ViewChange message of replica r with all the earlier ones in its log. */
  function Requests3(v: nat): seq<ReqViewChange> {
    [ReqViewChange(1, v), ReqViewChange(2, v), ReqViewChange(3, v)]
  }

  function Vc(r: nat, v: nat): ViewChange {
    ViewChange(r, v, if v <= 1 then [] else [ViewChangeMsg(Vc(r, v - 1))], Requests3(v), v)
  }

  function VcMsg(r: nat, v: nat): Message {
    ViewChangeMsg(Vc(r, v))
  }

  lemma VcValid(c: Config, r: nat, v: nat)
    requires Five(c) && r < 5 && v >= 1
    ensures Validate(c, VcMsg(r, v)) == Accept
  {
    var vc := Vc(r, v);
    assert ViewChangeCertOk(c.ViewChangeCertSize(), v, Requests3(v));
    if v >= 2 {
      assert vc.log[0] == VcMsg(r, v - 1) && vc.log[0].Counter() == v - 1;
    }
    assert LogAccepted(r, v - 1, vc.log, v);
  }

  // ---------- View-change requests ----------

  lemma UnprepareNone(s: Clients)
    requires s.preparedList == map[]
    ensures UnprepareReqs(s) == s
  {
    assert NumsWithout(s, {}) == s.nums;
    assert s.pending + map[] == s.pending;
  }

  /** Replica i, expecting view v-1 with no request for v yet, has taken all three requests for v. */
  function Raised(s: Replica, i: nat, v: nat): Replica {
    var m := ViewChangeMsg(ViewChange(i, v, CertifiedIn(s.log), Requests3(v), |s.trace| + 1));
    s.(expected := v, rvcs := RvcCollector(v, [], {}), trace := s.trace + [m], log := [Certified(m)])
  }

  ghost predicate AtView(s: Replica, e: nat) {
    s.expected == e && s.rvcs == RvcCollector(e, [], {}) && !s.exec.stopped && s.exec.clients.preparedList == map[]
  }

  lemma ThreeRequests(c: Config, s: Replica, i: nat, v: nat)
    requires Five(c) && v >= 1 && AtView(s, v - 1)
    ensures var r := Requests3(v);
            var s1 := ProcessReqViewChange(c, s, i, r[0]);
            var s2 := ProcessReqViewChange(c, s1, i, r[1]);
            ProcessReqViewChange(c, s2, i, r[2]) == Raised(s, i, v)
  {
    var r := Requests3(v);
    var s1 := ProcessReqViewChange(c, s, i, r[0]);
    assert s1 == s.(rvcs := RvcCollector(v - 1, [r[0]], {1}));
    var s2 := ProcessReqViewChange(c, s1, i, r[1]);
    assert s2 == s.(rvcs := RvcCollector(v - 1, [r[0], r[1]], {1, 2}));
    assert [r[0], r[1]] + [r[2]] == r;
    UnprepareNone(s.exec.clients);
  }

  lemma OneRequest(c: Config, s: Replica, i: nat, m: ReqViewChange)
    requires c.Ok() && m.newView >= 1 && m.replicaID < c.n
    ensures HandleRequests(c, s, i, [m]) == Handled(ProcessReqViewChange(c, s, i, m), true)
  {
    assert [m][..0] == [];
  }

  lemma RequestsHandled(c: Config, s: Replica, i: nat, v: nat)
    requires Five(c) && v >= 1 && s.rvcs.view == s.expected && !s.exec.stopped
    requires v == s.expected + 1 ==> AtView(s, v - 1)
    ensures HandleRequests(c, s, i, Requests3(v))
         == Handled(if v == s.expected + 1 then Raised(s, i, v) else s, true)
  {
    var r := Requests3(v);
    assert r[..0] == [] && r[..2][..1] == r[..1] && r[..1][..0] == [];
    OneRequest(c, s, i, r[0]);
    assert r[..1] == [r[0]];
    var s1 := ProcessReqViewChange(c, s, i, r[0]);
    var s2 := ProcessReqViewChange(c, s1, i, r[1]);
    assert HandleRequests(c, s, i, r[..2]) == Handled(s2, true);
    if v == s.expected + 1 {
      ThreeRequests(c, s, i, v);
    }
  }

  // ---------- A ViewChange message and all those in its log ----------

  function Max(a: nat, b: nat): nat {
    if a >= b then a else b
  }

  /** No chain of ViewChange messages of replica r up to view v makes replica i send a NewView message. */
  ghost predicate Quiet(s: VcCollector, i: nat, r: nat, v: nat) {
    if i == 4 then v <= 3 else s.own.None? && v <= 4 && (r == i ==> s.view >= 4)
  }

  lemma QuietNoCert(c: Config, s: VcCollector, i: nat, r: nat, v: nat)
    requires Five(c) && i < 5 && r < 5 && 1 <= v && Quiet(s, i, r, v)
    ensures VcCert(s, c, i, Vc(r, v)).None?
    ensures var t := VcCollect(s, c, i, Vc(r, v));
            && t.view == Max(s.view, v)
            && (i != 4 ==> t.own.None?)
            && (i == 4 ==> t == if s.view > v then s else VcEnter(s, v))
  {
    assert c.Primary(v) == v;
  }

  /** Only what is kept of ViewChange messages differs between s and t, and r's messages up to v are processed. */
  ghost predicate Chained(s: Replica, t: Replica, r: nat, v: nat) {
    && t == s.(lastUI := t.lastUI, vcs := t.vcs)
    && Get(t.lastUI, r) == Max(Get(s.lastUI, r), v)
    && (forall x :: x != r ==> Get(t.lastUI, x) == Get(s.lastUI, x))
  }

  lemma VcProcessed(c: Config, s: Replica, i: nat, r: nat, v: nat, order: Order) returns (t: Replica)
    requires Five(c) && i < 5 && r < 5 && 1 <= v && !s.exec.stopped && Quiet(s.vcs, i, r, v)
    requires Get(s.lastUI, r) >= v - 1
    ensures ProcessCertified(c, s, i, VcMsg(r, v), order) == Applied(t, true) && Chained(s, t, r, v)
    ensures t.vcs == if Get(s.lastUI, r) >= v then s.vcs else VcCollect(s.vcs, c, i, Vc(r, v))
  {
    QuietNoCert(c, s.vcs, i, r, v);
    t := ProcessCertified(c, s, i, VcMsg(r, v), order).s;
  }

  /** What the collector looks like after a chain. */
  ghost predicate Shelved(s: VcCollector, t: VcCollector, i: nat, v: nat, isNew: bool) {
    && t.view >= s.view && (isNew ==> t.view >= v)
    && (i != 4 && s.own.None? ==> t.own.None?)
    && (i == 4 && s.view > v ==> t == s)
    && (i == 4 && s.own.None? && s.others == [] && s.view <= v ==> t.own.None? && t.others == [] && t.view <= v)
  }

  /** What comes of handling the log of the ViewChange message in state s. */
  ghost predicate LogYields(c: Config, s: Replica, i: nat, r: nat, v: nat, order: Order, t: Replica)
    requires c.Ok()
  {
    if v <= 1 then t == s else Yields(c, s, i, r, v - 1, order, t)
  }

  ghost predicate Yields(c: Config, s: Replica, i: nat, r: nat, v: nat, order: Order, t: Replica)
    requires c.Ok()
  {
    Handle(c, s, i, VcMsg(r, v), order) == Handled(t, true)
  }

  /** Requests first, then the log, then the message itself. */
  lemma VcHandled(c: Config, s: Replica, s1: Replica, s2: Replica, i: nat, r: nat, v: nat, order: Order, t: Replica)
    requires Five(c) && r < 5 && v >= 1
    requires HandleRequests(c, s, i, Requests3(v)) == Handled(s1, true) && LogYields(c, s1, i, r, v, order, s2)
    requires ProcessCertified(c, s2, i, VcMsg(r, v), order) == Applied(t, true)
    ensures Yields(c, s, i, r, v, order, t)
  {
    VcValid(c, r, v);
    LogHandled(c, s1, i, r, v, order);
    assert VcMsg(r, v).vc.vcCert == Requests3(v);
  }

  /** The same when the requests change nothing. */
  lemma VcPassed(c: Config, s: Replica, s2: Replica, i: nat, r: nat, v: nat, order: Order) returns (t: Replica)
    requires Five(c) && i < 5 && r < 5 && v >= 1 && LogYields(c, s, i, r, v, order, s2)
    requires s.rvcs.view == s.expected && !s.exec.stopped && v <= s.expected
    requires !s2.exec.stopped && Quiet(s2.vcs, i, r, v) && Get(s2.lastUI, r) >= v - 1
    ensures Yields(c, s, i, r, v, order, t) && Chained(s2, t, r, v)
    ensures t.vcs == if Get(s2.lastUI, r) >= v then s2.vcs else VcCollect(s2.vcs, c, i, Vc(r, v))
  {
    RequestsHandled(c, s, i, v);
    t := VcProcessed(c, s2, i, r, v, order);
    VcHandled(c, s, s, s2, i, r, v, order, t);
  }

  lemma ChainedOn(c: Config, s: Replica, t: Replica, t': Replica, i: nat, r: nat, v: nat)
    requires Five(c) && i < 5 && r < 5 && v >= 1 && Quiet(t.vcs, i, r, v)
    requires Chained(s, t, r, v - 1) && Shelved(s.vcs, t.vcs, i, v - 1, Get(s.lastUI, r) < v - 1)
    requires Chained(t, t', r, v)
    requires t'.vcs == if Get(t.lastUI, r) >= v then t.vcs else VcCollect(t.vcs, c, i, Vc(r, v))
    ensures Chained(s, t', r, v) && Shelved(s.vcs, t'.vcs, i, v, Get(s.lastUI, r) < v)
  {
    QuietNoCert(c, t.vcs, i, r, v);
  }

  lemma {:induction false} Chain(c: Config, s: Replica, i: nat, r: nat, v: nat, order: Order) returns (t: Replica)
    requires Five(c) && i < 5 && r < 5 && 1 <= v <= s.expected && s.rvcs.view == s.expected && !s.exec.stopped
    requires Quiet(s.vcs, i, r, v)
    ensures Yields(c, s, i, r, v, order, t)
    ensures Chained(s, t, r, v) && Shelved(s.vcs, t.vcs, i, v, Get(s.lastUI, r) < v)
    decreases v
  {
    var t1 := s;
    if v >= 2 {
      t1 := Chain(c, s, i, r, v - 1, order);
    }
    t := VcPassed(c, s, t1, i, r, v, order);
    ChainedOn(c, s, t1, t, i, r, v);
  }

  /** Handling the log of the ViewChange message is handling the one before, if any. */
  lemma LogHandled(c: Config, s: Replica, i: nat, r: nat, v: nat, order: Order)
    requires Five(c) && v >= 1
    ensures HandleFirst(c, s, i, VcMsg(r, v), |Embedded(VcMsg(r, v))|, order)
         == if v == 1 then Handled(s, true) else Handle(c, s, i, VcMsg(r, v - 1), order)
  {
    var m := VcMsg(r, v);
    if v >= 2 {
      assert Embedded(m) == [VcMsg(r, v - 1)];
      assert HandleFirst(c, s, i, m, 0, order) == Handled(s, true);
    }
  }

  /** As after a chain, with the expected view one higher. */
  ghost predicate Climbed(s: Replica, t: Replica, r: nat, v: nat) {
    && AtView(t, s.expected + 1) && t.vcs.own.None?
    && Chained(s.(expected := t.expected, rvcs := t.rvcs, trace := t.trace, log := t.log), t, r, v)
  }

  lemma ClimbedOn(s: Replica, t: Replica, t': Replica, r: nat, v: nat)
    requires v >= 1 && Climbed(s, t, r, v - 1) && Chained(t, t', r, v) && t'.vcs.own.None?
    ensures Climbed(s, t', r, v)
  {
  }

  /** The chain for the next view. */
  lemma ChainNext(c: Config, s: Replica, r: nat, order: Order) returns (t: Replica)
    requires Five(c) && 1 <= r < 5 && s.expected < 4 && AtView(s, s.expected) && s.vcs.own.None?
    ensures HandleRequests(c, s, 0, Requests3(s.expected + 1)) == Handled(Raised(s, 0, s.expected + 1), true)
    ensures LogYields(c, Raised(s, 0, s.expected + 1), 0, r, s.expected + 1, order, t)
    ensures Climbed(s, t, r, s.expected)
  {
    var e := s.expected;
    RequestsHandled(c, s, 0, e + 1);
    t := Raised(s, 0, e + 1);
    if e > 0 {
      t := Chain(c, t, 0, r, e, order);
    }
  }

  lemma ClimbedThen(c: Config, s: Replica, s1: Replica, t1: Replica, r: nat, v: nat, order: Order) returns (t: Replica)
    requires Five(c) && 1 <= r < 5 && 1 <= v <= 4
    requires HandleRequests(c, s, 0, Requests3(v)) == Handled(s1, true) && LogYields(c, s1, 0, r, v, order, t1)
    requires Climbed(s, t1, r, v - 1)
    ensures Yields(c, s, 0, r, v, order, t) && Climbed(s, t, r, v)
  {
    t := VcProcessed(c, t1, 0, r, v, order);
    VcHandled(c, s, s1, t1, 0, r, v, order, t);
    QuietNoCert(c, t1.vcs, 0, r, v);
    ClimbedOn(s, t1, t, r, v);
  }

  /** The idle replica: at a chain for a later view its expected view rises by one. */
  lemma {:induction false} ChainRaises(c: Config, s: Replica, r: nat, v: nat, order: Order) returns (t: Replica)
    requires Five(c) && 1 <= r < 5 && s.expected < v <= 4 && AtView(s, s.expected) && s.vcs.own.None?
    ensures Yields(c, s, 0, r, v, order, t) && Climbed(s, t, r, v)
    decreases v
  {
    if v > s.expected + 1 {
      RequestsHandled(c, s, 0, v);
      var t1 := ChainRaises(c, s, r, v - 1, order);
      t := ClimbedThen(c, s, s, t1, r, v, order);
    } else {
      var t1 := ChainNext(c, s, r, order);
      t := ClimbedThen(c, s, Raised(s, 0, v), t1, r, v, order);
    }
  }

  /** A chain that has been processed before changes nothing, at any replica that expects its view. */
  lemma {:induction false} ChainAgain(c: Config, s: Replica, i: nat, r: nat, v: nat, order: Order)
    requires Five(c) && r < 5 && 1 <= v <= s.expected && s.rvcs.view == s.expected && !s.exec.stopped
    requires Get(s.lastUI, r) >= v
    ensures Yields(c, s, i, r, v, order, s)
    decreases v
  {
    if v >= 2 {
      ChainAgain(c, s, i, r, v - 1, order);
    }
    RequestsHandled(c, s, i, v);
    VcHandled(c, s, s, s, i, r, v, order, s);
  }

  // ---------- The NewView message ----------

  function Cert3(v: nat): seq<ViewChange> {
    [Vc(4, v), Vc(1, v), Vc(2, v)]
  }

  /** For v = 4, which replica 4 leads. */
  function Nv(v: nat): Message {
    NewView(4, v, Cert3(v), v + 1)
  }

  lemma NvValid(c: Config, v: nat)
    requires Five(c) && v == 4
    ensures Validate(c, Nv(v)) == Accept
  {
    assert Cert3(v)[0].replicaID == 4;
    assert NewViewCertOk(c.ViewChangeCertSize(), 4, v, Cert3(v));
    assert c.IsPrimary(v, 4);
  }

  /** The ViewChange messages for v of the listed replicas. */
  function Vcs(rs: seq<nat>, v: nat): seq<ViewChange> {
    if rs == [] then [] else Vcs(rs[..|rs| - 1], v) + [Vc(rs[|rs| - 1], v)]
  }

  lemma {:induction false} NothingSelected(rs: seq<nat>, v: nat)
    requires v >= 1
    ensures MaxLog(Vcs(rs, v)) == [] && Leading(Vcs(rs, v)) == if v == 1 then [] else Vcs(rs, v - 1)
  {
    if rs != [] {
      var k := |rs| - 1;
      var l, vc := Vcs(rs[..k], v), Vc(rs[k], v);
      NothingSelected(rs[..k], v);
      NothingIn(rs[k], v);
      assert (l + [vc])[..|l|] == l && (l + [vc])[|l|] == vc;
    }
  }

  ghost predicate Empty(cert: seq<ViewChange>) {
    Extract(cert) == Some([])
  }

  lemma ExtractBelow(cert: seq<ViewChange>, below: seq<ViewChange>)
    requires MaxLog(cert) == [] && Leading(cert) == below && (below == [] || Empty(below))
    ensures Empty(cert)
  {
  }

  /** Nothing was proposed in any of the views below. */
  lemma {:induction false} NothingExtracted(rs: seq<nat>, v: nat)
    requires v >= 1
    ensures Empty(Vcs(rs, v))
    decreases v
  {
    NothingSelected(rs, v);
    if v == 1 {
      ExtractBelow(Vcs(rs, v), []);
    } else {
      NothingExtracted(rs, v - 1);
      ExtractBelow(Vcs(rs, v), Vcs(rs, v - 1));
    }
  }

  lemma NothingProposed(v: nat)
    requires v >= 1
    ensures Extract(Cert3(v)) == Some([])
  {
    var rs := [4, 1, 2];
    assert rs[..2] == [4, 1] && rs[..2][..1] == [4] && [4][..0] == [];
    assert Vcs([4], v) == [Vc(4, v)];
    assert Vcs([4, 1], v) == [Vc(4, v), Vc(1, v)] by { assert [4, 1][..1] == [4]; }
    assert Vcs(rs, v) == Cert3(v);
    NothingExtracted(rs, v);
  }

  lemma NothingIn(r: nat, v: nat)
    requires v >= 1
    ensures Strip(Vc(r, v).log) == []
    ensures v == 1 ==> Vc(r, v).log == []
    ensures v >= 2 ==> Vc(r, v).log == [VcMsg(r, v - 1)]
  {
  }

  /** The three chains embedded in the NewView message, one after the other, then the message itself. */
  lemma NvHandled(c: Config, s: Replica, s1: Replica, s2: Replica, s3: Replica, i: nat, v: nat, order: Order)
    requires Five(c) && v == 4
    requires Yields(c, s, i, 4, v, order, s1) && Yields(c, s1, i, 1, v, order, s2) && Yields(c, s2, i, 2, v, order, s3)
    ensures var a := ProcessCertified(c, s3, i, Nv(v), order);
            Handle(c, s, i, Nv(v), order) == Handled(a.s, a.ok)
  {
    var m := Nv(v);
    NvValid(c, v);
    assert Embedded(m) == [VcMsg(4, v), VcMsg(1, v), VcMsg(2, v)];
    assert HandleFirst(c, s, i, m, 0, order) == Handled(s, true);
    assert HandleFirst(c, s, i, m, 1, order) == Handled(s1, true);
    assert HandleFirst(c, s, i, m, 2, order) == Handled(s2, true);
    assert HandleFirst(c, s, i, m, 3, order) == Handled(s3, true);
  }

  lemma NvAgain(c: Config, s: Replica, i: nat, v: nat, order: Order)
    requires Five(c) && v == 4 <= s.expected && s.rvcs.view == s.expected && !s.exec.stopped
    requires Get(s.lastUI, 4) >= 5 && Get(s.lastUI, 1) >= 4 && Get(s.lastUI, 2) >= 4
    ensures Handle(c, s, i, Nv(v), order) == Handled(s, true)
  {
    ChainAgain(c, s, i, 4, v, order);
    ChainAgain(c, s, i, 1, v, order);
    ChainAgain(c, s, i, 2, v, order);
    NvHandled(c, s, s, s, s, i, v, order);
  }

  // ---------- Votes in view 4 ----------

  /** The commitment of replica r to the NewView message, or to the Prepare message that follows it. */
  function Ballot(r: nat, first: bool): Commitment {
    if first then Commitment(r, true, 4, 5, 5) else Commitment(r, false, 4, 6, 6)
  }

  /** How many of the two have been accepted from replica r. */
  ghost predicate Accepted(a: Acceptor, r: nat, k: nat) {
    match k
    case 0 => Get(a.views, r) == 0
    case 1 => Get(a.views, r) == 4 && Get(a.primaryCVs, r) == 5 && Get(a.replicaCVs, r) == 5
    case _ => Get(a.views, r) == 4 && Get(a.primaryCVs, r) == 6 && Get(a.replicaCVs, r) == 6
  }

  /** The two numbers of the counter for view 4. */
  ghost predicate Counts(t: Counter, a: nat, b: nat) {
    Commitments.Enter(t, 4) == Counter(4, [a, b]) && t.lastView <= 4
  }

  lemma Slot(a: nat, b: nat, x: nat)
    ensures FirstBelow([a, b], x) == if a < x then 0 else if b < x then 1 else 2
  {
    assert [a, b][1..] == [b] && [b][1..] == [];
  }

  lemma Cast(t: Tally, r: nat, first: bool, a: nat, b: nat)
    requires Counts(t.cnt, a, b) && Accepted(t.acc, r, if first then 0 else 1)
    ensures var e, x := Ballot(r, first), if first then 5 else 6;
            var t' := Collect(t, e);
            && Acceptable(t.acc, e) && (Done(t, e) <==> a >= x && b >= x)
            && Accepted(t'.acc, r, if first then 1 else 2)
            && Counts(t'.cnt, if a < x then x else a, if a >= x && b < x then x else b)
  {
    var x := if first then 5 else 6;
    Slot(a, b, x);
    assert [a, b][0 := x] == [x, b] && [a, b][1 := x] == [a, x];
  }

  lemma OthersStay(t: Tally, r: nat, first: bool, x: nat, k: nat)
    requires x != r && Accepted(t.acc, x, k)
    ensures Accepted(Collect(t, Ballot(r, first)).acc, x, k)
  {
  }

  // ---------- Commit messages ----------

  function Prop(q: Request, v: nat): Message {
    Message.Prepare(4, v, q, v + 2)
  }

  lemma CommitHandled(c: Config, s: Replica, s1: Replica, i: nat, m: Message, order: Order)
    requires c.Ok() && m.Commit? && Validate(c, m) == Accept
    requires Handle(c, s, i, m.proposal, order) == Handled(s1, true)
    ensures var a := ProcessCertified(c, s1, i, m, order); Handle(c, s, i, m, order) == Handled(a.s, a.ok)
  {
    assert Embedded(m) == [m.proposal];
    assert HandleFirst(c, s, i, m, 0, order) == Handled(s, true);
    assert HandleFirst(c, s, i, m, 1, order) == Handled(s1, true);
  }

  lemma CommitProcessed(c: Config, s: Replica, i: nat, m: Message, order: Order)
    requires c.Ok() && m.Commit? && m.proposal.IsProposal() && MessageView(m) == s.current == s.expected
    requires !s.exec.stopped && m.cv == Get(s.lastUI, m.replicaID) + 1 && CollectCommitment(s, m).ok
    ensures var a := CollectCommitment(s, m).s;
            ProcessCertified(c, s, i, m, order) == Applied(a.(lastUI := a.lastUI[m.replicaID := m.cv]), true)
  {
  }

  /** The Prepare message handled again, its request being captured. */
  lemma PropAgain(c: Config, s: Replica, i: nat, q: Request, v: nat, order: Order)
    requires Five(c) && v == 4 && !s.exec.stopped && Get(s.lastUI, 4) >= 6 && !CaptureIsNew(s.exec.clients, q)
    ensures Handle(c, s, i, Prop(q, v), order) == Handled(s, true)
  {
    assert c.IsPrimary(v, 4);
  }

  /** A replica in view 4 that has processed both proposals takes another replica's Commit message. */
  ghost predicate Seated(s: Replica, q: Request) {
    && s.current == s.expected == 4 && s.rvcs.view == 4 && !s.exec.stopped && !CaptureIsNew(s.exec.clients, q)
    && Get(s.lastUI, 4) >= 6 && Get(s.lastUI, 1) >= 4 && Get(s.lastUI, 2) >= 4
  }

  function Vote(r: nat, first: bool, q: Request, v: nat): Message {
    if first then Commit(r, Nv(v), v + 1) else Commit(r, Prop(q, v), v + 2)
  }

  lemma VoteEffect(s: Replica, r: nat, first: bool, q: Request, v: nat)
    requires v == 4 && Acceptable(s.tally.acc, Ballot(r, first))
    ensures CommitmentOf(Vote(r, first, q, v)) == Ballot(r, first)
    ensures var e, a := Ballot(r, first), CollectCommitment(s, Vote(r, first, q, v));
            && a.ok
            && a.s == s.(tally := Collect(s.tally, e), exec := a.s.exec, doneView := a.s.doneView, doneCV := a.s.doneCV)
            && a.s.exec == if Done(s.tally, e) && !first then Execute(s.exec, q) else s.exec
  {
    NothingProposed(v);
    CollectFrame(s, Vote(r, first, q, v));
  }

  lemma CommitAgain(c: Config, s: Replica, i: nat, r: nat, p: Message, cv: nat, order: Order)
    requires c.Ok() && r < c.n && r != p.Sender() && p.IsProposal() && cv >= 1
    requires Handle(c, s, i, p, order) == Handled(s, true)
    ensures var a := ProcessCertified(c, s, i, Commit(r, p, cv), order);
            Handle(c, s, i, Commit(r, p, cv), order) == Handled(a.s, a.ok)
  {
    CommitHandled(c, s, s, i, Commit(r, p, cv), order);
  }

  lemma VoteHandled(c: Config, s: Replica, i: nat, r: nat, first: bool, q: Request, v: nat, order: Order)
    requires Five(c) && v == 4 && Seated(s, q) && 1 <= r < 4
    ensures var a := ProcessCertified(c, s, i, Vote(r, first, q, v), order);
            Handle(c, s, i, Vote(r, first, q, v), order) == Handled(a.s, a.ok)
  {
    if first {
      NvAgain(c, s, i, v, order);
      CommitAgain(c, s, i, r, Nv(v), v + 1, order);
    } else {
      PropAgain(c, s, i, q, v, order);
      CommitAgain(c, s, i, r, Prop(q, v), v + 2, order);
    }
  }

  /** A vote is counted, and what is done with it is executed. */
  lemma VoteTaken(c: Config, s: Replica, i: nat, r: nat, first: bool, q: Request, v: nat, order: Order)
    returns (t: Replica)
    requires Five(c) && v == 4 && Seated(s, q) && 1 <= r < 4
    requires Get(s.lastUI, r) == (if first then 4 else 5) && Acceptable(s.tally.acc, Ballot(r, first))
    ensures Handle(c, s, i, Vote(r, first, q, v), order) == Handled(t, true)
    ensures t == s.(tally := Collect(s.tally, Ballot(r, first)), exec := t.exec, doneView := t.doneView,
                    doneCV := t.doneCV, lastUI := s.lastUI[r := if first then 5 else 6])
    ensures t.exec == if Done(s.tally, Ballot(r, first)) && !first then Execute(s.exec, q) else s.exec
  {
    var m := Vote(r, first, q, v);
    VoteHandled(c, s, i, r, first, q, v, order);
    VoteEffect(s, r, first, q, v);
    CommitProcessed(c, s, i, m, order);
    var a := CollectCommitment(s, m).s;
    t := a.(lastUI := a.lastUI[r := m.cv]);
  }

  // ---------- The idle replica ----------

  /** The idle replica has passed over both proposals and has then taken k of the others' six votes: those for
      the NewView message of replicas 1, 2 and 3, then those for the Prepare message. */
  ghost predicate Lagging(s: Replica, q: Request, k: nat) {
    && Seated(s, q) && s.exec == Exec(CaptureReq(NO_CLIENTS, q), [], false)
    && VotesOf(s, 1, k) && VotesOf(s, 2, k) && VotesOf(s, 3, k)
    && Counts(s.tally.cnt, CountA(k), CountB(k))
  }

  ghost predicate VotesOf(s: Replica, r: nat, k: nat) {
    var n := (if k >= r then 1 else 0) + (if k >= r + 3 then 1 else 0);
    Accepted(s.tally.acc, r, n) && Get(s.lastUI, r) == 4 + n
  }

  /** The replica whose vote is number k. */
  function Voter(k: nat): nat {
    k % 3 + 1
  }

  function CountA(k: nat): nat {
    if k == 0 then 0 else if k <= 3 then 5 else 6
  }

  function CountB(k: nat): nat {
    if k <= 1 then 0 else if k <= 4 then 5 else 6
  }

  lemma LaggingVote(c: Config, s: Replica, q: Request, k: nat, v: nat, order: Order) returns (t: Replica)
    requires Five(c) && v == 4 && q.seqNo > 0 && k < 6 && Lagging(s, q, k)
    ensures Handle(c, s, 0, Vote(Voter(k), k < 3, q, v), order) == Handled(t, true)
    ensures if k < 5 then Lagging(t, q, k + 1) else t.exec.stopped && t.exec.delivered == []
  {
    var r, first := Voter(k), k < 3;
    assert VotesOf(s, r, k) && r < 4;
    Cast(s.tally, r, first, CountA(k), CountB(k));
    t := VoteTaken(c, s, 0, r, first, q, v, order);
    if k < 5 {
      LaggingOn(s, t, q, k);
    }
  }

  lemma LaggingOn(s: Replica, t: Replica, q: Request, k: nat)
    requires k < 5 && Lagging(s, q, k) && t.exec == s.exec
    requires t == s.(tally := Collect(s.tally, Ballot(Voter(k), k < 3)), exec := t.exec, doneView := t.doneView,
                     doneCV := t.doneCV, lastUI := s.lastUI[Voter(k) := if k < 3 then 5 else 6])
    ensures Lagging(t, q, k + 1)
  {
    var r := Voter(k);
    assert VotesOf(s, r, k);
    Cast(s.tally, r, k < 3, CountA(k), CountB(k));
    if r != 1 { OtherVotes(s, t, k, 1); }
    if r != 2 { OtherVotes(s, t, k, 2); }
    if r != 3 { OtherVotes(s, t, k, 3); }
  }

  lemma OtherVotes(s: Replica, t: Replica, k: nat, x: nat)
    requires k < 6 && 1 <= x <= 3 && x != Voter(k) && VotesOf(s, x, k)
    requires t.tally == Collect(s.tally, Ballot(Voter(k), k < 3))
    requires t.lastUI == s.lastUI[Voter(k) := if k < 3 then 5 else 6]
    ensures VotesOf(t, x, k + 1)
  {
    OthersStay(s.tally, Voter(k), k < 3, x, (if k >= x then 1 else 0) + (if k >= x + 3 then 1 else 0));
  }

  /** The three ViewChange messages raise the expected view from 0 to 3. */
  lemma RaisedThrice(c: Config, v: nat, order: Order) returns (t: Replica)
    requires Five(c) && v == 4
    ensures var a := ProcessCertified(c, t, 0, Nv(v), order);
            Handle(c, Initial(c), 0, Nv(v), order) == Handled(a.s, a.ok)
    ensures t.current == 0 && AtView(t, 3) && t.tally == Fresh(3) && t.exec == Exec(NO_CLIENTS, [], false)
    ensures t.vcs.own.None? && Get(t.lastUI, 3) == 0
    ensures Get(t.lastUI, 4) == Get(t.lastUI, 1) == Get(t.lastUI, 2) == 4
  {
    var s := Initial(c);
    var s1 := ChainRaises(c, s, 4, v, order);
    var s2 := ChainRaises(c, s1, 1, v, order);
    t := ChainRaises(c, s2, 2, v, order);
    NvHandled(c, s, s1, s2, t, 0, v, order);
  }

  lemma EntersAt(c: Config, s: Replica, v: nat, order: Order)
    requires Five(c) && v == 4 && s.current == 0 && s.expected == 3 && !s.exec.stopped && Get(s.lastUI, 4) == 4
    ensures ProcessCertified(c, s, 0, Nv(v), order) == Applied(EnterView(s, v).(lastUI := s.lastUI[4 := 5]), true)
  {
    assert ProcessViewMessage(c, s, 0, Nv(v), order) == Applied(EnterView(s, v), true);
  }

  /** Entering view 4 while expecting view 3. */
  lemma EntersEarly(c: Config, v: nat, order: Order) returns (t: Replica)
    requires Five(c) && v == 4
    ensures Handle(c, Initial(c), 0, Nv(v), order) == Handled(t, true)
    ensures t.current == 4 && AtView(t, 3) && t.ahead && t.tally == Fresh(3) && t.exec == Exec(NO_CLIENTS, [], false)
    ensures t.vcs.own.None? && Get(t.lastUI, 4) == 5 && Get(t.lastUI, 3) == 0
    ensures Get(t.lastUI, 1) == Get(t.lastUI, 2) == 4
  {
    var s := RaisedThrice(c, v, order);
    EntersAt(c, s, v, order);
    t := EnterView(s, v).(lastUI := s.lastUI[4 := 5]);
  }

  lemma PassesOver(c: Config, s: Replica, q: Request, v: nat, order: Order) returns (t: Replica)
    requires Five(c) && v == 4 && q.seqNo > 0
    requires s.current == 4 && AtView(s, 3) && s.exec == Exec(NO_CLIENTS, [], false) && Get(s.lastUI, 4) == 5
    ensures Handle(c, s, 0, Prop(q, v), order) == Handled(t, true)
    ensures t == s.(exec := Exec(CaptureReq(NO_CLIENTS, q), [], false), lastUI := s.lastUI[4 := 6])
  {
    assert c.IsPrimary(v, 4);
    var s1 := s.(exec := Exec(CaptureReq(NO_CLIENTS, q), [], false));
    assert ProcessRequest(c, s, 0, q) == s1;
    assert ProcessViewMessage(c, s1, 0, Prop(q, v), order) == Applied(s1, true);
    t := s1.(lastUI := s1.lastUI[4 := 6]);
  }

  lemma CatchesUp(c: Config, s: Replica, q: Request, v: nat, order: Order) returns (t: Replica)
    requires Five(c) && v == 4 && q.seqNo > 0 && s.current == 4 && AtView(s, 3) && s.vcs.own.None?
    requires s.tally == Fresh(3) && s.exec == Exec(CaptureReq(NO_CLIENTS, q), [], false)
    requires Get(s.lastUI, 4) == 6 && Get(s.lastUI, 1) == Get(s.lastUI, 2) == 4 && Get(s.lastUI, 3) == 0
    ensures Handle(c, s, 0, VcMsg(3, v), order) == Handled(t, true) && Lagging(t, q, 0)
  {
    t := ChainRaises(c, s, 3, v, order);
    assert Zeros(2) == [0, 0];
  }

  // ---------- The replicas that move through the views ----------

  function VcTrace(r: nat, v: nat): seq<Message> {
    if v == 0 then [] else VcTrace(r, v - 1) + [VcMsg(r, v)]
  }

  /** Replica r has taken the requests for views 1 to v and nothing else. */
  function Waiting(c: Config, r: nat, v: nat): Replica
    requires c.Ok()
  {
    Initial(c).(expected := v, rvcs := RvcCollector(v, [], {}), trace := VcTrace(r, v),
                log := if v == 0 then [] else [Certified(VcMsg(r, v))])
  }

  lemma {:induction false} VcTraceLength(r: nat, v: nat)
    ensures |VcTrace(r, v)| == v
  {
    if v > 0 {
      VcTraceLength(r, v - 1);
    }
  }

  lemma WaitingLog(c: Config, r: nat, v: nat)
    requires c.Ok()
    ensures CertifiedIn(Waiting(c, r, v).log) == if v == 0 then [] else [VcMsg(r, v)]
  {
    if v > 0 {
      assert [Certified(VcMsg(r, v))][..0] == [];
    }
  }

  lemma WaitingNext(c: Config, r: nat, v: nat)
    requires Five(c) && v >= 1
    ensures Raised(Waiting(c, r, v - 1), r, v) == Waiting(c, r, v) && AtView(Waiting(c, r, v - 1), v - 1)
  {
    VcTraceLength(r, v - 1);
    WaitingLog(c, r, v - 1);
    var log := if v == 1 then [] else [VcMsg(r, v - 1)];
    assert ViewChangeMsg(ViewChange(r, v, log, Requests3(v), v)) == VcMsg(r, v);
  }

  // ---------- The leader ----------

  /** Replica 4 has processed its own ViewChange message for view 4 and n more of those it will use. */
  ghost predicate Leading4(c: Config, s: Replica, v: nat, n: nat)
    requires c.Ok()
  {
    && v == 4 && n <= 1
    && s == Waiting(c, 4, v).(lastUI := s.lastUI, vcs := s.vcs)
    && s.vcs == VcCollector(4, Some(Vc(4, v)), if n == 0 then [] else [Vc(1, v)])
    && Get(s.lastUI, 4) == 4 && Get(s.lastUI, 1) == (if n == 0 then 0 else 4) && Get(s.lastUI, 2) == 0
  }

  /** The chain below a ViewChange message for view 4, at the leader. */
  lemma LeaderBelow(c: Config, s: Replica, r: nat, v: nat, order: Order) returns (t: Replica)
    requires Five(c) && v == 4 && r < 5 && s.expected == 4 && s.rvcs.view == 4 && !s.exec.stopped
    requires Get(s.lastUI, r) == 0
    ensures HandleRequests(c, s, 4, Requests3(v)) == Handled(s, true) && LogYields(c, s, 4, r, v, order, t)
    ensures Chained(s, t, r, v - 1) && Shelved(s.vcs, t.vcs, 4, v - 1, true)
  {
    RequestsHandled(c, s, 4, v);
    t := Chain(c, s, 4, r, v - 1, order);
  }

  lemma LeaderPuts(c: Config, s: Replica, r: nat, v: nat, order: Order, t: Replica)
    requires Five(c) && v == 4 && r < 5 && s.expected == 4 && !s.exec.stopped && Get(s.lastUI, r) == 3
    requires VcCert(s.vcs, c, 4, Vc(r, v)).None?
    requires t == s.(vcs := VcCollect(s.vcs, c, 4, Vc(r, v)), lastUI := s.lastUI[r := v])
    ensures ProcessCertified(c, s, 4, VcMsg(r, v), order) == Applied(t, true)
  {
    assert ProcessViewChange(c, s, 4, Vc(r, v)) == s.(vcs := VcCollect(s.vcs, c, 4, Vc(r, v)));
  }

  lemma OwnPut(c: Config, s: VcCollector, v: nat)
    requires Five(c) && v == 4 && s.view <= 3
    ensures VcCert(s, c, 4, Vc(4, v)).None? && VcCollect(s, c, 4, Vc(4, v)) == VcCollector(4, Some(Vc(4, v)), [])
  {
    assert c.IsPrimary(v, 4);
  }

  lemma LeaderOwn(c: Config, v: nat, order: Order) returns (t: Replica)
    requires Five(c) && v == 4
    ensures Handle(c, Waiting(c, 4, v), 4, VcMsg(4, v), order) == Handled(t, true) && Leading4(c, t, v, 0)
  {
    var s := Waiting(c, 4, v);
    var s1 := LeaderBelow(c, s, 4, v, order);
    OwnPut(c, s1.vcs, v);
    assert Get(s1.lastUI, 1) == Get(s1.lastUI, 2) == 0;
    t := s1.(vcs := VcCollector(4, Some(Vc(4, v)), []), lastUI := s1.lastUI[4 := v]);
    LeaderPuts(c, s1, 4, v, order, t);
    VcHandled(c, s, s, s1, 4, 4, v, order, t);
  }

  lemma LeaderOther(c: Config, s: Replica, v: nat, order: Order) returns (t: Replica)
    requires Five(c) && Leading4(c, s, v, 0)
    ensures Handle(c, s, 4, VcMsg(1, v), order) == Handled(t, true) && Leading4(c, t, v, 1)
  {
    var s1 := LeaderBelow(c, s, 1, v, order);
    assert c.IsPrimary(v, 4);
    t := s1.(vcs := VcCollector(4, Some(Vc(4, v)), [Vc(1, v)]), lastUI := s1.lastUI[1 := v]);
    assert [] + [Vc(1, v)] == [Vc(1, v)];
    LeaderPuts(c, s1, 1, v, order, t);
    VcHandled(c, s, s, s1, 4, 1, v, order, t);
  }

  /** The NewView message has been sent and not been processed. */
  ghost predicate Announced(c: Config, s: Replica, v: nat)
    requires c.Ok()
  {
    && s == Waiting(c, 4, v).(lastUI := s.lastUI, vcs := s.vcs, trace := VcTrace(4, v) + [Nv(v)], log := s.log)
    && Get(s.lastUI, 4) == Get(s.lastUI, 1) == Get(s.lastUI, 2) == 4
  }

  lemma LeaderLast(c: Config, s: Replica, v: nat, order: Order) returns (t: Replica)
    requires Five(c) && Leading4(c, s, v, 1)
    ensures Handle(c, s, 4, VcMsg(2, v), order) == Handled(t, true) && Announced(c, t, v)
  {
    var s1 := LeaderBelow(c, s, 2, v, order);
    var s2 := LeaderSends(c, s1, v);
    t := s2.(lastUI := s2.lastUI[2 := v]);
    assert ProcessCertified(c, s1, 4, VcMsg(2, v), order) == Applied(t, true);
    VcHandled(c, s, s, s1, 4, 2, v, order, t);
  }

  lemma LeaderSends(c: Config, s: Replica, v: nat) returns (t: Replica)
    requires Five(c) && v == 4 && s == Waiting(c, 4, v).(lastUI := s.lastUI, vcs := s.vcs)
    requires s.vcs == VcCollector(4, Some(Vc(4, v)), [Vc(1, v)])
    ensures ProcessViewChange(c, s, 4, Vc(2, v)) == t
    ensures t == s.(vcs := t.vcs, trace := VcTrace(4, v) + [Nv(v)], log := t.log)
  {
    assert c.IsPrimary(v, 4);
    assert [Vc(4, v)] + ([Vc(1, v)] + [Vc(2, v)]) == Cert3(v);
    assert VcCert(s.vcs, c, 4, Vc(2, v)) == Some(Cert3(v));
    VcTraceLength(4, v);
    t := ProcessViewChange(c, s, 4, Vc(2, v));
  }

  // ---------- Entering view 4 ----------

  /** A replica expecting view 4 enters it: nothing to prepare, one vote. */
  lemma Enters(c: Config, s: Replica, i: nat, v: nat, order: Order) returns (t: Replica)
    requires Five(c) && v == 4 && 1 <= i < 5 && s.current == 0 && s.expected == 4 && Get(s.lastUI, 4) == 4
    requires s.tally == Fresh(3) && s.exec == Exec(NO_CLIENTS, [], false)
    requires order(map[]) == []
    ensures ProcessCertified(c, s, i, Nv(v), order) == Applied(t, true)
    ensures var t1 := EnterView(s, v).(tally := Collect(Fresh(3), Ballot(4, true)), lastUI := s.lastUI[4 := 5]);
            t == if i == 4 then t1 else Emit(t1, Commit(i, Nv(v), 0))
  {
    var e := EnterView(s, v);
    NothingProposed(v);
    assert Zeros(2) == [0, 0];
    Cast(s.tally, 4, true, 0, 0);
    var a := e.(tally := Collect(Fresh(3), Ballot(4, true)));
    assert PrepareAll(e.exec, []) == e.exec;
    assert CommitmentOf(Nv(v)) == Ballot(4, true);
    assert CollectCommitment(e, Nv(v)) == Applied(a, true);
    NvApplied(c, e, a, i, v, order);
    t := (if i == 4 then a else Emit(a, Commit(i, Nv(v), 0))).(lastUI := s.lastUI[4 := 5]);
    ViewMessageIs(c, s, i, v, order, if i == 4 then a else Emit(a, Commit(i, Nv(v), 0)));
  }

  lemma NvApplied(c: Config, e: Replica, a: Replica, i: nat, v: nat, order: Order)
    requires Five(c) && v == 4 && Extract(Cert3(v)) == Some([]) && PrepareAll(e.exec, []) == e.exec
    requires CollectCommitment(e, Nv(v)) == Applied(a, true) && !e.exec.stopped && !a.exec.stopped
    requires order(a.exec.clients.pending) == []
    ensures ApplyNewView(c, e, i, Nv(v), order) == Applied(if i == 4 then a else Emit(a, Commit(i, Nv(v), 0)), true)
  {
    assert e.(exec := e.exec) == e;
    assert EmitPrepares(a, i, v, []) == a;
  }

  lemma ViewMessageIs(c: Config, s: Replica, i: nat, v: nat, order: Order, t: Replica)
    requires Five(c) && v == 4 && s.current == 0 && s.expected == 4 && Get(s.lastUI, 4) == 4 && !s.exec.stopped
    requires ApplyNewView(c, EnterView(s, v), i, Nv(v), order) == Applied(t, true)
    ensures ProcessCertified(c, s, i, Nv(v), order) == Applied(t.(lastUI := t.lastUI[4 := 5]), true)
  {
  }

  lemma LeaderEnters(c: Config, s: Replica, v: nat, order: Order) returns (t: Replica)
    requires Five(c) && v == 4 && Announced(c, s, v) && order(map[]) == []
    ensures Handle(c, s, 4, Nv(v), order) == Handled(t, true)
    ensures t.trace == VcTrace(4, v) + [Nv(v)] && t.current == t.expected == 4
    ensures t.exec == Exec(NO_CLIENTS, [], false)
  {
    ChainAgain(c, s, 4, 4, v, order);
    ChainAgain(c, s, 4, 1, v, order);
    ChainAgain(c, s, 4, 2, v, order);
    NvHandled(c, s, s, s, s, 4, v, order);
    t := Enters(c, s, 4, v, order);
  }

  lemma LeaderProposes(c: Config, s: Replica, q: Request, v: nat)
    requires Five(c) && v == 4 && q.seqNo > 0 && s.trace == VcTrace(4, v) + [Nv(v)] && s.current == s.expected == 4
    requires s.exec == Exec(NO_CLIENTS, [], false)
    ensures ProcessRequest(c, s, 4, q).trace == VcTrace(4, v) + [Nv(v)] + [Prop(q, v)]
  {
    VcTraceLength(4, v);
    assert c.IsPrimary(v, 4);
  }

  /** Replica b has entered view 4 and committed to the NewView message. */
  ghost predicate Joined(s: Replica, b: nat, v: nat, q: Request) {
    && s.trace == VcTrace(b, v) + [Vote(b, true, q, v)] && s.current == s.expected == 4 && s.rvcs.view == 4
    && s.exec == Exec(NO_CLIENTS, [], false) && s.tally == Collect(Fresh(3), Ballot(4, true))
    && Get(s.lastUI, 4) == 5 && Get(s.lastUI, 1) == Get(s.lastUI, 2) == 4
  }

  /** The three chains embedded in the NewView message, at replica b. */
  lemma BackupBelow(c: Config, b: nat, v: nat, order: Order) returns (t: Replica)
    requires Five(c) && v == 4 && 1 <= b < 4
    ensures var a := ProcessCertified(c, t, b, Nv(v), order);
            Handle(c, Waiting(c, b, v), b, Nv(v), order) == Handled(a.s, a.ok)
    ensures t == Waiting(c, b, v).(lastUI := t.lastUI, vcs := t.vcs)
    ensures Get(t.lastUI, 4) == Get(t.lastUI, 1) == Get(t.lastUI, 2) == 4
  {
    var s := Waiting(c, b, v);
    var s1 := Chain(c, s, b, 4, v, order);
    assert Get(s1.lastUI, 1) == Get(s1.lastUI, 2) == 0;
    var s2 := Chain(c, s1, b, 1, v, order);
    assert Get(s2.lastUI, 2) == 0;
    t := Chain(c, s2, b, 2, v, order);
    NvHandled(c, s, s1, s2, t, b, v, order);
  }

  lemma BackupJoins(c: Config, b: nat, v: nat, q: Request, order: Order) returns (t: Replica)
    requires Five(c) && v == 4 && 1 <= b < 4 && order(map[]) == []
    ensures Handle(c, Waiting(c, b, v), b, Nv(v), order) == Handled(t, true) && Joined(t, b, v, q)
  {
    var s := BackupBelow(c, b, v, order);
    t := Enters(c, s, b, v, order);
    VcTraceLength(b, v);
    var t1 := EnterView(s, v).(tally := Collect(Fresh(3), Ballot(4, true)), lastUI := s.lastUI[4 := 5]);
    VoteEmitted(t1, b, v, q);
  }

  lemma VoteEmitted(s: Replica, b: nat, v: nat, q: Request)
    requires |s.trace| == v
    ensures var t := Emit(s, Commit(b, Nv(v), 0));
            t == s.(trace := s.trace + [Vote(b, true, q, v)], log := t.log)
  {
  }

  /** Replica b has committed to the Prepare message as well, its request prepared. */
  ghost predicate Committed(s: Replica, b: nat, v: nat, q: Request) {
    && s.trace == VcTrace(b, v) + [Vote(b, true, q, v)] + [Vote(b, false, q, v)] && Seated(s, q)
    && s.exec == Exec(PrepareReq(CaptureReq(NO_CLIENTS, q), q), [], false)
    && Counts(s.tally.cnt, 6, 0) && Accepted(s.tally.acc, 1, 0) && Accepted(s.tally.acc, 2, 0)
    && Get(s.lastUI, 1) == Get(s.lastUI, 2) == 4
  }

  lemma BackupVotes(q: Request)
    requires q.seqNo > 0
    ensures var t1 := Collect(Fresh(3), Ballot(4, true));
            var t2 := Collect(t1, Ballot(4, false));
            && Acceptable(t1.acc, Ballot(4, false)) && !Done(t1, Ballot(4, false))
            && Counts(t2.cnt, 6, 0) && Accepted(t2.acc, 1, 0) && Accepted(t2.acc, 2, 0)
  {
    var t1 := Collect(Fresh(3), Ballot(4, true));
    assert Zeros(2) == [0, 0];
    Cast(Fresh(3), 4, true, 0, 0);
    Cast(t1, 4, false, 5, 0);
    OthersStay(Fresh(3), 4, true, 1, 0);
    OthersStay(Fresh(3), 4, true, 2, 0);
    OthersStay(t1, 4, false, 1, 0);
    OthersStay(t1, 4, false, 2, 0);
  }

  /** The backup with the Prepare message applied, before its Commit. */
  function Applied2(s: Replica, q: Request): Replica {
    s.(exec := Exec(PrepareReq(CaptureReq(NO_CLIENTS, q), q), [], false), tally := Collect(s.tally, Ballot(4, false)))
  }

  lemma BackupPrepares(c: Config, s: Replica, b: nat, v: nat, q: Request, order: Order)
    requires Five(c) && v == 4 && 1 <= b < 4 && q.seqNo > 0 && Joined(s, b, v, q)
    ensures Handle(c, s, b, Prop(q, v), order)
         == Handled(Emit(Applied2(s, q), Commit(b, Prop(q, v), 0)).(lastUI := s.lastUI[4 := 6]), true)
  {
    var m, k := Prop(q, v), CaptureReq(NO_CLIENTS, q);
    var s1 := s.(exec := Exec(k, [], false));
    assert c.IsPrimary(v, 4) && !c.IsPrimary(v, b);
    assert ProcessRequest(c, s, b, q) == s1;
    var s2 := s1.(exec := Exec(PrepareReq(k, q), [], false));
    BackupVotes(q);
    assert CommitmentOf(m) == Ballot(4, false);
    Progress.CollectedNotDone(s2, m);
    Progress.BackupApplies(s1, b, m, Applied2(s, q));
    Progress.PrepareInView(c, s1, b, m, order, Emit(Applied2(s, q), Commit(b, m, 0)));
  }

  lemma BackupCommits(c: Config, s: Replica, b: nat, v: nat, q: Request, order: Order) returns (t: Replica)
    requires Five(c) && v == 4 && 1 <= b < 4 && q.seqNo > 0 && Joined(s, b, v, q)
    ensures Handle(c, s, b, Prop(q, v), order) == Handled(t, true) && Committed(t, b, v, q)
  {
    t := Emit(Applied2(s, q), Commit(b, Prop(q, v), 0)).(lastUI := s.lastUI[4 := 6]);
    BackupPrepares(c, s, b, v, q, order);
    BackupVotes(q);
    VcTraceLength(b, v);
  }

  /** Replica 1 takes its own two votes ... */
  lemma OwnVotes(c: Config, s: Replica, q: Request, v: nat, order: Order) returns (t1: Replica, t2: Replica)
    requires Five(c) && v == 4 && q.seqNo > 0 && Committed(s, 1, v, q)
    ensures Handle(c, s, 1, Vote(1, true, q, v), order) == Handled(t1, true)
    ensures Handle(c, t1, 1, Vote(1, false, q, v), order) == Handled(t2, true)
    ensures t1.trace == t2.trace == s.trace && Tallied(t2, q)
    ensures Accepted(t2.tally.acc, 2, 0) && Get(t2.lastUI, 2) == 4
  {
    Cast(s.tally, 1, true, 6, 0);
    OthersStay(s.tally, 1, true, 2, 0);
    t1 := VoteTaken(c, s, 1, 1, true, q, v, order);
    Cast(t1.tally, 1, false, 6, 5);
    OthersStay(t1.tally, 1, false, 2, 0);
    t2 := VoteTaken(c, t1, 1, 1, false, q, v, order);
  }

  /** Replica 1 with its own votes taken. */
  ghost predicate Tallied(s: Replica, q: Request) {
    && Seated(s, q) && s.exec == Exec(PrepareReq(CaptureReq(NO_CLIENTS, q), q), [], false)
    && Counts(s.tally.cnt, 6, 6)
  }

  /** ... and those of replica 2, ... */
  lemma FirstOfTwo(c: Config, s: Replica, q: Request, v: nat, order: Order) returns (t: Replica)
    requires Five(c) && v == 4 && q.seqNo > 0 && Tallied(s, q)
    requires Accepted(s.tally.acc, 2, 0) && Get(s.lastUI, 2) == 4
    ensures Handle(c, s, 1, Vote(2, true, q, v), order) == Handled(t, true)
    ensures Tallied(t, q) && t.trace == s.trace && Get(t.lastUI, 2) == 5 && Accepted(t.tally.acc, 2, 1)
  {
    Cast(s.tally, 2, true, 6, 6);
    t := VoteTaken(c, s, 1, 2, true, q, v, order);
  }

  /** ... and delivers the request. */
  lemma SecondOfTwo(c: Config, s: Replica, q: Request, v: nat, order: Order) returns (t: Replica)
    requires Five(c) && v == 4 && q.seqNo > 0 && Tallied(s, q)
    requires Accepted(s.tally.acc, 2, 1) && Get(s.lastUI, 2) == 5
    ensures Handle(c, s, 1, Vote(2, false, q, v), order) == Handled(t, true)
    ensures t.trace == s.trace && t.exec.delivered == [q] && !t.exec.stopped && t.current == 4
  {
    Cast(s.tally, 2, false, 6, 6);
    t := VoteTaken(c, s, 1, 2, false, q, v, order);
    assert RetireEffect(s.exec.clients, q) == New;
  }

  // ---------- The run ----------

  lemma Feed(c: Config, inputs: seq<Input>, a: Input)
    requires c.Ok() && a.at < |AfterInputs(c, inputs)|
    ensures AfterInputs(c, inputs + [a])
         == AfterInputs(c, inputs)[a.at := Take(c, AfterInputs(c, inputs), a)]
  {
    assert (inputs + [a])[..|inputs|] == inputs;
  }

  /** One more message, handled as given. */
  lemma FeedMessage(c: Config, inputs: seq<Input>, i: nat, m: Message, order: Order, t: Replica)
    returns (inputs': seq<Input>)
    requires c.Ok() && i < |AfterInputs(c, inputs)| && Sent(AfterInputs(c, inputs), m)
    requires Handle(c, AfterInputs(c, inputs)[i], i, m, order) == Handled(t, true)
    ensures AfterInputs(c, inputs') == AfterInputs(c, inputs)[i := t] && inputs <= inputs'
  {
    inputs' := inputs + [MessageIn(i, m, order)];
    Feed(c, inputs, MessageIn(i, m, order));
  }

  lemma StillSent(g: State, g': State, i: nat, m: Message)
    requires i < |g| == |g'| && g' == g[i := g'[i]] && m.Sender() != i && Sent(g, m)
    ensures Sent(g', m)
  {
  }

  lemma FeedRequest(c: Config, inputs: seq<Input>, r: nat, m: ReqViewChange) returns (inputs': seq<Input>)
    requires Five(c) && r < |AfterInputs(c, inputs)| && m.newView >= 1 && m.replicaID < 5
    ensures AfterInputs(c, inputs')
         == AfterInputs(c, inputs)[r := ProcessReqViewChange(c, AfterInputs(c, inputs)[r], r, m)]
  {
    inputs' := inputs + [ReqViewChangeIn(r, m)];
    Feed(c, inputs, ReqViewChangeIn(r, m));
    OneRequest(c, AfterInputs(c, inputs)[r], r, m);
  }

  lemma FeedView(c: Config, inputs: seq<Input>, r: nat, v: nat) returns (inputs': seq<Input>)
    requires Five(c) && v >= 1 && r < |AfterInputs(c, inputs)| && AfterInputs(c, inputs)[r] == Waiting(c, r, v - 1)
    ensures AfterInputs(c, inputs') == AfterInputs(c, inputs)[r := Waiting(c, r, v)]
  {
    WaitingNext(c, r, v);
    ThreeRequests(c, Waiting(c, r, v - 1), r, v);
    inputs' := FeedRequest(c, inputs, r, ReqViewChange(1, v));
    inputs' := FeedRequest(c, inputs', r, ReqViewChange(2, v));
    inputs' := FeedRequest(c, inputs', r, ReqViewChange(3, v));
  }

  lemma {:induction false} FeedRequests(c: Config, inputs: seq<Input>, r: nat, v: nat) returns (inputs': seq<Input>)
    requires Five(c) && r < |AfterInputs(c, inputs)| && AfterInputs(c, inputs)[r] == Waiting(c, r, 0)
    ensures AfterInputs(c, inputs') == AfterInputs(c, inputs)[r := Waiting(c, r, v)]
    decreases v
  {
    if v == 0 {
      inputs' := inputs;
    } else {
      inputs' := FeedRequests(c, inputs, r, v - 1);
      inputs' := FeedView(c, inputs', r, v);
    }
  }

  /** Replica 0 is idle, the others are as given. */
  ghost predicate Group(c: Config, g: State, s1: Replica, s2: Replica, s3: Replica, s4: Replica)
    requires c.Ok()
  {
    |g| == 5 && g[0] == Initial(c) && g[1] == s1 && g[2] == s2 && g[3] == s3 && g[4] == s4
  }

  lemma WaitingZero(c: Config, r: nat)
    requires c.Ok()
    ensures Waiting(c, r, 0) == Initial(c)
  {
  }

  lemma StartGroup(c: Config)
    requires Five(c)
    ensures Group(c, AfterInputs(c, []), Initial(c), Initial(c), Initial(c), Initial(c))
  {
  }

  /** Replica r of the group takes the requests for all views up to v. */
  lemma GroupWaits(c: Config, inputs: seq<Input>, r: nat, v: nat) returns (inputs': seq<Input>)
    requires Five(c) && 1 <= r < |AfterInputs(c, inputs)| && AfterInputs(c, inputs)[r] == Initial(c)
    ensures AfterInputs(c, inputs') == AfterInputs(c, inputs)[r := Waiting(c, r, v)]
  {
    WaitingZero(c, r);
    inputs' := FeedRequests(c, inputs, r, v);
  }

  lemma AllWait(c: Config, v: nat) returns (inputs: seq<Input>)
    requires Five(c) && v == 4
    ensures Group(c, AfterInputs(c, inputs), Waiting(c, 1, v), Waiting(c, 2, v), Waiting(c, 3, v), Waiting(c, 4, v))
  {
    StartGroup(c);
    inputs := GroupWaits(c, [], 1, v);
    inputs := GroupWaits(c, inputs, 2, v);
    inputs := GroupWaits(c, inputs, 3, v);
    inputs := GroupWaits(c, inputs, 4, v);
  }

  lemma LastSent(r: nat, v: nat)
    requires v >= 1
    ensures VcMsg(r, v) in VcTrace(r, v)
  {
    assert VcTrace(r, v)[|VcTrace(r, v - 1)|] == VcMsg(r, v);
  }

  /** Replica 4 gathers its certificate, sends and enters NewView, and proposes the request. */
  lemma LeaderLeads(c: Config, q: Request, v: nat, order: Order) returns (inputs: seq<Input>, s4: Replica)
    requires Five(c) && v == 4 && q.seqNo > 0 && order(map[]) == []
    ensures Group(c, AfterInputs(c, inputs), Waiting(c, 1, v), Waiting(c, 2, v), Waiting(c, 3, v), s4)
    ensures s4.trace == VcTrace(4, v) + [Nv(v)] + [Prop(q, v)]
  {
    inputs := AllWait(c, v);
    LastSent(1, v);
    LastSent(2, v);
    LastSent(4, v);
    var a := LeaderOwn(c, v, order);
    inputs := FeedMessage(c, inputs, 4, VcMsg(4, v), order, a);
    var b := LeaderOther(c, a, v, order);
    inputs := FeedMessage(c, inputs, 4, VcMsg(1, v), order, b);
    var d := LeaderLast(c, b, v, order);
    inputs := FeedMessage(c, inputs, 4, VcMsg(2, v), order, d);
    var e := LeaderEnters(c, d, v, order);
    inputs := FeedMessage(c, inputs, 4, Nv(v), order, e);
    Feed(c, inputs, RequestIn(4, q));
    LeaderProposes(c, e, q, v);
    inputs := inputs + [RequestIn(4, q)];
    s4 := ProcessRequest(c, e, 4, q);
  }

  /** Replica b enters view 4 and commits to both proposals. */
  lemma BackupFollows(c: Config, inputs: seq<Input>, b: nat, q: Request, v: nat, order: Order)
    returns (inputs': seq<Input>, t: Replica)
    requires Five(c) && v == 4 && 1 <= b < 4 && q.seqNo > 0 && order(map[]) == []
    requires var g := AfterInputs(c, inputs);
             |g| == 5 && g[b] == Waiting(c, b, v) && g[4].trace == VcTrace(4, v) + [Nv(v)] + [Prop(q, v)]
    ensures AfterInputs(c, inputs') == AfterInputs(c, inputs)[b := t] && Committed(t, b, v, q)
  {
    var g := AfterInputs(c, inputs);
    ProposalsSent(g, q, v);
    var a := BackupJoins(c, b, v, q, order);
    inputs' := FeedMessage(c, inputs, b, Nv(v), order, a);
    ProposalsSent(AfterInputs(c, inputs'), q, v);
    t := BackupCommits(c, a, b, v, q, order);
    inputs' := FeedMessage(c, inputs', b, Prop(q, v), order, t);
  }

  lemma ProposalsSent(g: State, q: Request, v: nat)
    requires |g| == 5 && g[4].trace == VcTrace(4, v) + [Nv(v)] + [Prop(q, v)]
    ensures Sent(g, Nv(v)) && Sent(g, Prop(q, v))
  {
    var t, k := g[4].trace, |VcTrace(4, v)|;
    assert t[k] == Nv(v) && t[k + 1] == Prop(q, v);
  }

  lemma VotesSent(g: State, b: nat, s: Replica, q: Request, v: nat)
    requires 1 <= b < |g| && g[b] == s && v >= 1
    requires s.trace == VcTrace(b, v) + [Vote(b, true, q, v)] + [Vote(b, false, q, v)]
    ensures Sent(g, Vote(b, true, q, v)) && Sent(g, Vote(b, false, q, v)) && Sent(g, VcMsg(b, v))
  {
    var t, k := s.trace, |VcTrace(b, v)|;
    assert t[k] == Vote(b, true, q, v) && t[k + 1] == Vote(b, false, q, v);
    LastSent(b, v);
    var j :| 0 <= j < k && VcTrace(b, v)[j] == VcMsg(b, v);
    assert t[j] == VcMsg(b, v);
  }

  /** All of replicas 1 to 3 have committed to both proposals, and replica 0 is idle still. */
  ghost predicate Ready0(c: Config, g: State, q: Request, v: nat)
    requires c.Ok()
  {
    && |g| == 5 && g[0] == Initial(c) && g[4].trace == VcTrace(4, v) + [Nv(v)] + [Prop(q, v)]
    && Committed(g[1], 1, v, q) && Committed(g[2], 2, v, q) && Committed(g[3], 3, v, q)
  }

  lemma AllFollow(c: Config, q: Request, v: nat, order: Order) returns (inputs: seq<Input>)
    requires Five(c) && v == 4 && q.seqNo > 0 && order(map[]) == []
    ensures Ready0(c, AfterInputs(c, inputs), q, v)
  {
    var a, s1, s2, s3: Replica;
    inputs, a := LeaderLeads(c, q, v, order);
    inputs, s1 := BackupFollows(c, inputs, 1, q, v, order);
    inputs, s2 := BackupFollows(c, inputs, 2, q, v, order);
    inputs, s3 := BackupFollows(c, inputs, 3, q, v, order);
  }

  /** Replica 1 has taken its own votes. */
  lemma OwnVotesTaken(c: Config, q: Request, v: nat, order: Order) returns (inputs: seq<Input>, s: Replica)
    requires Five(c) && v == 4 && q.seqNo > 0 && order(map[]) == []
    ensures |AfterInputs(c, inputs)| == 5 && AfterInputs(c, inputs)[1] == s
    ensures Tallied(s, q) && Accepted(s.tally.acc, 2, 0) && Get(s.lastUI, 2) == 4
    ensures Sent(AfterInputs(c, inputs), Vote(2, true, q, v)) && Sent(AfterInputs(c, inputs), Vote(2, false, q, v))
  {
    inputs := AllFollow(c, q, v, order);
    var g := AfterInputs(c, inputs);
    var t1: Replica;
    t1, s := OwnVotes(c, g[1], q, v, order);
    VotesSent(g, 1, g[1], q, v);
    VotesSent(g, 2, g[2], q, v);
    inputs := FeedMessage(c, inputs, 1, Vote(1, true, q, v), order, t1);
    inputs := FeedMessage(c, inputs, 1, Vote(1, false, q, v), order, s);
  }

  lemma DeliversRun(c: Config, q: Request, v: nat, order: Order) returns (inputs: seq<Input>)
    requires Five(c) && v == 4 && q.seqNo > 0 && order(map[]) == []
    ensures |AfterInputs(c, inputs)| == 5
    ensures var s := AfterInputs(c, inputs)[1]; s.current == 4 && s.exec.delivered == [q] && !s.exec.stopped
  {
    var s: Replica;
    inputs, s := OwnVotesTaken(c, q, v, order);
    var g := AfterInputs(c, inputs);
    var t3 := FirstOfTwo(c, s, q, v, order);
    inputs := FeedMessage(c, inputs, 1, Vote(2, true, q, v), order, t3);
    StillSent(g, AfterInputs(c, inputs), 1, Vote(2, false, q, v));
    var t4 := SecondOfTwo(c, t3, q, v, order);
    inputs := FeedMessage(c, inputs, 1, Vote(2, false, q, v), order, t4);
  }

  const FIVE := Config(5, 2)

  /** Non-vacuity beyond view 0: after four view changes and a NewView message, replica 1 delivers. */
  lemma DeliversInView4(q: Request, order: Order) returns (inputs: seq<Input>)
    requires q.seqNo > 0 && order(map[]) == []
    ensures |AfterInputs(FIVE, inputs)| == 5
    ensures var s := AfterInputs(FIVE, inputs)[1]; s.current == 4 && s.exec.delivered == [q] && !s.exec.stopped
  {
    inputs := DeliversRun(FIVE, q, 4, order);
  }

  /** The idle replica enters view 4 early ... */
  lemma IdleEnters(c: Config, inputs: seq<Input>, q: Request, v: nat, order: Order)
    returns (early: seq<Input>, a: Replica)
    requires Five(c) && v == 4 && q.seqNo > 0 && Ready0(c, AfterInputs(c, inputs), q, v)
    ensures AfterInputs(c, early) == AfterInputs(c, inputs)[0 := a] && Skipped(a)
    ensures Sent(AfterInputs(c, early), Prop(q, v)) && Sent(AfterInputs(c, early), VcMsg(3, v))
    ensures AllVotesSent(AfterInputs(c, early), q, v)
  {
    var g := AfterInputs(c, inputs);
    AllVotes(c, g, q, v);
    ProposalsSent(g, q, v);
    VotesSent(g, 3, g[3], q, v);
    a := EntersEarly(c, v, order);
    early := FeedMessage(c, inputs, 0, Nv(v), order, a);
    StillSent(g, AfterInputs(c, early), 0, Prop(q, v));
    StillSent(g, AfterInputs(c, early), 0, VcMsg(3, v));
    VotesStillSent(g, AfterInputs(c, early), q, v);
  }

  ghost predicate Skipped(s: Replica) {
    && s.current == 4 && AtView(s, 3) && s.ahead && s.tally == Fresh(3) && s.exec == Exec(NO_CLIENTS, [], false)
    && s.vcs.own.None? && Get(s.lastUI, 4) == 5 && Get(s.lastUI, 1) == Get(s.lastUI, 2) == 4
    && Get(s.lastUI, 3) == 0
  }

  /** ... passes over the Prepare message and catches up. */
  lemma IdleLags(c: Config, early: seq<Input>, q: Request, v: nat, order: Order)
    returns (inputs: seq<Input>, t: Replica)
    requires Five(c) && v == 4 && q.seqNo > 0 && |AfterInputs(c, early)| == 5 && Skipped(AfterInputs(c, early)[0])
    requires Sent(AfterInputs(c, early), Prop(q, v)) && Sent(AfterInputs(c, early), VcMsg(3, v))
    ensures AfterInputs(c, inputs) == AfterInputs(c, early)[0 := t] && Lagging(t, q, 0) && early <= inputs
  {
    var b := PassesOver(c, AfterInputs(c, early)[0], q, v, order);
    var later := FeedMessage(c, early, 0, Prop(q, v), order, b);
    StillSent(AfterInputs(c, early), AfterInputs(c, later), 0, VcMsg(3, v));
    t := CatchesUp(c, b, q, v, order);
    inputs := FeedMessage(c, later, 0, VcMsg(3, v), order, t);
  }

  /** The idle replica takes the first k of the six votes. */
  lemma {:induction false} IdleVotes(c: Config, inputs: seq<Input>, q: Request, v: nat, k: nat, order: Order)
    returns (inputs': seq<Input>, t: Replica)
    requires Five(c) && v == 4 && q.seqNo > 0 && k <= 6
    requires var g := AfterInputs(c, inputs); |g| == 5 && Lagging(g[0], q, 0) && AllVotesSent(g, q, v)
    ensures AfterInputs(c, inputs') == AfterInputs(c, inputs)[0 := t] && inputs <= inputs'
    ensures if k <= 5 then Lagging(t, q, k) else t.exec.stopped && t.exec.delivered == []
    decreases k
  {
    if k == 0 {
      inputs', t := inputs, AfterInputs(c, inputs)[0];
    } else {
      var s: Replica;
      var before: seq<Input>;
      before, s := IdleVotes(c, inputs, q, v, k - 1, order);
      var r := Voter(k - 1);
      VoteSent(AfterInputs(c, inputs), AfterInputs(c, before), r, k - 1 < 3, q, v);
      t := LaggingVote(c, s, q, k - 1, v, order);
      inputs' := FeedMessage(c, before, 0, Vote(r, k - 1 < 3, q, v), order, t);
    }
  }

  ghost predicate AllVotesSent(g: State, q: Request, v: nat) {
    && Sent(g, Vote(1, true, q, v)) && Sent(g, Vote(2, true, q, v)) && Sent(g, Vote(3, true, q, v))
    && Sent(g, Vote(1, false, q, v)) && Sent(g, Vote(2, false, q, v)) && Sent(g, Vote(3, false, q, v))
  }

  lemma VoteSent(g: State, g': State, r: nat, first: bool, q: Request, v: nat)
    requires AllVotesSent(g, q, v) && 1 <= r < 4 && |g| == |g'| == 5 && g' == g[0 := g'[0]]
    ensures Sent(g', Vote(r, first, q, v))
  {
  }

  lemma AllVotes(c: Config, g: State, q: Request, v: nat)
    requires Five(c) && v == 4 && Ready0(c, g, q, v)
    ensures AllVotesSent(g, q, v)
  {
    VotesSent(g, 1, g[1], q, v);
    VotesSent(g, 2, g[2], q, v);
    VotesSent(g, 3, g[3], q, v);
  }

  /** Replica 0 has entered view 4 early, passed over the Prepare message, and caught up. */
  lemma Overtakes(c: Config, q: Request, v: nat, order: Order) returns (inputs: seq<Input>, early: seq<Input>)
    requires Five(c) && v == 4 && q.seqNo > 0 && order(map[]) == []
    ensures early <= inputs && |AfterInputs(c, early)| == |AfterInputs(c, inputs)| == 5
    ensures Skipped(AfterInputs(c, early)[0])
    ensures Lagging(AfterInputs(c, inputs)[0], q, 0) && AllVotesSent(AfterInputs(c, inputs), q, v)
  {
    inputs := AllFollow(c, q, v, order);
    var g, t := AfterInputs(c, inputs), Initial(c);
    early, t := IdleEnters(c, inputs, q, v, order);
    inputs, t := IdleLags(c, early, q, v, order);
    VotesStillSent(AfterInputs(c, early), AfterInputs(c, inputs), q, v);
  }

  lemma StopsRun(c: Config, q: Request, v: nat, order: Order) returns (inputs: seq<Input>, early: seq<Input>)
    requires Five(c) && v == 4 && q.seqNo > 0 && order(map[]) == []
    ensures early <= inputs && |AfterInputs(c, early)| == |AfterInputs(c, inputs)| == 5
    ensures Skipped(AfterInputs(c, early)[0])
    ensures var s := AfterInputs(c, inputs)[0]; s.exec.stopped && s.exec.delivered == []
  {
    var t: Replica;
    inputs, early := Overtakes(c, q, v, order);
    inputs, t := IdleVotes(c, inputs, q, v, 6, order);
  }

  /** A replica can stop: there is a handled run in which replica 0 enters view 4 before expecting it, and
      later panics retiring a request it has not prepared, with nothing delivered. */
  lemma ReplicaStops(q: Request, order: Order) returns (inputs: seq<Input>, early: seq<Input>)
    requires q.seqNo > 0 && order(map[]) == []
    ensures early <= inputs && |AfterInputs(FIVE, early)| == |AfterInputs(FIVE, inputs)| == 5
    ensures var s := AfterInputs(FIVE, early)[0]; s.current == 4 && s.expected == 3 && !s.exec.stopped
    ensures var s := AfterInputs(FIVE, inputs)[0]; s.exec.stopped && s.exec.delivered == []
  {
    inputs, early := StopsRun(FIVE, q, 4, order);
  }

  lemma VotesStillSent(g: State, g': State, q: Request, v: nat)
    requires AllVotesSent(g, q, v) && |g| == |g'| == 5 && g' == g[0 := g'[0]]
    ensures AllVotesSent(g', q, v)
  {
  }
}
