/** Every critical section of a replica keeps its invariant. */
module Processing {
  import opened Messages
  import opened Extraction
  import opened Validation
  import opened Commitments
  import opened Requests
  import opened Execution
  import opened Collectors
  import opened Replica
  import opened Evidence
  import opened Growth
  import opened Invariants
  import opened Emission
  import opened Collecting

  /** The step from s to s' keeps the invariant and only extends the replica's trace. */
  ghost predicate Kept(c: Config, ts: Traces, s: Replica, s': Replica, i: nat)
    requires i < |ts|
  {
    s.trace <= s'.trace && Good(c, With(ts, i, s'), s', i)
  }

  lemma Assemble(c: Config, ts: Traces, s: Replica, s': Replica, i: nat)
    requires i < c.n == |ts| && s.trace <= s'.trace && Evident(c, With(ts, i, s'))
    requires TraceInv(c, s', i) && CoreInv(c, With(ts, i, s'), s', i)
    requires !s'.exec.stopped ==> OwnInv(c, With(ts, i, s'), s', i)
    ensures Kept(c, ts, s, s', i)
  {
  }

  lemma SameTrace(ts: Traces, i: nat, s': Replica)
    requires i < |ts| && s'.trace == ts[i]
    ensures With(ts, i, s') == ts
  {
  }

  /** A step that certifies nothing and leaves the tally alone. */
  lemma QuietStep(c: Config, ts: Traces, s: Replica, s': Replica, i: nat)
    requires Good(c, ts, s, i) && CoreSame(s, s')
    requires s'.trace == s.trace && CertifiedIn(s'.log) == CertifiedIn(s.log) && s'.expected == s.expected
    requires s'.rvcs.view == s.rvcs.view && RvcOk(s'.rvcs)
    requires Retired(s'.exec) && (!s'.exec.stopped ==> CurrentOk(c, ts, s'))
    ensures Kept(c, ts, s, s', i)
  {
    SameTrace(ts, i, s');
    TraceIgnores(c, s, s', i);
    CoreIgnores(c, ts, s, s', i);
  }

  // ---------- Timeouts and requests ----------

  lemma TimeoutKeeps(c: Config, ts: Traces, s: Replica, i: nat, newView: nat)
    requires Good(c, ts, s, i)
    ensures Kept(c, ts, s, RequestViewChange(s, i, newView), i)
  {
    var s' := RequestViewChange(s, i, newView);
    if s' == s {
      SameTrace(ts, i, s');
    } else {
      CertifiedAppend(s.log, Requested(ReqViewChange(i, newView)));
      QuietStep(c, ts, s, s', i);
    }
  }

  /** Emitting a commitment of the expected view from a state that is good but for its own commitments. */
  lemma EmitCommitment(c: Config, ts: Traces, s: Replica, i: nat, m: Message)
    requires Evident(c, ts) && i < c.n && ts[i] == s.trace && TraceInv(c, s, i) && Live(c, ts, s, i)
    requires NextCommitment(c, ts, s, i, m)
    ensures var s' := Emit(s, m); var ts' := With(ts, i, s');
            && Evident(c, ts') && Extends(ts, ts') && ts'[i] == s'.trace
            && TraceInv(c, s', i) && Live(c, ts', s', i)
  {
    CommitmentPermitted(c, ts, s, i, m);
    EmitCore(c, ts, s, i, m);
    CommitmentTrace(c, ts, s, i, m);
  }

  lemma CaptureRetired(x: Exec, q: Request)
    requires Retired(x)
    ensures Retired(x.(clients := CaptureReq(x.clients, q)))
  {
    var y := x.(clients := CaptureReq(x.clients, q));
    forall c
      ensures Nums(y.clients, c).retired == LastSeq(y.delivered, c)
    {
      assert Nums(x.clients, c).retired == LastSeq(x.delivered, c);
    }
  }

  lemma RequestKeeps(c: Config, ts: Traces, s: Replica, i: nat, q: Request)
    requires Good(c, ts, s, i)
    ensures Kept(c, ts, s, ProcessRequest(c, s, i, q), i)
  {
    if s.exec.stopped || !CaptureIsNew(s.exec.clients, q) {
      SameTrace(ts, i, s);
    } else {
      var t := s.(exec := s.exec.(clients := CaptureReq(s.exec.clients, q)));
      CaptureRetired(s.exec, q);
      QuietStep(c, ts, s, t, i);
      SameTrace(ts, i, t);
      if s.current == s.expected && c.IsPrimary(s.current, i) {
        EmitCommitment(c, ts, t, i, Message.Prepare(i, s.current, q, 0));
      }
    }
  }

  // ---------- View change requests ----------

  lemma UnprepareRetired(x: Exec)
    requires Retired(x)
    ensures Retired(x.(clients := UnprepareReqs(x.clients)))
  {
    var y := x.(clients := UnprepareReqs(x.clients));
    forall c
      ensures Nums(y.clients, c).retired == LastSeq(y.delivered, c)
    {
      assert Nums(x.clients, c).retired == LastSeq(x.delivered, c);
    }
  }

  lemma ReqViewChangeKeeps(c: Config, ts: Traces, s: Replica, i: nat, m: ReqViewChange)
    requires Good(c, ts, s, i)
    ensures Kept(c, ts, s, ProcessReqViewChange(c, s, i, m), i)
  {
    if s.exec.stopped {
      SameTrace(ts, i, s);
    } else {
      var size := c.ViewChangeCertSize();
      RvcEmitsValid(s.rvcs, size, m);
      var t := s.(rvcs := RvcCollect(s.rvcs, size, m));
      var cert := RvcCert(s.rvcs, size, m);
      var s' := ProcessReqViewChange(c, s, i, m);
      if cert.None? {
        assert s' == t;
        QuietStep(c, ts, s, t, i);
      } else {
        assert s' == StartViewChange(t, i, s.expected + 1, cert.value);
        StartKeeps(c, ts, s, t, i, cert.value);
      }
    }
  }

  lemma StartKeeps(c: Config, ts: Traces, s0: Replica, s: Replica, i: nat, cert: seq<ReqViewChange>)
    requires Good(c, ts, s0, i) && !s0.exec.stopped && NextViewChange(c, s0, s, cert)
    ensures Kept(c, ts, s0, StartViewChange(s, i, s0.expected + 1, cert), i)
  {
    var s' := StartViewChange(s, i, s0.expected + 1, cert);
    StartTrace(s0, s, i, cert);
    ViewChangeTrace(c, ts, s0, s, i, cert);
    StartCore(c, ts, s0, s, i, cert);
    NothingYet(c, With(ts, i, s'), s0, s', i, ViewChangeMsg(ViewChangeOf(s0, i, cert)));
    Assemble(c, ts, s0, s', i);
  }

  lemma StartCore(c: Config, ts: Traces, s0: Replica, s: Replica, i: nat, cert: seq<ReqViewChange>)
    requires Good(c, ts, s0, i) && !s0.exec.stopped && NextViewChange(c, s0, s, cert)
    ensures var s' := StartViewChange(s, i, s0.expected + 1, cert);
            Evident(c, With(ts, i, s')) && CoreInv(c, With(ts, i, s'), s', i)
  {
    var s' := StartViewChange(s, i, s0.expected + 1, cert);
    var m := ViewChangeMsg(ViewChangeOf(s0, i, cert));
    ViewChangePermitted(c, ts, s0, i, cert);
    EmitCore(c, ts, s0, i, m);
    assert With(ts, i, s') == With(ts, i, Emit(s0, m));
    UnprepareRetired(s0.exec);
    CoreIgnores(c, With(ts, i, s'), Emit(s0, m), s', i);
  }

  lemma NothingYet(c: Config, ts: Traces, s0: Replica, s': Replica, i: nat, m: Message)
    requires c.Ok() && |ts| == c.n && TraceInv(c, s0, i)
    requires s'.expected == s0.expected + 1 && s'.trace == s0.trace + [m] && m.ViewChangeMsg?
    requires s'.tally == s0.tally && Exact(s0.tally) && s0.tally.cnt.lastView <= s0.expected
    ensures OwnInv(c, ts, s', i)
  {
    var p := c.Primary(s'.expected);
    assert QuietOk(s0, s'.expected);
    CommsAppend(s0.trace, m, s'.expected);
    assert Get(s0.tally.acc.views, p) <= s0.tally.cnt.lastView;
  }

  // ---------- ViewChange messages ----------

  /** The ViewChange is genuine and is the sender's next message to process. */
  ghost predicate NextVc(c: Config, ts: Traces, s: Replica, vc: ViewChange)
    requires c.Ok() && |ts| == c.n
  {
    Genuine(c, ts, vc.newView, vc) && vc.newView >= 1 && vc.cv == Get(s.lastUI, vc.replicaID) + 1
  }

  /** A ViewChange processed for the first time is not among the collected ones. */
  lemma VcNotSeen(c: Config, ts: Traces, s: Replica, i: nat, vc: ViewChange)
    requires Evident(c, ts) && CollectorInv(c, ts, s, i) && NextVc(c, ts, s, vc)
    ensures VcUnseen(s.vcs, vc)
  {
    if s.vcs.view == vc.newView {
      forall k | 0 <= k < |s.vcs.others|
        ensures s.vcs.others[k].replicaID != vc.replicaID
      {
        assert MemberOk(c, ts, s, s.vcs.others[k]);
        assert UniqueOk(ts, vc.replicaID, s.vcs.others[k], vc);
      }
    }
  }

  /** The replica with the collector and the last processed counter moved on. */
  function Collected(c: Config, s: Replica, i: nat, vc: ViewChange): Replica
    requires c.Ok()
  {
    s.(vcs := VcCollect(s.vcs, c, i, vc), lastUI := s.lastUI[vc.replicaID := Get(s.lastUI, vc.replicaID) + 1])
  }

  /** The collection including the message, all of it genuine. */
  lemma PutGenuine(c: Config, ts: Traces, s: Replica, i: nat, vc: ViewChange)
    requires Evident(c, ts) && CollectorInv(c, ts, s, i) && NextVc(c, ts, s, vc) && vc.newView >= s.vcs.view
    ensures var t := VcPut(VcEnter(s.vcs, vc.newView), i, vc);
            var s' := s.(vcs := t, lastUI := Collected(c, s, i, vc).lastUI);
            && (t.own.Some? ==> MemberOk(c, ts, s', t.own.value))
            && (forall k :: 0 <= k < |t.others| ==> MemberOk(c, ts, s', t.others[k]))
  {
    var t := VcPut(VcEnter(s.vcs, vc.newView), i, vc);
    var s' := s.(vcs := t, lastUI := Collected(c, s, i, vc).lastUI);
    forall k | 0 <= k < |t.others|
      ensures MemberOk(c, ts, s', t.others[k])
    {
      if k < |s.vcs.others| && s.vcs.view == vc.newView {
        assert MemberOk(c, ts, s, s.vcs.others[k]);
      }
    }
  }

  lemma CollectorStep(c: Config, ts: Traces, s: Replica, i: nat, vc: ViewChange)
    requires Evident(c, ts) && CollectorInv(c, ts, s, i) && NextVc(c, ts, s, vc)
    ensures CollectorInv(c, ts, Collected(c, s, i, vc), i)
  {
    VcNotSeen(c, ts, s, i, vc);
    VcEmitsValid(s.vcs, c, i, vc);
    var s' := Collected(c, s, i, vc);
    if vc.newView < s.vcs.view {
      CollectorIgnores(c, ts, s, s', i);
    } else {
      PutGenuine(c, ts, s, i, vc);
      forall k | 0 <= k < |s'.vcs.others|
        ensures MemberOk(c, ts, s', s'.vcs.others[k])
      {
        if s'.vcs == s.vcs {
          assert MemberOk(c, ts, s, s.vcs.others[k]);
        }
      }
    }
  }

  lemma CertGenuine(c: Config, ts: Traces, s: Replica, i: nat, vc: ViewChange)
    requires Evident(c, ts) && CollectorInv(c, ts, s, i) && NextVc(c, ts, s, vc)
    requires VcCert(s.vcs, c, i, vc).Some?
    ensures GenuineCert(c, ts, vc.newView, VcCert(s.vcs, c, i, vc).value)
  {
    VcNotSeen(c, ts, s, i, vc);
    VcEmitsValid(s.vcs, c, i, vc);
    PutGenuine(c, ts, s, i, vc);
    var t, cert := VcPut(VcEnter(s.vcs, vc.newView), i, vc), VcCert(s.vcs, c, i, vc).value;
    forall k | 0 <= k < |cert|
      ensures Genuine(c, ts, vc.newView, cert[k])
    {
      if k > 0 {
        assert cert[k] == t.others[k - 1];
      }
    }
  }

  lemma CollectedGood(c: Config, ts: Traces, s: Replica, i: nat, vc: ViewChange)
    requires Good(c, ts, s, i) && !s.exec.stopped && NextVc(c, ts, s, vc)
    ensures Good(c, ts, Collected(c, s, i, vc), i)
    ensures Collected(c, s, i, vc).vcs.view >= s.vcs.view
  {
    var s' := Collected(c, s, i, vc);
    VcNotSeen(c, ts, s, i, vc);
    VcEmitsValid(s.vcs, c, i, vc);
    CollectorStep(c, ts, s, i, vc);
    TallyIgnores(c, ts, s, s');
    TraceIgnores(c, s, s', i);
  }

  /** makeViewChangeProcessor, with the last processed counter moved on. */
  lemma ViewChangeKeeps(c: Config, ts: Traces, s: Replica, i: nat, vc: ViewChange)
    requires Good(c, ts, s, i) && !s.exec.stopped && NextVc(c, ts, s, vc)
    ensures var a := ProcessViewChange(c, s, i, vc);
            Kept(c, ts, s, a.(lastUI := Collected(c, s, i, vc).lastUI), i)
  {
    var q, cert := Collected(c, s, i, vc), VcCert(s.vcs, c, i, vc);
    var s' := ProcessViewChange(c, s, i, vc).(lastUI := q.lastUI);
    CollectedGood(c, ts, s, i, vc);
    if cert.None? || vc.newView != s.expected {
      assert s' == q;
      SameTrace(ts, i, q);
    } else {
      VcNotSeen(c, ts, s, i, vc);
      VcEmitsValid(s.vcs, c, i, vc);
      CertGenuine(c, ts, s, i, vc);
      assert s' == Emit(q.(log := []), NewView(i, s.expected, cert.value, 0));
      LeadKeeps(c, ts, s, q, i, cert.value);
    }
  }

  /** Certifying the NewView message. */
  lemma LeadKeeps(c: Config, ts: Traces, s: Replica, q: Replica, i: nat, cert: seq<ViewChange>)
    requires Good(c, ts, s, i) && Good(c, ts, q, i) && !q.exec.stopped
    requires q == s.(vcs := q.vcs, lastUI := q.lastUI)
    requires s.vcs.view <= s.expected < q.vcs.view
    requires NewViewOk(c, i, s.expected, cert) && GenuineCert(c, ts, s.expected, cert)
    ensures Kept(c, ts, s, Emit(q.(log := []), NewView(i, s.expected, cert, 0)), i)
  {
    var m, r := NewView(i, s.expected, cert, 0), q.(log := []);
    LeadTrace(c, ts, s, r, i, cert);
    CoreIgnores(c, ts, q, r, i);
    EmitCore(c, ts, r, i, m);
    EmitTrace(r, m);
    Assemble(c, ts, s, Emit(r, m), i);
  }

  lemma EmitTrace(s: Replica, m: Message)
    ensures s.trace <= Emit(s, m).trace && Emit(s, m).tally == s.tally && Emit(s, m).expected == s.expected
  {
  }

  lemma LeadTrace(c: Config, ts: Traces, s: Replica, r: Replica, i: nat, cert: seq<ViewChange>)
    requires Good(c, ts, s, i) && r == s.(vcs := r.vcs, lastUI := r.lastUI, log := [])
    requires s.vcs.view <= s.expected < r.vcs.view
    requires NewViewOk(c, i, s.expected, cert) && GenuineCert(c, ts, s.expected, cert)
    ensures var m := NewView(i, s.expected, cert, 0);
            Permitted(c, ts, i, Stamp(r, m)) && TraceInv(c, Emit(r, m), i)
  {
    var s0 := s.(lastUI := r.lastUI);
    TraceIgnores(c, s, s0, i);
    NewViewPermitted(c, ts, s0, r, i, cert);
    NewViewTrace(c, ts, s0, r, i, cert);
  }

  // ---------- Messages of the expected view ----------

  /** Collecting a commitment keeps all of the invariant but the count of the replica's own commitments. */
  lemma CollectKeeps(c: Config, ts: Traces, s: Replica, i: nat, m: Message, j: nat)
    requires Good(c, ts, s, i) && !s.exec.stopped && Ready(c, ts, s, m, j)
    ensures var a := CollectCommitment(s, m).s;
            && a.trace == s.trace && a.expected == s.expected && a.current == s.current
            && TraceInv(c, a, i) && CoreInv(c, ts, a, i)
            && a.tally == Collect(s.tally, CommitmentOf(m))
            && (i == c.Primary(s.expected) || m.Sender() != c.Primary(s.expected) ==> OwnInv(c, ts, a, i))
  {
    CollectFields(s, m);
    CollectCore(c, ts, s, i, m, j);
    TraceIgnores(c, s, CollectCommitment(s, m).s, i);
    if i == c.Primary(s.expected) || m.Sender() != c.Primary(s.expected) {
      OwnUnaffected(c, ts, s, CollectCommitment(s, m).s, i, m);
    }
  }

  lemma CollectFields(s: Replica, m: Message)
    requires m.Unwrap().IsProposal()
    ensures var a := CollectCommitment(s, m).s;
            && a.trace == s.trace && a.log == s.log && a.expected == s.expected && a.current == s.current
            && a.vcs == s.vcs && a.rvcs == s.rvcs && a.tally == Collect(s.tally, CommitmentOf(m))
  {
  }

  lemma OwnUnaffected(c: Config, ts: Traces, s: Replica, a: Replica, i: nat, m: Message)
    requires c.Ok() && |ts| == c.n && OwnInv(c, ts, s, i) && m.Unwrap().IsProposal()
    requires a.trace == s.trace && a.expected == s.expected && a.tally == Collect(s.tally, CommitmentOf(m))
    requires i == c.Primary(s.expected) || m.Sender() != c.Primary(s.expected)
    ensures OwnInv(c, ts, a, i)
  {
  }

  /** Proposal and Commit senders. */
  lemma SenderRole(c: Config, ts: Traces, v: nat, m: Message, j: nat)
    requires Evident(c, ts) && PlacedAt(c, ts, m, v, j)
    ensures m.Commit? <==> m.Sender() != c.Primary(v)
  {
    ProposalSender(c, ts, v, j);
  }

  /** makeCommitApplier. */
  lemma CommitKeeps(c: Config, ts: Traces, s: Replica, i: nat, m: Message, j: nat)
    requires Good(c, ts, s, i) && !s.exec.stopped && m.Commit? && PlacedAt(c, ts, m, s.expected, j)
    ensures Kept(c, ts, s, CollectCommitment(s, m).s, i)
  {
    SenderRole(c, ts, s.expected, m, j);
    if CollectCommitment(s, m).ok {
      CollectOnly(c, ts, s, i, m, j);
    } else {
      RefusedUnchanged(c, ts, s, i, m);
    }
  }

  /** A backup that accepts the primary's proposal has committed to exactly the ones before it. */
  lemma NextToCommit(c: Config, ts: Traces, s: Replica, i: nat, m: Message, j: nat)
    requires Good(c, ts, s, i) && !s.exec.stopped && Ready(c, ts, s, m, j)
    requires m.Sender() == c.Primary(s.expected) != i
    ensures |Comms(ts[i], s.expected)| == j
  {
    AsCommitment(c, ts, s.expected, m, j);
    assert Get(s.tally.acc.views, m.Sender()) <= s.tally.cnt.lastView;
  }

  lemma BackupCommits(c: Config, ts: Traces, s: Replica, i: nat, m: Message, j: nat)
    requires Good(c, ts, s, i) && !s.exec.stopped && Ready(c, ts, s, m, j)
    requires m.Sender() == c.Primary(s.expected) != i
    requires !CollectCommitment(s, m).s.exec.stopped
    ensures Kept(c, ts, s, Emit(CollectCommitment(s, m).s, Commit(i, m, 0)), i)
  {
    var a := CollectCommitment(s, m).s;
    CollectKeeps(c, ts, s, i, m, j);
    NextToCommit(c, ts, s, i, m, j);
    SenderRole(c, ts, s.expected, m, j);
    AsCommitment(c, ts, s.expected, m, j);
    BackupEmits(c, ts, s, a, i, m, j);
  }

  /** The Commit that follows, from the state with the proposal collected. */
  lemma BackupEmits(c: Config, ts: Traces, s: Replica, a: Replica, i: nat, m: Message, j: nat)
    requires Evident(c, ts) && i < c.n && ts[i] == s.trace == a.trace && TraceInv(c, a, i) && Live(c, ts, a, i)
    requires m.IsProposal() && m.Sender() == c.Primary(a.expected) != i && PlacedAt(c, ts, m, a.expected, j)
    requires |Comms(a.trace, a.expected)| == j && Get(a.tally.acc.views, c.Primary(a.expected)) == a.expected
    requires Get(a.tally.acc.primaryCVs, c.Primary(a.expected)) == m.Counter()
    ensures Kept(c, ts, s, Emit(a, Commit(i, m, 0)), i)
  {
    var n := Commit(i, m, 0);
    EmitCommitment(c, ts, a, i, n);
    CommittedOneMore(c, ts, With(ts, i, Emit(a, n)), a, i, m, j);
  }

  lemma CommittedOneMore(c: Config, ts: Traces, ts': Traces, a: Replica, i: nat, m: Message, j: nat)
    requires Evident(c, ts) && Extends(ts, ts') && i < c.n && ts[i] == a.trace
    requires m.IsProposal() && PlacedAt(c, ts, m, a.expected, j) && |Comms(a.trace, a.expected)| == j
    requires Get(a.tally.acc.views, c.Primary(a.expected)) == a.expected
    requires Get(a.tally.acc.primaryCVs, c.Primary(a.expected)) == m.Counter()
    ensures OwnInv(c, ts', Emit(a, Commit(i, m, 0)), i)
  {
    var v, n := a.expected, Stamp(a, Commit(i, m, 0));
    assert Rank(c, ts', v, m.Counter()) == j + 1 by {
      AsCommitment(c, ts, v, m, j);
      BaseStays(c, ts, ts', v);
    }
    assert |Comms(a.trace + [n], v)| == j + 1 by { CommsAppend(a.trace, n, v); }
  }

  lemma PrepareRetired(x: Exec, q: Request)
    requires Retired(x)
    ensures Retired(x.(clients := PrepareReq(x.clients, q)))
  {
    var y := x.(clients := PrepareReq(x.clients, q));
    forall c
      ensures Nums(y.clients, c).retired == LastSeq(y.delivered, c)
    {
      assert Nums(x.clients, c).retired == LastSeq(x.delivered, c);
    }
  }

  /** makePrepareApplier. */
  lemma PrepareKeeps(c: Config, ts: Traces, s: Replica, i: nat, m: Message, j: nat)
    requires Good(c, ts, s, i) && !s.exec.stopped && m.Prepare? && PlacedAt(c, ts, m, s.expected, j)
    ensures Kept(c, ts, s, ApplyPrepare(s, i, m).s, i)
  {
    var s' := ApplyPrepare(s, i, m).s;
    match PrepareEffect(s.exec.clients, m.request) {
      case Panics => QuietStep(c, ts, s, s', i);
      case Repeated => SameTrace(ts, i, s);
      case New =>
        var t := s.(exec := s.exec.(clients := PrepareReq(s.exec.clients, m.request)));
        PrepareRetired(s.exec, m.request);
        QuietStep(c, ts, s, t, i);
        SameTrace(ts, i, t);
        ProposalKeeps(c, ts, t, i, m, j);
    }
  }

  /** A commitment from elsewhere, or the primary's proposal at the primary itself. */
  lemma CollectOnly(c: Config, ts: Traces, s: Replica, i: nat, m: Message, j: nat)
    requires Good(c, ts, s, i) && !s.exec.stopped && Ready(c, ts, s, m, j)
    requires i == c.Primary(s.expected) || m.Sender() != c.Primary(s.expected)
    ensures Kept(c, ts, s, CollectCommitment(s, m).s, i)
  {
    var a := CollectCommitment(s, m).s;
    CollectKeeps(c, ts, s, i, m, j);
    SameTrace(ts, i, a);
    Assemble(c, ts, s, a, i);
  }

  /** A proposal whose execution stops the replica. */
  lemma CollectStops(c: Config, ts: Traces, s: Replica, i: nat, m: Message, j: nat)
    requires Good(c, ts, s, i) && !s.exec.stopped && Ready(c, ts, s, m, j)
    requires CollectCommitment(s, m).s.exec.stopped
    ensures Kept(c, ts, s, CollectCommitment(s, m).s, i)
  {
    var a := CollectCommitment(s, m).s;
    CollectKeeps(c, ts, s, i, m, j);
    SameTrace(ts, i, a);
    Assemble(c, ts, s, a, i);
  }

  lemma RefusedUnchanged(c: Config, ts: Traces, s: Replica, i: nat, m: Message)
    requires Good(c, ts, s, i) && m.Unwrap().IsProposal() && !CollectCommitment(s, m).ok
    ensures Kept(c, ts, s, CollectCommitment(s, m).s, i)
  {
    assert CollectCommitment(s, m).s == s;
    SameTrace(ts, i, s);
  }

  /** Collecting the primary's proposal and, at a backup, committing to it. */
  lemma ProposalKeeps(c: Config, ts: Traces, s: Replica, i: nat, m: Message, j: nat)
    requires Good(c, ts, s, i) && !s.exec.stopped && m.IsProposal() && PlacedAt(c, ts, m, s.expected, j)
    ensures var a := CollectCommitment(s, m);
            && (!a.ok || a.s.exec.stopped || i == m.Sender() ==> Kept(c, ts, s, a.s, i) && With(ts, i, a.s) == ts)
            && (a.ok && !a.s.exec.stopped && i != m.Sender() ==> Kept(c, ts, s, Emit(a.s, Commit(i, m, 0)), i))
  {
    var a := CollectCommitment(s, m);
    CollectFields(s, m);
    SameTrace(ts, i, a.s);
    SenderRole(c, ts, s.expected, m, j);
    if !a.ok {
      RefusedUnchanged(c, ts, s, i, m);
    } else if a.s.exec.stopped {
      CollectStops(c, ts, s, i, m, j);
    } else if i == m.Sender() {
      CollectOnly(c, ts, s, i, m, j);
    } else {
      BackupCommits(c, ts, s, i, m, j);
    }
  }

  // ---------- NewView messages ----------

  /** A live leader that has begun its expected view. */
  ghost predicate InCharge(c: Config, ts: Traces, s: Replica, i: nat) {
    Good(c, ts, s, i) && !s.exec.stopped && c.IsPrimary(s.expected, i) && Props(c, ts, s.expected) != []
  }

  lemma ProposeOne(c: Config, ts: Traces, s: Replica, i: nat, q: Request)
    requires InCharge(c, ts, s, i)
    ensures var s' := Emit(s, Message.Prepare(i, s.expected, q, 0));
            InCharge(c, With(ts, i, s'), s', i) && s.trace <= s'.trace
  {
    var m := Message.Prepare(i, s.expected, q, 0);
    EmitCommitment(c, ts, s, i, m);
    PropsGrow(c, ts, With(ts, i, Emit(s, m)), s.expected);
  }

  lemma ProposeNext(c: Config, ts: Traces, t: Replica, i: nat, q: Request)
    requires i < |ts| && InCharge(c, With(ts, i, t), t, i)
    ensures var s' := Emit(t, Message.Prepare(i, t.expected, q, 0));
            InCharge(c, With(ts, i, s'), s', i) && t.trace <= s'.trace
  {
    var s' := Emit(t, Message.Prepare(i, t.expected, q, 0));
    ProposeOne(c, With(ts, i, t), t, i, q);
    assert With(With(ts, i, t), i, s') == With(ts, i, s');
  }

  /** The leader of its expected view, having begun it, may propose any further requests. */
  lemma {:induction false} PrimaryProposes(c: Config, ts: Traces, s: Replica, i: nat, reqs: seq<Request>)
    requires InCharge(c, ts, s, i)
    ensures var s' := EmitPrepares(s, i, s.expected, reqs);
            InCharge(c, With(ts, i, s'), s', i) && s.trace <= s'.trace && s'.expected == s.expected
    decreases |reqs|
  {
    if reqs == [] {
      SameTrace(ts, i, s);
    } else {
      var k := |reqs| - 1;
      PrimaryProposes(c, ts, s, i, reqs[..k]);
      var t, s' := EmitPrepares(s, i, s.expected, reqs[..k]), EmitPrepares(s, i, s.expected, reqs);
      assert s' == Emit(t, Message.Prepare(i, t.expected, reqs[k], 0));
      ProposeNext(c, ts, t, i, reqs[k]);
    }
  }

  lemma PrepareAllRetired(x: Exec, l: seq<Request>)
    requires Retired(x)
    ensures Retired(PrepareAll(x, l))
  {
    PrepareAllKeeps(x, l);
    var y := PrepareAll(x, l);
    forall c
      ensures Nums(y.clients, c).retired == LastSeq(y.delivered, c)
    {
      assert Nums(x.clients, c).retired == LastSeq(x.delivered, c);
    }
  }

  /** makeNewViewApplier, with the current view already advanced. */
  lemma NewViewKeeps(c: Config, ts: Traces, s: Replica, i: nat, m: Message, j: nat, order: Order)
    requires Good(c, ts, s, i) && !s.exec.stopped && m.NewView? && PlacedAt(c, ts, m, s.expected, j)
    ensures Kept(c, ts, s, ApplyNewView(c, s, i, m, order).s, i)
  {
    var s' := ApplyNewView(c, s, i, m, order).s;
    var l := Extract(m.nvCert);
    if l.None? {
      QuietStep(c, ts, s, s', i);
    } else {
      var p := PrepareAll(s.exec, l.value);
      var t := s.(exec := p);
      PrepareAllRetired(s.exec, l.value);
      PrepareAllKeeps(s.exec, l.value);
      QuietStep(c, ts, s, t, i);
      SameTrace(ts, i, t);
      if !p.stopped {
        AcceptedKeeps(c, ts, t, i, m, j, order);
      }
    }
  }

  /** The rest of makeNewViewApplier, once the extracted requests are prepared. */
  lemma AcceptedKeeps(c: Config, ts: Traces, t: Replica, i: nat, m: Message, j: nat, order: Order)
    requires Good(c, ts, t, i) && !t.exec.stopped && m.NewView? && PlacedAt(c, ts, m, t.expected, j)
    ensures var a := CollectCommitment(t, m);
            if !a.ok || a.s.exec.stopped then Kept(c, ts, t, a.s, i)
            else if c.IsPrimary(m.newView, i) then
              && i == m.Sender()
              && Kept(c, ts, t, EmitPrepares(a.s, i, m.newView, order(a.s.exec.clients.pending)), i)
            else i != m.Sender() && Kept(c, ts, t, Emit(a.s, Commit(i, m, 0)), i)
  {
    var a := CollectCommitment(t, m);
    ProposalKeeps(c, ts, t, i, m, j);
    SenderRole(c, ts, t.expected, m, j);
    if a.ok && !a.s.exec.stopped && i == m.Sender() {
      CollectFields(t, m);
      PrimaryProposes(c, ts, a.s, i, order(a.s.exec.clients.pending));
    }
  }

  // ---------- Certified messages ----------

  /** makeViewMessageProcessor. */
  lemma ViewMessageKeeps(c: Config, ts: Traces, s: Replica, i: nat, m: Message, j: nat, order: Order)
    requires Good(c, ts, s, i) && !s.exec.stopped
    requires m.Unwrap().IsProposal() && PlacedAt(c, ts, m, MessageView(m), j)
    ensures Kept(c, ts, s, ProcessViewMessage(c, s, i, m, order).s, i)
  {
    var v := MessageView(m);
    SameTrace(ts, i, s);
    if m.NewView? {
      if s.current < v {
        var t := EnterView(s, v);
        QuietStep(c, ts, s, t, i);
        SameTrace(ts, i, t);
        if v == s.expected {
          NewViewKeeps(c, ts, t, i, m, j, order);
        }
      }
    } else if v <= s.current && v == s.expected {
      if m.Prepare? {
        PrepareKeeps(c, ts, s, i, m, j);
      } else {
        CommitKeeps(c, ts, s, i, m, j);
      }
    }
  }

  lemma AdvanceUI(c: Config, ts: Traces, s: Replica, a: Replica, i: nat, r: nat, next: nat)
    requires i < |ts| && Kept(c, ts, s, a, i) && next >= Get(a.lastUI, r)
    ensures Kept(c, ts, s, a.(lastUI := a.lastUI[r := next]), i)
  {
    var s' := a.(lastUI := a.lastUI[r := next]);
    var ts' := With(ts, i, a);
    QuietStep(c, ts', a, s', i);
    assert With(ts', i, s') == With(ts, i, s');
  }

  lemma HaltKeeps(c: Config, ts: Traces, s: Replica, a: Replica, i: nat)
    requires i < |ts| && Kept(c, ts, s, a, i)
    ensures Kept(c, ts, s, Halt(a), i)
  {
    var ts' := With(ts, i, a);
    QuietStep(c, ts', a, Halt(a), i);
    assert With(ts', i, Halt(a)) == With(ts, i, Halt(a));
  }

  /** A commitment message that is next in its sender's order, applied or refused. */
  lemma CommitmentProcessed(c: Config, ts: Traces, s: Replica, i: nat, m: Message, order: Order)
    requires Good(c, ts, s, i) && !s.exec.stopped && m.Counter() == Get(s.lastUI, m.Sender()) + 1
    requires m.Sender() < c.n && m in ts[m.Sender()] && m.Unwrap().IsProposal()
    ensures var a := ProcessViewMessage(c, s, i, m, order).s;
            Kept(c, ts, s, a, i) && Kept(c, ts, s, a.(lastUI := a.lastUI[m.Sender() := m.Counter()]), i)
  {
    var j := Placed(c, ts, m.Sender(), m);
    ViewMessageKeeps(c, ts, s, i, m, j, order);
    LastUIUntouched(c, s, i, m, order);
    AdvanceUI(c, ts, s, ProcessViewMessage(c, s, i, m, order).s, i, m.Sender(), m.Counter());
  }

  lemma ProcessedForm(c: Config, s: Replica, i: nat, m: Message, order: Order)
    requires c.Ok() && (m.ViewChangeMsg? || m.Unwrap().IsProposal())
    ensures var s', r := ProcessCertified(c, s, i, m, order).s, m.Sender();
            if s.exec.stopped || m.Counter() != Get(s.lastUI, r) + 1 then s' == s
            else if m.ViewChangeMsg?
            then s' == ProcessViewChange(c, s, i, m.vc).(lastUI := Collected(c, s, i, m.vc).lastUI)
            else
              var a := ProcessViewMessage(c, s, i, m, order);
              s' == if a.ok then a.s.(lastUI := a.s.lastUI[r := m.Counter()]) else a.s
  {
  }

  /** makeCertifiedMessageProcessor: processing any genuine message keeps the invariant. */
  lemma CertifiedKeeps(c: Config, ts: Traces, s: Replica, i: nat, m: Message, order: Order)
    requires Good(c, ts, s, i)
    requires m.Sender() < c.n && m in ts[m.Sender()] && (m.ViewChangeMsg? || m.Unwrap().IsProposal())
    ensures Kept(c, ts, s, ProcessCertified(c, s, i, m, order).s, i)
  {
    SameTrace(ts, i, s);
    ProcessedForm(c, s, i, m, order);
    if !s.exec.stopped && m.Counter() == Get(s.lastUI, m.Sender()) + 1 {
      if m.ViewChangeMsg? {
        assert CompleteOk(ts, m.Sender(), m.vc);
        ViewChangeKeeps(c, ts, s, i, m.vc);
      } else {
        CommitmentProcessed(c, ts, s, i, m, order);
      }
    }
  }

  /** Applying a message does not touch the last processed counters. */
  lemma LastUIUntouched(c: Config, s: Replica, i: nat, m: Message, order: Order)
    requires c.Ok() && m.Unwrap().IsProposal()
    ensures ProcessViewMessage(c, s, i, m, order).s.lastUI == s.lastUI
  {
    ViewMessageFrame(c, s, i, m, order);
  }
}
