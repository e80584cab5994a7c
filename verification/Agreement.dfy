/** Safety of the system over every run: agreement, integrity, and evidence that always validates. */
module Agreement {
  import opened Messages
  import opened Extraction
  import opened Validation
  import opened Commitments
  import opened Execution
  import opened Replica
  import opened Evidence
  import opened Invariants
  import opened Emission
  import opened Collecting
  import opened Processing
  import opened System

  ghost predicate At(c: Config, g: State, i: nat) {
    i < |g| ==> Good(c, TracesOf(g), g[i], i)
  }

  ghost predicate Inv(c: Config, g: State) {
    c.Ok() && |g| == c.n && Evident(c, TracesOf(g)) && forall i :: At(c, g, i)
  }

  // ---------- The invariant holds initially ----------

  lemma NothingCertified(c: Config, ts: Traces)
    requires c.Ok() && |ts| == c.n && forall r :: 0 <= r < |ts| ==> ts[r] == []
    ensures Evident(c, ts)
  {
    forall v: nat
      ensures Props(c, ts, v) == [] && ProposalsOk(c, ts, v)
    {
    }
    forall r: nat, v: nat
      ensures FollowsOk(c, ts, r, v)
    {
      if r < c.n {
        assert Comms(ts[r], v) == [];
      }
    }
  }

  lemma FreshTally(size: nat)
    requires size >= 1
    ensures Exact(Fresh(size)) && FromFirst(Fresh(size), 1)
    ensures forall x :: x >= 1 ==> Voters(Fresh(size), x) == {}
  {
    forall x | x >= 1
      ensures Voters(Fresh(size), x) == {}
    {
    }
  }

  lemma InitialCore(c: Config, ts: Traces, i: nat)
    requires c.Ok() && |ts| == c.n && Evident(c, ts)
    ensures CoreInv(c, ts, Initial(c), i)
  {
    var s := Initial(c);
    FreshTally(c.CommitCertSize());
    HistoryEmpty(c, ts, 0);
    assert Committers(c, ts, 0, 0) == Ids(c.n);
    assert Base(c, ts, 0) == 1;
    forall r: nat
      ensures ReachedOk(c, ts, s, r)
    {
    }
  }

  lemma InitialGood(c: Config, ts: Traces, i: nat)
    requires c.Ok() && |ts| == c.n && i < c.n && Evident(c, ts) && ts[i] == []
    ensures Good(c, ts, Initial(c), i)
  {
    InitialCore(c, ts, i);
    var s := Initial(c);
    assert CertifiedIn(s.log) == [];
    forall v: nat
      ensures QuietOk(s, v) && LedOk(c, s, i, v)
    {
      assert Comms(s.trace, v) == [];
    }
    assert Comms(s.trace, 0) == [];
  }

  lemma StartInv(c: Config)
    requires c.Ok()
    ensures Inv(c, Start(c))
  {
    var g := Start(c);
    NothingCertified(c, TracesOf(g));
    forall i: nat
      ensures At(c, g, i)
    {
      if i < |g| {
        InitialGood(c, TracesOf(g), i);
      }
    }
  }

  // ---------- Every action keeps it ----------

  lemma ProcessingKeeps(c: Config, g: State, a: Action)
    requires Inv(c, g) && a.at < |g| && a.Processes()
    ensures Kept(c, TracesOf(g), g[a.at], Local(c, g, a), a.at)
  {
    var ts, i, s := TracesOf(g), a.at, g[a.at];
    assert At(c, g, i);
    if Usable(g, a.m) {
      CertifiedKeeps(c, ts, s, i, a.m, a.order);
      HaltKeeps(c, ts, s, ProcessCertified(c, s, i, a.m, a.order).s, i);
    } else {
      SameTrace(ts, i, s);
    }
  }

  lemma LocalKeeps(c: Config, g: State, a: Action)
    requires Inv(c, g) && a.at < |g|
    ensures Kept(c, TracesOf(g), g[a.at], Local(c, g, a), a.at)
  {
    var ts, i, s := TracesOf(g), a.at, g[a.at];
    assert At(c, g, i);
    match a {
      case ReceiveMessage(_, m, _) => ProcessingKeeps(c, g, a);
      case ReceiveOwn(_, m, _) => ProcessingKeeps(c, g, a);
      case ReceiveRequest(_, q) => RequestKeeps(c, ts, s, i, q);
      case ReceiveReqViewChange(_, rvc) => ReqViewChangeKeeps(c, ts, s, i, rvc);
      case Timeout(_, newView) => TimeoutKeeps(c, ts, s, i, newView);
    }
  }

  lemma ActTraces(c: Config, g: State, a: Action)
    requires c.Ok() && a.at < |g|
    ensures TracesOf(Act(c, g, a)) == With(TracesOf(g), a.at, Local(c, g, a))
  {
  }

  /** Replicas that do not act see the others' traces grow. */
  lemma OtherKeeps(c: Config, g: State, a: Action, j: nat)
    requires Inv(c, g) && a.at < |g| && j < |g| && j != a.at
    requires Kept(c, TracesOf(g), g[a.at], Local(c, g, a), a.at)
    ensures At(c, Act(c, g, a), j)
  {
    var ts' := TracesOf(Act(c, g, a));
    ActTraces(c, g, a);
    assert At(c, g, j);
    GoodGrows(c, TracesOf(g), ts', g[j], j);
  }

  lemma ActKeeps(c: Config, g: State, a: Action)
    requires Inv(c, g)
    ensures Inv(c, Act(c, g, a))
  {
    if a.at < |g| {
      LocalKeeps(c, g, a);
      ActTraces(c, g, a);
      forall j: nat
        ensures At(c, Act(c, g, a), j)
      {
        if j < |g| && j != a.at {
          OtherKeeps(c, g, a, j);
        }
      }
    }
  }

  /** Every state of every run satisfies the invariant. */
  lemma {:induction false} RunInv(c: Config, run: seq<Action>)
    requires c.Ok()
    ensures Inv(c, After(c, run))
    decreases |run|
  {
    if run == [] {
      StartInv(c);
    } else {
      RunInv(c, run[..|run| - 1]);
      ActKeeps(c, After(c, run[..|run| - 1]), run[|run| - 1]);
    }
  }

  // ---------- Agreement ----------

  ghost predicate Comparable(a: seq<Request>, b: seq<Request>) {
    a <= b || b <= a
  }

  /** Agreement: in every run, the requests delivered by any two replicas are prefix-comparable, across
      any number of view changes and whether or not the replicas have stopped. */
  lemma AgreementHolds(c: Config, run: seq<Action>, i: nat, j: nat)
    requires c.Ok() && i < c.n && j < c.n
    ensures |After(c, run)| == c.n
    ensures Comparable(After(c, run)[i].exec.delivered, After(c, run)[j].exec.delivered)
  {
    RunInv(c, run);
    var g := After(c, run);
    assert At(c, g, i) && At(c, g, j);
    if g[i].doneView <= g[j].doneView {
      DeliveredComparable(c, TracesOf(g), g[i], g[j]);
    } else {
      DeliveredComparable(c, TracesOf(g), g[j], g[i]);
    }
  }

  lemma DeliveredComparable(c: Config, ts: Traces, a: Replica, b: Replica)
    requires Evident(c, ts) && DoneInv(c, ts, a) && DoneInv(c, ts, b) && a.doneView <= b.doneView
    ensures Comparable(a.exec.delivered, b.exec.delivered)
  {
    var u, j, v, k := a.doneView, DoneRank(c, ts, a), b.doneView, DoneRank(c, ts, b);
    CommittedComparable(c, ts, u, j, v, k);
    var x, y := History(c, ts, u, j), History(c, ts, v, k);
    if x <= y {
      DedupPrefix(x, y);
      PrefixesOfOne(a.exec.delivered, b.exec.delivered, Dedup(y));
    } else {
      DedupPrefix(y, x);
      PrefixesOfOne(a.exec.delivered, b.exec.delivered, Dedup(x));
    }
  }

  lemma PrefixesOfOne(a: seq<Request>, b: seq<Request>, z: seq<Request>)
    requires a <= z && b <= z
    ensures Comparable(a, b)
  {
    if |a| <= |b| {
      assert a == z[..|a|] == b[..|a|];
    } else {
      assert b == z[..|b|] == a[..|b|];
    }
  }

  // ---------- Integrity ----------

  /** No replica ever delivers a request twice or a client's requests out of order, and everything it has
      delivered belongs to a history that a commit quorum has certified commitments to. */
  lemma IntegrityHolds(c: Config, run: seq<Action>, i: nat)
    requires c.Ok() && i < c.n
    ensures |After(c, run)| == c.n && Evident(c, TracesOf(After(c, run)))
    ensures var s, ts := After(c, run)[i], TracesOf(After(c, run));
            && Increasing(s.exec.delivered)
            && exists v: nat, k: nat ::
                 && k <= |Props(c, ts, v)| && CommittedBy(c, ts, v, k)
                 && s.exec.delivered <= Dedup(History(c, ts, v, k))
  {
    RunInv(c, run);
    var g := After(c, run);
    var s, ts := g[i], TracesOf(g);
    assert At(c, g, i);
    var h := History(c, ts, s.doneView, DoneRank(c, ts, s));
    DedupIncreasing(h);
    assert s.exec.delivered == Dedup(h)[..|s.exec.delivered|];
  }

  // ---------- Evidence ----------

  /** Committed requests survive, over every run: once a commit quorum has certified commitments to the
      first k proposals of view u, no certificate of ViewChange messages for a later view, that distinct
      replicas did certify, evidences anything but an extension of that history. */
  lemma SurvivalHolds(c: Config, run: seq<Action>, u: nat, k: nat, v: nat, cert: seq<ViewChange>)
    requires c.Ok() && |After(c, run)| == c.n
    requires var ts := TracesOf(After(c, run));
             k <= |Props(c, ts, u)| && CommittedBy(c, ts, u, k) && u < v && GenuineCert(c, ts, v, cert)
    ensures Extract(cert).Some?
    ensures var ts := TracesOf(After(c, run));
            Evident(c, ts) && History(c, ts, u, k) <= Extract(cert).value
  {
    RunInv(c, run);
    var ts := TracesOf(After(c, run));
    CommittedSurvive(c, ts, u, k, v, cert);
    assert Extract(cert).Some? && Evidenced(c, ts, v, cert) == Extract(cert).value by {
      ExtractDefined(c, ts, v, cert);
    }
  }

  /** At most one NewView message is ever certified for a view. */
  lemma OneNewViewHolds(c: Config, run: seq<Action>, m: Message, m': Message)
    requires c.Ok() && m.NewView? && m'.NewView? && m.newView == m'.newView
    requires Sent(After(c, run), m) && Sent(After(c, run), m')
    ensures m == m'
  {
    RunInv(c, run);
    var ts := TracesOf(After(c, run));
    var j := Placed(c, ts, m.Sender(), m);
    var k := Placed(c, ts, m'.Sender(), m');
    assert ProposalsOk(c, ts, m.newView);
  }

  /** In every run, at every point, the certified log of every replica passes the message-log validation,
      so a ViewChange message it might send is never refused for its log. */
  lemma LogAlwaysAccepted(c: Config, run: seq<Action>, i: nat)
    requires c.Ok() && i < c.n
    ensures |After(c, run)| == c.n
    ensures var s := After(c, run)[i];
            LogAccepted(i, s.expected, CertifiedIn(s.log), |s.trace| + 1)
  {
    RunInv(c, run);
    var g := After(c, run);
    assert At(c, g, i);
    ProducedLogAccepted(c, TracesOf(g), g[i], i);
  }

  lemma EmbeddedSent(c: Config, g: State, m: Message, i: nat)
    requires Inv(c, g) && Sent(g, m) && i < |Embedded(m)|
    ensures Sent(g, Embedded(m)[i])
  {
    var ts, r := TracesOf(g), m.Sender();
    match m {
      case Commit(_, p, _) =>
        assert At(c, g, r);
        assert ValidOk(c, g[r], m);
        var j := Placed(c, ts, r, m);
        ProposalSender(c, ts, MessageView(m), j);
        CommsMember(ts[c.Primary(MessageView(m))], MessageView(m), j);
      case ViewChangeMsg(vc) =>
        assert CompleteOk(ts, r, vc);
        LoggedSent(c, ts, r, vc, i);
      case NewView(_, v, cert, _) =>
        var j := Placed(c, ts, r, m);
        assert ProposalsOk(c, ts, v);
        assert Genuine(c, ts, v, cert[i]);
    }
  }

  lemma LoggedSent(c: Config, ts: Traces, r: nat, vc: ViewChange, i: nat)
    requires Evident(c, ts) && r < c.n && Complete(ts[r], vc) && i < |vc.log|
    ensures vc.log[i].Sender() == r && vc.log[i] in ts[r]
  {
    var m, v := vc.log[i], vc.newView - 1;
    if !(vc.log[0].ViewChangeMsg? && i == 0) {
      var j := if vc.log[0].ViewChangeMsg? then i - 1 else i;
      assert Strip(vc.log)[j] == m;
      CommsMember(ts[r], v, j);
    }
    var k :| 0 <= k < |ts[r]| && ts[r][k] == m;
    assert StampOk(ts, r, k);
  }

  lemma {:induction false} SentDeepValid(c: Config, g: State, m: Message)
    requires Inv(c, g) && Sent(g, m)
    ensures DeepValid(c, m)
    decreases Size(m)
  {
    assert At(c, g, m.Sender());
    assert ValidOk(c, g[m.Sender()], m);
    forall i | 0 <= i < |Embedded(m)|
      ensures DeepValid(c, Embedded(m)[i])
    {
      EmbeddedSmaller(m, i);
      EmbeddedSent(c, g, m, i);
      SentDeepValid(c, g, Embedded(m)[i]);
    }
  }

  /** The producer meets the validator: in every run, every message a replica certifies is accepted by
      every other replica's validation, and so is every message embedded in it. */
  lemma ProducerMeetsValidator(c: Config, run: seq<Action>, m: Message)
    requires c.Ok() && Sent(After(c, run), m)
    ensures DeepValid(c, m)
  {
    RunInv(c, run);
    SentDeepValid(c, After(c, run), m);
  }
}
