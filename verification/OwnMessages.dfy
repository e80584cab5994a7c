/** A replica's handling of its own messages (core/message-handling.go:381-389, 449-463).

    A replica takes the messages from its own log as any others and panics if one is refused.  In every run
    its own commitments arrive at the collector in the sequence it demands, so the only message of its own a
    replica can refuse is a Prepare of the expected view for a request that is prepared already. */
module OwnMessages {
  import opened Messages
  import opened Extraction
  import opened Commitments
  import opened Requests
  import opened Execution
  import opened Replica
  import opened Evidence
  import opened Growth
  import opened Invariants
  import opened Emission
  import opened Collecting
  import opened System
  import opened Agreement
  import opened Handling
  import opened Steadiness
  import Progress

  // ---------- The replica's commitments in the expected view ----------

  function Own(s: Replica): seq<Message> {
    Comms(s.trace, s.expected)
  }

  /** They are the last messages of the trace. */
  ghost predicate OwnShape(s: Replica) {
    && IsSuffix(Own(s), s.trace)
    && (forall k :: 0 <= k < |s.trace| ==> s.trace[k].Counter() == k + 1)
    && (s.expected == 0 ==> |Own(s)| == |s.trace|)
  }

  lemma ShapeOf(c: Config, ts: Traces, s: Replica, i: nat)
    requires Good(c, ts, s, i)
    ensures OwnShape(s)
  {
    forall k | 0 <= k < |s.trace|
      ensures s.trace[k].Counter() == k + 1
    {
      assert StampOk(ts, i, k);
    }
  }

  /** Nothing of the expected view has been accepted from replica i. */
  predicate NoneAccepted(s: Replica, i: nat) {
    var a := s.tally.acc;
    || Get(a.views, i) < s.expected
    || (s.expected == 0 && Get(a.views, i) == 0 && Get(a.primaryCVs, i) == 0 && Get(a.replicaCVs, i) == 0)
  }

  /** Message m of the expected view is the last one accepted from replica i. */
  predicate LastAccepted(s: Replica, i: nat, m: Message) {
    var a := s.tally.acc;
    && Get(a.views, i) == s.expected
    && Get(a.primaryCVs, i) == m.Unwrap().Counter() && Get(a.replicaCVs, i) == m.Counter()
  }

  /** The replica leads the expected view but was in a later one before it came to its own NewView message. */
  predicate Skipped(c: Config, s: Replica, i: nat)
    requires c.Ok()
  {
    |Own(s)| == 1 && c.IsPrimary(s.expected, i) && s.current > s.expected
  }

  /** Of its own commitments in the expected view, a replica has accepted those it has processed. */
  ghost predicate OwnReached(c: Config, s: Replica, i: nat)
    requires c.Ok()
  {
    var l, u := Own(s), Get(s.lastUI, i);
    && u <= |s.trace|
    && (l == [] || u < l[0].Counter() ==> NoneAccepted(s, i))
    && (l != [] && u >= l[0].Counter() && u >= 1 ==> LastAccepted(s, i, s.trace[u - 1]) || Skipped(c, s, i))
  }

  /** A primary enters its view, and proposes in it, by processing its own NewView message. */
  ghost predicate OwnLed(c: Config, s: Replica, i: nat)
    requires c.Ok()
  {
    Heading(c, s, i) ==> Own(s) != [] && Own(s)[0].Counter() <= Get(s.lastUI, i)
  }

  predicate Heading(c: Config, s: Replica, i: nat)
    requires c.Ok()
  {
    s.expected >= 1 && c.IsPrimary(s.expected, i) && (s.current == s.expected || |Own(s)| > 1)
  }

  ghost predicate OwnOk(c: Config, s: Replica, i: nat)
    requires c.Ok()
  {
    OwnShape(s) && OwnReached(c, s, i) && OwnLed(c, s, i)
  }

  // ---------- Steps ----------

  /** What has been accepted from replica i, and how far it has been processed, stays. */
  ghost predicate SameAccepted(s: Replica, s': Replica, i: nat) {
    var a, b := s.tally.acc, s'.tally.acc;
    && Get(b.views, i) == Get(a.views, i)
    && Get(b.primaryCVs, i) == Get(a.primaryCVs, i) && Get(b.replicaCVs, i) == Get(a.replicaCVs, i)
    && Get(s'.lastUI, i) == Get(s.lastUI, i)
  }

  lemma OwnStays(c: Config, s: Replica, s': Replica, i: nat)
    requires c.Ok() && OwnOk(c, s, i) && OwnShape(s') && SameAccepted(s, s', i)
    requires s'.expected == s.expected && s.trace <= s'.trace && s'.current >= s.current
    requires Skipped(c, s, i) ==> |Own(s')| == 1
    requires Heading(c, s', i) ==> Heading(c, s, i)
    ensures OwnOk(c, s', i)
  {
    var l, l', u := Own(s), Own(s'), Get(s.lastUI, i);
    CommsPrefix(s.trace, s'.trace, s.expected);
    if l == [] && l' != [] && u >= l'[0].Counter() {
      var k := |s'.trace| - |l'|;
      assert l'[0] == s'.trace[k] && s'.trace[k] == s.trace[k];
      CommsMember(s'.trace, s.expected, 0);
      var j := CommsIndex(s.trace, s.trace[k], s.expected);
      assert false;
    }
  }

  /** The state after message m has been processed, given what applying it left. */
  function Ticked(t: Replica, m: Message): Replica {
    t.(lastUI := t.lastUI[m.Sender() := m.Counter()])
  }

  lemma TakenForm(c: Config, s: Replica, i: nat, m: Message, order: Order)
    requires c.Ok() && m.Unwrap().IsProposal()
    ensures var s', a := ProcessCertified(c, s, i, m, order).s, ProcessViewMessage(c, s, i, m, order);
            s' == if s.exec.stopped || m.Counter() != Get(s.lastUI, m.Sender()) + 1 then s
                  else if a.ok then Ticked(a.s, m) else a.s
  {
  }

  lemma TakenViewChange(c: Config, s: Replica, i: nat, m: Message, order: Order)
    requires c.Ok() && m.ViewChangeMsg?
    ensures ProcessCertified(c, s, i, m, order).s
            == if s.exec.stopped || m.Counter() != Get(s.lastUI, m.Sender()) + 1 then s
               else Ticked(ProcessViewChange(c, s, i, m.vc), m)
  {
  }

  /** A message of another replica has been processed. */
  lemma OthersTick(c: Config, t: Replica, i: nat, m: Message)
    requires c.Ok() && OwnOk(c, t, i) && m.Sender() != i
    ensures OwnOk(c, Ticked(t, m), i)
  {
    SameShape(t, Ticked(t, m));
    OwnStays(c, t, Ticked(t, m), i);
  }

  /** The next of the replica's own messages has been processed. */
  lemma OwnCounts(c: Config, s: Replica, i: nat, m: Message)
    requires c.Ok() && OwnShape(s) && m in s.trace && m.Counter() == Get(s.lastUI, i) + 1
    requires if m.CommitsIn(s.expected) then LastAccepted(s, i, m) || Skipped(c, s, i) else OwnReached(c, s, i)
    requires Heading(c, s, i) ==> Own(s) != [] && Own(s)[0].Counter() <= m.Counter()
    ensures OwnOk(c, s.(lastUI := s.lastUI[i := m.Counter()]), i)
  {
    var s' := s.(lastUI := s.lastUI[i := m.Counter()]);
    var l := Own(s);
    assert Own(s') == l;
    var k :| 0 <= k < |s.trace| && s.trace[k] == m;
    if m.CommitsIn(s.expected) {
      var j := CommsIndex(s.trace, m, s.expected);
      assert l[0] == s.trace[|s.trace| - |l|] && l[j] == s.trace[|s.trace| - |l| + j];
    } else if l != [] {
      assert l[0] == s.trace[|s.trace| - |l|];
      if k >= |s.trace| - |l| {
        var j := k - (|s.trace| - |l|);
        assert l[j] == m;
        CommsMember(s.trace, s.expected, j);
        assert false;
      }
    }
  }

  /** The next of the replica's own commitments in the expected view is acceptable. */
  lemma OwnAcceptable(c: Config, ts: Traces, s: Replica, i: nat, m: Message)
    requires Evident(c, ts) && i < c.n && ts[i] == s.trace && OwnOk(c, s, i)
    requires m in s.trace && m.Counter() == Get(s.lastUI, i) + 1
    requires m.Unwrap().IsProposal() && MessageView(m) == s.expected
    ensures Acceptable(s.tally.acc, CommitmentOf(m))
  {
    var j := Placed(c, ts, i, m);
    AsCommitment(c, ts, s.expected, m, j);
    OwnIndex(s, j);
    OwnIndex(s, 0);
    if j > 0 {
      OwnIndex(s, j - 1);
      PlacedBefore(c, ts, m, s.expected, j);
      AsCommitment(c, ts, s.expected, Own(s)[j - 1], j - 1);
    }
  }

  lemma OwnIndex(s: Replica, j: nat)
    requires OwnShape(s) && j < |Own(s)|
    ensures var k := |s.trace| - |Own(s)| + j; Own(s)[j] == s.trace[k] && Own(s)[j].Counter() == k + 1
  {
  }

  lemma PlacedBefore(c: Config, ts: Traces, m: Message, v: nat, j: nat)
    requires Evident(c, ts) && PlacedAt(c, ts, m, v, j) && j > 0
    ensures PlacedAt(c, ts, Comms(ts[m.Sender()], v)[j - 1], v, j - 1)
  {
    var r := m.Sender();
    var x := Comms(ts[r], v)[j - 1];
    CommsMember(ts[r], v, j - 1);
    var k :| 0 <= k < |ts[r]| && ts[r][k] == x;
    assert StampOk(ts, r, k) && FollowsOk(c, ts, r, v);
    assert Unwraps(Comms(ts[r], v))[j - 1] == Props(c, ts, v)[j - 1];
  }

  // ---------- Requests and view changes ----------

  lemma RequestOwn(c: Config, s: Replica, i: nat, q: Request)
    requires c.Ok() && OwnOk(c, s, i) && OwnShape(ProcessRequest(c, s, i, q))
    ensures OwnOk(c, ProcessRequest(c, s, i, q), i)
  {
    OwnStays(c, s, ProcessRequest(c, s, i, q), i);
  }

  lemma TimeoutOwn(c: Config, s: Replica, i: nat, newView: nat)
    requires c.Ok() && OwnOk(c, s, i)
    ensures OwnOk(c, RequestViewChange(s, i, newView), i)
  {
    var s' := RequestViewChange(s, i, newView);
    SameShape(s, s');
    OwnStays(c, s, s', i);
  }

  lemma ReqViewChangeOwn(c: Config, ts: Traces, s: Replica, i: nat, rvc: ReqViewChange)
    requires Good(c, ts, s, i) && !s.exec.stopped && OwnOk(c, s, i)
    requires OwnShape(ProcessReqViewChange(c, s, i, rvc))
    ensures OwnOk(c, ProcessReqViewChange(c, s, i, rvc), i)
  {
    var s' := ProcessReqViewChange(c, s, i, rvc);
    if s'.expected == s.expected {
      OwnStays(c, s, s', i);
    } else {
      var x := s'.trace[|s.trace|];
      assert s'.trace == s.trace + [x] && x.ViewChangeMsg?;
      StartOwn(c, ts, s, s', i, x);
    }
  }

  lemma StartOwn(c: Config, ts: Traces, s: Replica, s': Replica, i: nat, x: Message)
    requires Good(c, ts, s, i) && !s.exec.stopped && OwnReached(c, s, i) && OwnShape(s')
    requires s'.expected > s.expected && s'.trace == s.trace + [x] && x.ViewChangeMsg?
    requires s'.current == s.current && s'.tally == s.tally && s'.lastUI == s.lastUI
    ensures OwnOk(c, s', i)
  {
    assert QuietOk(s, s'.expected);
    CommsAppend(s.trace, x, s'.expected);
    assert Own(s') == [];
    assert Get(s.tally.acc.views, i) <= s.tally.cnt.lastView;
    assert CurrentOk(c, ts, s);
  }

  /** A replica certifies a NewView message only if it has made no commitment in the view. */
  lemma ViewChangeOwn(c: Config, ts: Traces, s: Replica, i: nat, vc: ViewChange)
    requires Good(c, ts, s, i) && OwnOk(c, s, i) && vc.newView >= 1
    requires OwnShape(ProcessViewChange(c, s, i, vc))
    ensures OwnOk(c, ProcessViewChange(c, s, i, vc), i)
  {
    var s' := ProcessViewChange(c, s, i, vc);
    ViewChangeFrame(c, s, i, vc);
    if s'.trace == s.trace {
      OwnStays(c, s, s', i);
    } else {
      var x := s'.trace[|s.trace|];
      assert Own(s) == [] by { assert LedOk(c, s, i, s.expected); }
      CommsAppend(s.trace, x, s.expected);
      OwnStays(c, s, s', i);
    }
  }

  lemma ViewChangeFrame(c: Config, s: Replica, i: nat, vc: ViewChange)
    requires c.Ok()
    ensures var t := ProcessViewChange(c, s, i, vc);
            && t == s.(vcs := t.vcs, trace := t.trace, log := t.log)
            && (t.trace != s.trace ==>
                  && t.trace == s.trace + [t.trace[|s.trace|]]
                  && s.expected >= s.vcs.view && c.IsPrimary(s.expected, i) && vc.newView == s.expected)
  {
  }

  // ---------- Commitment messages ----------

  lemma MessageFrame(c: Config, s: Replica, i: nat, m: Message, order: Order)
    requires c.Ok() && m.Unwrap().IsProposal()
    ensures var t := ProcessViewMessage(c, s, i, m, order).s;
            && t.expected == s.expected && t.lastUI == s.lastUI
            && (t.current == s.current || (m.NewView? && t.current == m.newView > s.current))
            && (t.trace != s.trace ==> MessageView(m) == s.expected && m.IsProposal())
  {
    if m.NewView? {
      NewViewFrame(c, EnterView(s, m.newView), i, m, order);
    } else {
      CollectFrame(s, m);
      if m.Prepare? {
        CollectFrame(s.(exec := s.exec.(clients := PrepareReq(s.exec.clients, m.request))), m);
      }
    }
  }

  lemma NewViewTally(c: Config, s: Replica, i: nat, m: Message, order: Order)
    requires c.Ok() && m.NewView?
    ensures var a := ApplyNewView(c, s, i, m, order);
            && (a.s.tally == s.tally || a.s.tally == Collect(s.tally, CommitmentOf(m)))
            && (!a.s.exec.stopped && Acceptable(s.tally.acc, CommitmentOf(m)) ==>
                  a.ok && a.s.tally == Collect(s.tally, CommitmentOf(m)))
  {
    var l := Extract(m.nvCert);
    if l.Some? {
      var s1 := s.(exec := PrepareAll(s.exec, l.value));
      var a := CollectCommitment(s1, m);
      CollectTally(s1, m);
      EmitPreparesFrame(a.s, i, m.newView, order(a.s.exec.clients.pending));
    }
  }

  lemma CollectTally(s: Replica, m: Message)
    requires m.Unwrap().IsProposal()
    ensures var a := CollectCommitment(s, m);
            (a.ok <==> Acceptable(s.tally.acc, CommitmentOf(m))) && a.s.tally == Collect(s.tally, CommitmentOf(m))
  {
  }

  lemma MessageTally(c: Config, s: Replica, i: nat, m: Message, order: Order)
    requires c.Ok() && m.Unwrap().IsProposal()
    ensures var t := ProcessViewMessage(c, s, i, m, order).s;
            t.tally == s.tally || t.tally == Collect(s.tally, CommitmentOf(m))
  {
    if m.NewView? {
      NewViewTally(c, EnterView(s, m.newView), i, m, order);
    }
  }

  /** A message of another replica. */
  lemma OthersMessage(c: Config, ts: Traces, s: Replica, i: nat, m: Message, order: Order)
    requires Good(c, ts, s, i) && OwnOk(c, s, i) && m.Sender() != i && m.Sender() < c.n && m in ts[m.Sender()]
    requires m.Unwrap().IsProposal() && OwnShape(ProcessViewMessage(c, s, i, m, order).s)
    requires s.trace <= ProcessViewMessage(c, s, i, m, order).s.trace
    ensures OwnOk(c, ProcessViewMessage(c, s, i, m, order).s, i)
  {
    var s' := ProcessViewMessage(c, s, i, m, order).s;
    MessageFrame(c, s, i, m, order);
    MessageTally(c, s, i, m, order);
    if m.IsProposal() && MessageView(m) == s.expected {
      var j := Placed(c, ts, m.Sender(), m);
      ProposalSender(c, ts, s.expected, j);
    }
    OwnStays(c, s, s', i);
  }

  /** A message of its own that the replica need not apply. */
  lemma OwnPassed(c: Config, ts: Traces, s: Replica, i: nat, m: Message)
    requires Good(c, ts, s, i) && OwnOk(c, s, i) && m in s.trace && m.Counter() == Get(s.lastUI, i) + 1
    requires m.NewView? && m.newView == s.expected <= s.current
    ensures Skipped(c, s, i) && !Heading(c, s, i)
  {
    var j := Placed(c, ts, i, m);
    assert ProposalsOk(c, ts, s.expected);
    ProposalSender(c, ts, s.expected, j);
    assert Own(s)[0] == m;
  }

  /** The message is of the expected view, and the replica is in the state to apply it. */
  predicate Applies(s: Replica, m: Message) {
    && m.Unwrap().IsProposal() && MessageView(m) == s.expected
    && (if m.NewView? then s.current < m.newView else MessageView(m) <= s.current)
  }

  predicate Repeats(s: Replica, m: Message) {
    m.Prepare? && IsPrepared(s.exec.clients, m.request)
  }

  /** An acceptable message of its own is refused by a replica that applies it only if it repeats a request. */
  lemma OwnApplied(c: Config, s: Replica, i: nat, m: Message, order: Order)
    requires c.Ok() && Applies(s, m) && Acceptable(s.tally.acc, CommitmentOf(m))
    ensures var a := ProcessViewMessage(c, s, i, m, order);
            if Repeats(s, m) then a == Applied(s, false)
            else m.Commit? || !a.s.exec.stopped ==> a.ok && a.s.tally == Collect(s.tally, CommitmentOf(m))
  {
    if m.NewView? {
      NewViewTally(c, EnterView(s, m.newView), i, m, order);
    }
  }

  lemma OwnTaken(c: Config, s: Replica, t: Replica, i: nat, m: Message)
    requires c.Ok() && OwnShape(s) && OwnShape(t) && s.trace <= t.trace && t.expected == s.expected
    requires m in s.trace && m.Sender() == i && m.Counter() == Get(s.lastUI, i) + 1 && t.lastUI == s.lastUI
    requires m.Unwrap().IsProposal() && MessageView(m) == s.expected
    requires Acceptable(s.tally.acc, CommitmentOf(m)) && t.tally == Collect(s.tally, CommitmentOf(m))
    ensures OwnOk(c, t.(lastUI := t.lastUI[i := m.Counter()]), i)
  {
    var j := CommsIndex(s.trace, m, s.expected);
    OwnIndex(s, 0);
    OwnIndex(s, j);
    CommsPrefix(s.trace, t.trace, s.expected);
    assert LastAccepted(t, i, m);
    OwnCounts(c, t, i, m);
  }

  /** The next of the replica's own commitment messages. */
  lemma OwnMessage(c: Config, ts: Traces, s: Replica, i: nat, m: Message, order: Order)
    requires Good(c, ts, s, i) && OwnOk(c, s, i) && m in s.trace && m.Sender() == i
    requires m.Unwrap().IsProposal() && m.Counter() == Get(s.lastUI, i) + 1
    requires var a := ProcessViewMessage(c, s, i, m, order);
             !a.s.exec.stopped && OwnShape(a.s) && s.trace <= a.s.trace
    ensures var a := ProcessViewMessage(c, s, i, m, order);
            OwnOk(c, if a.ok then Ticked(a.s, m) else a.s, i)
  {
    var a := ProcessViewMessage(c, s, i, m, order);
    MessageFrame(c, s, i, m, order);
    if Applies(s, m) {
      OwnAcceptable(c, ts, s, i, m);
      OwnApplied(c, s, i, m, order);
      if a.ok {
        OwnTaken(c, s, a.s, i, m);
      }
    } else {
      UnappliedForm(c, s, i, m, order);
      if m.NewView? && m.newView == s.expected {
        OwnPassed(c, ts, s, i, m);
      } else {
        OwnStays(c, s, a.s, i);
      }
      if a.ok {
        OwnCounts(c, a.s, i, m);
      }
    }
  }

  lemma UnappliedForm(c: Config, s: Replica, i: nat, m: Message, order: Order)
    requires c.Ok() && m.Unwrap().IsProposal() && !Applies(s, m)
    ensures var a := ProcessViewMessage(c, s, i, m, order);
            && (a.s == s || (m.NewView? && s.current < m.newView != s.expected && a.s == EnterView(s, m.newView)))
            && (a.ok <==> m.NewView? || MessageView(m) <= s.current)
  {
  }

  // ---------- Every run ----------

  lemma ViewChangeProcessed(c: Config, ts: Traces, s: Replica, i: nat, m: Message)
    requires Good(c, ts, s, i) && OwnOk(c, s, i) && m.Sender() < c.n && m in ts[m.Sender()]
    requires m.ViewChangeMsg? && m.Counter() == Get(s.lastUI, m.Sender()) + 1
    requires OwnShape(ProcessViewChange(c, s, i, m.vc))
    ensures var t := ProcessViewChange(c, s, i, m.vc);
            OwnOk(c, Ticked(t, m), i)
  {
    var t := ProcessViewChange(c, s, i, m.vc);
    assert CompleteOk(ts, m.Sender(), m.vc);
    ViewChangeOwn(c, ts, s, i, m.vc);
    if m.Sender() == i {
      OwnCounts(c, t, i, m);
    } else {
      OthersTick(c, t, i, m);
    }
  }

  lemma CommitmentProcessed(c: Config, ts: Traces, s: Replica, i: nat, m: Message, order: Order)
    requires Good(c, ts, s, i) && OwnOk(c, s, i) && m.Sender() < c.n && m in ts[m.Sender()]
    requires m.Unwrap().IsProposal() && m.Counter() == Get(s.lastUI, m.Sender()) + 1
    requires var t := ProcessViewMessage(c, s, i, m, order).s;
             !t.exec.stopped && OwnShape(t) && s.trace <= t.trace
    ensures var a := ProcessViewMessage(c, s, i, m, order);
            OwnOk(c, if a.ok then Ticked(a.s, m) else a.s, i)
  {
    if m.Sender() == i {
      OwnMessage(c, ts, s, i, m, order);
    } else {
      var t := ProcessViewMessage(c, s, i, m, order).s;
      OthersMessage(c, ts, s, i, m, order);
      OthersTick(c, t, i, m);
    }
  }

  lemma CertifiedOwn(c: Config, ts: Traces, s: Replica, i: nat, m: Message, order: Order)
    requires Good(c, ts, s, i) && OwnOk(c, s, i) && m.Sender() < c.n && m in ts[m.Sender()]
    requires m.ViewChangeMsg? || m.Unwrap().IsProposal()
    requires var s' := ProcessCertified(c, s, i, m, order).s;
             !s'.exec.stopped && OwnShape(s') && s.trace <= s'.trace
    ensures OwnOk(c, ProcessCertified(c, s, i, m, order).s, i)
  {
    var s' := ProcessCertified(c, s, i, m, order).s;
    if m.ViewChangeMsg? {
      TakenViewChange(c, s, i, m, order);
      if s' != s {
        SameShape(s', ProcessViewChange(c, s, i, m.vc));
        ViewChangeProcessed(c, ts, s, i, m);
      }
    } else {
      TakenForm(c, s, i, m, order);
      if s' != s {
        SameShape(s', ProcessViewMessage(c, s, i, m, order).s);
        CommitmentProcessed(c, ts, s, i, m, order);
      }
    }
  }

  lemma SameShape(s: Replica, t: Replica)
    requires OwnShape(s) && t.trace == s.trace && t.expected == s.expected
    ensures OwnShape(t)
  {
  }

  lemma StaysStopped(c: Config, g: State, a: Action)
    requires c.Ok() && a.at < |g| && g[a.at].exec.stopped
    ensures Local(c, g, a).exec.stopped
  {
  }

  lemma OtherActionOwn(c: Config, ts: Traces, g: State, a: Action)
    requires a.at < |g| && !a.Processes() && Good(c, ts, g[a.at], a.at)
    requires !g[a.at].exec.stopped && OwnOk(c, g[a.at], a.at) && OwnShape(Local(c, g, a))
    ensures OwnOk(c, Local(c, g, a), a.at)
  {
    var s := g[a.at];
    match a {
      case ReceiveRequest(i, q) => RequestOwn(c, s, i, q);
      case ReceiveReqViewChange(i, rvc) => ReqViewChangeOwn(c, ts, s, i, rvc);
      case Timeout(i, newView) => TimeoutOwn(c, s, i, newView);
    }
  }

  lemma ActionOwn(c: Config, run: seq<Action>, a: Action)
    requires c.Ok() && a.at < c.n && |After(c, run)| == c.n && OwnOk(c, After(c, run)[a.at], a.at)
    requires !After(c, run)[a.at].exec.stopped && !Local(c, After(c, run), a).exec.stopped
    requires OwnShape(Local(c, After(c, run), a))
    ensures OwnOk(c, Local(c, After(c, run), a), a.at)
  {
    var g := After(c, run);
    RunInv(c, run);
    assert At(c, g, a.at);
    if !a.Processes() {
      OtherActionOwn(c, TracesOf(g), g, a);
    } else if Usable(g, a.m) {
      TraceGrows(c, run, a);
      ProcessedState(c, g, a);
      CertifiedOwn(c, TracesOf(g), g[a.at], a.at, a.m, a.order);
    }
  }

  /** Processing leaves the same state in either case unless it stops the replica. */
  lemma ProcessedState(c: Config, g: State, a: Action)
    requires c.Ok() && a.at < |g| && a.Processes() && Usable(g, a.m)
    ensures var p := ProcessCertified(c, g[a.at], a.at, a.m, a.order);
            Local(c, g, a) == if a.ReceiveMessage? then p.s else OrHalt(p)
    ensures !Local(c, g, a).exec.stopped ==>
              Local(c, g, a) == ProcessCertified(c, g[a.at], a.at, a.m, a.order).s
  {
  }

  lemma ShapeAt(c: Config, run: seq<Action>, i: nat)
    requires c.Ok() && i < c.n && |After(c, run)| == c.n
    ensures OwnShape(After(c, run)[i])
  {
    RunInv(c, run);
    assert At(c, After(c, run), i);
    ShapeOf(c, TracesOf(After(c, run)), After(c, run)[i], i);
  }

  lemma {:induction false} OwnRun(c: Config, run: seq<Action>, i: nat)
    requires c.Ok() && i < c.n
    ensures |After(c, run)| == c.n
    ensures !After(c, run)[i].exec.stopped ==> OwnOk(c, After(c, run)[i], i)
    decreases |run|
  {
    AfterLength(c, run);
    if run == [] {
      ShapeAt(c, run, i);
      assert Own(Initial(c)) == [];
    } else {
      var before, a := run[..|run| - 1], run[|run| - 1];
      OwnRun(c, before, i);
      if a.at == i {
        ShapeAt(c, run, i);
        if After(c, before)[i].exec.stopped {
          StaysStopped(c, After(c, before), a);
        } else if !After(c, run)[i].exec.stopped {
          ActionOwn(c, before, a);
        }
      }
    }
  }

  // ---------- Which messages of its own a replica refuses ----------

  /** The replica's next message is a Prepare of the expected view for a request that it has prepared. */
  predicate Refused(s: Replica, m: Message) {
    && m.Prepare? && m.view == s.expected && m.Counter() == Get(s.lastUI, m.Sender()) + 1
    && IsPrepared(s.exec.clients, m.request)
  }

  lemma OwnNext(c: Config, ts: Traces, s: Replica, i: nat, m: Message, order: Order)
    requires Good(c, ts, s, i) && OwnOk(c, s, i) && Progress.ActedIn(s)
    requires m in s.trace && m.Sender() == i && m.Unwrap().IsProposal() && m.Counter() == Get(s.lastUI, i) + 1
    requires !m.Commit? ==> !ProcessViewMessage(c, s, i, m, order).s.exec.stopped
    ensures !ProcessViewMessage(c, s, i, m, order).ok <==> Refused(s, m)
  {
    var k :| 0 <= k < |s.trace| && s.trace[k] == m;
    assert QuietOk(s, MessageView(m)) && View(m) == View(m.Unwrap()) == MessageView(m);
    var j := CommsIndex(s.trace, m, MessageView(m));
    if Applies(s, m) {
      OwnAcceptable(c, ts, s, i, m);
      OwnApplied(c, s, i, m, order);
    } else {
      UnappliedForm(c, s, i, m, order);
    }
  }

  /** In every run, a live replica refuses the message of its own that is next, everything it embeds having
      been processed, if and only if the message is a Prepare of the view the replica expects whose request
      has a sequence number at or below the client's last prepared one. */
  lemma OwnRefusedIff(c: Config, run: seq<Action>, i: nat, m: Message, order: Order)
    requires c.Ok() && i < c.n && |After(c, run)| == c.n && Usable(After(c, run), m) && m.Sender() == i
    requires var s := After(c, run)[i];
             !s.exec.stopped && Prepped(s, m) && m.Counter() <= Get(s.lastUI, i) + 1
    ensures var s := After(c, run)[i]; !ProcessCertified(c, s, i, m, order).ok <==> Refused(s, m)
  {
    var g := After(c, run);
    var s := g[i];
    if m.Counter() == Get(s.lastUI, i) + 1 && !m.ViewChangeMsg? {
      RunInv(c, run);
      assert At(c, g, i);
      OwnRun(c, run, i);
      Progress.ActedInRun(c, run, i);
      PanicsIff(c, run, i, m, order);
      OwnNext(c, TracesOf(g), s, i, m, order);
    }
  }
}
