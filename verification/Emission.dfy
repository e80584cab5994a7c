/** The three ways a replica certifies a message -- a commitment in its expected view, a ViewChange, a
    NewView -- are permitted, keep its own log in order, and produce messages that others accept. */
module Emission {
  import opened Messages
  import opened Extraction
  import opened Validation
  import opened Collectors
  import opened Replica
  import opened Evidence
  import opened Growth
  import opened Invariants

  function Stamp(s: Replica, m: Message): Message {
    m.WithCounter(|s.trace| + 1)
  }

  lemma CertifiedAppend(log: seq<LogEntry>, e: LogEntry)
    ensures CertifiedIn(log + [e]) == if e.Certified? then CertifiedIn(log) + [e.m] else CertifiedIn(log)
  {
    assert (log + [e])[..|log|] == log;
  }

  lemma StripAppend(l: seq<Message>, m: Message)
    requires l != [] || !m.ViewChangeMsg?
    ensures Strip(l + [m]) == Strip(l) + [m]
  {
    if |l| > 0 {
      assert (l + [m])[1..] == l[1..] + [m];
    }
  }

  /** The traces after replica i has reached state s'. */
  function With(ts: Traces, i: nat, s': Replica): (r: Traces)
    requires i < |ts|
    ensures |r| == |ts| && r[i] == s'.trace
  {
    ts[i := s'.trace]
  }

  /** The core part of the invariant follows a permitted message. */
  lemma EmitCore(c: Config, ts: Traces, s: Replica, i: nat, m: Message)
    requires Evident(c, ts) && i < c.n && ts[i] == s.trace && CoreInv(c, ts, s, i) && CurrentOk(c, ts, s)
    requires Permitted(c, ts, i, Stamp(s, m))
    ensures With(ts, i, Emit(s, m)) == Append(ts, i, Stamp(s, m))
    ensures Evident(c, With(ts, i, Emit(s, m))) && Extends(ts, With(ts, i, Emit(s, m)))
    ensures CoreInv(c, With(ts, i, Emit(s, m)), Emit(s, m), i)
  {
    var ts' := Append(ts, i, Stamp(s, m));
    EmitEvident(c, ts, i, Stamp(s, m));
    AppendExtends(ts, i, Stamp(s, m));
    CoreGrows(c, ts, ts', s, i);
    PropsGrow(c, ts, ts', s.current);
    CoreIgnores(c, ts', s, Emit(s, m), i);
  }

  /** What of the trace invariant does not concern the log: it survives one more message m, from state
      s0 to state s'. */
  ghost predicate NextMessage(c: Config, s0: Replica, s': Replica, i: nat, m: Message)
    requires c.Ok()
  {
    && s'.trace == s0.trace + [m]
    && s'.expected >= s0.expected && s'.vcs.view >= s0.vcs.view
    && (m.ViewChangeMsg? ==> m.vc.newView <= s'.expected)
    && (m.Unwrap().IsProposal() ==>
          var v := MessageView(m);
          v == s'.expected && (v >= 1 && c.IsPrimary(v, i) ==> v < s'.vcs.view || Comms(s0.trace, v) != []))
    && Validate(c, m) == Accept
  }

  lemma RestOfTrace(c: Config, s0: Replica, s': Replica, i: nat, m: Message)
    requires c.Ok() && TraceInv(c, s0, i) && NextMessage(c, s0, s', i, m)
    requires LogOk(c, s', i) && RvcOk(s'.rvcs) && s'.rvcs.view == s'.expected
    ensures TraceInv(c, s', i)
  {
    forall v: nat
      ensures QuietOk(s', v) && LedOk(c, s', i, v)
    {
      assert QuietOk(s0, v) && LedOk(c, s0, i, v);
      CommsAppend(s0.trace, m, v);
    }
    forall vc ensures BoundOk(s', vc) { assert BoundOk(s0, vc); }
    forall x ensures ValidOk(c, s', x) { assert ValidOk(c, s0, x); }
  }

  // ---------- A commitment in the expected view ----------

  /** A Prepare of the primary or a Commit of a backup, in the expected view. */
  ghost predicate NextCommitment(c: Config, ts: Traces, s: Replica, i: nat, m: Message)
    requires c.Ok() && |ts| == c.n && i < c.n
  {
    && m.Sender() == i && !m.NewView? && m.CommitsIn(s.expected)
    && if i == c.Primary(s.expected) then
         m.Prepare? && (s.expected >= 1 ==> Props(c, ts, s.expected) != [])
       else PermittedCommit(c, ts, i, m, s.expected)
  }

  lemma StampCommits(s: Replica, m: Message, v: nat)
    requires !m.ViewChangeMsg?
    ensures Stamp(s, m).CommitsIn(v) <==> m.CommitsIn(v)
    ensures Stamp(s, m).Sender() == m.Sender() && Stamp(s, m).Counter() == |s.trace| + 1
  {
  }

  /** The last message of a view's leader is its latest proposal. */
  lemma LastProposal(c: Config, ts: Traces, s: Replica, i: nat)
    requires Evident(c, ts) && i < c.n && ts[i] == s.trace && TraceInv(c, s, i)
    requires i == c.Primary(s.expected)
    ensures var p := Props(c, ts, s.expected);
            if p == [] then s.expected == 0 ==> |s.trace| == 0
            else p[|p| - 1].Counter() == |s.trace|
  {
    var l, p := CertifiedIn(s.log), Props(c, ts, s.expected);
    assert Strip(l) == p;
    if p != [] {
      assert l[|l| - 1] == p[|p| - 1];
      assert l[|l| - 1] == s.trace[|s.trace| - 1];
      assert StampOk(ts, i, |s.trace| - 1);
    }
  }

  lemma CommitmentPermitted(c: Config, ts: Traces, s: Replica, i: nat, m: Message)
    requires Evident(c, ts) && i < c.n && ts[i] == s.trace && TraceInv(c, s, i)
    requires NextCommitment(c, ts, s, i, m)
    ensures Permitted(c, ts, i, Stamp(s, m))
  {
    var m', v := Stamp(s, m), s.expected;
    StampCommits(s, m, v);
    forall vc | ViewChangeMsg(vc) in ts[i]
      ensures vc.newView <= v
    {
      assert BoundOk(s, vc);
    }
    if i == c.Primary(v) {
      LastProposal(c, ts, s, i);
    }
    assert PermittedIn(c, ts, i, m', v);
  }

  lemma CommitmentValid(c: Config, ts: Traces, s: Replica, i: nat, m: Message)
    requires Evident(c, ts) && i < c.n && ts[i] == s.trace
    requires NextCommitment(c, ts, s, i, m)
    ensures Validate(c, Stamp(s, m)) == Accept
  {
    if m.Commit? {
      var v := s.expected;
      var k := |Comms(ts[i], v)|;
      ProposalSender(c, ts, v, k);
    }
  }

  /** Proposals come from the primary. */
  lemma ProposalSender(c: Config, ts: Traces, v: nat, k: nat)
    requires Evident(c, ts) && k < |Props(c, ts, v)|
    ensures Props(c, ts, v)[k].Sender() == c.Primary(v) && Props(c, ts, v)[k].IsProposal()
    ensures Props(c, ts, v)[k].Counter() >= 1
  {
    var p := c.Primary(v);
    CommsMember(ts[p], v, k);
    var j :| 0 <= j < |ts[p]| && ts[p][j] == Props(c, ts, v)[k];
    assert StampOk(ts, p, j);
    assert ProposalsOk(c, ts, v);
  }

  lemma StripGrows(t: seq<Message>, l: seq<Message>, v: nat, m: Message)
    requires Strip(l) == Comms(t, v) && m.CommitsIn(v)
    ensures Strip(l + [m]) == Comms(t + [m], v)
  {
    StripAppend(l, m);
    CommsAppend(t, m, v);
  }

  lemma SuffixGrows(l: seq<Message>, t: seq<Message>, m: Message)
    requires IsSuffix(l, t)
    ensures IsSuffix(l + [m], t + [m])
  {
  }

  lemma AnchorStays(l: seq<Message>, v: nat, leads: bool, m: Message)
    requires Anchored(l, v, leads) && m.CommitsIn(v)
    requires l != [] && l[0].ViewChangeMsg? ==> !leads
    ensures Anchored(l + [m], v, leads)
  {
    assert (l + [m])[0] == if l == [] then m else l[0];
  }

  /** One more commitment at the end of trace and log. */
  lemma ShapeGrows(t: seq<Message>, l: seq<Message>, v: nat, leads: bool, m: Message)
    requires LogShape(t, l, v, leads) && m.CommitsIn(v)
    requires l != [] && l[0].ViewChangeMsg? ==> !leads
    ensures LogShape(t + [m], l + [m], v, leads)
  {
    StripGrows(t, l, v, m);
    SuffixGrows(l, t, m);
    AnchorStays(l, v, leads, m);
  }

  /** A log that starts over with a ViewChange message or with the primary's NewView message. */
  lemma ShapeStarts(t: seq<Message>, v: nat, leads: bool, m: Message)
    requires v >= 1 && Comms(t, v) == []
    requires if m.ViewChangeMsg? then m.vc.newView == v else m.NewView? && m.newView == v && leads
    ensures LogShape(t + [m], [m], v, leads)
  {
    CommsAppend(t, m, v);
  }

  lemma EmitParts(c: Config, s: Replica, i: nat, m: Message)
    requires c.Ok()
    ensures var s', m' := Emit(s, m), Stamp(s, m);
            && s'.trace == s.trace + [m'] && CertifiedIn(s'.log) == CertifiedIn(s.log) + [m']
            && LogOk(c, s', i)
               == LogShape(s.trace + [m'], CertifiedIn(s.log) + [m'], s.expected, c.IsPrimary(s.expected, i))
  {
    CertifiedAppend(s.log, Certified(Stamp(s, m)));
  }

  lemma CommitmentLog(c: Config, ts: Traces, s: Replica, i: nat, m: Message)
    requires Evident(c, ts) && i < c.n && ts[i] == s.trace && TraceInv(c, s, i)
    requires NextCommitment(c, ts, s, i, m)
    ensures LogOk(c, Emit(s, m), i)
  {
    var l := CertifiedIn(s.log);
    if l != [] && l[0].ViewChangeMsg? {
      LeaderLog(c, ts, s, i);
    }
    StampCommits(s, m, s.expected);
    ShapeGrows(s.trace, l, s.expected, c.IsPrimary(s.expected, i), Stamp(s, m));
    EmitParts(c, s, i, m);
  }

  /** A leader that has proposed something in its view no longer has a ViewChange in its log. */
  lemma LeaderLog(c: Config, ts: Traces, s: Replica, i: nat)
    requires Evident(c, ts) && i < c.n && ts[i] == s.trace && TraceInv(c, s, i)
    requires CertifiedIn(s.log) != [] && CertifiedIn(s.log)[0].ViewChangeMsg?
    ensures i == c.Primary(s.expected) ==> Props(c, ts, s.expected) == [] && s.expected >= 1
  {
  }

  lemma CommitmentTrace(c: Config, ts: Traces, s: Replica, i: nat, m: Message)
    requires Evident(c, ts) && i < c.n && ts[i] == s.trace && TraceInv(c, s, i)
    requires NextCommitment(c, ts, s, i, m)
    ensures TraceInv(c, Emit(s, m), i)
  {
    var m', s' := Stamp(s, m), Emit(s, m);
    CommitmentLog(c, ts, s, i, m);
    CommitmentValid(c, ts, s, i, m);
    assert NextMessage(c, s, s', i, m');
    RestOfTrace(c, s, s', i, m');
  }

  // ---------- A NewView message ----------

  /** State s0 is about to certify the NewView message for its expected view; s is s0 with the log reset
      and the collector moved on. */
  ghost predicate NextNewView(c: Config, ts: Traces, s0: Replica, s: Replica, i: nat, cert: seq<ViewChange>)
    requires c.Ok() && |ts| == c.n && i < c.n
  {
    && s == s0.(vcs := s.vcs, log := [])
    && s0.vcs.view <= s.expected < s.vcs.view
    && NewViewOk(c, i, s.expected, cert)
    && GenuineCert(c, ts, s.expected, cert)
  }

  lemma NotLedYet(c: Config, ts: Traces, s0: Replica, s: Replica, i: nat, cert: seq<ViewChange>)
    requires Evident(c, ts) && i < c.n && ts[i] == s0.trace && TraceInv(c, s0, i)
    requires NextNewView(c, ts, s0, s, i, cert)
    ensures Props(c, ts, s.expected) == []
  {
    assert LedOk(c, s0, i, s.expected);
  }

  lemma NewViewPermitted(c: Config, ts: Traces, s0: Replica, s: Replica, i: nat, cert: seq<ViewChange>)
    requires Evident(c, ts) && i < c.n && ts[i] == s0.trace && TraceInv(c, s0, i)
    requires NextNewView(c, ts, s0, s, i, cert)
    ensures Permitted(c, ts, i, Stamp(s, NewView(i, s.expected, cert, 0)))
  {
    NotLedYet(c, ts, s0, s, i, cert);
    forall vc | ViewChangeMsg(vc) in ts[i]
      ensures vc.newView <= s.expected
    {
      assert BoundOk(s0, vc);
    }
    assert PermittedIn(c, ts, i, Stamp(s, NewView(i, s.expected, cert, 0)), s.expected);
  }

  lemma NewViewLog(c: Config, s: Replica, i: nat, m: Message)
    requires c.Ok() && s.log == [] && Comms(s.trace, s.expected) == []
    requires m.NewView? && m.newView == s.expected >= 1 && c.IsPrimary(s.expected, i)
    ensures LogOk(c, Emit(s, m), i)
  {
    assert [] + [Stamp(s, m)] == [Stamp(s, m)];
    ShapeStarts(s.trace, s.expected, true, Stamp(s, m));
    EmitParts(c, s, i, m);
  }

  lemma NewViewNext(c: Config, ts: Traces, s0: Replica, s: Replica, i: nat, cert: seq<ViewChange>)
    requires c.Ok() && |ts| == c.n && i < c.n && NextNewView(c, ts, s0, s, i, cert)
    ensures var m := NewView(i, s.expected, cert, 0); NextMessage(c, s0, Emit(s, m), i, Stamp(s, m))
  {
    assert Validate(c, Stamp(s, NewView(i, s.expected, cert, 0))) == Accept;
  }

  lemma NewViewTrace(c: Config, ts: Traces, s0: Replica, s: Replica, i: nat, cert: seq<ViewChange>)
    requires Evident(c, ts) && i < c.n && ts[i] == s0.trace && TraceInv(c, s0, i)
    requires NextNewView(c, ts, s0, s, i, cert)
    ensures TraceInv(c, Emit(s, NewView(i, s.expected, cert, 0)), i)
  {
    var m := NewView(i, s.expected, cert, 0);
    NotLedYet(c, ts, s0, s, i, cert);
    NewViewLog(c, s, i, m);
    NewViewNext(c, ts, s0, s, i, cert);
    RestOfTrace(c, s0, Emit(s, m), i, Stamp(s, m));
  }

  // ---------- A ViewChange message ----------

  lemma LogCounters(c: Config, ts: Traces, s: Replica, i: nat, k: nat)
    requires Evident(c, ts) && i < c.n && ts[i] == s.trace && LogOk(c, s, i) && k < |CertifiedIn(s.log)|
    ensures var l := CertifiedIn(s.log);
            l[k].Sender() == i && l[k].Counter() + |l| - k == |s.trace| + 1
  {
    assert StampOk(ts, i, |s.trace| - |CertifiedIn(s.log)| + k);
  }

  /** Only the first entry of a log can be a ViewChange or NewView message. */
  lemma LogAnchors(c: Config, ts: Traces, s: Replica, i: nat, k: nat)
    requires Evident(c, ts) && i < c.n && ts[i] == s.trace && LogOk(c, s, i) && k < |CertifiedIn(s.log)|
    ensures var l := CertifiedIn(s.log);
            && (IsAnchor(l[k]) ==> k == 0 && AnchorView(l[k]) == s.expected)
            && (k == 0 && !IsAnchor(l[k]) ==> s.expected == 0)
  {
    var l, v := CertifiedIn(s.log), s.expected;
    var led := l[0].ViewChangeMsg?;
    if !(led && k == 0) {
      var j := if led then k - 1 else k;
      assert Strip(l)[j] == l[k];
      CommsMember(s.trace, v, j);
      assert FollowsOk(c, ts, i, v);
      assert Unwraps(Comms(s.trace, v))[j] == Props(c, ts, v)[j];
      assert ProposalsOk(c, ts, v);
      ProposalSender(c, ts, v, j);
      LogCounters(c, ts, s, i, k);
    }
  }

  /** The producer meets the validator: at any time, the certified log of a code-following replica passes
      the message-log validation for the view it would leave. */
  lemma ProducedLogAccepted(c: Config, ts: Traces, s: Replica, i: nat)
    requires Evident(c, ts) && i < c.n && ts[i] == s.trace && LogOk(c, s, i)
    ensures LogAccepted(i, s.expected, CertifiedIn(s.log), |s.trace| + 1)
  {
    var l := CertifiedIn(s.log);
    forall k | 0 <= k < |l|
      ensures l[k].Sender() == i && l[k].Counter() + |l| - k == |s.trace| + 1
      ensures IsAnchor(l[k]) ==> k == 0 && AnchorView(l[k]) == s.expected
    {
      LogCounters(c, ts, s, i, k);
      LogAnchors(c, ts, s, i, k);
    }
    if l != [] {
      LogAnchors(c, ts, s, i, 0);
    }
  }

  /** State s0 starts the view change to the next view; s is s0 with the collector moved on. */
  ghost predicate NextViewChange(c: Config, s0: Replica, s: Replica, cert: seq<ReqViewChange>)
    requires c.Ok()
  {
    && s == s0.(rvcs := s.rvcs)
    && RvcOk(s.rvcs) && s.rvcs.view == s0.expected + 1
    && ViewChangeCertOk(c.ViewChangeCertSize(), s0.expected + 1, cert)
  }

  /** The message StartViewChange certifies. */
  function ViewChangeOf(s: Replica, i: nat, cert: seq<ReqViewChange>): ViewChange {
    ViewChange(i, s.expected + 1, CertifiedIn(s.log), cert, |s.trace| + 1)
  }

  lemma ViewChangePermitted(c: Config, ts: Traces, s: Replica, i: nat, cert: seq<ReqViewChange>)
    requires Evident(c, ts) && i < c.n && ts[i] == s.trace && TraceInv(c, s, i)
    ensures Permitted(c, ts, i, ViewChangeMsg(ViewChangeOf(s, i, cert)))
  {
    var vc, l := ViewChangeOf(s, i, cert), CertifiedIn(s.log);
    if l != [] {
      assert l[0] == s.trace[|s.trace| - |l|];
    }
    forall x | ViewChangeMsg(x) in ts[i]
      ensures x.newView != vc.newView
    {
      assert BoundOk(s, x);
    }
  }

  lemma StartTrace(s0: Replica, s: Replica, i: nat, cert: seq<ReqViewChange>)
    requires s.trace == s0.trace && s.log == s0.log
    ensures var s' := StartViewChange(s, i, s0.expected + 1, cert);
            && s'.trace == s0.trace + [ViewChangeMsg(ViewChangeOf(s0, i, cert))] && s0.trace <= s'.trace
            && s'.expected == s0.expected + 1 && s'.tally == s.tally && s'.exec.stopped == s.exec.stopped
  {
  }

  lemma ViewChangeValid(c: Config, ts: Traces, s: Replica, i: nat, cert: seq<ReqViewChange>)
    requires Evident(c, ts) && i < c.n && ts[i] == s.trace && LogOk(c, s, i)
    requires ViewChangeCertOk(c.ViewChangeCertSize(), s.expected + 1, cert)
    ensures Validate(c, ViewChangeMsg(ViewChangeOf(s, i, cert))) == Accept
  {
    ProducedLogAccepted(c, ts, s, i);
  }

  lemma ViewChangeTrace(c: Config, ts: Traces, s0: Replica, s: Replica, i: nat, cert: seq<ReqViewChange>)
    requires Evident(c, ts) && i < c.n && ts[i] == s0.trace && TraceInv(c, s0, i)
    requires NextViewChange(c, s0, s, cert)
    ensures TraceInv(c, StartViewChange(s, i, s0.expected + 1, cert), i)
  {
    var s', m := StartViewChange(s, i, s0.expected + 1, cert), ViewChangeMsg(ViewChangeOf(s0, i, cert));
    StartTrace(s0, s, i, cert);
    ViewChangeLog(c, s0, s, i, cert);
    ViewChangeValid(c, ts, s0, i, cert);
    assert NextMessage(c, s0, s', i, m);
    RestOfTrace(c, s0, s', i, m);
  }

  lemma ViewChangeLog(c: Config, s0: Replica, s: Replica, i: nat, cert: seq<ReqViewChange>)
    requires c.Ok() && TraceInv(c, s0, i) && NextViewChange(c, s0, s, cert)
    ensures LogOk(c, StartViewChange(s, i, s0.expected + 1, cert), i)
  {
    var s', m := StartViewChange(s, i, s0.expected + 1, cert), ViewChangeMsg(ViewChangeOf(s0, i, cert));
    StartTrace(s0, s, i, cert);
    assert CertifiedIn(s'.log) == [m] by { CertifiedAppend([], Certified(m)); }
    assert QuietOk(s0, s'.expected);
    ShapeStarts(s0.trace, s'.expected, c.IsPrimary(s'.expected, i), m);
  }
}
