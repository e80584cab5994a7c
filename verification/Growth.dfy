/** Evidence only grows: what one more certified message preserves.

    `Permitted` says which message a replica following the code may certify next; `EmitEvident` shows that
    the traces stay evident, and the remaining lemmas that histories, certificates and commit quorums
    once established stay as they are. */
module Growth {
  import opened Messages
  import opened Evidence

  ghost predicate Extends(ts: Traces, ts': Traces) {
    |ts| == |ts'| && forall r {:trigger ts[r]} {:trigger ts'[r]} :: 0 <= r < |ts| ==> ts[r] <= ts'[r]
  }

  function Append(ts: Traces, i: nat, m: Message): Traces
    requires i < |ts|
  {
    ts[i := ts[i] + [m]]
  }

  lemma AppendExtends(ts: Traces, i: nat, m: Message)
    requires i < |ts|
    ensures Extends(ts, Append(ts, i, m))
  {
  }

  lemma {:induction false} CommsPrefix(t: seq<Message>, t': seq<Message>, v: nat)
    requires t <= t'
    ensures Comms(t, v) <= Comms(t', v)
    decreases |t'|
  {
    if t != t' {
      CommsPrefix(t, t'[..|t'| - 1], v);
    }
  }

  // ---------- What a replica may certify next ----------

  /** Message m, stamped as the next one of replica i, is a ViewChange that completes the view it leaves,
      or a commitment in a view that no earlier ViewChange of i has left. */
  ghost predicate Permitted(c: Config, ts: Traces, i: nat, m: Message)
    requires c.Ok() && |ts| == c.n && i < c.n
  {
    && m.Sender() == i && m.Counter() == |ts[i]| + 1
    && if m.ViewChangeMsg? then
         && Complete(ts[i], m.vc)
         && forall vc :: ViewChangeMsg(vc) in ts[i] ==> vc.newView != m.vc.newView
       else
         exists v :: PermittedIn(c, ts, i, m, v)
  }

  ghost predicate PermittedIn(c: Config, ts: Traces, i: nat, m: Message, v: nat)
    requires c.Ok() && |ts| == c.n && i < c.n
  {
    && m.CommitsIn(v)
    && (forall vc :: ViewChangeMsg(vc) in ts[i] ==> vc.newView <= v)
    && if i == c.Primary(v) then PermittedProposal(c, ts, m, v) else PermittedCommit(c, ts, i, m, v)
  }

  /** The primary's next proposal: the NewView message first, then Prepares under consecutive counters. */
  ghost predicate PermittedProposal(c: Config, ts: Traces, m: Message, v: nat)
    requires c.Ok() && |ts| == c.n
  {
    var p := Props(c, ts, v);
    && m.IsProposal()
    && (m.NewView? <==> p == [] && v >= 1)
    && (m.NewView? ==> GenuineCert(c, ts, v, m.nvCert))
    && (p == [] && v == 0 ==> m.Counter() == 1)
    && (p != [] ==> m.Counter() == p[|p| - 1].Counter() + 1)
  }

  /** A backup's Commit to the first proposal it has not committed to. */
  ghost predicate PermittedCommit(c: Config, ts: Traces, i: nat, m: Message, v: nat)
    requires c.Ok() && |ts| == c.n && i < c.n
  {
    var k := |Comms(ts[i], v)|;
    m.Commit? && k < |Props(c, ts, v)| && m.proposal == Props(c, ts, v)[k]
  }

  // ---------- The evidence stays evident ----------

  lemma EmitStamp(c: Config, ts: Traces, i: nat, m: Message, r: nat, k: nat)
    requires Evident(c, ts) && i < c.n && Permitted(c, ts, i, m)
    ensures StampOk(Append(ts, i, m), r, k)
  {
    assert StampOk(ts, r, k);
  }

  lemma EmitUnique(c: Config, ts: Traces, i: nat, m: Message, r: nat, a: ViewChange, b: ViewChange)
    requires Evident(c, ts) && i < c.n && Permitted(c, ts, i, m)
    ensures UniqueOk(Append(ts, i, m), r, a, b)
  {
    assert UniqueOk(ts, r, a, b);
  }

  lemma EmitComplete(c: Config, ts: Traces, i: nat, m: Message, r: nat, vc: ViewChange)
    requires Evident(c, ts) && i < c.n && Permitted(c, ts, i, m)
    ensures CompleteOk(Append(ts, i, m), r, vc)
  {
    assert CompleteOk(ts, r, vc);
    if r == i && ViewChangeMsg(vc) in ts[i] + [m] {
      if vc.newView >= 1 {
        CommsAppend(ts[i], m, vc.newView - 1);
        if !m.ViewChangeMsg? {
          var v :| PermittedIn(c, ts, i, m, v);
          assert ViewChangeMsg(vc) in ts[i];
          assert !m.CommitsIn(vc.newView - 1);
        }
      }
    }
  }

  lemma UnwrapsAppend(l: seq<Message>, m: Message, p: seq<Message>)
    requires Unwraps(l) <= p && |l| < |p| && p[|l|] == m.Unwrap()
    ensures Unwraps(l + [m]) <= p
  {
    assert Unwraps(l + [m]) == Unwraps(l) + [m.Unwrap()];
  }

  lemma PrefixOfMore(l: seq<Message>, p: seq<Message>, q: seq<Message>)
    requires l <= p <= q
    ensures l <= q
  {
  }

  /** A replica's own new commitment is to the next proposal. */
  lemma FollowsOwn(c: Config, ts: Traces, i: nat, m: Message, v: nat)
    requires Evident(c, ts) && i < c.n && Permitted(c, ts, i, m) && m.CommitsIn(v)
    ensures FollowsOk(c, Append(ts, i, m), i, v)
  {
    var l, p, p' := Comms(ts[i], v), Props(c, ts, v), Props(c, Append(ts, i, m), v);
    assert PermittedIn(c, ts, i, m, v);
    assert FollowsOk(c, ts, i, v);
    CommsAppend(ts[i], m, v);
    if i == c.Primary(v) {
      assert p == l && p' == l + [m];
    } else {
      assert p' == p;
    }
    UnwrapsAppend(l, m, p');
  }

  lemma EmitFollows(c: Config, ts: Traces, i: nat, m: Message, r: nat, v: nat)
    requires Evident(c, ts) && i < c.n && Permitted(c, ts, i, m)
    ensures FollowsOk(c, Append(ts, i, m), r, v)
  {
    if r == i && m.CommitsIn(v) {
      FollowsOwn(c, ts, i, m, v);
    } else if r < c.n {
      assert FollowsOk(c, ts, r, v);
      CommsAppend(ts[i], m, v);
      PrefixOfMore(Unwraps(Comms(ts[r], v)), Props(c, ts, v), Props(c, Append(ts, i, m), v));
    }
  }

  lemma GenuineCertGrows(c: Config, ts: Traces, ts': Traces, v: nat, cert: seq<ViewChange>)
    requires c.Ok() && |ts| == c.n && Extends(ts, ts') && GenuineCert(c, ts, v, cert)
    ensures GenuineCert(c, ts', v, cert)
  {
    forall i | 0 <= i < |cert|
      ensures Genuine(c, ts', v, cert[i])
    {
      assert Genuine(c, ts, v, cert[i]);
    }
  }

  /** The proposals of a view in which nothing new is proposed. */
  lemma ProposalsStay(c: Config, ts: Traces, ts': Traces, v: nat)
    requires Evident(c, ts) && Extends(ts, ts') && Props(c, ts', v) == Props(c, ts, v)
    ensures ProposalsOk(c, ts', v)
  {
    var p := Props(c, ts, v);
    assert ProposalsOk(c, ts, v);
    if v >= 1 && p != [] {
      GenuineCertGrows(c, ts, ts', v, p[0].nvCert);
    }
  }

  lemma EmitProposals(c: Config, ts: Traces, i: nat, m: Message, v: nat)
    requires Evident(c, ts) && i < c.n && Permitted(c, ts, i, m)
    ensures ProposalsOk(c, Append(ts, i, m), v)
  {
    var ts' := Append(ts, i, m);
    CommsAppend(ts[i], m, v);
    AppendExtends(ts, i, m);
    if i == c.Primary(v) && m.CommitsIn(v) {
      OneMoreProposal(c, ts, i, m, v);
    } else {
      ProposalsStay(c, ts, ts', v);
    }
  }

  lemma OneMoreProposal(c: Config, ts: Traces, i: nat, m: Message, v: nat)
    requires Evident(c, ts) && i == c.Primary(v) < c.n && Permitted(c, ts, i, m) && m.CommitsIn(v)
    ensures ProposalsOk(c, Append(ts, i, m), v)
  {
    var ts', p := Append(ts, i, m), Props(c, ts, v);
    CommsAppend(ts[i], m, v);
    AppendExtends(ts, i, m);
    assert Props(c, ts', v) == p + [m];
    assert ProposalsOk(c, ts, v);
    assert PermittedIn(c, ts, i, m, v);
    if v >= 1 {
      GenuineCertGrows(c, ts, ts', v, if p == [] then m.nvCert else p[0].nvCert);
    }
  }

  /** The traces stay evident when a replica certifies a permitted message. */
  lemma EmitEvident(c: Config, ts: Traces, i: nat, m: Message)
    requires Evident(c, ts) && i < c.n && Permitted(c, ts, i, m)
    ensures Evident(c, Append(ts, i, m))
  {
    var ts' := Append(ts, i, m);
    forall r, k ensures StampOk(ts', r, k) { EmitStamp(c, ts, i, m, r, k); }
    forall r, vc ensures CompleteOk(ts', r, vc) { EmitComplete(c, ts, i, m, r, vc); }
    forall r, a, b ensures UniqueOk(ts', r, a, b) { EmitUnique(c, ts, i, m, r, a, b); }
    forall r, v ensures FollowsOk(c, ts', r, v) { EmitFollows(c, ts, i, m, r, v); }
    forall v ensures ProposalsOk(c, ts', v) { EmitProposals(c, ts, i, m, v); }
  }

  // ---------- Established facts stay ----------

  lemma PropsGrow(c: Config, ts: Traces, ts': Traces, v: nat)
    requires c.Ok() && |ts| == c.n && Extends(ts, ts')
    ensures Props(c, ts, v) <= Props(c, ts', v)
  {
    CommsPrefix(ts[c.Primary(v)], ts'[c.Primary(v)], v);
  }

  lemma HistoryStays(c: Config, ts: Traces, ts': Traces, v: nat, k: nat)
    requires Evident(c, ts) && Evident(c, ts') && Extends(ts, ts') && k <= |Props(c, ts, v)|
    ensures k <= |Props(c, ts', v)| && History(c, ts', v, k) == History(c, ts, v, k)
  {
    PropsGrow(c, ts, ts', v);
    assert Props(c, ts', v)[..k] == Props(c, ts, v)[..k];
  }

  lemma CommittedStays(c: Config, ts: Traces, ts': Traces, v: nat, k: nat)
    requires c.Ok() && |ts| == c.n && Extends(ts, ts') && CommittedBy(c, ts, v, k)
    ensures CommittedBy(c, ts', v, k)
  {
    var a, b := Committers(c, ts, v, k), Committers(c, ts', v, k);
    forall r | r in a
      ensures r in b
    {
      CommsPrefix(ts[r], ts'[r], v);
    }
    assert b == a + (b - a);
  }
}
