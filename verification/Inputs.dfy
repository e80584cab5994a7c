/** What reaches a replica from outside, and the runs it leads to when every message is handled with all it
    embeds (core/message-handling.go:381-389, 449-525).

    Handling is a run of the system in which every action is one the handlers allow, so that the results about
    orderly runs hold of it. */
module Inputs {
  import opened Messages
  import opened Extraction
  import opened Validation
  import opened Commitments
  import opened Execution
  import opened Replica
  import opened Invariants
  import opened System
  import opened Agreement
  import opened Handling
  import opened Capturing
  import opened Steadiness
  import opened OwnMessages
  import opened Panics
  import Embeddings

  // ---------- Handled runs ----------

  /** A message from another replica, a certified message from the replica's own log, a request, a view-change request,
      the replica's own included, or a timeout. */
  datatype Input =
    | MessageIn(at: nat, m: Message, order: Order)
    | OwnIn(at: nat, m: Message, order: Order)
    | RequestIn(at: nat, q: Request)
    | ReqViewChangeIn(at: nat, rvc: ReqViewChange)
    | TimeoutIn(at: nat, newView: nat)

  /** Message m may come from the log of live replica i: none before it is left to process, or it is a ViewChange
      message, for which the log was reset with messages possibly not taken from it yet. */
  predicate FromLog(g: State, i: nat, m: Message) {
    && i < |g| && !g[i].exec.stopped && Usable(g, m)
    && m.Sender() == i && (m.Counter() <= Get(g[i].lastUI, i) + 1 || m.ViewChangeMsg?)
  }

  function Take(c: Config, g: State, a: Input): Replica
    requires c.Ok() && a.at < |g|
  {
    var s := g[a.at];
    match a
    case MessageIn(i, m, order) => if Sent(g, m) then Handle(c, s, i, m, order).s else s
    case OwnIn(i, m, order) => if FromLog(g, i, m) then HandleOwn(c, s, i, m, order) else s
    case RequestIn(i, q) => ProcessRequest(c, s, i, q)
    case ReqViewChangeIn(i, rvc) => HandleRequests(c, s, i, [rvc]).s
    case TimeoutIn(i, newView) => RequestViewChange(s, i, newView)
  }

  /** The state after a handled run; an input for no replica changes nothing. */
  function AfterInputs(c: Config, inputs: seq<Input>): State
    requires c.Ok()
  {
    if inputs == [] then Start(c)
    else
      var g, a := AfterInputs(c, inputs[..|inputs| - 1]), inputs[|inputs| - 1];
      if a.at < |g| then g[a.at := Take(c, g, a)] else g
  }

  // ---------- Handling takes an orderly run further ----------

  /** No replica has refused more of its own messages in run' than in run. */
  ghost predicate SameRefusals(c: Config, run: seq<Action>, run': seq<Action>)
    requires c.Ok()
  {
    forall j :: HasRefused(c, run', j) == HasRefused(c, run, j)
  }

  /** If run is orderly, so is run', which goes on with messages handled. */
  ghost predicate Continues(c: Config, run: seq<Action>, run': seq<Action>)
    requires c.Ok()
  {
    Orderly(c, run) ==> Orderly(c, run') && SameRefusals(c, run, run')
  }

  lemma ContinuesNext(c: Config, run: seq<Action>, run1: seq<Action>, a: Action)
    requires c.Ok() && Continues(c, run, run1) && Allowed(c, After(c, run1), a) && !a.ReceiveOwn?
    ensures Continues(c, run, run1 + [a])
  {
    if Orderly(c, run) {
      OrderlyNext(c, run1, a);
      forall j: nat
        ensures HasRefused(c, run1 + [a], j) == HasRefused(c, run, j)
      {
        HasRefusedNext(c, run1 + [a], j);
        assert (run1 + [a])[..|run1|] == run1;
        assert HasRefused(c, run1, j) == HasRefused(c, run, j);
      }
    }
  }

  lemma ContinuesTwice(c: Config, run: seq<Action>, run1: seq<Action>, run2: seq<Action>)
    requires c.Ok() && Continues(c, run, run1) && Continues(c, run1, run2)
    ensures Continues(c, run, run2)
  {
    if Orderly(c, run) {
      forall j: nat
        ensures HasRefused(c, run2, j) == HasRefused(c, run, j)
      {
        assert HasRefused(c, run1, j) == HasRefused(c, run, j);
      }
    }
  }

  lemma {:induction false} RequestsRun(c: Config, run: seq<Action>, i: nat, cert: seq<ReqViewChange>)
    returns (run': seq<Action>)
    requires c.Ok() && i < c.n && |After(c, run)| == c.n
    ensures Moved(After(c, run), After(c, run'), i, HandleRequests(c, After(c, run)[i], i, cert).s)
    ensures Continues(c, run, run')
    decreases |cert|
  {
    if cert == [] {
      run' := run;
    } else {
      var k := |cert| - 1;
      var run1 := RequestsRun(c, run, i, cert[..k]);
      var h := HandleRequests(c, After(c, run)[i], i, cert[..k]);
      if !h.ok || cert[k].newView < 1 || cert[k].replicaID >= c.n {
        run' := run1;
      } else {
        var a := ReceiveReqViewChange(i, cert[k]);
        run' := run1 + [a];
        OneMore(c, run1, a);
        ContinuesNext(c, run, run1, a);
      }
    }
  }

  /** The handlers establish what processing needs. */
  lemma HandlersPrepare(c: Config, s: Replica, i: nat, m: Message, order: Order)
    requires c.Ok()
    ensures var h := HandleEmbedded(c, s, i, m, order); h.ok && !h.s.exec.stopped ==> Prepped(h.s, m)
  {
    PreparingNeverPanics(c, s, i, m, order);
    EmbeddedUI(c, s, i, m, order);
  }

  /** Handling a received message, with everything embedded in it, takes the system through a run: the results
      about runs cover the source's recursive handlers.  An orderly run stays orderly. */
  lemma {:induction false} HandleRun(c: Config, run: seq<Action>, i: nat, m: Message, order: Order)
    returns (run': seq<Action>)
    requires c.Ok() && i < c.n && |After(c, run)| == c.n && Sent(After(c, run), m)
    ensures Moved(After(c, run), After(c, run'), i, Handle(c, After(c, run)[i], i, m, order).s)
    ensures Continues(c, run, run')
    decreases Size(m), 1, 0
  {
    var g := After(c, run);
    ProducerMeetsValidator(c, run, m);
    var run1 := EmbeddedRun(c, run, i, m, order);
    var h := HandleEmbedded(c, g[i], i, m, order);
    if h.ok {
      var a := ReceiveMessage(i, m, order);
      SentStays(g, After(c, run1), i, h.s, m);
      run' := run1 + [a];
      OneMore(c, run1, a);
      HandlersPrepare(c, g[i], i, m, order);
      ContinuesNext(c, run, run1, a);
    } else {
      run' := run1;
    }
  }

  lemma {:induction false} EmbeddedRun(c: Config, run: seq<Action>, i: nat, m: Message, order: Order)
    returns (run': seq<Action>)
    requires c.Ok() && i < c.n && |After(c, run)| == c.n && Sent(After(c, run), m)
    ensures Moved(After(c, run), After(c, run'), i, HandleEmbedded(c, After(c, run)[i], i, m, order).s)
    ensures Continues(c, run, run')
    decreases Size(m), 0, |Embedded(m)| + 1
  {
    var g := After(c, run);
    if m.Prepare? {
      var a := ReceiveRequest(i, m.request);
      run' := run + [a];
      OneMore(c, run, a);
      ContinuesNext(c, run, run, a);
    } else {
      var run1, h := run, Handled(g[i], true);
      if m.ViewChangeMsg? {
        run1 := RequestsRun(c, run, i, m.vc.vcCert);
        h := HandleRequests(c, g[i], i, m.vc.vcCert);
      }
      if h.ok {
        SentStays(g, After(c, run1), i, h.s, m);
        run' := FirstRun(c, run1, h.s, i, m, |Embedded(m)|, order);
        ContinuesTwice(c, run, run1, run');
      } else {
        run' := run1;
      }
    }
  }

  /** The last of the first k embedded messages is handled after the others. */
  lemma FirstNext(c: Config, s: Replica, i: nat, m: Message, k: nat, order: Order)
    requires c.Ok() && 0 < k <= |Embedded(m)| && HandleFirst(c, s, i, m, k - 1, order).ok
    ensures HandleFirst(c, s, i, m, k, order)
            == Handle(c, HandleFirst(c, s, i, m, k - 1, order).s, i, Embedded(m)[k - 1], order)
  {
  }

  /** Replica i is in state s after the run, and message m has been certified. */
  ghost predicate StandsAt(c: Config, run: seq<Action>, i: nat, s: Replica, m: Message) {
    c.Ok() && i < c.n == |After(c, run)| && After(c, run)[i] == s && Sent(After(c, run), m)
  }

  /** Run run' continues run and takes replica i to state t. */
  ghost predicate Brings(c: Config, run: seq<Action>, run': seq<Action>, i: nat, t: Replica)
    requires c.Ok()
  {
    Moved(After(c, run), After(c, run'), i, t) && Continues(c, run, run')
  }

  lemma {:induction false} FirstRun(c: Config, run: seq<Action>, s: Replica, i: nat, m: Message, k: nat, order: Order)
    returns (run': seq<Action>)
    requires StandsAt(c, run, i, s, m) && k <= |Embedded(m)|
    ensures Brings(c, run, run', i, HandleFirst(c, s, i, m, k, order).s)
    decreases Size(m), 0, k
  {
    if k == 0 {
      run' := run;
    } else {
      var run1 := FirstRun(c, run, s, i, m, k - 1, order);
      var h := HandleFirst(c, s, i, m, k - 1, order);
      if h.ok {
        run' := NextRun(c, run, run1, s, h.s, i, m, k - 1, order);
        FirstNext(c, s, i, m, k, order);
      } else {
        run' := run1;
      }
    }
  }

  /** The embedded message number k, with the ones before it handled. */
  lemma {:induction false} NextRun(c: Config, run: seq<Action>, run1: seq<Action>, s: Replica, t: Replica, i: nat,
                                   m: Message, k: nat, order: Order)
    returns (run': seq<Action>)
    requires StandsAt(c, run, i, s, m) && Brings(c, run, run1, i, t) && k < |Embedded(m)|
    ensures Brings(c, run, run', i, Handle(c, t, i, Embedded(m)[k], order).s)
    decreases Size(m), 0, k
  {
    var x := Embedded(m)[k];
    EmbeddedSmaller(m, k);
    PartStands(c, run, run1, i, s, t, m, k);
    run' := HandleRun(c, run1, i, x, order);
    BringsTwice(c, run, run1, run', i, t, Handle(c, t, i, x, order).s);
  }

  lemma PartStands(c: Config, run: seq<Action>, run1: seq<Action>, i: nat, s: Replica, t: Replica, m: Message, k: nat)
    requires StandsAt(c, run, i, s, m) && Brings(c, run, run1, i, t) && k < |Embedded(m)|
    ensures StandsAt(c, run1, i, t, Embedded(m)[k])
  {
    AfterLength(c, run1);
    PartSent(c, After(c, run), run1, i, t, m, k);
  }

  lemma BringsTwice(c: Config, run: seq<Action>, run1: seq<Action>, run2: seq<Action>, i: nat, s: Replica, t: Replica)
    requires c.Ok() && Brings(c, run, run1, i, s) && Brings(c, run1, run2, i, t)
    ensures Brings(c, run, run2, i, t)
  {
    MovedTwice(After(c, run), After(c, run1), After(c, run2), i, s, t);
    ContinuesTwice(c, run, run1, run2);
  }

  lemma PartSent(c: Config, g: State, run: seq<Action>, i: nat, s': Replica, m: Message, k: nat)
    requires c.Ok() && Sent(g, m) && Moved(g, After(c, run), i, s') && k < |Embedded(m)|
    ensures Sent(After(c, run), Embedded(m)[k])
  {
    RunInv(c, run);
    SentStays(g, After(c, run), i, s', m);
    EmbeddedSent(c, After(c, run), m, k);
  }

  lemma MovedTwice(g: State, g1: State, g2: State, i: nat, s1: Replica, s2: Replica)
    requires Moved(g, g1, i, s1) && Moved(g1, g2, i, s2)
    ensures Moved(g, g2, i, s2)
  {
  }

  // ---------- Messages of the replica's own ----------

  /** An entry of the log in the replica's own ViewChange message. */
  lemma {:induction false} OwnEntry(c: Config, run: seq<Action>, s: Replica, i: nat, m: Message, k: nat, order: Order)
    requires StandsAt(c, run, i, s, m) && Orderly(c, run) && !s.exec.stopped
    requires m.ViewChangeMsg? && m.Sender() == i && k < |m.vc.log| && (k > 0 ==> IsCounted(s, m.vc.log[k - 1]))
    ensures var h := Handle(c, s, i, m.vc.log[k], order); h.ok && !h.s.exec.stopped
    decreases Size(m), 0
  {
    var x := m.vc.log[k];
    assert Embedded(m)[k] == x;
    PartSent(c, After(c, run), run, i, s, m, k);
    ProducerMeetsValidator(c, run, m);
    if x.ViewChangeMsg? {
      EmbeddedSmaller(m, k);
      OwnViewChange(c, run, s, i, x, order);
      SelfContained(c, s, i, x.vc, order);
    } else {
      Embeddings.EntryNext(c, run, i, m.vc, k);
      OwnPastSucceeds(c, run, i, x, m.vc, order);
    }
  }

  /** A message of the replica's own, next in order, of a view that the replica has left. */
  lemma OwnPastSucceeds(c: Config, run: seq<Action>, i: nat, m: Message, vc: ViewChange, order: Order)
    requires c.Ok() && i < c.n && |After(c, run)| == c.n && Orderly(c, run) && !After(c, run)[i].exec.stopped
    requires Usable(After(c, run), m) && m.Sender() == i && m.Counter() <= Get(After(c, run)[i].lastUI, i) + 1
    requires !m.ViewChangeMsg? && MessageView(m) < vc.newView
    requires Sent(After(c, run), ViewChangeMsg(vc)) && vc.replicaID == i
    ensures var h := Handle(c, After(c, run)[i], i, m, order); h.ok && !h.s.exec.stopped
  {
    var g := After(c, run);
    var s, h := g[i], HandleEmbedded(c, g[i], i, m, order);
    ProducerMeetsValidator(c, run, m);
    Embeddings.OwnEmbeddedSucceeds(c, run, i, m, order);
    var run1 := EmbeddedRun(c, run, i, m, order);
    AfterLength(c, run1);
    SentStays(g, After(c, run1), i, h.s, m);
    HandlersPrepare(c, s, i, m, order);
    EmbeddedUI(c, s, i, m, order);
    assert Get(s.lastUI, i) <= Get(h.s.lastUI, i);
    SentStays(g, After(c, run1), i, h.s, ViewChangeMsg(vc));
    LeftBehind(c, run1, i, vc);
    OwnRefusedIff(c, run1, i, m, order);
    PanicsIff(c, run1, i, m, order);
  }

  lemma LeftBehind(c: Config, run: seq<Action>, i: nat, vc: ViewChange)
    requires c.Ok() && i < c.n && |After(c, run)| == c.n && Sent(After(c, run), ViewChangeMsg(vc)) && vc.replicaID == i
    ensures vc.newView <= After(c, run)[i].expected
  {
    RunInv(c, run);
    assert At(c, After(c, run), i);
    assert BoundOk(After(c, run)[i], vc);
  }

  /** The log in the replica's own ViewChange message, whatever of it has not been processed before. */
  lemma {:induction false} OwnLog(c: Config, run: seq<Action>, s: Replica, i: nat, m: Message, k: nat, order: Order)
    requires StandsAt(c, run, i, s, m) && Orderly(c, run) && !s.exec.stopped
    requires m.ViewChangeMsg? && m.Sender() == i && k <= |m.vc.log|
    ensures var h := HandleFirst(c, s, i, m, k, order); h.ok && !h.s.exec.stopped
    decreases Size(m), 1, k
  {
    if k > 0 {
      OwnLog(c, run, s, i, m, k - 1, order);
      var h := HandleFirst(c, s, i, m, k - 1, order);
      var run1 := FirstRun(c, run, s, i, m, k - 1, order);
      StandsOn(c, run, run1, i, s, h.s, m);
      if k > 1 {
        FirstUI(c, s, i, m, k - 1, order);
        assert IsCounted(h.s, Embedded(m)[k - 2]);
      }
      OwnEntry(c, run1, h.s, i, m, k - 1, order);
      FirstNext(c, s, i, m, k, order);
    }
  }

  lemma StandsOn(c: Config, run: seq<Action>, run1: seq<Action>, i: nat, s: Replica, t: Replica, m: Message)
    requires StandsAt(c, run, i, s, m) && Brings(c, run, run1, i, t) && Orderly(c, run)
    ensures StandsAt(c, run1, i, t, m) && Orderly(c, run1)
  {
    AfterLength(c, run1);
    SentStays(After(c, run), After(c, run1), i, t, m);
  }

  /** In every orderly run, a live replica handles what its own ViewChange message embeds without error or panic,
      even if it has not processed the messages in its log: they are of views it has left. */
  lemma {:induction false} OwnViewChange(c: Config, run: seq<Action>, s: Replica, i: nat, m: Message, order: Order)
    requires StandsAt(c, run, i, s, m) && Orderly(c, run) && !s.exec.stopped && m.ViewChangeMsg? && m.Sender() == i
    ensures var h := HandleEmbedded(c, s, i, m, order); h.ok && !h.s.exec.stopped
    decreases Size(m), 2
  {
    Embeddings.CertificatesValid(c, run, m.vc);
    Embeddings.RequestsAccepted(c, s, i, m.vc.vcCert);
    var h := HandleRequests(c, s, i, m.vc.vcCert);
    var run1 := RequestsRun(c, run, i, m.vc.vcCert);
    StandsOn(c, run, run1, i, s, h.s, m);
    OwnLog(c, run1, h.s, i, m, |Embedded(m)|, order);
  }

  lemma EmbeddedSameUI(c: Config, s: Replica, i: nat, m: Message, order: Order)
    requires c.Ok() && m.Prepare?
    ensures Refused(HandleEmbedded(c, s, i, m, order).s, m) <==> Refused(s, m)
  {
  }

  lemma OwnReady(c: Config, run: seq<Action>, i: nat, m: Message, order: Order)
    requires c.Ok() && |After(c, run)| == c.n && Orderly(c, run) && FromLog(After(c, run), i, m)
    ensures var h := HandleEmbedded(c, After(c, run)[i], i, m, order);
            h.ok && !h.s.exec.stopped && m.Counter() <= Get(h.s.lastUI, i) + 1
  {
    var s, h := After(c, run)[i], HandleEmbedded(c, After(c, run)[i], i, m, order);
    if m.ViewChangeMsg? {
      ProducerMeetsValidator(c, run, m);
      OwnViewChange(c, run, s, i, m, order);
      SelfContained(c, s, i, m.vc, order);
    } else {
      Embeddings.OwnEmbeddedSucceeds(c, run, i, m, order);
      EmbeddedUI(c, s, i, m, order);
      assert Get(s.lastUI, i) <= Get(h.s.lastUI, i);
    }
  }

  /** The next of the replica's own messages: what it embeds is handled without error, then it is processed. */
  lemma OwnOrderly(c: Config, run: seq<Action>, i: nat, m: Message, order: Order)
    returns (run1: seq<Action>, a: Action)
    requires c.Ok() && |After(c, run)| == c.n && Orderly(c, run) && FromLog(After(c, run), i, m)
    ensures Continues(c, run, run1) && |After(c, run1)| == c.n
    ensures a == ReceiveOwn(i, m, order) && Allowed(c, After(c, run1), a)
    ensures Moved(After(c, run), After(c, run1 + [a]), i, HandleOwn(c, After(c, run)[i], i, m, order))
    ensures RefusesOwn(After(c, run1), a, i) <==> Refused(After(c, run)[i], m)
    ensures HandleEmbedded(c, After(c, run)[i], i, m, order) == Handled(After(c, run1)[i], true)
    ensures !After(c, run1)[i].exec.stopped && Usable(After(c, run1), m)
  {
    var g := After(c, run);
    run1 := EmbeddedRun(c, run, i, m, order);
    a := ReceiveOwn(i, m, order);
    var g1, h := After(c, run1), HandleEmbedded(c, g[i], i, m, order);
    OwnReady(c, run, i, m, order);
    SentStays(g, g1, i, h.s, m);
    HandlersPrepare(c, g[i], i, m, order);
    OneMore(c, run1, a);
    MovedTwice(g, g1, After(c, run1 + [a]), i, h.s, After(c, run1 + [a])[i]);
    if m.Prepare? {
      EmbeddedSameUI(c, g[i], i, m, order);
    }
  }

  // ---------- Handled runs are orderly ----------

  /** With input a, replica i refuses a message of its own. */
  ghost predicate InputRefuses(g: State, a: Input, i: nat) {
    a.OwnIn? && a.at == i && FromLog(g, i, a.m) && Refused(g[i], a.m)
  }

  ghost predicate RefusedWith(c: Config, inputs: seq<Input>, i: nat, k: nat)
    requires c.Ok()
  {
    k < |inputs| && InputRefuses(AfterInputs(c, inputs[..k]), inputs[k], i)
  }

  /** Replica i has refused a message of its own during the handled run. */
  ghost predicate RefusedOwn(c: Config, inputs: seq<Input>, i: nat)
    requires c.Ok()
  {
    exists k: nat :: RefusedWith(c, inputs, i, k)
  }

  lemma RefusedOwnNext(c: Config, inputs: seq<Input>, i: nat)
    requires c.Ok() && inputs != []
    ensures var before, a := inputs[..|inputs| - 1], inputs[|inputs| - 1];
            RefusedOwn(c, inputs, i) <==> RefusedOwn(c, before, i) || InputRefuses(AfterInputs(c, before), a, i)
  {
    var before := inputs[..|inputs| - 1];
    forall k: nat | k < |before|
      ensures RefusedWith(c, inputs, i, k) <==> RefusedWith(c, before, i, k)
    {
      assert inputs[..k] == before[..k];
    }
    assert RefusedWith(c, inputs, i, |before|) <==>
           InputRefuses(AfterInputs(c, before), inputs[|before|], i);
  }

  /** The run goes on to one in which replica j has refused more exactly if it refuses the input. */
  ghost predicate Follows(c: Config, run: seq<Action>, run': seq<Action>, a: Input)
    requires c.Ok()
  {
    && Orderly(c, run')
    && forall j :: HasRefused(c, run', j) == (HasRefused(c, run, j) || InputRefuses(After(c, run), a, j))
  }

  lemma ContinuesFollows(c: Config, run: seq<Action>, run': seq<Action>, a: Input)
    requires c.Ok() && Orderly(c, run) && Continues(c, run, run') && !(a.OwnIn? && FromLog(After(c, run), a.at, a.m))
    ensures Follows(c, run, run', a)
  {
    forall j: nat
      ensures HasRefused(c, run', j) == (HasRefused(c, run, j) || InputRefuses(After(c, run), a, j))
    {
      assert HasRefused(c, run', j) == HasRefused(c, run, j);
    }
  }

  lemma OwnFollows(c: Config, run: seq<Action>, i: nat, m: Message, order: Order) returns (run': seq<Action>)
    requires c.Ok() && |After(c, run)| == c.n && Orderly(c, run) && FromLog(After(c, run), i, m)
    ensures Moved(After(c, run), After(c, run'), i, HandleOwn(c, After(c, run)[i], i, m, order))
    ensures Follows(c, run, run', OwnIn(i, m, order))
  {
    var run1, a := OwnOrderly(c, run, i, m, order);
    run' := run1 + [a];
    OrderlyNext(c, run1, a);
    forall j: nat
      ensures HasRefused(c, run', j)
              == (HasRefused(c, run, j) || InputRefuses(After(c, run), OwnIn(i, m, order), j))
    {
      HasRefusedNext(c, run', j);
      assert run'[..|run1|] == run1;
      assert HasRefused(c, run1, j) == HasRefused(c, run, j);
    }
  }

  lemma OneAction(c: Config, run: seq<Action>, a: Action) returns (run': seq<Action>)
    requires c.Ok() && a.at < c.n && |After(c, run)| == c.n && Orderly(c, run)
    requires Allowed(c, After(c, run), a) && !a.ReceiveOwn?
    ensures Moved(After(c, run), After(c, run'), a.at, Local(c, After(c, run), a)) && Continues(c, run, run')
  {
    run' := run + [a];
    OneMore(c, run, a);
    ContinuesNext(c, run, run, a);
  }

  lemma TakeOrderly(c: Config, run: seq<Action>, a: Input) returns (run': seq<Action>)
    requires c.Ok() && a.at < c.n && |After(c, run)| == c.n && Orderly(c, run)
    ensures Moved(After(c, run), After(c, run'), a.at, Take(c, After(c, run), a)) && Follows(c, run, run', a)
  {
    var g := After(c, run);
    run' := run;
    if a.OwnIn? && FromLog(g, a.at, a.m) {
      run' := OwnFollows(c, run, a.at, a.m, a.order);
    } else {
      match a {
        case MessageIn(i, m, order) =>
          if Sent(g, m) {
            run' := HandleRun(c, run, i, m, order);
          }
        case OwnIn(_, _, _) =>
        case RequestIn(i, q) => run' := OneAction(c, run, ReceiveRequest(i, q));
        case ReqViewChangeIn(i, rvc) => run' := RequestsRun(c, run, i, [rvc]);
        case TimeoutIn(i, newView) => run' := OneAction(c, run, Timeout(i, newView));
      }
      ContinuesFollows(c, run, run', a);
    }
  }

  /** A handled run is an orderly run of the system in which each replica refuses the same of its own messages. */
  lemma {:induction false} InputsOrderly(c: Config, inputs: seq<Input>) returns (run: seq<Action>)
    requires c.Ok()
    ensures After(c, run) == AfterInputs(c, inputs) && |After(c, run)| == c.n && Orderly(c, run)
    ensures forall j :: HasRefused(c, run, j) == RefusedOwn(c, inputs, j)
    decreases |inputs|
  {
    if inputs == [] {
      run := [];
    } else {
      var a := inputs[|inputs| - 1];
      var before := InputsOrderly(c, inputs[..|inputs| - 1]);
      if a.at < c.n {
        run := TakeOrderly(c, before, a);
      } else {
        run := before;
      }
      AfterLength(c, run);
      forall j: nat
        ensures HasRefused(c, run, j) == RefusedOwn(c, inputs, j)
      {
        RefusedOwnNext(c, inputs, j);
        assert HasRefused(c, before, j) == RefusedOwn(c, inputs[..|inputs| - 1], j);
        if a.at < c.n {
          assert HasRefused(c, run, j) == (HasRefused(c, before, j) || InputRefuses(After(c, before), a, j));
        }
      }
    }
  }

  /** In every handled run, a replica that has never entered a view before expecting it has stopped if and only if
      it has refused a message of its own: a Prepare of the view it expected for a request at or below the last one
      prepared for the client. */
  lemma HandledNeverStops(c: Config, inputs: seq<Input>, i: nat)
    requires c.Ok() && i < c.n
    ensures |AfterInputs(c, inputs)| == c.n
    ensures var s := AfterInputs(c, inputs)[i]; !s.ahead ==> (s.exec.stopped <==> RefusedOwn(c, inputs, i))
  {
    var run := InputsOrderly(c, inputs);
    NeverStops(c, run, i);
  }

  /** In every handled run, when a live replica takes a message from its own log, what the message embeds is handled
      without error, and the message itself is refused if and only if it is a Prepare of the expected view, next in
      order, for a request at or below the last one prepared for its client; a replica that is not ahead then stops
      in no other case. */
  lemma OwnHandledIff(c: Config, inputs: seq<Input>, i: nat, m: Message, order: Order)
    requires c.Ok() && |AfterInputs(c, inputs)| == c.n && FromLog(AfterInputs(c, inputs), i, m)
    ensures var s := AfterInputs(c, inputs)[i];
            var h, t := HandleEmbedded(c, s, i, m, order), HandleOwn(c, s, i, m, order);
            && h.ok && !h.s.exec.stopped
            && (!ProcessCertified(c, h.s, i, m, order).ok <==> Refused(s, m))
            && (!t.ahead ==> (t.exec.stopped <==> Refused(s, m)))
  {
    var run := InputsOrderly(c, inputs);
    var run1, a := OwnOrderly(c, run, i, m, order);
    var g1 := After(c, run1);
    OwnRefusedIff(c, run1, i, m, order);
    OneMore(c, run1, a);
    if !Local(c, g1, a).ahead {
      StepStops(c, run1, a);
    }
  }

  /** In every handled run, every view-change request in the certificate of a certified ViewChange message is
      valid (core/message-handling.go:569-572). */
  lemma HandledCertificates(c: Config, inputs: seq<Input>, vc: ViewChange)
    requires c.Ok() && Sent(AfterInputs(c, inputs), ViewChangeMsg(vc))
    ensures Embeddings.CertValid(c, vc.vcCert)
  {
    var run := InputsOrderly(c, inputs);
    Embeddings.CertificatesValid(c, run, vc);
  }

  /** New-view replay for a message that is handled with all it embeds, in any handled run. */
  lemma HandledReplay(c: Config, inputs: seq<Input>, i: nat, m: Message, order: Order)
    requires c.Ok() && i < c.n && |AfterInputs(c, inputs)| == c.n && Sent(AfterInputs(c, inputs), m)
    requires var h := HandleEmbedded(c, AfterInputs(c, inputs)[i], i, m, order);
             h.ok && !h.s.ahead && !h.s.exec.stopped && Completes(h.s, m)
    ensures var s := AfterInputs(c, inputs)[i];
            var h, t := HandleEmbedded(c, s, i, m, order), Handle(c, s, i, m, order).s;
            && Extract(m.Unwrap().nvCert).Some? && !t.exec.stopped
            && h.s.exec.delivered <= t.exec.delivered == Dedup(Extract(m.Unwrap().nvCert).value)
  {
    var run := InputsOrderly(c, inputs);
    var g := After(c, run);
    var run1 := EmbeddedRun(c, run, i, m, order);
    var h := HandleEmbedded(c, g[i], i, m, order);
    SentStays(g, After(c, run1), i, h.s, m);
    HandlersPrepare(c, g[i], i, m, order);
    ProducerMeetsValidator(c, run, m);
    OneMore(c, run1, ReceiveMessage(i, m, order));
    ReplayDelivers(c, run1, i, m, order);
  }
}
