/** Recursive handling of received messages (core/message-handling.go:465-525, 643-672).

    A received message is validated, then the messages embedded in it are handled in the same way, then
    it is processed.  The results: a ViewChange message is self-contained, and each sender's messages are
    processed exactly once in counter order.  Module Inputs shows that handling amounts to a run. */
module Handling {
  import opened Messages
  import opened Validation
  import opened Commitments
  import opened Replica
  import opened Processing
  import opened System
  import opened Agreement

  datatype Handled = Handled(s: Replica, ok: bool)

  /** makeReqViewChangeValidator and makeReqViewChangeProcessor for a certificate of requests. */
  function HandleRequests(c: Config, s: Replica, i: nat, cert: seq<ReqViewChange>): Handled
    requires c.Ok()
  {
    if cert == [] then Handled(s, true)
    else
      var h := HandleRequests(c, s, i, cert[..|cert| - 1]);
      var m := cert[|cert| - 1];
      if !h.ok || m.newView < 1 || m.replicaID >= c.n then Handled(h.s, false)
      else Handled(ProcessReqViewChange(c, h.s, i, m), true)
  }

  /** makePeerMessageHandler. */
  function Handle(c: Config, s: Replica, i: nat, m: Message, order: Order): Handled
    requires c.Ok()
    decreases Size(m), 1, 0
  {
    match Validate(c, m)
    case Reject => Handled(s, false)
    case Panic => Handled(Halt(s), false)
    case Accept =>
      var h := HandleEmbedded(c, s, i, m, order);
      if !h.ok then h
      else
        var a := ProcessCertified(c, h.s, i, m, order);
        Handled(a.s, a.ok)
  }

  /** makeEmbeddedMessageHandler. */
  function HandleEmbedded(c: Config, s: Replica, i: nat, m: Message, order: Order): Handled
    requires c.Ok()
    decreases Size(m), 0, |Embedded(m)| + 1
  {
    if m.Prepare? then Handled(ProcessRequest(c, s, i, m.request), true)
    else
      var h := if m.ViewChangeMsg? then HandleRequests(c, s, i, m.vc.vcCert) else Handled(s, true);
      if !h.ok then h else HandleFirst(c, h.s, i, m, |Embedded(m)|, order)
  }

  /** The first k embedded messages, in order, up to the first error. */
  function HandleFirst(c: Config, s: Replica, i: nat, m: Message, k: nat, order: Order): Handled
    requires c.Ok() && k <= |Embedded(m)|
    decreases Size(m), 0, k
  {
    if k == 0 then Handled(s, true)
    else
      var h := HandleFirst(c, s, i, m, k - 1, order);
      EmbeddedSmaller(m, k - 1);
      if !h.ok then h else Handle(c, h.s, i, Embedded(m)[k - 1], order)
  }

  /** makeOwnMessageHandler: a message from the replica's own log is not validated, and an error in handling it
      is a panic (core/message-handling.go:381-389, 449-463). */
  function HandleOwn(c: Config, s: Replica, i: nat, m: Message, order: Order): Replica
    requires c.Ok() && (m.ViewChangeMsg? || m.Unwrap().IsProposal())
  {
    var h := HandleEmbedded(c, s, i, m, order);
    if !h.ok then Halt(h.s) else OrHalt(ProcessCertified(c, h.s, i, m, order))
  }

  // ---------- Last processed counters ----------

  /** The message has been processed. */
  predicate IsCounted(s: Replica, m: Message) {
    m.Counter() <= Get(s.lastUI, m.Sender())
  }

  /** Everything embedded in the message has been processed. */
  ghost predicate PartsCounted(s: Replica, m: Message) {
    forall k :: 0 <= k < |Embedded(m)| ==> IsCounted(s, Embedded(m)[k])
  }

  ghost predicate UIGrows(s: Replica, s': Replica) {
    forall r :: Get(s.lastUI, r) <= Get(s'.lastUI, r)
  }

  lemma CertifiedUI(c: Config, s: Replica, i: nat, m: Message, order: Order)
    requires c.Ok() && (m.ViewChangeMsg? || m.Unwrap().IsProposal())
    ensures var a := ProcessCertified(c, s, i, m, order);
            && UIGrows(s, a.s)
            && (a.ok ==> Get(a.s.lastUI, m.Sender()) >= m.Counter())
            && (forall r :: r != m.Sender() ==> Get(a.s.lastUI, r) == Get(s.lastUI, r))
            && (Get(a.s.lastUI, m.Sender()) != Get(s.lastUI, m.Sender()) ==>
                  Get(a.s.lastUI, m.Sender()) == m.Counter() == Get(s.lastUI, m.Sender()) + 1)
  {
    if !m.ViewChangeMsg? {
      LastUIUntouched(c, s, i, m, order);
    }
  }

  lemma RequestsUI(c: Config, s: Replica, i: nat, cert: seq<ReqViewChange>)
    requires c.Ok()
    ensures HandleRequests(c, s, i, cert).s.lastUI == s.lastUI
  {
    if cert != [] {
      RequestsUI(c, s, i, cert[..|cert| - 1]);
    }
  }

  lemma {:induction false} HandleUI(c: Config, s: Replica, i: nat, m: Message, order: Order)
    requires c.Ok()
    ensures UIGrows(s, Handle(c, s, i, m, order).s)
    ensures Handle(c, s, i, m, order).ok ==> Get(Handle(c, s, i, m, order).s.lastUI, m.Sender()) >= m.Counter()
    decreases Size(m), 1, 0
  {
    if Validate(c, m) == Accept {
      EmbeddedUI(c, s, i, m, order);
      CertifiedUI(c, HandleEmbedded(c, s, i, m, order).s, i, m, order);
    }
  }

  lemma {:induction false} EmbeddedUI(c: Config, s: Replica, i: nat, m: Message, order: Order)
    requires c.Ok()
    ensures UIGrows(s, HandleEmbedded(c, s, i, m, order).s)
    ensures HandleEmbedded(c, s, i, m, order).ok ==> PartsCounted(HandleEmbedded(c, s, i, m, order).s, m)
    decreases Size(m), 0, |Embedded(m)| + 1
  {
    if !m.Prepare? {
      var h := if m.ViewChangeMsg? then HandleRequests(c, s, i, m.vc.vcCert) else Handled(s, true);
      if m.ViewChangeMsg? {
        RequestsUI(c, s, i, m.vc.vcCert);
      }
      if h.ok {
        FirstUI(c, h.s, i, m, |Embedded(m)|, order);
      }
    }
  }

  lemma {:induction false} FirstUI(c: Config, s: Replica, i: nat, m: Message, k: nat, order: Order)
    requires c.Ok() && k <= |Embedded(m)|
    ensures UIGrows(s, HandleFirst(c, s, i, m, k, order).s)
    ensures HandleFirst(c, s, i, m, k, order).ok ==>
              forall j :: 0 <= j < k ==> IsCounted(HandleFirst(c, s, i, m, k, order).s, Embedded(m)[j])
    decreases Size(m), 0, k
  {
    if k > 0 {
      FirstUI(c, s, i, m, k - 1, order);
      EmbeddedSmaller(m, k - 1);
      var h := HandleFirst(c, s, i, m, k - 1, order);
      var t := Handle(c, h.s, i, Embedded(m)[k - 1], order).s;
      HandleUI(c, h.s, i, Embedded(m)[k - 1], order);
      forall j | h.ok && 0 <= j < k - 1
        ensures IsCounted(t, Embedded(m)[j])
      {
        assert IsCounted(h.s, Embedded(m)[j]);
        assert Get(h.s.lastUI, Embedded(m)[j].Sender()) <= Get(t.lastUI, Embedded(m)[j].Sender());
      }
    }
  }

  /** A ViewChange message is self-contained: once the messages embedded in a valid one have been handled,
      the sender's counter has reached the one before it, so it is not refused for a counter gap. */
  lemma SelfContained(c: Config, s: Replica, i: nat, vc: ViewChange, order: Order)
    requires c.Ok() && Validate(c, ViewChangeMsg(vc)) == Accept
    ensures var h := HandleEmbedded(c, s, i, ViewChangeMsg(vc), order);
            h.ok ==>
              && Get(h.s.lastUI, vc.replicaID) >= vc.cv - 1
              && (!h.s.exec.stopped ==> Handle(c, s, i, ViewChangeMsg(vc), order).ok)
  {
    var m := ViewChangeMsg(vc);
    EmbeddedUI(c, s, i, m, order);
    var h := HandleEmbedded(c, s, i, m, order);
    if h.ok && |vc.log| > 0 {
      assert IsCounted(h.s, Embedded(m)[|vc.log| - 1]);
    }
  }

  // ---------- Exactly once, in order ----------

  /** The counters of the messages of sender r that replica i has processed during a run, in order. */
  function Processed(c: Config, run: seq<Action>, i: nat, r: nat): seq<nat>
    requires c.Ok() && i < c.n
  {
    if run == [] then []
    else
      var before, a := run[..|run| - 1], run[|run| - 1];
      AfterLength(c, before); AfterLength(c, run);
      var list := Processed(c, before, i, r);
      if a.Processes() && Get(After(c, run)[i].lastUI, r) != Get(After(c, before)[i].lastUI, r)
      then list + [a.m.Counter()] else list
  }

  lemma AfterLength(c: Config, run: seq<Action>)
    requires c.Ok()
    ensures |After(c, run)| == c.n
  {
  }

  /** Over every run, the counters processed for a sender are exactly 1, 2, ..., lastUI, in order. */
  lemma {:induction false} ProcessedInOrder(c: Config, run: seq<Action>, i: nat, r: nat)
    requires c.Ok() && i < c.n
    ensures |After(c, run)| == c.n
    ensures |Processed(c, run, i, r)| == Get(After(c, run)[i].lastUI, r)
    ensures forall k :: 0 <= k < |Processed(c, run, i, r)| ==> Processed(c, run, i, r)[k] == k + 1
  {
    AfterLength(c, run);
    if run != [] {
      var before, a := run[..|run| - 1], run[|run| - 1];
      ProcessedInOrder(c, before, i, r);
      var g := After(c, before);
      if a.at == i {
        LocalUI(c, g, a, r);
      }
    }
  }

  lemma LocalUI(c: Config, g: State, a: Action, r: nat)
    requires c.Ok() && a.at < |g|
    ensures var s' := Local(c, g, a);
            Get(s'.lastUI, r) != Get(g[a.at].lastUI, r) ==>
              a.Processes() && Get(s'.lastUI, r) == a.m.Counter() == Get(g[a.at].lastUI, r) + 1
  {
    if a.Processes() && Usable(g, a.m) {
      CertifiedUI(c, g[a.at], a.at, a.m, a.order);
    }
  }

  // ---------- Handling is a run ----------

  /** State g' is g with replica i moved on to s'. */
  ghost predicate Moved(g: State, g': State, i: nat, s': Replica) {
    i < |g| && g' == g[i := s'] && g[i].trace <= s'.trace
  }

  lemma SentStays(g: State, g': State, i: nat, s': Replica, m: Message)
    requires Moved(g, g', i, s') && Sent(g, m)
    ensures Sent(g', m)
  {
  }

  /** One more action of replica i. */
  lemma OneMore(c: Config, run: seq<Action>, a: Action)
    requires c.Ok() && a.at < c.n
    ensures |After(c, run)| == c.n
    ensures Moved(After(c, run), After(c, run + [a]), a.at, Local(c, After(c, run), a))
  {
    AfterLength(c, run);
    TraceGrows(c, run, a);
    assert After(c, run + [a]) == Act(c, After(c, run), a) by { assert (run + [a])[..|run|] == run; }
  }

  lemma TraceGrows(c: Config, run: seq<Action>, a: Action)
    requires c.Ok() && a.at < c.n && |After(c, run)| == c.n
    ensures After(c, run)[a.at].trace <= Local(c, After(c, run), a).trace
  {
    RunInv(c, run);
    LocalKeeps(c, After(c, run), a);
  }
}
