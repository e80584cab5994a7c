/** When a replica stops, over every run in which it takes its messages through the handlers.

    Through the handlers two panics can be reached: retiring a request that was not prepared
    (core/request.go:282-297), by a replica that entered a view before expecting it, and refusing a message of its
    own (core/message-handling.go:381-389). */
module Panics {
  import opened Messages
  import opened Extraction
  import opened Commitments
  import opened Requests
  import opened Execution
  import opened Replica
  import opened System
  import opened Agreement
  import opened Handling
  import opened Steadiness
  import opened OwnMessages
  import LifeCycles

  // ---------- Processing any message ----------

  lemma {:induction false} PrepareAllCaptured(x: Exec, l: seq<Request>, client: nat)
    ensures Nums(PrepareAll(x, l).clients, client).captured == Nums(x.clients, client).captured
  {
    if l != [] {
      PrepareAllCaptured(x, l[..|l| - 1], client);
    }
  }

  /** Preparing a list panics if and only if one of its requests has not been captured. */
  lemma {:induction false} PrepareAllStopsIff(x: Exec, l: seq<Request>)
    requires !x.stopped && LifeCycle(x.clients)
    ensures PrepareAll(x, l).stopped <==> !AllCaptured(x.clients, l)
    decreases |l|
  {
    if l != [] {
      var init, q := l[..|l| - 1], l[|l| - 1];
      PrepareAllStopsIff(x, init);
      if AllCaptured(x.clients, init) {
        var y := PrepareAll(x, init);
        LifeCycles.PrepareAllLife(x, init);
        PrepareAllCaptured(x, init, q.clientID);
        assert ClientOk(y.clients, q.clientID);
        assert AllCaptured(x.clients, l) <==> q.seqNo <= Nums(x.clients, q.clientID).captured;
      } else {
        var k :| 0 <= k < |init| && init[k].seqNo > Nums(x.clients, init[k].clientID).captured;
        assert l[k] == init[k];
      }
    }
  }

  /** The message is to be applied now and asks to prepare a request that has not been captured. */
  ghost predicate Uncaptured(s: Replica, m: Message) {
    && m.Counter() == Get(s.lastUI, m.Sender()) + 1 && Applies(s, m)
    && ((m.Prepare? && m.request.seqNo > Nums(s.exec.clients, m.request.clientID).captured)
        || (m.NewView? && Extract(m.nvCert).Some? && !AllCaptured(s.exec.clients, Extract(m.nvCert).value)))
  }

  lemma NewViewStopsIff(c: Config, s: Replica, i: nat, m: Message, order: Order)
    requires c.Ok() && !s.exec.stopped && LifeCycle(s.exec.clients) && m.NewView? && Extract(m.nvCert).Some?
    ensures ApplyNewView(c, s, i, m, order).s.exec.stopped <==>
            !AllCaptured(s.exec.clients, Extract(m.nvCert).value)
  {
    var l := Extract(m.nvCert).value;
    PrepareAllStopsIff(s.exec, l);
    if AllCaptured(s.exec.clients, l) {
      NewViewSteady(c, s, i, m, order);
    }
  }

  lemma ProposalStopsIff(c: Config, s: Replica, i: nat, m: Message, order: Order)
    requires c.Ok() && !s.exec.stopped && LifeCycle(s.exec.clients) && m.IsProposal()
    requires m.NewView? ==> Extract(m.nvCert).Some?
    ensures ProcessCertified(c, s, i, m, order).s.exec.stopped <==> Uncaptured(s, m)
  {
    TakenForm(c, s, i, m, order);
    if m.NewView? {
      NewViewStopsIff(c, EnterView(s, m.newView), i, m, order);
    } else {
      assert ClientOk(s.exec.clients, m.request.clientID);
      if !PrepareEffect(s.exec.clients, m.request).Panics? {
        PrepareSteady(s, i, m);
      }
    }
  }

  /** In every run, whatever has or has not been handled before: processing a message panics if and only if it asks to
      prepare a request that has not been captured, or is a Commit that completes the quorum for a proposal whose
      requests are not all prepared. */
  lemma ProcessingPanicsIff(c: Config, run: seq<Action>, i: nat, m: Message, order: Order)
    requires c.Ok() && i < c.n && |After(c, run)| == c.n && Usable(After(c, run), m)
    requires !After(c, run)[i].exec.stopped
    ensures var s := After(c, run)[i];
            ProcessCertified(c, s, i, m, order).s.exec.stopped <==> Uncaptured(s, m) || Unready(s, m)
  {
    var g := After(c, run);
    RunInv(c, run);
    LifeCycles.LifeCycleHolds(c, run, i);
    if !m.ViewChangeMsg? {
      if m.Unwrap().NewView? {
        BegunWith(c, TracesOf(g), m);
      }
      if m.Commit? {
        CommitStopsIff(c, g[i], i, m, order);
      } else {
        ProposalStopsIff(c, g[i], i, m, order);
      }
    }
  }

  // ---------- Processing what the handlers allow ----------

  /** The action processes a Commit for a proposal that is not prepared, or a message of the replica's own that
      is refused. */
  ghost predicate StopsAt(g: State, a: Action) {
    && a.Processes() && a.at < |g| && Usable(g, a.m)
    && (Unready(g[a.at], a.m) || (a.ReceiveOwn? && Refused(g[a.at], a.m)))
  }

  lemma ProcessingStopsIff(c: Config, run: seq<Action>, a: Action)
    requires c.Ok() && a.at < c.n && |After(c, run)| == c.n && Allowed(c, After(c, run), a)
    requires !After(c, run)[a.at].exec.stopped && a.Processes() && Usable(After(c, run), a.m)
    ensures Local(c, After(c, run), a).exec.stopped <==> StopsAt(After(c, run), a)
  {
    var g := After(c, run);
    ProcessedState(c, g, a);
    PanicsIff(c, run, a.at, a.m, a.order);
    if a.ReceiveOwn? {
      OwnRefusedIff(c, run, a.at, a.m, a.order);
    }
  }

  /** In every run, a live replica that takes an action its handlers allow stops if and only if the action
      processes a Commit that completes the quorum for a proposal whose requests it has not all prepared, or is
      about a message of its own, the next one, which is a Prepare of the expected view for a request at or below
      the client's last prepared one. */
  lemma StopsIff(c: Config, run: seq<Action>, a: Action)
    requires c.Ok() && a.at < c.n && |After(c, run)| == c.n && Allowed(c, After(c, run), a)
    requires !After(c, run)[a.at].exec.stopped
    ensures |After(c, run + [a])| == c.n
    ensures After(c, run + [a])[a.at].exec.stopped <==> StopsAt(After(c, run), a)
  {
    OneMore(c, run, a);
    if a.Processes() && Usable(After(c, run), a.m) {
      ProcessingStopsIff(c, run, a);
    } else {
      OthersGoOn(c, After(c, run), a);
    }
  }

  lemma OthersGoOn(c: Config, g: State, a: Action)
    requires c.Ok() && a.at < |g| && !g[a.at].exec.stopped && !(a.Processes() && Usable(g, a.m))
    ensures !Local(c, g, a).exec.stopped
  {
  }

  // ---------- Replicas that were never ahead ----------

  /** With action a, replica i refuses a message of its own. */
  ghost predicate RefusesOwn(g: State, a: Action, i: nat) {
    && a.ReceiveOwn? && a.at == i < |g| && Usable(g, a.m)
    && !g[i].exec.stopped && Refused(g[i], a.m)
  }

  lemma AheadStays(c: Config, g: State, a: Action)
    requires c.Ok() && a.at < |g| && g[a.at].ahead
    ensures Local(c, g, a).ahead
  {
    if a.Processes() && Usable(g, a.m) {
      CertifiedAhead(c, g[a.at], a.at, a.m, a.order);
    }
  }

  /** One action of a replica that is not ahead after it. */
  lemma StepStops(c: Config, run: seq<Action>, a: Action)
    requires c.Ok() && a.at < c.n && Orderly(c, run) && Allowed(c, After(c, run), a) && |After(c, run)| == c.n
    requires !Local(c, After(c, run), a).ahead
    ensures !After(c, run)[a.at].ahead
    ensures var s := After(c, run)[a.at];
            Local(c, After(c, run), a).exec.stopped <==> s.exec.stopped || RefusesOwn(After(c, run), a, a.at)
  {
    var g := After(c, run);
    var s := g[a.at];
    if s.ahead {
      AheadStays(c, g, a);
    }
    if s.exec.stopped {
      StaysStopped(c, g, a);
    } else {
      OneMore(c, run, a);
      StopsIff(c, run, a);
      if a.Processes() && Usable(g, a.m) {
        RunInv(c, run);
        SteadyRun(c, run, a.at);
        AlwaysReady(c, TracesOf(g), s, a.m);
      }
    }
  }

  ghost predicate RefusedAt(c: Config, run: seq<Action>, i: nat, k: nat)
    requires c.Ok()
  {
    k < |run| && RefusesOwn(After(c, run[..k]), run[k], i)
  }

  /** Replica i has refused a message of its own during the run. */
  ghost predicate HasRefused(c: Config, run: seq<Action>, i: nat)
    requires c.Ok()
  {
    exists k: nat :: RefusedAt(c, run, i, k)
  }

  lemma HasRefusedNext(c: Config, run: seq<Action>, i: nat)
    requires c.Ok() && run != []
    ensures var before, a := run[..|run| - 1], run[|run| - 1];
            HasRefused(c, run, i) <==> HasRefused(c, before, i) || RefusesOwn(After(c, before), a, i)
  {
    var before := run[..|run| - 1];
    forall k: nat | k < |before|
      ensures RefusedAt(c, run, i, k) <==> RefusedAt(c, before, i, k)
    {
      assert run[..k] == before[..k];
    }
    assert RefusedAt(c, run, i, |before|) <==> RefusesOwn(After(c, before), run[|before|], i);
  }

  /** In every orderly run, a replica that has never entered a view before expecting it has stopped if and only
      if it has refused a message of its own. */
  lemma {:induction false} NeverStops(c: Config, run: seq<Action>, i: nat)
    requires c.Ok() && i < c.n && Orderly(c, run)
    ensures |After(c, run)| == c.n
    ensures !After(c, run)[i].ahead ==> (After(c, run)[i].exec.stopped <==> HasRefused(c, run, i))
    decreases |run|
  {
    AfterLength(c, run);
    if run != [] && !After(c, run)[i].ahead {
      var before, a := run[..|run| - 1], run[|run| - 1];
      OrderlyBefore(c, run);
      NeverStops(c, before, i);
      HasRefusedNext(c, run, i);
      if a.at == i {
        StepStops(c, before, a);
      }
    }
  }
}
