/** Execution of committed requests and their replay in a new view (core/request.go:220-240,
    core/new-view.go:108-138).

    A replica executes a request only if it retires it first, and retiring refuses an identifier that is
    not greater than the client's last retired one.  So what a replica has delivered is a function,
    `Dedup`, of the proposals it has executed, repeated or not. */
module Execution {
  import opened Messages
  import opened Requests

  /** The identifier of the client's last request in a list, zero if there is none. */
  function LastSeq(d: seq<Request>, c: nat): nat {
    if d == [] then 0
    else if d[|d| - 1].clientID == c then d[|d| - 1].seqNo
    else LastSeq(d[..|d| - 1], c)
  }

  /** The requests that get executed when a list is executed from the beginning. */
  function Dedup(l: seq<Request>): seq<Request> {
    if l == [] then []
    else
      var d := Dedup(l[..|l| - 1]);
      var q := l[|l| - 1];
      if q.seqNo > LastSeq(d, q.clientID) then d + [q] else d
  }

  /** Request identifiers are positive and strictly increase per client. */
  ghost predicate Increasing(l: seq<Request>) {
    && (forall i :: 0 <= i < |l| ==> l[i].seqNo > 0)
    && (forall i, j :: 0 <= i < j < |l| && l[i].clientID == l[j].clientID ==> l[i].seqNo < l[j].seqNo)
  }

  lemma LastSeqAppend(d: seq<Request>, q: Request, c: nat)
    ensures LastSeq(d + [q], c) == if q.clientID == c then q.seqNo else LastSeq(d, c)
  {
    assert (d + [q])[..|d|] == d;
  }

  lemma DedupAppend(l: seq<Request>, q: Request)
    ensures Dedup(l + [q]) == if q.seqNo > LastSeq(Dedup(l), q.clientID) then Dedup(l) + [q] else Dedup(l)
  {
    assert (l + [q])[..|l|] == l;
  }

  /** Longer histories only extend what is executed. */
  lemma DedupPrefix(x: seq<Request>, y: seq<Request>)
    requires x <= y
    ensures Dedup(x) <= Dedup(y)
    decreases |y|
  {
    if x != y {
      DedupPrefix(x, y[..|y| - 1]);
    }
  }

  /** Every request of a history is covered by what was executed of it. */
  lemma {:induction false} DedupCovers(l: seq<Request>, i: nat)
    requires i < |l|
    ensures l[i].seqNo <= LastSeq(Dedup(l), l[i].clientID)
    decreases |l|
  {
    var k := |l| - 1;
    var d, q := Dedup(l[..k]), l[k];
    if i < k {
      DedupCovers(l[..k], i);
      assert l[i].seqNo <= LastSeq(d, l[i].clientID);
    }
    if q.seqNo > LastSeq(d, q.clientID) {
      assert Dedup(l) == d + [q];
      LastSeqAppend(d, q, l[i].clientID);
    }
  }

  lemma {:induction false} LastSeqBounds(d: seq<Request>, i: nat)
    requires Increasing(d) && i < |d|
    ensures d[i].seqNo <= LastSeq(d, d[i].clientID)
  {
    if d[|d| - 1].clientID != d[i].clientID {
      LastSeqBounds(d[..|d| - 1], i);
    }
  }

  lemma LastSeqFound(d: seq<Request>, c: nat)
    ensures LastSeq(d, c) == 0 || exists i :: 0 <= i < |d| && d[i].clientID == c && d[i].seqNo == LastSeq(d, c)
  {
    if d != [] && d[|d| - 1].clientID != c {
      LastSeqFound(d[..|d| - 1], c);
      if LastSeq(d, c) != 0 {
        var i :| 0 <= i < |d| - 1 && d[..|d| - 1][i].clientID == c && d[..|d| - 1][i].seqNo == LastSeq(d, c);
        assert d[i].clientID == c;
      }
    }
  }

  /** No request is ever executed twice, and each client's requests are executed in order. */
  lemma {:induction false} DedupIncreasing(l: seq<Request>)
    ensures Increasing(Dedup(l))
  {
    if l != [] {
      var d, q := Dedup(l[..|l| - 1]), l[|l| - 1];
      DedupIncreasing(l[..|l| - 1]);
      if q.seqNo > LastSeq(d, q.clientID) {
        OneMoreIncreasing(d, q);
      }
    }
  }

  lemma OneMoreIncreasing(d: seq<Request>, q: Request)
    requires Increasing(d) && q.seqNo > LastSeq(d, q.clientID)
    ensures Increasing(d + [q])
  {
    forall i | 0 <= i < |d| && d[i].clientID == q.clientID
      ensures d[i].seqNo < q.seqNo
    {
      LastSeqBounds(d, i);
    }
  }

  /** A history without repetitions is executed as it is. */
  lemma {:induction false} DedupIdentity(l: seq<Request>)
    requires Increasing(l)
    ensures Dedup(l) == l
  {
    if l != [] {
      var k := |l| - 1;
      var init, q := l[..k], l[k];
      assert l == init + [q];
      DedupIdentity(init);
      DedupAppend(init, q);
      LastIsGreatest(l);
    }
  }

  /** In an increasing list, the last request has the greatest identifier of its client. */
  lemma LastIsGreatest(l: seq<Request>)
    requires Increasing(l) && l != []
    ensures var k := |l| - 1; l[k].seqNo > LastSeq(l[..k], l[k].clientID)
  {
    var k := |l| - 1;
    var init, q := l[..k], l[k];
    LastSeqFound(init, q.clientID);
    if LastSeq(init, q.clientID) != 0 {
      var i :| 0 <= i < k && init[i].clientID == q.clientID && init[i].seqNo == LastSeq(init, q.clientID);
      assert l[i].seqNo < l[k].seqNo;
    }
  }

  // ---------- The executor ----------

  /** The part of a replica's state that execution changes; `stopped` records a panic. */
  datatype Exec = Exec(clients: Clients, delivered: seq<Request>, stopped: bool)

  /** makeRequestExecutor: retire, then deliver to the state machine. */
  function Execute(s: Exec, q: Request): Exec {
    if s.stopped then s
    else match RetireEffect(s.clients, q)
      case Repeated => s
      case Panics => s.(stopped := true)
      case New => Exec(RetireReq(s.clients, q), s.delivered + [q], false)
  }

  /** Executing a list in order (makeNewViewAcceptor). */
  function ExecuteAll(s: Exec, l: seq<Request>): Exec {
    if l == [] then s else Execute(ExecuteAll(s, l[..|l| - 1]), l[|l| - 1])
  }

  /** Preparing a list in order (core/new-view.go:111-113). */
  function PrepareAll(s: Exec, l: seq<Request>): Exec {
    if l == [] then s
    else
      var t := PrepareAll(s, l[..|l| - 1]);
      if t.stopped then t
      else if PrepareEffect(t.clients, l[|l| - 1]).Panics? then t.(stopped := true)
      else t.(clients := PrepareReq(t.clients, l[|l| - 1]))
  }

  /** The last retired identifiers are those of the delivered requests. */
  ghost predicate Retired(s: Exec) {
    forall c :: Nums(s.clients, c).retired == LastSeq(s.delivered, c)
  }

  lemma ExecuteKeeps(s: Exec, q: Request)
    requires Retired(s)
    ensures Retired(Execute(s, q))
  {
    var t := Execute(s, q);
    forall c
      ensures Nums(t.clients, c).retired == LastSeq(t.delivered, c)
    {
      LastSeqAppend(s.delivered, q, c);
    }
  }

  /** Executing one more proposal of the history extends what is delivered accordingly. */
  lemma ExecuteNext(s: Exec, h: seq<Request>, q: Request)
    requires Retired(s) && !s.stopped && s.delivered == Dedup(h)
    ensures Execute(s, q).delivered <= Dedup(h + [q])
    ensures !Execute(s, q).stopped ==> Execute(s, q).delivered == Dedup(h + [q])
  {
    DedupAppend(h, q);
  }

  /** Executing again a request of the history changes nothing. */
  lemma ExecuteAgain(s: Exec, h: seq<Request>, i: nat)
    requires Retired(s) && s.delivered == Dedup(h) && i < |h|
    ensures Execute(s, h[i]) == s
  {
    DedupCovers(h, i);
  }

  /** Executing a whole history on top of a prefix of it delivers exactly what is missing, or stops on
      the way there. */
  lemma ReplayAll(s: Exec, h: seq<Request>, l: seq<Request>)
    requires Retired(s) && !s.stopped && s.delivered == Dedup(h)
    requires h <= l || l <= h
    ensures Retired(ExecuteAll(s, l))
    ensures var t := ExecuteAll(s, l);
            var top := if h <= l then l else h;
            t.delivered <= Dedup(top) && (!t.stopped ==> t.delivered == Dedup(top))
    decreases |l|
  {
    if l != [] {
      var k := |l| - 1;
      var init := l[..k];
      ReplayAll(s, h, init);
      var t := ExecuteAll(s, init);
      ExecuteKeeps(t, l[k]);
      if k < |h| {
        assert l[k] == h[k];
        if !t.stopped {
          ExecuteAgain(t, h, k);
        }
        assert h <= l ==> h == l;
      } else {
        assert h <= init;
        assert l == init + [l[k]];
        DedupPrefix(init, l);
        if !t.stopped {
          ExecuteNext(t, init, l[k]);
        }
      }
    }
  }

  /** Executing again an initial part of the history changes nothing. */
  lemma {:induction false} ReplayAgain(s: Exec, h: seq<Request>, l: seq<Request>)
    requires Retired(s) && s.delivered == Dedup(h) && l <= h
    ensures ExecuteAll(s, l) == s
    decreases |l|
  {
    if l != [] {
      ReplayAgain(s, h, l[..|l| - 1]);
      ExecuteAgain(s, h, |l| - 1);
    }
  }

  lemma PrepareAllKeeps(s: Exec, l: seq<Request>)
    ensures PrepareAll(s, l).delivered == s.delivered
    ensures forall c :: Nums(PrepareAll(s, l).clients, c).retired == Nums(s.clients, c).retired
  {
    if l != [] {
      PrepareAllKeeps(s, l[..|l| - 1]);
    }
  }

  // ---------- New-view replay never panics ----------

  /** Every request of the list has been captured. */
  ghost predicate AllCaptured(s: Clients, l: seq<Request>) {
    forall i :: 0 <= i < |l| ==> l[i].seqNo <= Nums(s, l[i].clientID).captured
  }

  ghost predicate AllPrepared(s: Clients, l: seq<Request>) {
    forall i :: 0 <= i < |l| ==> l[i].seqNo <= Nums(s, l[i].clientID).prepared
  }

  lemma {:induction false} PrepareAllSucceeds(s: Exec, l: seq<Request>)
    requires !s.stopped && AllCaptured(s.clients, l)
    ensures !PrepareAll(s, l).stopped
    ensures AllPrepared(PrepareAll(s, l).clients, l)
    ensures forall c :: Nums(PrepareAll(s, l).clients, c).captured == Nums(s.clients, c).captured
    decreases |l|
  {
    if l != [] {
      var k := |l| - 1;
      PrepareAllSucceeds(s, l[..k]);
      var t := PrepareAll(s, l[..k]);
      forall i | 0 <= i < |l|
        ensures l[i].seqNo <= Nums(PrepareReq(t.clients, l[k]), l[i].clientID).prepared
      {
        assert i < k ==> l[i] == l[..k][i];
      }
    }
  }

  lemma {:induction false} ExecuteAllSucceeds(s: Exec, l: seq<Request>)
    requires !s.stopped && AllPrepared(s.clients, l)
    ensures !ExecuteAll(s, l).stopped
    ensures forall c :: Nums(ExecuteAll(s, l).clients, c).prepared == Nums(s.clients, c).prepared
    decreases |l|
  {
    if l != [] {
      ExecuteAllSucceeds(s, l[..|l| - 1]);
    }
  }

  /** Executing a list without repetitions on top of an initial part of it, if nothing stops it. */
  lemma ReplaySuffix(s: Exec, l: seq<Request>, k: nat)
    requires !s.stopped && Retired(s) && Increasing(l) && k <= |l| && s.delivered == l[..k]
    requires !ExecuteAll(s, l).stopped
    ensures ExecuteAll(s, l).delivered == l
  {
    var h := l[..k];
    assert Dedup(h) == h by { IncreasingPrefix(l, k); DedupIdentity(h); }
    assert Dedup(l) == l by { DedupIdentity(l); }
    ReplayAll(s, h, l);
  }

  /** New-view replay, at any time at which the extracted list is prepared: a replica that has delivered a
      prefix of it executes it without panic and delivers exactly the missing suffix.  The list gets
      prepared by `PrepareAllSucceeds`, and module Steadiness shows that it still is when it comes to be
      executed. */
  lemma NewViewReplay(s: Exec, l: seq<Request>, k: nat)
    requires !s.stopped && Retired(s)
    requires Increasing(l) && AllPrepared(s.clients, l)
    requires k <= |l| && s.delivered == l[..k]
    ensures var t := ExecuteAll(s, l); !t.stopped && t.delivered == s.delivered + l[k..]
  {
    ExecuteAllSucceeds(s, l);
    ReplaySuffix(s, l, k);
    assert l == l[..k] + l[k..];
  }

  lemma IncreasingPrefix(l: seq<Request>, k: nat)
    requires Increasing(l) && k <= |l|
    ensures Increasing(l[..k])
  {
  }
}
