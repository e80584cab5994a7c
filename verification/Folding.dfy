/** What a stripped message log stands for, said without recursion (core/new-view.go:162-177). */
module Folding {
  import opened Messages
  import opened Extraction

  /** The requests of the Prepare messages that a log commits to, in order. */
  function RequestsOf(log: seq<Message>): (l: seq<Request>)
    requires forall i :: 0 <= i < |log| ==> log[i].Unwrap().Prepare?
    ensures |l| == |log| && forall i :: 0 <= i < |log| ==> l[i] == log[i].Unwrap().request
  {
    seq(|log|, i requires 0 <= i < |log| => log[i].Unwrap().request)
  }

  /** More requests after those of an extraction, if it succeeded. */
  function Plus(x: Option<seq<Request>>, l: seq<Request>): Option<seq<Request>> {
    if x.None? then None else Some(x.value + l)
  }

  lemma PlusTwice(x: Option<seq<Request>>, a: seq<Request>, b: seq<Request>)
    ensures Plus(Plus(x, a), b) == Plus(x, a + b) && Plus(x, []) == x
  {
    if x.Some? {
      assert x.value + a + b == x.value + (a + b) && x.value + [] == x.value;
    }
  }

  lemma FoldOne(log: seq<Message>)
    requires log != [] && log[|log| - 1].Unwrap().Prepare?
    ensures Fold(log) == Plus(Fold(log[..|log| - 1]), [log[|log| - 1].Unwrap().request])
  {
  }

  /** Commitments to Prepare messages stand for their requests, after whatever came before. */
  lemma {:induction false} FoldPrepares(log: seq<Message>, k: nat)
    requires k <= |log| && forall i :: k <= i < |log| ==> log[i].Unwrap().Prepare?
    ensures Fold(log) == Plus(Fold(log[..k]), RequestsOf(log[k..]))
    decreases |log|
  {
    if k == |log| {
      assert log[..k] == log && RequestsOf(log[k..]) == [];
      PlusTwice(Fold(log), [], []);
    } else {
      var n := |log| - 1;
      var init, q := log[..n], log[n].Unwrap().request;
      FoldPrepares(init, k);
      FoldOne(log);
      assert init[..k] == log[..k];
      assert RequestsOf(log[k..]) == RequestsOf(init[k..]) + [q];
      PlusTwice(Fold(log[..k]), RequestsOf(init[k..]), [q]);
    }
  }

  /** A commitment to a NewView message stands for what its certificate evidences, whatever came before it, and what
      follows is added: so a log stands for its last NewView message and the requests after it. */
  lemma FoldIs(log: seq<Message>, k: nat)
    requires k < |log| && log[k].Unwrap().NewView? && Fold(log[..k]).Some?
    requires forall i :: k < i < |log| ==> log[i].Unwrap().Prepare?
    ensures Fold(log) == Plus(Extract(log[k].Unwrap().nvCert), RequestsOf(log[k + 1..]))
  {
    FoldPrepares(log, k + 1);
    assert log[..k + 1][..k] == log[..k];
    assert Fold(log[..k + 1]) == Extract(log[k].Unwrap().nvCert);
  }

  /** Without a NewView message it stands for all its requests. */
  lemma FoldIsAll(log: seq<Message>)
    requires forall i :: 0 <= i < |log| ==> log[i].Unwrap().Prepare?
    ensures Fold(log) == Some(RequestsOf(log))
  {
    FoldPrepares(log, 0);
    assert log[..0] == [] && log[0..] == log;
    assert [] + RequestsOf(log) == RequestsOf(log);
  }
}
