/** Capturing request identifiers of one client from concurrent goroutines
    (core/internal/clientstate/request-seq.go:47-82).

    The mutex makes each stretch between two waits atomic; goroutines interleave between those stretches in
    any order.  A goroutine asleep on the condition variable runs again only after a broadcast. */
module Captures {

  /** Where a goroutine is in CaptureRequestSeq; one that is not in the map is outside. */
  datatype Place =
    | Entering(seqNo: nat)                  // at the head of the outer loop, runnable
    | Draining(seqNo: nat)                  // at the head of the inner loop, runnable
    | Asleep(seqNo: nat, inner: bool)       // in Wait
    | Holding(seqNo: nat)                   // was told "new", has not called release

  /** A completed decision: the identifier and the boolean returned for it. */
  datatype Decision = Decision(seqNo: nat, isNew: bool)

  datatype State =
    State(captured: nat, released: nat, places: map<nat, Place>, decisions: seq<Decision>)

  datatype Action = Call(t: nat, seqNo: nat) | Run(t: nat) | Release(t: nat)

  const START := State(0, 0, map[], [])

  function Woken(p: Place): Place {
    match p
    case Asleep(n, inner) => if inner then Draining(n) else Entering(n)
    case _ => p
  }

  function Broadcast(ps: map<nat, Place>): map<nat, Place> {
    map t | t in ps :: Woken(ps[t])
  }

  function Without(ps: map<nat, Place>, t: nat): map<nat, Place> {
    map u | u in ps && u != t :: ps[u]
  }

  /** The inner loop: wait for the identifier to get released, then report it as not new. */
  function Drain(s: State, t: nat, n: nat): State {
    if n > s.released then s.(places := s.places[t := Asleep(n, true)])
    else s.(places := Without(s.places, t), decisions := s.decisions + [Decision(n, false)])
  }

  /** The outer loop up to the next wait or return. */
  function Enter(s: State, t: nat, n: nat): State {
    if n <= s.captured then Drain(s, t, n)
    else if s.captured > s.released then s.(places := s.places[t := Asleep(n, false)])
    else s.(captured := n, places := s.places[t := Holding(n)], decisions := s.decisions + [Decision(n, true)])
  }

  /** One atomic stretch; an action that is not possible changes nothing. */
  function Act(s: State, a: Action): State {
    match a
    case Call(t, n) => if t in s.places then s else s.(places := s.places[t := Entering(n)])
    case Run(t) =>
      if t !in s.places then s
      else if s.places[t].Entering? then Enter(s, t, s.places[t].seqNo)
      else if s.places[t].Draining? then Drain(s, t, s.places[t].seqNo)
      else s
    case Release(t) =>
      if t in s.places && s.places[t].Holding?
      then s.(released := s.captured, places := Broadcast(Without(s.places, t))) else s
  }

  function After(run: seq<Action>): State {
    if run == [] then START else Act(After(run[..|run| - 1]), run[|run| - 1])
  }

  // ---------- The sequential object ----------

  /** The identifier last reported as new. */
  function LastNew(ds: seq<Decision>): nat {
    if ds == [] then 0
    else if ds[|ds| - 1].isNew then ds[|ds| - 1].seqNo
    else LastNew(ds[..|ds| - 1])
  }

  /** Every decision is the one that an uninterrupted capture would have taken at that point. */
  ghost predicate Sequential(ds: seq<Decision>) {
    forall i :: 0 <= i < |ds| ==> (ds[i].isNew <==> ds[i].seqNo > LastNew(ds[..i]))
  }

  // ---------- Invariant ----------

  ghost predicate PlaceOk(s: State, t: nat) {
    t in s.places ==>
      match s.places[t]
      case Entering(_) => true
      case Draining(n) => n <= s.captured
      case Asleep(n, inner) => s.captured > s.released && (inner ==> s.released < n <= s.captured)
      case Holding(n) => s.captured > s.released && n == s.captured
  }

  /** Someone holds the greatest captured identifier exactly while it is not released. */
  ghost predicate HolderOk(s: State) {
    s.captured > s.released ==> exists t :: IsHolder(s, t)
  }

  ghost predicate IsHolder(s: State, t: nat) {
    t in s.places && s.places[t].Holding?
  }

  ghost predicate Exclusive(s: State) {
    forall t, u :: IsHolder(s, t) && IsHolder(s, u) ==> t == u
  }

  ghost predicate Ok(s: State) {
    && s.released <= s.captured == LastNew(s.decisions)
    && Sequential(s.decisions)
    && (forall t :: PlaceOk(s, t))
    && HolderOk(s) && Exclusive(s)
  }

  lemma DecideOk(ds: seq<Decision>, d: Decision)
    requires Sequential(ds) && (d.isNew <==> d.seqNo > LastNew(ds))
    ensures Sequential(ds + [d])
    ensures LastNew(ds + [d]) == if d.isNew then d.seqNo else LastNew(ds)
  {
    assert (ds + [d])[..|ds|] == ds;
    forall i | 0 <= i < |ds|
      ensures (ds + [d])[..i] == ds[..i]
    {
    }
  }

  lemma DrainKeeps(s: State, t: nat, n: nat)
    requires Ok(s) && n <= s.captured && t in s.places && !s.places[t].Holding?
    ensures Ok(Drain(s, t, n))
  {
    var s' := Drain(s, t, n);
    DecideOk(s.decisions, Decision(n, false));
    forall u
      ensures PlaceOk(s', u) && (IsHolder(s', u) <==> IsHolder(s, u))
    {
      assert PlaceOk(s, u);
    }
    if s.captured > s.released {
      var h :| IsHolder(s, h);
      assert IsHolder(s', h);
    }
  }

  lemma EnterKeeps(s: State, t: nat, n: nat)
    requires Ok(s) && n > s.captured && t in s.places && !s.places[t].Holding?
    ensures Ok(Enter(s, t, n))
  {
    var s' := Enter(s, t, n);
    if s.captured == s.released {
      DecideOk(s.decisions, Decision(n, true));
      assert IsHolder(s', t);
    } else {
      var h :| IsHolder(s, h);
      assert IsHolder(s', h);
    }
    forall u
      ensures PlaceOk(s', u)
      ensures IsHolder(s', u) ==> if s.captured == s.released then u == t else IsHolder(s, u)
    {
      assert PlaceOk(s, u);
    }
  }

  lemma ReleaseKeeps(s: State, t: nat)
    requires Ok(s) && IsHolder(s, t)
    ensures Ok(Act(s, Release(t)))
    ensures Act(s, Release(t)).released == s.places[t].seqNo
  {
    var s' := Act(s, Release(t));
    assert PlaceOk(s, t);
    forall u
      ensures PlaceOk(s', u) && !IsHolder(s', u)
    {
      assert PlaceOk(s, u) && (IsHolder(s, u) ==> u == t);
    }
  }

  lemma CallKeeps(s: State, t: nat, n: nat)
    requires Ok(s) && t !in s.places
    ensures Ok(Act(s, Call(t, n)))
  {
    var s' := Act(s, Call(t, n));
    forall u
      ensures PlaceOk(s', u) && (IsHolder(s', u) <==> IsHolder(s, u))
    {
      assert PlaceOk(s, u);
    }
    if s.captured > s.released {
      var h :| IsHolder(s, h);
      assert IsHolder(s', h);
    }
  }

  lemma ActKeeps(s: State, a: Action)
    requires Ok(s)
    ensures Ok(Act(s, a))
  {
    match a
    case Call(t, n) => if t !in s.places { CallKeeps(s, t, n); }
    case Run(t) =>
      if t in s.places && (s.places[t].Entering? || s.places[t].Draining?) {
        var n := s.places[t].seqNo;
        assert PlaceOk(s, t);
        if n <= s.captured { DrainKeeps(s, t, n); } else { EnterKeeps(s, t, n); }
      }
    case Release(t) => if IsHolder(s, t) { ReleaseKeeps(s, t); }
  }

  lemma {:induction false} RunOk(run: seq<Action>)
    ensures Ok(After(run))
    decreases |run|
  {
    if run != [] {
      RunOk(run[..|run| - 1]);
      ActKeeps(After(run[..|run| - 1]), run[|run| - 1]);
    }
  }

  // ---------- What callers rely on ----------

  lemma {:induction false} LastNewBounds(ds: seq<Decision>, i: nat)
    requires Sequential(ds) && i < |ds| && ds[i].isNew
    ensures ds[i].seqNo <= LastNew(ds)
    decreases |ds|
  {
    var k := |ds| - 1;
    var front := ds[..k];
    if i < k {
      forall j | 0 <= j < |front|
        ensures front[..j] == ds[..j]
      {
      }
      LastNewBounds(front, i);
    }
  }

  /** For every interleaving: the decisions are those of an atomic capture executed in some order, so an
      identifier is reported new at most once and new identifiers increase. */
  lemma Linearizable(run: seq<Action>)
    ensures var ds := After(run).decisions;
            && Sequential(ds)
            && forall i, j :: 0 <= i < j < |ds| && ds[i].isNew && ds[j].isNew ==> ds[i].seqNo < ds[j].seqNo
  {
    RunOk(run);
    var ds := After(run).decisions;
    forall i, j | 0 <= i < j < |ds| && ds[i].isNew && ds[j].isNew
      ensures ds[i].seqNo < ds[j].seqNo
    {
      var front := ds[..j];
      forall k | 0 <= k < |front|
        ensures front[..k] == ds[..k]
      {
      }
      LastNewBounds(front, i);
    }
  }

  /** For every interleaving: at most one identifier is captured and not released, its holder's release
      releases exactly it, and nobody sleeps without a holder whose release will broadcast. */
  lemma MutualExclusion(run: seq<Action>)
    ensures var s := After(run);
            && Exclusive(s)
            && (s.released < s.captured <==> exists t :: IsHolder(s, t))
            && (forall t :: IsHolder(s, t) ==> Act(s, Release(t)).released == s.places[t].seqNo == s.captured)
            && (forall t :: t in s.places && s.places[t].Asleep? ==> exists h :: IsHolder(s, h))
  {
    RunOk(run);
    var s := After(run);
    forall t | IsHolder(s, t)
      ensures s.released < s.captured
    {
      assert PlaceOk(s, t);
    }
    forall t | IsHolder(s, t)
      ensures Act(s, Release(t)).released == s.places[t].seqNo == s.captured
    {
      ReleaseKeeps(s, t);
      assert PlaceOk(s, t);
    }
    forall t | t in s.places && s.places[t].Asleep?
      ensures exists h :: IsHolder(s, h)
    {
      assert PlaceOk(s, t);
    }
  }

  /** A caller is told "not new" only once every identifier up to its own that was captured is released:
      the processing of the request it repeats, or of a later one, has finished. */
  lemma RefusedAfterRelease(run: seq<Action>, t: nat)
    requires t in After(run).places && t !in Act(After(run), Run(t)).places
    ensures var s := After(run);
            && s.places[t].seqNo <= s.released
            && (forall u :: IsHolder(s, u) ==> s.places[u].seqNo > s.places[t].seqNo)
            && Act(s, Run(t)).decisions == s.decisions + [Decision(s.places[t].seqNo, false)]
  {
    RunOk(run);
    var s := After(run);
    forall u | IsHolder(s, u)
      ensures s.places[u].seqNo > s.places[t].seqNo
    {
      assert PlaceOk(s, u);
    }
  }

  // ---------- Every caller is served ----------

  predicate Runnable(s: State, t: nat) {
    t in s.places && (s.places[t].Entering? || s.places[t].Draining?)
  }

  /** From s to s', exactly the call of goroutine t for identifier n has been decided, as an uninterrupted capture
      would. */
  ghost predicate Served(s: State, s': State, t: nat, n: nat) {
    var isNew := n > LastNew(s.decisions);
    && s'.decisions == s.decisions + [Decision(n, isNew)]
    && (if isNew then t in s'.places && s'.places[t] == Holding(n) else t !in s'.places)
  }

  /** With nothing unreleased, a runnable caller is served by its next stretch. */
  lemma RunServes(s: State, t: nat)
    requires Ok(s) && Runnable(s, t) && s.captured == s.released
    ensures Served(s, Act(s, Run(t)), t, s.places[t].seqNo)
  {
    assert PlaceOk(s, t);
  }

  /** A stretch serves the caller or puts it to sleep. */
  lemma RunOrSleep(s: State, t: nat)
    requires Ok(s) && Runnable(s, t)
    ensures var s' := Act(s, Run(t));
            || Served(s, s', t, s.places[t].seqNo)
            || (t in s'.places && s'.places[t].Asleep? && s'.places[t].seqNo == s.places[t].seqNo
                && s'.decisions == s.decisions)
  {
    assert PlaceOk(s, t);
  }

  /** The holder's release wakes the caller, who is then served. */
  lemma ReleaseServes(s: State, t: nat, h: nat)
    requires Ok(s) && t in s.places && s.places[t].Asleep? && IsHolder(s, h)
    ensures Served(s, Act(Act(s, Release(h)), Run(t)), t, s.places[t].seqNo)
  {
    var s' := Act(s, Release(h));
    ReleaseKeeps(s, h);
    assert PlaceOk(s, h);
    assert Runnable(s', t) && s'.places[t].seqNo == s.places[t].seqNo;
    RunServes(s', t);
  }

  function Then(s: State, more: seq<Action>): State
    decreases |more|
  {
    if more == [] then s else Then(Act(s, more[0]), more[1..])
  }

  lemma ThenTwo(s: State, a: Action, b: Action)
    ensures Then(s, [a]) == Act(s, a) && Then(s, [a, b]) == Act(Act(s, a), b)
  {
    assert [a, b][1..] == [b] && [a][1..] == [] && [b][1..] == [];
    assert Then(Act(s, a), [b]) == Act(Act(s, a), b);
  }

  lemma ThenThree(s: State, a: Action, b: Action, c: Action)
    ensures Then(s, [a, b, c]) == Act(Act(Act(s, a), b), c)
  {
    assert [a, b, c][1..] == [b, c];
    ThenTwo(Act(s, a), b, c);
  }

  /** From every run: a caller that has not returned is served, with the decision that an uninterrupted capture would
      take, after at most two stretches of its own and one release by whoever holds the greatest identifier. */
  lemma EveryoneServed(run: seq<Action>, t: nat) returns (more: seq<Action>)
    requires t in After(run).places && !After(run).places[t].Holding?
    ensures |more| <= 3 && forall k :: 0 <= k < |more| ==> more[k] == Run(t) || more[k].Release?
    ensures var s := After(run); Served(s, Then(s, more), t, s.places[t].seqNo)
  {
    RunOk(run);
    var s := After(run);
    if s.places[t].Asleep? {
      assert PlaceOk(s, t);
      var h :| IsHolder(s, h);
      more := [Release(h), Run(t)];
      ThenTwo(s, Release(h), Run(t));
      ReleaseServes(s, t, h);
    } else {
      var s1 := Act(s, Run(t));
      RunOrSleep(s, t);
      ThenTwo(s, Run(t), Run(t));
      if Served(s, s1, t, s.places[t].seqNo) {
        more := [Run(t)];
      } else {
        ActKeeps(s, Run(t));
        assert PlaceOk(s1, t);
        var h :| IsHolder(s1, h);
        more := [Run(t), Release(h), Run(t)];
        ThenThree(s, Run(t), Release(h), Run(t));
        ReleaseServes(s1, t, h);
      }
    }
  }

  // ---------- The source's in-place form ----------

  datatype Outcome = New | NotNew | Wait(inner: bool)

  /** seqState's two counters for capturing; each method is one stretch under the lock. */
  class SeqState {
    var lastCapturedSeq: nat
    var lastReleasedSeq: nat

    constructor ()
      ensures lastCapturedSeq == START.captured && lastReleasedSeq == START.released
    {
      lastCapturedSeq, lastReleasedSeq := 0, 0;
    }

    ghost predicate Holds(s: State)
      reads this
    {
      lastCapturedSeq == s.captured && lastReleasedSeq == s.released
    }

    /** CaptureRequestSeq from where goroutine t stands up to its next wait or return. */
    method Capture(n: nat, inner: bool, ghost s: State, ghost t: nat) returns (o: Outcome)
      requires Holds(s) && t in s.places && s.places[t] == if inner then Draining(n) else Entering(n)
      modifies this
      ensures Holds(Act(s, Run(t)))
      ensures var s' := Act(s, Run(t));
              match o
              case New => s'.places == s.places[t := Holding(n)] && s'.decisions == s.decisions + [Decision(n, true)]
              case NotNew => t !in s'.places && s'.decisions == s.decisions + [Decision(n, false)]
              case Wait(w) => s' == s.(places := s.places[t := Asleep(n, w)])
    {
      if inner || n <= lastCapturedSeq {
        if n > lastReleasedSeq {
          return Wait(true);
        }
        return NotNew;
      }
      if lastCapturedSeq > lastReleasedSeq {
        return Wait(false);
      }
      lastCapturedSeq := n;
      return New;
    }

    /** The closure returned with a new identifier. */
    method Release(ghost s: State, ghost t: nat)
      requires Holds(s) && IsHolder(s, t)
      modifies this
      ensures Holds(Act(s, Action.Release(t)))
    {
      lastReleasedSeq := lastCapturedSeq;
    }
  }
}
