/** The message log and its asynchronous streams (core/internal/messagelog/messagelog.go).

    A channel that is closed and recreated is its generation number: a goroutine holding generation k finds
    it closed once a later one exists.  The stream goroutine and the writers interleave at the points where
    the source releases the lock or blocks on a channel. */
module MessageLogs {

  /** The log: its messages, the generations of newAdded and resetChan, and, as history, the contents it
      had when it was reset. */
  datatype Log<T> = Log(msgs: seq<T>, added: nat, past: seq<seq<T>>) {
    function Resets(): nat {
      |past|
    }

    /** Final contents of a past epoch, or the present contents. */
    function Epoch(k: nat): seq<T>
      requires k <= |past|
    {
      if k < |past| then past[k] else msgs
    }
  }

  datatype Phase = Opening | Fetching | Sending | Waiting

  /** The goroutine of supplyMessages: the channel generations it holds, its position, the batch it is
      sending; `pieces` records what it has sent out of each epoch so far. */
  datatype Stream<T> =
    Stream(phase: Phase, resetGen: nat, addedGen: nat, next: nat, batch: seq<T>, pieces: seq<seq<T>>)

  datatype State<T> = State(log: Log<T>, s: Stream<T>)

  datatype Action<T> =
    | Append(m: T)
    | Reset(ms: seq<T>)
    | Open          // the goroutine starts and reads resetChan
    | Fetch         // the locked section
    | Send          // the receiver takes a message
    | SeeReset      // the reset channel is selected while sending
    | Wake          // newAdded or resetChan is selected while waiting

  /** A log just created; the stream is opened at any later time. */
  function Start<T>(): State<T> {
    State(Log([], 0, []), Stream(Opening, 0, 0, 0, [], [[]]))
  }

  function AppendTo<T>(l: Log<T>, m: T): Log<T> {
    Log(l.msgs + [m], l.added + 1, l.past)
  }

  function ResetTo<T>(l: Log<T>, ms: seq<T>): Log<T> {
    Log(ms, l.added, l.past + [l.msgs])
  }

  /** Nothing sent from the epochs in between. */
  function Skip<T>(pieces: seq<seq<T>>, n: nat): (p: seq<seq<T>>)
    ensures |p| == |pieces| + n
    ensures forall k :: 0 <= k < |p| ==> p[k] == if k < |pieces| then pieces[k] else []
  {
    pieces + seq(n, _ => [])
  }

  /** The stream starts at the present epoch, core/internal/messagelog/messagelog.go:90-94. */
  function Opened<T>(l: Log<T>, s: Stream<T>): Stream<T>
    requires s.resetGen <= l.Resets()
  {
    s.(phase := Fetching, resetGen := l.Resets(), next := 0, pieces := Skip(s.pieces, l.Resets() - s.resetGen))
  }

  /** The locked section, core/internal/messagelog/messagelog.go:97-107. */
  function Fetched<T>(l: Log<T>, s: Stream<T>): Stream<T>
    requires s.resetGen <= l.Resets() && (s.resetGen == l.Resets() ==> s.next <= |l.msgs|)
  {
    var next := if s.resetGen < l.Resets() then 0 else s.next;
    Stream(Sending, l.Resets(), l.added, |l.msgs|, l.msgs[next..], Skip(s.pieces, l.Resets() - s.resetGen))
  }

  /** The next message leaves the batch. */
  function SentOne<T>(s: Stream<T>): Stream<T>
    requires s.batch != [] && |s.pieces| > 0
  {
    var last := |s.pieces| - 1;
    s.(batch := s.batch[1..], pieces := s.pieces[last := s.pieces[last] + [s.batch[0]]])
  }

  /** What the slice expression log.msgs[next:] needs. */
  predicate Bounded<T>(g: State<T>) {
    && g.s.resetGen <= g.log.Resets()
    && (g.s.resetGen == g.log.Resets() ==> g.s.next <= |g.log.msgs|)
    && |g.s.pieces| > 0
  }

  /** One step; an action that is not possible in the state changes nothing. */
  function Act<T>(g: State<T>, a: Action<T>): State<T>
    requires Bounded(g)
  {
    var l, s := g.log, g.s;
    match a
    case Append(m) => State(AppendTo(l, m), s)
    case Reset(ms) => State(ResetTo(l, ms), s)
    case Open => if s.phase == Opening then State(l, Opened(l, s)) else g
    case Fetch => if s.phase == Fetching then State(l, Fetched(l, s)) else g
    case Send =>
      if s.phase != Sending then g
      else if s.batch == [] then State(l, s.(phase := Waiting))
      else State(l, SentOne(s))
    case SeeReset =>
      if s.phase == Sending && s.batch != [] && s.resetGen < l.Resets()
      then State(l, s.(phase := Fetching, batch := [])) else g
    case Wake =>
      if s.phase == Waiting && (s.addedGen < l.added || s.resetGen < l.Resets())
      then State(l, s.(phase := Fetching)) else g
  }

  // ---------- Invariant ----------

  ghost predicate Ok<T>(g: State<T>) {
    var l, s := g.log, g.s;
    && s.resetGen <= l.Resets() && |s.pieces| == s.resetGen + 1 && s.addedGen <= l.added
    && PiecesOk(g) && PositionOk(g) && SignalOk(g)
  }

  /** What has been sent from each epoch is an initial part of it. */
  ghost predicate PiecesOk<T>(g: State<T>)
    requires g.s.resetGen <= g.log.Resets() && |g.s.pieces| == g.s.resetGen + 1
  {
    forall k :: 0 <= k < |g.s.pieces| ==> g.s.pieces[k] <= g.log.Epoch(k)
  }

  /** The batch continues what has been sent of the stream's epoch, unless it was just given up. */
  ghost predicate PositionOk<T>(g: State<T>)
    requires g.s.resetGen <= g.log.Resets() && |g.s.pieces| == g.s.resetGen + 1
  {
    var l, s := g.log, g.s;
    && s.next <= |l.Epoch(s.resetGen)|
    && (s.phase != Sending ==> s.batch == []) && (s.phase == Opening ==> s.next == 0 && s.resetGen == 0)
    && ((s.phase == Fetching && s.resetGen < l.Resets())
        || s.pieces[s.resetGen] + s.batch == l.Epoch(s.resetGen)[..s.next])
  }

  /** No signal is lost: a stream whose channels are still open has fetched everything. */
  ghost predicate SignalOk<T>(g: State<T>) {
    g.s.phase in {Sending, Waiting} && g.s.resetGen == g.log.Resets() && g.s.addedGen == g.log.added ==>
      g.s.next == |g.log.msgs|
  }

  lemma WriterKeeps<T>(g: State<T>, a: Action<T>)
    requires Ok(g) && (a.Append? || a.Reset?)
    ensures Ok(Act(g, a))
  {
    var g' := Act(g, a);
    forall k | 0 <= k < |g.s.pieces|
      ensures g.log.Epoch(k) <= g'.log.Epoch(k)
    {
    }
  }

  lemma FetchKeeps<T>(g: State<T>)
    requires Ok(g) && g.s.phase == Fetching
    ensures Ok(Act(g, Fetch))
  {
    var l, s, g' := g.log, g.s, Act(g, Fetch);
    if s.resetGen == l.Resets() {
      assert g'.s.pieces == s.pieces;
      assert s.pieces[s.resetGen] == l.msgs[..s.next];
      assert l.msgs[..s.next] + l.msgs[s.next..] == l.msgs;
    } else {
      assert g'.s.pieces[l.Resets()] == [];
    }
    assert l.msgs[..|l.msgs|] == l.msgs;
  }

  lemma SendKeeps<T>(g: State<T>)
    requires Ok(g) && g.s.phase == Sending && g.s.batch != []
    ensures Ok(Act(g, Send))
  {
    var s, last := g.s, g.s.resetGen;
    var e := g.log.Epoch(last);
    assert s.batch == [s.batch[0]] + s.batch[1..];
    assert (s.pieces[last] + [s.batch[0]]) + s.batch[1..] == e[..s.next];
    assert s.pieces[last] + [s.batch[0]] == e[..|s.pieces[last]| + 1];
  }

  lemma ActKeeps<T>(g: State<T>, a: Action<T>)
    requires Ok(g)
    ensures Ok(Act(g, a))
  {
    if a.Append? || a.Reset? {
      WriterKeeps(g, a);
    } else if a.Fetch? && g.s.phase == Fetching {
      FetchKeeps(g);
    } else if a.Send? && g.s.phase == Sending && g.s.batch != [] {
      SendKeeps(g);
    }
  }

  /** The state after a run; the slice taken at every fetch is within bounds. */
  ghost function After<T>(run: seq<Action<T>>): (g: State<T>)
    ensures Ok(g)
  {
    if run == [] then Start()
    else
      var before := After(run[..|run| - 1]);
      ActKeeps(before, run[|run| - 1]);
      Act(before, run[|run| - 1])
  }

  // ---------- What a receiver sees ----------

  function Flatten<T>(pieces: seq<seq<T>>): seq<T> {
    if pieces == [] then [] else Flatten(pieces[..|pieces| - 1]) + pieces[|pieces| - 1]
  }

  /** The message an action hands to the receiver, if any. */
  function Handed<T>(g: State<T>, a: Action<T>): seq<T> {
    if a.Send? && g.s.phase == Sending && g.s.batch != [] then [g.s.batch[0]] else []
  }

  /** Everything handed to the receiver over a run, in order. */
  ghost function Received<T>(run: seq<Action<T>>): seq<T> {
    if run == [] then []
    else Received(run[..|run| - 1]) + Handed(After(run[..|run| - 1]), run[|run| - 1])
  }

  lemma FlattenSkip<T>(pieces: seq<seq<T>>, n: nat)
    ensures Flatten(Skip(pieces, n)) == Flatten(pieces)
  {
    if n == 0 {
      assert Skip(pieces, 0) == pieces;
    } else {
      FlattenSkip(pieces, n - 1);
      assert Skip(pieces, n)[..|pieces| + n - 1] == Skip(pieces, n - 1);
    }
  }

  lemma FlattenLast<T>(pieces: seq<seq<T>>, m: T)
    requires pieces != []
    ensures var last := |pieces| - 1;
            Flatten(pieces[last := pieces[last] + [m]]) == Flatten(pieces) + [m]
  {
    var last := |pieces| - 1;
    assert pieces[last := pieces[last] + [m]][..last] == pieces[..last];
  }

  lemma StepPieces<T>(g: State<T>, a: Action<T>)
    requires Bounded(g)
    ensures Flatten(Act(g, a).s.pieces) == Flatten(g.s.pieces) + Handed(g, a)
  {
    if (a.Fetch? && g.s.phase == Fetching) || (a.Open? && g.s.phase == Opening) {
      FlattenSkip(g.s.pieces, g.log.Resets() - g.s.resetGen);
    } else if Handed(g, a) != [] {
      FlattenLast(g.s.pieces, g.s.batch[0]);
    }
  }

  lemma {:induction false} ReceivedPieces<T>(run: seq<Action<T>>)
    ensures Received(run) == Flatten(After(run).s.pieces)
    decreases |run|
  {
    if run == [] {
      var none: seq<T> := [];
      assert After(run).s.pieces == [none];
      assert Flatten([none]) == Flatten([none][..0]) + none;
    } else {
      ReceivedPieces(run[..|run| - 1]);
      StepPieces(After(run[..|run| - 1]), run[|run| - 1]);
    }
  }

  /** For every interleaving of writers and stream: what the receiver gets is the concatenation of initial
      parts of the log's successive contents between resets -- nothing lost within a part, nothing
      duplicated, never back to older contents -- and a stream that waits without a pending signal has
      delivered the present contents completely. */
  lemma StreamFaithful<T>(run: seq<Action<T>>)
    ensures var g := After(run);
            && Received(run) == Flatten(g.s.pieces)
            && |g.s.pieces| <= g.log.Resets() + 1
            && (forall k :: 0 <= k < |g.s.pieces| ==> g.s.pieces[k] <= g.log.Epoch(k))
            && (g.s.phase == Waiting && g.s.addedGen == g.log.added && g.s.resetGen == g.log.Resets() ==>
                  |g.s.pieces| == g.log.Resets() + 1 && g.s.pieces[g.log.Resets()] == g.log.msgs)
  {
    ReceivedPieces(run);
    var g := After(run);
    if g.s.phase == Waiting && g.s.addedGen == g.log.added && g.s.resetGen == g.log.Resets() {
      assert g.log.msgs[..|g.log.msgs|] == g.log.msgs;
      assert g.s.pieces[g.s.resetGen] + [] == g.s.pieces[g.s.resetGen];
    }
  }

  // ---------- No stream gets stuck ----------

  /** The present contents have been delivered completely. */
  predicate Delivered<T(==)>(g: State<T>) {
    |g.s.pieces| == g.log.Resets() + 1 && g.s.pieces[g.log.Resets()] == g.log.msgs
  }

  /** A step of the stream, with a receiver that takes what it is sent. */
  predicate StreamStep<T>(a: Action<T>) {
    a.Open? || a.Fetch? || a.Send? || a.SeeReset? || a.Wake?
  }

  /** How many messages of the present contents are still to be delivered. */
  function Missing<T>(g: State<T>): int {
    if g.s.resetGen == g.log.Resets() && |g.s.pieces| > 0
    then |g.log.msgs| - |g.s.pieces[|g.s.pieces| - 1]| else |g.log.msgs|
  }

  predicate Signalled<T>(g: State<T>) {
    g.s.addedGen < g.log.added || g.s.resetGen < g.log.Resets()
  }

  /** A bound on the steps that the stream can still take before the log changes. */
  function StepsLeft<T>(g: State<T>): int {
    match g.s.phase
    case Opening => |g.log.msgs| + 3
    case Fetching => Missing(g) + 2
    case Sending =>
      if g.s.resetGen < g.log.Resets() then |g.s.batch| + |g.log.msgs| + 4
      else Missing(g) + if Signalled(g) then 4 else 1
    case Waiting => if Signalled(g) then Missing(g) + 3 else 0
  }

  lemma MissingBounds<T>(g: State<T>)
    requires Ok(g)
    ensures 0 <= Missing(g) <= |g.log.msgs| && StepsLeft(g) >= 0
    ensures g.s.resetGen == g.log.Resets() && g.s.phase == Sending ==> Missing(g) >= |g.s.batch|
  {
    var l, s := g.log, g.s;
    if s.resetGen == l.Resets() {
      assert s.pieces[s.resetGen] <= l.Epoch(s.resetGen);
      assert s.phase == Sending ==> |s.pieces[s.resetGen] + s.batch| == |l.msgs[..s.next]|;
    }
  }

  /** Every step that the stream takes brings it closer to the end. */
  lemma StepsDecrease<T>(g: State<T>, a: Action<T>)
    requires Ok(g) && StreamStep(a) && Act(g, a) != g
    ensures StepsLeft(Act(g, a)) < StepsLeft(g) && Act(g, a).log == g.log
  {
    var g' := Act(g, a);
    MissingBounds(g);
    ActKeeps(g, a);
    MissingBounds(g');
    if a.Fetch? && g.s.resetGen == g.log.Resets() {
      assert g'.s.pieces == g.s.pieces;
    } else if a.Fetch? {
      assert g'.s.pieces[g.log.Resets()] == [];
    }
  }

  /** The step that a stream takes next. */
  function NextStep<T>(s: Stream<T>): Action<T> {
    match s.phase
    case Opening => Open
    case Fetching => Fetch
    case Sending => Send
    case Waiting => Wake
  }

  lemma StepPossible<T>(g: State<T>)
    requires Ok(g) && !Delivered(g)
    ensures StreamStep(NextStep(g.s)) && Act(g, NextStep(g.s)) != g
  {
    var g' := Act(g, NextStep(g.s));
    if g.s.phase == Waiting {
      assert g.log.msgs[..|g.log.msgs|] == g.log.msgs;
      assert g.s.pieces[g.s.resetGen] + [] == g.s.pieces[g.s.resetGen];
      assert Signalled(g);
    } else if g.s.phase == Sending && g.s.batch != [] {
      assert |g'.s.batch| < |g.s.batch|;
    } else {
      assert g'.s.phase != g.s.phase;
    }
  }

  /** No stream is stuck: in every run, as long as the present contents are not delivered completely, the stream can
      take a step. */
  lemma NeverStuck<T>(run: seq<Action<T>>)
    requires !Delivered(After(run))
    ensures var g := After(run); StreamStep(NextStep(g.s)) && Act(g, NextStep(g.s)) != g
  {
    StepPossible(After(run));
  }

  /** The state after more steps. */
  ghost function Then<T>(g: State<T>, more: seq<Action<T>>): (g': State<T>)
    requires Ok(g)
    ensures Ok(g')
    decreases |more|
  {
    if more == [] then g else (ActKeeps(g, more[0]); Then(Act(g, more[0]), more[1..]))
  }

  lemma AfterNext<T>(run: seq<Action<T>>, a: Action<T>)
    ensures After(run + [a]) == Act(After(run), a)
  {
    assert (run + [a])[..|run|] == run;
  }

  lemma Regroup<T>(run: seq<T>, more: seq<T>)
    requires more != []
    ensures run + [more[0]] + more[1..] == run + more
  {
  }

  lemma {:induction false} AfterThen<T>(run: seq<Action<T>>, more: seq<Action<T>>)
    ensures After(run + more) == Then(After(run), more)
    decreases |more|
  {
    if more == [] {
      assert run + more == run;
    } else {
      Regroup(run, more);
      AfterNext(run, more[0]);
      AfterThen(run + [more[0]], more[1..]);
    }
  }

  ghost predicate StreamSteps<T>(more: seq<Action<T>>) {
    forall k :: 0 <= k < |more| ==> StreamStep(more[k])
  }

  lemma {:induction false} DrainsFrom<T>(g: State<T>) returns (more: seq<Action<T>>)
    requires Ok(g)
    ensures |more| <= StepsLeft(g) && StreamSteps(more)
    ensures Delivered(Then(g, more)) && Then(g, more).log == g.log
    decreases StepsLeft(g)
  {
    MissingBounds(g);
    if Delivered(g) {
      more := [];
    } else {
      var a := NextStep(g.s);
      StepPossible(g);
      StepsDecrease(g, a);
      ActKeeps(g, a);
      MissingBounds(Act(g, a));
      var rest := DrainsFrom(Act(g, a));
      more := [a] + rest;
      assert more[1..] == rest;
    }
  }

  /** From every run, the stream gets to deliver the present contents completely by its own steps alone, within a number
      of steps that is known beforehand. */
  lemma Drains<T>(run: seq<Action<T>>) returns (more: seq<Action<T>>)
    ensures |more| <= StepsLeft(After(run)) && StreamSteps(more)
    ensures Delivered(After(run + more)) && After(run + more).log == After(run).log
  {
    more := DrainsFrom(After(run));
    AfterThen(run, more);
  }

  /** The steps change something, one after the other. */
  ghost predicate Effective<T>(g: State<T>, more: seq<Action<T>>)
    requires Ok(g)
    decreases |more|
  {
    more == [] || (Act(g, more[0]) != g && (ActKeeps(g, more[0]); Effective(Act(g, more[0]), more[1..])))
  }

  /** However the stream is scheduled, no more than that many of its steps in a row change anything: by then, none being
      possible, it has delivered the present contents. */
  lemma {:induction false} AnySchedule<T>(g: State<T>, more: seq<Action<T>>)
    requires Ok(g) && StreamSteps(more) && Effective(g, more)
    ensures |more| <= StepsLeft(g)
    decreases |more|
  {
    MissingBounds(g);
    if more != [] {
      StepsDecrease(g, more[0]);
      ActKeeps(g, more[0]);
      AnySchedule(Act(g, more[0]), more[1..]);
    }
  }

  /** The stream has not turned to the present contents yet, and a is the step by which it notices: while it sends
      older ones, or while it waits. */
  predicate Notices<T>(g: State<T>, a: Action<T>) {
    && g.s.resetGen < g.log.Resets()
    && ((a.SeeReset? && g.s.phase == Sending && g.s.batch != []) || (a.Wake? && g.s.phase == Waiting))
  }

  lemma NoticesReset<T>(g: State<T>, a: Action<T>)
    requires Ok(g) && Notices(g, a)
    ensures Act(g, a).s == g.s.(phase := Fetching, batch := []) && Act(g, a).log == g.log && Ok(Act(g, a))
  {
    ActKeeps(g, a);
  }

  lemma FetchesAll<T>(g: State<T>)
    requires Ok(g) && g.s.phase == Fetching && g.s.resetGen < g.log.Resets()
    ensures var g' := Act(g, Fetch);
            g'.s.phase == Sending && g'.s.batch == g.log.msgs && Flatten(g'.s.pieces) == Flatten(g.s.pieces)
  {
    FlattenSkip(g.s.pieces, g.log.Resets() - g.s.resetGen);
    assert g.log.msgs[0..] == g.log.msgs;
  }

  /** In every run: after a reset, by two steps in which nothing is delivered, the stream gives up what it was sending
      and has all of the new contents to send. */
  lemma ResetTakesOver<T>(run: seq<Action<T>>, a: Action<T>)
    requires Notices(After(run), a)
    ensures Ok(Act(After(run), a))
    ensures var g, g' := After(run), Act(Act(After(run), a), Fetch);
            g'.s.phase == Sending && g'.s.batch == g.log.msgs && Flatten(g'.s.pieces) == Flatten(g.s.pieces)
  {
    NoticesReset(After(run), a);
    FetchesAll(Act(After(run), a));
  }

  // ---------- The source's in-place form ----------

  /** messageLog: the fields that Append and Reset update under the lock, a channel being the number of
      times it was recreated; past contents are kept for the specification only. */
  class MessageLog<T> {
    var msgs: seq<T>
    var newAdded: nat
    var resetChan: nat
    ghost var past: seq<seq<T>>

    constructor ()
      ensures Valid() && View() == Start<T>().log
    {
      msgs, newAdded, resetChan, past := [], 0, 0, [];
    }

    ghost predicate Valid()
      reads this
    {
      resetChan == |past|
    }

    ghost function View(): Log<T>
      reads this
    {
      Log(msgs, newAdded, past)
    }

    method Append(m: T)
      requires Valid()
      modifies this
      ensures Valid() && View() == AppendTo(old(View()), m)
    {
      msgs := msgs + [m];
      newAdded := newAdded + 1;
    }

    method Reset(ms: seq<T>)
      requires Valid()
      modifies this
      ensures Valid() && View() == ResetTo(old(View()), ms)
    {
      past := past + [msgs];
      msgs := ms;
      resetChan := resetChan + 1;
    }

    /** The locked section of supplyMessages, on the variables of the goroutine s. */
    method Take(resetGen: nat, next: nat, ghost s: Stream<T>)
      returns (resetGen': nat, addedGen: nat, next': nat, batch: seq<T>)
      requires Valid() && s.resetGen == resetGen && s.next == next
      requires Bounded(State(View(), s))
      ensures var f := Fetched(View(), s);
              resetGen' == f.resetGen && addedGen == f.addedGen && next' == f.next && batch == f.batch
    {
      resetGen', next' := resetGen, next;
      if resetGen < resetChan {
        resetGen', next' := resetChan, 0;
      }
      addedGen := newAdded;
      batch := msgs[next'..];
      next' := |msgs|;
    }
  }
}
