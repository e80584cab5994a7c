/** The client: its request buffer and its collector of replies (client/request.go,
    client/internal/requestbuffer/requestbuffer.go).

    Goroutines -- callers of AddRequest, handlers of incoming replies, and per request one that supplies
    replies and one that collects them -- interleave wherever the source releases a lock or uses a channel. */
module Client {
  import opened Messages
  import Commitments

  /** The client's identifier, the number of tolerated faulty replicas and the hash function of results. */
  datatype Setup = Setup(id: nat, f: nat, hash: Bytes -> Bytes)

  // ---------- Counting matching replies ----------

  function Count(hash: Bytes -> Bytes, l: seq<Reply>, h: Bytes): nat {
    if l == [] then 0
    else Count(hash, l[..|l| - 1], h) + if hash(l[|l| - 1].result) == h then 1 else 0
  }

  /** The replicas with a reply of this hash. */
  function Who(hash: Bytes -> Bytes, l: seq<Reply>, h: Bytes): set<nat> {
    set m | m in l && hash(m.result) == h :: m.replicaID
  }

  ghost predicate DistinctReplicas(l: seq<Reply>) {
    forall i, j :: 0 <= i < j < |l| ==> l[i].replicaID != l[j].replicaID
  }

  /** With one reply per replica, counting replies is counting replicas. */
  lemma {:induction false} CountIsWho(hash: Bytes -> Bytes, l: seq<Reply>, h: Bytes)
    requires DistinctReplicas(l)
    ensures |Who(hash, l, h)| == Count(hash, l, h)
  {
    if l != [] {
      var k := |l| - 1;
      var init, m := l[..k], l[k];
      assert l == init + [m];
      CountIsWho(hash, init, h);
      if hash(m.result) == h {
        assert Who(hash, l, h) == Who(hash, init, h) + {m.replicaID};
        assert m.replicaID !in Who(hash, init, h);
      } else {
        assert Who(hash, l, h) == Who(hash, init, h);
      }
    }
  }

  lemma CountAppend(hash: Bytes -> Bytes, l: seq<Reply>, m: Reply, h: Bytes)
    ensures Count(hash, l + [m], h) == Count(hash, l, h) + if hash(m.result) == h then 1 else 0
  {
    assert (l + [m])[..|l|] == l;
  }

  function Counted(counts: map<Bytes, nat>, h: Bytes): nat {
    if h in counts then counts[h] else 0
  }

  ghost predicate Tallies(hash: Bytes -> Bytes, counts: map<Bytes, nat>, l: seq<Reply>) {
    forall h :: Counted(counts, h) == Count(hash, l, h)
  }

  ghost predicate Undecided(u: Setup, l: seq<Reply>) {
    forall h :: Count(u.hash, l, h) <= u.f
  }

  lemma TallyOne(hash: Bytes -> Bytes, counts: map<Bytes, nat>, l: seq<Reply>, m: Reply)
    requires Tallies(hash, counts, l)
    ensures Tallies(hash, counts[hash(m.result) := Counted(counts, hash(m.result)) + 1], l + [m])
  {
    var counts' := counts[hash(m.result) := Counted(counts, hash(m.result)) + 1];
    forall h
      ensures Counted(counts', h) == Count(hash, l + [m], h)
    {
      CountAppend(hash, l, m, h);
    }
  }

  /** collectReplies on the replies that come out of the channel until it is closed: the result is that of
      the reply which completes the first f+1 matching ones, and there is none exactly if no f+1 match. */
  method CollectReplies(u: Setup, replies: seq<Reply>) returns (result: Option<Bytes>, taken: nat)
    ensures taken <= |replies|
    ensures result.None? ==> taken == |replies| && Undecided(u, replies)
    ensures result.Some? ==>
              && taken > 0 && result.value == replies[taken - 1].result
              && Undecided(u, replies[..taken - 1])
              && Count(u.hash, replies[..taken], u.hash(result.value)) == u.f + 1
  {
    var matching: map<Bytes, nat> := map[];
    taken := 0;
    while taken < |replies|
      invariant taken <= |replies|
      invariant Tallies(u.hash, matching, replies[..taken]) && Undecided(u, replies[..taken])
    {
      var reply := replies[taken];
      var h := u.hash(reply.result);
      TallyOne(u.hash, matching, replies[..taken], reply);
      assert replies[..taken + 1] == replies[..taken] + [reply];
      matching := matching[h := Counted(matching, h) + 1];
      taken := taken + 1;
      if matching[h] > u.f {
        CountAppend(u.hash, replies[..taken - 1], reply, h);
        return Some(reply.result), taken;
      }
      forall g
        ensures Count(u.hash, replies[..taken], g) <= u.f
      {
        CountAppend(u.hash, replies[..taken - 1], reply, g);
      }
    }
    assert replies[..taken] == replies;
    result := None;
  }

  // ---------- The client as interleaved steps ----------

  datatype Phase = Fetching | Sending | Waiting

  /** A request that is or was in the buffer: its reply set with the pending signal, the goroutine that
      supplies replies, the channel of capacity one, and the goroutine that collects them. */
  datatype Job = Job(
    replicas: set<nat>, msgs: seq<Reply>, signal: bool,
    phase: Phase, next: nat, batch: seq<Reply>,
    chan: seq<Reply>,
    got: seq<Reply>, counts: map<Bytes, nat>, finished: bool)

  datatype Emitted = Emitted(seqNo: nat, result: Bytes)

  /** `held` has, per handler between the two halves of AddReply, the reply it is about to add;
      `arrived` and `results` are history. */
  datatype State = State(
    lastSeq: nat, current: Option<nat>, jobs: map<nat, Job>, held: map<nat, Reply>,
    arrived: seq<Reply>, results: seq<Emitted>)

  datatype Action =
    | Submit(n: nat)              // AddRequest finds the buffer empty
    | Cancel(n: nat)              // RemoveRequest by a caller that waits for the buffer
    | Look(t: nat, m: Reply)      // handler t authenticates a reply and finds its request
    | Add(t: nat)                 // handler t adds it to the reply set
    | Fetch(n: nat) | Send(n: nat) | Wake(n: nat)
    | Collect(n: nat)

  const START := State(0, None, map[], map[], [], [])

  const NEW_JOB := Job({}, [], false, Fetching, 0, [], [], [], map[], false)

  /** replySet.addReply. */
  function WithReply(j: Job, m: Reply): Job {
    if m.replicaID in j.replicas then j
    else j.(replicas := j.replicas + {m.replicaID}, msgs := j.msgs + [m], signal := true)
  }

  function Fetched(j: Job): Job
    requires j.next <= |j.msgs|
  {
    j.(phase := Sending, batch := j.msgs[j.next..], next := |j.msgs|)
  }

  /** The next reply goes into the channel if there is room, or the batch is done. */
  function SentOn(j: Job): Job {
    if j.batch == [] then j.(phase := Waiting)
    else if j.chan == [] then j.(chan := [j.batch[0]], batch := j.batch[1..])
    else j
  }

  /** One turn of the loop of collectReplies. */
  function Collected(u: Setup, j: Job): Job
    requires j.chan != []
  {
    var h := u.hash(j.chan[0].result);
    var k := Counted(j.counts, h) + 1;
    j.(chan := j.chan[1..], got := j.got + [j.chan[0]], counts := j.counts[h := k], finished := k > u.f)
  }

  function RemoveRequest(s: State, n: nat): State {
    if s.current == Some(n) then s.(current := None) else s
  }

  predicate Bounded(s: State) {
    forall n :: n in s.jobs ==> s.jobs[n].next <= |s.jobs[n].msgs|
  }

  function SetJob(s: State, n: nat, j: Job): State {
    s.(jobs := s.jobs[n := j])
  }

  /** A reply for another client or not for the request in the buffer is dropped. */
  function LookedUp(u: Setup, s: State, t: nat, m: Reply): State {
    if m.clientID != u.id || t in s.held then s
    else
      var s' := s.(arrived := s.arrived + [m]);
      if s.current == Some(m.seqNo) then s'.(held := s.held[t := m]) else s'
  }

  function CollectStep(u: Setup, s: State, n: nat): State
    requires n in s.jobs && s.jobs[n].chan != []
  {
    var j := Collected(u, s.jobs[n]);
    var s' := SetJob(s, n, j);
    if !j.finished then s'
    else RemoveRequest(s', n).(results := s.results + [Emitted(n, s.jobs[n].chan[0].result)])
  }

  /** One step; an action that is not possible in the state changes nothing. */
  function Act(u: Setup, s: State, a: Action): State
    requires Bounded(s)
  {
    match a
    case Submit(n) =>
      if s.current.None? && n > s.lastSeq
      then s.(lastSeq := n, current := Some(n), jobs := s.jobs[n := NEW_JOB]) else s
    case Cancel(n) => RemoveRequest(s, n)
    case Look(t, m) => LookedUp(u, s, t, m)
    case Add(t) =>
      if t in s.held && s.held[t].seqNo in s.jobs
      then
        var n := s.held[t].seqNo;
        SetJob(s, n, WithReply(s.jobs[n], s.held[t])).(held := map x | x in s.held && x != t :: s.held[x])
      else s
    case Fetch(n) => if n in s.jobs && s.jobs[n].phase == Fetching then SetJob(s, n, Fetched(s.jobs[n])) else s
    case Send(n) => if n in s.jobs && s.jobs[n].phase == Sending then SetJob(s, n, SentOn(s.jobs[n])) else s
    case Wake(n) =>
      if n in s.jobs && s.jobs[n].phase == Waiting && s.jobs[n].signal
      then SetJob(s, n, s.jobs[n].(phase := Fetching, signal := false)) else s
    case Collect(n) =>
      if n in s.jobs && s.jobs[n].chan != [] && !s.jobs[n].finished then CollectStep(u, s, n) else s
  }

  // ---------- Invariant ----------

  /** The reply set holds one reply per replica. */
  ghost predicate SetOk(j: Job) {
    && DistinctReplicas(j.msgs)
    && forall r :: r in j.replicas <==> exists k :: 0 <= k < |j.msgs| && j.msgs[k].replicaID == r
  }

  /** Replies reach the collector in order, and no signal is lost. */
  ghost predicate FlowOk(j: Job) {
    && j.next <= |j.msgs| && j.got + j.chan + j.batch == j.msgs[..j.next]
    && (j.phase != Sending ==> j.batch == [])
    && (j.phase != Fetching && !j.signal ==> j.next == |j.msgs|)
  }

  ghost predicate TallyOk(u: Setup, j: Job) {
    Tallies(u.hash, j.counts, j.got) && (!j.finished ==> Undecided(u, j.got))
  }

  ghost predicate JobOk(u: Setup, j: Job) {
    SetOk(j) && FlowOk(j) && TallyOk(u, j)
  }

  ghost predicate Known(u: Setup, s: State, n: nat, m: Reply) {
    m.clientID == u.id && m.seqNo == n && m in s.arrived
  }

  ghost predicate JobAt(u: Setup, s: State, n: nat) {
    n in s.jobs ==>
      && n <= s.lastSeq && JobOk(u, s.jobs[n])
      && forall m :: m in s.jobs[n].msgs ==> Known(u, s, n, m)
  }

  ghost predicate HeldAt(u: Setup, s: State, t: nat) {
    t in s.held ==> s.held[t].seqNo in s.jobs && Known(u, s, s.held[t].seqNo, s.held[t])
  }

  ghost predicate ResultAt(u: Setup, s: State, i: nat) {
    i < |s.results| ==>
      var e := s.results[i];
      && e.seqNo in s.jobs && s.jobs[e.seqNo].finished
      && Count(u.hash, s.jobs[e.seqNo].got, u.hash(e.result)) == u.f + 1
  }

  ghost predicate ResultsDistinct(s: State) {
    forall i, j :: 0 <= i < j < |s.results| ==> s.results[i].seqNo != s.results[j].seqNo
  }

  /** A collector that is done has emitted its result. */
  ghost predicate EmittedAt(s: State, n: nat) {
    n in s.jobs && s.jobs[n].finished ==> exists i :: 0 <= i < |s.results| && s.results[i].seqNo == n
  }

  ghost predicate Ok(u: Setup, s: State) {
    && (s.current.Some? ==> s.current.value in s.jobs)
    && (forall n :: JobAt(u, s, n))
    && (forall t :: HeldAt(u, s, t))
    && (forall i :: ResultAt(u, s, i))
    && (forall n :: EmittedAt(s, n))
    && ResultsDistinct(s)
  }

  lemma OkBounded(u: Setup, s: State)
    requires Ok(u, s)
    ensures Bounded(s)
  {
    forall n | n in s.jobs
      ensures s.jobs[n].next <= |s.jobs[n].msgs|
    {
      assert JobAt(u, s, n);
    }
  }

  // ---------- One request ----------

  lemma WithReplyOk(u: Setup, j: Job, m: Reply)
    requires JobOk(u, j)
    ensures JobOk(u, WithReply(j, m))
  {
    var j' := WithReply(j, m);
    if j' != j {
      forall r
        ensures r in j'.replicas <==> exists k :: 0 <= k < |j'.msgs| && j'.msgs[k].replicaID == r
      {
        if r == m.replicaID {
          assert j'.msgs[|j.msgs|].replicaID == r;
        } else if r in j.replicas {
          var k :| 0 <= k < |j.msgs| && j.msgs[k].replicaID == r;
          assert j'.msgs[k].replicaID == r;
        }
      }
      assert j'.msgs[..j.next] == j.msgs[..j.next];
    }
  }

  lemma FetchedOk(u: Setup, j: Job)
    requires JobOk(u, j) && j.phase == Fetching
    ensures JobOk(u, Fetched(j))
  {
    assert j.batch == [];
    assert j.got + j.chan == j.msgs[..j.next];
    assert j.msgs[..|j.msgs|] == j.msgs[..j.next] + j.msgs[j.next..];
  }

  lemma SentOnOk(u: Setup, j: Job)
    requires JobOk(u, j) && j.phase == Sending
    ensures JobOk(u, SentOn(j))
  {
    if j.batch != [] && j.chan == [] {
      assert j.batch == [j.batch[0]] + j.batch[1..];
      assert j.got + [j.batch[0]] + j.batch[1..] == j.got + [] + j.batch;
    }
  }

  lemma CollectedOk(u: Setup, j: Job)
    requires JobOk(u, j) && j.chan != [] && !j.finished
    ensures JobOk(u, Collected(u, j))
    ensures Collected(u, j).finished ==>
              Count(u.hash, Collected(u, j).got, u.hash(j.chan[0].result)) == u.f + 1
  {
    var j', m := Collected(u, j), j.chan[0];
    TallyOne(u.hash, j.counts, j.got, m);
    assert j.chan == [m] + j.chan[1..];
    assert j.got + [m] + j.chan[1..] + j.batch == j.got + j.chan + j.batch;
    forall h
      ensures Count(u.hash, j'.got, h) <= u.f || (j'.finished && h == u.hash(m.result))
    {
      CountAppend(u.hash, j.got, m, h);
    }
    CountAppend(u.hash, j.got, m, u.hash(m.result));
  }

  // ---------- Every step keeps the invariant ----------

  /** Replacing a request's state by one that keeps its promises, without finishing it. */
  lemma SetJobKeeps(u: Setup, s: State, n: nat, j: Job)
    requires Ok(u, s) && n in s.jobs && JobOk(u, j)
    requires j.got == s.jobs[n].got && j.finished == s.jobs[n].finished
    requires forall m :: m in j.msgs ==> m in s.jobs[n].msgs || Known(u, s, n, m)
    ensures Ok(u, SetJob(s, n, j))
  {
    var s' := SetJob(s, n, j);
    assert JobAt(u, s, n);
    forall x
      ensures JobAt(u, s', x) && EmittedAt(s', x) && HeldAt(u, s', x) && ResultAt(u, s', x)
    {
      assert JobAt(u, s, x) && EmittedAt(s, x) && HeldAt(u, s, x) && ResultAt(u, s, x);
      if x == n {
        forall m | m in j.msgs
          ensures Known(u, s', n, m)
        {
          assert Known(u, s, n, m);
        }
      } else if x in s'.jobs {
        forall m | m in s'.jobs[x].msgs
          ensures Known(u, s', x, m)
        {
          assert Known(u, s, x, m);
        }
      }
    }
  }

  lemma SubmitKeeps(u: Setup, s: State, n: nat)
    requires Ok(u, s) && s.current.None? && n > s.lastSeq && Bounded(s)
    ensures Ok(u, Act(u, s, Submit(n)))
  {
    var s' := Act(u, s, Submit(n));
    assert JobAt(u, s, n);
    assert NEW_JOB.msgs[..0] == [];
    forall x
      ensures JobAt(u, s', x) && EmittedAt(s', x) && HeldAt(u, s', x) && ResultAt(u, s', x)
    {
      assert JobAt(u, s, x) && EmittedAt(s, x) && HeldAt(u, s, x) && ResultAt(u, s, x);
      if x in s.jobs {
        forall m | m in s'.jobs[x].msgs
          ensures Known(u, s', x, m)
        {
          assert Known(u, s, x, m);
        }
      }
    }
  }

  lemma LookKeeps(u: Setup, s: State, t: nat, m: Reply)
    requires Ok(u, s)
    ensures Ok(u, LookedUp(u, s, t, m))
  {
    var s' := LookedUp(u, s, t, m);
    forall x
      ensures JobAt(u, s', x) && EmittedAt(s', x) && HeldAt(u, s', x) && ResultAt(u, s', x)
    {
      assert JobAt(u, s, x) && EmittedAt(s, x) && HeldAt(u, s, x) && ResultAt(u, s, x);
      if x in s.jobs {
        forall k | k in s.jobs[x].msgs
          ensures Known(u, s', x, k)
        {
          assert Known(u, s, x, k);
        }
      }
    }
  }

  /** Forgetting a held reply, or the request in the buffer, harms nothing. */
  lemma ForgetKeeps(u: Setup, s: State, s': State)
    requires Ok(u, s) && s' == s.(held := s'.held, current := s'.current)
    requires s'.current.Some? ==> s'.current == s.current
    requires forall t :: t in s'.held ==> t in s.held && s'.held[t] == s.held[t]
    ensures Ok(u, s')
  {
    forall x
      ensures JobAt(u, s', x) && EmittedAt(s', x) && HeldAt(u, s', x) && ResultAt(u, s', x)
    {
      assert JobAt(u, s, x) && EmittedAt(s, x) && HeldAt(u, s, x) && ResultAt(u, s, x);
      if x in s.jobs {
        forall k | k in s.jobs[x].msgs
          ensures Known(u, s', x, k)
        {
          assert Known(u, s, x, k);
        }
      }
    }
  }

  lemma AddKeeps(u: Setup, s: State, t: nat)
    requires Ok(u, s) && Bounded(s) && t in s.held && s.held[t].seqNo in s.jobs
    ensures Ok(u, Act(u, s, Add(t)))
  {
    var m, n := s.held[t], s.held[t].seqNo;
    assert HeldAt(u, s, t) && JobAt(u, s, n);
    WithReplyOk(u, s.jobs[n], m);
    var s1 := SetJob(s, n, WithReply(s.jobs[n], m));
    SetJobKeeps(u, s, n, WithReply(s.jobs[n], m));
    ForgetKeeps(u, s1, Act(u, s, Add(t)));
  }

  lemma CollectKeeps(u: Setup, s: State, n: nat)
    requires Ok(u, s) && n in s.jobs && s.jobs[n].chan != [] && !s.jobs[n].finished
    ensures Ok(u, CollectStep(u, s, n))
  {
    var s', j := CollectStep(u, s, n), Collected(u, s.jobs[n]);
    assert JobAt(u, s, n);
    CollectedOk(u, s.jobs[n]);
    forall x
      ensures JobAt(u, s', x) && HeldAt(u, s', x)
    {
      assert JobAt(u, s, x) && HeldAt(u, s, x);
      if x in s.jobs {
        forall k | k in s.jobs[x].msgs
          ensures Known(u, s', x, k)
        {
          assert Known(u, s, x, k);
        }
      }
    }
    CollectResults(u, s, n);
  }

  lemma CollectResults(u: Setup, s: State, n: nat)
    requires Ok(u, s) && n in s.jobs && s.jobs[n].chan != [] && !s.jobs[n].finished
    ensures var s' := CollectStep(u, s, n);
            (forall i :: ResultAt(u, s', i)) && (forall x :: EmittedAt(s', x)) && ResultsDistinct(s')
  {
    var s' := CollectStep(u, s, n);
    assert JobAt(u, s, n);
    CollectedOk(u, s.jobs[n]);
    forall i: nat
      ensures ResultAt(u, s', i) && (i < |s.results| ==> s.results[i].seqNo != n)
    {
      assert ResultAt(u, s, i);
    }
    forall x
      ensures EmittedAt(s', x)
    {
      assert EmittedAt(s, x);
      if x == n && s'.jobs[n].finished {
        assert s'.results[|s.results|].seqNo == n;
      } else if x in s.jobs && s.jobs[x].finished {
        var i :| 0 <= i < |s.results| && s.results[i].seqNo == x;
        assert s'.results[i].seqNo == x;
      }
    }
  }

  lemma ActKeeps(u: Setup, s: State, a: Action)
    requires Ok(u, s) && Bounded(s)
    ensures Ok(u, Act(u, s, a))
  {
    match a
    case Submit(n) => if s.current.None? && n > s.lastSeq { SubmitKeeps(u, s, n); }
    case Cancel(n) => ForgetKeeps(u, s, Act(u, s, a));
    case Look(t, m) => LookKeeps(u, s, t, m);
    case Add(t) => if t in s.held && s.held[t].seqNo in s.jobs { AddKeeps(u, s, t); }
    case Collect(n) => if n in s.jobs && s.jobs[n].chan != [] && !s.jobs[n].finished { CollectKeeps(u, s, n); }
    case Fetch(n) =>
      if n in s.jobs && s.jobs[n].phase == Fetching {
        assert JobAt(u, s, n);
        FetchedOk(u, s.jobs[n]);
        SetJobKeeps(u, s, n, Fetched(s.jobs[n]));
      }
    case Send(n) =>
      if n in s.jobs && s.jobs[n].phase == Sending {
        assert JobAt(u, s, n);
        SentOnOk(u, s.jobs[n]);
        SetJobKeeps(u, s, n, SentOn(s.jobs[n]));
      }
    case Wake(n) =>
      if n in s.jobs && s.jobs[n].phase == Waiting && s.jobs[n].signal {
        assert JobAt(u, s, n);
        SetJobKeeps(u, s, n, s.jobs[n].(phase := Fetching, signal := false));
      }
  }

  /** The state after a run; no slice is ever taken out of range. */
  ghost function After(u: Setup, run: seq<Action>): (s: State)
    ensures Ok(u, s) && Bounded(s)
  {
    if run == [] then START
    else
      var before := After(u, run[..|run| - 1]);
      ActKeeps(u, before, run[|run| - 1]);
      OkBounded(u, Act(u, before, run[|run| - 1]));
      Act(u, before, run[|run| - 1])
  }

  // ---------- What a user of the client gets ----------

  /** The replicas that answered a request of the client with a result of this hash. */
  function Repliers(u: Setup, arrived: seq<Reply>, n: nat, h: Bytes): set<nat> {
    set m | m in arrived && m.clientID == u.id && m.seqNo == n && u.hash(m.result) == h :: m.replicaID
  }

  /** What a collector has counted came from replicas that answered. */
  lemma GotAnswers(u: Setup, s: State, n: nat, h: Bytes)
    requires JobAt(u, s, n) && n in s.jobs
    ensures Count(u.hash, s.jobs[n].got, h) <= |Repliers(u, s.arrived, n, h)|
  {
    var j := s.jobs[n];
    assert j.got == j.msgs[..|j.got|];
    CountIsWho(u.hash, j.got, h);
    forall m | m in j.got
      ensures m in s.arrived && m.clientID == u.id && m.seqNo == n
    {
      assert m in j.msgs && Known(u, s, n, m);
    }
    Commitments.SubsetSize(Who(u.hash, j.got, h), Repliers(u, s.arrived, n, h));
  }

  /** For every arrival order and interleaving, a result is emitted only if more than f distinct replicas
      answered that very request with a result of the same hash; each request gets at most one result. */
  lemma ResultSound(u: Setup, run: seq<Action>, i: nat)
    requires i < |After(u, run).results|
    ensures var s := After(u, run);
            && |Repliers(u, s.arrived, s.results[i].seqNo, u.hash(s.results[i].result))| > u.f
            && forall k :: 0 <= k < |s.results| && k != i ==> s.results[k].seqNo != s.results[i].seqNo
  {
    var s := After(u, run);
    var n := s.results[i].seqNo;
    assert ResultAt(u, s, i) && JobAt(u, s, n);
    GotAnswers(u, s, n, u.hash(s.results[i].result));
  }

  /** With at most f faulty replicas, a correct one sent a reply with the hash of the emitted result. */
  lemma CorrectReplier(u: Setup, run: seq<Action>, i: nat, faulty: set<nat>) returns (m: Reply)
    requires i < |After(u, run).results| && |faulty| <= u.f
    ensures var s := After(u, run);
            && m in s.arrived && m.replicaID !in faulty
            && m.clientID == u.id && m.seqNo == s.results[i].seqNo
            && u.hash(m.result) == u.hash(s.results[i].result)
  {
    ResultSound(u, run, i);
    var s := After(u, run);
    var who := Repliers(u, s.arrived, s.results[i].seqNo, u.hash(s.results[i].result));
    if who <= faulty {
      Commitments.SubsetSize(who, faulty);
      assert false;
    }
    var r :| r in who && r !in faulty;
    m :| m in s.arrived && m.clientID == u.id && m.seqNo == s.results[i].seqNo
         && u.hash(m.result) == u.hash(s.results[i].result) && m.replicaID == r;
  }

  lemma FinishedMatch(u: Setup, s: State, n: nat, i: nat)
    requires Ok(u, s) && n in s.jobs && i < |s.results| && s.results[i].seqNo == n
    ensures |Who(u.hash, s.jobs[n].msgs, u.hash(s.results[i].result))| > u.f
  {
    var j, h := s.jobs[n], u.hash(s.results[i].result);
    assert ResultAt(u, s, i) && JobAt(u, s, n);
    assert j.got == j.msgs[..|j.got|];
    CountIsWho(u.hash, j.got, h);
    Commitments.SubsetSize(Who(u.hash, j.got, h), Who(u.hash, j.msgs, h));
  }

  /** Nothing is left to do for the request's two goroutines. */
  predicate Idle(j: Job) {
    j.finished || (j.phase == Waiting && !j.signal && j.chan == [])
  }

  lemma IdleComplete(u: Setup, s: State, n: nat)
    requires Ok(u, s) && n in s.jobs && Idle(s.jobs[n])
    ensures (exists i :: 0 <= i < |s.results| && s.results[i].seqNo == n)
            <==> (exists h :: |Who(u.hash, s.jobs[n].msgs, h)| > u.f)
  {
    var j := s.jobs[n];
    assert JobAt(u, s, n) && EmittedAt(s, n);
    if i :| 0 <= i < |s.results| && s.results[i].seqNo == n {
      FinishedMatch(u, s, n, i);
    } else {
      assert j.got == j.msgs by {
        assert j.msgs[..|j.msgs|] == j.msgs;
      }
      forall h
        ensures |Who(u.hash, j.msgs, h)| <= u.f
      {
        CountIsWho(u.hash, j.msgs, h);
      }
    }
  }

  /** No reply is overlooked: when a request's goroutines have nothing left to do, its result has been
      emitted if and only if more than f of the replies in its reply set match. */
  lemma ResultComplete(u: Setup, run: seq<Action>, n: nat)
    requires n in After(u, run).jobs && Idle(After(u, run).jobs[n])
    ensures var s := After(u, run);
            (exists i :: 0 <= i < |s.results| && s.results[i].seqNo == n)
            <==> (exists h :: |Who(u.hash, s.jobs[n].msgs, h)| > u.f)
  {
    IdleComplete(u, After(u, run), n);
  }

  // ---------- The buffer ----------

  /** The request in the buffer is the last one accepted, and its result has not been emitted. */
  ghost predicate BufferOk(s: State) {
    s.current.Some? ==> s.current == Some(s.lastSeq) && s.lastSeq in s.jobs && !s.jobs[s.lastSeq].finished
  }

  lemma {:induction false} BufferHolds(u: Setup, run: seq<Action>)
    ensures BufferOk(After(u, run))
    decreases |run|
  {
    if run != [] {
      BufferHolds(u, run[..|run| - 1]);
    }
  }

  /** In every run: once the result of the last request has been emitted, or the request is removed, the buffer is free,
      and the next request is accepted; as long as neither has happened, no other is. */
  lemma BufferFree(u: Setup, run: seq<Action>, n: nat)
    requires n > After(u, run).lastSeq
    ensures var s := After(u, run);
            && ((exists i :: 0 <= i < |s.results| && s.results[i].seqNo == s.lastSeq) ==>
                  Act(u, s, Submit(n)).current == Some(n))
            && Act(u, Act(u, s, Cancel(s.lastSeq)), Submit(n)).current == Some(n)
            && (s.current.Some? ==> Act(u, s, Submit(n)) == s)
  {
    var s := After(u, run);
    BufferHolds(u, run);
    if i :| 0 <= i < |s.results| && s.results[i].seqNo == s.lastSeq {
      assert ResultAt(u, s, i);
    }
  }

  /** In every run: a reply to the request in the buffer from a replica that has not answered yet is in the reply set,
      after all the others, once its handler has run; anything else a handler does leaves the set alone. */
  lemma ReplyAdded(u: Setup, run: seq<Action>, t: nat, m: Reply)
    requires t !in After(u, run).held && m.clientID == u.id && m.seqNo in After(u, run).jobs
    ensures var s := After(u, run);
            var s' := Act(u, Act(u, s, Look(t, m)), Add(t));
            && m.seqNo in s'.jobs
            && s'.jobs[m.seqNo].msgs
               == (if s.current == Some(m.seqNo) && m.replicaID !in SendersOf(s.jobs[m.seqNo].msgs)
                   then s.jobs[m.seqNo].msgs + [m] else s.jobs[m.seqNo].msgs)
  {
    var s := After(u, run);
    assert JobAt(u, s, m.seqNo);
    var j := s.jobs[m.seqNo];
    assert m.replicaID in j.replicas <==> m.replicaID in SendersOf(j.msgs);
    ActKeeps(u, s, Look(t, m));
    OkBounded(u, Act(u, s, Look(t, m)));
  }

  /** The replicas that the replies come from. */
  function SendersOf(l: seq<Reply>): set<nat> {
    set k | 0 <= k < |l| :: l[k].replicaID
  }

  // ---------- A result comes ----------

  /** The step that one of them takes next. */
  function NextStep(j: Job, n: nat): Action {
    if j.chan != [] then Collect(n)
    else match j.phase
      case Fetching => Fetch(n)
      case Sending => Send(n)
      case Waiting => Wake(n)
  }

  predicate OwnStep(a: Action, n: nat) {
    a == Collect(n) || a == Fetch(n) || a == Send(n) || a == Wake(n)
  }

  /** A bound on the steps they can still take before another reply is added. */
  function StepsLeft(j: Job): int {
    2 * (|j.msgs| - |j.got|) - |j.chan| + (if j.signal then 3 else 0)
    + (match j.phase case Fetching => 2 case Sending => 1 case Waiting => 0)
  }

  lemma StepsBounds(u: Setup, j: Job)
    requires JobOk(u, j)
    ensures StepsLeft(j) >= 0
  {
    assert |j.got + j.chan + j.batch| == |j.msgs[..j.next]|;
  }

  /** What the step does to the request. */
  function Stepped(u: Setup, j: Job): Job
    requires j.next <= |j.msgs|
  {
    if j.chan != [] then Collected(u, j)
    else match j.phase
      case Fetching => Fetched(j)
      case Sending => SentOn(j)
      case Waiting => j.(phase := Fetching, signal := false)
  }

  lemma SteppedLess(u: Setup, j: Job)
    requires JobOk(u, j) && !Idle(j)
    ensures StepsLeft(Stepped(u, j)) < StepsLeft(j) && Stepped(u, j).msgs == j.msgs
  {
  }

  /** Unless nothing is left to do there is a step, and it brings the request closer to that. */
  lemma OneStep(u: Setup, s: State, n: nat)
    requires Ok(u, s) && Bounded(s) && n in s.jobs && !Idle(s.jobs[n])
    ensures var s' := Act(u, s, NextStep(s.jobs[n], n));
            && OwnStep(NextStep(s.jobs[n], n), n) && n in s'.jobs && s'.jobs[n].msgs == s.jobs[n].msgs
            && StepsLeft(s'.jobs[n]) < StepsLeft(s.jobs[n])
  {
    assert JobAt(u, s, n);
    assert Act(u, s, NextStep(s.jobs[n], n)).jobs[n] == Stepped(u, s.jobs[n]);
    SteppedLess(u, s.jobs[n]);
  }

  /** The state after more steps. */
  ghost function Then(u: Setup, s: State, more: seq<Action>): (s': State)
    requires Ok(u, s)
    ensures Ok(u, s')
    decreases |more|
  {
    OkBounded(u, s);
    if more == [] then s else (ActKeeps(u, s, more[0]); Then(u, Act(u, s, more[0]), more[1..]))
  }

  lemma {:induction false} IdleFrom(u: Setup, s: State, n: nat) returns (more: seq<Action>)
    requires Ok(u, s) && n in s.jobs
    ensures |more| <= StepsLeft(s.jobs[n]) && forall k :: 0 <= k < |more| ==> OwnStep(more[k], n)
    ensures var s' := Then(u, s, more); n in s'.jobs && Idle(s'.jobs[n]) && s'.jobs[n].msgs == s.jobs[n].msgs
    decreases StepsLeft(s.jobs[n])
  {
    OkBounded(u, s);
    assert JobAt(u, s, n);
    StepsBounds(u, s.jobs[n]);
    if Idle(s.jobs[n]) {
      more := [];
    } else {
      var a := NextStep(s.jobs[n], n);
      var s1 := Act(u, s, a);
      OneStep(u, s, n);
      ActKeeps(u, s, a);
      assert JobAt(u, s1, n);
      StepsBounds(u, s1.jobs[n]);
      var rest := IdleFrom(u, s1, n);
      more := [a] + rest;
      assert more[1..] == rest;
    }
  }

  lemma AfterNext(u: Setup, run: seq<Action>, a: Action)
    ensures After(u, run + [a]) == Act(u, After(u, run), a)
  {
    assert (run + [a])[..|run|] == run;
  }

  lemma Regroup(run: seq<Action>, more: seq<Action>)
    requires more != []
    ensures run + [more[0]] + more[1..] == run + more
  {
  }

  lemma {:induction false} AfterThen(u: Setup, run: seq<Action>, more: seq<Action>)
    ensures After(u, run + more) == Then(u, After(u, run), more)
    decreases |more|
  {
    if more == [] {
      assert run + more == run;
    } else {
      Regroup(run, more);
      AfterNext(u, run, more[0]);
      AfterThen(u, run + [more[0]], more[1..]);
    }
  }

  /** From every run: if more than f of the replies in a request's reply set match, its goroutines get to emit its
      result by their own steps alone, within a number of steps that is known beforehand; if not, they emit none. */
  lemma ResultComes(u: Setup, run: seq<Action>, n: nat) returns (more: seq<Action>)
    requires n in After(u, run).jobs
    ensures |more| <= StepsLeft(After(u, run).jobs[n]) && forall k :: 0 <= k < |more| ==> OwnStep(more[k], n)
    ensures var s := After(u, run + more);
            (exists i :: 0 <= i < |s.results| && s.results[i].seqNo == n)
            <==> (exists h :: |Who(u.hash, After(u, run).jobs[n].msgs, h)| > u.f)
  {
    more := IdleFrom(u, After(u, run), n);
    AfterThen(u, run, more);
    IdleComplete(u, After(u, run + more), n);
  }

  // ---------- The source's in-place form ----------

  /** replySet of a request, with the buffered signal. */
  class ReplySet {
    const seqNo: nat
    var replicas: set<nat>
    var msgs: seq<Reply>
    var newAdded: bool

    constructor (n: nat)
      ensures seqNo == n && replicas == NEW_JOB.replicas && msgs == NEW_JOB.msgs && newAdded == NEW_JOB.signal
    {
      seqNo, replicas, msgs, newAdded := n, {}, [], false;
    }

    ghost predicate Holds(j: Job)
      reads this
    {
      replicas == j.replicas && msgs == j.msgs && newAdded == j.signal
    }

    /** addReply: a replica's first reply is accepted and signalled, any other dropped. */
    method AddReply(m: Reply, ghost j: Job) returns (accepted: bool)
      requires Holds(j)
      modifies this
      ensures Holds(WithReply(j, m)) && (accepted <==> m.replicaID !in j.replicas)
    {
      if m.replicaID in replicas {
        return false;
      }
      replicas := replicas + {m.replicaID};
      msgs := msgs + [m];
      newAdded := true;
      accepted := true;
    }
  }

  /** The buffer's fields; each method is one stretch under its lock. */
  class RequestBuffer {
    var lastSeq: nat
    var request: ReplySet?

    constructor ()
      ensures lastSeq == 0 && request == null
    {
      lastSeq, request := 0, null;
    }

    ghost predicate Holds(s: State)
      reads this
    {
      lastSeq == s.lastSeq && s.current == if request == null then None else Some(request.seqNo)
    }

    /** AddRequest once the buffer is empty. */
    method AddRequest(n: nat, u: Setup, ghost s: State) returns (accepted: bool)
      requires request == null && Holds(s) && Bounded(s)
      modifies this
      ensures Holds(Act(u, s, Submit(n))) && (accepted <==> n > s.lastSeq)
      ensures accepted ==> request != null && fresh(request) && request.Holds(NEW_JOB)
    {
      if n <= lastSeq {
        return false;
      }
      lastSeq := n;
      request := new ReplySet(n);
      accepted := true;
    }

    /** The first half of AddReply: the reply set to add the reply to. */
    method Lookup(m: Reply, u: Setup, ghost s: State, ghost t: nat) returns (to: ReplySet?)
      requires Holds(s) && m.clientID == u.id && t !in s.held
      ensures to != null <==> t in LookedUp(u, s, t, m).held
      ensures to != null ==> to == request && to.seqNo == m.seqNo
    {
      if request == null {
        return null;
      } else if request.seqNo != m.seqNo {
        return null;
      }
      to := request;
    }

    method Remove(n: nat, ghost s: State)
      requires Holds(s)
      modifies this
      ensures Holds(RemoveRequest(s, n))
    {
      if request != null && request.seqNo == n {
        request := null;
      }
    }
  }
}
