/** What the pending list holds, over every sequence of captures, preparations, retirements and un-preparations
    (core/request.go:242-307). */
module RequestRuns {
  import opened Messages
  import opened Requests

  datatype Op = Capture(q: Request) | Prepare(q: Request) | Retire(q: Request) | Unprepare

  function Done(s: Clients, op: Op): Clients {
    match op
    case Capture(q) => CaptureReq(s, q)
    case Prepare(q) => PrepareReq(s, q)
    case Retire(q) => RetireReq(s, q)
    case Unprepare => UnprepareReqs(s)
  }

  function After(ops: seq<Op>): Clients {
    if ops == [] then NO_CLIENTS else Done(After(ops[..|ops| - 1]), ops[|ops| - 1])
  }

  /** The sequence number of a request, zero if there is none. */
  function SeqOf(q: Option<Request>): nat {
    if q.None? then 0 else q.value.seqNo
  }

  /** From the history alone: the latest request of the client that was captured, one being captured if its sequence
      number exceeds those of all before. */
  function Latest(ops: seq<Op>, c: nat): Option<Request> {
    if ops == [] then None
    else
      var before, op := Latest(ops[..|ops| - 1], c), ops[|ops| - 1];
      if op.Capture? && op.q.clientID == c && op.q.seqNo > SeqOf(before) then Some(op.q) else before
  }

  lemma {:induction false} LifeCycleAfter(ops: seq<Op>)
    ensures LifeCycle(After(ops))
    decreases |ops|
  {
    if ops != [] {
      var s := After(ops[..|ops| - 1]);
      LifeCycleAfter(ops[..|ops| - 1]);
      match ops[|ops| - 1] {
        case Capture(q) => CaptureKeeps(s, q);
        case Prepare(q) => PrepareKeeps(s, q);
        case Retire(q) => RetireKeeps(s, q);
        case Unprepare => UnprepareKeeps(s);
      }
    }
  }

  /** In every sequence: the last captured number of a client is that of its latest captured request. */
  lemma {:induction false} CapturedIsLatest(ops: seq<Op>, c: nat)
    ensures Nums(After(ops), c).captured == SeqOf(Latest(ops, c))
    decreases |ops|
  {
    if ops != [] {
      var before, op := ops[..|ops| - 1], ops[|ops| - 1];
      CapturedIsLatest(before, c);
      if op.Unprepare? {
        LifeCycleAfter(before);
        UnprepareKeeps(After(before));
      }
    }
  }

  /** The client's pending request is its latest captured one, until that is prepared. */
  ghost predicate PendingLatest(s: Clients, c: nat, latest: Option<Request>) {
    && (c in s.pending <==> SeqOf(latest) > Nums(s, c).prepared)
    && (c in s.pending ==> Some(s.pending[c]) == latest)
  }

  lemma StepPending(s: Clients, op: Op, c: nat, latest: Option<Request>)
    requires LifeCycle(s) && !op.Unprepare? && PendingLatest(s, c, latest) && Nums(s, c).captured == SeqOf(latest)
    ensures var captured := op.Capture? && op.q.clientID == c && op.q.seqNo > SeqOf(latest);
            PendingLatest(Done(s, op), c, if captured then Some(op.q) else latest)
  {
    assert ClientOk(s, c);
  }

  /** In every sequence without un-preparing: a client has a pending request if and only if its latest captured request
      has not been prepared, and it is that one. */
  lemma {:induction false} PendingIsLatest(ops: seq<Op>, c: nat)
    requires Unprepare !in ops
    ensures PendingLatest(After(ops), c, Latest(ops, c))
    decreases |ops|
  {
    if ops != [] {
      var before := ops[..|ops| - 1];
      PendingIsLatest(before, c);
      CapturedIsLatest(before, c);
      LifeCycleAfter(before);
      StepPending(After(before), ops[|ops| - 1], c, Latest(before, c));
    }
  }

  /** Un-preparing keeps it so, for the client, if and only if the client has nothing prepared and unretired, or has
      its latest captured request prepared. */
  lemma UnpreparePending(s: Clients, c: nat, latest: Option<Request>)
    requires LifeCycle(s) && PendingLatest(s, c, latest) && Nums(s, c).captured == SeqOf(latest)
    requires c in s.preparedList && s.preparedList[c].seqNo == SeqOf(latest) ==> Some(s.preparedList[c]) == latest
    ensures PendingLatest(UnprepareReqs(s), c, latest) <==>
            Nums(s, c).prepared == Nums(s, c).retired || Nums(s, c).prepared == Nums(s, c).captured
  {
    UnprepareKeeps(s);
    assert ClientOk(s, c);
  }

  // ---------- What changes a client's entries ----------

  function Entry(l: RequestMap, c: nat): Option<Request> {
    if c in l then Some(l[c]) else None
  }

  /** A client's pending entry changes in three ways only: a newer request of the client is captured and takes its
      place; the very request is prepared, for the first time, and it goes; or it is replaced by the client's prepared
      request on un-preparing. */
  lemma PendingChanges(s: Clients, op: Op, c: nat)
    requires LifeCycle(s)
    ensures var before, after := Entry(s.pending, c), Entry(Done(s, op).pending, c);
            match op
            case Capture(q) =>
              after == if q.clientID == c && q.seqNo > Nums(s, c).captured then Some(q) else before
            case Prepare(q) =>
              var gone := before.Some? && q.clientID == c && q.seqNo == before.value.seqNo > Nums(s, c).prepared;
              after == if gone then None else before
            case Retire(_) => after == before
            case Unprepare =>
              after == if Nums(s, c).retired < Nums(s, c).prepared then Entry(s.preparedList, c) else before
  {
    assert ClientOk(s, c);
  }

  /** And its prepared entry: a request newer than the last prepared one takes its place, and it goes when it is retired
      or un-prepared. */
  lemma PreparedChanges(s: Clients, op: Op, c: nat)
    requires LifeCycle(s)
    ensures var before, after := Entry(s.preparedList, c), Entry(Done(s, op).preparedList, c);
            match op
            case Capture(_) => after == before
            case Prepare(q) =>
              var put := q.clientID == c && Nums(s, c).prepared < q.seqNo <= Nums(s, c).captured;
              after == if put then Some(q) else before
            case Retire(q) =>
              var gone := before.Some? && q.clientID == c && q.seqNo == before.value.seqNo;
              after == if gone then None else before
            case Unprepare => after == None
  {
    assert ClientOk(s, c);
  }
}
