/** The life cycle of a client request in a replica: captured, prepared, retired, un-prepared
    (core/request.go:242-307, core/internal/clientstate/request-seq.go, core/internal/requestlist/request-list.go).

    `Clients` holds the sequence numbers kept for every client together with the two request lists.  The
    functions are the requestCapturer, requestPreparer, requestRetirer and requestUnpreparer; the classes
    below them are the source's own in-place form. */
module Requests {
  import opened Messages

  /** Last captured, prepared and retired request identifiers of one client. */
  datatype SeqNums = SeqNums(captured: nat, prepared: nat, retired: nat)

  type RequestMap = map<nat, Request>

  datatype Clients = Clients(nums: map<nat, SeqNums>, pending: RequestMap, preparedList: RequestMap)

  const NO_CLIENTS: Clients := Clients(map[], map[], map[])

  /** The state of a client is created on first use, all zero (client-state.go:92-103). */
  function Nums(s: Clients, c: nat): SeqNums {
    if c in s.nums then s.nums[c] else SeqNums(0, 0, 0)
  }

  // ---------- Request lists ----------

  function Added(l: RequestMap, q: Request): RequestMap {
    l[q.clientID := q]
  }

  function Removed(l: RequestMap, q: Request): RequestMap {
    if q.clientID in l && l[q.clientID].seqNo == q.seqNo then l - {q.clientID} else l
  }

  /** Every entry is stored under its own client's identifier. */
  predicate Keyed(l: RequestMap) {
    forall c :: c in l ==> l[c].clientID == c
  }

  // ---------- Capture, prepare, retire, un-prepare ----------

  /** Whether a step took effect, had been taken before, or panics. */
  datatype Effect = New | Repeated | Panics

  /** A request is captured once its identifier exceeds every captured one. */
  function CaptureReq(s: Clients, q: Request): Clients {
    if q.seqNo <= Nums(s, q.clientID).captured then s
    else
      s.(nums := s.nums[q.clientID := Nums(s, q.clientID).(captured := q.seqNo)],
      pending := Added(s.pending, q))
  }

  predicate CaptureIsNew(s: Clients, q: Request) {
    q.seqNo > Nums(s, q.clientID).captured
  }

  function PrepareEffect(s: Clients, q: Request): Effect {
    if q.seqNo <= Nums(s, q.clientID).prepared then Repeated
    else if q.seqNo > Nums(s, q.clientID).captured then Panics
    else New
  }

  function PrepareReq(s: Clients, q: Request): Clients {
    if PrepareEffect(s, q) != New then s
    else
      Clients(s.nums[q.clientID := Nums(s, q.clientID).(prepared := q.seqNo)],
              Removed(s.pending, q),
              Added(s.preparedList, q))
  }

  function RetireEffect(s: Clients, q: Request): Effect {
    if q.seqNo <= Nums(s, q.clientID).retired then Repeated
    else if q.seqNo > Nums(s, q.clientID).prepared then Panics
    else New
  }

  function RetireReq(s: Clients, q: Request): Clients {
    if RetireEffect(s, q) != New then s
    else
      Clients(s.nums[q.clientID := Nums(s, q.clientID).(retired := q.seqNo)],
              s.pending,
              Removed(s.preparedList, q))
  }

  function Unprepared(p: SeqNums): SeqNums {
    p.(prepared := p.retired)
  }

  function NumsWithout(s: Clients, gone: set<nat>): map<nat, SeqNums> {
    map c | c in s.nums.Keys + gone :: if c in gone then Unprepared(Nums(s, c)) else Nums(s, c)
  }

  /** What un-preparing the listed requests, in any order, amounts to. */
  function UnprepareReqs(s: Clients): Clients {
    Clients(NumsWithout(s, s.preparedList.Keys), s.pending + s.preparedList, map[])
  }

  // ---------- The life-cycle invariant ----------

  /** lastRetired <= lastPrepared <= lastCaptured, the prepared list holds, for exactly the clients with an
      unretired prepared request, the request last prepared, and what is pending has been captured. */
  ghost predicate LifeCycle(s: Clients) {
    && Keyed(s.pending) && Keyed(s.preparedList)
    && forall c :: ClientOk(s, c)
  }

  ghost predicate ClientOk(s: Clients, c: nat) {
    var p := Nums(s, c);
    && p.retired <= p.prepared <= p.captured
    && (c in s.preparedList <==> p.retired < p.prepared)
    && (c in s.preparedList ==> s.preparedList[c].seqNo == p.prepared)
    && (c in s.pending ==> s.pending[c].seqNo <= p.captured)
  }

  lemma CaptureKeeps(s: Clients, q: Request)
    requires LifeCycle(s)
    ensures LifeCycle(CaptureReq(s, q))
  {
    forall c
      ensures ClientOk(CaptureReq(s, q), c)
    {
      assert ClientOk(s, c);
    }
  }

  lemma PrepareKeeps(s: Clients, q: Request)
    requires LifeCycle(s)
    ensures LifeCycle(PrepareReq(s, q))
  {
    forall c
      ensures ClientOk(PrepareReq(s, q), c)
    {
      assert ClientOk(s, c);
    }
  }

  lemma RetireKeeps(s: Clients, q: Request)
    requires LifeCycle(s)
    ensures LifeCycle(RetireReq(s, q))
  {
    forall c
      ensures ClientOk(RetireReq(s, q), c)
    {
      assert ClientOk(s, c);
    }
  }

  /** After un-preparing, nothing is prepared but unretired, for any client. */
  lemma UnprepareKeeps(s: Clients)
    requires LifeCycle(s)
    ensures LifeCycle(UnprepareReqs(s))
    ensures UnprepareReqs(s).preparedList == map[]
    ensures forall c :: Nums(UnprepareReqs(s), c).prepared == Nums(s, c).retired
                        && Nums(UnprepareReqs(s), c).retired == Nums(s, c).retired
                        && Nums(UnprepareReqs(s), c).captured == Nums(s, c).captured
  {
    forall c
      ensures ClientOk(UnprepareReqs(s), c) && Nums(UnprepareReqs(s), c) == Unprepared(Nums(s, c))
    {
      assert ClientOk(s, c);
    }
  }

  /** Un-preparing may lose a pending request, since the lists hold one request per client: a client's
      pending request stays exactly when none of the client's is prepared.  Nothing else is ever lost. */
  lemma PendingStaysIff(s: Clients, c: nat)
    requires LifeCycle(s) && c in s.pending && s.pending[c].seqNo > Nums(s, c).prepared
    ensures var t := UnprepareReqs(s);
            && c in t.pending
            && (t.pending[c] == s.pending[c] <==> Nums(s, c).prepared == Nums(s, c).retired)
            && (c in s.preparedList ==> t.pending[c] == s.preparedList[c])
  {
    assert ClientOk(s, c);
  }

  /** The loss is reachable: the second of two requests captured in turn, the first one being prepared. */
  lemma PendingLost(q: Request, q': Request)
    requires q.clientID == q'.clientID && 0 < q.seqNo < q'.seqNo
    ensures var s := CaptureReq(PrepareReq(CaptureReq(Clients(map[], map[], map[]), q), q), q');
            && LifeCycle(s)
            && s.pending[q'.clientID] == q' && UnprepareReqs(s).pending[q'.clientID] == q
  {
    var s0 := Clients(map[], map[], map[]);
    assert LifeCycle(s0);
    var s1 := CaptureReq(s0, q);
    CaptureKeeps(s0, q);
    PrepareKeeps(s1, q);
    assert PrepareEffect(s1, q) == New;
    CaptureKeeps(PrepareReq(s1, q), q');
  }

  // ---------- The source's in-place form ----------

  /** core/internal/requestlist. */
  class RequestList {
    var messages: RequestMap

    constructor ()
      ensures messages == map[]
    {
      messages := map[];
    }

    method Add(q: Request)
      modifies this
      ensures messages == Added(old(messages), q) && (Keyed(old(messages)) ==> Keyed(messages))
    {
      messages := messages[q.clientID := q];
    }

    method Remove(q: Request)
      modifies this
      ensures messages == Removed(old(messages), q) && (Keyed(old(messages)) ==> Keyed(messages))
    {
      if q.clientID !in messages {
        return;
      } else if messages[q.clientID].seqNo != q.seqNo {
        return;
      }
      messages := messages - {q.clientID};
    }

    /** All entries, in the arbitrary order of Go's map iteration. */
    method All() returns (all: seq<Request>)
      requires Keyed(messages)
      ensures |all| == |messages|
      ensures forall i :: 0 <= i < |all| ==> all[i].clientID in messages && messages[all[i].clientID] == all[i]
      ensures forall c :: c in messages ==> messages[c] in all
      ensures forall i, j :: 0 <= i < j < |all| ==> all[i].clientID != all[j].clientID
    {
      all := [];
      var rest := messages.Keys;
      while rest != {}
        invariant rest <= messages.Keys
        invariant |all| + |rest| == |messages|
        invariant forall i :: 0 <= i < |all| ==>
                    all[i].clientID in messages.Keys - rest && messages[all[i].clientID] == all[i]
        invariant forall c :: c in messages.Keys - rest ==> messages[c] in all
        invariant forall i, j :: 0 <= i < j < |all| ==> all[i].clientID != all[j].clientID
        decreases rest
      {
        var c :| c in rest;
        all := all + [messages[c]];
        rest := rest - {c};
      }
    }
  }

  /** The sequence numbers of all clients and the two request lists shared by the closures of core/request.go. */
  class RequestBook {
    var nums: map<nat, SeqNums>
    const pending: RequestList
    const preparedReqs: RequestList

    function Model(): Clients
      reads this, pending, preparedReqs
    {
      Clients(nums, pending.messages, preparedReqs.messages)
    }

    predicate Separate()
      reads this
    {
      pending != preparedReqs
    }

    constructor ()
      ensures Separate() && fresh(pending) && fresh(preparedReqs)
      ensures Model() == NO_CLIENTS
    {
      nums := map[];
      pending := new RequestList();
      preparedReqs := new RequestList();
    }

    function Of(c: nat): SeqNums
      reads this
    {
      if c in nums then nums[c] else SeqNums(0, 0, 0)
    }

    /** makeRequestCapturer, with the identifier released at once. */
    method CaptureRequest(q: Request) returns (isNew: bool)
      requires Separate()
      modifies this, pending
      ensures Model() == CaptureReq(old(Model()), q)
      ensures isNew == CaptureIsNew(old(Model()), q)
    {
      if q.seqNo <= Of(q.clientID).captured {
        return false;
      }
      nums := nums[q.clientID := Of(q.clientID).(captured := q.seqNo)];
      pending.Add(q);
      isNew := true;
    }

    /** makeRequestPreparer over PrepareRequestSeq. */
    method PrepareRequest(q: Request) returns (effect: Effect)
      requires Separate()
      modifies this, pending, preparedReqs
      ensures effect == PrepareEffect(old(Model()), q)
      ensures Model() == PrepareReq(old(Model()), q)
    {
      var p := Of(q.clientID);
      if q.seqNo <= p.prepared {
        return Repeated;
      } else if q.seqNo > p.captured {
        return Panics;
      }
      nums := nums[q.clientID := p.(prepared := q.seqNo)];
      preparedReqs.Add(q);
      pending.Remove(q);
      effect := New;
    }

    /** makeRequestRetirer over RetireRequestSeq. */
    method RetireRequest(q: Request) returns (effect: Effect)
      requires Separate()
      modifies this, preparedReqs
      ensures effect == RetireEffect(old(Model()), q)
      ensures Model() == RetireReq(old(Model()), q)
    {
      var p := Of(q.clientID);
      if q.seqNo <= p.retired {
        return Repeated;
      } else if q.seqNo > p.prepared {
        return Panics;
      }
      nums := nums[q.clientID := p.(retired := q.seqNo)];
      preparedReqs.Remove(q);
      effect := New;
    }

    /** makeRequestUnpreparer: the loop over the prepared list, whatever its iteration order. */
    method UnprepareRequests()
      requires Separate() && Keyed(preparedReqs.messages)
      modifies this, pending, preparedReqs
      ensures Model() == UnprepareReqs(old(Model()))
    {
      ghost var s0 := Model();
      var all := preparedReqs.All();
      PartlyNone(s0);
      for i := 0 to |all|
        invariant Model() == Partly(s0, ClientsOf(all[..i]))
      {
        PartlyStep(s0, all, i);
        UnprepareOne(all[i]);
      }
      PartlyAll(s0, all);
    }

    method UnprepareOne(q: Request)
      requires Separate()
      modifies this, pending, preparedReqs
      ensures Model() == OneUnprepared(old(Model()), q)
    {
      nums := nums[q.clientID := Unprepared(Of(q.clientID))];
      pending.Add(q);
      preparedReqs.Remove(q);
    }
  }

  /** One round of the loop in core/request.go:301-305. */
  function OneUnprepared(s: Clients, q: Request): Clients {
    Clients(s.nums[q.clientID := Unprepared(Nums(s, q.clientID))],
            Added(s.pending, q),
            Removed(s.preparedList, q))
  }

  ghost function ClientsOf(all: seq<Request>): set<nat> {
    set q | q in all :: q.clientID
  }

  ghost function Restrict(l: RequestMap, gone: set<nat>): RequestMap {
    map c | c in gone && c in l :: l[c]
  }

  /** Un-preparing carried out for the clients in `gone`. */
  ghost function Partly(s: Clients, gone: set<nat>): Clients {
    Clients(NumsWithout(s, gone), s.pending + Restrict(s.preparedList, gone), s.preparedList - gone)
  }

  lemma PartlyNone(s: Clients)
    ensures Partly(s, ClientsOf([])) == s
  {
    assert Partly(s, {}).nums == s.nums;
    assert Partly(s, {}).pending == s.pending;
  }

  ghost predicate Lists(l: RequestMap, all: seq<Request>) {
    && (forall i :: 0 <= i < |all| ==> all[i].clientID in l && l[all[i].clientID] == all[i])
    && (forall c :: c in l ==> l[c] in all && l[c].clientID == c)
    && (forall i, j :: 0 <= i < j < |all| ==> all[i].clientID != all[j].clientID)
  }

  lemma PartlyStep(s: Clients, all: seq<Request>, i: nat)
    requires Lists(s.preparedList, all) && i < |all|
    ensures OneUnprepared(Partly(s, ClientsOf(all[..i])), all[i]) == Partly(s, ClientsOf(all[..i + 1]))
  {
    var gone, q := ClientsOf(all[..i]), all[i];
    assert all[..i + 1] == all[..i] + [q];
    assert ClientsOf(all[..i + 1]) == gone + {q.clientID};
    PartlyOneMore(s, gone, q);
  }

  lemma PartlyOneMore(s: Clients, gone: set<nat>, q: Request)
    requires q.clientID in s.preparedList && s.preparedList[q.clientID] == q && q.clientID !in gone
    ensures OneUnprepared(Partly(s, gone), q) == Partly(s, gone + {q.clientID})
  {
    var c := q.clientID;
    PendingOneMore(s, gone, q);
    assert (s.preparedList - gone) - {c} == s.preparedList - (gone + {c});
    assert NumsWithout(s, gone + {c}) == NumsWithout(s, gone)[c := Unprepared(Nums(s, c))];
  }

  lemma PendingOneMore(s: Clients, gone: set<nat>, q: Request)
    requires q.clientID in s.preparedList && s.preparedList[q.clientID] == q
    ensures (s.pending + Restrict(s.preparedList, gone))[q.clientID := q]
         == s.pending + Restrict(s.preparedList, gone + {q.clientID})
  {
  }

  lemma PartlyAll(s: Clients, all: seq<Request>)
    requires Lists(s.preparedList, all)
    ensures Partly(s, ClientsOf(all[..|all|])) == UnprepareReqs(s)
  {
    assert all[..|all|] == all;
    var gone := ClientsOf(all);
    forall c | c in s.preparedList
      ensures c in gone
    {
      assert s.preparedList[c] in all;
    }
    assert gone == s.preparedList.Keys;
    assert Restrict(s.preparedList, gone) == s.preparedList;
    assert s.preparedList - gone == map[];
  }
}
