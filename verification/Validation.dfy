/** Stateless message validation: message logs, certificates and the per-type validators
    (core/view-change.go, core/new-view.go, core/commit.go, core/prepare.go, core/message-handling.go).

    The predicates state what is accepted, without loops; the methods are the source's loops. */
module Validation {
  import opened Messages

  // ---------- Message logs ----------

  function AnchorView(m: Message): nat
    requires IsAnchor(m)
  {
    if m.ViewChangeMsg? then m.vc.newView else m.newView
  }

  /** ViewChange and NewView messages start a log. */
  predicate IsAnchor(m: Message) {
    m.ViewChangeMsg? || m.NewView?
  }

  /** The log ends right before counter `nextCV`, is gap-free and single-sender, and reaches back either
      to the message that began `view` or, in view 0, to the replica's very first message. */
  predicate LogAccepted(replicaID: nat, view: nat, log: seq<Message>, nextCV: nat) {
    && (log == [] ==> view == 0 && nextCV == 1)
    && (forall i :: 0 <= i < |log| ==>
          log[i].Sender() == replicaID && log[i].Counter() + |log| - i == nextCV)
    && (forall i :: 0 <= i < |log| && IsAnchor(log[i]) ==> i == 0 && AnchorView(log[i]) == view)
    && (log != [] && !IsAnchor(log[0]) ==> view == 0 && log[0].Counter() == 1)
  }

  const U64: nat := 0x1_0000_0000_0000_0000

  /** The counter expected after entry i of a log that ends before nextCV, in 64-bit arithmetic. */
  function Expected64(nextCV: nat, back: nat): nat {
    (nextCV - back) % U64
  }

  /** LogAccepted with the counters of the source's uint64 arithmetic. */
  predicate LogAccepted64(replicaID: nat, view: nat, log: seq<Message>, nextCV: nat) {
    && (log == [] ==> view == 0 && nextCV == 1)
    && (forall i :: 0 <= i < |log| ==>
          log[i].Sender() == replicaID && (log[i].Counter() + 1) % U64 == Expected64(nextCV, |log| - 1 - i))
    && (forall i :: 0 <= i < |log| && IsAnchor(log[i]) ==> i == 0 && AnchorView(log[i]) == view)
    && (log != [] && !IsAnchor(log[0]) ==> view == 0 && Expected64(nextCV, |log|) == 1)
  }

  /** validateMessageLog: the backward loop decrementing nextCV, with uint64 wrap-around. */
  method ValidateMessageLog(replicaID: nat, view: nat, log: seq<Message>, nextCV: nat) returns (ok: bool)
    requires nextCV < U64
    ensures ok == LogAccepted64(replicaID, view, log, nextCV)
  {
    if |log| == 0 && (view > 0 || nextCV != 1) {
      return false;
    }
    var next := nextCV;
    var i := |log|;
    while i > 0
      invariant 0 <= i <= |log|
      invariant next == Expected64(nextCV, |log| - i)
      invariant forall j :: i <= j < |log| ==>
                  log[j].Sender() == replicaID
                  && (log[j].Counter() + 1) % U64 == Expected64(nextCV, |log| - 1 - j)
      invariant forall j :: i <= j < |log| && IsAnchor(log[j]) ==> j == 0 && AnchorView(log[j]) == view
      invariant i == 0 && log != [] && !IsAnchor(log[0]) ==> view == 0 && next == 1
    {
      i := i - 1;
      var m := log[i];
      if m.Sender() != replicaID {
        return false;
      }
      if (m.Counter() + 1) % U64 != next {
        return false;
      }
      next := (next - 1) % U64;
      if IsAnchor(m) {
        if AnchorView(m) != view {
          return false;
        }
        if i != 0 {
          return false;
        }
      } else if i == 0 && (view > 0 || next != 1) {
        return false;
      }
    }
    ok := true;
  }

  predicate Counters64(log: seq<Message>) {
    forall i :: 0 <= i < |log| ==> 1 <= log[i].Counter() < U64
  }

  /** No wrap-around can happen once the entries carry verified (non-zero) counters: from a verified
      next counter, the 64-bit loop accepts exactly the gap-free logs. */
  lemma NoWrapAround(replicaID: nat, view: nat, log: seq<Message>, nextCV: nat)
    requires 1 <= nextCV < U64 && Counters64(log)
    ensures LogAccepted64(replicaID, view, log, nextCV) <==> LogAccepted(replicaID, view, log, nextCV)
  {
    if LogAccepted64(replicaID, view, log, nextCV) {
      forall i | 0 <= i < |log|
        ensures log[i].Counter() + |log| - i == nextCV
      {
        CountersDescend(replicaID, view, log, nextCV, i);
      }
      if log != [] {
        CountersDescend(replicaID, view, log, nextCV, 0);
      }
    }
  }

  /** Without verified counters the wrap-around does matter: a ViewChange message with the greatest counter is accepted
      as the log before counter zero. */
  lemma WrapAround(replicaID: nat, vc: ViewChange)
    requires vc.replicaID == replicaID && vc.cv == U64 - 1
    ensures LogAccepted64(replicaID, vc.newView, [ViewChangeMsg(vc)], 0)
    ensures !LogAccepted(replicaID, vc.newView, [ViewChangeMsg(vc)], 0)
  {
    var log := [ViewChangeMsg(vc)];
    assert log[0].Counter() == U64 - 1 && Expected64(0, 0) == 0;
  }

  lemma CountersDescend(replicaID: nat, view: nat, log: seq<Message>, nextCV: nat, i: nat)
    requires 1 <= nextCV < U64 && Counters64(log)
    requires LogAccepted64(replicaID, view, log, nextCV)
    requires i < |log|
    ensures log[i].Counter() + |log| - i == nextCV
    decreases |log| - i
  {
    if i < |log| - 1 {
      CountersDescend(replicaID, view, log, nextCV, i + 1);
    }
  }

  // ---------- Certificates ----------

  predicate DistinctRequesters(cert: seq<ReqViewChange>) {
    forall i, j :: 0 <= i < j < |cert| ==> cert[i].replicaID != cert[j].replicaID
  }

  predicate DistinctSenders(cert: seq<ViewChange>) {
    forall i, j :: 0 <= i < j < |cert| ==> cert[i].replicaID != cert[j].replicaID
  }

  predicate ViewChangeCertOk(size: nat, newView: nat, cert: seq<ReqViewChange>) {
    && |cert| >= size
    && (forall i :: 0 <= i < |cert| ==> cert[i].newView == newView)
    && DistinctRequesters(cert)
  }

  predicate NewViewCertOk(size: nat, newPrimary: nat, newView: nat, cert: seq<ViewChange>) {
    && |cert| >= size
    && (forall i :: 0 <= i < |cert| ==> cert[i].newView == newView)
    && DistinctSenders(cert)
    && exists i :: 0 <= i < |cert| && cert[i].replicaID == newPrimary
  }

  /** makeViewChangeCertValidator: the loop filling the set of replicas seen. */
  method ValidateViewChangeCert(size: nat, newView: nat, cert: seq<ReqViewChange>) returns (ok: bool)
    ensures ok == ViewChangeCertOk(size, newView, cert)
  {
    if |cert| < size {
      return false;
    }
    var q: set<nat> := {};
    for i := 0 to |cert|
      invariant forall j :: 0 <= j < i ==> cert[j].newView == newView
      invariant forall j, k :: 0 <= j < k < i ==> cert[j].replicaID != cert[k].replicaID
      invariant q == set j | 0 <= j < i :: cert[j].replicaID
    {
      if cert[i].newView != newView {
        return false;
      }
      if cert[i].replicaID in q {
        var j :| 0 <= j < i && cert[j].replicaID == cert[i].replicaID;
        return false;
      }
      q := q + {cert[i].replicaID};
    }
    ok := true;
  }

  /** makeNewViewCertValidator. */
  method ValidateNewViewCert(size: nat, newPrimary: nat, newView: nat, cert: seq<ViewChange>) returns (ok: bool)
    ensures ok == NewViewCertOk(size, newPrimary, newView, cert)
  {
    if |cert| < size {
      return false;
    }
    var q: set<nat> := {};
    for i := 0 to |cert|
      invariant forall j :: 0 <= j < i ==> cert[j].newView == newView
      invariant forall j, k :: 0 <= j < k < i ==> cert[j].replicaID != cert[k].replicaID
      invariant q == set j | 0 <= j < i :: cert[j].replicaID
    {
      if cert[i].newView != newView {
        return false;
      }
      if cert[i].replicaID in q {
        var j :| 0 <= j < i && cert[j].replicaID == cert[i].replicaID;
        return false;
      }
      q := q + {cert[i].replicaID};
    }
    ok := newPrimary in q;
  }

  // ---------- Per-message validation ----------

  datatype Verdict = Accept | Reject | Panic

  predicate ViewChangeOk(c: Config, vc: ViewChange)
    requires c.Ok()
  {
    && vc.newView >= 1
    && ViewChangeCertOk(c.ViewChangeCertSize(), vc.newView, vc.vcCert)
    && LogAccepted(vc.replicaID, vc.newView - 1, vc.log, vc.cv)
  }

  predicate NewViewOk(c: Config, replicaID: nat, newView: nat, nvCert: seq<ViewChange>)
    requires c.Ok()
  {
    && newView >= 1
    && c.IsPrimary(newView, replicaID)
    && NewViewCertOk(c.ViewChangeCertSize(), replicaID, newView, nvCert)
  }

  /** makePeerMessageValidator and makeCertifiedMessageValidator, without the USIG certificate check:
      only the refusal of a zero counter (core/usig-ui.go:43-46) is kept here. */
  function Validate(c: Config, m: Message): Verdict
    requires c.Ok()
  {
    if m.Sender() >= c.n || m.Counter() == 0 then Reject
    else match m
      case Prepare(r, view, _, _) => if c.IsPrimary(view, r) then Accept else Reject
      case Commit(r, p, _) =>
        if r == p.Sender() then Reject else if p.IsProposal() then Accept else Panic
      case ViewChangeMsg(vc) => if ViewChangeOk(c, vc) then Accept else Reject
      case NewView(r, v, cert, _) => if NewViewOk(c, r, v, cert) then Accept else Reject
  }

  /** The messages embedded in a message that the recursive handler visits (core/message-handling.go:486-525). */
  function Embedded(m: Message): seq<Message> {
    match m
    case Prepare(_, _, _, _) => []
    case Commit(_, p, _) => [p]
    case ViewChangeMsg(vc) => vc.log
    case NewView(_, _, cert, _) => seq(|cert|, i requires 0 <= i < |cert| => ViewChangeMsg(cert[i]))
  }

  lemma EmbeddedSmaller(m: Message, i: nat)
    requires i < |Embedded(m)|
    ensures Size(Embedded(m)[i]) < Size(m)
  {
    match m {
      case ViewChangeMsg(vc) => LogMember(vc.log, i);
      case NewView(_, _, cert, _) => CertMember(cert, i);
      case _ =>
    }
  }

  lemma LogMember(log: seq<Message>, i: nat)
    requires i < |log|
    ensures Size(log[i]) <= LogSize(log)
    decreases |log|
  {
    if i < |log| - 1 {
      LogMember(log[..|log| - 1], i);
    }
  }

  lemma CertMember(cert: seq<ViewChange>, i: nat)
    requires i < |cert|
    ensures ViewChangeSize(cert[i]) <= CertSize(cert)
    decreases |cert|
  {
    if i < |cert| - 1 {
      CertMember(cert[..|cert| - 1], i);
    }
  }

  /** A message and everything embedded in it, to any depth, passes validation. */
  ghost predicate DeepValid(c: Config, m: Message)
    requires c.Ok()
    decreases Size(m)
  {
    && Validate(c, m) == Accept
    && forall i :: 0 <= i < |Embedded(m)| ==> (EmbeddedSmaller(m, i); DeepValid(c, Embedded(m)[i]))
  }
}
