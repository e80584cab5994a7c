/** The collectors that turn incoming messages into certificates: view-change requests into view-change
    certificates (core/req-view-change.go:86-114), ViewChange messages into new-view certificates
    (core/view-change.go:173-209).

    Each closure is given as functions of its captured variables and as a class; every certificate a
    collector emits is shown to pass the validator other replicas apply to it. */
module Collectors {
  import opened Messages
  import opened Validation

  // ---------- ReqViewChange ----------

  datatype RvcCollector = RvcCollector(view: nat, collected: seq<ReqViewChange>, replicas: set<nat>)

  const NO_REQUESTS: RvcCollector := RvcCollector(0, [], {})

  predicate RvcNew(s: RvcCollector, m: ReqViewChange) {
    m.newView == s.view + 1 && m.replicaID !in s.replicas
  }

  function RvcCert(s: RvcCollector, size: nat, m: ReqViewChange): Option<seq<ReqViewChange>> {
    if RvcNew(s, m) && |s.collected| + 1 >= size then Some(s.collected + [m]) else None
  }

  function RvcCollect(s: RvcCollector, size: nat, m: ReqViewChange): RvcCollector {
    if !RvcNew(s, m) then s
    else if |s.collected| + 1 < size then
      RvcCollector(s.view, s.collected + [m], s.replicas + {m.replicaID})
    else RvcCollector(s.view + 1, [], {})
  }

  predicate RvcOk(s: RvcCollector) {
    && (forall i :: 0 <= i < |s.collected| ==> s.collected[i].newView == s.view + 1)
    && (forall i :: 0 <= i < |s.collected| ==> s.collected[i].replicaID in s.replicas)
    && DistinctRequesters(s.collected)
  }

  /** Every emitted certificate is for the next view and passes the view-change certificate validator. */
  lemma RvcEmitsValid(s: RvcCollector, size: nat, m: ReqViewChange)
    requires RvcOk(s)
    ensures RvcOk(RvcCollect(s, size, m))
    ensures var cert := RvcCert(s, size, m);
            if cert.Some? then
              && ViewChangeCertOk(size, s.view + 1, cert.value)
              && m.newView == s.view + 1
              && RvcCollect(s, size, m).view == s.view + 1
            else RvcCollect(s, size, m).view == s.view
  {
  }

  /** makeReqViewChangeCollector. */
  class ReqViewChangeCollector {
    const size: nat
    var view: nat
    var collected: seq<ReqViewChange>
    var replicas: set<nat>

    function Model(): RvcCollector
      reads this
    {
      RvcCollector(view, collected, replicas)
    }

    constructor (viewChangeCertSize: nat)
      ensures size == viewChangeCertSize && Model() == NO_REQUESTS
    {
      size, view, collected, replicas := viewChangeCertSize, 0, [], {};
    }

    method Collect(m: ReqViewChange) returns (isNew: bool, cert: Option<seq<ReqViewChange>>)
      modifies this
      ensures Model() == RvcCollect(old(Model()), size, m)
      ensures isNew == RvcNew(old(Model()), m) && cert == RvcCert(old(Model()), size, m)
    {
      if m.newView != view + 1 || m.replicaID in replicas {
        return false, None;
      }
      collected := collected + [m];
      replicas := replicas + {m.replicaID};
      if |collected| < size {
        return true, None;
      }
      cert := Some(collected);
      collected, replicas, view := [], {}, view + 1;
      isNew := true;
    }
  }

  /** A run of the collector: its final state and the certificates emitted, in order. */
  function RvcRun(size: nat, inputs: seq<ReqViewChange>): (RvcCollector, seq<seq<ReqViewChange>>) {
    if inputs == [] then (NO_REQUESTS, [])
    else
      var (s, certs) := RvcRun(size, inputs[..|inputs| - 1]);
      var m := inputs[|inputs| - 1];
      var cert := RvcCert(s, size, m);
      (RvcCollect(s, size, m), if cert.Some? then certs + [cert.value] else certs)
  }

  /** Over every input sequence the certificates are for views 1, 2, 3, ... and each is valid. */
  lemma {:induction false} RvcRunValid(size: nat, inputs: seq<ReqViewChange>)
    ensures RvcOk(RvcRun(size, inputs).0)
    ensures RvcRun(size, inputs).0.view == |RvcRun(size, inputs).1|
    ensures forall k :: 0 <= k < |RvcRun(size, inputs).1| ==>
              ViewChangeCertOk(size, k + 1, RvcRun(size, inputs).1[k])
  {
    if inputs != [] {
      var init, m := inputs[..|inputs| - 1], inputs[|inputs| - 1];
      RvcRunValid(size, init);
      RvcEmitsValid(RvcRun(size, init).0, size, m);
    }
  }

  // ---------- ViewChange ----------

  /** `own` is collected[0] of the source, `others` the rest. */
  datatype VcCollector = VcCollector(view: nat, own: Option<ViewChange>, others: seq<ViewChange>)

  const NO_VIEW_CHANGES: VcCollector := VcCollector(0, None, [])

  /** The collector's state for the view of an incoming message that is not older. */
  function VcEnter(s: VcCollector, newView: nat): VcCollector {
    if newView > s.view then VcCollector(newView, None, []) else s
  }

  predicate VcNew(s: VcCollector, c: Config, id: nat, vc: ViewChange)
    requires c.Ok()
  {
    && vc.newView >= s.view
    && c.IsPrimary(vc.newView, id)
    && (vc.replicaID == id || 1 + |VcEnter(s, vc.newView).others| < c.ViewChangeCertSize())
  }

  /** The collection with the message put in its place. */
  function VcPut(s: VcCollector, id: nat, vc: ViewChange): VcCollector {
    if vc.replicaID == id then s.(own := Some(vc)) else s.(others := s.others + [vc])
  }

  predicate VcFull(s: VcCollector, size: nat) {
    s.own.Some? && 1 + |s.others| >= size
  }

  function VcCert(s: VcCollector, c: Config, id: nat, vc: ViewChange): Option<seq<ViewChange>>
    requires c.Ok()
  {
    if !VcNew(s, c, id, vc) then None
    else
      var t := VcPut(VcEnter(s, vc.newView), id, vc);
      if VcFull(t, c.ViewChangeCertSize()) then Some([t.own.value] + t.others) else None
  }

  function VcCollect(s: VcCollector, c: Config, id: nat, vc: ViewChange): VcCollector
    requires c.Ok()
  {
    if vc.newView < s.view then s
    else if !VcNew(s, c, id, vc) then VcEnter(s, vc.newView)
    else
      var t := VcPut(VcEnter(s, vc.newView), id, vc);
      if VcFull(t, c.ViewChangeCertSize()) then VcCollector(t.view + 1, None, []) else t
  }

  predicate VcOk(s: VcCollector, id: nat) {
    && (s.own.Some? ==> s.own.value.replicaID == id && s.own.value.newView == s.view)
    && (forall i :: 0 <= i < |s.others| ==> s.others[i].replicaID != id && s.others[i].newView == s.view)
    && DistinctSenders(s.others)
  }

  /** No ViewChange for the same view has been collected from the sender. */
  predicate VcUnseen(s: VcCollector, vc: ViewChange) {
    s.view == vc.newView ==> forall i :: 0 <= i < |s.others| ==> s.others[i].replicaID != vc.replicaID
  }

  /** An emitted certificate passes the new-view certificate validator, and moves the collector past its
      view, so a view never gets a second one. */
  lemma VcEmitsValid(s: VcCollector, c: Config, id: nat, vc: ViewChange)
    requires c.Ok() && VcOk(s, id) && VcUnseen(s, vc)
    ensures VcOk(VcCollect(s, c, id, vc), id)
    ensures VcCollect(s, c, id, vc).view >= s.view
    ensures var cert := VcCert(s, c, id, vc);
            cert.Some? ==>
              && NewViewOk(c, id, vc.newView, cert.value) == (vc.newView >= 1)
              && NewViewCertOk(c.ViewChangeCertSize(), id, vc.newView, cert.value)
              && c.IsPrimary(vc.newView, id)
              && s.view <= vc.newView < VcCollect(s, c, id, vc).view
  {
    var cert := VcCert(s, c, id, vc);
    if cert.Some? {
      assert cert.value[0].replicaID == id;
    }
  }

  /** makeViewChangeCollector. */
  class ViewChangeCollector {
    const c: Config
    const id: nat
    var view: nat
    var collected: seq<Option<ViewChange>>

    predicate Valid()
      reads this
    {
      && c.Ok()
      && |collected| >= 1
      && forall i :: 1 <= i < |collected| ==> collected[i].Some?
    }

    function Model(): VcCollector
      requires Valid()
      reads this
    {
      VcCollector(view, collected[0], Values(collected[1..]))
    }

    constructor (c: Config, id: nat)
      requires c.Ok()
      ensures Valid() && this.c == c && this.id == id && Model() == NO_VIEW_CHANGES
    {
      this.c, this.id, view, collected := c, id, 0, [None];
    }

    /** The message is put into slot 0 if it is the replica's own, else appended while there is room. */
    method Put(vc: ViewChange) returns (placed: bool)
      requires Valid()
      modifies this`collected
      ensures Valid() && placed == (vc.replicaID == id || 1 + |old(Model()).others| < c.ViewChangeCertSize())
      ensures Model() == if placed then VcPut(old(Model()), id, vc) else old(Model())
    {
      placed := true;
      if vc.replicaID == id {
        ghost var before := collected;
        collected := collected[0 := Some(vc)];
        assert collected[1..] == before[1..];
      } else if |collected| < c.ViewChangeCertSize() {
        ValuesAppend(collected, vc);
        collected := collected + [Some(vc)];
      } else {
        placed := false;
      }
    }

    method Collect(vc: ViewChange) returns (isNew: bool, cert: Option<seq<ViewChange>>)
      requires Valid()
      modifies this
      ensures Valid()
      ensures Model() == VcCollect(old(Model()), c, id, vc)
      ensures isNew == VcNew(old(Model()), c, id, vc) && cert == VcCert(old(Model()), c, id, vc)
    {
      if vc.newView < view {
        return false, None;
      } else if vc.newView > view {
        collected := [None];
        view := vc.newView;
      }
      if !c.IsPrimary(view, id) {
        return false, None;
      }
      isNew := Put(vc);
      if !isNew || collected[0] == None || |collected| < c.ViewChangeCertSize() {
        return isNew, None;
      }
      ValuesFull(collected);
      cert := Some(Values(collected));
      collected := [None];
      view := view + 1;
    }
  }

  lemma ValuesAppend(l: seq<Option<ViewChange>>, vc: ViewChange)
    requires |l| >= 1 && forall i :: 1 <= i < |l| ==> l[i].Some?
    ensures Values((l + [Some(vc)])[1..]) == Values(l[1..]) + [vc]
  {
  }

  lemma ValuesFull(l: seq<Option<ViewChange>>)
    requires |l| >= 1 && forall i :: 0 <= i < |l| ==> l[i].Some?
    ensures Values(l) == [l[0].value] + Values(l[1..])
  {
  }

  function Values(l: seq<Option<ViewChange>>): (v: seq<ViewChange>)
    requires forall i :: 0 <= i < |l| ==> l[i].Some?
    ensures |v| == |l|
    ensures forall i :: 0 <= i < |l| ==> v[i] == l[i].value
  {
    seq(|l|, i requires 0 <= i < |l| => l[i].value)
  }

  /** A run of the collector: its final state and the emitted certificates with their views. */
  function VcRun(c: Config, id: nat, inputs: seq<ViewChange>): (VcCollector, seq<(nat, seq<ViewChange>)>)
    requires c.Ok()
  {
    if inputs == [] then (NO_VIEW_CHANGES, [])
    else
      var (s, certs) := VcRun(c, id, inputs[..|inputs| - 1]);
      var vc := inputs[|inputs| - 1];
      var cert := VcCert(s, c, id, vc);
      (VcCollect(s, c, id, vc), if cert.Some? then certs + [(vc.newView, cert.value)] else certs)
  }

  /** At most one ViewChange per replica and view. */
  predicate OnePerView(inputs: seq<ViewChange>) {
    forall i, j :: 0 <= i < j < |inputs| ==>
      !(inputs[i].replicaID == inputs[j].replicaID && inputs[i].newView == inputs[j].newView)
  }

  ghost predicate From(s: VcCollector, inputs: seq<ViewChange>) {
    forall i :: 0 <= i < |s.others| ==> s.others[i] in inputs
  }

  /** The certificates emitted up to state s. */
  ghost predicate CertsOk(c: Config, id: nat, s: VcCollector, certs: seq<(nat, seq<ViewChange>)>)
    requires c.Ok()
  {
    && (forall k :: 0 <= k < |certs| ==>
          && c.IsPrimary(certs[k].0, id)
          && NewViewCertOk(c.ViewChangeCertSize(), id, certs[k].0, certs[k].1)
          && certs[k].0 < s.view)
    && (forall j, k :: 0 <= j < k < |certs| ==> certs[j].0 < certs[k].0)
  }

  lemma VcNotAmong(s: VcCollector, inputs: seq<ViewChange>, vc: ViewChange)
    requires From(s, inputs) && OnePerView(inputs + [vc])
    requires forall i :: 0 <= i < |s.others| ==> s.others[i].newView == s.view
    ensures VcUnseen(s, vc)
  {
    forall i | 0 <= i < |s.others| && s.view == vc.newView
      ensures s.others[i].replicaID != vc.replicaID
    {
      var j :| 0 <= j < |inputs| && inputs[j] == s.others[i];
      assert (inputs + [vc])[j] == s.others[i] && (inputs + [vc])[|inputs|] == vc;
    }
  }

  lemma VcStep(c: Config, id: nat, s: VcCollector, certs: seq<(nat, seq<ViewChange>)>, vc: ViewChange)
    requires c.Ok() && VcOk(s, id) && VcUnseen(s, vc) && CertsOk(c, id, s, certs)
    ensures var cert := VcCert(s, c, id, vc);
            CertsOk(c, id, VcCollect(s, c, id, vc), if cert.Some? then certs + [(vc.newView, cert.value)] else certs)
  {
    VcEmitsValid(s, c, id, vc);
  }

  /** Over every input sequence with at most one ViewChange per replica and view, the certificates are for
      strictly increasing views led by this replica, and each is valid. */
  lemma {:induction false} VcRunValid(c: Config, id: nat, inputs: seq<ViewChange>)
    requires c.Ok() && OnePerView(inputs)
    ensures VcOk(VcRun(c, id, inputs).0, id) && From(VcRun(c, id, inputs).0, inputs)
    ensures CertsOk(c, id, VcRun(c, id, inputs).0, VcRun(c, id, inputs).1)
  {
    if inputs != [] {
      var last := |inputs| - 1;
      var init, vc := inputs[..last], inputs[last];
      assert inputs == init + [vc];
      VcRunValid(c, id, init);
      var (s, certs) := VcRun(c, id, init);
      VcNotAmong(s, init, vc);
      VcEmitsValid(s, c, id, vc);
      VcStep(c, id, s, certs, vc);
    }
  }
}
