/** When the collectors emit a certificate (core/view-change.go:173-209, core/req-view-change.go:86-114): as soon as
    there can be one, and once. */
module CollectorRuns {
  import opened Messages
  import opened Collectors

  /** The replica's own ViewChange for the view is among the messages. */
  predicate OwnSeen(inputs: seq<ViewChange>, v: nat, id: nat) {
    inputs != [] && (OwnSeen(inputs[..|inputs| - 1], v, id)
                     || (inputs[|inputs| - 1].newView == v && inputs[|inputs| - 1].replicaID == id))
  }

  /** How many of the messages are others' ViewChanges for the view. */
  function OthersSeen(inputs: seq<ViewChange>, v: nat, id: nat): nat {
    if inputs == [] then 0
    else
      var vc := inputs[|inputs| - 1];
      OthersSeen(inputs[..|inputs| - 1], v, id) + if vc.newView == v && vc.replicaID != id then 1 else 0
  }

  /** The replica's own ViewChange and f others have been received. */
  predicate Enough(c: Config, id: nat, inputs: seq<ViewChange>, v: nat) {
    OwnSeen(inputs, v, id) && OthersSeen(inputs, v, id) >= c.f
  }

  ghost predicate Tracks(c: Config, id: nat, inputs: seq<ViewChange>, v: nat, s: VcCollector) {
    if Enough(c, id, inputs, v) then s == VcCollector(v + 1, None, [])
    else if s.view == v then
      && (s.own.Some? <==> OwnSeen(inputs, v, id))
      && |s.others| == if OthersSeen(inputs, v, id) < c.f then OthersSeen(inputs, v, id) else c.f
    else s.view < v && !OwnSeen(inputs, v, id) && OthersSeen(inputs, v, id) == 0
  }

  lemma TracksNext(c: Config, id: nat, inputs: seq<ViewChange>, v: nat, s: VcCollector, vc: ViewChange)
    requires c.Ok() && c.IsPrimary(v, id) && vc.newView <= v && Tracks(c, id, inputs, v, s)
    ensures Tracks(c, id, inputs + [vc], v, VcCollect(s, c, id, vc))
    ensures VcCert(s, c, id, vc).Some? && vc.newView == v <==>
            Enough(c, id, inputs + [vc], v) && !Enough(c, id, inputs, v)
  {
    assert (inputs + [vc])[..|inputs|] == inputs;
  }

  lemma {:induction false} VcTracks(c: Config, id: nat, inputs: seq<ViewChange>, v: nat)
    requires c.Ok() && c.IsPrimary(v, id) && forall k :: 0 <= k < |inputs| ==> inputs[k].newView <= v
    ensures Tracks(c, id, inputs, v, VcRun(c, id, inputs).0)
    decreases |inputs|
  {
    if inputs != [] {
      var last := |inputs| - 1;
      VcTracks(c, id, inputs[..last], v);
      TracksNext(c, id, inputs[..last], v, VcRun(c, id, inputs[..last]).0, inputs[last]);
      assert inputs == inputs[..last] + [inputs[last]];
    }
  }

  ghost predicate NoneNewer(inputs: seq<ViewChange>, v: nat) {
    forall k :: 0 <= k < |inputs| ==> inputs[k].newView <= v
  }

  /** The collector is never behind a message it has been given. */
  lemma {:induction false} NeverBehind(c: Config, id: nat, inputs: seq<ViewChange>)
    requires c.Ok()
    ensures NoneNewer(inputs, VcRun(c, id, inputs).0.view)
    decreases |inputs|
  {
    if inputs != [] {
      var last := |inputs| - 1;
      var s, s' := VcRun(c, id, inputs[..last]).0, VcRun(c, id, inputs).0;
      NeverBehind(c, id, inputs[..last]);
      assert s'.view >= s.view && s'.view >= inputs[last].newView;
      forall k | 0 <= k < |inputs|
        ensures inputs[k].newView <= s'.view
      {
        assert k < last ==> inputs[..last][k] == inputs[k];
      }
    }
  }

  /** Over all inputs: a certificate is emitted with a message if and only if the replica leads the view, no message for
      a newer view came before, and by this message the replica's own ViewChange and f others have been received. */
  lemma VcEmitsIff(c: Config, id: nat, inputs: seq<ViewChange>, vc: ViewChange)
    requires c.Ok()
    ensures var v := vc.newView;
            VcCert(VcRun(c, id, inputs).0, c, id, vc).Some? <==>
            && id == v % c.n && NoneNewer(inputs, v)
            && Enough(c, id, inputs + [vc], v) && !Enough(c, id, inputs, v)
  {
    var v := vc.newView;
    if !NoneNewer(inputs, v) {
      NeverBehind(c, id, inputs);
      var k :| 0 <= k < |inputs| && inputs[k].newView > v;
      assert inputs[k].newView <= VcRun(c, id, inputs).0.view;
    } else if c.IsPrimary(v, id) {
      VcTracks(c, id, inputs, v);
      TracksNext(c, id, inputs, v, VcRun(c, id, inputs).0, vc);
    }
  }

  // ---------- Requests to change the view ----------

  /** Counting replicas only: the view reached, and who has asked for the next one since. */
  function Asking(size: nat, inputs: seq<ReqViewChange>): (nat, set<nat>) {
    if inputs == [] then (0, {})
    else
      var (view, who) := Asking(size, inputs[..|inputs| - 1]);
      var m := inputs[|inputs| - 1];
      if m.newView != view + 1 then (view, who)
      else if |who + {m.replicaID}| >= size then (view + 1, {})
      else (view, who + {m.replicaID})
  }

  /** Over all inputs, the collector of view-change requests is at the view, and has requests of the replicas, that
      counting gives; it has emitted one certificate per view. */
  lemma {:induction false} RvcCounts(size: nat, inputs: seq<ReqViewChange>)
    requires size >= 1
    ensures var s, a := RvcRun(size, inputs).0, Asking(size, inputs);
            && s.view == a.0 == |RvcRun(size, inputs).1| && s.replicas == a.1
            && |s.collected| == |s.replicas| < size
    decreases |inputs|
  {
    if inputs != [] {
      RvcCounts(size, inputs[..|inputs| - 1]);
    }
  }
}
