/** Extraction of the prepared requests evidenced by a new-view certificate (core/new-view.go:140-178).

    `None` is the panic of line 173.  `Extract` is the reference form; `ExtractPreparedRequests` is the
    source's own loops and recursion, proved to compute it. */
module Extraction {
  import opened Messages

  /** A log without its leading ViewChange message. */
  function Strip(log: seq<Message>): seq<Message> {
    if |log| > 0 && log[0].ViewChangeMsg? then log[1..] else log
  }

  /** The leading ViewChange messages put aside, in certificate order. */
  function Leading(cert: seq<ViewChange>): seq<ViewChange> {
    if cert == [] then []
    else
      var rest := Leading(cert[..|cert| - 1]);
      var l := cert[|cert| - 1].log;
      if |l| > 0 && l[0].ViewChangeMsg? then rest + [l[0].vc] else rest
  }

  /** The first of the longest stripped logs. */
  function MaxLog(cert: seq<ViewChange>): seq<Message> {
    if cert == [] then []
    else
      var m := MaxLog(cert[..|cert| - 1]);
      var l := Strip(cert[|cert| - 1].log);
      if |l| > |m| then l else m
  }

  lemma StripSize(log: seq<Message>)
    ensures LogSize(Strip(log)) <= LogSize(log)
    ensures |log| > 0 && log[0].ViewChangeMsg? ==>
              LogSize(log) == ViewChangeSize(log[0].vc) + 1 + LogSize(log[1..])
    decreases |log|
  {
    if |log| > 0 && log[0].ViewChangeMsg? {
      if |log| == 1 {
        assert log[..0] == [];
      } else {
        var init := log[..|log| - 1];
        StripSize(init);
        assert init[1..] == log[1..][..|log| - 2];
      }
    }
  }

  lemma MaxLogSize(cert: seq<ViewChange>)
    ensures LogSize(MaxLog(cert)) <= CertSize(cert)
  {
    if cert != [] {
      MaxLogSize(cert[..|cert| - 1]);
      StripSize(cert[|cert| - 1].log);
    }
  }

  /** The second recursive call is on a freshly built list; it is still strictly smaller. */
  lemma LeadingSize(cert: seq<ViewChange>)
    ensures CertSize(Leading(cert)) + |Leading(cert)| <= CertSize(cert)
  {
    if cert != [] {
      var init, last := cert[..|cert| - 1], cert[|cert| - 1];
      LeadingSize(init);
      StripSize(last.log);
      if |last.log| > 0 && last.log[0].ViewChangeMsg? {
        assert (Leading(init) + [last.log[0].vc])[..|Leading(init)|] == Leading(init);
      }
    }
  }

  function Extract(cert: seq<ViewChange>): Option<seq<Request>>
    decreases CertSize(cert), 1, 0
  {
    var maxLog, vcs := MaxLog(cert), Leading(cert);
    MaxLogSize(cert); LeadingSize(cert);
    if maxLog == [] && vcs != [] then Extract(vcs) else Fold(maxLog)
  }

  /** The requests accumulated over a stripped log: a Prepare appends its request, a NewView restarts
      from what its own certificate evidences. */
  function Fold(log: seq<Message>): Option<seq<Request>>
    decreases LogSize(log), 0, |log|
  {
    if log == [] then Some([])
    else
      var before := Fold(log[..|log| - 1]);
      var m := log[|log| - 1];
      UnwrapSize(m);
      if before.None? then None
      else match m.Unwrap()
        case Prepare(_, _, request, _) => Some(before.value + [request])
        case NewView(_, _, nvCert, _) => Extract(nvCert)
        case _ => None
  }

  lemma UnwrapSize(m: Message)
    ensures Size(m.Unwrap()) <= Size(m)
  {
  }

  /** extractPreparedRequests: terminates on every finite certificate and computes `Extract`. */
  method ExtractPreparedRequests(nvCert: seq<ViewChange>) returns (prepared: Option<seq<Request>>)
    ensures prepared == Extract(nvCert)
    decreases CertSize(nvCert), 1
  {
    var vcs, maxLog := SelectLog(nvCert);
    MaxLogSize(nvCert);
    LeadingSize(nvCert);
    if |maxLog| == 0 && |vcs| > 0 {
      prepared := ExtractPreparedRequests(vcs);
    } else {
      prepared := CollectPrepared(maxLog);
    }
  }

  /** The first loop, core/new-view.go:141-154. */
  method SelectLog(nvCert: seq<ViewChange>) returns (vcs: seq<ViewChange>, maxLog: seq<Message>)
    ensures vcs == Leading(nvCert) && maxLog == MaxLog(nvCert)
  {
    vcs, maxLog := [], [];
    for i := 0 to |nvCert|
      invariant vcs == Leading(nvCert[..i]) && maxLog == MaxLog(nvCert[..i])
    {
      assert nvCert[..i + 1][..i] == nvCert[..i];
      var l := nvCert[i].log;
      if |l| > 0 {
        if l[0].ViewChangeMsg? {
          vcs := vcs + [l[0].vc];
          l := l[1..];
        }
        if |l| > |maxLog| {
          maxLog := l;
        }
      }
    }
    assert nvCert[..|nvCert|] == nvCert;
  }

  /** The second loop, core/new-view.go:162-175. */
  method CollectPrepared(maxLog: seq<Message>) returns (prepared: Option<seq<Request>>)
    ensures prepared == Fold(maxLog)
    decreases LogSize(maxLog), 0
  {
    var acc: seq<Request> := [];
    for i := 0 to |maxLog|
      invariant Fold(maxLog[..i]) == Some(acc)
    {
      assert maxLog[..i + 1][..i] == maxLog[..i];
      EntrySize(maxLog, i);
      var m := maxLog[i].Unwrap();
      match m {
        case Prepare(_, _, request, _) =>
          acc := acc + [request];
        case NewView(_, _, cert, _) =>
          var inner := ExtractPreparedRequests(cert);
          if inner.None? {
            PanicPersists(maxLog, i + 1);
            return None;
          }
          acc := inner.value;
        case _ =>
          PanicPersists(maxLog, i + 1);
          return None;
      }
    }
    assert maxLog[..|maxLog|] == maxLog;
    prepared := Some(acc);
  }

  lemma EntrySize(log: seq<Message>, i: nat)
    requires i < |log|
    ensures Size(log[i].Unwrap()) <= LogSize(log)
    decreases |log|
  {
    if i < |log| - 1 {
      EntrySize(log[..|log| - 1], i);
    }
  }

  lemma PanicPersists(log: seq<Message>, k: nat)
    requires k <= |log| && Fold(log[..k]).None?
    ensures Fold(log).None?
    decreases |log|
  {
    if k < |log| {
      assert log[..|log| - 1][..k] == log[..k];
      PanicPersists(log[..|log| - 1], k);
    } else {
      assert log[..k] == log;
    }
  }

  // ---------- What the selected log and the leading messages are ----------

  /** MaxLog is the stripped log of some member (or empty), and no member's is longer. */
  lemma {:induction false} MaxLogDominates(cert: seq<ViewChange>)
    ensures forall i :: 0 <= i < |cert| ==> |Strip(cert[i].log)| <= |MaxLog(cert)|
    ensures MaxLog(cert) == [] || exists i :: 0 <= i < |cert| && MaxLog(cert) == Strip(cert[i].log)
  {
    if cert != [] {
      var k := |cert| - 1;
      var front := cert[..k];
      MaxLogDominates(front);
      forall i | 0 <= i < |cert|
        ensures |Strip(cert[i].log)| <= |MaxLog(cert)|
      {
        assert i < k ==> front[i] == cert[i];
      }
      if MaxLog(cert) == Strip(cert[k].log) {
      } else if MaxLog(front) != [] {
        var i :| 0 <= i < k && MaxLog(front) == Strip(front[i].log);
        assert MaxLog(cert) == Strip(cert[i].log);
      }
    }
  }

  /** It is the first of the longest: no member before has one as long. */
  lemma {:induction false} MaxLogFirst(cert: seq<ViewChange>) returns (i: nat)
    requires MaxLog(cert) != []
    ensures i < |cert| && MaxLog(cert) == Strip(cert[i].log)
    ensures forall j :: 0 <= j < i ==> |Strip(cert[j].log)| < |MaxLog(cert)|
    decreases |cert|
  {
    var k := |cert| - 1;
    var front := cert[..k];
    if |Strip(cert[k].log)| > |MaxLog(front)| {
      i := k;
      MaxLogDominates(front);
      forall j | 0 <= j < k
        ensures |Strip(cert[j].log)| < |MaxLog(cert)|
      {
        assert front[j] == cert[j];
      }
    } else {
      i := MaxLogFirst(front);
      forall j | 0 <= j < i
        ensures |Strip(cert[j].log)| < |MaxLog(cert)|
      {
        assert front[j] == cert[j];
      }
    }
  }

  /** When every member's log starts with a ViewChange, `Leading` lists those, position by position. */
  lemma {:induction false} LeadingPointwise(cert: seq<ViewChange>)
    requires forall i :: 0 <= i < |cert| ==> |cert[i].log| > 0 && cert[i].log[0].ViewChangeMsg?
    ensures |Leading(cert)| == |cert|
    ensures forall i :: 0 <= i < |cert| ==> Leading(cert)[i] == cert[i].log[0].vc
  {
    if cert != [] {
      LeadingPointwise(cert[..|cert| - 1]);
    }
  }

  lemma LeadingEmpty(cert: seq<ViewChange>)
    requires forall i :: 0 <= i < |cert| ==> |cert[i].log| > 0 ==> !cert[i].log[0].ViewChangeMsg?
    ensures Leading(cert) == []
  {
    if cert != [] {
      LeadingEmpty(cert[..|cert| - 1]);
    }
  }

  /** A commitment evidences what its proposal evidences. */
  lemma FoldUnwraps(log: seq<Message>)
    requires forall i :: 0 <= i < |log| ==> log[i].Unwrap().IsProposal()
    ensures Fold(log) == Fold(Unwraps(log))
  {
    if log != [] {
      var k := |log| - 1;
      FoldUnwraps(log[..k]);
      assert Unwraps(log)[..k] == Unwraps(log[..k]);
    }
  }
}
