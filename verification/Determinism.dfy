/** Evidence is determined by counters, whatever a faulty replica sends.

    USIG is taken at its word: `usig(r, cv)` is the one authenticated content that replica r's USIG has
    certified under counter cv.  A ViewChange message is certified without its message log, yet two valid
    ViewChange messages with the same sender and counter carry the same log, and two valid NewView
    messages with the same sender and counter stand for the same sequence of requests. */
module Determinism {
  import opened Messages
  import opened Extraction
  import opened Validation
  import opened Authen

  datatype Env = Env(c: Config, hash: Hash, usig: (nat, nat) -> Bytes)

  /** The message passes validation with a verified UI, and so does every message embedded in it: what
      the recursive handler has checked when it accepts a message. */
  ghost predicate Authentic(e: Env, m: Message)
    requires e.c.Ok()
    decreases Size(m)
  {
    && Validate(e.c, m) == Accept
    && Sized(ContentOf(e.hash, m))
    && e.usig(m.Sender(), m.Counter()) == Encode(ContentOf(e.hash, m))
    && forall i :: 0 <= i < |Embedded(m)| ==> (EmbeddedSmaller(m, i); Authentic(e, Embedded(m)[i]))
  }

  /** Two authentic messages under one sender and counter. */
  ghost predicate Twins(e: Env, a: Message, b: Message)
    requires e.c.Ok()
  {
    Authentic(e, a) && Authentic(e, b) && a.Sender() == b.Sender() && a.Counter() == b.Counter()
  }

  ghost predicate TwinLogs(e: Env, a: seq<Message>, b: seq<Message>)
    requires e.c.Ok()
  {
    |a| == |b| && forall i :: 0 <= i < |a| ==> Twins(e, a[i], b[i])
  }

  ghost predicate TwinCerts(e: Env, a: seq<ViewChange>, b: seq<ViewChange>)
    requires e.c.Ok()
  {
    |a| == |b| && forall i :: 0 <= i < |a| ==> Twins(e, ViewChangeMsg(a[i]), ViewChangeMsg(b[i]))
  }

  /** Twins have the same authenticated content. */
  lemma TwinContent(e: Env, a: Message, b: Message)
    requires e.c.Ok() && Twins(e, a, b)
    ensures ContentOf(e.hash, a) == ContentOf(e.hash, b)
  {
    EncodeInjective(ContentOf(e.hash, a), ContentOf(e.hash, b));
  }

  // ---------- Log determinism ----------

  lemma LogAuthentic(e: Env, vc: ViewChange, i: nat)
    requires e.c.Ok() && Authentic(e, ViewChangeMsg(vc)) && i < |vc.log|
    ensures Authentic(e, vc.log[i]) && vc.log[i].Counter() >= 1
  {
    assert Embedded(ViewChangeMsg(vc))[i] == vc.log[i];
  }

  /** Neither of two twin ViewChange messages can have the shorter log. */
  lemma LogNotShorter(e: Env, a: ViewChange, b: ViewChange)
    requires e.c.Ok() && Twins(e, ViewChangeMsg(a), ViewChangeMsg(b))
    ensures |a.log| >= |b.log|
  {
    TwinContent(e, ViewChangeMsg(a), ViewChangeMsg(b));
    if |a.log| < |b.log| {
      if a.log == [] {
        LogAuthentic(e, b, |b.log| - 1);
      } else {
        var k := |b.log| - |a.log|;
        LogAuthentic(e, a, 0);
        LogAuthentic(e, b, k);
        LogAuthentic(e, b, k - 1);
        TwinContent(e, a.log[0], b.log[k]);
      }
    }
  }

  /** Log determinism: valid ViewChange messages of one replica under one counter are for the same view,
      and their logs have equal length and agree, entry by entry, on sender, counter and authenticated
      content. */
  lemma LogDeterminism(e: Env, a: ViewChange, b: ViewChange)
    requires e.c.Ok() && Twins(e, ViewChangeMsg(a), ViewChangeMsg(b))
    ensures a.newView == b.newView
    ensures TwinLogs(e, a.log, b.log)
    ensures forall i :: 0 <= i < |a.log| ==> ContentOf(e.hash, a.log[i]) == ContentOf(e.hash, b.log[i])
  {
    TwinContent(e, ViewChangeMsg(a), ViewChangeMsg(b));
    LogNotShorter(e, a, b);
    LogNotShorter(e, b, a);
    forall i | 0 <= i < |a.log|
      ensures Twins(e, a.log[i], b.log[i]) && ContentOf(e.hash, a.log[i]) == ContentOf(e.hash, b.log[i])
    {
      LogAuthentic(e, a, i);
      LogAuthentic(e, b, i);
      TwinContent(e, a.log[i], b.log[i]);
    }
  }

  // ---------- What the log of any sender contains ----------

  /** Counter of the first entry after the leading ViewChange message, if there is one. */
  function FirstCounter(vc: ViewChange): int {
    vc.cv - |Strip(vc.log)|
  }

  /** No sender, following the code or not, can leave out of a valid log a message that its USIG certified
      between the first entry and the ViewChange message. */
  lemma LogComplete(e: Env, vc: ViewChange, m: Message)
    requires e.c.Ok() && Authentic(e, ViewChangeMsg(vc)) && Authentic(e, m) && m.Sender() == vc.replicaID
    requires vc.cv - |vc.log| <= m.Counter() < vc.cv
    ensures var k := m.Counter() - (vc.cv - |vc.log|);
            Twins(e, vc.log[k], m) && ContentOf(e.hash, vc.log[k]) == ContentOf(e.hash, m)
  {
    var k := m.Counter() - (vc.cv - |vc.log|);
    LogAuthentic(e, vc, k);
    TwinContent(e, vc.log[k], m);
  }

  /** So the stripped log lists every commitment that its sender certified since the anchor, in counter order;
      and a commitment to a proposal is never hidden in the place of the leading ViewChange message. */
  lemma StrippedComplete(e: Env, vc: ViewChange, m: Message)
    requires e.c.Ok() && Authentic(e, ViewChangeMsg(vc)) && Authentic(e, m) && m.Sender() == vc.replicaID
    requires m.Unwrap().IsProposal() && vc.cv - |vc.log| <= m.Counter() < vc.cv
    ensures FirstCounter(vc) <= m.Counter()
    ensures var k := m.Counter() - FirstCounter(vc);
            && k < |Strip(vc.log)| && Strip(vc.log)[k].Counter() == m.Counter()
            && ContentOf(e.hash, Strip(vc.log)[k]) == ContentOf(e.hash, m)
  {
    LogComplete(e, vc, m);
    StripIndex(vc.log, m.Counter() - (vc.cv - |vc.log|));
  }

  lemma StripIndex(log: seq<Message>, k: nat)
    requires k < |log| && !log[k].ViewChangeMsg?
    ensures var j := k - (|log| - |Strip(log)|); 0 <= j < |Strip(log)| && Strip(log)[j] == log[k]
  {
  }

  /** And a certificate selects a log at least as long as any such commitment requires. */
  lemma SelectedCovers(e: Env, cert: seq<ViewChange>, i: nat, m: Message)
    requires e.c.Ok() && i < |cert| && Authentic(e, ViewChangeMsg(cert[i])) && Authentic(e, m)
    requires m.Sender() == cert[i].replicaID && m.Unwrap().IsProposal()
    requires cert[i].cv - |cert[i].log| <= m.Counter() < cert[i].cv
    ensures |MaxLog(cert)| >= m.Counter() - FirstCounter(cert[i]) + 1
  {
    StrippedComplete(e, cert[i], m);
    MaxLogDominates(cert);
  }

  // ---------- Extraction determinism ----------

  lemma StripTwins(e: Env, a: seq<Message>, b: seq<Message>)
    requires e.c.Ok() && TwinLogs(e, a, b)
    ensures TwinLogs(e, Strip(a), Strip(b))
    ensures |a| > 0 ==> a[0].ViewChangeMsg? == b[0].ViewChangeMsg?
  {
    if |a| > 0 {
      TwinContent(e, a[0], b[0]);
    }
  }

  /** The stripped logs of twin ViewChange messages are twins, and so are the messages that lead them. */
  lemma MemberTwins(e: Env, a: ViewChange, b: ViewChange)
    requires e.c.Ok() && Twins(e, ViewChangeMsg(a), ViewChangeMsg(b))
    ensures TwinLogs(e, Strip(a.log), Strip(b.log))
    ensures (|a.log| > 0 && a.log[0].ViewChangeMsg?) <==> (|b.log| > 0 && b.log[0].ViewChangeMsg?)
    ensures |a.log| > 0 && a.log[0].ViewChangeMsg? ==>
              Twins(e, ViewChangeMsg(a.log[0].vc), ViewChangeMsg(b.log[0].vc))
  {
    LogDeterminism(e, a, b);
    StripTwins(e, a.log, b.log);
    if |a.log| > 0 && a.log[0].ViewChangeMsg? {
      assert Twins(e, a.log[0], b.log[0]);
      assert ViewChangeMsg(a.log[0].vc) == a.log[0] && ViewChangeMsg(b.log[0].vc) == b.log[0];
    }
  }

  lemma TwinCertsFront(e: Env, a: seq<ViewChange>, b: seq<ViewChange>)
    requires e.c.Ok() && TwinCerts(e, a, b) && a != []
    ensures var k := |a| - 1;
            TwinCerts(e, a[..k], b[..k]) && Twins(e, ViewChangeMsg(a[k]), ViewChangeMsg(b[k]))
  {
  }

  lemma TwinCertsAppend(e: Env, a: seq<ViewChange>, b: seq<ViewChange>, x: ViewChange, y: ViewChange)
    requires e.c.Ok() && TwinCerts(e, a, b) && Twins(e, ViewChangeMsg(x), ViewChangeMsg(y))
    ensures TwinCerts(e, a + [x], b + [y])
  {
  }

  lemma {:induction false} MaxLogTwins(e: Env, a: seq<ViewChange>, b: seq<ViewChange>)
    requires e.c.Ok() && TwinCerts(e, a, b)
    ensures TwinLogs(e, MaxLog(a), MaxLog(b))
    decreases |a|
  {
    if a != [] {
      var k := |a| - 1;
      TwinCertsFront(e, a, b);
      MaxLogTwins(e, a[..k], b[..k]);
      MemberTwins(e, a[k], b[k]);
    }
  }

  lemma {:induction false} LeadingTwins(e: Env, a: seq<ViewChange>, b: seq<ViewChange>)
    requires e.c.Ok() && TwinCerts(e, a, b)
    ensures TwinCerts(e, Leading(a), Leading(b))
    decreases |a|
  {
    if a != [] {
      var k := |a| - 1;
      TwinCertsFront(e, a, b);
      LeadingTwins(e, a[..k], b[..k]);
      MemberTwins(e, a[k], b[k]);
      if |a[k].log| > 0 && a[k].log[0].ViewChangeMsg? {
        TwinCertsAppend(e, Leading(a[..k]), Leading(b[..k]), a[k].log[0].vc, b[k].log[0].vc);
      }
    }
  }

  /** What is authenticated of a request: its client, identifier and operation hash. */
  function Digest(h: Hash, q: Request): (nat, nat, Bytes) {
    (q.clientID, q.seqNo, h(q.operation))
  }

  function Digests(h: Hash, l: seq<Request>): (d: seq<(nat, nat, Bytes)>)
    ensures |d| == |l|
  {
    seq(|l|, i requires 0 <= i < |l| => Digest(h, l[i]))
  }

  /** The same outcome of an extraction, as far as authenticated. */
  ghost predicate SameOutcome(h: Hash, x: Option<seq<Request>>, y: Option<seq<Request>>) {
    x.Some? == y.Some? && (x.Some? ==> Digests(h, x.value) == Digests(h, y.value))
  }

  lemma UnwrapTwins(e: Env, a: Message, b: Message)
    requires e.c.Ok() && Twins(e, a, b)
    ensures Twins(e, a.Unwrap(), b.Unwrap())
    ensures ContentOf(e.hash, a.Unwrap()) == ContentOf(e.hash, b.Unwrap())
  {
    TwinContent(e, a, b);
    if a.Commit? {
      assert Embedded(a)[0] == a.proposal && Embedded(b)[0] == b.proposal;
    }
  }

  lemma NewViewTwins(e: Env, a: Message, b: Message)
    requires e.c.Ok() && Twins(e, a, b) && a.NewView? && b.NewView?
    ensures TwinCerts(e, a.nvCert, b.nvCert)
  {
    TwinContent(e, a, b);
    assert Identifiers(a.nvCert) == Identifiers(b.nvCert);
    forall i | 0 <= i < |a.nvCert|
      ensures Twins(e, ViewChangeMsg(a.nvCert[i]), ViewChangeMsg(b.nvCert[i]))
    {
      assert Embedded(a)[i] == ViewChangeMsg(a.nvCert[i]) && Embedded(b)[i] == ViewChangeMsg(b.nvCert[i]);
      assert Identifiers(a.nvCert)[i] == Identifiers(b.nvCert)[i];
    }
  }

  lemma {:induction false} ExtractTwins(e: Env, a: seq<ViewChange>, b: seq<ViewChange>)
    requires e.c.Ok() && TwinCerts(e, a, b)
    ensures SameOutcome(e.hash, Extract(a), Extract(b))
    decreases CertSize(a), 1, 0
  {
    MaxLogTwins(e, a, b);
    LeadingTwins(e, a, b);
    MaxLogSize(a);
    LeadingSize(a);
    if MaxLog(a) == [] && Leading(a) != [] {
      ExtractTwins(e, Leading(a), Leading(b));
    } else {
      FoldTwins(e, MaxLog(a), MaxLog(b));
    }
  }

  lemma DigestsAppend(h: Hash, l: seq<Request>, q: Request)
    ensures Digests(h, l + [q]) == Digests(h, l) + [Digest(h, q)]
  {
  }

  /** Messages of one content are of one kind and carry the same digest. */
  lemma SameKind(h: Hash, a: Message, b: Message)
    requires ContentOf(h, a) == ContentOf(h, b)
    ensures a.Prepare? == b.Prepare? && a.NewView? == b.NewView?
    ensures a.Prepare? ==> Digest(h, a.request) == Digest(h, b.request)
  {
  }

  /** What one entry adds to the outcome so far. */
  lemma FoldLast(log: seq<Message>, before: Option<seq<Request>>)
    requires log != [] && Fold(log[..|log| - 1]) == before
    ensures var m := log[|log| - 1].Unwrap();
            Fold(log) == if before.None? then None
                         else if m.Prepare? then Some(before.value + [m.request])
                         else if m.NewView? then Extract(m.nvCert)
                         else None
  {
  }

  lemma FoldNext(h: Hash, a: seq<Message>, x: Option<seq<Request>>, b: seq<Message>, y: Option<seq<Request>>)
    requires a != [] && b != [] && Fold(a[..|a| - 1]) == x && Fold(b[..|b| - 1]) == y && SameOutcome(h, x, y)
    requires var m, m' := a[|a| - 1].Unwrap(), b[|b| - 1].Unwrap();
             && ContentOf(h, m) == ContentOf(h, m')
             && (m.NewView? && m'.NewView? ==> SameOutcome(h, Extract(m.nvCert), Extract(m'.nvCert)))
    ensures SameOutcome(h, Fold(a), Fold(b))
  {
    var m, m' := a[|a| - 1].Unwrap(), b[|b| - 1].Unwrap();
    SameKind(h, m, m');
    FoldLast(a, x);
    FoldLast(b, y);
    if m.Prepare? && x.Some? {
      DigestsAppend(h, x.value, m.request);
      DigestsAppend(h, y.value, m'.request);
    }
  }

  lemma {:induction false} FoldTwins(e: Env, a: seq<Message>, b: seq<Message>)
    requires e.c.Ok() && TwinLogs(e, a, b)
    ensures SameOutcome(e.hash, Fold(a), Fold(b))
    decreases LogSize(a), 0, |a|
  {
    if a != [] {
      var k := |a| - 1;
      FoldTwins(e, a[..k], b[..k]);
      var m, m' := a[k].Unwrap(), b[k].Unwrap();
      UnwrapTwins(e, a[k], b[k]);
      UnwrapSize(a[k]);
      if m.NewView? {
        NewViewTwins(e, m, m');
        ExtractTwins(e, m.nvCert, m'.nvCert);
      }
      FoldNext(e.hash, a, Fold(a[..k]), b, Fold(b[..k]));
    }
  }

  /** Extraction is a function of authenticated content: valid NewView messages of one replica under one
      counter stand for the same requests, although the logs they rest on are not covered by any USIG
      certificate of theirs. */
  lemma ExtractionDeterminism(e: Env, a: Message, b: Message)
    requires e.c.Ok() && a.NewView? && b.NewView? && Twins(e, a, b)
    ensures a.newView == b.newView
    ensures Extract(a.nvCert).Some? && Extract(b.nvCert).Some?
    ensures Digests(e.hash, Extract(a.nvCert).value) == Digests(e.hash, Extract(b.nvCert).value)
  {
    TwinContent(e, a, b);
    NewViewTwins(e, a, b);
    ExtractTwins(e, a.nvCert, b.nvCert);
    AuthenticDeepValid(e, a);
    NewViewCertValid(e.c, a);
    ExtractNeverPanics(e.c, a.nvCert);
  }

  lemma {:induction false} AuthenticDeepValid(e: Env, m: Message)
    requires e.c.Ok() && Authentic(e, m)
    ensures DeepValid(e.c, m)
    decreases Size(m)
  {
    forall i | 0 <= i < |Embedded(m)|
      ensures DeepValid(e.c, Embedded(m)[i])
    {
      EmbeddedSmaller(m, i);
      AuthenticDeepValid(e, Embedded(m)[i]);
    }
  }

  // ---------- Extraction never panics on valid certificates ----------

  ghost predicate DeepValidCert(c: Config, cert: seq<ViewChange>)
    requires c.Ok()
  {
    forall i :: 0 <= i < |cert| ==> DeepValid(c, ViewChangeMsg(cert[i]))
  }

  ghost predicate Collectable(c: Config, log: seq<Message>)
    requires c.Ok()
  {
    forall i :: 0 <= i < |log| ==> DeepValid(c, log[i]) && !log[i].ViewChangeMsg?
  }

  lemma StripCollectable(c: Config, vc: ViewChange)
    requires c.Ok() && DeepValid(c, ViewChangeMsg(vc))
    ensures Collectable(c, Strip(vc.log))
  {
    var l := Strip(vc.log);
    forall i | 0 <= i < |l|
      ensures DeepValid(c, l[i]) && !l[i].ViewChangeMsg?
    {
      var k := if l == vc.log then i else i + 1;
      assert l[i] == vc.log[k] == Embedded(ViewChangeMsg(vc))[k];
      assert IsAnchor(vc.log[k]) ==> k == 0;
    }
  }

  lemma {:induction false} MaxLogCollectable(c: Config, cert: seq<ViewChange>)
    requires c.Ok() && DeepValidCert(c, cert)
    ensures Collectable(c, MaxLog(cert))
    decreases |cert|
  {
    if cert != [] {
      MaxLogCollectable(c, cert[..|cert| - 1]);
      StripCollectable(c, cert[|cert| - 1]);
    }
  }

  lemma {:induction false} LeadingValid(c: Config, cert: seq<ViewChange>)
    requires c.Ok() && DeepValidCert(c, cert)
    ensures DeepValidCert(c, Leading(cert))
    decreases |cert|
  {
    if cert != [] {
      var last := cert[|cert| - 1];
      LeadingValid(c, cert[..|cert| - 1]);
      if |last.log| > 0 && last.log[0].ViewChangeMsg? {
        assert Embedded(ViewChangeMsg(last))[0] == ViewChangeMsg(last.log[0].vc);
      }
    }
  }

  /** The panic of extraction is never reached on a recursively valid certificate. */
  lemma {:induction false} ExtractNeverPanics(c: Config, cert: seq<ViewChange>)
    requires c.Ok() && DeepValidCert(c, cert)
    ensures Extract(cert).Some?
    decreases CertSize(cert), 1, 0
  {
    MaxLogCollectable(c, cert);
    LeadingValid(c, cert);
    MaxLogSize(cert);
    LeadingSize(cert);
    if MaxLog(cert) == [] && Leading(cert) != [] {
      ExtractNeverPanics(c, Leading(cert));
    } else {
      FoldNeverPanics(c, MaxLog(cert));
    }
  }

  lemma {:induction false} FoldNeverPanics(c: Config, log: seq<Message>)
    requires c.Ok() && Collectable(c, log)
    ensures Fold(log).Some?
    decreases LogSize(log), 0, |log|
  {
    if log != [] {
      var m := log[|log| - 1];
      FoldNeverPanics(c, log[..|log| - 1]);
      UnwrapSize(m);
      if m.Commit? {
        assert Embedded(m)[0] == m.proposal;
      }
      if m.Unwrap().NewView? {
        NewViewCertValid(c, m.Unwrap());
        ExtractNeverPanics(c, m.Unwrap().nvCert);
      }
    }
  }

  lemma NewViewCertValid(c: Config, m: Message)
    requires c.Ok() && DeepValid(c, m) && m.NewView?
    ensures DeepValidCert(c, m.nvCert)
  {
    forall i | 0 <= i < |m.nvCert|
      ensures DeepValid(c, ViewChangeMsg(m.nvCert[i]))
    {
      assert Embedded(m)[i] == ViewChangeMsg(m.nvCert[i]);
    }
  }
}
