/** The authenticated content of messages and its serialized form (messages/authen.go).

    The format has no length prefixes, and Commit proposals nest.  A decoder written from the format reads every
    encoding back, and nothing else, so equal bytes mean the same kind of message and the same authenticated
    fields.  SHA-256 is any function to 32 bytes; what is authenticated of an operation or result is its hash. */
module Authen {
  import opened Messages

  type Hash = Bytes -> Bytes

  // ---------- Authenticated content ----------

  /** The messages that are signed or certified. */
  datatype Signed =
    | OfRequest(request: Request)
    | OfReply(reply: Reply)
    | OfReqViewChange(rvc: ReqViewChange)
    | OfCertified(m: Message)

  /** The fields of a message that its authentication tag covers. */
  datatype Content =
    | RequestC(seqNo: nat, digest: Bytes)
    | ReplyC(clientID: nat, seqNo: nat, digest: Bytes)
    | PrepareC(view: nat, clientID: nat, seqNo: nat, digest: Bytes)
    | CommitC(replicaID: nat, proposal: Content, cv: nat)
    | ReqViewChangeC(newView: nat)
    | ViewChangeC(newView: nat)
    | NewViewC(newView: nat, cert: seq<(nat, nat)>)

  /** A ViewChange is covered only by its new view number; in a new-view certificate, each ViewChange by
      its sender and counter. */
  function ContentOf(h: Hash, m: Message): Content {
    match m
    case Prepare(_, view, q, _) => PrepareC(view, q.clientID, q.seqNo, h(q.operation))
    case Commit(_, p, _) => CommitC(p.Sender(), ContentOf(h, p), p.Counter())
    case ViewChangeMsg(vc) => ViewChangeC(vc.newView)
    case NewView(_, newView, cert, _) => NewViewC(newView, Identifiers(cert))
  }

  function Identifiers(cert: seq<ViewChange>): (ids: seq<(nat, nat)>)
    ensures |ids| == |cert|
    ensures forall i :: 0 <= i < |cert| ==> ids[i] == (cert[i].replicaID, cert[i].cv)
  {
    seq(|cert|, i requires 0 <= i < |cert| => (cert[i].replicaID, cert[i].cv))
  }

  function SignedContent(h: Hash, s: Signed): Content {
    match s
    case OfRequest(q) => RequestC(q.seqNo, h(q.operation))
    case OfReply(r) => ReplyC(r.clientID, r.seqNo, h(r.result))
    case OfReqViewChange(rvc) => ReqViewChangeC(rvc.newView)
    case OfCertified(m) => ContentOf(h, m)
  }

  // ---------- Serialized form ----------

  function Pow256(w: nat): nat {
    if w == 0 then 1 else 256 * Pow256(w - 1)
  }

  /** binary.BigEndian, w bytes wide. */
  function BigEndian(x: nat, w: nat): (b: Bytes)
    ensures |b| == w
  {
    if w == 0 then [] else BigEndian(x / 256, w - 1) + [(x % 256) as Byte]
  }

  function Ascii(s: string): (b: Bytes)
    requires forall i :: 0 <= i < |s| ==> s[i] < 128 as char
    ensures |b| == |s| && forall i :: 0 <= i < |s| ==> b[i] == s[i] as int
  {
    seq(|s|, i requires 0 <= i < |s| => (s[i] as int) as Byte)
  }

  function Tag(c: Content): Bytes {
    match c
    case RequestC(_, _) => Ascii("REQUEST")
    case ReplyC(_, _, _) => Ascii("REPLY")
    case PrepareC(_, _, _, _) => Ascii("PREPARE")
    case CommitC(_, _, _) => Ascii("COMMIT")
    case ReqViewChangeC(_) => Ascii("REQ-VIEW-CHANGE")
    case ViewChangeC(_) => Ascii("VIEW-CHANGE")
    case NewViewC(_, _) => Ascii("NEW-VIEW")
  }

  function Encode(c: Content): Bytes
    decreases c, 1
  {
    Tag(c) + Body(c)
  }

  function Body(c: Content): Bytes
    decreases c, 0
  {
    match c
    case RequestC(seqNo, digest) => BigEndian(seqNo, 8) + digest
    case ReplyC(clientID, seqNo, digest) => BigEndian(clientID, 4) + (BigEndian(seqNo, 8) + digest)
    case PrepareC(view, clientID, seqNo, digest) =>
      BigEndian(view, 8) + (BigEndian(clientID, 4) + (BigEndian(seqNo, 8) + digest))
    case CommitC(replicaID, p, cv) => BigEndian(replicaID, 4) + (Encode(p) + BigEndian(cv, 8))
    case ReqViewChangeC(newView) => BigEndian(newView, 8)
    case ViewChangeC(newView) => BigEndian(newView, 8)
    case NewViewC(newView, cert) => BigEndian(newView, 8) + CertBytes(cert)
  }

  function CertBytes(cert: seq<(nat, nat)>): (b: Bytes)
    ensures |b| == 12 * |cert|
  {
    if cert == [] then []
    else
      var k := |cert| - 1;
      CertBytes(cert[..k]) + PairBytes(cert[k])
  }

  /** Replica and counter of a ViewChange message. */
  function PairBytes(p: (nat, nat)): (b: Bytes)
    ensures |b| == 12
  {
    BigEndian(p.0, 4) + BigEndian(p.1, 8)
  }

  /** Fields have the widths of the source's types: uint32 identifiers, uint64 numbers, SHA-256 digests. */
  predicate Sized(c: Content) {
    match c
    case RequestC(seqNo, digest) => seqNo < Pow256(8) && |digest| == 32
    case ReplyC(clientID, seqNo, digest) => clientID < Pow256(4) && seqNo < Pow256(8) && |digest| == 32
    case PrepareC(view, clientID, seqNo, digest) =>
      view < Pow256(8) && clientID < Pow256(4) && seqNo < Pow256(8) && |digest| == 32
    case CommitC(replicaID, p, cv) => replicaID < Pow256(4) && Sized(p) && cv < Pow256(8)
    case ReqViewChangeC(newView) => newView < Pow256(8)
    case ViewChangeC(newView) => newView < Pow256(8)
    case NewViewC(newView, cert) => newView < Pow256(8) && CertSized(cert)
  }

  predicate CertSized(cert: seq<(nat, nat)>) {
    forall i :: 0 <= i < |cert| ==> cert[i].0 < Pow256(4) && cert[i].1 < Pow256(8)
  }

  // ---------- The source's in-place form ----------

  /** writeAuthenBytes: appends the content to the buffer. */
  method WriteAuthenBytes(h: Hash, s: Signed, before: Bytes) returns (buf: Bytes)
    ensures buf == before + Body(SignedContent(h, s))
    decreases if s.OfCertified? then Size(s.m) else 0, 1
  {
    buf := before;
    match s {
      case OfRequest(q) =>
        buf := buf + BigEndian(q.seqNo, 8);
        buf := buf + h(q.operation);
      case OfReply(r) =>
        buf := buf + BigEndian(r.clientID, 4);
        buf := buf + BigEndian(r.seqNo, 8);
        buf := buf + h(r.result);
      case OfReqViewChange(rvc) =>
        buf := buf + BigEndian(rvc.newView, 8);
      case OfCertified(m) =>
        buf := WriteCertified(h, m, buf);
    }
  }

  /** Its cases for the messages with a UI. */
  method WriteCertified(h: Hash, m: Message, before: Bytes) returns (buf: Bytes)
    ensures buf == before + Body(ContentOf(h, m))
    decreases Size(m), 0
  {
    buf := before;
    match m {
      case Prepare(_, view, q, _) =>
        buf := buf + BigEndian(view, 8);
        buf := buf + BigEndian(q.clientID, 4);
        buf := WriteAuthenBytes(h, OfRequest(q), buf);
        assert buf == before + Body(ContentOf(h, m));
      case Commit(_, p, _) =>
        buf := buf + BigEndian(p.Sender(), 4);
        var inner := AuthenBytes(h, OfCertified(p));
        buf := buf + inner;
        buf := buf + BigEndian(p.Counter(), 8);
      case ViewChangeMsg(vc) =>
        buf := buf + BigEndian(vc.newView, 8);
      case NewView(_, newView, cert, _) =>
        buf := buf + BigEndian(newView, 8);
        buf := WriteCert(cert, buf);
    }
  }

  /** The loop over the ViewChange messages of a NewView message. */
  method WriteCert(cert: seq<ViewChange>, before: Bytes) returns (buf: Bytes)
    ensures buf == before + CertBytes(Identifiers(cert))
  {
    buf := before;
    var ids := Identifiers(cert);
    for i := 0 to |cert|
      invariant buf == before + CertBytes(ids[..i])
    {
      assert ids[..i + 1][..i] == ids[..i];
      buf := buf + BigEndian(cert[i].replicaID, 4);
      buf := buf + BigEndian(cert[i].cv, 8);
    }
    assert ids[..|cert|] == ids;
  }

  /** AuthenBytes: the type tag, then the content. */
  method AuthenBytes(h: Hash, s: Signed) returns (buf: Bytes)
    ensures buf == Encode(SignedContent(h, s))
    ensures Sized(SignedContent(h, s)) ==> Decode(buf) == Some(SignedContent(h, s))
    decreases if s.OfCertified? then Size(s.m) else 0, 2
  {
    var tag := Tag(SignedContent(h, s));
    buf := WriteAuthenBytes(h, s, tag);
    if Sized(SignedContent(h, s)) {
      DecodeEncode(SignedContent(h, s));
    }
  }

  // ---------- Reading it back ----------

  /** The number that the bytes stand for, the most significant one first. */
  function Number(b: Bytes): nat {
    if b == [] then 0 else 256 * Number(b[..|b| - 1]) + b[|b| - 1]
  }

  predicate Tagged(b: Bytes, tag: string) {
    |tag| <= |b| && forall i :: 0 <= i < |tag| ==> b[i] == tag[i] as int
  }

  /** A decoder written from the format: a tag, then fields of fixed width at fixed offsets; the proposal of a Commit
      takes what is left between an identifier and a counter, a certificate is pairs of 12 bytes. */
  function Decode(b: Bytes): Option<Content>
    decreases |b|
  {
    if Tagged(b, "REQUEST") then DecodeRequest(b[7..])
    else if Tagged(b, "REPLY") then DecodeReply(b[5..])
    else if Tagged(b, "PREPARE") then DecodePrepare(b[7..])
    else if Tagged(b, "COMMIT") then
      if |b| < 18 then None
      else
        var p := Decode(b[10..|b| - 8]);
        if p.None? then None else Some(CommitC(Number(b[6..10]), p.value, Number(b[|b| - 8..])))
    else if Tagged(b, "REQ-VIEW-CHANGE") then
      if |b| == 23 then Some(ReqViewChangeC(Number(b[15..]))) else None
    else if Tagged(b, "VIEW-CHANGE") then
      if |b| == 19 then Some(ViewChangeC(Number(b[11..]))) else None
    else if Tagged(b, "NEW-VIEW") then DecodeNewView(b[8..])
    else None
  }

  function DecodeRequest(x: Bytes): Option<Content> {
    if |x| == 40 then Some(RequestC(Number(x[..8]), x[8..])) else None
  }

  function DecodeReply(x: Bytes): Option<Content> {
    if |x| == 44 then Some(ReplyC(Number(x[..4]), Number(x[4..12]), x[12..])) else None
  }

  function DecodePrepare(x: Bytes): Option<Content> {
    if |x| == 52 then Some(PrepareC(Number(x[..8]), Number(x[8..12]), Number(x[12..20]), x[20..])) else None
  }

  function DecodeNewView(x: Bytes): Option<Content> {
    if |x| < 8 then None
    else
      var n := (|x| - 8) / 12;
      if |x| == 8 + 12 * n then Some(NewViewC(Number(x[..8]), DecodeCert(x[8..], n))) else None
  }

  function DecodeCert(y: Bytes, n: nat): (cert: seq<(nat, nat)>)
    requires |y| == 12 * n
    ensures |cert| == n
    decreases n
  {
    if n == 0 then []
    else
      var k := 12 * (n - 1);
      DecodeCert(y[..k], n - 1) + [DecodePair(y[k..])]
  }

  function DecodePair(x: Bytes): (nat, nat)
    requires |x| == 12
  {
    (Number(x[..4]), Number(x[4..]))
  }

  // ---------- Numbers ----------

  /** Byte i of w, from the most significant one on. */
  lemma {:induction false} BigEndianByte(x: nat, w: nat, i: nat)
    requires i < w
    ensures Pow256(w - 1 - i) > 0 && BigEndian(x, w)[i] == (x / Pow256(w - 1 - i)) % 256
    decreases w
  {
    PowPositive(w - 1 - i);
    if i < w - 1 {
      BigEndianByte(x / 256, w - 1, i);
      PowPositive(w - 2 - i);
      DivideTwice(x, Pow256(w - 2 - i));
    }
  }

  lemma PowPositive(w: nat)
    ensures Pow256(w) > 0
  {
  }

  lemma DivideTwice(x: nat, d: nat)
    requires d > 0
    ensures (x / 256) / d == x / (256 * d)
  {
    var q, r := x / (256 * d), x % (256 * d);
    assert x == 256 * d * q + r;
    var a, b := r / 256, r % 256;
    assert a < d;
    assert x / 256 == d * q + a by {
      assert x == 256 * (d * q + a) + b;
    }
    Quotient(x / 256, d, q, a);
  }

  lemma Quotient(y: nat, d: nat, q: nat, a: nat)
    requires d > 0 && y == d * q + a && a < d
    ensures y / d == q
  {
    var q', a' := y / d, y % d;
    assert d * q' + a' == d * q + a;
    if q > q' {
      AtLeast(d, q, q');
    } else if q < q' {
      AtLeast(d, q', q);
    }
  }

  lemma AtLeast(d: nat, p: nat, q: nat)
    requires p > q
    ensures d * p >= d * q + d
  {
    assert d * p == d * q + d * (p - q);
    assert d * (p - q) == d * (p - q - 1) + d;
  }

  lemma {:induction false} NumberOf(x: nat, w: nat)
    requires x < Pow256(w)
    ensures Number(BigEndian(x, w)) == x
  {
    if w > 0 {
      NumberOf(x / 256, w - 1);
      assert BigEndian(x, w)[..w - 1] == BigEndian(x / 256, w - 1);
    }
  }

  lemma {:induction false} BytesOf(b: Bytes)
    ensures Number(b) < Pow256(|b|) && BigEndian(Number(b), |b|) == b
  {
    if b != [] {
      var k := |b| - 1;
      BytesOf(b[..k]);
      var x := Number(b[..k]);
      assert (256 * x + b[k]) / 256 == x && (256 * x + b[k]) % 256 == b[k];
      assert b == b[..k] + [b[k]];
    }
  }

  // ---------- Decoding inverts encoding ----------

  /** Cutting a concatenation where its parts meet. */
  lemma Cut(a: Bytes, b: Bytes, c: Bytes)
    ensures var x := a + (b + c);
            x[..|a|] == a && x[|a|..|a| + |b|] == b && x[|a| + |b|..] == c && x[|a|..] == b + c
  {
    var x := a + (b + c);
    assert x[|a|..] == b + c;
    assert x[|a|..|a| + |b|] == (b + c)[..|b|] == b;
    assert x[|a| + |b|..] == (b + c)[|b|..] == c;
  }

  lemma PairOf(p: (nat, nat))
    requires p.0 < Pow256(4) && p.1 < Pow256(8)
    ensures DecodePair(PairBytes(p)) == p
  {
    NumberOf(p.0, 4);
    NumberOf(p.1, 8);
    Split(BigEndian(p.0, 4), BigEndian(p.1, 8));
  }

  lemma Split(a: Bytes, b: Bytes)
    ensures (a + b)[..|a|] == a && (a + b)[|a|..] == b
  {
  }

  lemma CertBytesNext(front: seq<(nat, nat)>, p: (nat, nat))
    ensures CertBytes(front + [p]) == CertBytes(front) + PairBytes(p)
  {
    assert (front + [p])[..|front|] == front;
  }

  lemma DecodeCertNext(a: Bytes, b: Bytes, n: nat)
    requires |a| == 12 * n && |b| == 12
    ensures DecodeCert(a + b, n + 1) == DecodeCert(a, n) + [DecodePair(b)]
  {
    Split(a, b);
  }

  lemma {:induction false} CertOf(cert: seq<(nat, nat)>)
    requires CertSized(cert)
    ensures DecodeCert(CertBytes(cert), |cert|) == cert
  {
    if cert != [] {
      var k := |cert| - 1;
      var front, p := cert[..k], cert[k];
      assert cert == front + [p];
      CertOf(front);
      PairOf(p);
      CertBytesNext(front, p);
      DecodeCertNext(CertBytes(front), PairBytes(p), k);
    }
  }

  lemma TaggedBy(c: Content)
    ensures var b := Encode(c);
            && (Tagged(b, "REQUEST") <==> c.RequestC?) && (Tagged(b, "REPLY") <==> c.ReplyC?)
            && (Tagged(b, "PREPARE") <==> c.PrepareC?) && (Tagged(b, "COMMIT") <==> c.CommitC?)
            && (Tagged(b, "REQ-VIEW-CHANGE") <==> c.ReqViewChangeC?)
            && (Tagged(b, "VIEW-CHANGE") <==> c.ViewChangeC?) && (Tagged(b, "NEW-VIEW") <==> c.NewViewC?)
    ensures Encode(c)[|Tag(c)|..] == Body(c)
  {
    var b, t := Encode(c), Tag(c);
    assert |t| >= 5 && forall i :: 0 <= i < |t| ==> b[i] == t[i];
    assert b[0] == t[0] && b[2] == t[2] && b[3] == t[3];
  }

  lemma RequestOf(x: nat, d: Bytes)
    requires x < Pow256(8) && |d| == 32
    ensures DecodeRequest(BigEndian(x, 8) + d) == Some(RequestC(x, d))
  {
    NumberOf(x, 8);
    Split(BigEndian(x, 8), d);
  }

  lemma ReplyOf(i: nat, x: nat, d: Bytes)
    requires i < Pow256(4) && x < Pow256(8) && |d| == 32
    ensures DecodeReply(BigEndian(i, 4) + (BigEndian(x, 8) + d)) == Some(ReplyC(i, x, d))
  {
    NumberOf(i, 4);
    NumberOf(x, 8);
    Cut(BigEndian(i, 4), BigEndian(x, 8), d);
  }

  lemma PrepareOf(v: nat, i: nat, x: nat, d: Bytes)
    requires v < Pow256(8) && i < Pow256(4) && x < Pow256(8) && |d| == 32
    ensures DecodePrepare(BigEndian(v, 8) + (BigEndian(i, 4) + (BigEndian(x, 8) + d))) == Some(PrepareC(v, i, x, d))
  {
    NumberOf(v, 8);
    NumberOf(i, 4);
    NumberOf(x, 8);
    CutFour(BigEndian(v, 8), BigEndian(i, 4), BigEndian(x, 8), d);
  }

  lemma CutFour(a: Bytes, b: Bytes, c: Bytes, d: Bytes)
    ensures var x, i, j := a + (b + (c + d)), |a| + |b|, |a| + |b| + |c|;
            x[..|a|] == a && x[|a|..i] == b && x[i..j] == c && x[j..] == d
  {
    Cut(a, b, c + d);
    var x, i, j := a + (b + (c + d)), |a| + |b|, |a| + |b| + |c|;
    assert x[i..j] == (c + d)[..|c|] == c;
    assert x[j..] == (c + d)[|c|..] == d;
  }

  lemma NewViewOf(v: nat, cert: seq<(nat, nat)>)
    requires v < Pow256(8) && CertSized(cert)
    ensures DecodeNewView(BigEndian(v, 8) + CertBytes(cert)) == Some(NewViewC(v, cert))
  {
    var a, b := BigEndian(v, 8), CertBytes(cert);
    assert (a + b)[..8] == a && (a + b)[8..] == b by { Split(a, b); }
    assert (|a + b| - 8) / 12 == |cert|;
    NumberOf(v, 8);
    CertOf(cert);
  }

  /** The bytes of a Commit are read around its proposal. */
  lemma CommitRead(b: Bytes, p: Content)
    requires Tagged(b, "COMMIT") && |b| >= 18 && Decode(b[10..|b| - 8]) == Some(p)
    ensures Decode(b) == Some(CommitC(Number(b[6..10]), p, Number(b[|b| - 8..])))
  {
    assert b[0] == 'C' as int;
  }

  lemma CommitOf(i: nat, p: Content, cv: nat)
    requires i < Pow256(4) && cv < Pow256(8) && Decode(Encode(p)) == Some(p)
    ensures Decode(Encode(CommitC(i, p, cv))) == Some(CommitC(i, p, cv))
  {
    var c := CommitC(i, p, cv);
    var t, x, y, z := Ascii("COMMIT"), BigEndian(i, 4), Encode(p), BigEndian(cv, 8);
    var b := t + (x + (y + z));
    assert Encode(c) == b && |b| == |y| + 18;
    assert b[6..10] == x && b[10..|b| - 8] == y && b[|b| - 8..] == z by { CutFour(t, x, y, z); }
    assert Tagged(b, "COMMIT") by { TaggedBy(c); }
    assert Number(x) == i by { NumberOf(i, 4); }
    assert Number(z) == cv by { NumberOf(cv, 8); }
    CommitRead(b, p);
  }

  /** All other kinds are read by kind. */
  lemma KindRead(c: Content)
    requires !c.CommitC?
    ensures var x := Body(c);
            Decode(Encode(c)) ==
            match c
            case RequestC(_, _) => DecodeRequest(x)
            case ReplyC(_, _, _) => DecodeReply(x)
            case PrepareC(_, _, _, _) => DecodePrepare(x)
            case ReqViewChangeC(_) => if |x| == 8 then Some(ReqViewChangeC(Number(x))) else None
            case ViewChangeC(_) => if |x| == 8 then Some(ViewChangeC(Number(x))) else None
            case _ => DecodeNewView(x)
  {
    TaggedBy(c);
  }

  /** Round trip: the authenticated bytes of any content are read back as that content, for Commit proposals nested to
      any depth and certificates of any length. */
  lemma {:induction false} DecodeEncode(c: Content)
    requires Sized(c)
    ensures Decode(Encode(c)) == Some(c)
  {
    if !c.CommitC? {
      KindRead(c);
    }
    match c {
      case RequestC(x, d) => RequestOf(x, d);
      case ReplyC(i, x, d) => ReplyOf(i, x, d);
      case PrepareC(v, i, x, d) => PrepareOf(v, i, x, d);
      case CommitC(i, p, cv) =>
        DecodeEncode(p);
        CommitOf(i, p, cv);
      case ReqViewChangeC(v) => NumberOf(v, 8);
      case ViewChangeC(v) => NumberOf(v, 8);
      case NewViewC(v, cert) => NewViewOf(v, cert);
    }
  }

  /** Equal bytes, equal content. */
  lemma EncodeInjective(c: Content, d: Content)
    requires Sized(c) && Sized(d) && Encode(c) == Encode(d)
    ensures c == d
  {
    DecodeEncode(c);
    DecodeEncode(d);
  }

  // ---------- Encoding inverts decoding ----------

  lemma ReadPair(x: Bytes)
    requires |x| == 12
    ensures var p := DecodePair(x); p.0 < Pow256(4) && p.1 < Pow256(8) && PairBytes(p) == x
  {
    BytesOf(x[..4]);
    BytesOf(x[4..]);
    assert x == x[..4] + x[4..];
  }

  /** The n pairs in the bytes are read, and written as they were. */
  ghost predicate Reads(y: Bytes, n: nat) {
    |y| == 12 * n && CertSized(DecodeCert(y, n)) && CertBytes(DecodeCert(y, n)) == y
  }

  lemma {:induction false} ReadCert(y: Bytes, n: nat)
    requires |y| == 12 * n
    ensures Reads(y, n)
    decreases n
  {
    if n == 0 {
      assert CertBytes([]) == [];
    } else {
      var a, b := y[..|y| - 12], y[|y| - 12..];
      Halves(y, |y| - 12);
      ReadCert(a, n - 1);
      ReadCertNext(a, b, n - 1);
    }
  }

  lemma Halves(x: Bytes, k: nat)
    requires k <= |x|
    ensures x[..k] + x[k..] == x
  {
  }

  lemma ReadCertNext(a: Bytes, b: Bytes, n: nat)
    requires Reads(a, n) && |b| == 12
    ensures Reads(a + b, n + 1)
  {
    var front, p := DecodeCert(a, n), DecodePair(b);
    DecodeCertNext(a, b, n);
    ReadPair(b);
    CertBytesNext(front, p);
    SizedNext(front, p);
  }

  lemma SizedNext(front: seq<(nat, nat)>, p: (nat, nat))
    requires CertSized(front) && p.0 < Pow256(4) && p.1 < Pow256(8)
    ensures CertSized(front + [p])
  {
  }

  lemma Join(x: Bytes, i: nat, j: nat)
    requires i <= j <= |x|
    ensures x == x[..i] + (x[i..j] + x[j..])
  {
  }

  /** What follows the tag is the body. */
  lemma ReadTag(b: Bytes, tag: string, c: Content)
    requires Tagged(b, tag) && forall i :: 0 <= i < |tag| ==> tag[i] < 128 as char
    requires Tag(c) == Ascii(tag) && Body(c) == b[|tag|..]
    ensures Encode(c) == b
  {
    assert b[..|tag|] == Ascii(tag);
    assert b == b[..|tag|] + b[|tag|..];
  }

  lemma ReadRequest(b: Bytes)
    requires Tagged(b, "REQUEST") && DecodeRequest(b[7..]).Some?
    ensures Sized(DecodeRequest(b[7..]).value) && Encode(DecodeRequest(b[7..]).value) == b
  {
    var x := b[7..];
    BytesOf(x[..8]);
    assert x == x[..8] + x[8..];
    ReadTag(b, "REQUEST", DecodeRequest(x).value);
  }

  lemma ReadReply(b: Bytes)
    requires Tagged(b, "REPLY") && DecodeReply(b[5..]).Some?
    ensures Sized(DecodeReply(b[5..]).value) && Encode(DecodeReply(b[5..]).value) == b
  {
    var x := b[5..];
    BytesOf(x[..4]);
    BytesOf(x[4..12]);
    Join(x, 4, 12);
    ReadTag(b, "REPLY", DecodeReply(x).value);
  }

  lemma ReadPrepare(b: Bytes)
    requires Tagged(b, "PREPARE") && DecodePrepare(b[7..]).Some?
    ensures Sized(DecodePrepare(b[7..]).value) && Encode(DecodePrepare(b[7..]).value) == b
  {
    var x := b[7..];
    var c := DecodePrepare(x).value;
    BytesOf(x[..8]);
    BytesOf(x[8..12]);
    BytesOf(x[12..20]);
    assert Body(c) == x by { JoinFour(x, 8, 12, 20); }
    ReadTag(b, "PREPARE", c);
  }

  lemma JoinFour(x: Bytes, i: nat, j: nat, k: nat)
    requires i <= j <= k <= |x|
    ensures x == x[..i] + (x[i..j] + (x[j..k] + x[k..]))
  {
    Join(x, i, j);
    assert x[j..] == x[j..k] + x[k..];
  }

  lemma NewViewBody(x: Bytes, n: nat)
    requires |x| == 8 + 12 * n
    ensures var c := NewViewC(Number(x[..8]), DecodeCert(x[8..], n)); Sized(c) && Body(c) == x
  {
    var a, b := x[..8], x[8..];
    assert x == a + b;
    assert BigEndian(Number(a), 8) == a && Number(a) < Pow256(8) by { BytesOf(a); }
    ReadCert(b, n);
  }

  lemma ReadNewView(b: Bytes)
    requires Tagged(b, "NEW-VIEW") && DecodeNewView(b[8..]).Some?
    ensures Sized(DecodeNewView(b[8..]).value) && Encode(DecodeNewView(b[8..]).value) == b
  {
    var x := b[8..];
    var n := (|x| - 8) / 12;
    assert |x| == 8 + 12 * n;
    NewViewBody(x, n);
    ReadTag(b, "NEW-VIEW", NewViewC(Number(x[..8]), DecodeCert(x[8..], n)));
  }

  lemma ReadReqViewChange(b: Bytes)
    requires Tagged(b, "REQ-VIEW-CHANGE") && |b| == 23
    ensures var c := ReqViewChangeC(Number(b[15..])); Sized(c) && Encode(c) == b
  {
    BytesOf(b[15..]);
    ReadTag(b, "REQ-VIEW-CHANGE", ReqViewChangeC(Number(b[15..])));
  }

  lemma ReadViewChange(b: Bytes)
    requires Tagged(b, "VIEW-CHANGE") && |b| == 19
    ensures var c := ViewChangeC(Number(b[11..])); Sized(c) && Encode(c) == b
  {
    BytesOf(b[11..]);
    ReadTag(b, "VIEW-CHANGE", ViewChangeC(Number(b[11..])));
  }

  lemma ReadCommit(b: Bytes, p: Content)
    requires Tagged(b, "COMMIT") && |b| >= 18 && Sized(p) && Encode(p) == b[10..|b| - 8]
    ensures var c := CommitC(Number(b[6..10]), p, Number(b[|b| - 8..])); Sized(c) && Encode(c) == b
  {
    var c := CommitC(Number(b[6..10]), p, Number(b[|b| - 8..]));
    var x, z := b[6..10], b[|b| - 8..];
    assert Number(x) < Pow256(4) && BigEndian(Number(x), 4) == x by { BytesOf(x); }
    assert Number(z) < Pow256(8) && BigEndian(Number(z), 8) == z by { BytesOf(z); }
    assert b[6..] == x + (b[10..|b| - 8] + z) by { JoinFour(b, 6, 10, |b| - 8); }
    ReadTag(b, "COMMIT", c);
  }

  /** The decoder accepts nothing but encodings: every byte string it reads is the one its content is written as. */
  lemma {:induction false} EncodeDecode(b: Bytes)
    requires Decode(b).Some?
    ensures Sized(Decode(b).value) && Encode(Decode(b).value) == b
    decreases |b|
  {
    if Tagged(b, "REQUEST") {
      ReadRequest(b);
    } else if Tagged(b, "REPLY") {
      ReadReply(b);
    } else if Tagged(b, "PREPARE") {
      ReadPrepare(b);
    } else if Tagged(b, "COMMIT") {
      EncodeDecode(b[10..|b| - 8]);
      ReadCommit(b, Decode(b[10..|b| - 8]).value);
    } else if Tagged(b, "REQ-VIEW-CHANGE") {
      ReadReqViewChange(b);
    } else if Tagged(b, "VIEW-CHANGE") {
      ReadViewChange(b);
    } else {
      ReadNewView(b);
    }
  }

  // ---------- What is authenticated of a message ----------

  /** The certified messages agree in what their USIG certificates cover: of a ViewChange the view alone, of a
      certificate the senders and counters of its members, of a Commit its proposal, in the same way. */
  ghost predicate SameCertified(h: Hash, a: Message, b: Message) {
    match (a, b)
    case (Prepare(_, v, q, _), Prepare(_, w, r, _)) =>
      v == w && q.clientID == r.clientID && q.seqNo == r.seqNo && h(q.operation) == h(r.operation)
    case (Commit(_, p, _), Commit(_, q, _)) =>
      p.Sender() == q.Sender() && p.Counter() == q.Counter() && SameCertified(h, p, q)
    case (ViewChangeMsg(x), ViewChangeMsg(y)) => x.newView == y.newView
    case (NewView(_, v, x, _), NewView(_, w, y, _)) =>
      v == w && |x| == |y| && forall k :: 0 <= k < |x| ==> x[k].replicaID == y[k].replicaID && x[k].cv == y[k].cv
    case _ => false
  }

  /** The same for everything that is signed. */
  ghost predicate SameSigned(h: Hash, s: Signed, t: Signed) {
    match (s, t)
    case (OfRequest(q), OfRequest(r)) => q.seqNo == r.seqNo && h(q.operation) == h(r.operation)
    case (OfReply(m), OfReply(n)) =>
      m.clientID == n.clientID && m.seqNo == n.seqNo && h(m.result) == h(n.result)
    case (OfReqViewChange(m), OfReqViewChange(n)) => m.newView == n.newView
    case (OfCertified(a), OfCertified(b)) => SameCertified(h, a, b)
    case _ => false
  }

  lemma {:induction false} SameContent(h: Hash, a: Message, b: Message)
    ensures ContentOf(h, a) == ContentOf(h, b) <==> SameCertified(h, a, b)
  {
    if a.Commit? && b.Commit? {
      SameContent(h, a.proposal, b.proposal);
    } else if a.NewView? && b.NewView? {
      var x, y := Identifiers(a.nvCert), Identifiers(b.nvCert);
      if x == y {
        forall k | 0 <= k < |a.nvCert|
          ensures a.nvCert[k].replicaID == b.nvCert[k].replicaID && a.nvCert[k].cv == b.nvCert[k].cv
        {
          assert x[k] == y[k];
        }
      }
    }
  }

  /** Two messages have the same authenticated bytes if and only if they are of the same kind and agree in the fields
      that are to be authenticated. */
  lemma SameBytesIff(h: Hash, s: Signed, t: Signed)
    requires Sized(SignedContent(h, s)) && Sized(SignedContent(h, t))
    ensures Encode(SignedContent(h, s)) == Encode(SignedContent(h, t)) <==> SameSigned(h, s, t)
  {
    if Encode(SignedContent(h, s)) == Encode(SignedContent(h, t)) {
      EncodeInjective(SignedContent(h, s), SignedContent(h, t));
    }
    if s.OfCertified? && t.OfCertified? {
      SameContent(h, s.m, t.m);
    }
  }
}
