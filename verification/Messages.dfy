/** The protocol messages (messages/api.go) and the sizes that bound recursion over them.

    Signatures and USIG certificates are not fields of the model: a message is its content together
    with the counter value of its unique identifier (UI).  Commit proposals, message logs and new-view
    certificates nest to any depth. */
module Messages {

  /** `None` stands for the absence of a result: a Go panic or a nil value, as each use says. */
  datatype Option<+T> = None | Some(value: T)

  type Byte = b: nat | b < 256

  type Bytes = seq<Byte>

  datatype Request = Request(clientID: nat, seqNo: nat, operation: Bytes)

  datatype Reply = Reply(replicaID: nat, clientID: nat, seqNo: nat, result: Bytes)

  datatype ReqViewChange = ReqViewChange(replicaID: nat, newView: nat)

  datatype ViewChange =
    ViewChange(replicaID: nat, newView: nat, log: seq<Message>, vcCert: seq<ReqViewChange>, cv: nat)

  /** A message certified by USIG. */
  datatype Message =
    | Prepare(replicaID: nat, view: nat, request: Request, cv: nat)
    | Commit(replicaID: nat, proposal: Message, cv: nat)
    | ViewChangeMsg(vc: ViewChange)
    | NewView(replicaID: nat, newView: nat, nvCert: seq<ViewChange>, cv: nat)
  {
    function Sender(): nat {
      if ViewChangeMsg? then vc.replicaID else replicaID
    }

    function Counter(): nat {
      if ViewChangeMsg? then vc.cv else cv
    }

    /** The same message with a UI counter attached (CertifiedMessage.SetUI). */
    function WithCounter(c: nat): Message {
      match this
      case Prepare(r, v, q, _) => Prepare(r, v, q, c)
      case Commit(r, p, _) => Commit(r, p, c)
      case ViewChangeMsg(v) => ViewChangeMsg(v.(cv := c))
      case NewView(r, v, cert, _) => NewView(r, v, cert, c)
    }

    /** The proposal a message commits to: a Commit's own proposal, any other message itself. */
    function Unwrap(): Message {
      if Commit? then proposal else this
    }

    predicate IsProposal() {
      Prepare? || NewView?
    }

    /** True when the message is a commitment (core/commit.go:112-132) to a proposal of the view. */
    predicate CommitsIn(v: nat) {
      var p := Unwrap();
      (p.Prepare? && p.view == v) || (p.NewView? && p.newView == v)
    }
  }

  /** The view a message is about: the new one, for a view change. */
  function View(m: Message): nat {
    match m
    case Prepare(_, v, _, _) => v
    case Commit(_, p, _) => View(p)
    case ViewChangeMsg(vc) => vc.newView
    case NewView(_, v, _, _) => v
  }

  /** Number of replicas and of tolerated faulty ones (api.Configer). */
  datatype Config = Config(n: nat, f: nat) {
    /** core/replica.go:82-84 refuses n < 2f+1; only this consequence is needed. */
    predicate Ok() {
      f < n
    }

    function CommitCertSize(): nat
      requires Ok()
    {
      n - f
    }

    function ViewChangeCertSize(): nat
      requires Ok()
    {
      n - CommitCertSize() + 1
    }

    function Primary(v: nat): nat
      requires Ok()
    {
      v % n
    }

    predicate IsPrimary(v: nat, id: nat)
      requires Ok()
    {
      id == Primary(v)
    }
  }

  function Size(m: Message): nat
    decreases m
  {
    match m
    case Prepare(_, _, _, _) => 1
    case Commit(_, p, _) => 1 + Size(p)
    case ViewChangeMsg(vc) => 1 + ViewChangeSize(vc)
    case NewView(_, _, cert, _) => 2 + CertSize(cert)
  }

  function ViewChangeSize(vc: ViewChange): nat
    decreases vc
  {
    1 + LogSize(vc.log)
  }

  function LogSize(log: seq<Message>): nat
    decreases log
  {
    if log == [] then 0 else LogSize(log[..|log| - 1]) + Size(log[|log| - 1])
  }

  function CertSize(cert: seq<ViewChange>): nat
    decreases cert
  {
    if cert == [] then 0 else CertSize(cert[..|cert| - 1]) + ViewChangeSize(cert[|cert| - 1])
  }

  function Unwraps(log: seq<Message>): (u: seq<Message>)
    ensures |u| == |log|
    ensures forall i :: 0 <= i < |log| ==> u[i] == log[i].Unwrap()
  {
    seq(|log|, i requires 0 <= i < |log| => log[i].Unwrap())
  }
}
