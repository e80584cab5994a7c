/** The whole system: n replicas that follow the code, exchange messages in any order and may stop at any
    point.

    A run is any sequence of actions.  A replica may process any message certified so far by any replica,
    whether it arrived on its own or embedded in another message, at any time and any number of times;
    requests and view-change requests may be anything.  A message processed as one of the replica's own
    stops it when it is refused.  An action that is not possible changes nothing, so every sequence of
    actions is a run. */
module System {
  import opened Messages
  import opened Evidence
  import opened Replica

  type State = seq<Replica>

  datatype Action =
    | ReceiveMessage(at: nat, m: Message, order: Order)
    | ReceiveOwn(at: nat, m: Message, order: Order)
    | ReceiveRequest(at: nat, q: Request)
    | ReceiveReqViewChange(at: nat, rvc: ReqViewChange)
    | Timeout(at: nat, newView: nat)
  {
    /** The action is the processing of a certified message. */
    predicate Processes() {
      ReceiveMessage? || ReceiveOwn?
    }
  }

  function Start(c: Config): State
    requires c.Ok()
  {
    seq(c.n, _ => Initial(c))
  }

  function TracesOf(g: State): (ts: Traces)
    ensures |ts| == |g|
    ensures forall i :: 0 <= i < |g| ==> ts[i] == g[i].trace
  {
    seq(|g|, i requires 0 <= i < |g| => g[i].trace)
  }

  /** The message has been certified by its sender. */
  predicate Sent(g: State, m: Message) {
    m.Sender() < |g| && m in g[m.Sender()].trace
  }

  /** The message can be processed: a Commit, at least, is for a proposal. */
  predicate Usable(g: State, m: Message) {
    Sent(g, m) && (m.ViewChangeMsg? || m.Unwrap().IsProposal())
  }

  function Local(c: Config, g: State, a: Action): Replica
    requires c.Ok() && a.at < |g|
  {
    var s := g[a.at];
    match a
    case ReceiveMessage(i, m, order) =>
      if Usable(g, m) then ProcessCertified(c, s, i, m, order).s else s
    case ReceiveOwn(i, m, order) =>
      if Usable(g, m) then OrHalt(ProcessCertified(c, s, i, m, order)) else s
    case ReceiveRequest(i, q) => ProcessRequest(c, s, i, q)
    case ReceiveReqViewChange(i, rvc) => ProcessReqViewChange(c, s, i, rvc)
    case Timeout(i, newView) => RequestViewChange(s, i, newView)
  }

  function Act(c: Config, g: State, a: Action): State
    requires c.Ok()
  {
    if a.at < |g| then g[a.at := Local(c, g, a)] else g
  }

  /** The state after a run. */
  function After(c: Config, run: seq<Action>): State
    requires c.Ok()
  {
    if run == [] then Start(c) else Act(c, After(c, run[..|run| - 1]), run[|run| - 1])
  }
}
