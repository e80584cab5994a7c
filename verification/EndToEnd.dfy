/** From the replicas to the user: the result a client accepts is the one and only result of executing its
    request in the order all replicas agree on. */
module EndToEnd {
  import opened Messages
  import opened Execution
  import System
  import Agreement
  import Client

  /** The request a client identifies by a sequence number stands at this position. */
  predicate IsAt(delivered: seq<Request>, p: nat, client: nat, n: nat) {
    p < |delivered| && delivered[p].clientID == client && delivered[p].seqNo == n
  }

  lemma SamePosition(a: seq<Request>, p: nat, b: seq<Request>, q: nat, client: nat, n: nat)
    requires Agreement.Comparable(a, b) && Increasing(a) && Increasing(b)
    requires IsAt(a, p, client, n) && IsAt(b, q, client, n)
    ensures p == q && a[..p + 1] == b[..q + 1]
  {
    assert forall x :: 0 <= x < |a| && x < |b| ==> a[x] == b[x];
  }

  /** Whatever deterministic service executes the delivered requests, two replicas never compute different
      results for one request of one client. */
  lemma OneExecution(c: Config, run: seq<System.Action>, i: nat, p: nat, j: nat, q: nat, client: nat, n: nat)
    requires c.Ok() && i < c.n && j < c.n && |System.After(c, run)| == c.n
    requires IsAt(System.After(c, run)[i].exec.delivered, p, client, n)
    requires IsAt(System.After(c, run)[j].exec.delivered, q, client, n)
    ensures var g := System.After(c, run);
            p == q && g[i].exec.delivered[..p + 1] == g[j].exec.delivered[..q + 1]
  {
    var g := System.After(c, run);
    Agreement.AgreementHolds(c, run, i, j);
    Agreement.IntegrityHolds(c, run, i);
    Agreement.IntegrityHolds(c, run, j);
    SamePosition(g[i].exec.delivered, p, g[j].exec.delivered, q, client, n);
  }

  /** The reply is what the service answers to the request the replica has delivered. */
  ghost predicate Answers(service: seq<Request> -> Bytes, delivered: seq<Request>, m: Reply) {
    exists p: nat :: IsAt(delivered, p, m.clientID, m.seqNo) && m.result == service(delivered[..p + 1])
  }

  /** Replicas outside the faulty set answer truthfully; the others may have sent the client anything. */
  ghost predicate Truthful(c: Config, g: System.State, service: seq<Request> -> Bytes, faulty: set<nat>, m: Reply) {
    m.replicaID in faulty || (m.replicaID < |g| && Answers(service, g[m.replicaID].exec.delivered, m))
  }

  ghost predicate Injective(hash: Bytes -> Bytes) {
    forall x, y :: hash(x) == hash(y) ==> x == y
  }

  /** In every run of the replicas and every run of a client, with at most f replicas answering falsely,
      every result the client emits is the service's answer at the request's place in the order of
      delivery, as seen by any replica that has delivered the request. */
  lemma AcceptedResult(c: Config, run: seq<System.Action>, u: Client.Setup, clientRun: seq<Client.Action>,
                       service: seq<Request> -> Bytes, faulty: set<nat>, k: nat, i: nat, p: nat)
    requires c.Ok() && u.f == c.f && |faulty| <= c.f && Injective(u.hash)
    requires k < |Client.After(u, clientRun).results|
    requires forall m :: m in Client.After(u, clientRun).arrived ==>
                           Truthful(c, System.After(c, run), service, faulty, m)
    requires i < c.n && |System.After(c, run)| == c.n
    requires IsAt(System.After(c, run)[i].exec.delivered, p, u.id, Client.After(u, clientRun).results[k].seqNo)
    ensures Client.After(u, clientRun).results[k].result == service(System.After(c, run)[i].exec.delivered[..p + 1])
  {
    var g, n := System.After(c, run), Client.After(u, clientRun).results[k].seqNo;
    var m := Client.CorrectReplier(u, clientRun, k, faulty);
    assert Truthful(c, g, service, faulty, m);
    var j := m.replicaID;
    var q: nat :| IsAt(g[j].exec.delivered, q, u.id, n) && m.result == service(g[j].exec.delivered[..q + 1]);
    OneExecution(c, run, i, p, j, q, u.id, n);
  }
}
