/** The client side: requests are numbered one by one, and repeated until one attempt is answered OK. */
module KvClerk {
  import opened KvOp
  import opened KvServer

  /** The number of the next request, and the request that waits for its answer. */
  datatype ClerkState = ClerkState(next: nat, pending: Option<Op>)

  const NEW := ClerkState(0, None)

  /** A call begins: its request takes the next number. */
  function Begun(c: ClerkState, id: int, kind: string, key: string, value: string): ClerkState {
    ClerkState(c.next + 1, Some(Op(kind, key, value, id, c.next)))
  }

  /** An OK ends the call. */
  function Returned(c: ClerkState): ClerkState {
    c.(pending := None)
  }

  /** `k` is the first attempt that was answered OK. */
  ghost predicate FirstOk(oks: seq<bool>, k: nat) {
    k < |oks| && oks[k] && forall j | 0 <= j < k :: !oks[j]
  }

  /** The server that attempt k goes to, round and round. */
  function Turn(k: nat, servers: nat): (t: nat)
    requires servers >= 1
    ensures t < servers
  {
    if k < servers then k else Turn(k - servers, servers)
  }

  lemma {:induction false} NextTurn(k: nat, servers: nat)
    requires servers >= 1
    ensures Turn(k + 1, servers) == if Turn(k, servers) + 1 == servers then 0 else Turn(k, servers) + 1
  {
    if k >= servers {
      NextTurn(k - servers, servers);
    }
  }

  class Clerk {
    const id: int
    var reqId: nat
    var pending: Option<Op>

    ghost function View(): ClerkState
      reads this
    {
      ClerkState(reqId, pending)
    }

    constructor (id: int)
      ensures this.id == id && View() == NEW
    {
      this.id := id;
      reqId := 0;
      pending := None;
    }

    /**
     * Get, Put or Append, given what the attempts come to: `oks[k]` says whether attempt k is answered
     * by a leader.  All attempts carry the same numbered request, going round the servers, and the
     * first OK ends the call; without one it is still trying when the attempts run out.
     */
    method Call(kind: string, key: string, value: string, servers: nat, oks: seq<bool>)
      returns (sent: seq<(nat, Op)>, done: bool)
      requires servers >= 1 && pending.None?
      modifies this
      ensures var begun := Begun(old(View()), id, kind, key, value);
              && View() == (if done then Returned(begun) else begun)
              && (forall k | 0 <= k < |sent| :: sent[k] == (Turn(k, servers), begun.pending.value))
      ensures done ==> |sent| >= 1 && FirstOk(oks, |sent| - 1)
      ensures !done ==> |sent| == |oks| && forall k | 0 <= k < |oks| :: !oks[k]
    {
      var op := Op(kind, key, value, id, reqId);
      reqId := reqId + 1;
      pending := Some(op);
      sent, done := [], false;
      var server := 0;
      while |sent| < |oks|
        invariant reqId == old(reqId) + 1 && pending == Some(op)
        invariant |sent| <= |oks| && server == Turn(|sent|, servers)
        invariant forall k | 0 <= k < |sent| :: sent[k] == (Turn(k, servers), op) && !oks[k]
        decreases |oks| - |sent|
      {
        sent := sent + [(server, op)];
        if oks[|sent| - 1] {
          pending := None;
          done := true;
          return;
        }
        NextTurn(|sent| - 1, servers);
        server := if server + 1 == servers then 0 else server + 1;
      }
    }
  }
}
