/**
 * The history of a Raft cluster, reduced to what its safety rests on: each peer's durable term and
 * log, who campaigned, who voted for whom, who led with which log, and how far each peer has
 * acknowledged each leader.  `Inv` is kept by every action of RaftActions; its heart is Leader
 * Completeness in the form "a later leader holds the entry, or the entry can never again be
 * acknowledged by a majority".
 *
 * The quantifiers carry triggers on named predicates, so a fact is used only where a proof names it.
 */
module RaftCore {
  import opened RaftTypes
  import opened Quorums

  datatype Reign = Reign(leader: nat, voters: set<nat>, log: seq<Entry>)

  datatype Core = Core(
    terms: seq<nat>,                          // by peer
    logs: seq<seq<Entry>>,                    // by peer
    reigns: map<nat, Reign>,                  // by term
    campaigns: map<(nat, nat), seq<Entry>>,   // by (term, candidate): its log
    ballots: map<(nat, nat), nat>,            // by (term, voter): the candidate chosen
    acks: map<(nat, nat), nat>)               // by (term, peer): highest index acknowledged

  // ---- Vocabulary ----

  /** Slot i carries index i, terms never decrease and none exceeds `bound`. */
  ghost predicate WellFormedLog(log: seq<Entry>, bound: int) {
    && |log| >= 1
    && log[0] == DUMMY
    && (forall i | 0 <= i < |log| :: log[i].index == i && 1 <= log[i].term <= bound)
    && (forall i, j | 0 <= i < j < |log| :: log[i].term <= log[j].term)
  }

  /** Every entry above the dummy was copied, with all that precedes it, from the leader of its term. */
  ghost predicate Sane(c: Core, log: seq<Entry>) {
    forall i {:trigger SaneAt(c, log, i)} | 1 <= i < |log| :: SaneAt(c, log, i)
  }

  ghost predicate SaneAt(c: Core, log: seq<Entry>, i: nat)
    requires i < |log|
  {
    var t := log[i].term;
    t in c.reigns && i < |c.reigns[t].log| && log[..i + 1] == c.reigns[t].log[..i + 1]
  }

  /** Index k of the leader of term t holds an entry created in term t. */
  ghost predicate OwnTerm(c: Core, t: nat, k: nat) {
    t in c.reigns && k < |c.reigns[t].log| && c.reigns[t].log[k].term == t
  }

  /** The log of the leader of term t through index k. */
  ghost function Upto(c: Core, t: nat, k: nat): seq<Entry>
    requires t in c.reigns && k < |c.reigns[t].log|
  {
    c.reigns[t].log[..k + 1]
  }

  ghost predicate Acked(c: Core, t: nat, j: nat, k: nat) {
    (t, j) in c.acks && k <= c.acks[(t, j)]
  }

  ghost predicate AckedBy(c: Core, t: nat, k: nat, q: set<nat>) {
    forall j | j in q :: Acked(c, t, j, k)
  }

  /** Every member of q has left term t without acknowledging index k. */
  ghost predicate Refused(c: Core, t: nat, k: nat, q: set<nat>) {
    forall j | j in q :: j < |c.terms| && c.terms[j] > t && !Acked(c, t, j, k)
  }

  /** Index k of term t can never again gather a majority. */
  ghost predicate Dead(c: Core, t: nat, k: nat) {
    exists q :: IsQuorum(|c.terms|, q) && Refused(c, t, k, q)
  }

  /** A majority has acknowledged index k, an entry of term t, to the leader of term t. */
  ghost predicate Chosen(c: Core, t: nat, k: nat) {
    OwnTerm(c, t, k) && exists q :: IsQuorum(|c.terms|, q) && AckedBy(c, t, k, q)
  }

  ghost predicate Keeps(c: Core, u: nat, k: nat, log: seq<Entry>)
    requires OwnTerm(c, u, k)
  {
    Upto(c, u, k) <= log || Dead(c, u, k)
  }

  /** `log` keeps everything peer j acknowledged to leaders before term t, except what is dead. */
  ghost predicate Justified(c: Core, j: nat, t: nat, log: seq<Entry>) {
    forall u: nat, k: nat {:trigger Keeps(c, u, k, log)} |
      u < t && OwnTerm(c, u, k) && Acked(c, u, j, k) :: Keeps(c, u, k, log)
  }

  ghost predicate UpToDate(candidate: seq<Entry>, voter: seq<Entry>)
    requires |candidate| >= 1 && |voter| >= 1
  {
    var ct, vt := candidate[|candidate| - 1].term, voter[|voter| - 1].term;
    ct > vt || (ct == vt && |candidate| >= |voter|)
  }

  // ---- The invariant ----

  ghost predicate LogOk(c: Core, i: nat)
    requires i < |c.logs| == |c.terms|
  {
    WellFormedLog(c.logs[i], c.terms[i]) && Sane(c, c.logs[i])
  }

  ghost predicate ReignOk(c: Core, t: nat)
    requires t in c.reigns
  {
    var r := c.reigns[t];
    && t >= 2
    && r.leader < |c.terms|
    && IsQuorum(|c.terms|, r.voters)
    && WellFormedLog(r.log, t)
    && Sane(c, r.log)
    && (forall j | j in r.voters :: (t, j) in c.ballots && c.ballots[(t, j)] == r.leader)
  }

  ghost predicate CampaignOk(c: Core, t: nat, i: nat)
    requires (t, i) in c.campaigns
  {
    var log := c.campaigns[(t, i)];
    i < |c.terms| && 2 <= t <= c.terms[i] && WellFormedLog(log, t - 1) && Sane(c, log)
  }

  ghost predicate BallotOk(c: Core, t: nat, j: nat)
    requires (t, j) in c.ballots
  {
    var cand := c.ballots[(t, j)];
    && j < |c.terms|
    && t <= c.terms[j]
    && (t, cand) in c.campaigns
    && Justified(c, j, t, c.campaigns[(t, cand)])
  }

  ghost predicate AckOk(c: Core, t: nat, j: nat)
    requires (t, j) in c.acks
  {
    var a := c.acks[(t, j)];
    && j < |c.terms| == |c.logs|
    && t <= c.terms[j]
    && t in c.reigns
    && a < |c.reigns[t].log|
    && (t == c.terms[j] ==> Upto(c, t, a) <= c.logs[j])
  }

  ghost predicate PeerOk(c: Core, j: nat)
    requires j < |c.terms| == |c.logs|
  {
    Justified(c, j, c.terms[j] + 1, c.logs[j])
  }

  ghost predicate LogsOk(c: Core)
    requires |c.terms| == |c.logs|
  {
    forall i {:trigger LogOk(c, i)} | 0 <= i < |c.logs| :: LogOk(c, i)
  }

  ghost predicate ReignsOk(c: Core) {
    forall t {:trigger ReignOk(c, t)} | t in c.reigns :: ReignOk(c, t)
  }

  ghost predicate CampaignsOk(c: Core) {
    forall t, i {:trigger CampaignOk(c, t, i)} | (t, i) in c.campaigns :: CampaignOk(c, t, i)
  }

  ghost predicate BallotsOk(c: Core) {
    forall t, j {:trigger BallotOk(c, t, j)} | (t, j) in c.ballots :: BallotOk(c, t, j)
  }

  ghost predicate AcksOk(c: Core) {
    forall t, j {:trigger AckOk(c, t, j)} | (t, j) in c.acks :: AckOk(c, t, j)
  }

  ghost predicate PeersOk(c: Core)
    requires |c.terms| == |c.logs|
  {
    forall j {:trigger PeerOk(c, j)} | 0 <= j < |c.terms| :: PeerOk(c, j)
  }

  /** Leader Completeness. */
  ghost predicate LeadersComplete(c: Core) {
    forall t: nat, k: nat, later: nat {:trigger Keeps(c, t, k, c.reigns[later].log)} |
      t < later && later in c.reigns && OwnTerm(c, t, k) :: Keeps(c, t, k, c.reigns[later].log)
  }

  ghost predicate Inv(c: Core) {
    && |c.terms| == |c.logs| >= 1
    && LogsOk(c)
    && ReignsOk(c)
    && CampaignsOk(c)
    && BallotsOk(c)
    && AcksOk(c)
    && PeersOk(c)
    && LeadersComplete(c)
  }

  // ---- History only grows ----

  ghost predicate ReignGrows(c: Core, d: Core, t: nat)
    requires t in c.reigns
  {
    && t in d.reigns
    && d.reigns[t].leader == c.reigns[t].leader
    && d.reigns[t].voters == c.reigns[t].voters
    && c.reigns[t].log <= d.reigns[t].log
    && (forall x | |c.reigns[t].log| <= x < |d.reigns[t].log| :: d.reigns[t].log[x].term == t)
  }

  ghost predicate ReignsGrow(c: Core, d: Core) {
    forall t {:trigger ReignGrows(c, d, t)} | t in c.reigns :: ReignGrows(c, d, t)
  }

  /** Acknowledgements grow, and those of a term a peer has left are frozen. */
  ghost predicate AcksGrow(c: Core, d: Core) {
    && |c.terms| == |d.terms|
    && (forall i | 0 <= i < |c.terms| :: c.terms[i] <= d.terms[i])
    && (forall t, j | (t, j) in c.acks :: (t, j) in d.acks && c.acks[(t, j)] <= d.acks[(t, j)])
    && (forall t, j | (t, j) in d.acks && j < |c.terms| && c.terms[j] > t ::
          (t, j) in c.acks && c.acks[(t, j)] == d.acks[(t, j)])
  }

  ghost predicate Grows(c: Core, d: Core) {
    && ReignsGrow(c, d)
    && AcksGrow(c, d)
    && (forall x | x in c.campaigns :: x in d.campaigns && d.campaigns[x] == c.campaigns[x])
    && (forall x | x in c.ballots :: x in d.ballots && d.ballots[x] == c.ballots[x])
  }

  lemma SaneGrows(c: Core, d: Core, log: seq<Entry>)
    requires ReignsGrow(c, d) && Sane(c, log)
    ensures Sane(d, log)
  {
    forall i | 1 <= i < |log| ensures SaneAt(d, log, i) {
      assert SaneAt(c, log, i);
      assert ReignGrows(c, d, log[i].term);
    }
  }

  lemma DeadGrows(c: Core, d: Core, t: nat, k: nat)
    requires AcksGrow(c, d) && Dead(c, t, k)
    ensures Dead(d, t, k)
  {
    var q :| IsQuorum(|c.terms|, q) && Refused(c, t, k, q);
    assert Refused(d, t, k, q);
  }

  lemma ChosenGrows(c: Core, d: Core, t: nat, k: nat)
    requires ReignsGrow(c, d) && AcksGrow(c, d) && Chosen(c, t, k)
    ensures Chosen(d, t, k) && Upto(d, t, k) == Upto(c, t, k)
  {
    assert ReignGrows(c, d, t);
    var q :| IsQuorum(|c.terms|, q) && AckedBy(c, t, k, q);
    forall j | j in q ensures Acked(d, t, j, k) {
      assert Acked(c, t, j, k);
    }
    assert AckedBy(d, t, k, q);
  }

  lemma GrowsTransitive(c: Core, d: Core, e: Core)
    requires Grows(c, d) && Grows(d, e)
    ensures Grows(c, e)
  {
    forall t | t in c.reigns ensures ReignGrows(c, e, t) {
      assert ReignGrows(c, d, t) && ReignGrows(d, e, t);
    }
  }

  /** What is chosen is not dead: a majority that acknowledged meets any majority that refused. */
  lemma ChosenIsNotDead(c: Core, t: nat, k: nat)
    requires Chosen(c, t, k)
    ensures !Dead(c, t, k)
  {
    if Dead(c, t, k) {
      var a :| IsQuorum(|c.terms|, a) && AckedBy(c, t, k, a);
      var b :| IsQuorum(|c.terms|, b) && Refused(c, t, k, b);
      var j := QuorumsMeet(|c.terms|, a, b);
      assert false;
    }
  }

  /** Leader Completeness: a chosen entry, with all before it, is in the log of every later leader. */
  lemma ChosenIsInLaterLeaders(c: Core, t: nat, k: nat, later: nat)
    requires LeadersComplete(c) && Chosen(c, t, k) && t <= later && later in c.reigns
    ensures Upto(c, t, k) <= c.reigns[later].log
  {
    ChosenIsNotDead(c, t, k);
    if t < later {
      assert Keeps(c, t, k, c.reigns[later].log);
    }
  }

  /** Of two chosen positions, the logs through them agree as far as the shorter one goes. */
  lemma ChosenAgree(c: Core, t: nat, k: nat, u: nat, l: nat)
    requires LeadersComplete(c) && Chosen(c, t, k) && Chosen(c, u, l) && t <= u
    ensures Upto(c, t, k) <= Upto(c, u, l) || Upto(c, u, l) <= Upto(c, t, k)
  {
    ChosenIsInLaterLeaders(c, t, k, u);
    var log := c.reigns[u].log;
    assert Upto(c, t, k) == log[..k + 1];
  }

  // ---- Log Matching ----

  /** Two logs copied from leaders that agree on the term at index i agree through index i. */
  lemma SaneLogsMatch(c: Core, a: seq<Entry>, b: seq<Entry>, i: nat)
    requires Sane(c, a) && Sane(c, b)
    requires i < |a| && i < |b| && a[i].term == b[i].term && a[0] == b[0]
    ensures a[..i + 1] == b[..i + 1]
  {
    if i == 0 {
      assert a[..1] == [a[0]] && b[..1] == [b[0]];
    } else {
      assert SaneAt(c, a, i) && SaneAt(c, b, i);
    }
  }

  lemma SanePrefix(c: Core, log: seq<Entry>, n: nat)
    requires Sane(c, log) && n <= |log|
    ensures Sane(c, log[..n])
  {
    forall i | 1 <= i < n ensures SaneAt(c, log[..n], i) {
      assert SaneAt(c, log, i);
      assert log[..n][..i + 1] == log[..i + 1];
    }
  }

  // ---- Committed prefixes ----

  /** `prefix` is part of what some leader of a term up to `bound` got acknowledged by a majority. */
  ghost predicate Committed(c: Core, prefix: seq<Entry>, bound: nat) {
    |prefix| <= 1 || exists t: nat, k: nat :: CommittedVia(c, prefix, bound, t, k)
  }

  ghost predicate CommittedVia(c: Core, prefix: seq<Entry>, bound: nat, t: nat, k: nat) {
    t <= bound && Chosen(c, t, k) && prefix <= Upto(c, t, k)
  }

  lemma CommittedGrows(c: Core, d: Core, prefix: seq<Entry>, bound: nat, bound': nat)
    requires ReignsGrow(c, d) && AcksGrow(c, d) && Committed(c, prefix, bound) && bound <= bound'
    ensures Committed(d, prefix, bound')
  {
    if |prefix| > 1 {
      var t: nat, k: nat :| CommittedVia(c, prefix, bound, t, k);
      ChosenGrows(c, d, t, k);
      assert CommittedVia(d, prefix, bound', t, k);
    }
  }

  /** Everything committed in terms up to t is in the log of the leader of term t. */
  lemma CommittedIsInLeader(c: Core, prefix: seq<Entry>, t: nat)
    requires LeadersComplete(c) && Committed(c, prefix, t) && t in c.reigns && |prefix| > 1
    ensures prefix <= c.reigns[t].log
  {
    var u: nat, k: nat :| CommittedVia(c, prefix, t, u, k);
    ChosenIsInLaterLeaders(c, u, k, t);
  }

  /** Two committed prefixes never disagree. */
  lemma CommittedAgree(c: Core, a: seq<Entry>, b: seq<Entry>, s: nat, t: nat)
    requires LeadersComplete(c) && Committed(c, a, s) && Committed(c, b, t)
    requires |a| >= 1 && |b| >= 1 && a[0] == b[0]
    ensures a <= b || b <= a
  {
    if |a| > 1 && |b| > 1 {
      var u: nat, k: nat :| CommittedVia(c, a, s, u, k);
      var v: nat, l: nat :| CommittedVia(c, b, t, v, l);
      if u <= v {
        ChosenAgree(c, u, k, v, l);
      } else {
        ChosenAgree(c, v, l, u, k);
      }
    }
  }
}
