/** The six ways the history of a cluster changes, and the proof that each keeps RaftCore.Inv. */
module RaftActions {
  import opened RaftTypes
  import opened Quorums
  import opened RaftCore

  // ---- What survives when history grows ----

  lemma KeepsGrows(c: Core, d: Core, u: nat, k: nat, log: seq<Entry>)
    requires ReignsGrow(c, d) && AcksGrow(c, d) && OwnTerm(c, u, k) && Keeps(c, u, k, log)
    ensures OwnTerm(d, u, k) && Keeps(d, u, k, log)
  {
    assert ReignGrows(c, d, u);
    if Dead(c, u, k) {
      DeadGrows(c, d, u, k);
    }
  }

  /** A peer's duty towards terms it has left can no longer change. */
  lemma JustifiedGrows(c: Core, d: Core, j: nat, t: nat, log: seq<Entry>)
    requires AcksOk(c) && Grows(c, d) && j < |c.terms| && t <= c.terms[j] && Justified(c, j, t, log)
    ensures Justified(d, j, t, log)
  {
    forall u: nat, k: nat | u < t && OwnTerm(d, u, k) && Acked(d, u, j, k) ensures Keeps(d, u, k, log) {
      assert AckOk(c, u, j);
      assert ReignGrows(c, d, u);
      assert Keeps(c, u, k, log);
      KeepsGrows(c, d, u, k, log);
    }
  }

  lemma OldBallotsOk(c: Core, d: Core)
    requires Inv(c) && Grows(c, d)
    ensures forall t, j {:trigger BallotOk(d, t, j)} | (t, j) in c.ballots :: (t, j) in d.ballots && BallotOk(d, t, j)
  {
    forall t, j | (t, j) in c.ballots ensures BallotOk(d, t, j) {
      assert BallotOk(c, t, j);
      JustifiedGrows(c, d, j, t, c.campaigns[(t, c.ballots[(t, j)])]);
    }
  }

  lemma OldCampaignsOk(c: Core, d: Core)
    requires Inv(c) && Grows(c, d)
    ensures forall t, i {:trigger CampaignOk(d, t, i)} | (t, i) in c.campaigns ::
              (t, i) in d.campaigns && CampaignOk(d, t, i)
  {
    forall t, i | (t, i) in c.campaigns ensures CampaignOk(d, t, i) {
      assert CampaignOk(c, t, i);
      SaneGrows(c, d, c.campaigns[(t, i)]);
    }
  }

  lemma SameReignsOk(c: Core, d: Core)
    requires Inv(c) && Grows(c, d) && d.reigns == c.reigns
    ensures ReignsOk(d) && LeadersComplete(d)
  {
    forall t | t in d.reigns ensures ReignOk(d, t) {
      assert ReignOk(c, t);
      SaneGrows(c, d, c.reigns[t].log);
    }
    forall t: nat, k: nat, later: nat | t < later && later in d.reigns && OwnTerm(d, t, k)
      ensures Keeps(d, t, k, d.reigns[later].log)
    {
      assert OwnTerm(c, t, k);
      assert Keeps(c, t, k, c.reigns[later].log);
      KeepsGrows(c, d, t, k, c.reigns[later].log);
    }
  }

  lemma SameLogOk(c: Core, d: Core, i: nat)
    requires Inv(c) && Grows(c, d) && i < |c.logs| == |d.logs| && d.logs[i] == c.logs[i]
    ensures LogOk(d, i)
  {
    assert LogOk(c, i);
    SaneGrows(c, d, c.logs[i]);
  }

  lemma SamePeerOk(c: Core, d: Core, j: nat)
    requires Inv(c) && Grows(c, d) && j < |c.logs| == |d.logs| && d.logs[j] == c.logs[j]
    requires forall t | (t, j) in d.acks :: (t, j) in c.acks && d.acks[(t, j)] == c.acks[(t, j)]
    ensures PeerOk(d, j)
    ensures forall t {:trigger AckOk(d, t, j)} | (t, j) in d.acks :: AckOk(d, t, j)
  {
    forall t | (t, j) in d.acks ensures AckOk(d, t, j) {
      assert AckOk(c, t, j);
      assert ReignGrows(c, d, t);
    }
    var log := c.logs[j];
    forall u: nat, k: nat | u < d.terms[j] + 1 && OwnTerm(d, u, k) && Acked(d, u, j, k)
      ensures Keeps(d, u, k, log)
    {
      assert AckOk(c, u, j);
      assert ReignGrows(c, d, u);
      assert PeerOk(c, j);
      assert Keeps(c, u, k, log);
      KeepsGrows(c, d, u, k, log);
    }
  }

  // ---- Action 1: a peer moves to a later term ----

  ghost function BumpTerm(c: Core, i: nat, t: nat): Core
    requires i < |c.terms|
  {
    c.(terms := c.terms[i := t])
  }

  lemma BumpTermKeepsInv(c: Core, i: nat, t: nat)
    requires Inv(c) && i < |c.terms| && c.terms[i] <= t
    ensures Inv(BumpTerm(c, i, t)) && Grows(c, BumpTerm(c, i, t))
  {
    var d := BumpTerm(c, i, t);
    forall u | u in c.reigns ensures ReignGrows(c, d, u) {}
    SameReignsOk(c, d);
    OldBallotsOk(c, d);
    OldCampaignsOk(c, d);
    forall j | 0 <= j < |d.logs| ensures LogOk(d, j) && PeerOk(d, j) {
      SameLogOk(c, d, j);
      SamePeerOk(c, d, j);
    }
    AcksFromPeers(c, d);
  }

  lemma AcksFromPeers(c: Core, d: Core)
    requires Inv(c) && Grows(c, d) && d.acks == c.acks && d.logs == c.logs
    ensures AcksOk(d)
  {
    forall t, j | (t, j) in d.acks ensures AckOk(d, t, j) {
      assert AckOk(c, t, j);
      assert ReignGrows(c, d, t);
    }
  }

  // ---- Action 2: a peer starts a campaign, voting for itself in the next term ----

  ghost function StartCampaign(c: Core, i: nat): Core
    requires i < |c.terms| == |c.logs|
  {
    var t := c.terms[i] + 1;
    c.(terms := c.terms[i := t],
       campaigns := c.campaigns[(t, i) := c.logs[i]],
       ballots := c.ballots[(t, i) := i])
  }

  /** The campaign itself, once the term has moved. */
  lemma CampaignAfterBump(c: Core, i: nat, d: Core)
    requires Inv(c) && i < |c.terms| && c.terms[i] >= 2
    requires (c.terms[i], i) !in c.campaigns && (c.terms[i], i) !in c.ballots
    requires WellFormedLog(c.logs[i], c.terms[i] - 1)
    requires d == c.(campaigns := c.campaigns[(c.terms[i], i) := c.logs[i]], ballots := c.ballots[(c.terms[i], i) := i])
    ensures Inv(d) && Grows(c, d)
  {
    var t := c.terms[i];
    forall u | u in c.reigns ensures ReignGrows(c, d, u) {}
    SameReignsOk(c, d);
    OldBallotsOk(c, d);
    OldCampaignsOk(c, d);
    assert LogOk(c, i) && PeerOk(c, i);
    SaneGrows(c, d, c.logs[i]);
    assert CampaignOk(d, t, i);
    JustifiedGrowsSameAcks(c, d, i, t, c.logs[i]);
    assert BallotOk(d, t, i);
    forall j | 0 <= j < |d.logs| ensures LogOk(d, j) && PeerOk(d, j) {
      SameLogOk(c, d, j);
      SamePeerOk(c, d, j);
    }
    AcksFromPeers(c, d);
  }

  lemma CampaignKeepsInv(c: Core, i: nat)
    requires Inv(c) && i < |c.terms| && c.terms[i] >= 1
    ensures Inv(StartCampaign(c, i)) && Grows(c, StartCampaign(c, i))
  {
    var t := c.terms[i] + 1;
    var b := BumpTerm(c, i, t);
    assert (t, i) in c.campaigns ==> CampaignOk(c, t, i);
    assert (t, i) in c.ballots ==> BallotOk(c, t, i);
    assert LogOk(c, i);
    BumpTermKeepsInv(c, i, t);
    CampaignAfterBump(b, i, StartCampaign(c, i));
    GrowsTransitive(c, b, StartCampaign(c, i));
  }

  lemma JustifiedGrowsSameAcks(c: Core, d: Core, j: nat, t: nat, log: seq<Entry>)
    requires AcksOk(c) && Grows(c, d) && d.acks == c.acks && Justified(c, j, t, log)
    ensures Justified(d, j, t, log)
  {
    forall u: nat, k: nat | u < t && OwnTerm(d, u, k) && Acked(d, u, j, k) ensures Keeps(d, u, k, log) {
      assert AckOk(c, u, j);
      assert ReignGrows(c, d, u);
      assert Keeps(c, u, k, log);
      KeepsGrows(c, d, u, k, log);
    }
  }

  // ---- Action 3: a peer votes ----

  ghost function CastVote(c: Core, j: nat, cand: nat): Core
    requires j < |c.terms|
  {
    c.(ballots := c.ballots[(c.terms[j], j) := cand])
  }

  /** The up-to-date check: the candidate's log keeps all the voter has acknowledged. */
  lemma UpToDateIsJustified(c: Core, j: nat, t: nat, log: seq<Entry>)
    requires Inv(c) && j < |c.terms| && t <= c.terms[j] + 1
    requires WellFormedLog(log, t - 1) && Sane(c, log) && |c.logs[j]| >= 1 && UpToDate(log, c.logs[j])
    ensures Justified(c, j, t, log)
  {
    forall u: nat, k: nat | u < t && OwnTerm(c, u, k) && Acked(c, u, j, k) ensures Keeps(c, u, k, log) {
      assert PeerOk(c, j);
      assert Keeps(c, u, k, c.logs[j]);
      if !Dead(c, u, k) {
        UpToDateHolds(c, j, u, k, log);
      }
    }
  }

  lemma UpToDateHolds(c: Core, j: nat, u: nat, k: nat, log: seq<Entry>)
    requires Inv(c) && j < |c.terms| && |c.logs[j]| >= 1 && |log| >= 1
    requires log[0] == DUMMY && Sane(c, log) && UpToDate(log, c.logs[j])
    requires OwnTerm(c, u, k) && !Dead(c, u, k) && Upto(c, u, k) <= c.logs[j]
    ensures Upto(c, u, k) <= log
  {
    var voter := c.logs[j];
    var m, v := |log| - 1, |voter| - 1;
    var s := log[m].term;
    assert LogOk(c, j) && ReignOk(c, u);
    assert Upto(c, u, k)[k] == voter[k];
    assert voter[v].term >= u >= 2;
    assert m >= 1 && k >= 1;
    assert SaneAt(c, log, m);
    if s == voter[v].term {
      assert SaneAt(c, voter, v);
      assert voter == c.reigns[s].log[..v + 1] && log == c.reigns[s].log[..m + 1];
      assert voter <= log;
    } else {
      assert Keeps(c, u, k, c.reigns[s].log);
      assert ReignOk(c, s);
      var lead := c.reigns[s].log;
      assert lead[k] == Upto(c, u, k)[k];
      assert lead[m] == log[m] by { assert log == lead[..m + 1]; }
      assert k <= m;
      assert log == lead[..m + 1];
    }
  }

  lemma CastVoteKeepsInv(c: Core, j: nat, cand: nat)
    requires Inv(c) && j < |c.terms| && (c.terms[j], cand) in c.campaigns
    requires (c.terms[j], j) in c.ballots ==> c.ballots[(c.terms[j], j)] == cand
    requires |c.logs[j]| >= 1 && |c.campaigns[(c.terms[j], cand)]| >= 1
    requires UpToDate(c.campaigns[(c.terms[j], cand)], c.logs[j])
    ensures Inv(CastVote(c, j, cand)) && Grows(c, CastVote(c, j, cand))
  {
    var d, t := CastVote(c, j, cand), c.terms[j];
    var log := c.campaigns[(t, cand)];
    forall u | u in c.reigns ensures ReignGrows(c, d, u) {}
    SameReignsOk(c, d);
    OldBallotsOk(c, d);
    OldCampaignsOk(c, d);
    assert CampaignOk(c, t, cand);
    UpToDateIsJustified(c, j, t, log);
    JustifiedGrowsSameAcks(c, d, j, t, log);
    assert BallotOk(d, t, j);
    forall i | 0 <= i < |d.logs| ensures LogOk(d, i) && PeerOk(d, i) {
      SameLogOk(c, d, i);
      SamePeerOk(c, d, i);
    }
    AcksFromPeers(c, d);
  }

  // ---- Action 4: a candidate with a majority becomes leader ----

  ghost function Supporters(c: Core, t: nat, cand: nat): set<nat> {
    set j: nat | j in Ids(|c.terms|) && (t, j) in c.ballots && c.ballots[(t, j)] == cand
  }

  ghost function Elect(c: Core, i: nat): Core
    requires i < |c.terms| == |c.logs|
  {
    var t := c.terms[i];
    c.(reigns := c.reigns[t := Reign(i, Supporters(c, t, i), c.logs[i])])
  }

  /** Election Safety: two candidates of one term cannot both have a majority. */
  lemma OneWinner(c: Core, t: nat, i: nat)
    requires ReignsOk(c) && t in c.reigns && IsQuorum(|c.terms|, Supporters(c, t, i))
    ensures c.reigns[t].leader == i
  {
    assert ReignOk(c, t);
    var j := QuorumsMeet(|c.terms|, c.reigns[t].voters, Supporters(c, t, i));
  }

  /** A newly elected leader's log is complete, because some supporter would have refused otherwise. */
  lemma WinnerIsComplete(c: Core, t: nat, i: nat, u: nat, k: nat)
    requires Inv(c) && (t, i) in c.campaigns && IsQuorum(|c.terms|, Supporters(c, t, i))
    requires u < t && OwnTerm(c, u, k)
    ensures Keeps(c, u, k, c.campaigns[(t, i)])
  {
    var q := Supporters(c, t, i);
    if j :| j in q && Acked(c, u, j, k) {
      assert BallotOk(c, t, j);
    } else {
      forall j | j in q ensures c.terms[j] > u && j < |c.terms| {
        assert BallotOk(c, t, j);
      }
      assert Refused(c, u, k, q);
    }
  }

  lemma ElectKeepsInv(c: Core, i: nat)
    requires Inv(c) && i < |c.terms|
    requires c.terms[i] !in c.reigns
    requires (c.terms[i], i) in c.campaigns && c.campaigns[(c.terms[i], i)] == c.logs[i]
    requires IsQuorum(|c.terms|, Supporters(c, c.terms[i], i))
    ensures Inv(Elect(c, i)) && Grows(c, Elect(c, i))
  {
    var d, t := Elect(c, i), c.terms[i];
    forall u | u in c.reigns ensures ReignGrows(c, d, u) {}
    OldBallotsOk(c, d);
    OldCampaignsOk(c, d);
    assert CampaignOk(c, t, i);
    forall u | u in d.reigns ensures ReignOk(d, u) {
      if u != t { assert ReignOk(c, u); }
      SaneGrows(c, d, d.reigns[u].log);
    }
    forall u: nat, k: nat, later: nat | u < later && later in d.reigns && OwnTerm(d, u, k)
      ensures Keeps(d, u, k, d.reigns[later].log)
    {
      assert u != t;
      assert OwnTerm(c, u, k);
      if later == t {
        WinnerIsComplete(c, t, i, u, k);
      } else {
        assert Keeps(c, u, k, c.reigns[later].log);
      }
      KeepsGrows(c, d, u, k, d.reigns[later].log);
    }
    forall j | 0 <= j < |d.logs| ensures LogOk(d, j) && PeerOk(d, j) {
      SameLogOk(c, d, j);
      SamePeerOk(c, d, j);
    }
    AcksFromPeers(c, d);
  }

  // ---- Action 5: a leader appends a client command and acknowledges it itself ----

  ghost function LeaderAppend(c: Core, i: nat, cmd: Command): Core
    requires i < |c.terms| == |c.logs| && c.terms[i] in c.reigns
  {
    var t := c.terms[i];
    var log := c.logs[i] + [Entry(t, |c.logs[i]|, cmd)];
    c.(logs := c.logs[i := log],
       reigns := c.reigns[t := c.reigns[t].(log := log)],
       acks := c.acks[(t, i) := |c.logs[i]|])
  }

  ghost predicate Leads(c: Core, i: nat) {
    && i < |c.terms| == |c.logs|
    && c.terms[i] in c.reigns
    && c.reigns[c.terms[i]].leader == i
    && c.reigns[c.terms[i]].log == c.logs[i]
  }

  lemma LeaderAppendGrows(c: Core, i: nat, cmd: Command)
    requires Inv(c) && Leads(c, i)
    ensures Grows(c, LeaderAppend(c, i, cmd))
  {
    var d, t := LeaderAppend(c, i, cmd), c.terms[i];
    forall u | u in c.reigns ensures ReignGrows(c, d, u) {}
    if (t, i) in c.acks { assert AckOk(c, t, i); }
  }

  /** An entry appended after a later leader was elected is dead: the later leader's voters have left. */
  lemma LateAppendIsDead(c: Core, i: nat, cmd: Command, later: nat)
    requires Inv(c) && Leads(c, i) && later in c.reigns && c.terms[i] < later
    ensures Dead(LeaderAppend(c, i, cmd), c.terms[i], |c.logs[i]|)
  {
    var d, t, q := LeaderAppend(c, i, cmd), c.terms[i], c.reigns[later].voters;
    assert ReignOk(c, later);
    forall j | j in q ensures d.terms[j] > t && !Acked(d, t, j, |c.logs[i]|) && j < |d.terms| {
      assert BallotOk(c, later, j);
      assert j != i;
      if (t, j) in c.acks { assert AckOk(c, t, j); }
    }
    assert Refused(d, t, |c.logs[i]|, q);
  }

  lemma LeaderLogStillSane(c: Core, d: Core, i: nat, cmd: Command)
    requires Inv(c) && Leads(c, i) && d == LeaderAppend(c, i, cmd)
    ensures WellFormedLog(d.logs[i], d.terms[i]) && Sane(d, d.logs[i])
  {
    var t := c.terms[i];
    assert LogOk(c, i) && ReignOk(c, t);
    LeaderAppendGrows(c, i, cmd);
    SaneGrows(c, d, c.logs[i]);
    forall x | 1 <= x < |d.logs[i]| ensures SaneAt(d, d.logs[i], x) {
      if x < |c.logs[i]| {
        assert SaneAt(d, c.logs[i], x);
        assert d.logs[i][..x + 1] == c.logs[i][..x + 1];
      }
    }
  }

  lemma LeaderAppendReigns(c: Core, d: Core, i: nat, cmd: Command)
    requires Inv(c) && Leads(c, i) && d == LeaderAppend(c, i, cmd)
    ensures ReignsOk(d) && LeadersComplete(d)
  {
    var t := c.terms[i];
    LeaderAppendGrows(c, i, cmd);
    forall u | u in d.reigns ensures ReignOk(d, u) {
      assert ReignOk(c, u);
      if u == t { LeaderLogStillSane(c, d, i, cmd); } else { SaneGrows(c, d, c.reigns[u].log); }
    }
    forall u: nat, k: nat, later: nat | u < later && later in d.reigns && OwnTerm(d, u, k)
      ensures Keeps(d, u, k, d.reigns[later].log)
    {
      if u == t && k == |c.logs[i]| {
        LateAppendIsDead(c, i, cmd, later);
      } else {
        assert OwnTerm(c, u, k);
        assert Keeps(c, u, k, c.reigns[later].log);
        KeepsGrows(c, d, u, k, c.reigns[later].log);
        assert ReignGrows(c, d, later);
      }
    }
  }

  lemma LeaderAppendPeer(c: Core, d: Core, i: nat, cmd: Command)
    requires Inv(c) && Leads(c, i) && d == LeaderAppend(c, i, cmd)
    ensures PeerOk(d, i)
    ensures forall t {:trigger AckOk(d, t, i)} | (t, i) in d.acks :: AckOk(d, t, i)
  {
    LeaderAppendGrows(c, i, cmd);
    forall t | (t, i) in d.acks ensures AckOk(d, t, i) {
      if t != c.terms[i] {
        assert AckOk(c, t, i);
      }
    }
    var log := d.logs[i];
    forall u: nat, k: nat | u < d.terms[i] + 1 && OwnTerm(d, u, k) && Acked(d, u, i, k)
      ensures Keeps(d, u, k, log)
    {
      if u == c.terms[i] {
        assert Upto(d, u, k) <= log;
      } else {
        assert OwnTerm(c, u, k);
        assert PeerOk(c, i);
        assert Keeps(c, u, k, c.logs[i]);
        KeepsGrows(c, d, u, k, c.logs[i]);
      }
    }
  }

  lemma LeaderAppendKeepsInv(c: Core, i: nat, cmd: Command)
    requires Inv(c) && Leads(c, i)
    ensures Inv(LeaderAppend(c, i, cmd)) && Grows(c, LeaderAppend(c, i, cmd))
  {
    var d := LeaderAppend(c, i, cmd);
    LeaderAppendGrows(c, i, cmd);
    LeaderAppendReigns(c, d, i, cmd);
    OldBallotsOk(c, d);
    OldCampaignsOk(c, d);
    LeaderAppendPeer(c, d, i, cmd);
    forall j | 0 <= j < |d.logs| ensures LogOk(d, j) && PeerOk(d, j) {
      if j == i {
        LeaderLogStillSane(c, d, i, cmd);
      } else {
        SameLogOk(c, d, j);
        SamePeerOk(c, d, j);
      }
    }
    forall t, j | (t, j) in d.acks ensures AckOk(d, t, j) {
      if j != i {
        assert AckOk(c, t, j);
        assert ReignGrows(c, d, t);
      }
    }
  }

  // ---- Action 6: a peer takes over the leader's log through index n and acknowledges `upto` ----

  /** Keep a log that already contains the target, otherwise take the target. */
  function Merge(log: seq<Entry>, target: seq<Entry>): seq<Entry> {
    if target <= log then log else target
  }

  /** Merging loses no common part of the log and the target. */
  lemma MergeKeepsCommon(log: seq<Entry>, lead: seq<Entry>, n: nat, part: seq<Entry>)
    requires n < |lead| && part <= log && part <= lead
    ensures part <= Merge(log, lead[..n + 1])
  {
    var target := lead[..n + 1];
    if |part| > n + 1 {
      assert target == part[..n + 1];
    }
  }

  function Higher(acks: map<(nat, nat), nat>, key: (nat, nat), a: nat): nat {
    if key in acks && acks[key] > a then acks[key] else a
  }

  ghost function Accept(c: Core, j: nat, n: nat, upto: nat): Core
    requires j < |c.terms| == |c.logs| && c.terms[j] in c.reigns && n < |c.reigns[c.terms[j]].log|
  {
    var t := c.terms[j];
    c.(logs := c.logs[j := Merge(c.logs[j], Upto(c, t, n))],
       acks := c.acks[(t, j) := Higher(c.acks, (t, j), upto)])
  }

  ghost predicate CanAccept(c: Core, j: nat, n: nat, upto: nat) {
    && j < |c.terms| == |c.logs|
    && c.terms[j] in c.reigns
    && n < |c.reigns[c.terms[j]].log|
    && upto < |c.reigns[c.terms[j]].log|
    && Upto(c, c.terms[j], upto) <= Merge(c.logs[j], Upto(c, c.terms[j], n))
  }

  lemma AcceptGrows(c: Core, j: nat, n: nat, upto: nat)
    requires CanAccept(c, j, n, upto)
    ensures Grows(c, Accept(c, j, n, upto))
  {
    var d := Accept(c, j, n, upto);
    forall u | u in c.reigns ensures ReignGrows(c, d, u) {}
  }

  lemma AcceptLog(c: Core, d: Core, j: nat, n: nat, upto: nat)
    requires Inv(c) && CanAccept(c, j, n, upto) && d == Accept(c, j, n, upto)
    ensures LogOk(d, j)
  {
    var t := c.terms[j];
    AcceptGrows(c, j, n, upto);
    assert LogOk(c, j) && ReignOk(c, t);
    SanePrefix(c, c.reigns[t].log, n + 1);
    SaneGrows(c, d, d.logs[j]);
  }

  lemma AcceptPeer(c: Core, d: Core, j: nat, n: nat, upto: nat)
    requires Inv(c) && CanAccept(c, j, n, upto) && d == Accept(c, j, n, upto)
    ensures PeerOk(d, j)
  {
    AcceptGrows(c, j, n, upto);
    var t := c.terms[j];
    forall u: nat, k: nat | u < d.terms[j] + 1 && OwnTerm(d, u, k) && Acked(d, u, j, k)
      ensures Keeps(d, u, k, d.logs[j])
    {
      assert OwnTerm(c, u, k);
      if Acked(c, u, j, k) {
        assert PeerOk(c, j);
        assert Keeps(c, u, k, c.logs[j]);
        if Dead(c, u, k) {
          DeadGrows(c, d, u, k);
        } else {
          if u < t { assert Keeps(c, u, k, c.reigns[t].log); }
          MergeKeepsCommon(c.logs[j], c.reigns[t].log, n, Upto(c, u, k));
        }
      } else {
        assert u == t && k <= upto;
        assert Upto(c, t, k) <= Upto(c, t, upto);
      }
    }
  }

  lemma AcceptAcks(c: Core, d: Core, j: nat, n: nat, upto: nat)
    requires Inv(c) && CanAccept(c, j, n, upto) && d == Accept(c, j, n, upto)
    ensures AcksOk(d)
  {
    var t := c.terms[j];
    forall u, x | (u, x) in d.acks ensures AckOk(d, u, x) {
      if (u, x) in c.acks {
        assert AckOk(c, u, x);
        if u == t && x == j {
          MergeKeepsCommon(c.logs[j], c.reigns[t].log, n, Upto(c, t, c.acks[(t, j)]));
        }
      }
    }
  }

  lemma AcceptKeepsInv(c: Core, j: nat, n: nat, upto: nat)
    requires Inv(c) && CanAccept(c, j, n, upto)
    ensures Inv(Accept(c, j, n, upto)) && Grows(c, Accept(c, j, n, upto))
  {
    var d := Accept(c, j, n, upto);
    AcceptGrows(c, j, n, upto);
    SameReignsOk(c, d);
    OldBallotsOk(c, d);
    OldCampaignsOk(c, d);
    AcceptAcks(c, d, j, n, upto);
    forall i | 0 <= i < |d.logs| ensures LogOk(d, i) && PeerOk(d, i) {
      if i == j {
        AcceptLog(c, d, j, n, upto);
        AcceptPeer(c, d, j, n, upto);
      } else {
        SameLogOk(c, d, i);
        SamePeerOk(c, d, i);
      }
    }
  }
}
