/**
 * The Raft peer as the source writes it: an object whose handlers update its fields in place and
 * scan, cut and fill its slices in loops.  Each method is proved to do what the function of
 * RaftHandlers with the same purpose says.  A method that reaches a panic reports it as its fault;
 * what it leaves in the fields then no longer matters, because the process is gone.  The entry points
 * of the serving loop also carry the history that explains the cluster: they keep the peer sound.
 */
module RaftPeer {
  import opened RaftTypes
  import opened Quorums
  import opened RaftHandlers
  import opened RaftCore
  import opened RaftInvariant
  import opened RaftSteps

  /** The caller sees what the specification says: the same state and messages, or the same panic. */
  ghost predicate Agrees(spec: Outcome, now: Node, fault: Option<Fault>, out: set<Msg>) {
    match spec
    case Ok(n, sent) => fault.None? && now == n && out == sent
    case Panic(f) => fault == Some(f)
  }

  /** The peer is still sound, for a history in which only its own part has grown, and so is all it sent. */
  ghost predicate Kept(c: Core, d: Core, now: Node, out: set<Msg>) {
    Evolves(c, d, now.me) && NodeOk(now, d) && MsgsOk(out, d)
  }

  lemma AgreedIsKept(c: Core, d: Core, n: Node, o: Outcome, now: Node, fault: Option<Fault>, out: set<Msg>)
    requires Good(c, d, n, o) && NodeOk(o.node, d) && Agrees(o, now, fault, out)
    ensures fault.None? && Kept(c, d, now, out)
  {}

  lemma {:induction false} ApplyManySound(n: Node, k: nat, c: Core)
    requires NodeOk(n, c)
    ensures NodeOk(ApplyMany(n, k), c)
  {
    if k > 0 {
      ApplyManySound(n, k - 1, c);
      ApplySound(ApplyMany(n, k - 1), c);
    }
  }

  /** As long as there is that much to apply, k steps deliver the next k entries of the log. */
  lemma {:induction false} ApplyManyIs(n: Node, k: nat)
    requires |n.applied| + k <= n.commitIndex < |n.log| && forall i | 0 <= i < |n.log| :: n.log[i].index == i
    ensures var a := ApplyMany(n, k);
            && a == n.(applied := a.applied) && |a.applied| == |n.applied| + k && n.applied <= a.applied
            && forall j | |n.applied| <= j < |a.applied| :: a.applied[j] == ApplyMsg(j + 1, n.log[j + 1].command)
  {
    if k > 0 {
      ApplyManyIs(n, k - 1);
    }
  }

  /** Trying to apply more than is committed changes nothing further. */
  lemma {:induction false} ApplyManyStops(n: Node, k: nat, most: nat)
    requires |n.applied| + most == n.commitIndex < |n.log| && k >= most
    requires forall i | 0 <= i < |n.log| :: n.log[i].index == i
    ensures ApplyMany(n, k) == ApplyMany(n, most)
  {
    if k > most {
      ApplyManyStops(n, k - 1, most);
      ApplyManyIs(n, most);
    }
  }

  /** What the application has when a peer dies in the middle of a handler. */
  function TornStream(n: Node, m: Msg, k: nat): seq<ApplyMsg>
    requires WellFormed(n) && WellFormedMsg(m, n.peers)
  {
    match StepUnsaved(n, m)
    case Ok(a, _) => ApplyMany(a, k).applied
    case Panic(_) => n.applied
  }

  /** What the serving loop takes from its channels. */
  datatype Input = Tick | Receive(m: Msg) | Command(cmd: Command)

  /** What the handlers say of an input. */
  function Response(n: Node, input: Input): Outcome
    requires WellFormed(n) && (input.Receive? ==> WellFormedMsg(input.m, n.peers))
  {
    match input
    case Tick => RaftHandlers.Tick(n)
    case Receive(m) => Step(n, m)
    case Command(cmd) => HandleStart(n, cmd)
  }

  // ---- Sorting the match indexes ----

  lemma {:induction false} InsertAt(x: int, s: seq<int>, p: nat)
    requires p <= |s| && (forall i | 0 <= i < p :: s[i] > x) && (p < |s| ==> x >= s[p])
    ensures InsertDescending(x, s) == s[..p] + [x] + s[p..]
  {
    if p > 0 {
      InsertAt(x, s[1..], p - 1);
      assert s[..p] == [s[0]] + s[1..][..p - 1];
      assert s[p..] == s[1..][p - 1..];
    }
  }

  method SortReverse(mis: seq<int>) returns (sorted: seq<int>)
    ensures sorted == SortDescending(mis)
  {
    sorted := [];
    for i := |mis| downto 0
      invariant sorted == SortDescending(mis[i..])
    {
      var p := 0;
      while p < |sorted| && sorted[p] > mis[i]
        invariant 0 <= p <= |sorted| && forall k | 0 <= k < p :: sorted[k] > mis[i]
      {
        p := p + 1;
      }
      InsertAt(mis[i], sorted, p);
      assert mis[i..][1..] == mis[i + 1..];
      sorted := sorted[..p] + [mis[i]] + sorted[p..];
    }
    assert mis[0..] == mis;
  }

  /** The loop of poll: how many peers have said yes. */
  method CountGranted(votes: map<nat, bool>) returns (granted: nat)
    ensures granted == |Granted(votes)|
  {
    granted := 0;
    var rest := votes.Keys;
    ghost var yes := Granted(votes);
    assert rest * yes == yes;
    while rest != {}
      invariant rest <= votes.Keys
      invariant granted + |rest * yes| == |yes|
    {
      var j :| j in rest;
      assert rest * yes == (rest - {j}) * yes + if votes[j] then {j} else {};
      rest := rest - {j};
      if votes[j] {
        granted := granted + 1;
      }
    }
    assert rest * yes == {};
  }

  class Raft {
    const me: nat
    const peers: nat
    var currentTerm: nat
    var votedFor: int
    var log: seq<Entry>
    var commitIndex: nat
    var nextIndex: seq<int>
    var matchIndex: seq<int>
    var state: Role
    var votes: map<nat, bool>
    var applied: seq<ApplyMsg>   // what applyCh has carried
    var persister: Disk

    ghost function View(): Node
      reads this
    {
      Node(me, peers, currentTerm, votedFor, log, commitIndex, nextIndex, matchIndex, state, votes, applied, persister)
    }

    ghost predicate Valid()
      reads this
    {
      WellFormed(View())
    }

    /** Make: initial values, then whatever the persister holds. */
    constructor (me: nat, peers: nat, persister: Disk)
      ensures View() == Boot(me, peers, persister)
    {
      this.me := me;
      this.peers := peers;
      this.persister := persister;
      currentTerm, votedFor, log := 1, NONE, [DUMMY];
      commitIndex, applied, votes, state := 0, [], map[], Follower;
      nextIndex, matchIndex := Zeros(peers), Zeros(peers);
      if persister.Saved? {
        currentTerm, votedFor, log := persister.hard.term, persister.hard.votedFor, persister.hard.log;
      }
    }

    method Save()
      modifies this`persister
      ensures View() == Persist(old(View()))
    {
      persister := Saved(Hard(currentTerm, votedFor, log));
    }

    // ---- Role changes ----

    method ResetTo(term: nat)
      modifies this`currentTerm, this`votedFor, this`votes, this`nextIndex, this`matchIndex
      ensures View() == Reset(old(View()), term)
    {
      if currentTerm != term {
        currentTerm := term;
        votedFor := NONE;
      }
      votes := map[];
      nextIndex := Zeros(peers);
      matchIndex := Zeros(peers);
    }

    method ToFollower(term: nat)
      modifies this
      ensures View() == BecomeFollower(old(View()), term)
    {
      ResetTo(term);
      state := Follower;
    }

    method ToCandidate() returns (fault: Option<Fault>)
      modifies this
      ensures if old(state).Leader? then fault == Some(LeaderToCandidate)
              else fault.None? && View() == BecomeCandidate(old(View()))
    {
      if state == Leader {
        return Some(LeaderToCandidate);
      }
      ResetTo(currentTerm + 1);
      votedFor := me;
      state := Candidate;
      fault := None;
    }

    method ToLeader() returns (fault: Option<Fault>)
      requires |log| >= 1
      modifies this
      ensures if old(state).Follower? then fault == Some(FollowerToLeader)
              else fault.None? && View() == BecomeLeader(old(View()))
    {
      if state == Follower {
        return Some(FollowerToLeader);
      }
      ResetTo(currentTerm);
      state := Leader;
      var i := 0;
      while i < peers
        invariant 0 <= i <= peers && |nextIndex| == peers
        invariant forall k | 0 <= k < i :: nextIndex[k] == |log|
        invariant View() == Reset(old(View()), old(currentTerm)).(role := Leader, nextIndex := nextIndex)
      {
        nextIndex := nextIndex[i := |log|];
        i := i + 1;
      }
      ghost var length: int := |log|;
      assert nextIndex == seq(peers, j => length);
      fault := None;
    }

    // ---- Elections ----

    method PollVote(id: nat, v: bool) returns (granted: nat)
      modifies this`votes
      ensures votes == Poll(old(votes), id, v) && granted == |Granted(votes)|
    {
      if id !in votes {
        votes := votes[id := v];
      }
      granted := CountGranted(votes);
    }

    method BcastRequestVote() returns (out: set<Msg>)
      requires Valid()
      modifies this`persister
      ensures View() == Persist(old(View())) && out == VoteRequests(old(View()))
    {
      Save();
      ghost var n := old(View());
      var last := log[|log| - 1].index;
      out := {};
      for i := 0 to peers
        invariant out == VoteRequestsBelow(n, i)
      {
        assert VoteRequestsBelow(n, i + 1) == VoteRequestsBelow(n, i) + if i != me then {VoteRequestFor(n, i)} else {};
        if i != me {
          out := out + {VoteReq(currentTerm, me, i, last, log[last].term)};
        }
      }
    }

    method RunCampaign() returns (fault: Option<Fault>, out: set<Msg>)
      requires Valid()
      modifies this
      ensures Agrees(Campaign(old(View())), View(), fault, out)
    {
      out := {};
      fault := ToCandidate();
      if fault.Some? {
        return;
      }
      var granted := PollVote(me, true);
      if Majority(peers) == granted {
        fault := ToLeader();
        return;
      }
      out := BcastRequestVote();
    }

    // ---- Sending appends ----

    method BcastAppend() returns (fault: Option<Fault>, out: set<Msg>)
      requires Valid()
      modifies this`persister
      ensures Agrees(BroadcastAppend(old(View())), View(), fault, out)
    {
      Save();
      ghost var n := old(View());
      out := {};
      for i := 0 to peers
        invariant forall k | 0 <= k < i && k != me :: 1 <= nextIndex[k] <= |log|
        invariant View() == Persist(n)
        invariant out == AppendRequestsBelow(n, i)
      {
        if i != me {
          var prevLogIndex := nextIndex[i] - 1;
          if prevLogIndex < 0 || prevLogIndex > log[|log| - 1].index {
            assert !CanBroadcast(n);
            return Some(BadPrevLogIndex), {};
          }
          var prevLogTerm := log[prevLogIndex].term;
          out := out + {AppReq(currentTerm, me, i, commitIndex, prevLogIndex, prevLogTerm, log[prevLogIndex + 1..])};
        }
        assert AppendRequestsBelow(n, i + 1) == AppendRequestsBelow(n, i) + if i != me then {AppendFor(n, i)} else {};
      }
      assert CanBroadcast(n);
      fault := None;
    }

    /** Neither timer ever panics. */
    method OnTick(ghost c: Core) returns (fault: Option<Fault>, out: set<Msg>, ghost d: Core)
      requires Inv(c) && NodeOk(View(), c)
      modifies this
      ensures Agrees(RaftHandlers.Tick(old(View())), View(), fault, out)
      ensures fault.None? && Kept(c, d, View(), out)
    {
      ghost var n := View();
      d := TickSound(n, c);
      if state == Leader {
        fault, out := BcastAppend();
      } else {
        fault, out := RunCampaign();
      }
      AgreedIsKept(c, d, n, RaftHandlers.Tick(n), View(), fault, out);
    }

    // ---- Committing ----

    method AdvanceCommit(tocommit: nat) returns (fault: Option<Fault>)
      requires |log| >= 1
      modifies this`commitIndex
      ensures Agrees(CommitTo(old(View()), tocommit), View(), fault, {})
    {
      if tocommit > log[|log| - 1].index {
        return Some(CommitPastLog);
      }
      if commitIndex < tocommit {
        commitIndex := tocommit;
      }
      fault := None;
    }

    method UpdateCommit() returns (fault: Option<Fault>)
      requires Valid()
      modifies this`commitIndex
      ensures Agrees(UpdateCommitIndex(old(View())), View(), fault, {})
    {
      var mis: seq<int> := [];
      for i := 0 to |matchIndex|
        invariant mis == matchIndex[..i]
      {
        mis := mis + [matchIndex[i]];
      }
      assert mis == matchIndex;
      var sorted := SortReverse(mis);
      SortedDescending(matchIndex);
      var mci := sorted[Majority(peers) - 1];
      QuorumIndexInLog(View());
      fault := None;
      if mci > commitIndex && log[mci].term == currentTerm {
        fault := AdvanceCommit(mci);
      }
    }

    // ---- Receiving appends ----

    method SearchConflict(ents: seq<Entry>) returns (ci: nat)
      requires |log| >= 1 && forall i | 0 <= i < |log| :: log[i].index == i
      ensures ci == FindConflict(log, ents)
    {
      var k := 0;
      while k < |ents|
        invariant 0 <= k <= |ents| && FindConflict(log, ents) == FindConflict(log, ents[k..])
      {
        var ne := ents[k];
        if !(ne.index <= log[|log| - 1].index && log[ne.index].term == ne.term) {
          return ne.index;
        }
        assert ents[k..][1..] == ents[k + 1..];
        k := k + 1;
      }
      ci := 0;
    }

    method AppendLog(ents: seq<Entry>) returns (fault: Option<Fault>)
      requires |log| >= 1 && (ents != [] ==> 1 <= ents[0].index <= |log|)
      modifies this`log
      ensures ents != [] && ents[0].index - 1 < commitIndex ==> fault == Some(TruncatesCommitted)
      ensures ents == [] || ents[0].index - 1 >= commitIndex ==> fault.None?
      ensures fault.None? ==> log == if ents == [] then old(log) else old(log)[..ents[0].index] + ents
    {
      fault := None;
      if |ents| == 0 {
        return;
      }
      if ents[0].index - 1 < commitIndex {
        return Some(TruncatesCommitted);
      }
      log := log[..ents[0].index];
      log := log + ents;
    }

    /** checkLog: true when every slot carries its own index. */
    method CheckLog() returns (ok: bool)
      ensures ok <==> forall i | 0 <= i < |log| :: log[i].index == i
    {
      for i := 0 to |log|
        invariant forall k | 0 <= k < i :: log[k].index == k
      {
        if i != log[i].index {
          return false;
        }
      }
      ok := true;
    }

    method TakeEntries(m: Msg) returns (fault: Option<Fault>)
      requires Valid() && m.AppReq? && WellFormedMsg(m, peers) && m.prev < |log|
      modifies this`log
      ensures var ci := FindConflict(old(log), m.entries);
              if ci != 0 && ci <= commitIndex then fault == Some(ConflictsWithCommitted)
              else fault.None? && log == Spliced(old(log), m)
    {
      fault := None;
      var ci := SearchConflict(m.entries);
      ConflictRange(log, m.entries, m.prev + 1);
      if ci == 0 {
        return;
      }
      if ci <= commitIndex {
        return Some(ConflictsWithCommitted);
      }
      var offset := m.prev + 1;
      fault := AppendLog(m.entries[ci - offset..]);
    }

    method Answer(m: Msg, success: bool, next: nat, conflictTerm: int, conflictIndex: int)
      returns (fault: Option<Fault>, out: set<Msg>)
      requires |log| >= 1 && m.AppReq?
      ensures var reply := AppendReply(View(), m, success, next, conflictTerm, conflictIndex);
              Agrees(Replied(View(), reply), View(), fault, out)
    {
      if next > log[|log| - 1].index + 1 {
        return Some(ReplyPastLog), {};
      }
      fault, out := None, {AppResp(currentTerm, me, m.from, m.prev, success, next, conflictTerm, conflictIndex)};
    }

    method Take(m: Msg) returns (fault: Option<Fault>, out: set<Msg>)
      requires Valid() && m.AppReq? && WellFormedMsg(m, peers) && m.prev < |log|
      modifies this`log, this`commitIndex
      ensures Agrees(AcceptAppend(old(View()), m), View(), fault, out)
    {
      out := {};
      fault := TakeEntries(m);
      if fault.Some? {
        return;
      }
      var sound := CheckLog();
      assert sound;
      if m.commit > commitIndex {
        if m.commit > log[|log| - 1].index {
          return Some(LeaderCommitPastLog), {};
        }
        fault := AdvanceCommit(m.commit);
        if fault.Some? {
          return;
        }
      }
      fault, out := Answer(m, true, m.prev + |m.entries| + 1, 0, 0);
    }

    method Refuse(m: Msg) returns (fault: Option<Fault>, out: set<Msg>)
      requires Valid() && m.AppReq?
      ensures Agrees(RejectAppend(View(), m), View(), fault, out)
    {
      var conflictTerm: int, conflictIndex: int := -1, -1;
      if m.prev <= log[|log| - 1].index {
        conflictTerm := log[m.prev].term;
        conflictIndex := 0;
        var shadow: int := m.prev;
        while shadow > 0
          invariant 0 <= shadow < |log|
        {
          if log[shadow - 1].term != conflictTerm {
            break;
          }
          shadow := shadow - 1;
        }
      }
      var next: int := if commitIndex + 1 < m.prev - 1 then commitIndex + 1 else m.prev - 1;
      if next < 1 {
        next := 1;
      }
      fault, out := Answer(m, false, next, conflictTerm, conflictIndex);
    }

    method OnAppend(m: Msg) returns (fault: Option<Fault>, out: set<Msg>)
      requires Valid() && m.AppReq? && WellFormedMsg(m, peers)
      modifies this`log, this`commitIndex
      ensures Agrees(HandleAppendEntries(old(View()), m), View(), fault, out)
    {
      if m.prev < commitIndex {
        fault, out := Answer(m, true, commitIndex + 1, 0, 0);
      } else if m.prev <= log[|log| - 1].index && log[m.prev].term == m.prevTerm {
        fault, out := Take(m);
      } else {
        fault, out := Refuse(m);
      }
    }

    // ---- Votes and replies ----

    method OnVoteRequest(m: Msg) returns (out: set<Msg>)
      requires Valid() && m.VoteReq?
      modifies this`votedFor
      ensures HandleVote(old(View()), m) == Ok(View(), out)
    {
      var last := log[|log| - 1];
      var upToDate := m.lastLogTerm > last.term || (m.lastLogTerm == last.term && m.lastLogIndex >= last.index);
      if (votedFor == NONE || votedFor == m.from) && upToDate {
        votedFor := m.from;
        out := {VoteResp(currentTerm, me, m.from, true)};
      } else {
        out := {VoteResp(currentTerm, me, m.from, false)};
      }
    }

    method OnVoteReply(m: Msg) returns (fault: Option<Fault>, out: set<Msg>)
      requires Valid() && m.VoteResp?
      modifies this
      ensures Agrees(HandleVoteReply(old(View()), m), View(), fault, out)
    {
      fault, out := None, {};
      var granted := PollVote(m.from, m.granted);
      if granted == Majority(peers) {
        fault := ToLeader();
        if fault.None? {
          fault, out := BcastAppend();
        }
      } else if |votes| - granted == Majority(peers) {
        ToFollower(currentTerm);
      }
    }

    /** The scan for the conflicting term; None when it would index past the log. */
    method Scan(from: int, term: int) returns (found: Option<int>)
      ensures found == ScanForTerm(log, from, term)
    {
      var i := from;
      while i > 0
        invariant ScanForTerm(log, from, term) == ScanForTerm(log, i, term)
      {
        if i >= |log| {
          return None;
        }
        if log[i].term == term {
          return Some(i);
        }
        i := i - 1;
      }
      found := Some(0);
    }

    method OnAppendReply(m: Msg) returns (fault: Option<Fault>)
      requires Valid() && m.AppResp? && WellFormedMsg(m, peers)
      modifies this`nextIndex, this`matchIndex, this`commitIndex
      ensures Agrees(HandleAppendReply(old(View()), m), View(), fault, {})
    {
      fault := None;
      if m.next > log[|log| - 1].index + 1 {
        return Some(ReplyBeyondLeader);
      }
      if m.success {
        if m.next >= nextIndex[m.from] {
          nextIndex := nextIndex[m.from := m.next];
          matchIndex := matchIndex[m.from := m.next - 1];
          fault := UpdateCommit();
        }
      } else {
        var nexti := Scan(m.prev - 1, m.conflictTerm);
        if nexti.None? {
          return Some(ScanOutOfRange);
        }
        if nexti.value == 0 && m.conflictIndex > 0 {
          nextIndex := nextIndex[m.from := m.conflictIndex];
        } else {
          nextIndex := nextIndex[m.from := m.next];
        }
      }
    }

    // ---- Dispatch ----

    method AsFollower(m: Msg) returns (fault: Option<Fault>, out: set<Msg>)
      requires Valid() && WellFormedMsg(m, peers)
      modifies this
      ensures Agrees(StepFollower(old(View()), m), View(), fault, out)
    {
      fault, out := None, {};
      match m
      case VoteReq(_, _, _, _, _) => out := OnVoteRequest(m);
      case AppReq(_, _, _, _, _, _, _) => fault, out := OnAppend(m);
      case _ =>
    }

    method AsCandidate(m: Msg) returns (fault: Option<Fault>, out: set<Msg>)
      requires Valid() && WellFormedMsg(m, peers)
      modifies this
      ensures Agrees(StepCandidate(old(View()), m), View(), fault, out)
    {
      fault, out := None, {};
      match m
      case AppReq(_, _, _, _, _, _, _) =>
        ToFollower(currentTerm);
        fault, out := OnAppend(m);
      case VoteReq(_, _, _, _, _) => out := {VoteResp(currentTerm, me, m.from, false)};
      case VoteResp(_, _, _, _) => fault, out := OnVoteReply(m);
      case _ =>
    }

    method AsLeader(m: Msg) returns (fault: Option<Fault>, out: set<Msg>)
      requires Valid() && WellFormedMsg(m, peers)
      modifies this
      ensures Agrees(StepLeader(old(View()), m), View(), fault, out)
    {
      fault, out := None, {};
      match m
      case AppResp(_, _, _, _, _, _, _, _) => fault := OnAppendReply(m);
      case VoteReq(_, _, _, _, _) => out := {VoteResp(0, me, m.from, false)};
      case AppReq(_, _, _, _, _, _, _) => out := {AppResp(0, me, m.from, m.prev, false, 0, 0, 0)};
      case _ =>
    }

    method ByRole(m: Msg) returns (fault: Option<Fault>, out: set<Msg>)
      requires Valid() && WellFormedMsg(m, peers)
      modifies this
      ensures Agrees(StepRole(old(View()), m), View(), fault, out)
    {
      match state
      case Follower => fault, out := AsFollower(m);
      case Candidate => fault, out := AsCandidate(m);
      case Leader => fault, out := AsLeader(m);
    }

    /** Step, up to the deferred save. */
    method HandleUnsaved(m: Msg) returns (fault: Option<Fault>, out: set<Msg>)
      requires Valid() && WellFormedMsg(m, peers)
      modifies this
      ensures Agrees(StepUnsaved(old(View()), m), View(), fault, out)
    {
      if m.term > currentTerm {
        ToFollower(m.term);
        fault, out := ByRole(m);
      } else if m.term < currentTerm {
        fault := None;
        match m
        case AppReq(_, _, _, _, _, _, _) =>
          out := {AppResp(currentTerm, me, m.from, m.prev, false, commitIndex + 1, 0, 0)};
        case VoteReq(_, _, _, _, _) => out := {VoteResp(currentTerm, me, m.from, false)};
        case _ => out := {};
      } else {
        fault, out := ByRole(m);
      }
    }

    /** Step: handle one message, save, and only then let the answer go. */
    method OnMessage(m: Msg, ghost c: Core) returns (fault: Option<Fault>, out: set<Msg>, ghost d: Core)
      requires Inv(c) && NodeOk(View(), c) && MsgOk(m, c) && m.to == me
      modifies this
      ensures Agrees(Step(old(View()), m), View(), fault, out)
      ensures fault.Some? <==> Overreaches(old(View()), m)
      ensures fault.None? ==> Kept(c, d, View(), out)
    {
      ghost var n := View();
      d := StepSound(n, c, m);
      if Overreaches(n, m) {
        OverreachPanics(n, c, m);
      }
      fault, out := HandleUnsaved(m);
      Save();
      if fault.None? {
        AgreedIsKept(c, d, n, Step(n, m), View(), fault, out);
      }
    }

    // ---- Client commands and the apply loop ----

    /** handleStart: the index and term the command got, or a refusal. */
    method OnStart(cmd: Command, ghost c: Core)
      returns (fault: Option<Fault>, out: set<Msg>, index: int, term: int, isLeader: bool, ghost d: Core)
      requires Inv(c) && NodeOk(View(), c)
      modifies this
      ensures Agrees(HandleStart(old(View()), cmd), View(), fault, out)
      ensures fault.None? && Kept(c, d, View(), out)
      ensures isLeader == old(state).Leader?
      ensures isLeader ==> term == old(currentTerm) && index == |old(log)| < |log|
      ensures isLeader ==> log[index] == Entry(old(currentTerm), |old(log)|, cmd)
      ensures !isLeader ==> index == -1 && term == -1 && View() == old(View()) && out == {}
    {
      ghost var n := View();
      d := StartSound(n, c, cmd);
      if state != Leader {
        return None, {}, -1, -1, false, d;
      }
      term, index, isLeader := currentTerm, |log|, true;
      log := log + [Entry(currentTerm, |log|, cmd)];
      nextIndex := nextIndex[me := index + 1];
      matchIndex := matchIndex[me := index];
      fault, out := BcastAppend();
      AgreedIsKept(c, d, n, HandleStart(n, cmd), View(), fault, out);
    }

    /** The application takes up to k of the committed entries. */
    method ApplySome(k: nat)
      requires Valid() && AppliedOk(View()) && commitIndex < |log|
      modifies this`applied
      ensures View() == ApplyMany(old(View()), k)
    {
      var most := commitIndex - |applied|;
      var steps := if k < most then k else most;
      if k >= most {
        ApplyManyStops(View(), k, most);
      }
      var fault := OnCommitNotice(|applied| + steps);
    }

    /** A handler whose peer dies before it has saved: all that remains is what the application took. */
    method HandleAndApply(m: Msg, k: nat, ghost c: Core) returns (stream: seq<ApplyMsg>)
      requires Inv(c) && NodeOk(View(), c) && MsgOk(m, c) && m.to == me
      modifies this
      ensures stream == TornStream(old(View()), m, k)
    {
      stream := applied;
      ghost var n := View();
      ghost var d := StepUnsavedSound(n, c, m);
      var fault, out := HandleUnsaved(m);
      if fault.None? {
        ghost var a := StepUnsaved(n, m).node;
        assert PeerSound(a, d) && View() == a;
        ApplySome(k);
        stream := applied;
      }
    }

    /** One round of the serving loop: it never panics but for an overreaching rejection, and stays sound. */
    method Serve(input: Input, ghost c: Core) returns (fault: Option<Fault>, out: set<Msg>, ghost d: Core)
      requires Inv(c) && NodeOk(View(), c) && (input.Receive? ==> MsgOk(input.m, c) && input.m.to == me)
      modifies this
      ensures Agrees(Response(old(View()), input), View(), fault, out)
      ensures fault.Some? <==> input.Receive? && Overreaches(old(View()), input.m)
      ensures fault.None? ==> Kept(c, d, View(), out)
    {
      match input
      case Tick => fault, out, d := OnTick(c);
      case Receive(m) => fault, out, d := OnMessage(m, c);
      case Command(cmd) =>
        var index, term, isLeader;
        fault, out, index, term, isLeader, d := OnStart(cmd, c);
    }

    /**
     * One commit notice taken by stateMachine: everything up to it that the application has not had
     * yet goes out, in order; a notice at or below what it has had does nothing.
     */
    method OnCommitNotice(notice: nat) returns (fault: Option<Fault>)
      requires Valid()
      modifies this`applied
      ensures |old(applied)| < notice && notice >= |log| ==> fault == Some(ApplyPastLog) && applied == old(applied)
      ensures !(|old(applied)| < notice && notice >= |log|) ==> fault.None?
      ensures fault.None? ==> |applied| == (if notice > |old(applied)| then notice else |old(applied)|)
      ensures fault.None? ==> old(applied) <= applied
      ensures fault.None? ==>
                forall k | |old(applied)| <= k < |applied| :: applied[k] == ApplyMsg(k + 1, log[k + 1].command)
      ensures notice <= commitIndex < |log| && |old(applied)| <= commitIndex ==>
                View() == ApplyMany(old(View()), if notice > |old(applied)| then notice - |old(applied)| else 0)
    {
      if notice > |applied| {
        if log[|log| - 1].index < notice {
          return Some(ApplyPastLog);
        }
        var lastApplied := |applied|;
        var i := lastApplied + 1;
        while i <= notice
          invariant lastApplied + 1 <= i <= notice + 1 && |applied| == i - 1
          invariant old(applied) <= applied
          invariant forall k | lastApplied <= k < |applied| :: applied[k] == ApplyMsg(k + 1, log[k + 1].command)
        {
          applied := applied + [ApplyMsg(log[i].index, log[i].command)];
          i := i + 1;
        }
        ghost var n := old(View());
        if notice <= commitIndex < |log| {
          ApplyManyIs(n, notice - lastApplied);
          ghost var a := ApplyMany(n, notice - lastApplied).applied;
          assert applied == a by {
            assert |applied| == |a|;
            assert forall k | 0 <= k < |a| :: applied[k] == a[k];
          }
        }
      }
      fault := None;
    }
  }
}
