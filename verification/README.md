# Distributed systems, verified

A Dafny model of the parts of this repository that have to be right under concurrency, loss and
crashes, and proofs of what they promise.

- **Raft** (`mit/src/raft/raft.go`). `RaftHandlers` gives every handler as a function from a peer's
  state to its next state and the messages it sends, panics included. `RaftPeer.Raft` is the same
  peer as an object that updates its fields in place; each method is proved to agree with its
  function, and `RaftSystem.System` drives such objects through any sequence of events. `RaftCluster` lets peers, a network that loses, repeats, delays and reorders messages,
  crashes, and crashes in the middle of a handler act in any order; a `Behaviour` lists the states of
  such a run and `Exec` is the last of them. `RaftCore` and `RaftActions` hold the history that explains a run: who led which term with
  which log, who voted for whom, who acknowledged how much. `RaftInvariant` ties peers and messages
  to it, `RaftSteps` proves that every handler keeps the tie, and `RaftSafety` and `RaftReplication`
  read the theorems off it. `RaftProgress` says what the handlers achieve besides: who is asked and
  told, who gets a vote, when elections and commits happen. `RaftLimits` shows where it all ends.
- **The key/value service** (`mit/src/kvraft`). `KvReplay` compares replay with duplicate suppression
  to plain replay, `KvServer` covers every interleaving of the apply loop with waiting handlers,
  `KvClerk` numbers and repeats calls, and `KvCluster` joins all of them with the Raft runs.
- **MapReduce** (`mit/src/mapreduce`, `mit/src/main`). `MapReduce` proves the sequential job equal to
  grouping all pairs by key; `WordCount` and `InvertedIndex` say what that makes of the two programs;
  `Words` and `Text` cover the library calls they use.
- **The etcd-based node** (`etcd-raft/raft.go`). `EtcdNode` covers publishing, snapshots and
  compaction, in 64-bit arithmetic that wraps.

How the central induction works: a log position k of term t is *dead* once a majority can no longer
acknowledge it, and *chosen* once a majority has. Nothing is both. Each later leader either has the
entry or the entry was dead before its election (`LeadersComplete`), which every handler step keeps.
Whatever a peer calls committed is chosen, so leaders, streams and replies can never disagree about it.

Where the code does less than its comments say, the model follows the code:

- The rejection loop that should find the first index of the conflicting term
  (mit/src/raft/raft.go:795-804) declares its own variable, so the index sent is 0 or -1, and the
  leader always falls back to the reply's NextIndex.
- The leader's scan for the conflicting term (mit/src/raft/raft.go:936-942) indexes its log without a
  check. `PanicsIffOverreaching` shows that this is the only panic left in any run and states exactly
  when it happens; `ScanFaultIsReachable` gives a run in which it does.
- The acknowledgement that a Get writes after its answer (mit/src/kvraft/server.go:112) can undo a
  later one. `FollowsIffTimely` gives the exact condition under which it does no harm, and
  `LateGetRepeatsAppend` an Append that takes effect twice without it.
- A reduce task reads any intermediate file that exists, also one left by an older job;
  `MapPhase` states the exact condition under which all of them read the right pairs, which every
  later run of the same job meets.
- With a snapshot count below the catch-up window a compaction can fall behind an earlier one and end
  the process; `CompactionNeverFails` and `SmallCountFails` draw the line.

## Model

| member | source | states |
|---|---|---|
| RaftSafety.StateMachineSafety | mit/src/raft/raft.go:492-523 | any two streams ever handed to applications in a run, by live or dead instances at any two moments, are prefix-related |
| RaftSafety.CommittedLogsAgree | mit/src/raft/raft.go:396-432 | the committed prefixes of any two peers at any two moments of a run are prefix-related |
| RaftSafety.LeaderCompleteness | mit/src/raft/raft.go:298-305 | whatever any peer had committed in a term up to t is a prefix of the log of every leader of term t |
| RaftSafety.EarlierChoiceIsInLeader | mit/src/raft/raft.go:694-825 | what a peer in an earlier term commits even after a leader was elected is already in that leader's log |
| RaftSafety.ElectionSafety | mit/src/raft/raft.go:859-893 | at most one peer leads a term over a whole run, crashes included |
| RaftSafety.VotesAreKept | mit/src/raft/raft.go:219-258 | terms never go back and a vote given in a term is never changed, across crashes |
| RaftSafety.LeaderAppendOnly | mit/src/raft/raft.go:1028-1052 | while a peer leads a term its log only grows |
| RaftSafety.LogMatching | mit/src/raft/raft.go:667-692 | logs of any two peers at any two moments with the same term at an index are equal through that index |
| RaftSafety.LogsWellFormed | mit/src/raft/raft.go:1036-1045 | in every reachable state slot i carries index i, terms never decrease along a log and never exceed the peer's term |
| RaftSafety.CommitWithinLog | mit/src/raft/raft.go:396-410 | no reachable commit index lies past the log |
| RaftSafety.DeliveryInOrder | mit/src/raft/raft.go:492-523 | every stream handed to an application is indexes 1, 2, 3, ... with none skipped or repeated |
| RaftSafety.PanicsIffOverreaching | mit/src/raft/raft.go:694-956 | in any run a handler panics exactly when a leader hears the rejection of a request that reached past its present log, and then it is the unguarded scan index; so no guarded panic is reachable |
| RaftSafety.CommitIsCovered | mit/src/raft/raft.go:595-607 | every append request ever sent has LeaderCommit at most PrevLogIndex plus its entries, so committing without a minimum is sound |
| RaftSafety.SuccessIsTrue | mit/src/raft/raft.go:915-922 | every success reply, the shortcut one too, says truly that leader and replier agree through NextIndex - 1 as long as the replier is in that term |
| RaftSafety.MatchIndexIsTrue | mit/src/raft/raft.go:915-935 | a leader's matchIndex for a peer in its term never exceeds what their logs agree on |
| RaftReplication.CommitsLargestAllowed | mit/src/raft/raft.go:411-432 | sorting the match indexes and taking one rank commits exactly when the rule of Figure 2 allows some index, and then the largest |
| RaftReplication.LeadersCommitByTheRule | mit/src/raft/raft.go:915-922 | in any run a leader that hears of progress records it, and commits exactly when the rule of Figure 2 then allows some index, and the largest |
| RaftReplication.LeadersCommitNoOtherWay | mit/src/raft/raft.go:897-956 | no other message moves the commit index of a leader that stays in its term |
| RaftReplication.AcceptedAppendFollowsLeader | mit/src/raft/raft.go:740-779 | an accepted append, old or new, leaves the follower equal through its last entry to the log its leader had at any moment at which that log reached so far, keeps the committed prefix, changes nothing if all was there and otherwise cuts right after the last entry |
| RaftReplication.AcceptedAppendCarries | mit/src/raft/raft.go:740-784 | whether or not its sender still leads, and also from a later term, an accepted append puts exactly its entries after prev, keeps all before, changes nothing if they were there, and else ends the log with them; the peer takes over a higher commit index and acknowledges through the last entry |
| RaftReplication.OtherAppendsAreDeclined | mit/src/raft/raft.go:718-739 | an append below the commit index is answered as a success up to there, one that does not match is refused, and either way log and commit index stay and the sender is pointed to the commit index |
| RaftReplication.OldAppendChangesNothing | mit/src/raft/raft.go:667-692 | a repeated or older append, already acknowledged in this term, leaves the log as it is |
| RaftReplication.BoundedRepair | mit/src/raft/raft.go:785-818 | after a rejection the next append is accepted, and that one or one more gives the follower the whole log and commit index of the leader and the leader the knowledge of it; one is enough when the rejected index was two or more above the commit index |
| RaftReplication.RepairInAnyRun | mit/src/raft/raft.go:918-947 | the same for every leader and follower of one term in any run |
| RaftProgress.LeaderCountsItself | mit/src/raft/raft.go:1036-1046 | in any run a leader with an entry of its own term at the end of its log counts itself for all of it |
| RaftProgress.LeaderHasCommitted | mit/src/raft/raft.go:411-432 | in any run a leader has committed every entry of its term that one less than a majority of others is known to have |
| RaftProgress.StartTellsAll | mit/src/raft/raft.go:1028-1052 | in any run a leader puts a command at the end of its log, counts itself, and sends each other peer exactly one request with all from its next index on |
| RaftProgress.HeartbeatTellsAll | mit/src/raft/raft.go:589-641 | in any run the timer of a leader sends each other peer exactly one request, with the commit index and all from its next index on, and nothing else |
| RaftProgress.CampaignAsksAll | mit/src/raft/raft.go:543-586 | in any run the timer of any other peer makes it a candidate of the next term with its own vote, which asks each other peer exactly once, naming the end of its log |
| RaftProgress.VoteRule | mit/src/raft/raft.go:828-849 | in any run a follower of the term, or any peer behind it, grants a vote exactly if it has not voted for another in that term and the log the candidate had is at least as recent as its own |
| RaftProgress.RequestHasCampaign | mit/src/raft/raft.go:543-586 | every vote request stems from a moment at which its sender was a candidate of that term |
| RaftProgress.RivalsRefuse | mit/src/raft/raft.go:859-870 | a candidate or leader of the term refuses its vote |
| RaftProgress.ElectionIsDecided | mit/src/raft/raft.go:870-893 | in any run an answer makes a candidate leader exactly when it completes a majority of yes, and follower exactly when it completes a majority of no; a new leader tells every other peer at once, from the end of its log |
| RaftProgress.StaleSenderStepsDown | mit/src/raft/raft.go:958-989 | a request of an earlier term is refused with the current term, and a sender still in its term steps down on hearing so |
| RaftSteps.StepSound | mit/src/raft/raft.go:958-989 | handling any message keeps the invariant: the peer and all it sends stay explained by a history that only grows, unless the scan index fails |
| RaftSteps.TickSound | mit/src/raft/raft.go:527-541 | an election or heartbeat timeout never panics and keeps the invariant |
| RaftSteps.StartSound | mit/src/raft/raft.go:1028-1052 | taking a client command never panics and keeps the invariant |
| RaftSteps.ApplySound | mit/src/raft/raft.go:492-523 | handing an entry to the application never panics and keeps the invariant |
| RaftSteps.BootSound | mit/src/raft/raft.go:1203-1237 | a peer that comes back from its disk is sound for the same history |
| RaftSteps.SplicedIsMerge | mit/src/raft/raft.go:740-754 | finding the first conflict and splicing there equals: keep the log if it holds the leader's entries, else take the leader's prefix |
| RaftSteps.QuorumIndexChosen | mit/src/raft/raft.go:411-432 | an index of the current term at the majority rank of the match indexes is chosen for good |
| RaftSteps.RejectionSound | mit/src/raft/raft.go:936-947 | after a rejection the leader goes to the NextIndex the reply names, or the scan index fails |
| RaftActions.WinnerIsComplete | mit/src/raft/raft.go:298-305 | the winner of an election has every position of earlier terms that is not dead |
| RaftActions.OneWinner | mit/src/raft/raft.go:876-887 | no two quorums of one term elect different peers |
| RaftActions.LateAppendIsDead | mit/src/raft/raft.go:1028-1052 | what a deposed leader appends after a later election can never be chosen |
| RaftActions.ElectKeepsInv | mit/src/raft/raft.go:1168-1183 | an election keeps the invariant over histories |
| RaftActions.AcceptKeepsInv | mit/src/raft/raft.go:740-779 | taking over a leader's prefix and acknowledging it keeps the invariant over histories |
| RaftCore.ChosenIsInLaterLeaders | mit/src/raft/raft.go:298-305 | a chosen position is in the log of every later leader |
| RaftCore.ChosenAgree | mit/src/raft/raft.go:396-432 | any two chosen prefixes are prefix-related |
| RaftCluster.NextSound | mit/src/raft/raft.go:1080-1107 | every event, a crash inside a handler too, keeps the cluster explained by a history that only grows |
| RaftCluster.Exec | mit/src/raft/raft.go:1080-1107 | the state after any run keeps the shape the handlers rely on and the number of peers |
| RaftCluster.ExecStep | mit/src/raft/raft.go:1080-1107 | a run starts in the initial state and goes on event by event |
| RaftCluster.BehaviourSound | mit/src/raft/raft.go:1080-1107 | every state of every run is explained by a history |
| RaftHandlers.ConflictRange | mit/src/raft/raft.go:667-680 | the first conflict lies among the entries, no further than one past the log; everything before it agrees, the entry itself does not |
| RaftHandlers.Spliced | mit/src/raft/raft.go:681-692 | the spliced log covers all the entries and has index i in slot i |
| RaftHandlers.ScanRange | mit/src/raft/raft.go:936-942 | the scan fails exactly when its first index lies past the log |
| Quorums.QuorumsMeet | mit/src/raft/raft.go:991 | any two majorities share a peer |
| Quorums.MajorityIsLeast | mit/src/raft/raft.go:991 | a majority is the least number that is more than half |
| Quorums.RankIsGreatestReached | mit/src/raft/raft.go:411-425 | the element at rank q of the descending order is the greatest value that q elements reach |
| RaftLimits.ScanFaultIsReachable | mit/src/raft/raft.go:936-942 | a run of three peers ends with a rejection that makes its leader scan past its log |
| RaftLimits.CampaignSavedIffPeers | mit/src/raft/raft.go:995-1003 | a campaign leaves disk and memory equal exactly in clusters of two or more |
| RaftPeer.SortReverse | mit/src/raft/raft.go:411-425 | the loop produces the descending order of the match indexes |
| RaftPeer.CountGranted | mit/src/raft/raft.go:1112-1127 | the loop counts exactly the peers that said yes |
| RaftPeer.Raft.constructor | mit/src/raft/raft.go:1203-1237 | a new peer has the initial values or what its persister holds |
| RaftPeer.Raft.Save | mit/src/raft/raft.go:219-241 | term, vote and log reach the persister; nothing else changes |
| RaftPeer.Raft.ResetTo | mit/src/raft/raft.go:1129-1146 | a new term clears the vote, the same term keeps it; votes and progress are cleared |
| RaftPeer.Raft.ToFollower | mit/src/raft/raft.go:1148-1155 | the follower of a term |
| RaftPeer.Raft.ToCandidate | mit/src/raft/raft.go:1157-1166 | the candidate of the next term, or the panic of a leader |
| RaftPeer.Raft.ToLeader | mit/src/raft/raft.go:1168-1183 | the leader with all next indexes just past its log, or the panic of a follower |
| RaftPeer.Raft.PollVote | mit/src/raft/raft.go:1112-1127 | the first answer of a peer counts; the result is the number of yes votes |
| RaftPeer.Raft.BcastRequestVote | mit/src/raft/raft.go:543-586 | saved first, then one request to every other peer |
| RaftPeer.Raft.RunCampaign | mit/src/raft/raft.go:995-1003 | agrees with the campaign proved sound |
| RaftPeer.Raft.BcastAppend | mit/src/raft/raft.go:589-641 | saved first, then every other peer gets what follows its next index, or the panic about prevLogIndex |
| RaftPeer.Raft.OnTick | mit/src/raft/raft.go:527-541 | a leader sends heartbeats, any other peer campaigns; never a panic, and the peer and all it sends stay explained, by a history in which only its own part has grown |
| RaftPeer.Raft.AdvanceCommit | mit/src/raft/raft.go:396-410 | the commit index never goes back; past the log it panics |
| RaftPeer.Raft.UpdateCommit | mit/src/raft/raft.go:411-432 | agrees with the commit rule proved largest |
| RaftPeer.Raft.SearchConflict | mit/src/raft/raft.go:667-680 | the loop finds the first conflict |
| RaftPeer.Raft.AppendLog | mit/src/raft/raft.go:681-692 | cuts at the first new index and appends, or panics when that is committed |
| RaftPeer.Raft.CheckLog | mit/src/raft/raft.go:1239-1246 | true exactly when every slot carries its index |
| RaftPeer.Raft.TakeEntries | mit/src/raft/raft.go:740-754 | the log becomes the splice, or the panic about a committed conflict |
| RaftPeer.Raft.Answer | mit/src/raft/raft.go:700-705 | the reply leaves, or the deferred panic about a next index past the log |
| RaftPeer.Raft.Take | mit/src/raft/raft.go:740-784 | agrees with the accepted append proved sound |
| RaftPeer.Raft.Refuse | mit/src/raft/raft.go:785-818 | agrees with the rejection proved sound |
| RaftPeer.Raft.OnAppend | mit/src/raft/raft.go:694-825 | agrees with the append handler proved sound, shortcut included |
| RaftPeer.Raft.OnVoteRequest | mit/src/raft/raft.go:828-845 | a vote goes to an up-to-date candidate if none was given to another |
| RaftPeer.Raft.OnVoteReply | mit/src/raft/raft.go:870-893 | wins, loses or waits as the vote handler proved sound |
| RaftPeer.Raft.Scan | mit/src/raft/raft.go:936-942 | the loop finds the last entry of the term below a point, or runs past the log |
| RaftPeer.Raft.OnAppendReply | mit/src/raft/raft.go:905-949 | agrees with the reply handler proved sound up to the scan index |
| RaftPeer.Raft.AsFollower | mit/src/raft/raft.go:828-857 | agrees with the follower's dispatch proved sound |
| RaftPeer.Raft.AsCandidate | mit/src/raft/raft.go:859-895 | agrees with the candidate's dispatch proved sound |
| RaftPeer.Raft.AsLeader | mit/src/raft/raft.go:897-956 | agrees with the leader's dispatch proved sound up to the scan index |
| RaftPeer.Raft.HandleUnsaved | mit/src/raft/raft.go:958-989 | agrees with Step before the deferred save: later terms demote, earlier terms are answered |
| RaftPeer.Raft.OnMessage | mit/src/raft/raft.go:958-989 | agrees with Step, all saved before an answer leaves; panics exactly on an overreaching rejection, and otherwise keeps the peer and its messages explained |
| RaftPeer.Raft.OnStart | mit/src/raft/raft.go:1028-1052 | a leader reports the index and term at which the command then is in its log, others refuse; never a panic, and the peer stays explained |
| RaftPeer.Raft.Serve | mit/src/raft/raft.go:1095-1107 | one round of the serving loop does what the handlers say, panics exactly on an overreaching rejection, and keeps the peer explained for the next round |
| RaftPeer.Raft.OnCommitNotice | mit/src/raft/raft.go:492-523 | a notice delivers exactly the entries not yet delivered through it, in order, which is that many single apply steps of the runs; an old one delivers nothing |
| RaftPeer.Raft.ApplySome | mit/src/raft/raft.go:492-523 | up to k committed entries go out, as k apply steps of the runs |
| RaftPeer.Raft.HandleAndApply | mit/src/raft/raft.go:958-989 | what the application has when a peer dies inside a handler is what the runs say |
| RaftSystem.System.constructor | mit/src/raft/raft.go:1203-1237 | new peer objects form the initial cluster |
| RaftSystem.System.Handle | mit/src/raft/raft.go:1095-1107 | any event done by the objects in place, crashes included, is the step of the runs |
| RaftSystem.System.Run | mit/src/raft/raft.go:1095-1107 | any sequence of events done by the objects ends in the state of that run, so the run theorems hold of them; in particular no two of their streams disagree |
| KvReplay.ExactlyOnce | mit/src/kvraft/server.go:140-176 | for orderly logs, replay with duplicate suppression gives the database of plain replay with repeats removed |
| KvReplay.ExactlyOnceIffOrderly | mit/src/kvraft/server.go:140-176 | each request takes effect at its first occurrence and nowhere else exactly when first occurrences per client come in increasing order |
| KvReplay.ExecutedIffExceeds | mit/src/kvraft/server.go:140-146 | an operation takes effect exactly when it exceeds all earlier requests of its client |
| KvReplay.ReplayAck | mit/src/kvraft/server.go:165-174 | the acknowledgement table holds exactly the greatest request number of every client |
| KvReplay.RepeatsChangeNothing | mit/src/kvraft/server.go:140-176 | any number of retries of applied requests leaves the whole store unchanged |
| KvReplay.KeyHoldsItsWrites | mit/src/kvraft/server.go:165-175 | after any orderly log a key holds the value of its last Put followed by the values of the Appends after it in log order, each request counted at its first occurrence; without either it is absent |
| KvReplay.GetWriteHarmlessIff | mit/src/kvraft/server.go:109-114 | the extra acknowledgement of a Get changes nothing exactly while no later request of its client was applied |
| KvServer.PanicsIffJump | mit/src/kvraft/server.go:154-162 | in every interleaving the unordered-index panic fires exactly when an index above 1 is not the one after the last |
| KvServer.AlwaysTrue | mit/src/kvraft/server.go:148-191 | when messages come with indexes 1, 2, 3, ..., no interleaving panics and a full slot i holds the operation applied at i |
| KvServer.HeldIffNotTaken | mit/src/kvraft/server.go:177-189 | once an index has been applied, its slot holds that operation exactly until a waiter takes it |
| KvServer.FirstWaiterIsTold | mit/src/kvraft/server.go:85-91 | the first waiter on an applied index is told committed exactly if its entry is the one applied there |
| KvServer.FollowsIffTimely | mit/src/kvraft/server.go:102-116 | in every interleaving the store is the replay of the applied operations at every moment exactly when every Get finishes before a later request of its client is applied |
| KvServer.LateGetRepeatsAppend | mit/src/kvraft/server.go:109-114 | an interleaving in which a Get finishes too late and a retried Append takes effect twice |
| KvServer.AnswersAreJustified | mit/src/kvraft/server.go:73-131 | a handler that finds its entry in slot i had it applied at i, and reads the replay of a prefix that includes it |
| KvServer.AnswersOnce | mit/src/kvraft/server.go:73-100 | after a waiter took an applied index, its slot stays empty for ever |
| KvServer.RaftKV.constructor | mit/src/kvraft/server.go:211-245 | an empty server, faithful to the empty log |
| KvServer.RaftKV.ApplyMessage | mit/src/kvraft/server.go:154-191 | one round of the apply loop, or its panic |
| KvServer.RaftKV.ApplyStream | mit/src/kvraft/server.go:148-195 | messages that continue where the server stands never make it panic and leave the replay of all operations |
| KvServer.RaftKV.FindSlot | mit/src/kvraft/server.go:78-84 | the slot of an index is created once and never overwritten |
| KvServer.RaftKV.TakeResult | mit/src/kvraft/server.go:87-91 | committed exactly when the slot held the handler's own entry; the slot is then empty |
| KvServer.RaftKV.FinishGet | mit/src/kvraft/server.go:108-115 | reads the value of the replayed prefix; the server is unchanged exactly when no later request was applied |
| KvClerk.Clerk.Call | mit/src/kvraft/client.go:51-98 | a call takes the next number; all its attempts, going round the servers, carry that one request, and the first OK and nothing else ends it |
| KvCluster.NothingInvented | mit/src/raft/raft.go:453-480 | every command in any log, message or stream of a run was handed in by a client before |
| KvCluster.StreamsOnlyGrow | mit/src/raft/raft.go:492-523 | whatever was handed to an application stays, for the rest of the run, the beginning of some stream |
| KvCluster.OkIsAnswered | mit/src/kvraft/server.go:73-131 | a handler can answer OK only to a request that some server has applied |
| KvCluster.ClerksAreDisciplined | mit/src/kvraft/client.go:51-98 | with clerks that number their calls and repeat each until an OK, no request enters a log before all lower requests of its client were applied, however late or often requests land |
| KvCluster.LowerRequestsComeFirst | mit/src/kvraft/client.go:81-98 | in every stream of such a service every lower request of a client precedes a request |
| KvCluster.StreamsAreOrderly | mit/src/kvraft/client.go:51-98 | numbering and repeating until an OK make every stream orderly |
| KvCluster.ServiceIsExactlyOnce | mit/src/kvraft/server.go:148-195 | whatever clients and cluster do, the replay of every stream is exactly-once |
| KvCluster.ReplicasAgree | mit/src/kvraft/server.go:148-195 | two servers that applied equally many entries, at any two moments, hold the same store |
| KvCluster.ServersAreExactlyOnce | mit/src/kvraft/server.go:73-191 | a server fed with the messages and indexes of its stream, in any interleaving with its handlers, never panics about an unordered index, and is exactly-once as long as Gets finish in time |
| MapReduce.Job.DoMap | mit/src/mapreduce/common_map.go:66-93 | writes each non-empty part of the pairs, in order, to its own file, and touches no other file |
| MapReduce.Job.DoReduce | mit/src/mapreduce/common_reduce.go:42-87 | writes each key of its input files once with the reduction of all its values in file order, and touches no other file |
| MapReduce.Job.Merge | mit/src/mapreduce/master_splitmerge.go:14-48 | fails exactly when an output file is missing; else lists the union of the outputs in key order |
| MapReduce.Job.MapPhase | mit/src/mapreduce/master.go:62-65 | the map phase leaves every reduce task the right pairs exactly if, wherever a map task has none for it, no older file with records lies in that place |
| MapReduce.Job.Sequential | mit/src/mapreduce/master.go:55-75 | for all files, functions, hashes and nReduce of at least 1, and under that condition, the merged output is all pairs grouped by key and reduced, in key order, and another run of the job meets the condition again |
| MapReduce.OneOrderedListing | mit/src/mapreduce/master_splitmerge.go:36-48 | there is one such listing, so the output does not depend on nReduce, the hash or the order in which maps are walked |
| MapReduce.PartitionValues | mit/src/mapreduce/common_map.go:69-71 | all values of a key go to one reduce task, in order, and none to another |
| MapReduce.ConcatJoins | mit/src/mapreduce/common_reduce.go:43-70 | map outputs follow one another in task order |
| MapReduce.MergedCovers | mit/src/mapreduce/master_splitmerge.go:17-35 | reading the reduce outputs one after another gives each key of their tasks its reduction over all pairs |
| MapReduce.MapsDoneIffNothingStale | mit/src/mapreduce/common_reduce.go:43-52 | the reduce tasks find what they should exactly if nothing stale was in the way |
| MapReduce.OwnTaskWritten | mit/src/mapreduce/common_map.go:69-90 | a map task replaces what lay in the place of a non-empty part and leaves the place of an empty one |
| MapReduce.ReduceNamesDistinct | mit/src/mapreduce/common.go:36-38 | no two tasks share an intermediate file |
| MapReduce.MergeNamesDistinct | mit/src/mapreduce/common.go:41-43 | no two reduce tasks share an output file |
| MapReduce.IntermediateIsNotOutput | mit/src/mapreduce/common.go:36-43 | no intermediate file is an output file |
| Words.FieldsCountPlaces | mit/src/main/wc.go:18-20 | splitting finds a word exactly as often as it stands in the text as a whole word |
| WordCount.RunMapF | mit/src/main/wc.go:16-25 | the loop pairs every word with "1" |
| WordCount.RunReduceF | mit/src/main/wc.go:30-41 | the loop sums the values in a 64-bit int, malformed ones as 0 and those out of range as the nearest int |
| WordCount.GroupsCountWords | mit/src/main/wc.go:16-41 | grouping and reducing yields for each word its number of places over all texts, as an int holds it, and no other key |
| WordCount.CountsAreExact | mit/src/main/wc.go:30-41 | the number printed is the number of places exactly below 2^63 |
| WordCount.Count | mit/src/main/wc.go:47-61 | the program, run as often as one likes, lists every word once, in order, with its number of places over all files |
| InvertedIndex.UniqueOk | mit/src/main/ii.go:33-42 | deduplication keeps exactly the words, each once |
| InvertedIndex.UniqueKeepsOrder | mit/src/main/ii.go:33-42 | what is kept of a beginning stays in front, so first occurrences are kept in order |
| InvertedIndex.SliceUnique | mit/src/main/ii.go:33-42 | the loop keeps first occurrences in order |
| InvertedIndex.RunMapF | mit/src/main/ii.go:18-31 | the loop pairs every distinct word with the document |
| InvertedIndex.RunReduceF | mit/src/main/ii.go:47-61 | the loop writes the count and the sorted names with commas between |
| InvertedIndex.TagIffHeld | mit/src/main/ii.go:18-31 | a document is listed for a word once if the word stands in it, else not |
| InvertedIndex.GroupsIndex | mit/src/main/ii.go:18-61 | grouping and reducing yields for each word the count and ascending list of the documents that hold it |
| InvertedIndex.HoldingIsExact | mit/src/main/ii.go:18-61 | with distinct names that list has exactly the documents that hold the word, each once |
| InvertedIndex.LineTellsDocuments | mit/src/main/ii.go:47-61 | names without commas can be read back from a line |
| InvertedIndex.Index | mit/src/main/ii.go:67-81 | the program, run as often as one likes, lists every word once, in order, with its documents |
| Text.AtoiItoa | mit/src/main/wc.go:30-41 | printing and reading an int gives it back |
| Text.ValueJoins | mit/src/main/wc.go:30-41 | numerals are read in decimal: what stands in front of k digits counts 10^k times |
| Text.ItoaCanonical | mit/src/main/wc.go:30-41 | a printed number has no leading zero |
| Text.LexLeIff | mit/src/mapreduce/master_splitmerge.go:36-39 | the order of the listing is dictionary order: a prefix first, else by the first difference |
| Text.SplitJoin | mit/src/main/ii.go:54-59 | cutting a joined list at its commas gives the names back |
| EtcdNode.AppliesExactlyTheRest | etcd-raft/raft.go:129-141 | under wrapping arithmetic a batch is refused exactly when it would skip an entry, and otherwise exactly the new entries remain |
| EtcdNode.LastIndexRefusesAll | etcd-raft/raft.go:129-141 | at the last 64-bit index every batch is refused, also one with nothing new |
| EtcdNode.RunsIffContiguous | etcd-raft/raft.go:146-192 | a node whose consumer takes everything, which is not removed, and whose snapshot count is at least the window, runs through exactly the contiguous runs, overlaps and repeats included, and has then sent each non-empty entry through the furthest batch once and in order, with the marker right after the last replayed entry |
| EtcdNode.ExactlyOnce | etcd-raft/raft.go:146-192 | at any end of any run without snapshots, death included, the output is exactly that of the log from the start to appliedIndex, or all but its last marker when stopped |
| EtcdNode.DiesIffNotJoined | etcd-raft/raft.go:129-141 | a running node dies of a gap or a stale snapshot exactly when the next turn does not join on to the furthest index so far |
| EtcdNode.RemovalStops | etcd-raft/raft.go:166-176 | a contiguous run without snapshots goes on until it meets the removal of this node and then stops right before that index, with everything before it sent |
| EtcdNode.ContiguousNeverDies | etcd-raft/raft.go:408-428 | with a snapshot count of at least the window contiguous runs never end in death |
| EtcdNode.EveryRun | etcd-raft/raft.go:408-428 | with snapshots too, and however a run ends, the output is a sequence of disjoint ascending log segments that end at appliedIndex, which while running is the furthest index seen; snapshotIndex never exceeds appliedIndex |
| EtcdNode.MarkerAtMostOnce | etcd-raft/raft.go:182-189 | the end-of-replay marker is sent at most once in any run, however it ends, and at the start when there was nothing to replay |
| EtcdNode.CompactsWindowBack | etcd-raft/raft.go:335-363 | the subtraction never wraps; a snapshot is taken exactly when more than the count has been applied since the last; with a count of at least the window each compaction is exactly the window below appliedIndex and strictly above the previous snapshot and compaction |
| EtcdNode.CompactionNeverFails | etcd-raft/raft.go:335-363 | with a snapshot count of at least the window a run can die only of a gap or a stale snapshot |
| EtcdNode.SmallCountFails | etcd-raft/raft.go:335-363 | with any smaller count some contiguous run dies of a compaction |
| EtcdNode.RaftNode.constructor | etcd-raft/raft.go:226-230 | progress starts at the stored snapshot, with the marker sent if there was nothing to replay |
| EtcdNode.RaftNode.PublishEntries | etcd-raft/raft.go:146-192 | agrees with the publishing proved exactly-once, wherever it is stopped |
| EtcdNode.RaftNode.PublishSnapshot | etcd-raft/raft.go:315-331 | fails exactly for a snapshot that is not ahead; otherwise all progress moves to it |
| EtcdNode.RaftNode.MaybeTriggerSnapshot | etcd-raft/raft.go:335-363 | agrees with the compaction rule proved above |
| EtcdNode.RaftNode.Handle | etcd-raft/raft.go:408-428 | one turn of the event loop agrees with the step of the runs above |
| EtcdNode.RaftNode.Serve | etcd-raft/raft.go:403-438 | the event loop ends in the state of the run above |

## Left out

- Messages are values taken when they are sent: Go slices of the log that share memory with a request still in flight are not modelled.
- Integers of the Raft and key/value parts are unbounded: overflow of terms, indexes and request numbers is not modelled.
- Clusters of one Raft peer: the run theorems are for two or more, because a one-node campaign returns without saving; `RaftLimits.CampaignSavedIffPeers` marks the line.
- Timers, random timeouts, liveness, the known leader's number and logging of the Raft peer; a timeout may fire at any moment instead.
- A message addressed to an earlier instance of a crashed peer may reach the new one, which allows more than the source does.
- RaftPeer.Raft.CheckLog: the panic for a wrong slot is left out of the handlers' faults, because the splice is proved to pass the check.
- RaftReplication.BoundedRepair: covers the exchange without other messages in between, as the repair argument is stated.
- KvCluster.ServiceIsExactlyOnce: speaks of the replayed streams; the extra acknowledgement of a Get is covered by KvCluster.ServersAreExactlyOnce.
- KvCluster.ClerksAreDisciplined: client numbers, drawn at random in the source, are taken as different, and a clerk serves one call at a time.
- Channel blocking and the one-second timeout of a waiting handler: a waiter that gives up is one that never receives.
- MapReduce.Job.Sequential: takes the inputs' contents as given, so a job whose inputs are its own intermediate files is not covered; without reduce tasks the source divides by zero.
- Encoding by gob and JSON is taken as the identity, `ihash` as any function, `unicode.IsLetter` as any predicate, and the text format of the merged file is not modelled.
- EtcdNode.EveryRun: is for logs shorter than 2^64 - 1, the range in which `appliedIndex + 1` does not wrap.
- The node's configuration state, transport peers, write-ahead log and snapshot data of etcd-raft/raft.go; only their effect on indexes and publishing is modelled.
- etcd-raft/kvstore.go, its HTTP front end and the etcd libraries are not part of this model, apart from the index checks of the in-memory storage.
- mit/src/mapreduce/schedule.go and the distributed master, because its barrier depends on goroutine scheduling.
- mit/src/labrpc, replaced by the set of all messages ever sent; the Paxos, shard, lock and view services, whose handlers are stubs.
