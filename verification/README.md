# A verified model of the `rsm` consensus package

`rsm` is a Raft implementation written as deterministic state machines: a node that answers messages, ticks and
proposals, a lossy and reordering network, a driver that runs several nodes on it, and modules that study log
repair, timers, compaction, client sessions and membership. This project models that code and proves what it is
for. Everything is stated for every cluster size, every schedule of deliveries, delays, losses, timeouts, writes,
crashes and restarts, and every length of run, unless a row below says otherwise.

## How it is organised

* **Values and code.** `Log.dfy`, `Rpc.dfy` and `NodeSpec.dfy` give the log, the messages and one node as functions
  from a state and an input to the next state and the messages sent, or to the exception raised. `Node.dfy`
  is the node in its own form, a class whose handlers edit fields and the log in place, proved to do exactly what
  those functions say. `Net.dfy`, `ClusterClass.dfy`, `Timing.dfy`, `Repair.dfy`, `Reconcile.dfy`, `Snapshot.dfy`,
  `Machine.dfy`, `Client.dfy` and `Membership.dfy` hold the other classes and loops.
* **The cluster as a transition system.** `Cluster.dfy`: any message ever sent may arrive at any time, again, or
  never, and a timer may fire at any reading of the clock. That covers whatever the network and the driver do.
* **The safety proof.** `Invariant.dfy` states what every reachable cluster satisfies over a record of the run that
  the code does not keep: who stood with what log, how each vote was cast, what each term's leader has written,
  which prefixes were acknowledged and which indices were committed by which majority. `Keeping.dfy`,
  `Actions.dfy`, `Steps.dfy` and `Handlers.dfy` prove that every handler keeps it without raising; `Commit.dfy`
  derives Leader Completeness by induction on terms; `Safety.dfy` states the theorems over runs, and `Driver.dfy`
  that the checks the driver makes at every tick cannot fail.
* **What each operation promises.** `Timers.dfy`, `Voting.dfy`, `Writing.dfy`, `Restarts.dfy` and `Install.dfy` say of
  the node's operations, from the outside and on every state, what they must do and must leave alone, and carry it to
  whole runs; `Traffic.dfy` and `Acts.dfy` say in order what a run, or a trial, puts on the wire.
* **What else was found true, or false.** `Matching.dfy` and `Retry.dfy` (what leaders know, and the repair of a
  log), `Batching.dfy`, `Straying.dfy` and `Witness.dfy` (when applied commands agree, and a run where they do not),
  `Prevote.dfy`, `Electing.dfy` and `Jam.dfy` (when pre-vote shuts out every leader), `Trail.dfy` (a follower after a
  snapshot). `Paths.dfy` builds runs event by event.

Random draws (election timeouts, losses, delays) are parameters or arbitrary values in range. A call that draws
several timeouts keeps only the last, which is the parameter `span`.

## Three results worth knowing before reading the table

**State Machine Safety is conditional, and this is the condition.** A follower commits up to its own last index
(`rsm/node.py:400-401`), not up to the last entry of the message. A refusal of an append from an old term carries
no conflict fields (`rsm/node.py:318-326`); if it reaches the same node leading a later term, that leader starts
over from its first entry, and an append cut at the batch limit can announce a commit index it does not carry. The
follower then commits its own stale tail. An accepted append *strays* when all it carries is shared already and what
it announces, as far as the follower's log goes, is not: its end is at or below the agreement of the two logs, and
the agreement below both the announced index and the length of the follower's log. That can be read off before the
message is handled, and `Batching.FollowsOrStrays` proves that a follower commits a prefix of its leader's log
exactly when the append does not stray. Over runs, `Straying.SafeExactly` proves that all applied sequences at all
moments are comparable exactly when nothing strays, and `Straying.StraySetsApart` that the first stray already sets
its sender and its receiver apart. Appends that announce no more than they carry never stray
(`Straying.TameNeverStrays`), and batches as long as the logs make all appends so (`Straying.WideIsTame`).
`Witness.SafetyCanFail` is a complete run, with three nodes, batches of one, and no crash, at the end of which the
driver's own check raises. Election Safety, Log Matching and Leader Completeness need no condition.

**Pre-vote can shut out every leader.** The documentation of the pre-vote says that a node asking one stays a
follower (`rsm/node.py:156-157`). The code leaves the role as it was, so a candidate whose election failed asks as a
candidate, and only a follower counts the answers (`rsm/node.py:375`). `Prevoting.JamIsForever`: in any run, once
every node is in pre-vote, a candidate and in one term, nobody ever leads again without a restart; nothing else is
asked of the nodes or of what is in flight. `Jamming.ACanJam` reaches that state without any fault. It is not the
only such state: a restarted node that spent its vote of the term on itself is a follower again, but one whose log
is older than the others' is answered by no majority. `Electing.LeaderCanComeExactly` covers both: when every node
is up and has spent its vote of the term on itself, a leader can come without a restart exactly when some follower's
log is no older than those of a majority. The model follows the code.

**`reconcile_by_conflict_term` need not end.** With `b` the follower's snapshot index, a run of refusals inside the
follower's log goes down to `b` and then, if that is refused, back to the log's end. `Reconciling.EndsExactly`
proves for any two logs that the loop ends exactly when the follower accepts one of the positions the loop can come
to: an end of either log, or the position before a run of one term. With an uncompacted follower it always ends;
with one compacted out of a log that matches the leader's it ends exactly when they agree at `b`
(`Reconciling.CompactedEndsExactly`). `Reconciling.CompactedFollowerCycles` is an input on which it does not.

Elsewhere the retry after a refusal lands on the agreement point whenever the leader holds the conflicting term,
but also whenever the follower's divergent suffix up to the probe is a single term; `Retry.RetryWindow` states the
exact condition.

## Model

| member | source | states |
|---|---|---|
| Logs.Log.Make | rsm/log.py:71-79 | a log is built exactly when every entry is in its place and terms never go backwards; otherwise ConfigError |
| Logs.Log.At | rsm/log.py:111-117 | the entry at an index; Compacted at or below the snapshot, NotFound past the end |
| Logs.Log.TermAt | rsm/log.py:119-130 | the term at an index exactly where it is known, the two boundary positions included; otherwise which refusal |
| Logs.Log.Append | rsm/log.py:159-169 | takes entries in order until one does not follow or goes back in term, and leaves those before it in place |
| Logs.AppendsExactly | rsm/log.py:159-169 | an entry is appended exactly where that leaves every entry in its place and no term below the one before it |
| Logs.AppendsInOrder | rsm/log.py:159-169 | whatever is appended, a log in order stays so, keeps what it had and gains a prefix of what was given, all of it exactly when nothing was raised |
| Logs.Log.TruncateFrom | rsm/log.py:171-185 | drops an index and everything above, says how many went, and refuses below the snapshot |
| Nodes.Node.constructor | rsm/node.py:75-106 | the state of a node nothing has reached yet |
| Nodes.Node.Make | rsm/node.py:100-106 | a node is built exactly when it is one of distinct members |
| Nodes.Node.StepDown | rsm/node.py:132-141 | a later term is adopted and clears the vote; the same term keeps it |
| Nodes.Node.StandForElection | rsm/node.py:143-171 | with pre-vote the node only asks and only its timer and its own pre-vote change |
| Timers.NotDueYet | rsm/node.py:268-278 | a node that reads the clock before its beat or its deadline is due moves its clock and does nothing else |
| Timers.BeatsWhenDue | rsm/node.py:268-275 | a leader whose beat is due sends each peer its next append, once, and is next due three ticks later |
| Timers.StandsWhenDue | rsm/node.py:143-193 | anyone else whose time is over asks each peer, once, in the next term: having taken that term, or under pre-vote nothing but a new deadline |
| Timers.TimerMovesExactly | rsm/node.py:121-130 | a message starts the election timer anew exactly when it brings a later term, comes from the leader, is given a vote or wins a pre-vote |
| Timers.HearingFollows | rsm/node.py:382-390 | a node that hears a leader of its own or a later term takes the term, the leader's name and a new deadline, whatever becomes of the append |
| Timers.HeardWaits | rsm/node.py:268-278 | so it stands at no tick before the time it then drew is over |
| Timers.EarlyTimersDoNothing | rsm/node.py:268-278 | in a run, a timer read before it is due changes nothing in the cluster but that node's clock |
| Timers.HeardIsQuiet | rsm/node.py:121-130 | in a run, no timer of a node stirs it within the shortest time it could have drawn after it heard its leader, whatever else arrives |
| Traffic.DriverKeepsTheLeash | rsm/cluster.py:132-148 | so under the driver's clock and the shipped timeouts, not for ten ticks |
| Nodes.Node.Candidacy | rsm/node.py:173-193 | one more term, the node's own vote, and a request to every peer, or office at once if it is alone |
| Nodes.Node.TakeOffice | rsm/node.py:195-214 | a leader writes one empty entry of its term, presumes followers level, and replicates |
| Nodes.Node.ProposeCommand | rsm/node.py:216-225 | a write lands at the next index of a leader's log, and only of a leader's |
| Writing.WriteLands | rsm/node.py:216-225 | the index answered is that of the new last entry, which is the write in the leader's term, above an unchanged log |
| Writing.WriteStays | rsm/node.py:216-225 | in a run, a write stays at its index for as long as the leader that took it leads that term |
| Writing.CommittedWriteIsApplied | rsm/cluster.py:171-178 | once its leader has committed its index, a write is what every node applies there, as long as nothing strays |
| Writing.LoneCommits | rsm/node.py:216-225 | a leader that is its whole cluster commits and applies a write as it takes it |
| Writing.LoneLeads | rsm/node.py:173-214 | and a node that is its whole cluster leads as soon as its time is over, pre-vote or not |
| Nodes.Node.ReplicateToAll | rsm/node.py:227-266 | each follower is sent what it misses up to a batch, a heartbeat, or the snapshot when the entries are gone |
| Snapshots.SendsAlike | rsm/node.py:227-266 | what a leader sends does not depend on what it has compacted, unless the follower needs that, and then it is the snapshot |
| Nodes.Node.Advance | rsm/node.py:268-278 | a leader beats when its beat is due, anyone else stands when its deadline has passed |
| Nodes.Node.Receive | rsm/node.py:280-310 | every kind of message passes the term check before its handler; new state, replies and exception as specified, and the state an exception leaves behind |
| Nodes.Node.ReceiveRequestVote | rsm/node.py:329-360 | one vote a term, only to a log at least as up to date; a pre-vote is answered and recorded nowhere |
| Nodes.Node.ReceiveVote | rsm/node.py:362-371 | granted votes are counted by candidates only, and a majority takes office |
| Nodes.Node.ReceivePreVote | rsm/node.py:373-380 | pre-votes are counted by followers that asked, and a majority starts the real election |
| Voting.VoteIsGivenExactly | rsm/node.py:329-360 | exactly who is given a vote, what the answer says, and that giving or refusing changes the vote and the timer and nothing else within a term |
| Voting.AskingChangesNothing | rsm/node.py:333-347 | a pre-vote request changes nothing and is answered yes only for a later term and a log no older |
| Voting.MajorityMakesALeader | rsm/node.py:195-214 | a vote makes a leader exactly when it is granted to a candidate and completes more than half; the leader opens with its empty entry to every peer |
| Voting.MajorityMakesACandidate | rsm/node.py:373-380 | a granted pre-vote makes a follower that asked stand exactly when it completes more than half |
| Voting.OneVoteATerm | rsm/node.py:348-360 | all votes a node ever gives in one term of a run, restarts included, go to one candidate |
| Voting.StaleIsTold | rsm/node.py:280-327 | a message of an earlier term changes nothing, and is answered with the term and a bare refusal if it asked for a vote or brought an append |
| Voting.LaterTermDeposes | rsm/node.py:132-141 | any other message of a later term makes a follower of that term with no votes counted and none spent but on its sender |
| Nodes.Node.ReceiveAppend | rsm/node.py:382-412 | the consistency check, the entries taken, the commit index followed up to the log's end, and the answer |
| Nodes.Node.TakeEntries | rsm/node.py:393-399 | the loop over an append's entries: skip what is held, cut at the first disagreement, append the rest |
| Nodes.Node.ConflictReply | rsm/node.py:414-442 | the refusal names the term disagreed on and where the follower's run of it starts, or just the end of a short log |
| Retry.RunStartExactly | rsm/node.py:430-433 | compacted or not, the scan finds the first held entry of the run of one term that ends where it started |
| Nodes.Node.ReceiveAppended | rsm/node.py:444-461 | a success moves the match forward and may commit; a refusal moves the next index back; what is sent next |
| Nodes.Node.Skip | rsm/node.py:463-474 | the backward scan finds one past the leader's last entry of a term, or where the follower says its run began |
| Retry.LastOfTermExactly | rsm/node.py:471-473 | compacted or not, the scan finds the last held entry of a term, and nothing exactly if none is held |
| Nodes.Node.AdvanceCommitIndex | rsm/node.py:476-503 | the loop commits what the scan specified finds, applies up to it, and on a term it cannot read leaves only its own match index recorded |
| Nodes.Node.ApplyCommittedEntries | rsm/node.py:505-522 | applies every newly committed entry that is held, in order |
| Nodes.Node.ReceiveInstall | rsm/node.py:524-544 | a snapshot beyond the log replaces it and the state; the answer names the log's end either way |
| Installing.OnlyBeyondTheLog | rsm/node.py:524-544 | a snapshot of nothing beyond the end of the log leaves log, state and both indices alone and is answered with that end; any other leaves exactly its boundary and state |
| Installing.InstallNeverTakesBack | rsm/node.py:528-536 | no snapshot, late or new, moves the end of a log or its commit index backwards |
| Installing.InstallTwice | rsm/node.py:528-536 | a snapshot that arrives again changes nothing a node holds |
| Nodes.Node.ReceiveInstalled | rsm/node.py:546-555 | a leader records the index, commits what it may, and carries on |
| Installing.Handshake | rsm/node.py:227-555 | a follower behind the leader's compacted log is sent the snapshot, answers with its end, and is sent and takes exactly what comes after it up to a batch |
| Steps.ScanFlat | rsm/node.py:492-503 | without a snapshot the commit scan never raises; what it finds is eligible, no index above it is, and if it finds none none is |
| Steps.AdvancesToHighest | rsm/node.py:476-503 | a leader ends on the highest index of its own term that a majority holds, or stays if that is no higher |
| Actions.TakeAllFlat | rsm/node.py:393-399 | taking a batch from a shared prefix leaves the log alone if all of it is held, and otherwise makes it the leader's up to the batch's end |
| Handlers.CommittedSurvives | rsm/node.py:393-402 | truncating on conflict never cuts into what a follower has committed |
| Handlers.Delivers | rsm/node.py:280-555 | no delivery raises in a reachable cluster, and every one keeps the invariant |
| Steps.Ticking | rsm/node.py:268-278 | no timeout raises in a reachable cluster, and every one keeps the invariant |
| Commit.LeaderCompleteness | rsm/node.py:476-503 | a committed prefix is in the log every later leader was elected with, by induction on terms |
| Commit.BackedAgree | rsm/node.py:382-412 | any two committed prefixes are the same as far as both go |
| Safety.EventKeeps | rsm/cluster.py:132-212 | the invariant survives every event the driver can cause, and none raises |
| Safety.NothingRaises | rsm/cluster.py:132-212 | no handler ever raises in a reachable cluster: every term read, slice, append and rebuilt log is in range and in order |
| Safety.OneLeaderPerTerm | rsm/cluster.py:254-256 | Election Safety over whole runs: two leaders of one term, at any two moments, are one node |
| Safety.LogsMatch | rsm/node.py:390-399 | Log Matching: the same index and term on any two nodes at any two moments means equal logs up to there |
| Safety.FlightMatches | rsm/node.py:227-266 | an entry in any append in flight is the entry of any log at its index and term |
| Safety.RunsStartTogether | rsm/node.py:195-225 | every log that holds a term starts its run of it at the same index |
| Safety.LeadersAreComplete | rsm/node.py:476-503 | what a leader commits is at the same indices in the log of whoever leads any later term |
| Straying.AppliedAgree | rsm/cluster.py:265-272 | State Machine Safety as long as nothing strays: applied sequences never diverge, each is the committed prefix of its log and each state its replay |
| Straying.StraySetsApart | rsm/node.py:400-402 | the first append that strays makes its receiver apply what neither extends nor is extended by its sender's commands |
| Straying.SafeExactly | rsm/cluster.py:265-272 | over a whole run, applied sequences are comparable at all pairs of moments exactly when nothing strays |
| Matching.MatchIsHeld | rsm/node.py:444-456 | in a shared term a follower holds the leader's log up to the leader's match index for it |
| Matching.LedBetween | rsm/node.py:132-214 | whoever leads a term at two moments has led it at every moment between |
| Matching.MatchNeverFalls | rsm/node.py:448-451 | between any two moments at which a node leads one term its match indices have not moved back, in whatever order answers arrive |
| Matching.AgreementNeverShrinks | rsm/node.py:393-412 | between any two moments of a term, what a follower shares with its leader has not shrunk, whatever order appends arrive in |
| Driver.Verify | rsm/cluster.py:247-272 | the three checks raise exactly when leaders share a term, entries clash at an index and term, or applied commands differ |
| Driver.VerifyLog | rsm/cluster.py:257-264 | the dictionary pass over one log finds exactly the clashes with what was met before |
| Driver.VerifyNeverFails | rsm/cluster.py:247-272 | at no moment of a run do the leader and log checks fail, nor the applied check as long as nothing has strayed |
| Clusters.Cluster.Tick | rsm/cluster.py:132-148 | a tick delivers what landed for running nodes in order, then times every running node in order, offers the network exactly what they say, and fails on nothing but applied commands after a stray |
| Clusters.Cluster.constructor | rsm/cluster.py:75-98 | every member starts as a new node with the cluster's settings, all up, at time zero |
| Traffic.SaidIsSent | rsm/cluster.py:150-155 | the messages ever sent in a run are exactly those its events said, which the driver keeps equal, in order, to what it offered the network |
| Clusters.Cluster.DeliverAll | rsm/cluster.py:135-138 | landed messages become deliveries of a run, in order, except to stopped nodes |
| Clusters.Cluster.SendAll | rsm/cluster.py:150-155 | what the network is offered grows by exactly the messages of running senders, in order |
| Clusters.Cluster.Leader | rsm/cluster.py:105-118 | the running leader of the highest term, which is always the only one there |
| Clusters.Cluster.Propose | rsm/cluster.py:171-178 | the running leader of the highest term takes the write, sends each follower what it misses, and nobody else changes; NoLeader exactly when nobody leads |
| Clusters.Cluster.Crash | rsm/cluster.py:180-189 | a member stops; an unknown name is refused |
| Clusters.Cluster.Restart | rsm/cluster.py:191-212 | a stopped node returns with its term, vote, log and the cluster's settings, everything else as new, the driver's clock, and a deadline ten to twenty ticks after it |
| Restarts.MakeStays | rsm/cluster.py:191-212 | nothing that happens in a run, restarts included, changes a node's name, members, pre-vote setting or batch size |
| Restarts.RestartForgets | rsm/cluster.py:180-212 | a restart is a function of term, vote, log and settings; nothing else the node knew makes a difference |
| Restarts.BackFromDisk | rsm/cluster.py:180-212 | over a whole outage a node keeps exactly those, and comes back a follower that waits out a new timeout |
| Clusters.RunGoesOn | rsm/cluster.py:132-212 | whatever the driver does next extends the run it has traced so far |
| Retry.RetryWindow | rsm/node.py:414-474 | a retry lies between the agreement point and the refused probe, and on the agreement point exactly when what the follower holds after it has the term it named |
| Retry.LeaderHoldsTerm | rsm/node.py:466-473 | if the leader holds the conflicting term, its last entry of it is the agreement point |
| Retry.LeaderLacksTerm | rsm/node.py:466-474 | if it does not, the follower's whole run of the term is wrong |
| Retry.CyclesWithoutCommonStart | rsm/node.py:414-474 | on two logs that match but start a term apart the exchange goes round two probes for ever: every trip is refused and every second one returns to the same probe |
| Retry.RefusedTrip | rsm/node.py:457-461 | a refused round trip changes neither log and moves the probe into the window |
| Retry.TakenTrip | rsm/node.py:390-456 | an accepted one extends agreement to the end of the batch and sends the next, or nothing at the end |
| Retry.Transfers | rsm/node.py:227-266 | from the agreement point nothing is refused, and the batches needed are the ceiling of what is missing over the batch size, at least one |
| Retry.Batches | rsm/node.py:254 | the least number of batches that carry so many entries, and one for none |
| Retry.Repairs | rsm/node.py:382-474 | the exchange ends with equal logs, after a refusal for each distinct divergent term at most, and one more, and then the transfers |
| Retry.RefusalsBounded | rsm/node.py:414-474 | refusals are at most the distinct terms of the divergent suffix plus one |
| Retry.ReachableReady | rsm/node.py:227-266 | every leader and follower of one term in a reachable cluster meet what the exchange needs |
| Retry.FollowersAreRepaired | rsm/node.py:382-474 | so from any moment of any run a follower in its leader's term can be brought level, with the same bounds on refusals and transfers |
| Batching.AnnouncesWhatItCarries | rsm/node.py:251-264 | an append is tame exactly when the commit index falls inside its batch |
| Batching.FollowsOrStrays | rsm/node.py:400-402 | a follower that takes an append commits a prefix of its leader's log exactly when the append, by the two logs before it arrives, does not stray |
| Straying.TameNeverStrays | rsm/node.py:400-402 | a run whose appends announce no more than they carry never strays |
| Straying.WideIsTame | rsm/node.py:66-68 | batches at least as long as every log make every append of a run announce no more than it carries |
| Witness.SafetyCanFail | rsm/node.py:312-327 | a run of three nodes with batches of one in which a delivery strays, two nodes apply different commands at one position and the driver's check fails |
| Witness.StartsOver | rsm/node.py:457-461 | a bare refusal sends a leader back to its first entry, announcing all it has committed |
| Prevoting.StuckHolds | rsm/node.py:143-171 | where all votes of a term are spent at home and no follower has a majority of backers, no event but a restart changes that |
| Prevoting.StuckIsForever | rsm/node.py:329-380 | so nobody leads and no term moves, however long the run goes on without a restart |
| Prevoting.JamIsForever | rsm/node.py:373-380 | in any run, once every node is in pre-vote, a candidate and in one term, nobody leads again without a restart |
| Electing.LeaderCanComeExactly | rsm/node.py:143-193 | with every node up and every vote of the term spent at home, a leader can come without a restart exactly when a majority backs some follower |
| Jamming.ACanJam | rsm/node.py:149-171 | three nodes reach such a state with no fault, by asking one another in a ring |
| Timing.HopelessMovesNothing | rsm/node.py:329-371 | a candidate that voted for itself is not moved by a request or a refusal of its own term or an earlier one |
| Timing.StandingLocks | rsm/node.py:173-193 | standing again leaves it in the same position one term later |
| Timing.Trial.constructor | rsm/timing.py:190-204 | with one timeout to draw from and two or more nodes the livelock holds from the start |
| Timing.Trial.Rearm | rsm/timing.py:206-210 | a fresh deadline in the range under test, and the node's own timer noted |
| Timing.Trial.Follow | rsm/timing.py:212-224 | a node is rearmed exactly when its own timer is not the one last seen |
| Timing.Trial.Tick | rsm/timing.py:226-253 | for any timeouts: what landed is heard in order, deadlines of nodes that reset their timers are drawn anew, every member then does what is due, and the observations are exact; with a fixed timeout the livelock goes on: term 1 + now / timeout everywhere, all due at the next multiple, no leader seen |
| Timing.Trial.TimeAll | rsm/timing.py:234-246 | by the trial's clocks, a leader beats exactly when its beat is due, anyone else stands exactly when its deadline has passed, in membership order, and all they say is sent |
| Timing.Trial.Run | rsm/timing.py:255-259 | a fixed timeout elects nobody in any number of ticks, over any fixed delay and any size above one |
| Repairing.AgreeUpTo | rsm/log.py:220-228 | the highest index both logs hold at one term, or zero |
| Repairing.AgreedIsShared | rsm/log.py:220-228 | on logs that match, that index is the length of the prefix they share |
| Repairing.Probe | rsm/repair.py:87-108 | an empty append moves no log and is answered with whether the follower can place an entry there; a follower of a later term answers with its term alone, and a compacted one raises inside its snapshot |
| Repairing.Walk | rsm/repair.py:111-127 | finds the agreement point in exactly one probe for each index above it plus one, or gives up at the limit, exactly when that is more |
| Repairing.NextStaysAbove | rsm/repair.py:152-167 | a jump never passes the agreement point, on any logs with terms in order |
| Repairing.Skip | rsm/repair.py:130-149 | finds the same point with no more probes than walking, and on twins with one for each distinct divergent term and two more |
| Repairing.Search | rsm/repair.py:182-194 | binary search finds the point in at most as many probes as the range can be halved |
| Repairing.Halvings | rsm/repair.py:170-180 | that number is one more than the floor of the binary logarithm |
| Repairing.Bisect | rsm/repair.py:170-195 | bisection over the whole log, given log matching |
| Repairing.Hybrid | rsm/repair.py:198-231 | the walk's exact cost within the patience, and at most the patience plus a bisection of the rest beyond it; negative patience refused |
| Reconciling.OneAtATime | rsm/log.py:231-250 | stops at the first position from the end that the follower accepts, one trip for each position tried |
| Reconciling.WalkStopsAtAgreement | rsm/log.py:231-250 | without snapshots it takes one trip more than there are divergent positions |
| Reconciling.ByConflictTerm | rsm/log.py:253-276 | where the loop ends, it ends after exactly the trips counted |
| Reconciling.EndsExactly | rsm/log.py:253-276 | for any two logs the loop ends exactly when the follower accepts one of the positions it can come to |
| Reconciling.UncompactedEnds | rsm/log.py:253-276 | so with an uncompacted follower it always ends |
| Reconciling.CompactedEndsExactly | rsm/log.py:253-276 | and with one compacted out of a log that matches the leader's, exactly when they agree at its snapshot index, or the leader has nothing |
| Reconciling.SkippingIsCheaper | rsm/log.py:253-276 | on logs that match that is never more than walking, and at most two more than the distinct divergent terms |
| Reconciling.CompactedFollowerCycles | rsm/log.py:267-269 | an input on which it never ends |
| Snapshots.CompactLog | rsm/snapshot.py:91-105 | entries up to an index go, its term stays, and out-of-range requests are refused without a change |
| Snapshots.AnswersAlike | rsm/log.py:88-157 | at or above the boundary a compacted log answers every query as the whole log would, and below it refuses or says no |
| Snapshots.CompactionRefines | rsm/snapshot.py:91-105 | under any legal sequence of appends, truncations and compactions it raises what the whole log would and stays a compaction of it |
| Snapshots.ReplayTwice | rsm/node.py:519-522 | replaying a suffix of writes whose effect a state already has changes nothing |
| Snapshots.InstallBegins | rsm/node.py:238-251 | the leader sends its state at its last applied index under the label of its smaller snapshot index |
| Snapshots.GoesOnCatchingUp | rsm/node.py:505-522 | applying what was chosen keeps a follower on the way |
| Snapshots.CaughtUp | rsm/node.py:524-536 | from the leader's last applied index on, the state is exactly a full replay; before it, exactly when the keys not yet set again are unchanged |
| Trails.CaughtUpForGood | rsm/node.py:382-544 | from the install on, through any appends and snapshots in any order, late ones too, and any compactions of its own, a follower applies a prefix of what is chosen, and from the applied index of its last snapshot's sender on its state is the full replay of that |
| Trails.NothingTakenBack | rsm/node.py:382-544 | and through all of that its commit index, what it has applied and the committed part of its log never shrink |
| Snapshots.Take | rsm/snapshot.py:75-88 | the applied state with its own index and term, or why there is none |
| Snapshots.CapturedExactly | rsm/snapshot.py:75-88 | there is one exactly where the term of the last applied entry is known, and it holds just that index, term, state and membership |
| Snapshots.Restore | rsm/snapshot.py:108-113 | the log, state and indices of a node are replaced by the snapshot's |
| Snapshots.RestoresPrefix | rsm/snapshot.py:75-113 | a snapshot restored anywhere stands for exactly the prefix its source had applied |
| Machines.Machine.Apply | rsm/machine.py:82-112 | the effect and answer of each command; a refused increment is counted and changes nothing else |
| Machines.OnlyItsKey | rsm/machine.py:82-112 | a command touches no key but its own, and only an increment of what is no number is refused |
| Machines.SetThenDelete | rsm/machine.py:89-94 | a value set is there until it is deleted, and is the delete's answer |
| Machines.IncrementsAdd | rsm/machine.py:95-100 | increments of a number, or of an absent key, add up and are answered with the sum so far; no amount and zero count as one |
| Machines.OneSwapWins | rsm/machine.py:101-107 | of two that expect one value and would change it the first wins if it is there, and otherwise neither |
| Machines.HarmlessTwiceExactly | rsm/machine.py:33-36 | of the commands not refused exactly the increments leave another state when applied twice |
| Machines.ReplayAll | rsm/machine.py:127-132 | a fresh machine driven by a sequence ends where replaying it as a function ends |
| Clients.Sessions.Run | rsm/client.py:74-90 | a request is applied and remembered, or answered from memory |
| Clients.ExactlyOnce | rsm/client.py:74-90 | whatever is retried or refused, the machine ends as if the requests that take effect were made once each and no others; every call is told its identity's one answer, or why it was refused; of each client the highest number that took effect is kept; applied, deduplicated and refused add up to the calls |
| Clients.FirstsTakeEffect | rsm/client.py:74-90 | those requests are the first attempts exactly when the first attempts alone would not be refused |
| Membership.ChangesAreSound | rsm/membership.py:88-101 | adding or removing one member is allowed exactly when it should be and leads to a sound joint configuration that keeps the old membership, the new one in order |
| Membership.ChangeDecides | rsm/membership.py:74-105 | during the change exactly those votes decide that are more than half of the new members and more than half of the old, and after it those that are more than half of the new |
| Membership.QuorumsMeet | rsm/membership.py:74-86 | any two deciding sets share a member, and during a change one of each membership |
| Membership.JointMeetsBothSides | rsm/membership.py:74-101 | what decides during a change shares a vote with every majority of the members before it and of the members after it |
| Membership.StagesMeet | rsm/membership.py:74-105 | from steady through joint to settled, what decides at one stage shares a vote with what decides at the next |
| Membership.Build | rsm/membership.py:122-129 | the recursion appends the sets it should to what it was given |
| Membership.ListsExactly | rsm/membership.py:117-132 | those are exactly the sets of the size needed that extend what was chosen |
| Membership.Majorities | rsm/membership.py:117-132 | every set of just a majority, once each, and no other |
| Membership.ListedAreMinimal | rsm/membership.py:117-132 | which are exactly the majorities that stop being one when any member leaves |
| Membership.DisjointMajorities | rsm/membership.py:135-147 | lists exactly the pairs that share nothing, and some exactly when the sizes leave room |
| Membership.SplitIffRoom | rsm/membership.py:135-147 | two disjoint sets of given sizes exist exactly when what each cannot find outside the overlap fits inside it together |
| Membership.OneChangeIsSafe | rsm/membership.py:194-221 | one addition or removal never leaves two majorities apart, at any size |
| Membership.TwoRemovals | rsm/membership.py:224-254 | two different removals at once do exactly when the cluster had an even size |
| Membership.Disjoint | rsm/quorum.py:118-130 | the search finds a disjoint pair of quorums, and none exactly when the rule intersects |
| Membership.MajorityIsTheLeast | rsm/quorum.py:62-70 | an equal pair of quorums intersects exactly when it is at least a majority |
| Net.Network.CheckReachable | rsm/net.py:176-183 | whether no partition separates two nodes |
| Net.Network.SidesDecide | rsm/net.py:176-196 | under a split that was taken two nodes reach each other exactly if they are on one side of it |
| Net.Network.Partition | rsm/net.py:185-196 | a split is taken exactly when every member is on exactly one side, once, and nobody else is; a stranger is an unknown node, anything else a configuration error |
| Net.Network.Send | rsm/net.py:202-232 | between members a message is accepted with its due tick fixed, or counted as lost to the partition or to the draw; an unknown name is refused without a trace; the books balance |
| Net.Network.Tick | rsm/net.py:234-248 | what was due lands, in send order, and the wire's invariant is kept |
| Net.LandKeepsWire | rsm/net.py:234-248 | every accepted message is in flight or delivered exactly once, on time, and with a fixed delay in send order |
| Net.DeliveredWhenDue | rsm/net.py:234-248 | a tick hands over exactly what was due at that tick |
| Net.ArrivesAfterItsDelay | rsm/net.py:202-248 | a message accepted with a delay is in flight for exactly that many ticks and delivered from then on |
| Net.Lands | rsm/net.py:241 | what lands is already in the order the sort by sequence would give it |

## Left out

- Electing.LeaderCanComeExactly: covers clusters in which every node is up and has spent its vote of the term on itself; other mixtures of votes and terms, and nodes that stay down, are not characterised.
- Clusters.Cluster.Tick: which messages are lost and how long they take is arbitrary within range; the history of snapshots, the election counter and `agreed` are not modelled, and the nodes of the driver are values in a map rather than objects.
- Reconciling.ByConflictTerm: called only where the loop ends, because a method that may not end cannot be written here; `Reconciling.EndsExactly` says where that is.
- Clients.ExactlyOnce: no session is forgotten.
- Machines.Machine.Apply: no `now` command, and an increment carries an integer or nothing, so text amounts are not parsed. Equality of stored values is equality of their kinds and contents.
- Retry.Repairs: the exchange is one leader and one follower taking turns; other traffic between them is covered by the safety theorems, not by the count.
- Trails.CaughtUpForGood: nothing in `Node` or `Cluster` compacts a log, so runs of the cluster keep the snapshot at zero and this is about one follower. That the appends it meets are cut from logs that match its own, contradict nothing chosen and do not stray, and that snapshots carry states reached by applying what is chosen, is assumed here; for runs without compaction it is what the safety theorems give.
- `commit_any_term` set to true: it exists to show Figure 8 of the Raft paper going wrong (`rsm/replicate.py`). The handlers model it; the invariant is about clusters where it is false.
- Entry and request construction: terms and indices of at least one, and requests with a client and a number of at least one, are types here, so the ConfigErrors of those and of a message without a term cannot be written down; nor can a message of unknown kind.
- `read_id` of appends and answers, byte estimates, counts by kind of message, and `Network.add`.
- Measurements, reports, charts and the command line: they sample fixed seeds and print.
- Liveness under random timers, uptime and message counts: they depend on particular parameters.
- The keyspace, rebalance, learner, lease, batch and observation modules, and everything under `rsm/verify/` and `rsm/eval/`: not part of this model.
