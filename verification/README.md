# Verification of the node agent's stateful parts

A Dafny model of the parts of the agent whose guarantees span many calls, crashes and
other programs, with proofs of those guarantees. `dafny verify dfyconfig.toml` checks
all of it. Every section that the agent runs under a lock is one atomic step; the
kernel, Xray, the panel, the clock and the disk are parameters or a small world beside
it. A time is a natural number and 0 is the zero time.

| modules | part of the agent |
|---|---|
| `LedgerModel`, `LedgerRuns`, `LedgerLocal`, `LedgerRequests`, `LedgerCounters`, `LedgerDispute`, `LedgerOwner`, `LedgerHeard`, `LedgerObject` | connection ledger |
| `LogLines`, `LogFollower`, `LogFollowerRuns` | access-log follower |
| `LogParser` | access-log line parser |
| `OperationJournal`, `OperationExecutor`, `ExecutorObject` | operation journal and executor |
| `RateLimitPlan`, `RateLimitKernel`, `RateLimitRules`, `RateLimitConverge`, `RateLimiter` | rate limits on tc |
| `XuiPlan`, `XuiWrites`, `XuiConverge`, `XuiPasses`, `XuiState`, `XuiPanel` | 3x-ui panel convergence |
| `IpWatch`, `IpWatchRuns`, `IpWatchGrace` | ChangeIP reconciliation monitor |
| `Common` | options and sums over maps |

Each part has a specification on values (`Next`, `TakeLine`, `Poll`, `Begin`, `IsPlan`,
`Take`, ...), a class or methods in the form of the code that are proved to do what the
specification says, and lemmas about the specification over all inputs or all runs.

What was found while proving, each with a lemma that shows it:

- A second convergence with the same wish is not always idle. It has an empty batch if
  and only if every wanted group has a police index or the kernel releases no orphan
  in that pass (`RateLimitRules.SecondPass`, `RateLimiter.SecondPassWorks`).
- The mark of an owed Xray restart is lost when the save that clears it fails after the
  new file has replaced the old one (the directory sync of
  `internal/state/json_file.go:94`): memory still says it is set, so that the next
  write to a Shadowsocks 2022 inbound does not set it again. This is the only way
  (`XuiState.MarkSet`, `XuiState.MarkLost`, `XuiState.MarkNotSetAgain`).
- A stamp that holds no separator can still be cut short: it may end with all of the
  separator but its last space (`LogParser.SplitInverts`, `LogParser.StampEndingInFrom`).
- A ChangeIP that ends unchanged rests on exactly two observations of the old address,
  both taken in at or after the end of the grace, and the deciding one is also made at or
  after it. The first may have been made before: then the loop was observing as the
  grace ended, and there is at most one such (`IpWatchGrace.UnchangedNeedsTwo`,
  `IpWatchGrace.UnchangedInTime`, `IpWatchGrace.OneStraddles`,
  `IpWatchGrace.EarlyObservationCounts`).
- A late line written before a connection can hide a dispute about it
  (`LedgerDispute.LateLineHides`). A connection is disputed if and only if the first line
  it takes is contended: it follows one of another user from since the connection opened,
  with none of a third user between, or another user's own line follows it
  (`LedgerDispute.DisputedExactly`). That the order of the lines does not matter holds
  when, once a line written since the connection opened came in, so is every later one.
- A connection that opens, writes a line and closes while the first dump is being taken
  can leave that line to the next connection of its address
  (`LedgerOwner.FirstDumpWindow`); the soundness theorem asks for no such connection. One
  that wrote no line does no harm (`LedgerOwner.FirstDumpClear`).
- A line that comes in only after the next connection of its address opened can find two
  connections that could have written it, and then its own stays nobody's
  (`LedgerHeard.LateLineUnbound`). When every line comes in before that, a connection has
  its owner if and only if a line of it came in (`LedgerHeard.OwnerOnceHeard`).
- When the log is cleared, and copied again before a poll, that poll passes the lines
  copied last twice: from the copy and from the log (`LogFollowerRuns.CopiedAgainTwice`).

## Model
| member | source | states |
|---|---|---|
| LedgerRuns.StepKeeps | internal/xray/ledger/ledger.go:243-523 | every step keeps what the ledger's records promise: disputed means nobody's, a bound connection holds its user's line and at least one request, waiting lines are filed under their own address |
| LedgerRuns.WholeRunAttribution | internal/xray/ledger/ledger.go:403-501 | over any run, a connection first seen after the first dump never belongs to two users, and a disputed one is nobody's for good |
| LedgerRuns.HandoverInTail | internal/xray/ledger/ledger.go:243-470 | whatever the event, a connection goes from one user to another only by a line of a batch, strictly newer than its own and from before the start, while the log's tail comes in, and only if it was open at the start; no dump and no notice does it |
| LedgerRuns.RunHandover | internal/xray/ledger/ledger.go:456-470 | over any stretch of a run, a connection has another user than before only if lines of the log's tail came in |
| LedgerRuns.FinalAfterTail | internal/xray/ledger/ledger.go:456-501 | once the log's tail is in, a user's connection stays that user's or becomes nobody's for good |
| LedgerRequests.RequestsConserved | internal/xray/ledger/ledger.go:313-392 | for every user and run, requests told of ended connections plus those held never exceed the user's lines taken in |
| LedgerRequests.LineConserves | internal/xray/ledger/ledger.go:313-368 | one line adds at most one request to its own user's account and none to another's |
| LedgerRequests.ExpireConserves | internal/xray/ledger/ledger.go:504-515 | what expiry tells is taken out of what is held |
| LedgerCounters.KeepsHighest | internal/xray/ledger/ledger.go:394-401 | while a connection is kept its counters are the highest the kernel said, for a kernel whose counters only grow |
| LedgerCounters.ToldOnceWithHighest | internal/xray/ledger/ledger.go:381-392 | an expired connection is told of if and only if it is bound and opened since the start, with the highest counters seen, whether or not the dump could be read |
| LedgerDispute.DisputedExactly | internal/xray/ledger/ledger.go:328-501 | after any run a connection that came in it is disputed if and only if the first line it takes is contended, and is otherwise that line's user's |
| LedgerDispute.FirstSight | internal/xray/ledger/ledger.go:403-411 | when first shown, a connection takes the newest waiting line if that is from since it may have opened, and is disputed if and only if the last line of another user is from since it opened |
| LedgerDispute.DisputedInEveryOrder | internal/xray/ledger/ledger.go:328-363 | lines of two users written within a connection make it nobody's, wherever in the run they and the dump or notice that first shows it come |
| LedgerDispute.TwoLinesSettled | internal/xray/ledger/ledger.go:328-363 | two lines alone meet the order hypothesis of DisputedInEveryOrder in either order |
| LedgerDispute.LateLineHides | internal/xray/ledger/ledger.go:328-349 | a concrete run from the empty ledger that meets all of DisputedInEveryOrder but the order: the lines of two users are the connection's own and it stays undisputed |
| LedgerOwner.UserIsOwner | internal/xray/ledger/ledger.go:243-454 | against a world of true owners, every connection that has a user has its true owner, though dumps may be out of date when they are taken in |
| LedgerOwner.RecordNamesOwner | internal/xray/ledger/ledger.go:381-392 | and every record told of such a connection names its true owner |
| LedgerOwner.FirstDumpWindow | internal/xray/ledger/ledger.go:243-287 | a concrete run, faithful in everything else, in which a connection within the first dump's own time that wrote a line gives the next its user |
| LedgerHeard.OwnerOnceHeard | internal/xray/ledger/ledger.go:243-454 | when lines come in before the next connection of their address opens and none waiting is dropped or outlived, a kept connection has its true owner if and only if a line of it came in, and nobody otherwise |
| LedgerHeard.LateLineUnbound | internal/xray/ledger/ledger.go:425-444 | a concrete true run in which a line comes in later than that and its connection stays nobody's |
| LedgerLocal.TakeDumpAt | internal/xray/ledger/ledger.go:243-287 | what a dump does at one address depends on that address only: it shows what is there, binds in turn the connections it adds there, and loses what is missing |
| LedgerObject.Ledger.Add | internal/xray/ledger/ledger.go:370-379 | a socket is added to the map and to the index, which stays exact |
| LedgerObject.Ledger.Remove | internal/xray/ledger/ledger.go:381-392 | a socket leaves map and index, and exactly one record is told of a bound one opened since the start |
| LedgerObject.Ledger.Carrier | internal/xray/ledger/ledger.go:413-423 | finds a connection the line continues, or there is none among all sockets |
| LedgerObject.Ledger.Candidate | internal/xray/ledger/ledger.go:425-444 | finds the one connection that can take the line, or there is none or more than one |
| LedgerObject.Ledger.Replayed | internal/xray/ledger/ledger.go:456-470 | finds a connection of the start that a newer line from before the start hands over, or there is none |
| LedgerObject.Ledger.Dispute | internal/xray/ledger/ledger.go:472-501 | every contested connection of the address becomes nobody's and no other changes; reports whether the line contests or may belong to one |
| LedgerObject.Ledger.BindSocket | internal/xray/ledger/ledger.go:403-411 | a socket just added takes the waiting line exactly when it is the only one that can |
| LedgerObject.Ledger.TakeOne | internal/xray/ledger/ledger.go:313-363 | one line ends in exactly one of its six fates and the state is the specification's |
| LedgerObject.Ledger.TakeLines | internal/xray/ledger/ledger.go:313-368 | a batch is taken as specified and at most 65536 claims are left |
| LedgerObject.Ledger.DropOldClaims | internal/xray/ledger/ledger.go:517-523 | past the limit exactly the newest nine tenths of it are kept |
| LedgerObject.Ledger.Expire | internal/xray/ledger/ledger.go:504-515 | exactly the sockets over and the stale lines go, one record told for each bound since-start socket |
| LedgerObject.Ledger.TakePoll | internal/xray/ledger/ledger.go:243-287 | a dump is taken as specified, index and invariant kept |
| LedgerObject.Ledger.Close | internal/xray/ledger/ledger.go:290-310 | a close notice is taken as specified, index and invariant kept |
| LogLines.ChunksDoNotMatter | internal/xray/accesslog/follow.go:179-196 | however a byte stream is cut into chunks, the lines given out are the newline-terminated lines of at most 4096 bytes of the whole |
| LogLines.FeedOn | internal/xray/accesslog/follow.go:179-196 | feeding a chunk to what a text left behind gives the further lines of the text and the chunk together |
| LogLines.TailOn | internal/xray/accesslog/follow.go:198-209 | the tail kept is the last 64 bytes of everything read |
| LogFollower.Follower.Split | internal/xray/accesslog/follow.go:179-196 | the loop over a chunk does what Feed says, partial line and skip included |
| LogFollower.Follower.Remember | internal/xray/accesslog/follow.go:200-209 | the buffer ends as the tail of old tail and data |
| LogFollower.Follower.Read | internal/xray/accesslog/follow.go:158-177 | reads on to the limit in buffers and passes on the lines of what was read |
| LogFollower.Follower.WasCleared | internal/xray/accesslog/follow.go:104-129 | finds a clear that the offset cannot show: nothing was read since, the copy grew, and the file does not begin with what it grew by |
| LogFollower.Follower.Restart | internal/xray/accesslog/follow.go:52-82 | starts over exactly when the file is shorter than what was read, its tail changed or a clear was found, after passing on what the copy still holds |
| LogFollower.Follower.Recover | internal/xray/accesslog/follow.go:131-154 | the unread bytes are passed on from the copy when it holds what was read |
| LogFollower.Follower.TakePoll | internal/xray/accesslog/follow.go:52-82 | one poll does what the specification's poll does |
| LogFollowerRuns.PassesTheStream | internal/xray/accesslog/follow.go:52-177 | over any interleaving of appends, copies, truncations and polls, the lines passed on are exactly those of a beginning of the written stream, once and in order |
| LogFollowerRuns.PollCatchesUp | internal/xray/accesslog/follow.go:52-82 | after a poll with at most one read's worth unread they are exactly the complete lines of everything written |
| LogFollowerRuns.CopiedAgainTwice | internal/xray/accesslog/follow.go:131-154 | a poll that finds a truncation after the log was copied again passes the lines copied again twice |
| LogParser.SplitInverts | internal/xray/accesslog/parse.go:31-79 | a rendered line comes apart into what it was made of, whatever the destination says, if and only if stamp and source are safe |
| LogParser.ParseInverts | internal/xray/accesslog/parse.go:39-79 | parsing a rendered line returns its tag, source, user and outbound and hands on exactly its destination text |
| LogParser.SafeMeans | internal/xray/accesslog/parse.go:41-52 | safe means holding no separator and not ending with all of it but its last space |
| LogParser.StampsAndSourcesSafe | internal/xray/accesslog/parse.go:26-52 | a stamp without letters and a source without spaces are safe |
| LogParser.StampEndingInFrom | internal/xray/accesslog/parse.go:41-45 | a concrete stamp that holds no separator and is cut short |
| LogParser.AcceptsOnlyTheFormat | internal/xray/accesslog/parse.go:39-79 | whatever line is accepted is a line of the format |
| LogParser.CheckHost | internal/xray/accesslog/parse.go:99-110 | the loop accepts exactly the plain hosts |
| OperationJournal.Validate | internal/operation/engine.go:208-247 | accepts exactly the snapshots in which every record is good and no command is held twice |
| OperationJournal.Engine.Open | internal/operation/engine.go:64-100 | opens exactly what is valid, and only a missing file starts empty |
| OperationJournal.Engine.FindActive | internal/operation/engine.go:273-280 | finds the group of an active command if and only if it is active |
| OperationJournal.Engine.Recent | internal/operation/engine.go:182-193 | finds an ended command if and only if the history holds it |
| OperationJournal.Engine.TakeBegin | internal/operation/engine.go:102-136 | begins or refuses as specified, for every fate of the save, and leaves memory and file valid |
| OperationJournal.Engine.TakeFinish | internal/operation/engine.go:142-180 | ends a command and trims the history as specified, for every fate of the save, and leaves both valid |
| OperationJournal.EndedValid | internal/operation/engine.go:142-180 | ending a command keeps a snapshot valid and its history within the limit |
| OperationExecutor.AtMostOnce | internal/operation/executor.go:76-118 | over every run with crashes and failed saves, a command is run again only after at least as many other commands as the history holds ended since |
| OperationExecutor.KnownIsNotRun | internal/operation/executor.go:76-104 | a command in the journal is never run: an ended one is replayed, an active one recovered |
| OperationExecutor.RestartKnows | internal/operation/engine.go:64-100 | a command that ran and was not evicted is still known after a crash |
| OperationExecutor.OnePerGroup | internal/operation/executor.go:38-62 | at no moment are two commands of one group being run or recovered |
| OperationExecutor.ReleaseSparesTheLiving | internal/operation/executor.go:106-118 | freeing a group never ends a command of a live execution |
| OperationExecutor.CloseFinds | internal/operation/executor.go:120-135 | an execution that ends finds its command active |
| OperationExecutor.StartInv | internal/operation/engine.go:64-100 | every valid state file is a start from which these hold |
| ExecutorObject.Executor.Enter | internal/operation/executor.go:38-54 | an execution is registered unless one of its command is |
| ExecutorObject.Executor.Try | internal/operation/executor.go:81-85 | beginning a command is the step of the state machine |
| ExecutorObject.Executor.Release | internal/operation/executor.go:110-118 | finishing what an earlier process left is the step of the state machine |
| ExecutorObject.Executor.Settle | internal/operation/executor.go:86-98 | a command that could not begin is recovered exactly when the journal has it as offered |
| ExecutorObject.Executor.Close | internal/operation/executor.go:100-103 | ending the own command is the step of the state machine |
| RateLimitPlan.Owners | internal/modules/ratelimit/rules.go:44-52 | each named client is owned by the group of the lowest limit, the first of equals |
| RateLimitPlan.Plan | internal/modules/ratelimit/rules.go:38-78 | every rule is due to its group and every rate is its group's; all that is due is there unless the filters are at their limit |
| RateLimitConverge.Rules.Assign | internal/modules/ratelimit/rules.go:209-239 | groups keep their index, newcomers get the lowest free ones in the order of their keys, and one goes without only when all are taken |
| RateLimitConverge.Rules.Release | internal/modules/ratelimit/rules.go:104-108 | exactly the orphans the kernel lets go leave the book, which stays true |
| RateLimitRules.HookLines | internal/modules/ratelimit/rules.go:117-128 | hooks exactly the interfaces that need it, or none when one cannot be read |
| RateLimitRules.ReplaceLines | internal/modules/ratelimit/rules.go:129-134 | sets every group's action to its wanted rate, and nothing when all are |
| RateLimitRules.DelLines | internal/modules/ratelimit/rules.go:135-140 | deletes exactly the filters that are not wanted as they are |
| RateLimitRules.AddLines | internal/modules/ratelimit/rules.go:141-156 | adds exactly the missing filters under handles never used, and the kernel refuses none |
| RateLimitConverge.Rules.Install | internal/modules/ratelimit/rules.go:157-181 | a batch that goes through leads to a converged kernel and a true book; no line of it can be refused |
| RateLimitConverge.Rules.Converge | internal/modules/ratelimit/rules.go:103-182 | success means each wanted rule whose group has an index has exactly one filter at the wanted rate, there is no other, and the book equals the kernel; the batch is empty exactly when nothing needs a change |
| RateLimitRules.SecondPass | internal/modules/ratelimit/rules.go:103-182 | the next pass is idle if and only if every wanted group has an index or no orphan is released |
| RateLimiter.SecondPassWorks | internal/modules/ratelimit/rules.go:209-239 | with 4096 groups and one orphan the next pass has work |
| RateLimiter.TrueHasNoDrift | internal/modules/ratelimit/rules.go:184-207 | a book that equals the kernel shows no drift on any interface |
| RateLimiter.Limiter.Drifted | internal/modules/ratelimit/rules.go:186-207 | drift is an unreadable interface or another number of filters |
| RateLimiter.Limiter.Want | internal/modules/ratelimit/ratelimit.go:201-222 | the wish and its code in every case |
| RateLimiter.Limiter.RemoveAll | internal/modules/ratelimit/ratelimit.go:224-236 | clean afterwards exactly when nothing of the module's is left |
| RateLimiter.Limiter.Sync | internal/modules/ratelimit/ratelimit.go:176-199 | all or nothing: without an error the kernel has the plan, or nothing and the code says so; clean always means that the book equals the kernel |
| RateLimiter.Limiter.Apply | internal/modules/ratelimit/ratelimit.go:107-145 | takes Cloud's limits, repairs rules changed by hand, and reports codes that tell which of the two holds |
| XuiPlan.Plan | internal/modules/xui/apply.go:248-359 | the refusals and the writes in every case, the last client disabled instead of deleted |
| XuiWrites.ForeignUntouched | internal/modules/xui/apply.go:260-297 | whatever part of a plan is written, every client that is not ours is as it was |
| XuiConverge.RemovalsLead | internal/modules/xui/apply.go:298-320 | every removal is accepted and reaches only its client |
| XuiConverge.WritesLead | internal/modules/xui/apply.go:322-357 | every further write is accepted and reaches only its client |
| XuiPasses.FirstPass | internal/modules/xui/apply.go:252-359 | the first pass is accepted and leaves at most one unwanted client, disabled |
| XuiPasses.TwoPasses | internal/modules/xui/apply.go:252-359 | after at most two passes our clients are exactly the target's, or one disabled last client, and a third plan is empty |
| XuiPasses.QuietAsWanted | internal/modules/xui/apply.go:260-357 | where a plan has nothing to write, every wanted client is there as wanted and no other of ours is but a disabled last client of all |
| XuiState.MarkSet | internal/modules/xui/state.go:83-92 | setting the mark puts it on disk if and only if memory did not wrongly believe it there |
| XuiState.MarkLost | internal/modules/xui/state.go:83-92 | memory comes to believe it wrongly only by a clearing save that fails after it replaced the file |
| XuiState.MarkNotSetAgain | internal/modules/xui/state.go:83-92 | then setting it again reports success and saves nothing |
| XuiState.LocalState.Flush | internal/modules/xui/state.go:71-81 | records that wait are on disk afterwards, or they still wait |
| XuiState.LocalState.SetReset | internal/modules/xui/state.go:64-69 | an executed reset is recorded at once, saved or not |
| XuiState.LocalState.SetRestartPending | internal/modules/xui/state.go:83-92 | changes the mark in memory only once it is saved |
| XuiState.LocalState.KeepOnly | internal/modules/xui/state.go:94-103 | forgets exactly the clients Cloud no longer has |
| XuiPanel.Panel.ResetAll | internal/modules/xui/apply.go:214-240 | no reset is due afterwards, records only rise, and only traffic counts change |
| XuiPanel.Panel.WriteAll | internal/modules/xui/apply.go:181-197 | the panel is as after a beginning of the writes, wherever they fail |
| XuiPanel.Panel.Converge | internal/modules/xui/apply.go:156-198 | foreign clients stay; a state that could not be saved is reported as such; an owed restart goes unmarked if and only if an inbound that needs it was written while memory wrongly believed the mark saved |
| XuiPanel.Panel.SettleRestart | internal/modules/xui/apply.go:115-125 | Xray is restarted when owed, and the mark cleared only after |
| XuiPanel.Panel.Apply | internal/modules/xui/apply.go:48-154 | at its end no written inbound waits for a restart and where a target has no code our clients are as it wants them; held inbounds and foreign clients are as they were; no restart is ever owed without its mark on disk, as long as failed saves keep the old file |
| IpWatch.Watch.Open | internal/modules/ipwatch/monitor.go:88-136 | opens exactly a missing or sound reconciliation |
| IpWatch.Watch.ArmChange | internal/modules/ipwatch/monitor.go:223-252 | arms, repeats or refuses as specified, for every fate of the save |
| IpWatch.Watch.CancelChange | internal/modules/ipwatch/monitor.go:254-268 | cancels only an attempt of the command without an outcome |
| IpWatch.Watch.TakeAck | internal/modules/ipwatch/monitor.go:279-305 | an acknowledged outcome ends its attempt, an acknowledged report settles the address |
| IpWatch.Watch.StepTake | internal/modules/ipwatch/monitor.go:321-361 | an observation moves an open attempt on or makes a natural report, never both |
| IpWatchRuns.OneOutcome | internal/modules/ipwatch/monitor.go:307-361 | over every run, at most one outcome is ever published for an attempt and it is resent unchanged |
| IpWatchRuns.DurableFirst | internal/modules/ipwatch/monitor.go:326-353 | an outcome is on disk before it is first published |
| IpWatchRuns.NaturalIsOlder | internal/modules/ipwatch/monitor.go:326-356 | while an attempt is open no natural report is made, and one still sent is older than the attempt |
| IpWatchGrace.UnchangedNeedsTwo | internal/modules/ipwatch/monitor.go:307-361 | over every run, unchanged rests on exactly two observations of the old address, both taken in and the deciding one made at or after the grace; both were made then if and only if the first was not on its way as the grace ended |
| IpWatchGrace.UnchangedInTime | internal/modules/ipwatch/monitor.go:307-361 | if the loop was not observing as the clock passed the grace, both observations of an unchanged attempt were made in time |
| IpWatchGrace.OneStraddles | internal/modules/ipwatch/monitor.go:307-325 | at most one observation of the old address is on its way at any one moment |
| IpWatchGrace.EarlyObservationCounts | internal/modules/ipwatch/monitor.go:333-338 | a concrete run in which an observation made before the grace helps to end the attempt as unchanged |
| IpWatchRuns.DiskIsSound | internal/modules/ipwatch/monitor.go:114-136 | whatever is saved can be read back by a later process |

## Left out
- The ledger's `Flows`, `Err` and `Connections` read the state and change nothing.
- Pointers to sockets: the model names a socket by its kernel cookie, so aliasing of `*socket` values is not captured.
- The sort in `dropOldClaims` is a repeated choice of the oldest claim; claims that came at the same instant may go in any order.
- LedgerDispute.DisputedInEveryOrder: asks that late lines do not follow newer ones of the connection; LateLineHides shows why, and DisputedExactly says what happens without it.
- LedgerDispute.DisputedExactly: asks that the connection is alone at its address, closed only by notice, and that neither it nor what waits there is forgotten during the run.
- LedgerOwner.UserIsOwner: asks that no connection of the address is open during the first dump, but for those that open after the kernel was asked and stay open, and those that close during it and wrote no line; FirstDumpWindow shows why. Close notices come as connections close.
- LedgerHeard.OwnerOnceHeard: asks that lines are prompt; LateLineUnbound shows why.
- LogFollowerRuns.PassesTheStream: a truncation takes only what was copied or read: what is written between the copy and the truncation and not read by then is lost, as internal/xray/accesslog/follow.go:22 says. A poll after a truncation can tell it from the file, comes before the log is copied again (CopiedAgainTwice shows why) and finds at most one read's worth in the copy; when polls came between copy and truncation, another comes before the next copy. Read errors are not modelled.
- Addresses, stamps and sources are parsed by opaque functions; byte order marks and character encodings are not modelled.
- OperationExecutor.AtMostOnce: counts the ends that reached the state file; the callers that join a live execution and wait for its result are not modelled, and neither are contexts.
- The JSON of the state files and of results: a file is a cell that holds a value, and a result has a size.
- RateLimitConverge.Rules.Converge: asks that fewer than 2^32 filters were added since the rules were last removed; a single deletion of an orphan reports its outcome truly; the kernel holds only the module's own filters and actions, and rules changed by hand are seen by `Apply` only through the number of filters.
- RateLimitPlan.Plan: the flows of a client are taken in the order given, so which connections go without a filter past the limit is open; the order of batch lines of one kind is open too.
- The text of tc commands and listings: cleanup either leaves nothing of the module's or fails with anything left.
- The ticker of the limiter and `Leftovers`, which repeat what is modelled.
- XuiPasses.TwoPasses: traffic counted between the two passes is the same; the identity to be given must clash with no other client's identity or secret, which for Shadowsocks includes that no foreign password is a wanted email.
- XuiPanel.Panel.Apply: keys that are no inbound id, and writes by others to the panel while it runs, are not modelled; unwanted clients are removed in any order.
- XuiState.LocalState.SetReset: that a reset forgotten by KeepOnly and wanted again runs again is not stated.
- IPv6 of the address monitor, which has no attempt, and the wake-ups and delays of its loop.
- IpWatchGrace.UnchangedNeedsTwo: asks that the clock never goes back.
- WSS transport, enrollment, downloads, diagnostics, the relay, desired-state engine, routing templates, snapshots and the record queue.
